/** Exact arithmetic of whole steps: the time they cover and how many fit. */
module FixedStep {
  /** The time `n` steps cover. */
  function Span(n: int, step: real): real {
    n as real * step
  }

  lemma Scale(a: real, b: real, step: real)
    requires step > 0.0
    ensures a < b <==> a * step < b * step
  {
  }

  lemma SpanOrder(n: int, m: int, step: real)
    requires step > 0.0
    ensures n < m <==> Span(n, step) < Span(m, step)
  {
    Scale(n as real, m as real, step);
  }

  lemma SpanAdds(n: int, m: int, step: real)
    ensures Span(n + m, step) == Span(n, step) + Span(m, step)
  {
    assert (n + m) as real == n as real + m as real;
  }

  lemma Quotient(x: real, step: real, n: int)
    requires step > 0.0
    ensures x / step < n as real <==> x < Span(n, step)
  {
    assert (x / step) * step == x;
    Scale(x / step, n as real, step);
  }

  lemma FloorOf(x: real, step: real, n: int)
    requires step > 0.0
    ensures (x / step).Floor == n <==> Span(n, step) <= x < Span(n + 1, step)
  {
    hide Span;
    Quotient(x, step, n);
    Quotient(x, step, n + 1);
    Between(x / step, n);
  }

  lemma Between(q: real, n: int)
    ensures q.Floor == n <==> !(q < n as real) && q < (n + 1) as real
  {
    assert (n + 1) as real == n as real + 1.0;
  }

  /** `n` whole steps and less than one more, or at least one more. */
  lemma FloorBy(all: real, step: real, n: int, rest: real)
    requires step > 0.0 && 0.0 <= rest < step
    ensures Span(n, step) + rest == all ==> (all / step).Floor == n
    ensures Span(n + 1, step) + rest <= all ==> (all / step).Floor > n
  {
    hide Span;
    SpanOne(step);
    SpanAdds(n, 1, step);
    FloorOf(all, step, n);
    var due := (all / step).Floor;
    FloorOf(all, step, due);
    SpanOrder(n + 1, due + 1, step);
  }

  lemma SpanOne(step: real)
    ensures Span(0, step) == 0.0 && Span(1, step) == step
  {
  }
}
