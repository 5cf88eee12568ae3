/** The anti-replay window: a ring of 32-bit words that stands for the set of accepted numbers. */
module ReplayWindow {
  import opened Bits

  /** Number.MAX_SAFE_INTEGER. */
  const MAX_SAFE := 0x1F_FFFF_FFFF_FFFF

  type word = x: int | 0 <= x < 0x1_0000_0000

  predicate Safe(s: int) {
    0 <= s <= MAX_SAFE
  }

  /** What the window is for: never accepted, and newer than every accepted number minus the size. */
  ghost predicate Acceptable(accepted: set<int>, windowSize: nat, s: int) {
    Safe(s) && s !in accepted && forall a :: a in accepted ==> a < s + windowSize
  }

  // -- one bit of the ring ---------------------------------------------------

  predicate Slot(words: seq<word>, i: nat)
    requires i < 32 * |words|
  {
    Bit(words[i / 32], i % 32)
  }

  lemma WordWidth()
    ensures Pow2(32) == 0x1_0000_0000
  {
    assert Pow2(8) == 256;
    assert Pow2(16) == 65536;
    assert Pow2(24) == 0x100_0000;
  }

  function Or(w: word, k: nat): word
    requires k < 32
  {
    WordWidth();
    Width(w, k, 32);
    WithBit(w, k)
  }

  function AndNot(w: word, k: nat): word
    requires k < 32
  {
    WordWidth();
    Width(w, k, 32);
    WithoutBit(w, k)
  }

  function Set(words: seq<word>, i: nat): (r: seq<word>)
    requires i < 32 * |words|
    ensures |r| == |words|
  {
    words[i / 32 := Or(words[i / 32], i % 32)]
  }

  function Clear(words: seq<word>, i: nat): (r: seq<word>)
    requires i < 32 * |words|
    ensures |r| == |words|
  {
    words[i / 32 := AndNot(words[i / 32], i % 32)]
  }

  lemma SlotAfter(words: seq<word>, i: nat, j: nat)
    requires i < 32 * |words| && j < 32 * |words|
    ensures Slot(Set(words, i), j) <==> j == i || Slot(words, j)
    ensures Slot(Clear(words, i), j) <==> j != i && Slot(words, j)
  {
    hide Bit, WithBit, WithoutBit, Pow2;
    if i / 32 == j / 32 {
      SetOne(words[i / 32], j % 32, i % 32);
      ClearOne(words[i / 32], j % 32, i % 32);
    }
  }

  lemma Multiple(d: int, size: int)
    requires size > 0
    ensures d >= 1 ==> d * size >= size
    ensures d <= 0 ==> d * size <= 0
  {
  }

  lemma Divide(s: int, size: int)
    requires size > 0
    ensures s == (s / size) * size + s % size
  {
  }

  lemma Subtract(a: int, b: int, size: int)
    ensures b * size - a * size == (b - a) * size
  {
  }

  /** Where in a ring of `size` slots a number lives. */
  function Position(s: int, size: nat): (i: nat)
    requires s >= 0 && size > 0
    ensures i < size
  {
    s % size
  }

  /** Two numbers less than a ring apart have different places. */
  lemma PositionsDiffer(s: int, t: int, size: nat)
    requires 0 <= s < t < s + size
    ensures Position(s, size) != Position(t, size)
  {
    if s % size == t % size {
      var (a, b) := (s / size, t / size);
      Divide(s, size);
      Divide(t, size);
      Subtract(a, b, size);
      Multiple(b - a, size);
      assert false;
    }
  }

  // -- the refinement --------------------------------------------------------

  /** Within the live window a bit is set exactly for an accepted number. */
  ghost predicate Represents(words: seq<word>, size: nat, highest: int, accepted: set<int>)
    requires 0 < size <= 32 * |words|
  {
    forall s :: 0 <= s <= highest && highest < s + size ==> (Slot(words, Position(s, size)) <==> s in accepted)
  }

  ghost predicate Blank(words: seq<word>) {
    forall i :: 0 <= i < 32 * |words| ==> !Slot(words, i)
  }

  lemma ZeroIsBlank(words: seq<word>)
    requires forall k :: 0 <= k < |words| ==> words[k] == 0
    ensures Blank(words)
  {
    hide Bit;
    forall i | 0 <= i < 32 * |words| ensures !Slot(words, i) {
      NoBits(i % 32);
    }
  }

  /** Recording `s`, whether it is the first number, inside the window, or just slid up to. */
  lemma RecordKeeps(words: seq<word>, size: nat, highest: int, accepted: set<int>, s: int)
    requires 0 < size == 32 * |words| && 0 <= s <= highest < s + size
    requires forall t :: 0 <= t <= highest && highest < t + size && t != s ==>
      (Slot(words, Position(t, size)) <==> t in accepted)
    ensures Represents(Set(words, Position(s, size)), size, highest, accepted + {s})
  {
    hide Set, Slot, Position;
    forall t | 0 <= t <= highest && highest < t + size
      ensures Slot(Set(words, Position(s, size)), Position(t, size)) <==> t in accepted + {s}
    {
      SlotAfter(words, Position(s, size), Position(t, size));
      if t < s { PositionsDiffer(t, s, size); }
      if s < t { PositionsDiffer(s, t, size); }
    }
  }

  /** Clearing the slot of `s`, on the way from `highest` to `target`. */
  lemma SlideKeeps(words: seq<word>, size: nat, highest: int, target: int, accepted: set<int>, s: int)
    requires 0 < size == 32 * |words| && 0 <= highest < s <= target < highest + size
    requires forall a :: a in accepted ==> a <= highest
    requires forall t :: 0 <= t < s && target < t + size ==> (Slot(words, Position(t, size)) <==> t in accepted)
    ensures forall t :: 0 <= t < s + 1 && target < t + size ==>
      (Slot(Clear(words, Position(s, size)), Position(t, size)) <==> t in accepted)
  {
    hide Clear, Slot, Position;
    forall t | 0 <= t < s + 1 && target < t + size
      ensures Slot(Clear(words, Position(s, size)), Position(t, size)) <==> t in accepted
    {
      SlotAfter(words, Position(s, size), Position(t, size));
      if t < s { PositionsDiffer(t, s, size); }
    }
  }

  class ReplayWindow {
    const windowSize: nat
    const bitmap: array<word>
    var highest: nat
    var seenAny: bool
    ghost var accepted: set<int>

    ghost predicate Valid()
      reads this, bitmap
    {
      && windowSize >= 32 && windowSize == 32 * bitmap.Length
      && highest <= MAX_SAFE
      && (seenAny <==> accepted != {})
      && (seenAny ==>
           && highest in accepted && (forall a :: a in accepted ==> 0 <= a <= highest)
           && Represents(bitmap[..], windowSize, highest, accepted))
      && (!seenAny ==> highest == 0 && Blank(bitmap[..]))
    }

    constructor (windowSize: nat)
      requires windowSize >= 32 && windowSize % 32 == 0
      ensures Valid() && fresh(bitmap) && this.windowSize == windowSize && accepted == {}
    {
      this.windowSize := windowSize;
      bitmap := new word[windowSize / 32](_ => 0);
      highest := 0;
      seenAny := false;
      accepted := {};
      new;
      ZeroIsBlank(bitmap[..]);
    }

    predicate GetBit(seq_: int)
      requires Valid() && seq_ >= 0
      reads this, bitmap
    {
      var i := Position(seq_, windowSize);
      Bit(bitmap[i / 32], i % 32)
    }

    predicate IsReplay(seq_: int)
      requires Valid()
      reads this, bitmap
      ensures IsReplay(seq_) <==> !Acceptable(accepted, windowSize, seq_)
    {
      assert seenAny && 0 <= seq_ <= highest && highest < seq_ + windowSize ==>
      (Slot(bitmap[..], Position(seq_, windowSize)) <==> seq_ in accepted);
      assert seenAny ==> highest in accepted;
      if !Safe(seq_) then true
      else if !seenAny then false
      else if seq_ > highest then false
      else if seq_ + windowSize <= highest then true
      else GetBit(seq_)
    }

    method SetBit(seq_: int)
      requires windowSize == 32 * bitmap.Length && seq_ >= 0 && windowSize > 0
      modifies bitmap
      ensures bitmap[..] == Set(old(bitmap[..]), Position(seq_, windowSize))
    {
      var i := Position(seq_, windowSize);
      bitmap[i / 32] := Or(bitmap[i / 32], i % 32);
    }

    method ClearBit(seq_: int)
      requires windowSize == 32 * bitmap.Length && seq_ >= 0 && windowSize > 0
      modifies bitmap
      ensures bitmap[..] == Clear(old(bitmap[..]), Position(seq_, windowSize))
    {
      var i := Position(seq_, windowSize);
      bitmap[i / 32] := AndNot(bitmap[i / 32], i % 32);
    }

    method FillZero()
      modifies bitmap
      ensures Blank(bitmap[..])
    {
      for i := 0 to bitmap.Length
        invariant forall k :: 0 <= k < i ==> bitmap[k] == 0
      {
        bitmap[i] := 0;
      }
      ZeroIsBlank(bitmap[..]);
    }

    /** Forget the numbers that leave the window when `seq_` becomes the highest. */
    method Slide(seq_: int)
      requires Valid() && seenAny && highest < seq_
      modifies bitmap
      ensures forall t :: 0 <= t < seq_ && seq_ < t + windowSize ==>
        (Slot(bitmap[..], Position(t, windowSize)) <==> t in accepted)
    {
      hide Slot, Set, Clear, Position;
      var advance := seq_ - highest;
      if advance >= windowSize {
        FillZero();
      } else {
        var s: int := highest + 1;
        while s <= seq_
          invariant highest < s <= seq_ + 1
          invariant forall t :: 0 <= t < s && seq_ < t + windowSize ==>
            (Slot(bitmap[..], Position(t, windowSize)) <==> t in accepted)
        {
          SlideKeeps(bitmap[..], windowSize, highest, seq_, accepted, s);
          ClearBit(s);
          s := s + 1;
        }
      }
    }

    method Accept(seq_: int) returns (ok: bool)
      requires Valid()
      modifies this, bitmap
      ensures Valid()
      ensures ok <==> Acceptable(old(accepted), windowSize, seq_)
      ensures accepted == if ok then old(accepted) + {seq_} else old(accepted)
      ensures !ok ==> bitmap[..] == old(bitmap[..]) && highest == old(highest) && seenAny == old(seenAny)
    {
      hide Slot, Set, Clear, Position;
      if IsReplay(seq_) { return false; }
      if !seenAny {
        seenAny := true;
        highest := seq_;
      } else if seq_ > highest {
        Slide(seq_);
        highest := seq_;
      }
      RecordKeeps(bitmap[..], windowSize, highest, accepted, seq_);
      SetBit(seq_);
      accepted := accepted + {seq_};
      return true;
    }

    method Reset()
      requires Valid()
      modifies this, bitmap
      ensures Valid() && accepted == {}
    {
      FillZero();
      highest, seenAny, accepted := 0, false, {};
    }
  }

  // -- any sequence of calls -------------------------------------------------

  /** Is call `i` fresh with respect to the calls accepted before it? */
  ghost predicate NewAt(windowSize: nat, calls: seq<int>, verdicts: seq<bool>, i: nat)
    requires i < |calls| && i <= |verdicts|
  {
    Safe(calls[i]) && forall j :: 0 <= j < i && verdicts[j] ==> calls[j] != calls[i] && calls[j] < calls[i] + windowSize
  }

  ghost predicate AcceptedIn(calls: seq<int>, verdicts: seq<bool>, a: int)
    requires |verdicts| <= |calls|
  {
    exists j :: 0 <= j < |verdicts| && verdicts[j] && calls[j] == a
  }

  lemma NewIsAcceptable(windowSize: nat, calls: seq<int>, verdicts: seq<bool>, accepted: set<int>)
    requires |verdicts| < |calls|
    requires forall a :: a in accepted <==> AcceptedIn(calls, verdicts, a)
    ensures Acceptable(accepted, windowSize, calls[|verdicts|]) <==> NewAt(windowSize, calls, verdicts, |verdicts|)
  {
    var s := calls[|verdicts|];
    if Acceptable(accepted, windowSize, s) {
      forall j | 0 <= j < |verdicts| && verdicts[j] ensures calls[j] != s && calls[j] < s + windowSize {
        assert AcceptedIn(calls, verdicts, calls[j]);
      }
    }
  }

  lemma VerdictExtends(calls: seq<int>, verdicts: seq<bool>, ok: bool, accepted: set<int>)
    requires |verdicts| < |calls|
    requires forall a :: a in accepted <==> AcceptedIn(calls, verdicts, a)
    ensures
      var accepted' := if ok then accepted + {calls[|verdicts|]} else accepted;
      forall a :: a in accepted' <==> AcceptedIn(calls, verdicts + [ok], a)
  {
    var more := verdicts + [ok];
    forall a ensures AcceptedIn(calls, more, a) <==> AcceptedIn(calls, verdicts, a) || (ok && a == calls[|verdicts|]) {
      if AcceptedIn(calls, verdicts, a) {
        var j :| 0 <= j < |verdicts| && verdicts[j] && calls[j] == a;
        assert more[j];
      }
      if ok && a == calls[|verdicts|] {
        assert more[|verdicts|];
      }
    }
  }

  /** What a caller sees of a fresh window, whatever it asks. */
  method AcceptAll(windowSize: nat, calls: seq<int>) returns (verdicts: seq<bool>)
    requires windowSize >= 32 && windowSize % 32 == 0
    ensures |verdicts| == |calls|
    ensures forall i :: 0 <= i < |calls| ==> (verdicts[i] <==> NewAt(windowSize, calls, verdicts, i))
  {
    hide Slot, Set, Clear, Represents, Blank, Position, Acceptable, AcceptedIn;
    var w := new ReplayWindow(windowSize);
    verdicts := [];
    assert forall a :: !AcceptedIn(calls, [], a) by { NothingYet(calls); }
    for i := 0 to |calls|
      invariant w.Valid() && w.windowSize == windowSize && fresh(w) && fresh(w.bitmap) && |verdicts| == i
      invariant forall a :: a in w.accepted <==> AcceptedIn(calls, verdicts, a)
      invariant forall k :: 0 <= k < i ==> (verdicts[k] <==> NewAt(windowSize, calls, verdicts, k))
    {
      NewIsAcceptable(windowSize, calls, verdicts, w.accepted);
      ghost var before := w.accepted;
      var ok := w.Accept(calls[i]);
      VerdictExtends(calls, verdicts, ok, before);
      verdicts := verdicts + [ok];
    }
  }

  lemma NothingYet(calls: seq<int>)
    ensures forall a :: !AcceptedIn(calls, [], a)
  {
  }
}
