/**
  The bits of a non-negative machine integer, lowest first.  Masking with `1 << k` is
  spelled out bit by bit, so one theory serves 32-bit words and bytes alike.
 */
module Bits {
  /** `(w & (1 << k)) !== 0`. */
  predicate Bit(w: nat, k: nat)
    decreases k
  {
    if k == 0 then w % 2 == 1 else Bit(w / 2, k - 1)
  }

  /** `w | (1 << k)`. */
  function WithBit(w: nat, k: nat): nat
    decreases k
  {
    if k == 0 then w / 2 * 2 + 1 else WithBit(w / 2, k - 1) * 2 + w % 2
  }

  /** `w & ~(1 << k)`. */
  function WithoutBit(w: nat, k: nat): nat
    decreases k
  {
    if k == 0 then w / 2 * 2 else WithoutBit(w / 2, k - 1) * 2 + w % 2
  }

  function Pow2(n: nat): (p: nat)
    ensures p > 0
  {
    if n == 0 then 1 else 2 * Pow2(n - 1)
  }

  /** Setting one bit changes that bit and no other. */
  lemma {:induction false} SetOne(w: nat, j: nat, k: nat)
    ensures Bit(WithBit(w, k), j) <==> j == k || Bit(w, j)
    decreases j
  {
    if j > 0 {
      if k > 0 {
        SetOne(w / 2, j - 1, k - 1);
      }
    }
  }

  /** So does clearing one. */
  lemma {:induction false} ClearOne(w: nat, j: nat, k: nat)
    ensures Bit(WithoutBit(w, k), j) <==> j != k && Bit(w, j)
    decreases j
  {
    if j > 0 {
      if k > 0 {
        ClearOne(w / 2, j - 1, k - 1);
      }
    }
  }

  lemma {:induction false} NoBits(j: nat)
    ensures !Bit(0, j)
    decreases j
  {
    if j > 0 {
      NoBits(j - 1);
    }
  }

  /** Neither leaves the width. */
  lemma {:induction false} Width(w: nat, k: nat, n: nat)
    requires w < Pow2(n) && k < n
    ensures WithBit(w, k) < Pow2(n) && WithoutBit(w, k) < Pow2(n)
    decreases n
  {
    if k > 0 {
      Width(w / 2, k - 1, n - 1);
    }
  }

  /** Within `n` bits a number is its bits. */
  lemma {:induction false} SameBits(v: nat, w: nat, n: nat)
    requires v < Pow2(n) && w < Pow2(n)
    requires forall k :: 0 <= k < n ==> (Bit(v, k) <==> Bit(w, k))
    ensures v == w
    decreases n
  {
    if n > 0 {
      forall k | 0 <= k < n - 1 ensures Bit(v / 2, k) <==> Bit(w / 2, k) {
        assert Bit(v, k + 1) <==> Bit(w, k + 1);
      }
      SameBits(v / 2, w / 2, n - 1);
      assert Bit(v, 0) <==> Bit(w, 0);
    }
  }

  /** `w >>> s`. */
  function Shr(w: nat, s: nat): nat
    decreases s
  {
    if s == 0 then w else Shr(w / 2, s - 1)
  }

  lemma {:induction false} ShrBit(w: nat, s: nat, k: nat)
    ensures Bit(Shr(w, s), k) <==> Bit(w, k + s)
    decreases s
  {
    if s > 0 {
      ShrBit(w / 2, s - 1, k);
    }
  }

  lemma {:induction false} ShrSmaller(w: nat, s: nat)
    ensures Shr(w, s) <= w && (s == 0 ==> Shr(w, s) == w)
    decreases s
  {
    if s > 0 {
      ShrSmaller(w / 2, s - 1);
    }
  }

  lemma {:induction false} BeyondWidth(w: nat, n: nat, k: nat)
    requires w < Pow2(n) && k >= n
    ensures !Bit(w, k)
    decreases n
  {
    if n == 0 {
      NoBits(k);
    } else {
      BeyondWidth(w / 2, n - 1, k - 1);
    }
  }
}
