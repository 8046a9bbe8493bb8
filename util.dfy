/** Sequence helpers shared by the log buffer and the chart buffer. */
module Seqs {

  function Min(a: int, b: int): int { if a < b then a else b }

  /** JavaScript's `s.slice(-n)` for a positive `n`: the last `n` elements, or all of `s` when it is shorter. */
  function SliceLast<T>(s: seq<T>, n: nat): seq<T>
    requires n > 0
  {
    if |s| <= n then s else s[|s| - n..]
  }

  /** `[...s.slice(-keep), x]`: append `x` after keeping at most `keep` of the old entries. */
  function Push<T>(s: seq<T>, x: T, keep: nat): seq<T>
    requires keep > 0
  {
    SliceLast(s, keep) + [x]
  }

  /** `s.slice(-n)` is a suffix of `s` with `min(|s|, n)` elements. */
  lemma SliceLastShape<T>(s: seq<T>, n: nat)
    requires n > 0
    ensures |SliceLast(s, n)| == Min(|s|, n)
    ensures s == s[..|s| - Min(|s|, n)] + SliceLast(s, n)
  {
  }

  /** A push keeps the newest `min(|s|, keep)` old entries in order and then the new one: the buffer never
      holds more than `keep + 1` entries, and nothing is dropped while it holds at most `keep`. */
  lemma PushShape<T>(s: seq<T>, x: T, keep: nat)
    requires keep > 0
    ensures var r := Push(s, x, keep);
      && |r| == Min(|s|, keep) + 1 && |r| <= keep + 1
      && r[..|r| - 1] == s[|s| - Min(|s|, keep)..]
      && r[|r| - 1] == x
      && (|s| <= keep ==> r == s + [x])
  {
    var r := Push(s, x, keep);
    assert r[..|r| - 1] == SliceLast(s, keep);
  }

  lemma SliceLastOfSliceLast<T>(a: seq<T>, b: seq<T>, n: nat)
    requires n > 0
    ensures SliceLast(SliceLast(a, n) + b, n) == SliceLast(a + b, n)
  {
    SliceLastShape(a, n);
    var a' := SliceLast(a, n);
    assert a + b == a[..|a| - |a'|] + (a' + b);
  }

  lemma ConcatAssoc<T>(a: seq<T>, b: seq<T>, c: seq<T>)
    ensures a + (b + c) == (a + b) + c
  {
  }

  /** A push is the newest `keep + 1` entries of the buffer with the new one appended. */
  lemma PushAsSliceLast<T>(s: seq<T>, x: T, keep: nat)
    requires keep > 0
    ensures Push(s, x, keep) == SliceLast(s + [x], keep + 1)
  {
    if |s| > keep {
      assert (s + [x])[|s + [x]| - (keep + 1)..] == s[|s| - keep..] + [x];
    }
  }

  /** Pushing `x` onto the newest `keep + 1` of the entries pushed so far leaves the newest `keep + 1` of all
      of them, in order: entries leave the buffer only from its old end. */
  lemma PushWindow<T>(s: seq<T>, x: T, keep: nat)
    requires keep > 0
    ensures Push(SliceLast(s, keep + 1), x, keep) == SliceLast(s + [x], keep + 1)
  {
    PushAsSliceLast(SliceLast(s, keep + 1), x, keep);
    SliceLastOfSliceLast(s, [x], keep + 1);
  }

  /** The consecutive integers `lo + 1, lo + 2, ..., hi`. */
  function Samples(lo: nat, hi: nat): seq<nat>
    decreases hi
  {
    if hi <= lo then [] else Samples(lo, hi - 1) + [hi]
  }

  lemma {:induction false} SamplesAt(lo: nat, hi: nat)
    ensures |Samples(lo, hi)| == if lo <= hi then hi - lo else 0
    ensures forall i :: 0 <= i < |Samples(lo, hi)| ==> Samples(lo, hi)[i] == lo + i + 1
    ensures StrictlyIncreasing(Samples(lo, hi))
    decreases hi
  {
    if lo < hi {
      SamplesAt(lo, hi - 1);
    }
  }

  lemma {:induction false} SamplesSplit(lo: nat, mid: nat, hi: nat)
    requires lo <= mid <= hi
    ensures Samples(lo, mid) + Samples(mid, hi) == Samples(lo, hi)
    decreases hi
  {
    if mid < hi {
      SamplesSplit(lo, mid, hi - 1);
      ConcatAssoc(Samples(lo, mid), Samples(mid, hi - 1), [hi]);
    } else {
      assert Samples(mid, hi) == [];
    }
  }

  /** The consecutive integers `lo, lo + 1, ..., hi - 1`. */
  function Range(lo: nat, hi: nat): seq<nat>
    decreases hi
  {
    if hi <= lo then [] else Range(lo, hi - 1) + [hi - 1]
  }

  lemma {:induction false} RangeAt(lo: nat, hi: nat)
    ensures |Range(lo, hi)| == if lo <= hi then hi - lo else 0
    ensures forall i :: 0 <= i < |Range(lo, hi)| ==> Range(lo, hi)[i] == lo + i
    ensures StrictlyIncreasing(Range(lo, hi))
    decreases hi
  {
    if lo < hi {
      RangeAt(lo, hi - 1);
    }
  }

  predicate StrictlyIncreasing(s: seq<nat>)
  {
    forall i, j :: 0 <= i < j < |s| ==> s[i] < s[j]
  }
}

/** Decimal formatting of numbers inside template strings. */
module Format {

  function Digit(d: nat): char
    requires d < 10
  {
    "0123456789"[d]
  }

  function NatToString(n: nat): (s: string)
    ensures |s| > 0
    decreases n
  {
    if n < 10 then [Digit(n)] else NatToString(n / 10) + [Digit(n % 10)]
  }

  function IntToString(i: int): string
  {
    if i < 0 then "-" + NatToString(-i) else NatToString(i)
  }
}
