/** Free lists: sorted, coalesced runs of unused bytes inside the used prefix of one segment. */
module Extents {
  datatype Span = Span(offset: nat, length: nat) {
    function End(): nat {
      offset + length
    }
  }

  ghost predicate FreeAt(f: seq<Span>, b: int) {
    exists i :: 0 <= i < |f| && f[i].offset <= b < f[i].End()
  }

  /** Sorted and inside [0, tail); spans `loose - 1`, `loose` and `loose + 1` may touch. */
  ghost predicate Sorted(f: seq<Span>, tail: nat, loose: int) {
    && (forall i :: 0 <= i < |f| ==> f[i].length > 0 && f[i].End() <= tail)
    && (forall i, j :: 0 <= i < j < |f| ==>
         f[i].End() < f[j].offset || (f[i].End() == f[j].offset && j == i + 1 && (i == loose || j == loose)))
  }

  /** No two free spans overlap or touch. */
  ghost predicate Coalesced(f: seq<Span>, tail: nat) {
    Sorted(f, tail, -1)
  }

  function Total(f: seq<Span>): nat {
    if f == [] then 0 else f[0].length + Total(f[1..])
  }

  // --- Taking bytes out of a free list ---

  function Without(f: seq<Span>, i: nat): seq<Span>
    requires i < |f|
  {
    f[..i] + f[i + 1..]
  }

  /** The first `size` bytes of span `i` are taken. */
  function Taken(f: seq<Span>, i: nat, size: nat): seq<Span>
    requires i < |f| && size <= f[i].length
  {
    if f[i].length == size then Without(f, i)
    else f[i := Span(f[i].offset + size, f[i].length - size)]
  }

  lemma TakenKeeps(f: seq<Span>, tail: nat, i: nat, size: nat)
    requires Coalesced(f, tail) && i < |f| && 0 < size <= f[i].length
    ensures Coalesced(Taken(f, i, size), tail)
    ensures forall b :: FreeAt(Taken(f, i, size), b) <==> FreeAt(f, b) && !(f[i].offset <= b < f[i].offset + size)
  {
    hide FreeAt;
    Beside(f, tail, i);
    WithoutCoalesced(f, tail, i);
    hide Sorted, Without;
    if f[i].length == size {
      WithoutFree(f, i);
    } else {
      ShrunkCoalesced(f, tail, i, size);
      ShrunkFree(f, i, size);
    }
  }

  /** Span `i` overlaps no other span of `f`. */
  ghost predicate Alone(f: seq<Span>, i: nat)
    requires i < |f|
  {
    forall j :: 0 <= j < |f| && j != i ==> f[j].End() <= f[i].offset || f[i].End() <= f[j].offset
  }

  lemma Beside(f: seq<Span>, tail: nat, i: nat)
    requires Coalesced(f, tail) && i < |f|
    ensures Alone(f, i)
  {
  }

  lemma WithoutCoalesced(f: seq<Span>, tail: nat, i: nat)
    requires Coalesced(f, tail) && i < |f|
    ensures Coalesced(Without(f, i), tail)
  {
    var g := Without(f, i);
    assert forall j :: 0 <= j < |g| ==> g[j] == if j < i then f[j] else f[j + 1];
  }

  lemma WithoutFree(f: seq<Span>, i: nat)
    requires i < |f| && Alone(f, i)
    ensures forall b :: FreeAt(Without(f, i), b) <==> FreeAt(f, b) && !(f[i].offset <= b < f[i].End())
  {
    var g := Without(f, i);
    forall b ensures FreeAt(g, b) <==> FreeAt(f, b) && !(f[i].offset <= b < f[i].End()) {
      if FreeAt(f, b) && !(f[i].offset <= b < f[i].End()) {
        var j :| 0 <= j < |f| && f[j].offset <= b < f[j].End();
        assert g[if j < i then j else j - 1] == f[j];
      }
      if FreeAt(g, b) {
        var j :| 0 <= j < |g| && g[j].offset <= b < g[j].End();
        assert f[if j < i then j else j + 1] == g[j];
      }
    }
  }

  lemma ShrunkCoalesced(f: seq<Span>, tail: nat, i: nat, size: nat)
    requires Coalesced(f, tail) && i < |f| && 0 < size < f[i].length
    ensures Coalesced(f[i := Span(f[i].offset + size, f[i].length - size)], tail)
  {
  }

  lemma ShrunkFree(f: seq<Span>, i: nat, size: nat)
    requires i < |f| && Alone(f, i) && 0 < size < f[i].length
    ensures var g := f[i := Span(f[i].offset + size, f[i].length - size)];
      forall b :: FreeAt(g, b) <==> FreeAt(f, b) && !(f[i].offset <= b < f[i].offset + size)
  {
    var g := f[i := Span(f[i].offset + size, f[i].length - size)];
    forall b ensures FreeAt(g, b) <==> FreeAt(f, b) && !(f[i].offset <= b < f[i].offset + size) {
      if FreeAt(f, b) && !(f[i].offset <= b < f[i].offset + size) {
        var j :| 0 <= j < |f| && f[j].offset <= b < f[j].End();
        assert g[j].offset <= b < g[j].End();
      }
      if FreeAt(g, b) {
        var j :| 0 <= j < |g| && g[j].offset <= b < g[j].End();
        assert f[j].offset <= b < f[j].End();
      }
    }
  }

  // --- Giving bytes back ---

  function Inserted(f: seq<Span>, i: nat, s: Span): seq<Span>
    requires i <= |f|
  {
    f[..i] + [s] + f[i..]
  }

  lemma InsertedKeeps(f: seq<Span>, tail: nat, i: nat, s: Span)
    requires Coalesced(f, tail) && i <= |f| && s.length > 0 && s.End() <= tail
    requires forall b :: s.offset <= b < s.End() ==> !FreeAt(f, b)
    requires forall j :: 0 <= j < i ==> f[j].offset <= s.offset
    requires forall j :: i <= j < |f| ==> f[j].offset > s.offset
    ensures Sorted(Inserted(f, i, s), tail, i)
    ensures forall b :: FreeAt(Inserted(f, i, s), b) <==> FreeAt(f, b) || s.offset <= b < s.End()
  {
    forall j | 0 <= j < |f| ensures if j < i then f[j].End() <= s.offset else s.End() <= f[j].offset {
      assert f[j].length > 0;
      assert f[j].offset <= s.offset < f[j].End() ==> FreeAt(f, s.offset);
      assert s.offset <= f[j].offset < s.End() ==> FreeAt(f, f[j].offset);
    }
    hide FreeAt;
    InsertedFree(f, i, s);
    InsertedSorted(f, tail, i, s);
  }

  lemma InsertedSorted(f: seq<Span>, tail: nat, i: nat, s: Span)
    requires Coalesced(f, tail) && i <= |f| && s.length > 0 && s.End() <= tail
    requires forall j :: 0 <= j < |f| ==> if j < i then f[j].End() <= s.offset else s.End() <= f[j].offset
    ensures Sorted(Inserted(f, i, s), tail, i)
  {
    var g := Inserted(f, i, s);
    forall j | 0 <= j < |g| ensures g[j] == (if j < i then f[j] else if j == i then s else f[j - 1]) && g[j].length > 0 && g[j].End() <= tail {
    }
    hide Inserted;
    forall j, k | 0 <= j < k < |g|
      ensures g[j].End() < g[k].offset || (g[j].End() == g[k].offset && k == j + 1 && (j == i || k == i))
    {
      BetweenSorted(f, tail, i, s, j, k);
    }
  }

  /** Two spans around the place of `s`, or one of them and `s` itself. */
  lemma BetweenSorted(f: seq<Span>, tail: nat, i: nat, s: Span, j: nat, k: nat)
    requires Coalesced(f, tail) && i <= |f| && j < k <= |f| && s.length > 0
    requires forall h :: 0 <= h < |f| ==> if h < i then f[h].End() <= s.offset else s.End() <= f[h].offset
    ensures var a := if j < i then f[j] else if j == i then s else f[j - 1];
      var b := if k < i then f[k] else if k == i then s else f[k - 1];
      a.End() < b.offset || (a.End() == b.offset && k == j + 1 && (j == i || k == i))
  {
    if k < i {
    } else if j > i {
    } else if j < i && i < k {
      assert f[j].End() <= s.offset < s.End() <= f[k - 1].offset;
    } else if k == i && j + 1 < i {
      assert f[j].End() < f[i - 1].offset < f[i - 1].End() <= s.offset;
    } else if j == i && i + 1 < k {
      assert s.End() <= f[i].offset < f[i].End() < f[k - 1].offset;
    }
  }

  lemma InsertedFree(f: seq<Span>, i: nat, s: Span)
    requires i <= |f|
    ensures forall b :: FreeAt(Inserted(f, i, s), b) <==> FreeAt(f, b) || s.offset <= b < s.End()
  {
    var g := Inserted(f, i, s);
    assert g[i] == s;
    forall b ensures FreeAt(g, b) <==> FreeAt(f, b) || s.offset <= b < s.End() {
      if FreeAt(f, b) {
        var j :| 0 <= j < |f| && f[j].offset <= b < f[j].End();
        assert g[if j < i then j else j + 1] == f[j];
      }
      if FreeAt(g, b) {
        var j :| 0 <= j < |g| && g[j].offset <= b < g[j].End();
        assert j != i ==> f[if j < i then j else j - 1] == g[j];
      }
    }
  }

  /** Spans `i` and `i + 1` as one. */
  function Merged(f: seq<Span>, i: nat): seq<Span>
    requires i + 1 < |f|
  {
    f[..i] + [Span(f[i].offset, f[i].length + f[i + 1].length)] + f[i + 2..]
  }

  lemma MergedKeeps(f: seq<Span>, tail: nat, i: nat, loose: int)
    requires Sorted(f, tail, loose) && i + 1 < |f| && f[i].End() == f[i + 1].offset
    ensures loose == i ==> Sorted(Merged(f, i), tail, i)
    ensures loose == i + 1 && (i + 2 < |f| ==> f[i + 1].End() < f[i + 2].offset) ==> Coalesced(Merged(f, i), tail)
    ensures forall b :: FreeAt(Merged(f, i), b) <==> FreeAt(f, b)
  {
    MergedFree(f, i);
    MergedAt(f, i);
    hide Merged, FreeAt;
    if loose == i {
      MergedSorted(f, tail, i, loose, Merged(f, i), i);
    }
    if loose == i + 1 && (i + 2 < |f| ==> f[i + 1].End() < f[i + 2].offset) {
      MergedSorted(f, tail, i, loose, Merged(f, i), -1);
    }
  }

  /** `g` is `f` with its spans `i` and `i + 1` as one. */
  ghost predicate Joined(f: seq<Span>, i: nat, g: seq<Span>)
    requires i + 1 < |f|
  {
    && |g| == |f| - 1
    && (forall j :: 0 <= j < i ==> g[j] == f[j])
    && g[i] == Span(f[i].offset, f[i].length + f[i + 1].length)
    && (forall j :: i < j < |g| ==> g[j] == f[j + 1])
  }

  lemma MergedAt(f: seq<Span>, i: nat)
    requires i + 1 < |f|
    ensures Joined(f, i, Merged(f, i))
  {
  }

  lemma MergedSorted(f: seq<Span>, tail: nat, i: nat, loose: int, g: seq<Span>, left: int)
    requires Sorted(f, tail, loose) && i + 1 < |f| && f[i].End() == f[i + 1].offset && Joined(f, i, g)
    requires (loose == i && left == i) || (loose == i + 1 && left == -1 && (i + 2 < |f| ==> f[i + 1].End() < f[i + 2].offset))
    ensures Sorted(g, tail, left)
  {
    var one := Span(f[i].offset, f[i].length + f[i + 1].length);
    assert g[i] == one && one.End() == f[i + 1].End();
    forall j | 0 <= j < |g| ensures g[j] == (if j < i then f[j] else if j == i then one else f[j + 1]) && g[j].length > 0 && g[j].End() <= tail {
    }
    hide Joined;
    forall j, k | 0 <= j < k < |g|
      ensures g[j].End() < g[k].offset || (g[j].End() == g[k].offset && k == j + 1 && (j == left || k == left))
    {
      var a, b := if j < i then j else j + 1, if k <= i then k else k + 1;
      assert g[j].End() == f[a].End() && g[k].offset == f[b].offset && a < b;
    }
  }

  lemma MergedFree(f: seq<Span>, i: nat)
    requires i + 1 < |f| && f[i].End() == f[i + 1].offset
    ensures forall b :: FreeAt(Merged(f, i), b) <==> FreeAt(f, b)
  {
    var g := Merged(f, i);
    assert g[i] == Span(f[i].offset, f[i].length + f[i + 1].length);
    forall b ensures FreeAt(g, b) <==> FreeAt(f, b) {
      if FreeAt(f, b) {
        var j :| 0 <= j < |f| && f[j].offset <= b < f[j].End();
        assert j < i ==> g[j] == f[j];
        assert j > i + 1 ==> g[j - 1] == f[j];
      }
      if FreeAt(g, b) {
        var j :| 0 <= j < |g| && g[j].offset <= b < g[j].End();
        assert j < i ==> f[j] == g[j];
        assert j > i ==> f[j + 1] == g[j];
        assert j == i ==> f[i].offset <= b < f[i].End() || f[i + 1].offset <= b < f[i + 1].End();
      }
    }
  }

  // --- Counting ---

  ghost function Range(lo: nat, hi: nat): (r: set<int>)
    requires lo <= hi
    ensures forall b :: b in r <==> lo <= b < hi
    ensures |r| == hi - lo
    decreases hi - lo
  {
    if lo == hi then {} else {lo as int} + Range(lo + 1, hi)
  }

  /** The bytes below `tail` that no free span covers. */
  ghost function OwnedBytes(f: seq<Span>, tail: nat): set<int> {
    set b | b in Range(0, tail) && !FreeAt(f, b)
  }

  lemma FreeTail(f: seq<Span>, tail: nat, b: int)
    requires Coalesced(f, tail) && f != []
    ensures FreeAt(f, b) <==> f[0].offset <= b < f[0].End() || FreeAt(f[1..], b)
    ensures FreeAt(f[1..], b) ==> b > f[0].End()
    ensures Coalesced(f[1..], tail)
  {
    var g := f[1..];
    assert forall i :: 0 <= i < |g| ==> g[i] == f[i + 1];
    if FreeAt(f, b) {
      var j :| 0 <= j < |f| && f[j].offset <= b < f[j].End();
      assert j > 0 ==> g[j - 1] == f[j];
    }
  }

  /** The first free span covers exactly its own length of the bytes the others leave. */
  lemma OwnedStep(f: seq<Span>, tail: nat)
    requires Coalesced(f, tail) && f != []
    ensures Coalesced(f[1..], tail)
    ensures Range(f[0].offset, f[0].End()) <= OwnedBytes(f[1..], tail)
    ensures OwnedBytes(f, tail) == OwnedBytes(f[1..], tail) - Range(f[0].offset, f[0].End())
  {
    forall b
      ensures FreeAt(f, b) <==> f[0].offset <= b < f[0].End() || FreeAt(f[1..], b)
      ensures FreeAt(f[1..], b) ==> b > f[0].End()
    {
      FreeTail(f, tail, b);
    }
    FreeTail(f, tail, 0);
    assert f[0].End() <= tail;
    hide Sorted, FreeAt;
  }

  lemma MinusSize(a: set<int>, b: set<int>)
    requires b <= a
    ensures |a - b| == |a| - |b|
  {
    assert a == (a - b) + b;
  }

  /** What `used` computes, the tail less the free lengths, is the number of owned bytes. */
  lemma {:induction false} UsedCountsOwned(f: seq<Span>, tail: nat)
    requires Coalesced(f, tail)
    ensures Total(f) <= tail
    ensures |OwnedBytes(f, tail)| == tail - Total(f)
  {
    if f == [] {
      assert OwnedBytes(f, tail) == Range(0, tail);
    } else {
      hide Sorted, FreeAt, OwnedBytes;
      OwnedStep(f, tail);
      UsedCountsOwned(f[1..], tail);
      MinusSize(OwnedBytes(f[1..], tail), Range(f[0].offset, f[0].End()));
    }
  }
}
