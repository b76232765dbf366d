/**
 `do_loop_readv_writev`: a vectored transfer done one segment at a time with the plain read or write
 operation of a file.
 */
module VectoredIo {
  const EOPNOTSUPP := 95

  type Segment = seq<int>

  function Flat(segs: seq<Segment>): seq<int> {
    if segs == [] then [] else segs[0] + Flat(segs[1..])
  }

  lemma {:induction false} FlatConcat(a: seq<Segment>, b: seq<Segment>)
    ensures Flat(a + b) == Flat(a) + Flat(b)
  {
    if a == [] {
      assert a + b == b;
    } else {
      assert (a + b)[1..] == a[1..] + b;
      FlatConcat(a[1..], b);
    }
  }

  /** The next segment that is not empty, as advancing an iterator finds it. */
  function NextSegment(segs: seq<Segment>, i: nat): (j: nat)
    requires i <= |segs|
    ensures i <= j <= |segs| && (j < |segs| ==> segs[j] != [])
    ensures forall k :: i <= k < j ==> segs[k] == []
    decreases |segs| - i
  {
    if i < |segs| && segs[i] == [] then NextSegment(segs, i + 1) else i
  }

  lemma {:induction false} EmptyBetween(segs: seq<Segment>, i: nat, j: nat)
    requires i <= j <= |segs| && forall k :: i <= k < j ==> segs[k] == []
    ensures Flat(segs[..j]) == Flat(segs[..i]) && Flat(segs[i..]) == Flat(segs[j..])
    decreases j - i
  {
    if i < j {
      EmptyBetween(segs, i + 1, j);
      assert segs[..i + 1] == segs[..i] + [segs[i]];
      FlatConcat(segs[..i], [segs[i]]);
      assert Flat([segs[i]]) == [];
      assert segs[i..][1..] == segs[i + 1..];
    }
  }

  /** Nothing is left from segment `i` on. */
  predicate Exhausted(segs: seq<Segment>, i: nat)
    requires i <= |segs|
  {
    |Flat(segs[i..])| == 0
  }

  /** The first segment, from `i` on, whose operation does not move all of it; the number of segments if there is none. */
  function FirstShort(segs: seq<Segment>, op: nat -> int, i: nat): (k: nat)
    requires i <= |segs|
    ensures i <= k <= |segs|
    decreases |segs| - i
  {
    if Exhausted(segs, i) then |segs|
    else if i == |segs| || op(i) != |segs[i]| then i
    else FirstShort(segs, op, NextSegment(segs, i + 1))
  }

  /** How many bytes are moved: all segments before the first short one, and what that one moved. */
  function Moved(segs: seq<Segment>, op: nat -> int): nat {
    var k := FirstShort(segs, op, 0);
    |Flat(segs[..k])| + if k < |segs| && op(k) > 0 then op(k) else 0
  }

  /** The result: the bytes moved, or the error of the first operation that failed with nothing moved before it. */
  function Result(segs: seq<Segment>, op: nat -> int): int {
    var k := FirstShort(segs, op, 0);
    if k < |segs| && op(k) < 0 && Moved(segs, op) == 0 then op(k) else Moved(segs, op)
  }

  /** Every operation moves a prefix of its segment, or fails. */
  ghost predicate MovesPrefixes(segs: seq<Segment>, op: nat -> int) {
    forall i :: 0 <= i < |segs| ==> op(i) <= |segs[i]|
  }

  lemma FlatSplit(segs: seq<Segment>, i: nat)
    requires i <= |segs|
    ensures Flat(segs) == Flat(segs[..i]) + Flat(segs[i..])
  {
    FlatConcat(segs[..i], segs[i..]);
    assert segs[..i] + segs[i..] == segs;
  }

  /** What is moved is a prefix of the data, and all of it exactly when no operation was short. */
  lemma MovedIsPrefix(segs: seq<Segment>, op: nat -> int)
    requires MovesPrefixes(segs, op)
    ensures Moved(segs, op) <= |Flat(segs)|
    ensures Moved(segs, op) == |Flat(segs)| <==> FirstShort(segs, op, 0) == |segs|
    ensures Result(segs, op) < 0 ==> Moved(segs, op) == 0
    ensures Result(segs, op) >= 0 ==> Result(segs, op) == Moved(segs, op)
  {
    hide Flat, FirstShort, MovesPrefixes;
    var k := FirstShort(segs, op, 0);
    ShortStops(segs, op, 0);
    assert segs[..|segs|] == segs;
    FlatSplit(segs, k);
    if k < |segs| {
      PrefixAt(segs, k, |segs[k]|);
    }
  }

  lemma {:induction false} ShortStops(segs: seq<Segment>, op: nat -> int, i: nat)
    requires i <= |segs| && MovesPrefixes(segs, op)
    ensures var k := FirstShort(segs, op, i); k < |segs| ==> op(k) < |segs[k]| && |Flat(segs[k..])| > 0
    decreases |segs| - i
  {
    if !Exhausted(segs, i) && i < |segs| && op(i) == |segs[i]| {
      ShortStops(segs, op, NextSegment(segs, i + 1));
    }
  }

  /** `Flat(segs)[..]` up to the middle of segment `i`. */
  lemma PrefixAt(segs: seq<Segment>, i: nat, n: nat)
    requires i < |segs| && n <= |segs[i]|
    ensures var m := |Flat(segs[..i])| + n; m <= |Flat(segs)| && Flat(segs)[..m] == Flat(segs[..i]) + segs[i][..n]
  {
    FlatSplit(segs, i);
    assert Flat(segs[i..]) == segs[i] + Flat(segs[i..][1..]);
  }

  /** Segment `j` is dealt with completely: moved whole, or passed over because it is empty and not the first. */
  ghost predicate Complete(segs: seq<Segment>, op: nat -> int, j: nat)
    requires j < |segs|
  {
    op(j) == |segs[j]| || (j > 0 && segs[j] == [])
  }

  lemma {:induction false} FirstShortIs(segs: seq<Segment>, op: nat -> int, i: nat, k: nat)
    requires i <= k <= |segs| && (forall j :: i <= j < k ==> Complete(segs, op, j)) && (0 < i < |segs| ==> segs[i] != [])
    requires k < |segs| ==> !Complete(segs, op, k) && |Flat(segs[k..])| > 0
    ensures FirstShort(segs, op, i) == k
    decreases |segs| - i
  {
    FlatSplit(segs[i..], k - i);
    assert segs[i..][k - i..] == segs[k..];
    if i < k && !Exhausted(segs, i) {
      var n := NextSegment(segs, i + 1);
      assert Complete(segs, op, i) && op(i) == |segs[i]|;
      assert k < |segs| ==> segs[k] != [];
      FirstShortStep(segs, op, i);
      FirstShortIs(segs, op, n, k);
    }
  }

  /**
   What a transfer comes to, segment by segment: when all before `k` are dealt with and `k` is not, their bytes
   and what the operation moved of `k`; an error there is the result only if no byte came before it.
   */
  lemma StopsInSegment(segs: seq<Segment>, op: nat -> int, k: nat)
    requires k < |segs| && (forall j :: 0 <= j < k ==> Complete(segs, op, j)) && !Complete(segs, op, k) && |Flat(segs[k..])| > 0
    ensures var before := |Flat(segs[..k])|;
      && (op(k) >= 0 ==> Result(segs, op) == Moved(segs, op) == before + op(k))
      && (op(k) < 0 ==> Moved(segs, op) == before && Result(segs, op) == if before == 0 then op(k) else before)
  {
    hide Flat, FirstShort;
    FirstShortIs(segs, op, 0, k);
  }

  /** When every segment is dealt with, everything is moved. */
  lemma MovesEverything(segs: seq<Segment>, op: nat -> int)
    requires forall j :: 0 <= j < |segs| ==> Complete(segs, op, j)
    ensures Result(segs, op) == Moved(segs, op) == |Flat(segs)|
  {
    hide Flat, FirstShort;
    FirstShortIs(segs, op, 0, |segs|);
    StopAtEnd(segs, op);
  }

  lemma FirstShortStep(segs: seq<Segment>, op: nat -> int, i: nat)
    requires i <= |segs| && |Flat(segs[i..])| > 0
    ensures i < |segs|
    ensures FirstShort(segs, op, i) == if op(i) != |segs[i]| then i else FirstShort(segs, op, NextSegment(segs, i + 1))
  {}

  lemma FirstShortEnd(segs: seq<Segment>, op: nat -> int, i: nat)
    requires i <= |segs| && |Flat(segs[i..])| == 0
    ensures FirstShort(segs, op, i) == |segs|
  {}

  /** What the specification says when the transfer stops in segment `i`. */
  lemma StopAt(segs: seq<Segment>, op: nat -> int, i: nat)
    requires i < |segs| && FirstShort(segs, op, 0) == i && op(i) <= |segs[i]|
    ensures Moved(segs, op) == |Flat(segs[..i])| + if op(i) > 0 then op(i) else 0
    ensures Moved(segs, op) <= |Flat(segs)|
    ensures Flat(segs)[..Moved(segs, op)] == Flat(segs[..i]) + if op(i) > 0 then segs[i][..op(i)] else []
    ensures Result(segs, op) == if op(i) < 0 && |Flat(segs[..i])| == 0 then op(i) else Moved(segs, op)
  {
    hide Flat, FirstShort;
    PrefixAt(segs, i, if op(i) > 0 then op(i) else 0);
  }

  lemma StopAtEnd(segs: seq<Segment>, op: nat -> int)
    requires FirstShort(segs, op, 0) == |segs|
    ensures Moved(segs, op) == |Flat(segs)| == Result(segs, op)
  {
    hide Flat, FirstShort;
    assert segs[..|segs|] == segs;
  }

  class Sink {
    var data: seq<int>

    /**
     The loop. Exactly a prefix of the data reaches the sink, ending inside the first segment that was
     short or failed; the result is its length, or the error if it is empty.
     */
    method LoopReadvWritev(segs: seq<Segment>, otherFlags: bool, op: nat -> int) returns (ret: int)
      requires MovesPrefixes(segs, op)
      modifies this
      ensures otherFlags ==> ret == -EOPNOTSUPP && data == old(data)
      ensures !otherFlags ==> ret == Result(segs, op)
      ensures !otherFlags ==> Moved(segs, op) <= |Flat(segs)| && data == old(data) + Flat(segs)[..Moved(segs, op)]
    {
      if otherFlags {
        return -EOPNOTSUPP;
      }
      ret := 0;
      var i: nat := 0;
      var left := |Flat(segs)|;
      assert segs[0..] == segs && segs[..0] == [] && Flat([]) == [];
      ghost var base := data;
      hide Flat, FirstShort, Moved, Result, NextSegment, MovesPrefixes;
      while left > 0
        invariant i <= |segs| && left == |Flat(segs[i..])|
        invariant FirstShort(segs, op, 0) == FirstShort(segs, op, i)
        invariant ret == |Flat(segs[..i])| && data == base + Flat(segs[..i])
        decreases |segs| - i
      {
        FirstShortStep(segs, op, i);
        Bounded(segs, op, i);
        var nr := op(i);
        Assoc(base, Flat(segs[..i]), if nr > 0 then segs[i][..nr] else []);
        if nr > 0 {
          data := data + segs[i][..nr];
        }
        if nr < 0 {
          StopAt(segs, op, i);
          if ret == 0 {
            ret := nr;
          }
          return;
        }
        ret := ret + nr;
        if nr != |segs[i]| {
          StopAt(segs, op, i);
          return;
        }
        StepOver(segs, i);
        assert segs[i][..nr] == segs[i];
        left := left - nr;
        i := NextSegment(segs, i + 1);
      }
      FirstShortEnd(segs, op, i);
      StopAtEnd(segs, op);
      Done(segs, i);
    }
  }

  lemma Bounded(segs: seq<Segment>, op: nat -> int, i: nat)
    requires MovesPrefixes(segs, op) && i < |segs|
    ensures op(i) <= |segs[i]|
  {}

  lemma Assoc(a: seq<int>, b: seq<int>, c: seq<int>)
    ensures (a + b) + c == a + (b + c) && a + b + [] == a + b
  {}

  /** Stepping over a whole segment and the empty ones after it. */
  lemma StepOver(segs: seq<Segment>, i: nat)
    requires i < |segs|
    ensures var j := NextSegment(segs, i + 1);
      Flat(segs[..j]) == Flat(segs[..i]) + segs[i] && |Flat(segs[j..])| == |Flat(segs[i..])| - |segs[i]|
  {
    var j := NextSegment(segs, i + 1);
    EmptyBetween(segs, i + 1, j);
    assert segs[..i + 1] == segs[..i] + [segs[i]];
    FlatConcat(segs[..i], [segs[i]]);
    assert Flat([segs[i]]) == segs[i] by { assert [segs[i]][1..] == []; }
    assert segs[i..][1..] == segs[i + 1..];
  }

  lemma Done(segs: seq<Segment>, i: nat)
    requires i <= |segs| && |Flat(segs[i..])| == 0
    ensures Flat(segs) == Flat(segs[..i]) && Flat(segs[..|segs|]) == Flat(segs) && Flat(segs)[..|Flat(segs)|] == Flat(segs)
  {
    FlatSplit(segs, i);
    assert segs[..|segs|] == segs;
  }
}
