/**
 File positions: `rw_verify_area`, `vfs_setpos` and `generic_file_llseek_size`. All arithmetic on
 positions wraps at 64 bits; the tests are compared with what they would be on unbounded integers.

 A file with unsigned offsets stores a position of 2^63 or more as a negative number.
 */
module FilePositions {
  import opened Options
  import opened Wrapping

  const ENXIO := 6
  const EINVAL := 22
  const EOVERFLOW := 75

  // ----- rw_verify_area -----

  /** The range test of `rw_verify_area`; a transfer without a position passes `None`. */
  function VerifyRange(unsignedOffsets: bool, ppos: Option<int>, count: int): int
    requires IsU64(count) && (ppos.Some? ==> IsS64(ppos.value))
  {
    if S64(count) < 0 then -EINVAL
    else if ppos.None? then 0
    else
      var pos := ppos.value;
      if pos < 0 then
        if !unsignedOffsets then -EINVAL
        else if count >= U64(S64(-pos)) then -EOVERFLOW
        else 0
      else if S64(pos + count) < 0 && !unsignedOffsets then -EINVAL
      else 0
  }

  /** The position that the 64 bits of `pos` stand for. */
  function Position(unsignedOffsets: bool, pos: int): int
    requires IsS64(pos)
  {
    if unsignedOffsets then U64(pos) else pos
  }

  /** The wrapped test passes exactly when the transfer, on unbounded integers, starts and ends inside the file's range. */
  lemma VerifyRangeIsExact(unsignedOffsets: bool, pos: int, count: int)
    requires IsU64(count) && IsS64(pos)
    ensures VerifyRange(unsignedOffsets, Some(pos), count) == 0 <==>
      && count < TWO63
      && 0 <= Position(unsignedOffsets, pos)
      && Position(unsignedOffsets, pos) + count < if unsignedOffsets then TWO64 else TWO63
    ensures VerifyRange(unsignedOffsets, None, count) == 0 <==> count < TWO63
  {
    if IsS64(-pos) {
      assert S64(-pos) == -pos;
    } else {
      assert pos == -TWO63 && S64(-pos) == -TWO63 && U64(-TWO63) == TWO63;
    }
  }

  // ----- Seeking -----

  datatype Whence = Set | Cur | End | Data | Hole

  /** Where a seek goes on unbounded integers; `None` when there is no data or hole at the offset. */
  function Target(pos: int, eof: int, offset: int, whence: Whence): Option<int> {
    match whence
    case Set => Some(offset)
    case Cur => Some(pos + offset)
    case End => Some(eof + offset)
    case Data => if 0 <= offset < eof then Some(offset) else None
    case Hole => if 0 <= offset < eof then Some(eof) else None
  }

  /** The position and result of a seek on a file with signed offsets, on unbounded integers. */
  function SeekSpec(pos: int, maxsize: int, eof: int, offset: int, whence: Whence): (int, int) {
    var target := Target(pos, eof, offset, whence);
    if whence == Cur && offset == 0 then (pos, pos)
    else if target.None? then (pos, -ENXIO)
    else if 0 <= target.value <= maxsize then (target.value, target.value)
    else (pos, -EINVAL)
  }

  /** How the ways of seeking relate: from the end or the current position is to the sum, data is where it is asked for, and the only hole is the end. */
  lemma SeeksRelate(pos: int, maxsize: int, eof: int, offset: int)
    requires 0 <= pos <= maxsize && 0 <= eof
    ensures SeekSpec(pos, maxsize, eof, offset, End) == SeekSpec(pos, maxsize, eof, eof + offset, Set)
    ensures SeekSpec(pos, maxsize, eof, offset, Cur) == SeekSpec(pos, maxsize, eof, pos + offset, Set)
    ensures 0 <= offset <= maxsize ==> SeekSpec(pos, maxsize, eof, offset, Set) == (offset, offset)
    ensures offset < 0 || offset > maxsize ==> SeekSpec(pos, maxsize, eof, offset, Set) == (pos, -EINVAL)
    ensures 0 <= offset < eof ==> SeekSpec(pos, maxsize, eof, offset, Data) == SeekSpec(pos, maxsize, eof, offset, Set)
    ensures 0 <= offset < eof ==> SeekSpec(pos, maxsize, eof, offset, Hole) == SeekSpec(pos, maxsize, eof, 0, End)
    ensures !(0 <= offset < eof) ==> SeekSpec(pos, maxsize, eof, offset, Data) == SeekSpec(pos, maxsize, eof, offset, Hole) == (pos, -ENXIO)
  {}

  /** Seeking there and on is seeking to the sum, and seeking back undoes it. */
  lemma SeeksCompose(pos: int, maxsize: int, eof: int, a: int, b: int)
    requires 0 <= pos <= maxsize && 0 <= pos + a <= maxsize
    ensures var there := SeekSpec(pos, maxsize, eof, a, Cur).0;
      && (0 <= pos + a + b <= maxsize ==> SeekSpec(there, maxsize, eof, b, Cur) == SeekSpec(pos, maxsize, eof, a + b, Cur))
      && SeekSpec(there, maxsize, eof, -a, Cur) == (pos, pos)
  {}

  // ----- Unsigned offsets -----

  /** Where a seek from position `at` goes on unbounded integers when offsets are unsigned. */
  function UnsignedTarget(at: int, eof: int, offset: int, whence: Whence): Option<int> {
    match whence
    case Set => Some(U64(offset))
    case Cur => Some(at + offset)
    case End => Some(eof + offset)
    case Data => if 0 <= offset < eof then Some(offset) else None
    case Hole => if 0 <= offset < eof then Some(eof) else None
  }

  /** Positions an unsigned-offset file can have: up to `maxsize`, and everything from 2^63 on, which no limit reaches. */
  predicate UnsignedRange(maxsize: int, target: int) { 0 <= target <= maxsize || TWO63 <= target < TWO64 }

  /** The position afterwards and the error of a seek to `target`, as the range decides. */
  function SeekTo(at: int, maxsize: int, target: int): (int, int) {
    if UnsignedRange(maxsize, target) then (target, 0) else (at, -EINVAL)
  }

  predicate IsQuery(offset: int, whence: Whence) { whence == Cur && offset == 0 }

  /** A seek on an unsigned-offset file, with a target that is not wrapped. */
  function UnboundedSeek(at: int, maxsize: int, eof: int, offset: int, whence: Whence): (int, int) {
    var target := UnsignedTarget(at, eof, offset, whence);
    if IsQuery(offset, whence) then (at, 0) else if target.None? then (at, -ENXIO) else SeekTo(at, maxsize, target.value)
  }

  /** The same with the target taken modulo 2^64. */
  function WrappedSeek(at: int, maxsize: int, eof: int, offset: int, whence: Whence): (int, int) {
    var target := UnsignedTarget(at, eof, offset, whence);
    if IsQuery(offset, whence) then (at, 0) else if target.None? then (at, -ENXIO) else SeekTo(at, maxsize, U64(target.value))
  }

  /** The signed comparison made on the 64 bits of a target is the range test on what they stand for. */
  lemma SignedTestIs(maxsize: int, target: int)
    requires 0 <= maxsize < TWO63 && -TWO64 <= target < TWO64 + TWO63
    ensures S64(target) <= maxsize <==> UnsignedRange(maxsize, U64(target))
    ensures U64(S64(target)) == U64(target)
  {}

  /** Counting from the signed reading of a position or from what it stands for makes no difference to the 64 bits. */
  lemma SameBits(pos: int, offset: int)
    requires IsS64(pos) && IsS64(offset)
    ensures S64(pos + offset) == S64(Position(true, pos) + offset)
  {}

  /** What storing the 64 bits `bits` does: the position afterwards and the result. */
  function Stored(unsignedOffsets: bool, pos: int, maxsize: int, bits: int): (int, int) {
    if (bits < 0 && !unsignedOffsets) || bits > maxsize then (pos, -EINVAL) else (bits, bits)
  }

  /**
   Position and result of a seek. With signed offsets they are what unbounded integers would give; with
   unsigned ones the file ends up at the target modulo 2^64, if that is in its range.
   */
  predicate Sought(unsignedOffsets: bool, pos: int, maxsize: int, eof: int, offset: int, whence: Whence, after: (int, int)) {
    && IsS64(pos) && IsS64(after.0)
    && (!unsignedOffsets ==> after == SeekSpec(pos, maxsize, eof, offset, whence))
    && (unsignedOffsets ==>
          var (at, error) := WrappedSeek(Position(true, pos), maxsize, eof, offset, whence);
          Position(true, after.0) == at && after.1 == if error == 0 then after.0 else error)
  }

  predicate Sane(unsignedOffsets: bool, pos: int, maxsize: int, eof: int, offset: int) {
    IsS64(pos) && IsS64(offset) && 0 <= maxsize < TWO63 && 0 <= eof < TWO63 && (!unsignedOffsets ==> 0 <= pos)
  }

  /** A target stored as its 64 bits. */
  lemma Lands(pos: int, maxsize: int, target: int)
    requires IsS64(pos) && 0 <= maxsize < TWO63 && -TWO64 <= target < TWO64 + TWO63
    ensures var after := Stored(true, pos, maxsize, S64(target));
            var (at, error) := SeekTo(Position(true, pos), maxsize, U64(target));
            IsS64(after.0) && Position(true, after.0) == at && after.1 == if error == 0 then after.0 else error
  {
    SignedTestIs(maxsize, target);
  }

  lemma CurSought(u: bool, pos: int, maxsize: int, eof: int, offset: int)
    requires Sane(u, pos, maxsize, eof, offset) && offset != 0
    ensures Sought(u, pos, maxsize, eof, offset, Cur, Stored(u, pos, maxsize, S64(pos + offset)))
  {
    if u {
      hide S64, U64;
      SameBits(pos, offset);
      Lands(pos, maxsize, Position(true, pos) + offset);
    }
  }

  lemma EndSought(u: bool, pos: int, maxsize: int, eof: int, offset: int)
    requires Sane(u, pos, maxsize, eof, offset)
    ensures Sought(u, pos, maxsize, eof, offset, End, Stored(u, pos, maxsize, S64(offset + eof)))
  {
    if u {
      hide S64, U64;
      Lands(pos, maxsize, eof + offset);
    }
  }

  lemma SetSought(u: bool, pos: int, maxsize: int, eof: int, offset: int)
    requires Sane(u, pos, maxsize, eof, offset)
    ensures Sought(u, pos, maxsize, eof, offset, Set, Stored(u, pos, maxsize, offset))
    ensures 0 <= offset < eof ==> Sought(u, pos, maxsize, eof, offset, Data, Stored(u, pos, maxsize, offset))
    ensures 0 <= offset < eof ==> Sought(u, pos, maxsize, eof, offset, Hole, Stored(u, pos, maxsize, eof))
  {
    hide S64, U64;
    Lands(pos, maxsize, offset);
    Lands(pos, maxsize, eof);
  }

  class File {
    var pos: int
    var version: int
    const unsignedOffsets: bool

    ghost predicate Valid()
      reads this
    {
      IsS64(pos)
    }

    /** `vfs_setpos`. */
    method SetPos(offset: int, maxsize: int) returns (r: int)
      requires Valid() && IsS64(offset) && IsS64(maxsize)
      modifies this
      ensures Valid() && (pos, r) == Stored(unsignedOffsets, old(pos), maxsize, offset)
      ensures version == if pos == old(pos) then old(version) else 0
    {
      if offset < 0 && !unsignedOffsets {
        return -EINVAL;
      }
      if offset > maxsize {
        return -EINVAL;
      }
      if offset != pos {
        pos := offset;
        version := 0;
      }
      return offset;
    }

    /** `generic_file_llseek_size`. */
    method Llseek(offset0: int, whence: Whence, maxsize: int, eof: int) returns (r: int)
      requires Sane(unsignedOffsets, pos, maxsize, eof, offset0)
      modifies this
      ensures Valid() && Sought(unsignedOffsets, old(pos), maxsize, eof, offset0, whence, (pos, r))
      ensures version == if pos == old(pos) then old(version) else 0
    {
      hide S64, U64, Sought, Stored;
      var offset := offset0;
      match whence {
        case End =>
          EndSought(unsignedOffsets, pos, maxsize, eof, offset0);
          offset := S64(offset + eof);
        case Cur =>
          if offset == 0 {
            QuerySought(unsignedOffsets, pos, maxsize, eof);
            return pos;
          }
          CurSought(unsignedOffsets, pos, maxsize, eof, offset0);
          r := SetPos(S64(pos + offset), maxsize);
          return;
        case Data =>
          MissingSought(unsignedOffsets, pos, maxsize, eof, offset0);
          if U64(offset) >= U64(eof) {
            return -ENXIO;
          }
          SetSought(unsignedOffsets, pos, maxsize, eof, offset0);
        case Hole =>
          MissingSought(unsignedOffsets, pos, maxsize, eof, offset0);
          if U64(offset) >= U64(eof) {
            return -ENXIO;
          }
          SetSought(unsignedOffsets, pos, maxsize, eof, offset0);
          offset := eof;
        case Set =>
          SetSought(unsignedOffsets, pos, maxsize, eof, offset0);
      }
      r := SetPos(offset, maxsize);
    }
  }

  lemma QuerySought(u: bool, pos: int, maxsize: int, eof: int)
    requires Sane(u, pos, maxsize, eof, 0)
    ensures Sought(u, pos, maxsize, eof, 0, Cur, (pos, pos))
  {}

  /** There is data at an offset exactly when it lies before the end, and otherwise the seek fails. */
  lemma MissingSought(u: bool, pos: int, maxsize: int, eof: int, offset: int)
    requires Sane(u, pos, maxsize, eof, offset)
    ensures U64(offset) >= U64(eof) <==> !(0 <= offset < eof)
    ensures !(0 <= offset < eof) ==> Sought(u, pos, maxsize, eof, offset, Data, (pos, -ENXIO))
    ensures !(0 <= offset < eof) ==> Sought(u, pos, maxsize, eof, offset, Hole, (pos, -ENXIO))
  {}

  /**
   The wrapped seek does what an unbounded one would do if and only if the target fits in 64 unsigned bits
   or its wrapped form is refused too; a query and a seek to missing data never differ.
   */
  lemma SeeksAgreeExactly(at: int, maxsize: int, eof: int, offset: int, whence: Whence)
    requires IsU64(at) && 0 <= maxsize < TWO63 && 0 <= eof < TWO63 && IsS64(offset)
    ensures WrappedSeek(at, maxsize, eof, offset, whence) == UnboundedSeek(at, maxsize, eof, offset, whence) <==>
      var target := UnsignedTarget(at, eof, offset, whence);
      IsQuery(offset, whence) || target.None? || 0 <= target.value < TWO64 || maxsize < U64(target.value) < TWO63
  {}

  /** Only seeks from the current position or the end can differ. */
  lemma OnlyRelativeSeeksWrap(at: int, maxsize: int, eof: int, offset: int, whence: Whence)
    requires 0 <= maxsize < TWO63 && 0 <= eof < TWO63 && IsS64(offset) && whence != Cur && whence != End
    ensures WrappedSeek(at, maxsize, eof, offset, whence) == UnboundedSeek(at, maxsize, eof, offset, whence)
  {}

  /** Seeking back by one from the start of an unsigned-offset file lands at its very end. */
  lemma UnsignedSeekWraps(maxsize: int, eof: int)
    requires 0 <= maxsize < TWO63
    ensures WrappedSeek(0, maxsize, eof, -1, Cur) == (TWO64 - 1, 0)
    ensures UnboundedSeek(0, maxsize, eof, -1, Cur) == (0, -EINVAL)
  {}

  // ----- Runs of seeks -----

  datatype Seek = Seek(offset: int, whence: Whence, eof: nat)

  function Run(pos: int, maxsize: int, seeks: seq<Seek>): int
    decreases |seeks|
  {
    if seeks == [] then pos
    else Run(SeekSpec(pos, maxsize, seeks[0].eof, seeks[0].offset, seeks[0].whence).0, maxsize, seeks[1..])
  }

  /** The positions a run passes through, and its results. */
  ghost predicate Answers(pos: int, maxsize: int, seeks: seq<Seek>, results: seq<int>)
    decreases |seeks|
  {
    |results| == |seeks| && (seeks != [] ==>
      var (next, r) := SeekSpec(pos, maxsize, seeks[0].eof, seeks[0].offset, seeks[0].whence);
      results[0] == r && Answers(next, maxsize, seeks[1..], results[1..]))
  }

  function LastGood(pos: int, results: seq<int>): int {
    if results == [] then pos
    else if results[|results| - 1] >= 0 then results[|results| - 1]
    else LastGood(pos, results[..|results| - 1])
  }

  lemma {:induction false} LastGoodFront(pos: int, r: int, rest: seq<int>)
    ensures LastGood(pos, [r] + rest) == LastGood(if r >= 0 then r else pos, rest)
    decreases |rest|
  {
    if rest == [] {
      assert [r] + rest == [r];
      assert [r][..0] == [];
    } else {
      assert ([r] + rest)[..|rest|] == [r] + rest[..|rest| - 1];
      LastGoodFront(pos, r, rest[..|rest| - 1]);
    }
  }

  /** Every run of seeks keeps the position inside the file's limit, at the last position that was returned. */
  lemma {:induction false} RunsStayInRange(pos: int, maxsize: int, seeks: seq<Seek>, results: seq<int>)
    requires 0 <= pos <= maxsize && Answers(pos, maxsize, seeks, results)
    ensures 0 <= Run(pos, maxsize, seeks) <= maxsize
    ensures Run(pos, maxsize, seeks) == LastGood(pos, results)
    decreases |seeks|
  {
    if seeks != [] {
      var (next, r) := SeekSpec(pos, maxsize, seeks[0].eof, seeks[0].offset, seeks[0].whence);
      RunsStayInRange(next, maxsize, seeks[1..], results[1..]);
      assert results == [r] + results[1..];
      LastGoodFront(pos, r, results[1..]);
    }
  }

  function UnsignedRun(at: int, maxsize: int, seeks: seq<Seek>): int
    decreases |seeks|
  {
    if seeks == [] then at
    else UnsignedRun(WrappedSeek(at, maxsize, seeks[0].eof, seeks[0].offset, seeks[0].whence).0, maxsize, seeks[1..])
  }

  /** The same for unsigned offsets: wrapping or not, no run of seeks leaves the range of the file. */
  lemma {:induction false} UnsignedRunsStayInRange(at: int, maxsize: int, seeks: seq<Seek>)
    requires UnsignedRange(maxsize, at)
    ensures UnsignedRange(maxsize, UnsignedRun(at, maxsize, seeks))
    decreases |seeks|
  {
    if seeks != [] {
      UnsignedRunsStayInRange(WrappedSeek(at, maxsize, seeks[0].eof, seeks[0].offset, seeks[0].whence).0, maxsize, seeks[1..]);
    }
  }
}
