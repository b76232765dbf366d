/**
 `vfs_copy_file_range`: the checks in front of a copy between two files, or within one, and why they
 make the order in which a filesystem moves the bytes irrelevant.
 */
module CopyRange {
  import opened Options
  import opened Wrapping
  import opened FilePositions

  const EPERM := 1
  const EBADF := 9
  const EXDEV := 18
  const EISDIR := 21
  const ETXTBSY := 26
  const EFBIG := 27
  const RLIM_INFINITY := TWO64 - 1
  const MAX_NON_LFS := TWO31 - 1

  datatype Kind = Regular | Directory | Other

  /** What the checks look at in an open file and its inode; `maxBytes` is the file system's limit. */
  datatype OpenFile = OpenFile(inode: nat, kind: Kind, size: int, sb: nat, maxBytes: int, readable: bool, writable: bool, append: bool,
                               largeFile: bool, unsignedOffsets: bool, immutable: bool, swapFile: bool, copyMethod: Option<nat>)

  predicate FileOk(f: OpenFile) { 0 <= f.size < TWO63 && 0 <= f.maxBytes < TWO63 }

  // ----- The limit on the size of a file -----

  /**
   `generic_write_check_limits`: shortens a write at `pos` to the limits of the process and of the file
   system. The limit, an unsigned number, is read as a signed one.
   */
  method WriteCheckLimits(f: OpenFile, pos: int, count0: int, rlimit: int) returns (ret: int, count: int)
    requires FileOk(f) && IsS64(pos) && IsS64(count0) && IsU64(rlimit)
    ensures IsS64(count) && count <= count0 && (ret == 0 || ret == -EFBIG)
    ensures 0 <= pos ==> (ret == 0 <==> UnderLimit(pos, rlimit) && pos < MaxSize(f))
    ensures 0 <= pos && ret == 0 ==> count == Least(count0, MaxSize(f) - pos, if rlimit == RLIM_INFINITY then count0 else rlimit - pos)
  {
    hide U64, S64;
    count := count0;
    var limit := S64(rlimit);
    if limit != S64(RLIM_INFINITY) {
      if pos >= limit {
        return -EFBIG, count;
      }
      count := Min(count, S64(limit - pos));
    }
    var max := MaxSize(f);
    if pos >= max {
      return -EFBIG, count;
    }
    count := Min(count, S64(max - pos));
    ret := 0;
  }

  /** What the code makes of the limit: a finite one of 2^63 or more lets nothing through. */
  predicate UnderLimit(pos: int, rlimit: int) { rlimit == RLIM_INFINITY || (rlimit < TWO63 && pos < rlimit) }

  function Min(a: int, b: int): int { if a < b then a else b }

  function Least(a: int, b: int, c: int): int { Min(Min(a, b), c) }

  function MaxSize(f: OpenFile): int { if f.largeFile then f.maxBytes else MAX_NON_LFS }

  // ----- The checks -----

  predicate Overlap(a: int, b: int, n: int) { b + n > a && b < a + n }

  /** `generic_file_rw_checks`. */
  function RwChecks(fin: OpenFile, fout: OpenFile): int {
    if fin.kind == Directory || fout.kind == Directory then -EISDIR
    else if fin.kind != Regular || fout.kind != Regular then -EINVAL
    else if !fin.readable || !fout.writable || fout.append then -EBADF
    else 0
  }

  /** `generic_copy_file_checks`: `count` is what is left of the request. */
  method CopyChecks(fin: OpenFile, posIn: int, fout: OpenFile, posOut: int, request: int, splice: bool, rlimit: int)
    returns (ret: int, count: int)
    requires FileOk(fin) && FileOk(fout) && IsS64(posIn) && IsS64(posOut) && IsU64(request) && IsU64(rlimit)
    ensures IsU64(count) && ret <= 0
    ensures fin.kind == Directory || fout.kind == Directory ==> ret == -EISDIR
    ensures Directory !in {fin.kind, fout.kind} && (fin.kind == Other || fout.kind == Other) ==> ret == -EINVAL
    ensures fin.kind == fout.kind == Regular && !Copyable(fin, fout) ==> ret == -EBADF
    ensures Copyable(fin, fout) && !OneDriver(fin, fout, splice) ==> ret == -EXDEV
    ensures ret == 0 && !splice && fout.copyMethod.Some? ==> fin.copyMethod == fout.copyMethod
    ensures ret == 0 && !splice && fout.copyMethod.None? ==> fin.sb == fout.sb
    ensures ret == -EXDEV ==> !splice && (fin.sb != fout.sb || fout.copyMethod.Some?) && (fout.copyMethod.Some? ==> fin.copyMethod != fout.copyMethod)
    ensures Copyable(fin, fout) && OneDriver(fin, fout, splice) && fout.immutable ==> ret == -EPERM
    ensures Copyable(fin, fout) && OneDriver(fin, fout, splice) && !fout.immutable && (fin.swapFile || fout.swapFile) ==> ret == -ETXTBSY
    ensures FilesAllow(fin, fout, splice) ==>
      (ret == -EOVERFLOW <==> U64(posIn) + request >= TWO64 || U64(posOut) + request >= TWO64)
    ensures FilesAllow(fin, fout, splice) && 0 <= posOut ==>
      (ret == -EFBIG <==> U64(posIn) + request < TWO64 && posOut + request < TWO64 && !(UnderLimit(posOut, rlimit) && posOut < MaxSize(fout)))
    ensures FilesAllow(fin, fout, splice) && ret == -EINVAL ==> fin.inode == fout.inode
    ensures Plain(posIn, posOut, request) ==> (ret == 0 <==> MayCopy(fin, posIn, fout, posOut, request, splice, rlimit))
    ensures Plain(posIn, posOut, request) && ret == 0 ==> count == Clipped(fin, posIn, fout, posOut, request, rlimit)
    ensures ret == 0 ==> Apart(fin, U64(posIn), fout, U64(posOut), request, count)
    ensures ret == 0 && 0 <= posIn < fin.size && count < TWO63 ==> posIn + count <= fin.size
    ensures ret == 0 && fin.size <= posIn && count < TWO63 ==> count == 0
    ensures ret == 0 && 0 <= posOut && count < TWO63 ==> InLimits(fout, posOut, count, rlimit)
  {
    count := request;
    ret := RwChecks(fin, fout);
    if ret != 0 {
      return;
    }
    if splice {
    } else if fout.copyMethod.Some? {
      if fin.copyMethod != fout.copyMethod {
        return -EXDEV, count;
      }
    } else if fin.sb != fout.sb {
      return -EXDEV, count;
    }
    if fout.immutable {
      return -EPERM, count;
    }
    if fin.swapFile || fout.swapFile {
      return -ETXTBSY, count;
    }
    ret, count := RangeChecks(fin, posIn, fout, posOut, request, rlimit);
  }

  /** The test for wrapping says what it is meant to say, of the positions as unsigned numbers. */
  lemma NoWrap(pos: int, count: int)
    requires IsS64(pos) && IsU64(count)
    ensures U64(pos + count) < U64(pos) <==> U64(pos) + count >= TWO64
    ensures U64(pos) + count < TWO64 ==> U64(pos + count) == U64(pos) + count
  {}

  /** A length that is not negative after it was shortened is no longer than before. */
  lemma LeftOver(count: int, left: int)
    requires IsU64(count) && IsS64(left) && left <= S64(count)
    ensures U64(left) < TWO63 ==> 0 <= left == U64(left) <= count < TWO63 && S64(count) == count
    ensures 0 <= S64(count) ==> S64(count) == count < TWO63
    ensures S64(count) < 0 ==> count >= TWO63
  {}

  /** A destination below 2^63, and a source below it or a request that is. */
  predicate Plain(posIn: int, posOut: int, request: int) { 0 <= posOut && (0 <= posIn || request < TWO63) }

  /** What the code takes to be there to read: `posIn` is compared as a signed number. */
  function Available(fin: OpenFile, posIn: int, request: int): int {
    if posIn >= fin.size then 0 else Min(request, fin.size - posIn)
  }

  method ClipToSource(fin: OpenFile, posIn: int, request: int) returns (count: int)
    requires FileOk(fin) && IsS64(posIn) && IsU64(request)
    ensures 0 <= count <= request
    ensures count == Available(fin, posIn, request)
  {
    if posIn >= fin.size {
      return 0;
    }
    assert U64(fin.size - U64(posIn)) == fin.size - posIn;
    count := Min(request, U64(fin.size - U64(posIn)));
  }

  /** The part of the checks that is about positions and lengths. */
  method RangeChecks(fin: OpenFile, posIn: int, fout: OpenFile, posOut: int, request: int, rlimit: int) returns (ret: int, count: int)
    requires FileOk(fin) && FileOk(fout) && IsS64(posIn) && IsS64(posOut) && IsU64(request) && IsU64(rlimit)
    ensures IsU64(count) && ret in {0, -EOVERFLOW, -EFBIG, -EINVAL}
    ensures ret == -EOVERFLOW <==> U64(posIn) + request >= TWO64 || U64(posOut) + request >= TWO64
    ensures 0 <= posOut ==>
      (ret == -EFBIG <==> U64(posIn) + request < TWO64 && posOut + request < TWO64 && !(UnderLimit(posOut, rlimit) && posOut < MaxSize(fout)))
    ensures ret == -EINVAL ==> fin.inode == fout.inode
    ensures Plain(posIn, posOut, request) ==> (ret == 0 <==> RangesFit(fin, posIn, fout, posOut, request, rlimit))
    ensures Plain(posIn, posOut, request) && ret == 0 ==> count == Clipped(fin, posIn, fout, posOut, request, rlimit)
    ensures ret == 0 ==> Apart(fin, U64(posIn), fout, U64(posOut), request, count)
    ensures ret == 0 && 0 <= posIn < fin.size && count < TWO63 ==> posIn + count <= fin.size
    ensures ret == 0 && fin.size <= posIn && count < TWO63 ==> count == 0
    ensures ret == 0 && 0 <= posOut && count < TWO63 ==> InLimits(fout, posOut, count, rlimit)
  {
    hide U64, S64;
    count := request;
    if U64(posIn + count) < U64(posIn) || U64(posOut + count) < U64(posOut) {
      return -EOVERFLOW, count;
    }
    NoWrap(posIn, request);
    NoWrap(posOut, request);
    count := ClipToSource(fin, posIn, count);
    var left;
    ret, left := WriteCheckLimits(fout, posOut, S64(count), rlimit);
    LeftOver(count, left);
    count := U64(left);
    if ret != 0 {
      return;
    }
    if count < TWO63 {
      NoWrap(posIn, count);
      NoWrap(posOut, count);
    }
    if fin.inode == fout.inode && U64(posOut + count) > U64(posIn) && U64(posOut) < U64(posIn + count) {
      return -EINVAL, count;
    }
  }

  /**
   For positions read as unsigned numbers, and a length that is not negative as a signed one: it is no more
   than the request, neither range runs past 2^64, and in one file they do not overlap.
   */
  predicate Apart(fin: OpenFile, posIn: int, fout: OpenFile, posOut: int, request: int, count: int) {
    count < TWO63 ==>
      && count <= request && posIn + count < TWO64 && posOut + count < TWO64
      && (fin.inode == fout.inode ==> !Overlap(posIn, posOut, count))
  }

  /** A write that ends inside the limits of the file and of the process. */
  predicate InLimits(f: OpenFile, pos: int, count: int, rlimit: int) {
    pos + count <= MaxSize(f) && (rlimit != RLIM_INFINITY ==> pos + count <= rlimit)
  }

  /** The request shortened to the source's end, the process's limit and the destination's limit. */
  function Clipped(fin: OpenFile, posIn: int, fout: OpenFile, posOut: int, request: int, rlimit: int): int {
    var available := Available(fin, posIn, request);
    Least(available, MaxSize(fout) - posOut, if rlimit == RLIM_INFINITY then available else rlimit - posOut)
  }

  /** When, on unbounded integers, a copy is let through. */
  predicate MayCopy(fin: OpenFile, posIn: int, fout: OpenFile, posOut: int, request: int, splice: bool, rlimit: int) {
    FilesAllow(fin, fout, splice) && RangesFit(fin, posIn, fout, posOut, request, rlimit)
  }

  /** Regular files, one open for reading and the other for writing anywhere. */
  predicate Copyable(fin: OpenFile, fout: OpenFile) {
    fin.kind == fout.kind == Regular && fin.readable && fout.writable && !fout.append
  }

  /** One driver serves both files, or the caller asked for a copy through the page cache. */
  predicate OneDriver(fin: OpenFile, fout: OpenFile, splice: bool) {
    splice || (if fout.copyMethod.Some? then fin.copyMethod == fout.copyMethod else fin.sb == fout.sb)
  }

  /** The part of it that is not about positions. */
  predicate FilesAllow(fin: OpenFile, fout: OpenFile, splice: bool) {
    Copyable(fin, fout) && OneDriver(fin, fout, splice) && !fout.immutable && !fin.swapFile && !fout.swapFile
  }

  predicate RangesFit(fin: OpenFile, posIn: int, fout: OpenFile, posOut: int, request: int, rlimit: int) {
    && U64(posIn) + request < TWO64 && posOut + request < TWO64
    && UnderLimit(posOut, rlimit) && posOut < MaxSize(fout)
    && (fin.inode == fout.inode ==> !Overlap(U64(posIn), posOut, Clipped(fin, posIn, fout, posOut, request, rlimit)))
  }

  /**
   A process limit that is not infinite but is 2^63 or more is taken for a negative number: no position is
   below it and every write is refused, whatever the size. All other limits work as limits.
   */
  lemma HugeLimitRefusesAll(pos: int, rlimit: int)
    requires 0 <= pos < TWO63 && IsU64(rlimit) && rlimit != RLIM_INFINITY
    ensures (pos < S64(rlimit) <==> pos < rlimit) <==> rlimit < TWO63
  {}

  /** What one may ask for: bytes that the source has, up to the limits of the destination and of the process. */
  predicate Acceptable(fin: OpenFile, posIn: int, fout: OpenFile, posOut: int, request: int, rlimit: int, n: int) {
    && 0 <= n <= request && (n > 0 ==> posIn + n <= fin.size)
    && (if fout.largeFile then posOut + n <= fout.maxBytes else posOut + n < TWO31)
    && (rlimit == RLIM_INFINITY || posOut + n <= rlimit)
  }

  /** A request that is let through is shortened no more than it has to be. */
  lemma ClippedIsLongest(fin: OpenFile, posIn: int, fout: OpenFile, posOut: int, request: int, splice: bool, rlimit: int, n: int)
    requires FileOk(fin) && FileOk(fout) && 0 <= posIn && 0 <= posOut && 0 <= request
    requires MayCopy(fin, posIn, fout, posOut, request, splice, rlimit)
    ensures Acceptable(fin, posIn, fout, posOut, request, rlimit, n) <==> 0 <= n <= Clipped(fin, posIn, fout, posOut, request, rlimit)
  {
    hide U64;
  }

  /** Between two files, with a limit that works as one, a request of bytes the source has is let through exactly when one byte would be acceptable. */
  lemma OneByteDecides(fin: OpenFile, posIn: int, fout: OpenFile, posOut: int, request: int, splice: bool, rlimit: int)
    requires FileOk(fin) && FileOk(fout) && 0 <= posIn < fin.size && 0 <= posOut && 0 < request && IsU64(rlimit)
    requires fin.inode != fout.inode && FilesAllow(fin, fout, splice) && posIn + request < TWO64 && posOut + request < TWO64
    requires rlimit == RLIM_INFINITY || rlimit < TWO63
    ensures MayCopy(fin, posIn, fout, posOut, request, splice, rlimit) <==> Acceptable(fin, posIn, fout, posOut, request, rlimit, 1)
  {}

  // ----- Moving the bytes -----

  /** The bytes of all files: inode, position. */
  type Disk = (nat, nat) -> int

  /** Part of a copy: `n` bytes at offset `at` from both positions. */
  datatype Chunk = Chunk(at: nat, n: nat)

  datatype Job = Job(fin: nat, posIn: nat, fout: nat, posOut: nat)

  /** One chunk, read from the disk as it is now. */
  function CopyChunk(d: Disk, j: Job, c: Chunk): Disk {
    (inode: nat, p: nat) =>
      if inode == j.fout && j.posOut + c.at <= p < j.posOut + c.at + c.n then d(j.fin, j.posIn + (p - j.posOut)) else d(inode, p)
  }

  function CopyAll(d: Disk, j: Job, cs: seq<Chunk>): Disk
    decreases |cs|
  {
    if cs == [] then d else CopyAll(CopyChunk(d, j, cs[0]), j, cs[1..])
  }

  /** Offset `x` is moved by some chunk. */
  ghost predicate Moved(cs: seq<Chunk>, x: int) {
    exists i :: 0 <= i < |cs| && cs[i].at <= x < cs[i].at + cs[i].n
  }

  /** Every chunk lies inside the first `len` bytes. */
  predicate Within(cs: seq<Chunk>, len: nat) {
    forall i :: 0 <= i < |cs| ==> cs[i].at + cs[i].n <= len
  }

  predicate Disjoint(j: Job, len: nat) {
    j.fin == j.fout ==> !Overlap(j.posIn, j.posOut, len)
  }

  lemma MovedFirst(cs: seq<Chunk>, x: int)
    requires cs != []
    ensures Moved(cs, x) <==> cs[0].at <= x < cs[0].at + cs[0].n || Moved(cs[1..], x)
  {
    if Moved(cs[1..], x) {
      var i :| 0 <= i < |cs[1..]| && cs[1..][i].at <= x < cs[1..][i].at + cs[1..][i].n;
      assert cs[i + 1] == cs[1..][i];
    }
    if Moved(cs, x) {
      var i :| 0 <= i < |cs| && cs[i].at <= x < cs[i].at + cs[i].n;
      assert i > 0 ==> cs[1..][i - 1] == cs[i];
    }
  }

  /**
   Between disjoint ranges, chunks moved in any order, repeated or overlapping, leave at every moved offset
   the byte the source had in the beginning, and change nothing else.
   */
  lemma {:induction false} ChunksCopyOriginal(d: Disk, j: Job, cs: seq<Chunk>, len: nat, inode: nat, p: nat)
    requires Disjoint(j, len) && Within(cs, len)
    ensures CopyAll(d, j, cs)(inode, p)
         == if inode == j.fout && Moved(cs, p - j.posOut) then d(j.fin, j.posIn + (p - j.posOut)) else d(inode, p)
    decreases |cs|
  {
    if cs != [] {
      var d1 := CopyChunk(d, j, cs[0]);
      ChunksCopyOriginal(d1, j, cs[1..], len, inode, p);
      MovedFirst(cs, p - j.posOut);
      if inode == j.fout && Moved(cs[1..], p - j.posOut) {
        var i :| 0 <= i < |cs[1..]| && cs[1..][i].at <= p - j.posOut < cs[1..][i].at + cs[1..][i].n;
        assert cs[1..][i] == cs[i + 1];
        assert cs[0].at + cs[0].n <= len;
      }
    } else {
      assert !Moved(cs, p - j.posOut);
    }
  }

  ghost predicate Covers(cs: seq<Chunk>, len: nat) {
    Within(cs, len) && forall x: nat :: x < len ==> Moved(cs, x)
  }

  /** Two ways of cutting the copy lead to the same bytes everywhere. */
  ghost predicate SameResult(d: Disk, j: Job, cs: seq<Chunk>, cs': seq<Chunk>) {
    forall inode: nat, p: nat :: CopyAll(d, j, cs)(inode, p) == CopyAll(d, j, cs')(inode, p)
  }

  /** Refusing overlap is what it takes: the result is independent of order and chunking exactly for disjoint ranges or a copy onto itself. */
  lemma OrderIrrelevantIff(j: Job, len: nat)
    ensures (forall d: Disk, cs, cs' :: Covers(cs, len) && Covers(cs', len) ==> SameResult(d, j, cs, cs'))
       <==> Disjoint(j, len) || j.posIn == j.posOut
  {
    if Disjoint(j, len) {
      forall d: Disk, cs, cs' | Covers(cs, len) && Covers(cs', len) ensures SameResult(d, j, cs, cs') {
        forall inode: nat, p: nat ensures CopyAll(d, j, cs)(inode, p) == CopyAll(d, j, cs')(inode, p) {
          ChunksCopyOriginal(d, j, cs, len, inode, p);
          ChunksCopyOriginal(d, j, cs', len, inode, p);
          CoversExactly(cs, len, p - j.posOut);
          CoversExactly(cs', len, p - j.posOut);
        }
      }
    } else if j.posIn == j.posOut {
      forall d: Disk, cs, cs' | Covers(cs, len) && Covers(cs', len) ensures SameResult(d, j, cs, cs') {
        forall inode: nat, p: nat ensures CopyAll(d, j, cs)(inode, p) == CopyAll(d, j, cs')(inode, p) {
          OntoItself(d, j, cs, inode, p);
          OntoItself(d, j, cs', inode, p);
        }
      }
    } else {
      OverlapDepends(j, len);
    }
  }

  lemma CoversExactly(cs: seq<Chunk>, len: nat, x: int)
    requires Covers(cs, len)
    ensures Moved(cs, x) <==> 0 <= x < len
  {}

  lemma {:induction false} OntoItself(d: Disk, j: Job, cs: seq<Chunk>, inode: nat, p: nat)
    requires j.fin == j.fout && j.posIn == j.posOut
    ensures CopyAll(d, j, cs)(inode, p) == d(inode, p)
    decreases |cs|
  {
    if cs != [] {
      OntoItself(CopyChunk(d, j, cs[0]), j, cs[1..], inode, p);
    }
  }

  /** With overlapping ranges, cutting the copy at the distance between them spoils it for some contents. */
  lemma OverlapDepends(j: Job, len: nat)
    requires !Disjoint(j, len) && j.posIn != j.posOut
    ensures exists d: Disk, cs, cs' :: Covers(cs, len) && Covers(cs', len) && !SameResult(d, j, cs, cs')
  {
    var d: Disk := (inode: nat, p: nat) => p;
    var gap: nat := if j.posIn < j.posOut then j.posOut - j.posIn else j.posIn - j.posOut;
    var whole := [Chunk(0, len)];
    var low, high := Chunk(0, gap), Chunk(gap, len - gap);
    var cut := if j.posIn < j.posOut then [low, high] else [high, low];
    assert whole[0] == Chunk(0, len);
    assert Covers(whole, len);
    assert Covers(cut, len) by {
      forall x: nat | x < len ensures Moved(cut, x) {
        var i := if (x < gap) == (j.posIn < j.posOut) then 0 else 1;
        assert cut[i].at <= x < cut[i].at + cut[i].n;
      }
    }
    var p: nat := if j.posIn < j.posOut then j.posOut + gap else j.posOut;
    assert CopyAll(d, j, whole)(j.fout, p) == j.posIn + (p - j.posOut) by {
      assert whole[1..] == [];
    }
    var d1 := CopyChunk(d, j, cut[0]);
    assert CopyAll(d, j, cut) == CopyChunk(d1, j, cut[1]) by {
      assert cut[1..] == [cut[1]] && [cut[1]][1..] == [];
      assert CopyAll(d1, j, cut[1..]) == CopyAll(CopyChunk(d1, j, cut[1]), j, []);
    }
    assert CopyChunk(d1, j, cut[1])(j.fout, p) != j.posIn + (p - j.posOut);
    assert !SameResult(d, j, whole, cut);
  }

  // ----- The system call -----

  class Files {
    var bytes: Disk

    /**
     `vfs_copy_file_range`. `work` and `moved` stand for whatever the file system does with a length: some
     chunks, and how many bytes it reports. A copy that moved bytes moved at most the request, never between
     overlapping ranges, as if from the original contents, and touched nothing else. It lies inside the
     source, and inside the limits of the destination, if and only if the position is below 2^63; files
     with signed offsets have no other.
     */
    method CopyFileRange(fin: OpenFile, posIn: int, fout: OpenFile, posOut: int, request: int, splice: bool, rlimit: int,
                         mayRead: int, mayWrite: int, work: nat -> seq<Chunk>, moved: nat -> int) returns (r: int)
      requires FileOk(fin) && FileOk(fout) && IsS64(posIn) && IsS64(posOut) && IsU64(request) && IsU64(rlimit)
      requires mayRead <= 0 && mayWrite <= 0
      requires forall n: nat :: moved(n) <= n && (if moved(n) > 0 then Covers(work(n), moved(n)) else work(n) == [])
      modifies this
      ensures r > 0 ==> FilesAllow(fin, fout, splice) && mayRead == 0 && mayWrite == 0
      ensures 0 <= posIn && 0 <= posOut && MayCopy(fin, posIn, fout, posOut, request, splice, rlimit) && mayRead == 0 && mayWrite == 0 ==>
        var n := Clipped(fin, posIn, fout, posOut, request, rlimit); r == if n > 0 then moved(n) else 0
      ensures r > 0 && !fin.unsignedOffsets ==> 0 <= posIn
      ensures r > 0 && !fout.unsignedOffsets ==> 0 <= posOut
      ensures r > 0 && Plain(posIn, posOut, request) ==> MayCopy(fin, posIn, fout, posOut, request, splice, rlimit)
      ensures r > 0 ==> r <= request && U64(posIn) + r < TWO64 && U64(posOut) + r < TWO64
      ensures r > 0 ==> (U64(posIn) + r <= fin.size <==> 0 <= posIn)
      ensures r > 0 ==> (InLimits(fout, U64(posOut), r, rlimit) <==> 0 <= posOut)
      ensures r > 0 && fin.inode == fout.inode ==> !Overlap(U64(posIn), U64(posOut), r)
      ensures if r > 0 then Copied(old(bytes), bytes, Job(fin.inode, U64(posIn), fout.inode, U64(posOut)), r) else bytes == old(bytes)
    {
      hide U64, S64, MayCopy, Clipped, Apart, RangesFit;
      var len;
      r, len := CopyChecks(fin, posIn, fout, posOut, request, splice, rlimit);
      if r != 0 {
        return;
      }
      if 0 <= posIn && 0 <= posOut {
        PassesVerification(fin, posIn, fout, posOut, request, splice, rlimit);
      }
      r := VerifyRange(fin.unsignedOffsets, Some(posIn), len);
      if r != 0 {
        return;
      }
      if mayRead != 0 {
        return mayRead;
      }
      r := VerifyRange(fout.unsignedOffsets, Some(posOut), len);
      if r != 0 {
        return;
      }
      if mayWrite != 0 {
        return mayWrite;
      }
      if len == 0 {
        return 0;
      }
      VerifyRangeIsExact(fin.unsignedOffsets, posIn, len);
      VerifyRangeIsExact(fout.unsignedOffsets, posOut, len);
      hide VerifyRange;
      r := moved(len);
      var j := Job(fin.inode, U64(posIn), fout.inode, U64(posOut));
      if r > 0 {
        ApartFacts(fin, U64(posIn), fout, U64(posOut), request, len, r);
        CoverCopies(bytes, j, work(len), r);
      }
      bytes := CopyAll(bytes, j, work(len));
    }
  }

  /** What the checks leave of a request is never refused by the checks of the two transfers. */
  lemma PassesVerification(fin: OpenFile, posIn: int, fout: OpenFile, posOut: int, request: int, splice: bool, rlimit: int)
    requires FileOk(fin) && FileOk(fout) && 0 <= posIn < TWO63 && 0 <= posOut < TWO63 && IsU64(request) && IsU64(rlimit)
    requires MayCopy(fin, posIn, fout, posOut, request, splice, rlimit)
    ensures var n := Clipped(fin, posIn, fout, posOut, request, rlimit);
      && 0 <= n < TWO63
      && VerifyRange(fin.unsignedOffsets, Some(posIn), n) == VerifyRange(fout.unsignedOffsets, Some(posOut), n) == 0
  {
    var n := Clipped(fin, posIn, fout, posOut, request, rlimit);
    VerifyRangeIsExact(fin.unsignedOffsets, posIn, n);
    VerifyRangeIsExact(fout.unsignedOffsets, posOut, n);
  }

  lemma ApartFacts(fin: OpenFile, posIn: int, fout: OpenFile, posOut: int, request: int, count: int, r: int)
    requires Apart(fin, posIn, fout, posOut, request, count) && 0 < r <= count < TWO63
    ensures r <= request && posIn + r < TWO64 && posOut + r < TWO64
    ensures fin.inode == fout.inode ==> !Overlap(posIn, posOut, r)
  {}

  /**
   On a file with unsigned offsets every source position from 2^63 on gets past the test against the end of
   the source, because it is negative as the code compares it: one byte is let through, wherever the file ends.
   */
  lemma PastTheEnd(fin: OpenFile, posIn: int, fout: OpenFile, splice: bool)
    requires FileOk(fin) && FileOk(fout) && fin.unsignedOffsets && -TWO63 <= posIn < -1
    requires fin.inode != fout.inode && MaxSize(fout) > 0 && FilesAllow(fin, fout, splice)
    ensures MayCopy(fin, posIn, fout, 0, 1, splice, RLIM_INFINITY) && Clipped(fin, posIn, fout, 0, 1, RLIM_INFINITY) == 1
    ensures VerifyRange(true, Some(posIn), 1) == 0 && U64(posIn) + 1 > fin.size
  {
    VerifyRangeIsExact(true, posIn, 1);
  }

  function Expected(d: Disk, j: Job, n: nat, inode: nat, p: nat): int {
    if inode == j.fout && j.posOut <= p < j.posOut + n then d(j.fin, j.posIn + (p - j.posOut)) else d(inode, p)
  }

  /** The first `n` bytes of the destination are those of the source, and everything else is as it was. */
  ghost predicate Copied(d: Disk, d': Disk, j: Job, n: nat) {
    forall inode: nat, p: nat {:trigger Expected(d, j, n, inode, p)} :: d'(inode, p) == Expected(d, j, n, inode, p)
  }

  lemma CoverCopies(d: Disk, j: Job, cs: seq<Chunk>, n: nat)
    requires Covers(cs, n) && Disjoint(j, n)
    ensures Copied(d, CopyAll(d, j, cs), j, n)
  {
    var d' := CopyAll(d, j, cs);
    forall inode: nat, p: nat ensures d'(inode, p) == Expected(d, j, n, inode, p) {
      ChunksCopyOriginal(d, j, cs, n, inode, p);
      CoversExactly(cs, n, p - j.posOut);
    }
  }
}
