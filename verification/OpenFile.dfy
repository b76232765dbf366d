/**
 `do_dentry_open`: the references that opening a file takes, and what is left of them when it fails.
 */
module OpenFile {
  const ENODEV := 19
  const EINVAL := 22

  /** Counters that an open file may hold a share of. */
  datatype Refs = Refs(path: int, fops: int, readers: int, inodeWriters: int, mountWriters: int, backingWriters: int)

  function Plus(a: Refs, b: Refs): Refs {
    Refs(a.path + b.path, a.fops + b.fops, a.readers + b.readers, a.inodeWriters + b.inodeWriters,
         a.mountWriters + b.mountWriters, a.backingWriters + b.backingWriters)
  }

  const NO_REFS := Refs(0, 0, 0, 0, 0, 0)

  /** The bits of `f_mode` that matter here. */
  datatype Flag = Read | Write | Writer | Opened | PathOnly | AtomicPos | Lseek | CanRead | CanWrite | CanODirect | Backing

  type Mode = set<Flag>

  /** The inode, the open flags and how every call ends; zero is success. `openMethod` also says whether it keeps seeking allowed. */
  datatype Request = Request(special: bool, regularOrDir: bool, pathFlag: bool, directFlag: bool, hasFops: bool, readOp: bool, writeOp: bool,
                             llseekOp: bool, directOp: bool, inodeWrite: int, mountWrite: int, backingWrite: int, security: int, lease: int,
                             hasOpen: bool, openMethod: int, keepsLseek: bool)

  function Bit(b: bool): int { if b then 1 else 0 }

  predicate ReadOnly(m: Mode) { Read in m && Write !in m }

  /** The shares that go with the mode: a reader's, or a writer's two, or three with a backing file. */
  function Access(m: Mode): Refs {
    if ReadOnly(m) then Refs(0, 0, 1, 0, 0, 0)
    else if Writer in m then Refs(0, 0, 0, 1, 1, Bit(Backing in m))
    else NO_REFS
  }

  /** What a file holds: nothing before it is open, then its path, its operations and its access. */
  function Owed(m: Mode): Refs {
    if Opened !in m then NO_REFS
    else if PathOnly in m then Refs(1, 0, 0, 0, 0, 0)
    else Plus(Refs(1, 1, 0, 0, 0, 0), Access(m))
  }

  function Minus(a: Refs, b: Refs): Refs {
    Refs(a.path - b.path, a.fops - b.fops, a.readers - b.readers, a.inodeWriters - b.inodeWriters,
         a.mountWriters - b.mountWriters, a.backingWriters - b.backingWriters)
  }

  /** How taking write access ends. */
  function WriteError(q: Request, backing: bool): int {
    if q.inodeWrite != 0 then q.inodeWrite else if q.mountWrite != 0 then q.mountWrite else if backing then q.backingWrite else 0
  }

  predicate WantsWriter(m: Mode, q: Request) { Write in m && !q.special }

  /** The answers under which a file ends up open. */
  predicate Succeeds(m: Mode, q: Request) {
    q.pathFlag || ((WantsWriter(m, q) ==> WriteError(q, Backing in m) == 0) && Called(q) == 0)
  }

  /** How the callbacks end, taken in order up to the first that fails. */
  function Called(q: Request): int {
    if !q.hasFops then -ENODEV else if q.security != 0 then q.security else if q.lease != 0 then q.lease
    else if q.hasOpen then q.openMethod else 0
  }

  /** The error of an open that fails: the first refusal, made negative. */
  function Refusal(m: Mode, q: Request): int {
    if WantsWriter(m, q) && WriteError(q, Backing in m) != 0 then WriteError(q, Backing in m)
    else if Called(q) > 0 then -EINVAL else Called(q)
  }

  /** No difference in the flags that decide what the file holds. */
  predicate Agree(m: Mode, n: Mode) {
    && (Read in m <==> Read in n)
    && (Write in m <==> Write in n)
    && (Writer in m <==> Writer in n)
    && (Opened in m <==> Opened in n)
    && (PathOnly in m <==> PathOnly in n)
    && (Backing in m <==> Backing in n)
  }

  lemma SameAccess(m: Mode, n: Mode)
    requires Agree(m + {Opened}, n + {Opened})
    ensures Access(m) == Access(n)
  {}

  /** The counters once more: the path and the operations once, one reader if nobody writes, or one writer of inode and mount. */
  function Opens(r: Refs, m: Mode, q: Request): Refs {
    var writers := if Write in m && !q.special then 1 else 0;
    Refs(r.path + 1, r.fops + 1, r.readers + Bit(Read in m && Write !in m), r.inodeWriters + writers, r.mountWriters + writers,
         r.backingWriters + if Backing in m then writers else 0)
  }

  lemma OwesAsOpened(base: Refs, m: Mode, was: Mode, q: Request)
    requires Opened in m && PathOnly !in m && (Read in m <==> Read in was) && (Write in m <==> Write in was) && (Backing in m <==> Backing in was)
    requires Writer in m <==> WantsWriter(was, q)
    ensures Plus(base, Owed(m)) == Opens(base, was, q)
  {}

  const ONE_PATH := Refs(1, 0, 0, 0, 0, 0)

  /** The path, the access and the operations, taken one after the other, are what an open file owes. */
  lemma Gathered(base: Refs, m: Mode)
    requires Opened in m && PathOnly !in m
    ensures Plus(Plus(Plus(base, ONE_PATH), Access(m)), Refs(0, 1, 0, 0, 0, 0)) == Plus(base, Owed(m))
  {
    hide Access;
  }

  lemma OwesPath(base: Refs, m: Mode)
    requires Opened in m && PathOnly in m
    ensures Plus(base, ONE_PATH) == Plus(base, Owed(m)) == base.(path := base.path + 1)
  {}

  lemma OwesNothing(base: Refs, m: Mode)
    requires Opened !in m
    ensures base == Plus(base, Owed(m))
  {}

  lemma GivenBack(base: Refs, a: Refs, f: Refs)
    ensures Minus(Minus(Plus(Plus(Plus(base, ONE_PATH), a), f), Plus(f, a)), ONE_PATH) == base
    ensures Minus(Plus(base, ONE_PATH), ONE_PATH) == base
  {}

  /** A file ends up open exactly when it is opened for its path only, or nothing that it needs is refused. */
  lemma SucceedsExactly(m: Mode, q: Request)
    ensures q.pathFlag ==> Succeeds(m, q)
    ensures !q.pathFlag ==>
      (Succeeds(m, q) <==>
       && (Write in m && !q.special ==> q.inodeWrite == 0 && q.mountWrite == 0 && (Backing in m ==> q.backingWrite == 0))
       && q.hasFops && q.security == 0 && q.lease == 0 && (q.hasOpen ==> q.openMethod == 0))
  {}

  /** The order of the refusals: write access first, then the operations, the security module, leases and the file's own method. */
  lemma FirstRefusalDecides(m: Mode, q: Request)
    requires !Succeeds(m, q) && q.security <= 0 && q.lease <= 0
    ensures var writer := Write in m && !q.special; var access := writer ==> WriteError(q, Backing in m) == 0;
      && (writer && q.inodeWrite != 0 ==> Refusal(m, q) == q.inodeWrite)
      && (writer && q.inodeWrite == 0 && q.mountWrite != 0 ==> Refusal(m, q) == q.mountWrite)
      && (writer && q.inodeWrite == 0 == q.mountWrite && Backing in m && q.backingWrite != 0 ==> Refusal(m, q) == q.backingWrite)
      && (access && !q.hasFops ==> Refusal(m, q) == -ENODEV)
      && (access && q.hasFops && q.security != 0 ==> Refusal(m, q) == q.security)
      && (access && q.hasFops && q.security == 0 && q.lease != 0 ==> Refusal(m, q) == q.lease)
      && (access && q.hasFops && q.security == 0 == q.lease ==>
            q.hasOpen && Refusal(m, q) == if q.openMethod > 0 then -EINVAL else q.openMethod)
  {}

  /** What an opened file can do: seek unless its driver cannot or its own method said no, read and write as asked and supported. */
  ghost predicate Able(m: Mode, was: Mode, q: Request) {
    && (Lseek in m <==> q.llseekOp && (!q.hasOpen || q.keepsLseek))
    && (AtomicPos in m <==> q.regularOrDir || AtomicPos in was)
    && (CanRead in m <==> CanRead in was || (Read in was && q.readOp))
    && (CanWrite in m <==> CanWrite in was || (Write in was && q.writeOp))
    && (CanODirect in m <==> CanODirect in was || q.directOp)
  }

  /** The mode once nothing was refused. */
  ghost predicate LetThrough(m: Mode, was: Mode, q: Request) {
    && Agree(m, was) && (Lseek in m <==> !q.hasOpen || q.keepsLseek) && (AtomicPos in m <==> q.regularOrDir || AtomicPos in was)
    && (CanRead in m <==> CanRead in was) && (CanWrite in m <==> CanWrite in was) && (CanODirect in m <==> CanODirect in was)
  }

  /** The mode once the file is marked open. */
  ghost predicate Marked(m: Mode, was: Mode, q: Request) {
    && Agree(m, was + {Opened})
    && (Lseek in m <==> Lseek in was && q.llseekOp) && (AtomicPos in m <==> AtomicPos in was)
    && (CanRead in m <==> CanRead in was || (Read in was && q.readOp))
    && (CanWrite in m <==> CanWrite in was || (Write in was && q.writeOp))
    && (CanODirect in m <==> CanODirect in was || q.directOp)
  }

  lemma MarkedAgrees(m: Mode, was: Mode, q: Request)
    requires Marked(m, was, q)
    ensures Access(m) == Access(was)
  {
    SameAccess(m, was);
  }

  lemma AbleInTheEnd(m: Mode, called: Mode, taken: Mode, was: Mode, q: Request)
    requires Marked(m, called, q) && LetThrough(called, taken, q) && (taken == was || taken == was + {Writer}) && PathOnly !in was
    ensures Able(m, was, q) && Opened in m && PathOnly !in m && (Read in m <==> Read in was) && (Write in m <==> Write in was)
    ensures (Backing in m <==> Backing in was) && (Writer in m <==> Writer in taken)
  {}

  class File {
    var refs: Refs
    var mode: Mode
    var hasInode: bool

    /** `path_get`. */
    method PathGet()
      modifies this`refs
      ensures refs == Plus(old(refs), ONE_PATH)
    {
      refs := refs.(path := refs.path + 1);
    }

    /** `path_put`. */
    method PathPut()
      modifies this`refs
      ensures refs == Minus(old(refs), ONE_PATH)
    {
      refs := refs.(path := refs.path - 1);
    }

    /** `file_get_write_access`: all the shares, or none. */
    method GetWriteAccess(q: Request) returns (error: int)
      modifies this`refs
      ensures error == WriteError(q, Backing in mode)
      ensures refs == if error != 0 then old(refs) else Plus(old(refs), Refs(0, 0, 0, 1, 1, Bit(Backing in mode)))
    {
      error := q.inodeWrite;
      if error != 0 {
        return;
      }
      refs := refs.(inodeWriters := refs.inodeWriters + 1);
      error := q.mountWrite;
      if error != 0 {
        refs := refs.(inodeWriters := refs.inodeWriters - 1);
        return;
      }
      refs := refs.(mountWriters := refs.mountWriters + 1);
      if Backing in mode {
        error := q.backingWrite;
        if error != 0 {
          refs := refs.(mountWriters := refs.mountWriters - 1);
          refs := refs.(inodeWriters := refs.inodeWriters - 1);
          return;
        }
        refs := refs.(backingWriters := refs.backingWriters + 1);
      }
    }

    /** `put_file_access`: drops what the mode says was taken. */
    method PutFileAccess()
      modifies this`refs
      ensures refs == Minus(old(refs), Access(mode))
    {
      if ReadOnly(mode) {
        refs := refs.(readers := refs.readers - 1);
      } else if Writer in mode {
        if Backing in mode {
          refs := refs.(backingWriters := refs.backingWriters - 1);
        }
        refs := refs.(mountWriters := refs.mountWriters - 1);
        refs := refs.(inodeWriters := refs.inodeWriters - 1);
      }
    }

    /** Counts the reader, or takes write access and marks the writer. */
    method TakeAccess(q: Request) returns (error: int)
      requires Writer !in mode
      modifies this`refs, this`mode
      ensures error == if WantsWriter(mode, q) then WriteError(q, Backing in mode) else 0
      ensures error != 0 ==> refs == old(refs) && mode == old(mode)
      ensures error == 0 ==> mode == (if WantsWriter(mode, q) then old(mode) + {Writer} else old(mode)) && refs == Plus(old(refs), Access(mode))
    {
      error := 0;
      if ReadOnly(mode) {
        refs := refs.(readers := refs.readers + 1);
      } else if Write in mode && !q.special {
        error := GetWriteAccess(q);
        if error != 0 {
          return;
        }
        mode := mode + {Writer};
      }
    }

    /** Looks up the operations and makes the calls that may refuse the open. */
    method MakeCalls(q: Request) returns (error: int)
      modifies this`refs, this`mode
      ensures error == Called(q) && (error == 0 ==> q.hasFops)
      ensures refs == Plus(old(refs), Refs(0, Bit(q.hasFops), 0, 0, 0, 0))
      ensures Agree(mode, old(mode)) && Access(mode) == Access(old(mode))
      ensures error == 0 ==> LetThrough(mode, old(mode), q)
    {
      if q.regularOrDir {
        mode := mode + {AtomicPos};
      }
      if !q.hasFops {
        return -ENODEV;
      }
      refs := refs.(fops := refs.fops + 1);
      error := q.security;
      if error != 0 {
        return;
      }
      error := q.lease;
      if error != 0 {
        return;
      }
      mode := mode + {Lseek};
      if q.hasOpen {
        error := q.openMethod;
        if error != 0 {
          return;
        }
        if !q.keepsLseek {
          mode := mode - {Lseek};
        }
      }
    }

    /** The clean-up once the operations were looked up; an error that is not negative becomes one. */
    method DropAll(q: Request, error0: int) returns (error: int)
      requires error0 != 0
      modifies this`refs
      ensures error == if error0 > 0 then -EINVAL else error0
      ensures refs == Minus(old(refs), Plus(Refs(0, Bit(q.hasFops), 0, 0, 0, 0), Access(mode)))
    {
      hide Access;
      error := error0;
      if error > 0 {
        error := -EINVAL;
      }
      if q.hasFops {
        refs := refs.(fops := refs.fops - 1);
      }
      PutFileAccess();
    }

    /** Marks the file open and sets what it can do. The test for direct I/O comes too late to undo anything. */
    method MarkOpen(q: Request) returns (error: int)
      modifies this`mode
      ensures Marked(mode, old(mode), q) && Access(mode) == Access(old(mode))
      ensures error == if q.directFlag && CanODirect !in mode then -EINVAL else 0
    {
      hide Access, Marked;
      ghost var was := mode;
      SetAbilities(q);
      MarkedAgrees(mode, was, q);
      if q.directFlag && CanODirect !in mode {
        return -EINVAL;
      }
      return 0;
    }

    method SetAbilities(q: Request)
      modifies this`mode
      ensures Marked(mode, old(mode), q)
    {
      mode := mode + {Opened};
      if Read in mode && q.readOp {
        mode := mode + {CanRead};
      }
      if Write in mode && q.writeOp {
        mode := mode + {CanWrite};
      }
      if Lseek in mode && !q.llseekOp {
        mode := mode - {Lseek};
      }
      if q.directOp {
        mode := mode + {CanODirect};
      }
    }

    /**
     `do_dentry_open`. Whatever the calls answer, the result is zero or negative and the references taken are
     exactly those that a file marked open holds. It is marked open whenever the result is zero, and also when
     only the late test for direct I/O fails.
     */
    method DoDentryOpen(q: Request) returns (error: int)
      requires Opened !in mode && Writer !in mode && PathOnly !in mode && q.inodeWrite <= 0 && q.mountWrite <= 0 && q.backingWrite <= 0
      modifies this
      ensures error <= 0
      ensures refs == Plus(old(refs), Owed(mode))
      ensures Opened in mode <==> hasInode
      ensures hasInode == Succeeds(old(mode), q)
      ensures !hasInode ==> error == Refusal(old(mode), q)
      ensures hasInode ==> error in {0, -EINVAL}
      ensures error == 0 <==> Opened in mode && (q.pathFlag || !q.directFlag || CanODirect in mode)
      ensures Opened in mode && !q.pathFlag ==> (Read in mode <==> Read in old(mode)) && (Write in mode <==> Write in old(mode))
      ensures Opened in mode && !q.pathFlag ==> (Writer in mode <==> WantsWriter(old(mode), q))
      ensures q.pathFlag ==> mode == {PathOnly, Opened} && refs == old(refs).(path := old(refs).path + 1)
      ensures Opened in mode && !q.pathFlag ==> Able(mode, old(mode), q)
      ensures Opened in mode && !q.pathFlag ==> refs == Opens(old(refs), old(mode), q)
      ensures Opened !in mode ==> refs == old(refs)
    {
      hide Access, Called, Plus, Minus, Owed, Opens, Able, Marked, LetThrough, Agree;
      ghost var base := refs;
      PathGet();
      hasInode := true;
      if q.pathFlag {
        mode := {PathOnly, Opened};
        OwesPath(base, mode);
        return 0;
      }
      error := TakeAccess(q);
      GivenBack(base, Access(mode), Refs(0, Bit(q.hasFops), 0, 0, 0, 0));
      ghost var taken := mode;
      if error == 0 {
        error := MakeCalls(q);
        if error == 0 {
          ghost var called := mode;
          error := MarkOpen(q);
          AbleInTheEnd(mode, called, taken, old(mode), q);
          Gathered(base, mode);
          OwesAsOpened(base, mode, old(mode), q);
          return;
        }
        error := DropAll(q, error);
      }
      PathPut();
      hasInode := false;
      OwesNothing(base, mode);
    }
  }
}
