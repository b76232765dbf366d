/**
 `copy_process`: about twenty acquisitions, each of which may fail, and one chain of labels that
 undoes them.

 A reference or allocation is a `Resource`; `held` is the multiset of those outstanding, so the count
 of a shared object is its multiplicity. The child's pointers start as copies of the parent's, and the
 clean-up code reads them, so entering a label too high would drop a reference of the parent.
 */
module CloneUnwind {
  import opened Options

  datatype Resource =
    | DelayedNode | TaskStruct | Stack | Cred | Nproc | Delayacct | Kthread | Mempolicy | Perf | Audit | Security
    | Semundo | Files(id: nat) | Fs(id: nat) | Sighand(id: nat) | Signal(id: nat) | Mm(id: nat)
    | Namespaces(id: nat) | IoContext(id: nat) | Thread | Pid | PidFd | Cgroup

  datatype Event = Get(r: Resource) | Put(r: Resource)

  /** The caller's pointers to reference-counted objects; NULL is `None`. */
  datatype Caller = Caller(mempolicy: bool, semundo: bool, files: Option<nat>, fs: nat, sighand: nat, signal: nat, mm: Option<nat>,
                           namespaces: nat, io: Option<nat>)

  /** The child's pointers, as far as clean-up code reads them. */
  datatype Child = Child(kthread: bool, mempolicy: bool, semundo: bool, files: Option<nat>, fs: Option<nat>,
                         sighand: Option<nat>, signal: Option<nat>, mm: Option<nat>, namespaces: nat, io: Option<nat>)

  datatype Flags = Flags(newNs: bool, newUser: bool, shareFs: bool, thread: bool, shareSighand: bool, shareVm: bool,
                         parent: bool, newPid: bool, pidfd: bool, detached: bool, shareFiles: bool, shareSysvsem: bool,
                         shareIo: bool, otherNs: bool)

  /** Every call of `copy_process` that can fail. */
  datatype Call =
    | SignalPending | DupTask | CopyCreds | NprocLimit | MaxThreads | SetKthread | DupPolicy | SchedFork | PerfInit
    | AuditAlloc | SecurityAlloc | CopySemundo | CopyFiles | CopyFs | CopySighand | CopySignal | CopyMm
    | CopyNamespaces | CopyIo | CopyThread | AllocPid | PidfdPrepare | PutUser | CgroupFork | LastChecks

  /**
   One invocation: the caller's pointers, the arguments, which calls fail, and the identity of every
   object newly allocated on the way. `unkillable` marks a namespace's init, `otherPidNs` that children
   go to another pid namespace than the caller's.
   */
  datatype Clone = Clone(cur: Caller, flags: Flags, unkillable: bool, otherPidNs: bool, kthread: bool, noFiles: bool,
                         ioprio: bool, bootPid: bool, newId: nat, fails: Call -> bool)

  /** The flag combinations refused before anything is acquired. */
  predicate Refused(c: Clone) {
    var f := c.flags;
    || (f.newNs && f.shareFs)
    || (f.newUser && f.shareFs)
    || (f.thread && !f.shareSighand)
    || (f.shareSighand && !f.shareVm)
    || (f.parent && c.unkillable)
    || (f.thread && (f.newUser || f.newPid || c.otherPidNs))
    || (f.pidfd && (f.detached || f.thread))
  }

  // ----- The pointers the child ends up with -----

  function ChildFiles(c: Clone): Option<nat> {
    if c.cur.files.None? || c.noFiles then None else if c.flags.shareFiles then c.cur.files else Some(c.newId)
  }

  function ChildFs(c: Clone): nat {
    if c.flags.shareFs then c.cur.fs else c.newId
  }

  function ChildSighand(c: Clone): nat {
    if c.flags.shareSighand then c.cur.sighand else c.newId
  }

  function ChildMm(c: Clone): Option<nat> {
    if c.cur.mm.None? || c.flags.shareVm then c.cur.mm else Some(c.newId)
  }

  function ChildNamespaces(c: Clone): nat {
    if c.flags.newNs || c.flags.newPid || c.flags.otherNs then c.newId else c.cur.namespaces
  }

  function ChildIo(c: Clone): Option<nat> {
    if c.cur.io.None? then None
    else if c.flags.shareIo then c.cur.io
    else if c.ioprio then Some(c.newId)
    else None
  }

  // ----- What each call acquires -----

  const CALLS := 25

  function When(b: bool, r: Resource): seq<Resource> {
    if b then [r] else []
  }

  function OfFiles(x: Option<nat>): seq<Resource> { if x.Some? then [Files(x.value)] else [] }

  function OfMm(x: Option<nat>): seq<Resource> { if x.Some? then [Mm(x.value)] else [] }

  function OfIo(x: Option<nat>): seq<Resource> { if x.Some? then [IoContext(x.value)] else [] }

  function CallAt(n: nat): Call
    requires n < CALLS
  {
    if n < 12 then
      if n < 6 then
        if n == 0 then SignalPending else if n == 1 then DupTask else if n == 2 then CopyCreds
        else if n == 3 then NprocLimit else if n == 4 then MaxThreads else SetKthread
      else
        if n == 6 then DupPolicy else if n == 7 then SchedFork else if n == 8 then PerfInit
        else if n == 9 then AuditAlloc else if n == 10 then SecurityAlloc else CopySemundo
    else if n < 19 then
      if n == 12 then CopyFiles else if n == 13 then CopyFs else if n == 14 then CopySighand
      else if n == 15 then CopySignal else if n == 16 then CopyMm else if n == 17 then CopyNamespaces else CopyIo
    else
      if n == 19 then CopyThread else if n == 20 then AllocPid else if n == 21 then PidfdPrepare
      else if n == 22 then PutUser else if n == 23 then CgroupFork else LastChecks
  }

  /** What is acquired by a call that succeeds, up to the next call. */
  function Gain(c: Clone, call: Call): seq<Resource> {
    match call
    case DupTask => [TaskStruct, Stack]
    case CopyCreds => [Cred, Nproc]
    case MaxThreads => [Delayacct]
    case SetKthread => When(c.kthread, Kthread)
    case DupPolicy => When(c.cur.mempolicy, Mempolicy)
    case PerfInit => [Perf]
    case AuditAlloc => [Audit]
    case SecurityAlloc => [Security]
    case CopySemundo => When(c.flags.shareSysvsem, Semundo)
    case CopyFiles => OfFiles(ChildFiles(c))
    case CopyFs => [Fs(ChildFs(c))]
    case CopySighand => [Sighand(ChildSighand(c))]
    case CopySignal => When(!c.flags.thread, Signal(c.newId))
    case CopyMm => OfMm(ChildMm(c))
    case CopyNamespaces => [Namespaces(ChildNamespaces(c))]
    case CopyIo => OfIo(ChildIo(c))
    case CopyThread => [Thread]
    case AllocPid => When(!c.bootPid, Pid)
    case PidfdPrepare => When(c.flags.pidfd, PidFd)
    case CgroupFork => [Cgroup]
    case _ => []
  }

  /** Everything acquired before call number `n`. */
  function Gained(c: Clone, n: nat): seq<Resource>
    requires n <= CALLS
  {
    if n == 0 then When(!c.flags.thread, DelayedNode) else Gained(c, n - 1) + Gain(c, CallAt(n - 1))
  }

  /** Some calls are made only for some arguments. */
  predicate Made(c: Clone, call: Call) {
    match call
    case SetKthread => c.kthread
    case DupPolicy => c.cur.mempolicy
    case CopyFiles => c.cur.files.Some? && !c.noFiles && !c.flags.shareFiles
    case CopySighand => !c.flags.shareSighand
    case CopySignal => !c.flags.thread
    case CopyMm => c.cur.mm.Some? && !c.flags.shareVm
    case AllocPid => !c.bootPid
    case PidfdPrepare => c.flags.pidfd
    case PutUser => c.flags.pidfd
    case _ => true
  }

  /** The number of the first call from `n` on that fails; `CALLS` if none does. */
  function FirstFailure(c: Clone, n: nat): (k: nat)
    requires n <= CALLS
    ensures n <= k <= CALLS
    ensures k < CALLS ==> Made(c, CallAt(k)) && c.fails(CallAt(k))
    ensures forall j :: n <= j < k ==> !(Made(c, CallAt(j)) && c.fails(CallAt(j)))
    decreases CALLS - n
  {
    if n == CALLS then CALLS
    else if Made(c, CallAt(n)) && c.fails(CallAt(n)) then n
    else FirstFailure(c, n + 1)
  }

  // ----- What each label undoes -----

  const FORK_OUT := 1
  const FREE := 2
  const CLEANUP_COUNT := 3
  const CLEANUP_DELAYACCT := 4
  const CLEANUP_POLICY := 5
  const CLEANUP_PERF := 6
  const CLEANUP_AUDIT := 7
  const CLEANUP_SECURITY := 8
  const CLEANUP_SEMUNDO := 9
  const CLEANUP_FILES := 10
  const CLEANUP_FS := 11
  const CLEANUP_SIGHAND := 12
  const CLEANUP_SIGNAL := 13
  const CLEANUP_MM := 14
  const CLEANUP_NAMESPACES := 15
  const CLEANUP_IO := 16
  const CLEANUP_THREAD := 17
  const FREE_PID := 18
  const PUT_PIDFD := 19
  const CANCEL_CGROUP := 20

  /** What the label numbered `k` undoes by itself, in order, for a child with these pointers. */
  function Undo(c: Clone, p: Child, k: nat): seq<Resource> {
    if k <= 7 then
      if k == FORK_OUT then When(!c.flags.thread, DelayedNode)
      else if k == FREE then (if p.kthread then [Stack, Kthread, TaskStruct] else [Stack, TaskStruct])
      else if k == CLEANUP_COUNT then [Nproc, Cred]
      else if k == CLEANUP_DELAYACCT then [Delayacct]
      else if k == CLEANUP_POLICY then When(p.mempolicy, Mempolicy)
      else if k == CLEANUP_PERF then [Perf]
      else if k == CLEANUP_AUDIT then [Audit]
      else []
    else if k <= 13 then
      if k == CLEANUP_SECURITY then [Security]
      else if k == CLEANUP_SEMUNDO then When(p.semundo, Semundo)
      else if k == CLEANUP_FILES then OfFiles(p.files)
      else if k == CLEANUP_FS then (if p.fs.Some? then [Fs(p.fs.value)] else [])
      else if k == CLEANUP_SIGHAND then (if p.sighand.Some? then [Sighand(p.sighand.value)] else [])
      else (if !c.flags.thread && p.signal.Some? then [Signal(p.signal.value)] else [])
    else
      if k == CLEANUP_MM then OfMm(p.mm)
      else if k == CLEANUP_NAMESPACES then [Namespaces(p.namespaces)]
      else if k == CLEANUP_IO then OfIo(p.io)
      else if k == CLEANUP_THREAD then [Thread]
      else if k == FREE_PID then When(!c.bootPid, Pid)
      else if k == PUT_PIDFD then When(c.flags.pidfd, PidFd)
      else if k == CANCEL_CGROUP then [Cgroup]
      else []
  }

  /** What label `k` and the labels it falls into undo, in order. */
  function UndoFrom(c: Clone, p: Child, k: nat): seq<Resource> {
    if k == 0 then [] else Undo(c, p, k) + UndoFrom(c, p, k - 1)
  }

  /** The label the code enters when call number `n` fails. */
  function LabelFor(n: nat): nat
    requires n < CALLS
  {
    match CallAt(n)
    case SignalPending => FORK_OUT
    case DupTask => FORK_OUT
    case CopyCreds => FREE
    case NprocLimit => CLEANUP_COUNT
    case MaxThreads => CLEANUP_COUNT
    case SetKthread => CLEANUP_DELAYACCT
    case DupPolicy => CLEANUP_DELAYACCT
    case SchedFork => CLEANUP_POLICY
    case PerfInit => CLEANUP_POLICY
    case AuditAlloc => CLEANUP_PERF
    case SecurityAlloc => CLEANUP_AUDIT
    case CopySemundo => CLEANUP_SECURITY
    case CopyFiles => CLEANUP_SEMUNDO
    case CopyFs => CLEANUP_FILES
    case CopySighand => CLEANUP_FS
    case CopySignal => CLEANUP_SIGHAND
    case CopyMm => CLEANUP_SIGNAL
    case CopyNamespaces => CLEANUP_MM
    case CopyIo => CLEANUP_NAMESPACES
    case CopyThread => CLEANUP_IO
    case AllocPid => CLEANUP_THREAD
    case PidfdPrepare => FREE_PID
    case PutUser => PUT_PIDFD
    case CgroupFork => PUT_PIDFD
    case LastChecks => CANCEL_CGROUP
  }

  /** The child's pointers, for those set by a call before number `n`. */
  predicate PointersAt(c: Clone, p: Child, n: nat) {
    && (n <= 5 ==> !p.kthread) && (n > 5 ==> p.kthread == c.kthread)
    && (n > 6 ==> p.mempolicy == c.cur.mempolicy)
    && (n > 11 ==> p.semundo == c.flags.shareSysvsem)
    && (n > 12 ==> p.files == ChildFiles(c))
    && (n > 13 ==> p.fs == Some(ChildFs(c)))
    && (n > 14 ==> p.sighand == Some(ChildSighand(c)))
    && (n > 15 ==> p.signal == Some(if c.flags.thread then c.cur.signal else c.newId))
    && (n > 16 ==> p.mm == ChildMm(c))
    && (n > 17 ==> p.namespaces == ChildNamespaces(c))
    && (n > 18 ==> p.io == ChildIo(c))
  }

  function Reverse(s: seq<Resource>): seq<Resource> {
    if s == [] then [] else Reverse(s[1..]) + [s[0]]
  }

  lemma {:induction false} ReverseConcat(a: seq<Resource>, b: seq<Resource>)
    ensures Reverse(a + b) == Reverse(b) + Reverse(a)
  {
    if a == [] {
      assert a + b == b;
    } else {
      ReverseConcat(a[1..], b);
      assert (a + b)[1..] == a[1..] + b;
    }
  }

  /** `s` without the kthread struct. */
  function Plain(s: seq<Resource>): seq<Resource> {
    if s == [] then [] else if s[0] == Kthread then Plain(s[1..]) else [s[0]] + Plain(s[1..])
  }

  lemma {:induction false} PlainConcat(a: seq<Resource>, b: seq<Resource>)
    ensures Plain(a + b) == Plain(a) + Plain(b)
  {
    if a == [] {
      assert a + b == b;
    } else {
      PlainConcat(a[1..], b);
      assert (a + b)[0] == a[0] && (a + b)[1..] == a[1..] + b;
      assert [a[0]] + (Plain(a[1..]) + Plain(b)) == [a[0]] + Plain(a[1..]) + Plain(b);
    }
  }

  lemma ShortLists(a: Resource, b: Resource)
    requires a != Kthread && b != Kthread
    ensures Plain([a]) == [a] == Reverse([a])
    ensures Plain([a, b]) == [a, b] && Reverse([a, b]) == [b, a]
    ensures Plain([a, Kthread, b]) == [a, b] && Plain([Kthread]) == []
  {
    assert [a, b][1..] == [b] && [a, Kthread, b][1..] == [Kthread, b] && [Kthread, b][1..] == [b];
    assert Plain([b]) == [b] && Reverse([b]) == [b] && Plain([Kthread, b]) == [b];
  }

  /** A list of at most one resource, other than the kthread struct. */
  lemma ShortList(s: seq<Resource>)
    requires |s| <= 1 && Kthread !in s
    ensures Plain(s) == s == Reverse(s)
  {
    if s != [] {
      ShortLists(s[0], s[0]);
    }
  }

  /** As `PointersAt`, without the kthread struct. */
  predicate PointersSet(c: Clone, p: Child, n: nat) {
    PointersAt(c, p.(kthread := n > 5 && c.kthread), n)
  }

  /** The labels entered by consecutive calls are equal or adjacent. */
  lemma LabelsAdjacent(n: nat)
    requires n + 1 < CALLS
    ensures LabelFor(n + 1) == LabelFor(n) + 1 || LabelFor(n + 1) == LabelFor(n)
    ensures CallAt(n) in {SignalPending, NprocLimit, SetKthread, SchedFork, PutUser} ==> LabelFor(n + 1) == LabelFor(n)
    ensures CallAt(n) !in {SignalPending, NprocLimit, SetKthread, SchedFork, PutUser} ==> LabelFor(n + 1) > LabelFor(n)
  {}

  /** Apart from the task struct and the credentials, a label undoes the one thing its call gained. */
  lemma UndoesGain(c: Clone, p: Child, n: nat)
    requires n + 1 < CALLS && PointersSet(c, p, n + 1)
    requires CallAt(n) !in {SignalPending, NprocLimit, SetKthread, SchedFork, PutUser, DupTask, CopyCreds}
    ensures Undo(c, p, LabelFor(n + 1)) == Gain(c, CallAt(n))
    ensures |Gain(c, CallAt(n))| <= 1 && Kthread !in Gain(c, CallAt(n))
  {
    hide Undo, Gain, LabelFor, PointersSet;
    if n < 14 {
      UndoesEarlyGain(c, p, n);
    } else if n < 18 {
      UndoesMiddleGain(c, p, n);
    } else {
      UndoesLateGain(c, p, n);
    }
  }

  lemma UndoesEarlyGain(c: Clone, p: Child, n: nat)
    requires n < 14 && PointersSet(c, p, n + 1)
    requires CallAt(n) !in {SignalPending, NprocLimit, SetKthread, SchedFork, DupTask, CopyCreds}
    ensures Undo(c, p, LabelFor(n + 1)) == Gain(c, CallAt(n))
    ensures |Gain(c, CallAt(n))| <= 1 && Kthread !in Gain(c, CallAt(n))
  {}

  lemma UndoesMiddleGain(c: Clone, p: Child, n: nat)
    requires 14 <= n < 18 && PointersSet(c, p, n + 1)
    ensures Undo(c, p, LabelFor(n + 1)) == Gain(c, CallAt(n))
    ensures |Gain(c, CallAt(n))| <= 1 && Kthread !in Gain(c, CallAt(n))
  {}

  lemma UndoesLateGain(c: Clone, p: Child, n: nat)
    requires 18 <= n < CALLS - 1 && PointersSet(c, p, n + 1) && CallAt(n) != PutUser
    ensures Undo(c, p, LabelFor(n + 1)) == Gain(c, CallAt(n))
    ensures |Gain(c, CallAt(n))| <= 1 && Kthread !in Gain(c, CallAt(n))
  {
    LateLabels(n);
    hide LabelFor, CallAt;
    if n == 18 {
      assert p.io == ChildIo(c);
      hide PointersSet, ChildIo;
    } else {
      hide PointersSet;
    }
  }

  lemma LateLabels(n: nat)
    requires 18 <= n < CALLS - 1
    ensures (n == 18 && CallAt(n) == CopyIo && LabelFor(n + 1) == CLEANUP_IO)
         || (n == 19 && CallAt(n) == CopyThread && LabelFor(n + 1) == CLEANUP_THREAD)
         || (n == 20 && CallAt(n) == AllocPid && LabelFor(n + 1) == FREE_PID)
         || (n == 21 && CallAt(n) == PidfdPrepare && LabelFor(n + 1) == PUT_PIDFD)
         || (n == 22 && CallAt(n) == PutUser && LabelFor(n + 1) == PUT_PIDFD)
         || (n == 23 && CallAt(n) == CgroupFork && LabelFor(n + 1) == CANCEL_CGROUP)
  {}

  lemma TaskStructUndone(undo: seq<Resource>)
    requires undo == [Stack, Kthread, TaskStruct] || undo == [Stack, TaskStruct]
    ensures Plain(undo) == Reverse(Plain([TaskStruct, Stack]))
  {
    ShortLists(Stack, TaskStruct);
    ShortLists(TaskStruct, Stack);
    hide Plain, Reverse;
  }

  lemma CredUndone()
    ensures Plain([Nproc, Cred]) == Reverse(Plain([Cred, Nproc]))
  {
    ShortLists(Nproc, Cred);
    ShortLists(Cred, Nproc);
  }

  /** An upper label undoes, in reverse, exactly what the call below it gained; the kthread struct aside. */
  lemma LabelStep(c: Clone, p: Child, n: nat)
    requires n + 1 < CALLS && PointersSet(c, p, n + 1)
    ensures LabelFor(n + 1) == LabelFor(n) ==> Plain(Gain(c, CallAt(n))) == []
    ensures LabelFor(n + 1) > LabelFor(n) ==> Plain(Undo(c, p, LabelFor(n + 1))) == Reverse(Plain(Gain(c, CallAt(n))))
  {
    LabelsAdjacent(n);
    if CallAt(n) in {SignalPending, NprocLimit, SetKthread, SchedFork, PutUser} {
    } else if CallAt(n) == DupTask {
      TaskStructUndone(Undo(c, p, FREE));
    } else if CallAt(n) == CopyCreds {
      CredUndone();
    } else {
      UndoesGain(c, p, n);
      ShortList(Gain(c, CallAt(n)));
    }
  }

  lemma ReversesJoin(below: seq<Resource>, gain: seq<Resource>, undone: seq<Resource>, undo: seq<Resource>)
    requires Plain(undone) == Reverse(Plain(below)) && Plain(undo) == Reverse(Plain(gain))
    ensures Plain(undo + undone) == Reverse(Plain(below + gain))
  {
    PlainConcat(below, gain);
    PlainConcat(undo, undone);
    ReverseConcat(Plain(below), Plain(gain));
  }

  lemma PointersBefore(c: Clone, p: Child, n: nat)
    requires 0 < n && PointersSet(c, p, n)
    ensures PointersSet(c, p, n - 1)
  {}

  lemma FirstUndone(c: Clone, p: Child)
    ensures LabelFor(0) == 1 && Plain(UndoFrom(c, p, 1)) == Reverse(Plain(Gained(c, 0)))
  {
    ShortList(When(!c.flags.thread, DelayedNode));
    hide Plain, Reverse;
    assert UndoFrom(c, p, 1) == Undo(c, p, 1) + UndoFrom(c, p, 0);
    assert UndoFrom(c, p, 1) == When(!c.flags.thread, DelayedNode);
  }

  /** The label entered when call `n` fails undoes exactly what was gained, in reverse; the kthread struct aside. */
  lemma {:induction false} UndoneIsReversed(c: Clone, p: Child, n: nat)
    requires n < CALLS && PointersSet(c, p, n)
    ensures Plain(UndoFrom(c, p, LabelFor(n))) == Reverse(Plain(Gained(c, n)))
  {
    hide Plain, Reverse, Undo, Gain, LabelFor, CallAt, PointersSet;
    if n == 0 {
      FirstUndone(c, p);
    } else {
      PointersBefore(c, p, n);
      UndoneIsReversed(c, p, n - 1);
      LabelsAdjacent(n - 1);
      LabelStep(c, p, n - 1);
      var l, below, gain := LabelFor(n), Gained(c, n - 1), Gain(c, CallAt(n - 1));
      var undone := UndoFrom(c, p, LabelFor(n - 1));
      if l > LabelFor(n - 1) {
        ReversesJoin(below, gain, undone, Undo(c, p, l));
      } else {
        PlainConcat(below, gain);
        assert Plain(below) + [] == Plain(below);
      }
    }
  }

  // ----- Nothing is missed and nothing is dropped twice -----

  lemma {:induction false} ReverseSame(s: seq<Resource>)
    ensures multiset(Reverse(s)) == multiset(s)
  {
    if s != [] {
      ReverseSame(s[1..]);
      assert s == [s[0]] + s[1..];
    }
  }

  lemma {:induction false} PlainSame(s: seq<Resource>)
    ensures multiset(s) == multiset(Plain(s))[Kthread := multiset(s)[Kthread]]
    ensures Kthread !in s ==> Plain(s) == s
  {
    if s != [] {
      PlainSame(s[1..]);
      assert s == [s[0]] + s[1..];
    }
  }

  /** How often the kthread struct occurs. */
  function Kthreads(s: seq<Resource>): nat { multiset(s)[Kthread] }

  lemma KthreadsAdd(a: seq<Resource>, b: seq<Resource>)
    ensures Kthreads(a + b) == Kthreads(a) + Kthreads(b)
  {}

  lemma KthreadCall(n: nat)
    requires n < CALLS
    ensures CallAt(n) == SetKthread <==> n == 5
  {}

  lemma {:induction false} KthreadGained(c: Clone, n: nat)
    requires n <= CALLS
    ensures Kthreads(Gained(c, n)) == if n > 5 && c.kthread then 1 else 0
  {
    if n > 0 {
      hide Gain, CallAt;
      KthreadGained(c, n - 1);
      KthreadCall(n - 1);
      KthreadGain(c, CallAt(n - 1));
      KthreadsAdd(Gained(c, n - 1), Gain(c, CallAt(n - 1)));
    }
  }

  lemma KthreadGain(c: Clone, call: Call)
    ensures Kthreads(Gain(c, call)) == if call == SetKthread && c.kthread then 1 else 0
  {}

  lemma KthreadUndo(c: Clone, p: Child, k: nat)
    ensures Kthreads(Undo(c, p, k)) == if k == FREE && p.kthread then 1 else 0
  {
  }

  lemma {:induction false} KthreadUndone(c: Clone, p: Child, k: nat)
    ensures Kthreads(UndoFrom(c, p, k)) == if k >= FREE && p.kthread then 1 else 0
  {
    hide Undo;
    if k > 0 {
      KthreadUndone(c, p, k - 1);
      KthreadUndo(c, p, k);
      KthreadsAdd(Undo(c, p, k), UndoFrom(c, p, k - 1));
    }
  }

  lemma LabelFree(n: nat)
    requires n < CALLS
    ensures n >= 2 ==> LabelFor(n) >= FREE
    ensures n < 2 ==> LabelFor(n) == FORK_OUT
    ensures LabelFor(n) <= CANCEL_CGROUP
  {}

  /** The label entered when call `n` fails undoes each thing gained so far exactly once, and nothing else. */
  lemma UndoneIsGained(c: Clone, p: Child, n: nat)
    requires n < CALLS && PointersAt(c, p, n)
    ensures multiset(UndoFrom(c, p, LabelFor(n))) == multiset(Gained(c, n))
  {
    var g, u := Gained(c, n), UndoFrom(c, p, LabelFor(n));
    UndoneIsReversed(c, p, n) by { PointersAtSet(c, p, n); }
    ReverseSame(Plain(g));
    PlainSame(g);
    PlainSame(u);
    LabelFree(n);
    KthreadGained(c, n);
    KthreadUndone(c, p, LabelFor(n));
    PointersKthread(c, p, n);
  }

  lemma PointersAtSet(c: Clone, p: Child, n: nat)
    requires PointersAt(c, p, n)
    ensures PointersSet(c, p, n)
  {}

  lemma PointersKthread(c: Clone, p: Child, n: nat)
    requires PointersAt(c, p, n)
    ensures p.kthread <==> n > 5 && c.kthread
  {}

  lemma GainedFirst(c: Clone)
    ensures Gained(c, 2) == When(!c.flags.thread, DelayedNode) + [TaskStruct, Stack]
  {
    assert Gain(c, CallAt(0)) == [] && Gain(c, CallAt(1)) == [TaskStruct, Stack];
    hide Gain, CallAt;
    assert Gained(c, 1) == Gained(c, 0) + [];
  }

  lemma {:induction false} GainedStarts(c: Clone, n: nat) returns (rest: seq<Resource>)
    requires 2 <= n <= CALLS
    ensures Gained(c, n) == When(!c.flags.thread, DelayedNode) + [TaskStruct, Stack] + rest
  {
    hide Gain, CallAt, When;
    if n == 2 {
      GainedFirst(c);
      rest := [];
    } else {
      var r := GainedStarts(c, n - 1);
      var gain := Gain(c, CallAt(n - 1));
      rest := r + gain;
      SeqAssoc(When(!c.flags.thread, DelayedNode) + [TaskStruct, Stack], r, gain);
    }
  }

  lemma SeqAssoc(a: seq<Resource>, b: seq<Resource>, c: seq<Resource>)
    ensures (a + b) + c == a + (b + c)
  {}

  lemma {:induction false} UndoneEnds(c: Clone, p: Child, k: nat) returns (rest: seq<Resource>)
    requires FREE <= k && p.kthread
    ensures UndoFrom(c, p, k) == rest + [Stack, Kthread, TaskStruct] + When(!c.flags.thread, DelayedNode)
  {
    if k == FREE {
      rest := [];
      assert UndoFrom(c, p, 1) == Undo(c, p, 1) + UndoFrom(c, p, 0);
      assert UndoFrom(c, p, 2) == [Stack, Kthread, TaskStruct] + UndoFrom(c, p, 1);
    } else {
      hide Undo;
      var r := UndoneEnds(c, p, k - 1);
      var undo := Undo(c, p, k);
      rest := undo + r;
      assert undo + (r + [Stack, Kthread, TaskStruct] + When(!c.flags.thread, DelayedNode))
          == rest + [Stack, Kthread, TaskStruct] + When(!c.flags.thread, DelayedNode);
    }
  }

  /**
   The undoing is the exact reverse of the acquiring if and only if no kthread struct had been acquired:
   that one is freed with the task struct, not in its turn.
   */
  lemma ReversedUnlessKthread(c: Clone, p: Child, n: nat)
    requires n < CALLS && PointersAt(c, p, n)
    ensures UndoFrom(c, p, LabelFor(n)) == Reverse(Gained(c, n)) <==> !(c.kthread && n > 5)
  {
    var g, u := Gained(c, n), UndoFrom(c, p, LabelFor(n));
    PointersKthread(c, p, n);
    KthreadGained(c, n);
    if c.kthread && n > 5 {
      var d := When(!c.flags.thread, DelayedNode);
      LabelFree(n);
      var r1 := GainedStarts(c, n);
      var r2 := UndoneEnds(c, p, LabelFor(n));
      ReverseConcat(d + [TaskStruct, Stack], r1);
      ReverseConcat(d, [TaskStruct, Stack]);
      ShortLists(TaskStruct, Stack);
      ShortList(d);
      EndsDiffer(u, Reverse(g), r2, Reverse(r1), d);
    } else {
      PointersAtSet(c, p, n);
      UndoneIsReversed(c, p, n);
      LabelFree(n);
      KthreadUndone(c, p, LabelFor(n));
      PlainSame(g);
      PlainSame(u);
    }
  }

  lemma EndsDiffer(u: seq<Resource>, v: seq<Resource>, a: seq<Resource>, b: seq<Resource>, d: seq<Resource>)
    requires u == a + [Stack, Kthread, TaskStruct] + d && v == b + ([Stack, TaskStruct] + d)
    ensures u != v
  {
    assert u[|u| - |d| - 2] == Kthread;
    assert v[|v| - |d| - 2] == Stack;
  }

  /** The labels one by one. */
  lemma UndoTable(c: Clone, p: Child)
    ensures Undo(c, p, CANCEL_CGROUP) == [Cgroup]
    ensures Undo(c, p, PUT_PIDFD) == When(c.flags.pidfd, PidFd)
    ensures Undo(c, p, FREE_PID) == When(!c.bootPid, Pid)
    ensures Undo(c, p, CLEANUP_THREAD) == [Thread]
    ensures Undo(c, p, CLEANUP_IO) == OfIo(p.io)
    ensures Undo(c, p, CLEANUP_NAMESPACES) == [Namespaces(p.namespaces)]
    ensures Undo(c, p, CLEANUP_MM) == OfMm(p.mm)
    ensures Undo(c, p, CLEANUP_SIGNAL) == if !c.flags.thread && p.signal.Some? then [Signal(p.signal.value)] else []
    ensures Undo(c, p, CLEANUP_SIGHAND) == if p.sighand.Some? then [Sighand(p.sighand.value)] else []
    ensures Undo(c, p, CLEANUP_FS) == if p.fs.Some? then [Fs(p.fs.value)] else []
    ensures Undo(c, p, CLEANUP_FILES) == OfFiles(p.files)
    ensures Undo(c, p, CLEANUP_SEMUNDO) == When(p.semundo, Semundo)
    ensures Undo(c, p, CLEANUP_SECURITY) == [Security]
    ensures Undo(c, p, CLEANUP_AUDIT) == [Audit]
    ensures Undo(c, p, CLEANUP_PERF) == [Perf]
    ensures Undo(c, p, CLEANUP_POLICY) == When(p.mempolicy, Mempolicy)
    ensures Undo(c, p, CLEANUP_DELAYACCT) == [Delayacct]
    ensures Undo(c, p, CLEANUP_COUNT) == [Nproc, Cred]
    ensures Undo(c, p, FREE) == if p.kthread then [Stack, Kthread, TaskStruct] else [Stack, TaskStruct]
    ensures Undo(c, p, FORK_OUT) == When(!c.flags.thread, DelayedNode)
  {}

  lemma TablesCalls()
    ensures CallAt(12) == CopyFiles && LabelFor(12) == CLEANUP_SEMUNDO
    ensures CallAt(13) == CopyFs && LabelFor(13) == CLEANUP_FILES
    ensures CallAt(14) == CopySighand && LabelFor(14) == CLEANUP_FS
    ensures CallAt(15) == CopySignal && LabelFor(15) == CLEANUP_SIGHAND
  {}

  lemma RestCalls()
    ensures CallAt(16) == CopyMm && LabelFor(16) == CLEANUP_SIGNAL
    ensures CallAt(17) == CopyNamespaces && LabelFor(17) == CLEANUP_MM
    ensures CallAt(18) == CopyIo && LabelFor(18) == CLEANUP_NAMESPACES
    ensures CallAt(19) == CopyThread && LabelFor(19) == CLEANUP_IO
  {}

  lemma IdentityCalls()
    ensures CallAt(20) == AllocPid && LabelFor(20) == CLEANUP_THREAD
    ensures CallAt(21) == PidfdPrepare && LabelFor(21) == FREE_PID
    ensures CallAt(22) == PutUser && LabelFor(22) == PUT_PIDFD
    ensures CallAt(23) == CgroupFork && LabelFor(23) == PUT_PIDFD
    ensures CallAt(24) == LastChecks && LabelFor(24) == CANCEL_CGROUP
  {}

  // ----- What a child that is made has, over the flags alone -----

  /** The combinations of flags that make sense. */
  predicate Sensible(c: Clone) {
    var f := c.flags;
    && (f.shareFs ==> !f.newNs && !f.newUser)
    && (f.shareSighand ==> f.shareVm)
    && (f.thread ==> f.shareSighand && f.shareVm && !f.newUser && !f.newPid && !c.otherPidNs && !f.pidfd)
    && (c.unkillable ==> !f.parent)
    && (f.pidfd ==> !f.detached)
  }

  lemma RefusedExactly(c: Clone)
    ensures Refused(c) <==> !Sensible(c)
  {}

  /** Nothing that this clone has to do fails; what it shares or goes without need not be made. */
  predicate NothingFails(c: Clone) {
    && !c.fails(SignalPending) && !c.fails(DupTask) && !c.fails(CopyCreds) && !c.fails(NprocLimit) && !c.fails(MaxThreads)
    && (c.fails(SetKthread) ==> !c.kthread) && (c.fails(DupPolicy) ==> !c.cur.mempolicy)
    && !c.fails(SchedFork) && !c.fails(PerfInit) && !c.fails(AuditAlloc) && !c.fails(SecurityAlloc) && !c.fails(CopySemundo)
    && (c.fails(CopyFiles) ==> c.flags.shareFiles || c.noFiles || c.cur.files.None?) && !c.fails(CopyFs)
    && (c.fails(CopySighand) ==> c.flags.shareSighand) && (c.fails(CopySignal) ==> c.flags.thread)
    && (c.fails(CopyMm) ==> c.flags.shareVm || c.cur.mm.None?)
    && !c.fails(CopyNamespaces) && !c.fails(CopyIo) && !c.fails(CopyThread) && (c.fails(AllocPid) ==> c.bootPid)
    && (c.fails(PidfdPrepare) || c.fails(PutUser) ==> !c.flags.pidfd) && !c.fails(CgroupFork) && !c.fails(LastChecks)
  }

  function Number(call: Call): (n: nat)
    ensures n < CALLS && CallAt(n) == call
  {
    match call
    case SignalPending => 0 case DupTask => 1 case CopyCreds => 2 case NprocLimit => 3 case MaxThreads => 4
    case SetKthread => 5 case DupPolicy => 6 case SchedFork => 7 case PerfInit => 8 case AuditAlloc => 9
    case SecurityAlloc => 10 case CopySemundo => 11 case CopyFiles => 12 case CopyFs => 13 case CopySighand => 14
    case CopySignal => 15 case CopyMm => 16 case CopyNamespaces => 17 case CopyIo => 18 case CopyThread => 19
    case AllocPid => 20 case PidfdPrepare => 21 case PutUser => 22 case CgroupFork => 23 case LastChecks => 24
  }

  /** No call fails if and only if nothing that has to be done does. */
  lemma ChildMadeExactly(c: Clone)
    ensures FirstFailure(c, 0) == CALLS <==> NothingFails(c)
  {
    hide CallAt, FirstFailure;
    var k := FirstFailure(c, 0);
    if k == CALLS {
      forall call: Call ensures !(Made(c, call) && c.fails(call)) {
        assert !(Made(c, CallAt(Number(call))) && c.fails(CallAt(Number(call))));
      }
    } else {
      assert Made(c, CallAt(k)) && c.fails(CallAt(k));
    }
  }

  /** A new object is none of those the caller has. */
  predicate FreshId(c: Clone) {
    && c.newId != c.cur.fs && c.newId != c.cur.sighand && c.newId != c.cur.signal && c.newId != c.cur.namespaces
    && c.cur.files != Some(c.newId) && c.cur.mm != Some(c.newId) && c.cur.io != Some(c.newId)
  }

  /** The child has the caller's object exactly where the flags say so, and otherwise one of its own or none. */
  predicate SharesAsAsked(c: Clone, p: Child) {
    && p.fs.Some? && (p.fs == Some(c.cur.fs) <==> c.flags.shareFs)
    && p.sighand.Some? && (p.sighand == Some(c.cur.sighand) <==> c.flags.shareSighand)
    && p.signal.Some? && (p.signal == Some(c.cur.signal) <==> c.flags.thread)
    && (p.files.Some? <==> c.cur.files.Some? && !c.noFiles) && (p.files.Some? ==> (p.files == c.cur.files <==> c.flags.shareFiles))
    && (p.mm.Some? <==> c.cur.mm.Some?) && (p.mm.Some? ==> (p.mm == c.cur.mm <==> c.flags.shareVm))
    && (p.namespaces != c.cur.namespaces <==> c.flags.newNs || c.flags.newPid || c.flags.otherNs)
    && (p.io.Some? <==> c.cur.io.Some? && (c.flags.shareIo || c.ioprio)) && (p.io.Some? ==> (p.io == c.cur.io <==> c.flags.shareIo))
    && (p.semundo <==> c.flags.shareSysvsem) && (p.mempolicy <==> c.cur.mempolicy) && (p.kthread <==> c.kthread)
  }

  lemma PointersShare(c: Clone, p: Child)
    requires PointersAt(c, p, 20) && FreshId(c)
    ensures SharesAsAsked(c, p)
  {}

  function Bit(b: bool): nat { if b then 1 else 0 }

  /** How many references more are held for a child: one to what it shares, one to what is its own. */
  predicate CountsAsAsked(c: Clone, was: multiset<Resource>, now: multiset<Resource>) {
    TablesCount(c, was, now) && SignalsCount(c, was, now) && OthersCount(c, was, now)
  }

  predicate TablesCount(c: Clone, was: multiset<Resource>, now: multiset<Resource>) {
    var f := c.flags;
    && now[Fs(c.cur.fs)] == was[Fs(c.cur.fs)] + Bit(f.shareFs) && now[Fs(c.newId)] == was[Fs(c.newId)] + Bit(!f.shareFs)
    && (c.cur.files.Some? ==> now[Files(c.cur.files.value)] == was[Files(c.cur.files.value)] + Bit(f.shareFiles && !c.noFiles))
    && now[Files(c.newId)] == was[Files(c.newId)] + Bit(c.cur.files.Some? && !f.shareFiles && !c.noFiles)
    && (c.cur.mm.Some? ==> now[Mm(c.cur.mm.value)] == was[Mm(c.cur.mm.value)] + Bit(f.shareVm))
    && now[Mm(c.newId)] == was[Mm(c.newId)] + Bit(c.cur.mm.Some? && !f.shareVm)
  }

  predicate SignalsCount(c: Clone, was: multiset<Resource>, now: multiset<Resource>) {
    var f := c.flags;
    && now[Sighand(c.cur.sighand)] == was[Sighand(c.cur.sighand)] + Bit(f.shareSighand)
    && now[Sighand(c.newId)] == was[Sighand(c.newId)] + Bit(!f.shareSighand)
    && now[Signal(c.cur.signal)] == was[Signal(c.cur.signal)] + Bit(f.thread)
    && now[Signal(c.newId)] == was[Signal(c.newId)] + Bit(!f.thread)
    && now[DelayedNode] == was[DelayedNode]
  }

  predicate OthersCount(c: Clone, was: multiset<Resource>, now: multiset<Resource>) {
    && now[TaskStruct] == was[TaskStruct] + 1 && now[Stack] == was[Stack] + 1 && now[Cred] == was[Cred] + 1 && now[Nproc] == was[Nproc] + 1
    && now[Kthread] == was[Kthread] + Bit(c.kthread) && now[Mempolicy] == was[Mempolicy] + Bit(c.cur.mempolicy)
    && now[Semundo] == was[Semundo] + Bit(c.flags.shareSysvsem) && now[Pid] == was[Pid] + Bit(!c.bootPid)
    && now[PidFd] == was[PidFd] + Bit(c.flags.pidfd)
  }

  /** The call that acquires a resource. */
  function GainedBy(r: Resource): Call
    requires r != DelayedNode
  {
    match r
    case TaskStruct => DupTask case Stack => DupTask case Cred => CopyCreds case Nproc => CopyCreds case Delayacct => MaxThreads
    case Kthread => SetKthread case Mempolicy => DupPolicy case Perf => PerfInit case Audit => AuditAlloc
    case Security => SecurityAlloc case Semundo => CopySemundo case Files(_) => CopyFiles case Fs(_) => CopyFs
    case Sighand(_) => CopySighand case Signal(_) => CopySignal case Mm(_) => CopyMm case Namespaces(_) => CopyNamespaces
    case IoContext(_) => CopyIo case Thread => CopyThread case Pid => AllocPid case PidFd => PidfdPrepare case Cgroup => CgroupFork
  }

  lemma GainedOnlyBy(c: Clone, call: Call, r: Resource)
    requires r != DelayedNode && call != GainedBy(r)
    ensures multiset(Gain(c, call))[r] == 0
  {
    GainIs(c, call, r);
    hide Gain, GainedBy;
  }

  lemma GainIs(c: Clone, call: Call, r: Resource)
    requires r != DelayedNode
    ensures r in Gain(c, call) ==> call == GainedBy(r)
  {
    match call
    case CopyFiles => case CopyMm => case CopyIo => case DupTask => case CopyCreds => case _ =>
  }

  lemma NumbersDiffer(n: nat, call: Call)
    requires n < CALLS && CallAt(n) == call
    ensures n == Number(call)
  {}

  /** Each resource is acquired by one call, so the total is what that call acquires. */
  lemma {:induction false} GainedCount(c: Clone, r: Resource, n: nat)
    requires n <= CALLS && r != DelayedNode
    ensures multiset(Gained(c, n))[r] == if n > Number(GainedBy(r)) then multiset(Gain(c, GainedBy(r)))[r] else 0
  {
    hide Gain, CallAt, GainedBy, Number;
    if n > 0 {
      GainedCount(c, r, n - 1);
      var call := CallAt(n - 1);
      if call == GainedBy(r) {
        NumbersDiffer(n - 1, call);
      } else {
        assert n - 1 != Number(GainedBy(r));
        GainedOnlyBy(c, call, r);
      }
    } else {
      NodeOnly(c, r);
    }
  }

  lemma NodeOnly(c: Clone, r: Resource)
    requires r != DelayedNode
    ensures multiset(Gained(c, 0))[r] == 0
  {
    assert r !in Gained(c, 0);
  }

  /** How many references to `r` are held for a child, over the flags. */
  function Share(c: Clone, r: Resource): nat
    requires r != DelayedNode
  {
    multiset(Gain(c, GainedBy(r)))[r]
  }

  lemma ShareOfOne(r: Resource, x: Resource)
    ensures multiset(When(true, r))[x] == Bit(r == x) && multiset(When(false, r))[x] == 0
  {}

  lemma OccursOnce(rs: seq<Resource>, r: Resource, x: Resource)
    requires rs == [r]
    ensures multiset(rs)[x] == Bit(r == x)
  {}

  lemma OccursNever(rs: seq<Resource>, x: Resource)
    requires rs == []
    ensures multiset(rs)[x] == 0
  {}

  lemma OccursBoth(rs: seq<Resource>, a: Resource, b: Resource)
    requires rs == [a, b] && a != b
    ensures multiset(rs)[a] == 1 == multiset(rs)[b]
  {
    assert rs == [a] + [b];
  }

  lemma FsShare(c: Clone, id: nat)
    ensures Share(c, Fs(id)) == Bit(id == ChildFs(c))
  {
    hide Gain, GainedBy, ChildFs;
    FsGain(c, id);
    OccursOnce(Gain(c, GainedBy(Fs(id))), Fs(ChildFs(c)), Fs(id));
  }

  lemma FsGain(c: Clone, id: nat)
    ensures Gain(c, GainedBy(Fs(id))) == [Fs(ChildFs(c))]
  {}

  lemma FilesShare(c: Clone, id: nat)
    ensures Share(c, Files(id)) == Bit(ChildFiles(c) == Some(id))
  {
    hide Gain, GainedBy, ChildFiles, OfFiles;
    FilesGain(c, id);
    if ChildFiles(c).Some? {
      OccursOnce(Gain(c, GainedBy(Files(id))), Files(ChildFiles(c).value), Files(id));
    } else {
      OccursNever(Gain(c, GainedBy(Files(id))), Files(id));
    }
  }

  lemma FilesGain(c: Clone, id: nat)
    ensures Gain(c, GainedBy(Files(id))) == if ChildFiles(c).Some? then [Files(ChildFiles(c).value)] else []
  {}

  lemma MmShare(c: Clone, id: nat)
    ensures Share(c, Mm(id)) == Bit(ChildMm(c) == Some(id))
  {
    hide Gain, GainedBy, ChildMm, OfMm;
    MmGain(c, id);
    if ChildMm(c).Some? {
      OccursOnce(Gain(c, GainedBy(Mm(id))), Mm(ChildMm(c).value), Mm(id));
    } else {
      OccursNever(Gain(c, GainedBy(Mm(id))), Mm(id));
    }
  }

  lemma MmGain(c: Clone, id: nat)
    ensures Gain(c, GainedBy(Mm(id))) == if ChildMm(c).Some? then [Mm(ChildMm(c).value)] else []
  {}

  lemma SighandShare(c: Clone, id: nat)
    ensures Share(c, Sighand(id)) == Bit(id == ChildSighand(c))
  {
    hide Gain, GainedBy, ChildSighand;
    SighandGain(c, id);
    OccursOnce(Gain(c, GainedBy(Sighand(id))), Sighand(ChildSighand(c)), Sighand(id));
  }

  lemma SighandGain(c: Clone, id: nat)
    ensures Gain(c, GainedBy(Sighand(id))) == [Sighand(ChildSighand(c))]
  {}

  lemma SignalShare(c: Clone, id: nat)
    ensures Share(c, Signal(id)) == Bit(!c.flags.thread && id == c.newId)
  {
    hide Gain, GainedBy;
    SignalGain(c, id);
    if c.flags.thread {
      OccursNever(Gain(c, GainedBy(Signal(id))), Signal(id));
    } else {
      OccursOnce(Gain(c, GainedBy(Signal(id))), Signal(c.newId), Signal(id));
    }
  }

  lemma SignalGain(c: Clone, id: nat)
    ensures Gain(c, GainedBy(Signal(id))) == if c.flags.thread then [] else [Signal(c.newId)]
  {}

  /** A resource that is acquired or not as a whole. */
  lemma WhenShare(c: Clone, r: Resource, b: bool)
    requires r != DelayedNode && Gain(c, GainedBy(r)) == When(b, r)
    ensures Share(c, r) == Bit(b)
  {
    hide Gain, GainedBy;
    ShareOfOne(r, r);
  }

  lemma TaskShares(c: Clone)
    ensures Share(c, TaskStruct) == Share(c, Stack) == Share(c, Cred) == Share(c, Nproc) == 1
  {
    TaskGains(c);
    hide Gain, GainedBy;
    OccursBoth(Gain(c, DupTask), TaskStruct, Stack);
    OccursBoth(Gain(c, CopyCreds), Cred, Nproc);
  }

  lemma TaskGains(c: Clone)
    ensures Gain(c, DupTask) == [TaskStruct, Stack] && Gain(c, CopyCreds) == [Cred, Nproc]
    ensures GainedBy(TaskStruct) == GainedBy(Stack) == DupTask && GainedBy(Cred) == GainedBy(Nproc) == CopyCreds
  {}

  lemma WhenGains(c: Clone)
    ensures Gain(c, GainedBy(Kthread)) == When(c.kthread, Kthread) && Gain(c, GainedBy(Mempolicy)) == When(c.cur.mempolicy, Mempolicy)
    ensures Gain(c, GainedBy(Semundo)) == When(c.flags.shareSysvsem, Semundo) && Gain(c, GainedBy(Pid)) == When(!c.bootPid, Pid)
    ensures Gain(c, GainedBy(PidFd)) == When(c.flags.pidfd, PidFd)
  {
    hide When;
  }

  /** What is held once a child is made and published. */
  function Published(c: Clone, was: multiset<Resource>): multiset<Resource> {
    was + multiset(Gained(c, CALLS)) + multiset(When(c.flags.thread, Signal(c.cur.signal))) - multiset(When(!c.flags.thread, DelayedNode))
  }

  lemma PublishedCount(c: Clone, was: multiset<Resource>, r: Resource)
    requires r != DelayedNode
    ensures Published(c, was)[r] == was[r] + Share(c, r) + Bit(c.flags.thread && r == Signal(c.cur.signal))
  {
    GainedCount(c, r, CALLS);
    ShareOfOne(Signal(c.cur.signal), r);
    ShareOfOne(DelayedNode, r);
    hide Gained, Gain, CallAt, GainedBy, Number;
    NumberBelow(r);
  }

  lemma NumberBelow(r: Resource)
    requires r != DelayedNode
    ensures CALLS > Number(GainedBy(r))
  {}

  lemma PublishedAsAsked(c: Clone, was: multiset<Resource>)
    requires FreshId(c)
    ensures CountsAsAsked(c, was, Published(c, was))
  {
    hide Published, TablesCount, SignalsCount, OthersCount;
    PublishedTables(c, was);
    PublishedSignals(c, was);
    PublishedOthers(c, was);
  }

  lemma PublishedTables(c: Clone, was: multiset<Resource>)
    requires FreshId(c)
    ensures TablesCount(c, was, Published(c, was))
  {
    hide Share, Published;
    FsShare(c, c.cur.fs);
    FsShare(c, c.newId);
    FilesShare(c, c.newId);
    MmShare(c, c.newId);
    PublishedCount(c, was, Fs(c.cur.fs));
    PublishedCount(c, was, Fs(c.newId));
    PublishedCount(c, was, Files(c.newId));
    PublishedCount(c, was, Mm(c.newId));
    if c.cur.files.Some? {
      FilesShare(c, c.cur.files.value);
      PublishedCount(c, was, Files(c.cur.files.value));
    }
    if c.cur.mm.Some? {
      MmShare(c, c.cur.mm.value);
      PublishedCount(c, was, Mm(c.cur.mm.value));
    }
  }

  lemma PublishedSignals(c: Clone, was: multiset<Resource>)
    requires FreshId(c)
    ensures SignalsCount(c, was, Published(c, was))
  {
    hide Share, Published;
    NodeGone(c, was);
    SighandShare(c, c.cur.sighand);
    SighandShare(c, c.newId);
    SignalShare(c, c.cur.signal);
    SignalShare(c, c.newId);
    PublishedCount(c, was, Sighand(c.cur.sighand));
    PublishedCount(c, was, Sighand(c.newId));
    PublishedCount(c, was, Signal(c.cur.signal));
    PublishedCount(c, was, Signal(c.newId));
  }

  lemma PublishedOthers(c: Clone, was: multiset<Resource>)
    ensures OthersCount(c, was, Published(c, was))
  {
    hide Share, Published, When, Gain, GainedBy;
    WhenGains(c);
    TaskShares(c);
    WhenShare(c, Kthread, c.kthread);
    WhenShare(c, Mempolicy, c.cur.mempolicy);
    WhenShare(c, Semundo, c.flags.shareSysvsem);
    WhenShare(c, Pid, !c.bootPid);
    WhenShare(c, PidFd, c.flags.pidfd);
    PublishedCount(c, was, TaskStruct);
    PublishedCount(c, was, Stack);
    PublishedCount(c, was, Cred);
    PublishedCount(c, was, Nproc);
    PublishedCount(c, was, Kthread);
    PublishedCount(c, was, Mempolicy);
    PublishedCount(c, was, Semundo);
    PublishedCount(c, was, Pid);
    PublishedCount(c, was, PidFd);
  }

  lemma NodeGone(c: Clone, was: multiset<Resource>)
    ensures Published(c, was)[DelayedNode] == was[DelayedNode]
  {
    OneNode(c, CALLS);
    hide Gained;
    ShareOfOne(DelayedNode, DelayedNode);
    ShareOfOne(Signal(c.cur.signal), DelayedNode);
  }

  function Gets(rs: seq<Resource>): seq<Event> { seq(|rs|, i requires 0 <= i < |rs| => Get(rs[i])) }

  function Puts(rs: seq<Resource>): seq<Event> { seq(|rs|, i requires 0 <= i < |rs| => Put(rs[i])) }

  lemma GetsConcat(a: seq<Resource>, b: seq<Resource>)
    ensures Gets(a + b) == Gets(a) + Gets(b)
  {}

  lemma PutsConcat(a: seq<Resource>, b: seq<Resource>)
    ensures Puts(a + b) == Puts(a) + Puts(b)
  {}

  lemma SingleEvents(r: Resource)
    ensures Gets([r]) == [Get(r)] && Puts([r]) == [Put(r)] && Gets([]) == [] && Puts([]) == []
  {}

  lemma NotFirst(c: Clone, n: nat)
    requires n < CALLS && !(Made(c, CallAt(n)) && c.fails(CallAt(n)))
    ensures FirstFailure(c, n) == FirstFailure(c, n + 1)
  {
    hide Made, CallAt;
  }

  // ----- The code -----

  class Kernel {
    var held: multiset<Resource>
    var log: seq<Event>

    /** `k` and the labels below it are still to be undone to get to `held0` and `log0`. */
    ghost predicate ToGo(c: Clone, p: Child, k: nat, held0: multiset<Resource>, log0: seq<Event>)
      reads this
    {
      held == held0 + multiset(UndoFrom(c, p, k)) && log + Puts(UndoFrom(c, p, k)) == log0
    }

    /** Dropping something that is not held would be a reference-count underflow. */
    method Drop(rs: seq<Resource>)
      requires multiset(rs) <= held
      modifies this
      ensures held == old(held) - multiset(rs) && log == old(log) + Puts(rs)
    {
      held, log := held - multiset(rs), log + Puts(rs);
    }

    /** The statements behind one label. */
    method At(k: nat, rs: seq<Resource>, ghost c: Clone, ghost p: Child, ghost held0: multiset<Resource>, ghost log0: seq<Event>)
      requires 0 < k && ToGo(c, p, k, held0, log0) && rs == Undo(c, p, k)
      modifies this
      ensures ToGo(c, p, k - 1, held0, log0)
    {
      hide Undo, Puts;
      ghost var below := UndoFrom(c, p, k - 1);
      assert UndoFrom(c, p, k) == rs + below;
      PutsConcat(rs, below);
      hide UndoFrom;
      Drop(rs);
      assert log + Puts(below) == old(log) + (Puts(rs) + Puts(below));
    }

    /** The labels from the cgroup down to the thread. */
    method UnwindPid(c: Clone, p: Child, entry: nat, ghost held0: multiset<Resource>, ghost log0: seq<Event>)
      requires entry <= CANCEL_CGROUP && ToGo(c, p, entry, held0, log0)
      modifies this
      ensures ToGo(c, p, if entry < CLEANUP_NAMESPACES then entry else CLEANUP_NAMESPACES, held0, log0)
    {
      UndoTable(c, p);
      hide UndoFrom, Undo, ToGo;
      if entry >= CANCEL_CGROUP { At(CANCEL_CGROUP, [Cgroup], c, p, held0, log0); }
      if entry >= PUT_PIDFD { At(PUT_PIDFD, When(c.flags.pidfd, PidFd), c, p, held0, log0); }
      if entry >= FREE_PID { At(FREE_PID, When(!c.bootPid, Pid), c, p, held0, log0); }
      if entry >= CLEANUP_THREAD { At(CLEANUP_THREAD, [Thread], c, p, held0, log0); }
      if entry >= CLEANUP_IO { At(CLEANUP_IO, OfIo(p.io), c, p, held0, log0); }
    }

    /** The labels from the namespaces down to the files. */
    method UnwindShared(c: Clone, p: Child, entry: nat, ghost held0: multiset<Resource>, ghost log0: seq<Event>)
      requires entry <= CLEANUP_NAMESPACES && ToGo(c, p, entry, held0, log0)
      modifies this
      ensures ToGo(c, p, if entry < CLEANUP_SEMUNDO then entry else CLEANUP_SEMUNDO, held0, log0)
    {
      UndoTable(c, p);
      hide UndoFrom, Undo, ToGo;
      if entry >= CLEANUP_NAMESPACES { At(CLEANUP_NAMESPACES, [Namespaces(p.namespaces)], c, p, held0, log0); }
      if entry >= CLEANUP_MM { At(CLEANUP_MM, OfMm(p.mm), c, p, held0, log0); }
      if entry >= CLEANUP_SIGNAL {
        At(CLEANUP_SIGNAL, if !c.flags.thread && p.signal.Some? then [Signal(p.signal.value)] else [], c, p, held0, log0);
      }
      if entry >= CLEANUP_SIGHAND {
        At(CLEANUP_SIGHAND, if p.sighand.Some? then [Sighand(p.sighand.value)] else [], c, p, held0, log0);
      }
      if entry >= CLEANUP_FS { At(CLEANUP_FS, if p.fs.Some? then [Fs(p.fs.value)] else [], c, p, held0, log0); }
      if entry >= CLEANUP_FILES { At(CLEANUP_FILES, OfFiles(p.files), c, p, held0, log0); }
    }

    /** The labels from the undo list down to the memory policy. */
    method UnwindOpaque(c: Clone, p: Child, entry: nat, ghost held0: multiset<Resource>, ghost log0: seq<Event>)
      requires entry <= CLEANUP_SEMUNDO && ToGo(c, p, entry, held0, log0)
      modifies this
      ensures ToGo(c, p, if entry < CLEANUP_DELAYACCT then entry else CLEANUP_DELAYACCT, held0, log0)
    {
      UndoTable(c, p);
      hide UndoFrom, Undo, ToGo;
      if entry >= CLEANUP_SEMUNDO { At(CLEANUP_SEMUNDO, When(p.semundo, Semundo), c, p, held0, log0); }
      if entry >= CLEANUP_SECURITY { At(CLEANUP_SECURITY, [Security], c, p, held0, log0); }
      if entry >= CLEANUP_AUDIT { At(CLEANUP_AUDIT, [Audit], c, p, held0, log0); }
      if entry >= CLEANUP_PERF { At(CLEANUP_PERF, [Perf], c, p, held0, log0); }
      if entry >= CLEANUP_POLICY { At(CLEANUP_POLICY, When(p.mempolicy, Mempolicy), c, p, held0, log0); }
    }

    /** The labels from delay accounting down to the delayed-signal node. */
    method UnwindTask(c: Clone, p: Child, entry: nat, ghost held0: multiset<Resource>, ghost log0: seq<Event>)
      requires entry <= CLEANUP_DELAYACCT && ToGo(c, p, entry, held0, log0)
      modifies this
      ensures ToGo(c, p, 0, held0, log0)
    {
      UndoTable(c, p);
      hide UndoFrom, Undo, ToGo;
      if entry >= CLEANUP_DELAYACCT { At(CLEANUP_DELAYACCT, [Delayacct], c, p, held0, log0); }
      if entry >= CLEANUP_COUNT { At(CLEANUP_COUNT, [Nproc, Cred], c, p, held0, log0); }
      if entry >= FREE { At(FREE, if p.kthread then [Stack, Kthread, TaskStruct] else [Stack, TaskStruct], c, p, held0, log0); }
      if entry >= FORK_OUT { At(FORK_OUT, When(!c.flags.thread, DelayedNode), c, p, held0, log0); }
    }

    /** The chain of labels, entered at `entry` and falling through to the last. */
    method Unwind(c: Clone, p: Child, entry: nat, ghost held0: multiset<Resource>, ghost log0: seq<Event>)
      requires entry <= CANCEL_CGROUP && ToGo(c, p, entry, held0, log0)
      modifies this
      ensures held == held0 && log == log0
    {
      UnwindPid(c, p, entry, held0, log0);
      UnwindShared(c, p, if entry < CLEANUP_NAMESPACES then entry else CLEANUP_NAMESPACES, held0, log0);
      UnwindOpaque(c, p, if entry < CLEANUP_SEMUNDO then entry else CLEANUP_SEMUNDO, held0, log0);
      UnwindTask(c, p, if entry < CLEANUP_DELAYACCT then entry else CLEANUP_DELAYACCT, held0, log0);
      NothingToGo(c, p);
    }

    // Acquiring

    /** The first `n` calls have succeeded and everything they acquire is held. */
    ghost predicate Got(c: Clone, n: nat, held0: multiset<Resource>, log0: seq<Event>)
      reads this
      requires n <= CALLS
    {
      && FirstFailure(c, 0) == FirstFailure(c, n)
      && held == held0 + multiset(Gained(c, n))
      && log == log0 + Gets(Gained(c, n))
    }

    /** Call number `n` succeeds and acquires `rs`. */
    method Take(n: nat, rs: seq<Resource>, ghost c: Clone, ghost held0: multiset<Resource>, ghost log0: seq<Event>)
      requires n < CALLS && rs == Gain(c, CallAt(n)) && Got(c, n, held0, log0)
      requires !(Made(c, CallAt(n)) && c.fails(CallAt(n)))
      modifies this
      ensures Got(c, n + 1, held0, log0)
    {
      hide Gain, CallAt, Made, FirstFailure, Gets;
      ghost var before := Gained(c, n);
      assert Gained(c, n + 1) == before + rs;
      hide Gained;
      NotFirst(c, n);
      GetsConcat(before, rs);
      held, log := held + multiset(rs), log + Gets(rs);
      assert log0 + Gets(before) + Gets(rs) == log0 + (Gets(before) + Gets(rs));
    }

    /** The child was not made: call `FirstFailure(c, 0)` failed and `undone` undid everything before it. */
    ghost predicate Undid(c: Clone, undone: seq<Resource>, held0: multiset<Resource>, log0: seq<Event>)
      reads this
    {
      var n := FirstFailure(c, 0);
      && n < CALLS
      && held == held0
      && log == log0 + Gets(Gained(c, n)) + Puts(undone)
      && Plain(undone) == Reverse(Plain(Gained(c, n)))
      && multiset(undone) == multiset(Gained(c, n))
      && (undone == Reverse(Gained(c, n)) <==> !(c.kthread && n > 5))
    }

    /** Call number `n` fails and the code jumps to label `entry`. */
    method Abort(n: nat, entry: nat, c: Clone, p: Child, ghost held0: multiset<Resource>, ghost log0: seq<Event>)
      returns (ghost undone: seq<Resource>)
      requires n < CALLS && entry == LabelFor(n) && PointersAt(c, p, n) && Got(c, n, held0, log0)
      requires Made(c, CallAt(n)) && c.fails(CallAt(n))
      modifies this
      ensures Undid(c, undone, held0, log0)
    {
      undone := UndoFrom(c, p, entry);
      UndoneIsGained(c, p, n);
      ReversedUnlessKthread(c, p, n);
      PointersAtSet(c, p, n);
      UndoneIsReversed(c, p, n);
      LabelFree(n);
      hide UndoFrom, Gained, PointersAt, LabelFor, CallAt, Made, Plain, Reverse;
      assert FirstFailure(c, 0) == n;
      ghost var gained := Gets(Gained(c, n));
      assert log == log0 + gained;
      Unwind(c, p, entry, held0, log0 + gained + Puts(undone));
    }

    /** The delayed-signal node, the task struct, credentials, accounting and memory policy. */
    method StartChild(c: Clone, ghost held0: multiset<Resource>, ghost log0: seq<Event>)
      returns (ok: bool, p: Child, ghost undone: seq<Resource>)
      requires Got(c, 0, held0, log0)
      modifies this
      ensures ok ==> PointersAt(c, p, 7) && Got(c, 7, held0, log0)
      ensures !ok ==> Undid(c, undone, held0, log0)
    {
      hide Got, Undid, Gained, FirstFailure;
      ok, undone := false, [];
      // every pointer of the child starts as a copy of the caller's
      p := Child(false, c.cur.mempolicy, c.cur.semundo, c.cur.files, Some(c.cur.fs), Some(c.cur.sighand),
                 Some(c.cur.signal), c.cur.mm, c.cur.namespaces, c.cur.io);
      if c.fails(SignalPending) { undone := Abort(0, FORK_OUT, c, p, held0, log0); return; }
      Take(0, [], c, held0, log0);
      if c.fails(DupTask) { undone := Abort(1, FORK_OUT, c, p, held0, log0); return; }
      Take(1, [TaskStruct, Stack], c, held0, log0);
      if c.fails(CopyCreds) { undone := Abort(2, FREE, c, p, held0, log0); return; }
      Take(2, [Cred, Nproc], c, held0, log0);
      if c.fails(NprocLimit) { undone := Abort(3, CLEANUP_COUNT, c, p, held0, log0); return; }
      Take(3, [], c, held0, log0);
      if c.fails(MaxThreads) { undone := Abort(4, CLEANUP_COUNT, c, p, held0, log0); return; }
      p := p.(io := None);
      Take(4, [Delayacct], c, held0, log0);
      if c.kthread && c.fails(SetKthread) { undone := Abort(5, CLEANUP_DELAYACCT, c, p, held0, log0); return; }
      p := p.(kthread := c.kthread);
      Take(5, When(c.kthread, Kthread), c, held0, log0);
      if c.cur.mempolicy && c.fails(DupPolicy) {
        p := p.(mempolicy := false);
        undone := Abort(6, CLEANUP_DELAYACCT, c, p, held0, log0);
        return;
      }
      Take(6, When(p.mempolicy, Mempolicy), c, held0, log0);
      ok := true;
    }

    /** Scheduler, performance events, audit, security and semaphore undo list. */
    method AttachOpaque(c: Clone, p0: Child, ghost held0: multiset<Resource>, ghost log0: seq<Event>)
      returns (ok: bool, p: Child, ghost undone: seq<Resource>)
      requires PointersAt(c, p0, 7) && Got(c, 7, held0, log0)
      modifies this
      ensures ok ==> PointersAt(c, p, 12) && Got(c, 12, held0, log0)
      ensures !ok ==> Undid(c, undone, held0, log0)
    {
      hide Got, Undid, Gained, FirstFailure;
      ok, p, undone := false, p0, [];
      if c.fails(SchedFork) { undone := Abort(7, CLEANUP_POLICY, c, p, held0, log0); return; }
      Take(7, [], c, held0, log0);
      if c.fails(PerfInit) { undone := Abort(8, CLEANUP_POLICY, c, p, held0, log0); return; }
      Take(8, [Perf], c, held0, log0);
      if c.fails(AuditAlloc) { undone := Abort(9, CLEANUP_PERF, c, p, held0, log0); return; }
      Take(9, [Audit], c, held0, log0);
      if c.fails(SecurityAlloc) { undone := Abort(10, CLEANUP_AUDIT, c, p, held0, log0); return; }
      Take(10, [Security], c, held0, log0);
      if c.fails(CopySemundo) { undone := Abort(11, CLEANUP_SECURITY, c, p, held0, log0); return; }
      p := p.(semundo := c.flags.shareSysvsem);
      Take(11, When(p.semundo, Semundo), c, held0, log0);
      ok := true;
    }

    /** `copy_files` and `copy_fs`. */
    method CopyTables(c: Clone, p0: Child, ghost held0: multiset<Resource>, ghost log0: seq<Event>)
      returns (ok: bool, p: Child, ghost undone: seq<Resource>)
      requires PointersAt(c, p0, 12) && Got(c, 12, held0, log0)
      modifies this
      ensures ok ==> PointersAt(c, p, 14) && Got(c, 14, held0, log0)
      ensures !ok ==> Undid(c, undone, held0, log0)
    {
      TablesCalls();
      hide Got, Undid, Gained, FirstFailure, CallAt, LabelFor;
      ok, p, undone := false, p0, [];
      if c.cur.files.None? || c.noFiles {
        p := p.(files := None);
      } else if c.flags.shareFiles {
        p := p.(files := c.cur.files);
      } else {
        if c.fails(CopyFiles) { undone := Abort(12, CLEANUP_SEMUNDO, c, p, held0, log0); return; }
        p := p.(files := Some(c.newId));
      }
      Take(12, OfFiles(p.files), c, held0, log0);
      if c.fails(CopyFs) { undone := Abort(13, CLEANUP_FILES, c, p, held0, log0); return; }
      p := p.(fs := Some(if c.flags.shareFs then c.cur.fs else c.newId));
      Take(13, [Fs(p.fs.value)], c, held0, log0);
      ok := true;
    }

    /** `copy_sighand` and `copy_signal`. */
    method CopySignals(c: Clone, p0: Child, ghost held0: multiset<Resource>, ghost log0: seq<Event>)
      returns (ok: bool, p: Child, ghost undone: seq<Resource>)
      requires PointersAt(c, p0, 14) && Got(c, 14, held0, log0)
      modifies this
      ensures ok ==> PointersAt(c, p, 16) && Got(c, 16, held0, log0)
      ensures !ok ==> Undid(c, undone, held0, log0)
    {
      TablesCalls();
      hide Got, Undid, Gained, FirstFailure, CallAt, LabelFor;
      ok, p, undone := false, p0, [];
      if !c.flags.shareSighand {
        if c.fails(CopySighand) {
          p := p.(sighand := None);
          undone := Abort(14, CLEANUP_FS, c, p, held0, log0);
          return;
        }
        p := p.(sighand := Some(c.newId));
      } else {
        p := p.(sighand := Some(c.cur.sighand));
      }
      Take(14, [Sighand(p.sighand.value)], c, held0, log0);
      if !c.flags.thread {
        if c.fails(CopySignal) {
          p := p.(signal := None);
          undone := Abort(15, CLEANUP_SIGHAND, c, p, held0, log0);
          return;
        }
        p := p.(signal := Some(c.newId));
      } else {
        p := p.(signal := Some(c.cur.signal));
      }
      Take(15, When(!c.flags.thread, Signal(c.newId)), c, held0, log0);
      ok := true;
    }

    /** `copy_mm` and `copy_namespaces`. */
    method CopySpaces(c: Clone, p0: Child, ghost held0: multiset<Resource>, ghost log0: seq<Event>)
      returns (ok: bool, p: Child, ghost undone: seq<Resource>)
      requires PointersAt(c, p0, 16) && Got(c, 16, held0, log0)
      modifies this
      ensures ok ==> PointersAt(c, p, 18) && Got(c, 18, held0, log0)
      ensures !ok ==> Undid(c, undone, held0, log0)
    {
      RestCalls();
      hide Got, Undid, Gained, FirstFailure, CallAt, LabelFor;
      ok, p, undone := false, p0, [];
      p := p.(mm := None);
      if c.cur.mm.Some? {
        if c.flags.shareVm {
          p := p.(mm := c.cur.mm);
        } else {
          if c.fails(CopyMm) { undone := Abort(16, CLEANUP_SIGNAL, c, p, held0, log0); return; }
          p := p.(mm := Some(c.newId));
        }
      }
      Take(16, OfMm(p.mm), c, held0, log0);
      if c.fails(CopyNamespaces) { undone := Abort(17, CLEANUP_MM, c, p, held0, log0); return; }
      p := p.(namespaces := ChildNamespaces(c));
      Take(17, [Namespaces(p.namespaces)], c, held0, log0);
      ok := true;
    }

    /** `copy_io` and `copy_thread`. */
    method CopyRest(c: Clone, p0: Child, ghost held0: multiset<Resource>, ghost log0: seq<Event>)
      returns (ok: bool, p: Child, ghost undone: seq<Resource>)
      requires PointersAt(c, p0, 18) && Got(c, 18, held0, log0)
      modifies this
      ensures ok ==> PointersAt(c, p, 20) && Got(c, 20, held0, log0)
      ensures !ok ==> Undid(c, undone, held0, log0)
    {
      RestCalls();
      hide Got, Undid, Gained, FirstFailure, CallAt, LabelFor;
      ok, p, undone := false, p0, [];
      if c.fails(CopyIo) { undone := Abort(18, CLEANUP_NAMESPACES, c, p, held0, log0); return; }
      p := p.(io := ChildIo(c));
      Take(18, OfIo(p.io), c, held0, log0);
      if c.fails(CopyThread) { undone := Abort(19, CLEANUP_IO, c, p, held0, log0); return; }
      Take(19, [Thread], c, held0, log0);
      ok := true;
    }

    /** The pid, the pidfd and the cgroup. */
    method GiveIdentity(c: Clone, p: Child, ghost held0: multiset<Resource>, ghost log0: seq<Event>)
      returns (ok: bool, ghost undone: seq<Resource>)
      requires PointersAt(c, p, 20) && Got(c, 20, held0, log0)
      modifies this
      ensures ok ==> Got(c, CALLS, held0, log0)
      ensures !ok ==> Undid(c, undone, held0, log0)
    {
      IdentityCalls();
      hide Got, Undid, Gained, FirstFailure, CallAt, LabelFor;
      ok, undone := false, [];
      if !c.bootPid && c.fails(AllocPid) { undone := Abort(20, CLEANUP_THREAD, c, p, held0, log0); return; }
      Take(20, When(!c.bootPid, Pid), c, held0, log0);
      if c.flags.pidfd && c.fails(PidfdPrepare) { undone := Abort(21, FREE_PID, c, p, held0, log0); return; }
      Take(21, When(c.flags.pidfd, PidFd), c, held0, log0);
      if c.flags.pidfd && c.fails(PutUser) { undone := Abort(22, PUT_PIDFD, c, p, held0, log0); return; }
      Take(22, [], c, held0, log0);
      if c.fails(CgroupFork) { undone := Abort(23, PUT_PIDFD, c, p, held0, log0); return; }
      Take(23, [Cgroup], c, held0, log0);
      if c.fails(LastChecks) { undone := Abort(24, CANCEL_CGROUP, c, p, held0, log0); return; }
      Take(24, [], c, held0, log0);
      ok := true;
    }

    /** All the calls in turn, up to the first that fails. */
    method Build(c: Clone, ghost held0: multiset<Resource>, ghost log0: seq<Event>)
      returns (ok: bool, p: Child, ghost undone: seq<Resource>)
      requires Got(c, 0, held0, log0)
      modifies this
      ensures ok ==> PointersAt(c, p, 20) && Got(c, CALLS, held0, log0) && FirstFailure(c, 0) == CALLS
      ensures !ok ==> Undid(c, undone, held0, log0) && FirstFailure(c, 0) < CALLS && held == held0
    {
      hide PointersAt, Gained, Plain, Reverse;
      ok, p, undone := StartChild(c, held0, log0);
      if !ok { return; }
      ok, p, undone := AttachOpaque(c, p, held0, log0);
      if !ok { return; }
      ok, p, undone := CopyTables(c, p, held0, log0);
      if !ok { return; }
      ok, p, undone := CopySignals(c, p, held0, log0);
      if !ok { return; }
      ok, p, undone := CopySpaces(c, p, held0, log0);
      if !ok { return; }
      ok, p, undone := CopyRest(c, p, held0, log0);
      if !ok { return; }
      ok, undone := GiveIdentity(c, p, held0, log0);
    }

    /**
     `copy_process`. A child is made exactly when the flags are accepted and no call fails. Otherwise every
     reference is where it was: what had been acquired is undone item by item, in reverse. A child that is
     made keeps what was acquired, a thread takes a reference to the signal struct, and the delayed-signal
     node is unlinked in any case.
     */
    method CopyProcess(c: Clone) returns (child: Option<Child>, ghost undone: seq<Resource>)
      requires DelayedNode !in held
      modifies this
      ensures child.None? <==> Refused(c) || FirstFailure(c, 0) < CALLS
      ensures child.Some? <==> Sensible(c) && NothingFails(c)
      ensures child.Some? && FreshId(c) ==> SharesAsAsked(c, child.value) && CountsAsAsked(c, old(held), held)
      ensures Refused(c) ==> log == old(log)
      ensures child.None? ==> held == old(held)
      ensures child.None? && !Refused(c) ==> Undid(c, undone, old(held), old(log))
      ensures child.Some? ==> PointersAt(c, child.value, 20)
      ensures child.Some? ==> log == old(log) + Gets(Gained(c, CALLS)) + Gets(When(c.flags.thread, Signal(c.cur.signal)))
                                     + Puts(When(!c.flags.thread, DelayedNode))
      ensures child.Some? ==> DelayedNode !in held
      ensures child.Some? ==> held == old(held) + multiset(Gained(c, CALLS)) + multiset(When(c.flags.thread, Signal(c.cur.signal)))
                                      - multiset(When(!c.flags.thread, DelayedNode))
    {
      RefusedExactly(c);
      ChildMadeExactly(c);
      hide Refused, FirstFailure, PointersAt, Undid, Sensible, NothingFails, FreshId, SharesAsAsked, CountsAsAsked;
      if FreshId(c) {
        PublishedAsAsked(c, held);
      }
      child, undone := None, [];
      if Refused(c) {
        return;
      }
      ghost var held0, log0 := held, log;
      AddNode(c);
      var ok, p;
      ok, p, undone := Build(c, held0, log0);
      if ok {
        OneNode(c, CALLS);
        hide Gained;
        child := Some(p);
        if FreshId(c) {
          PointersShare(c, p);
        }
        Publish(c);
      }
    }

    /** Signals sent to the caller from now on are collected for the child, unless it is a thread. */
    method AddNode(c: Clone)
      modifies this
      ensures Got(c, 0, old(held), old(log))
    {
      if !c.flags.thread {
        held, log := held + multiset{DelayedNode}, log + [Get(DelayedNode)];
      }
    }

    /** The child becomes visible: no failure is possible any more. */
    method Publish(c: Clone)
      requires multiset(When(!c.flags.thread, DelayedNode)) <= held
      modifies this
      ensures held == old(held) + multiset(When(c.flags.thread, Signal(c.cur.signal))) - multiset(When(!c.flags.thread, DelayedNode))
      ensures log == old(log) + Gets(When(c.flags.thread, Signal(c.cur.signal))) + Puts(When(!c.flags.thread, DelayedNode))
    {
      SingleEvents(Signal(c.cur.signal));
      SingleEvents(DelayedNode);
      hide Gets, Puts;
      if c.flags.thread {
        held, log := held + multiset{Signal(c.cur.signal)}, log + [Get(Signal(c.cur.signal))];
        assert multiset([Signal(c.cur.signal)]) == multiset{Signal(c.cur.signal)};
      } else {
        held, log := held - multiset{DelayedNode}, log + [Put(DelayedNode)];
        assert multiset([DelayedNode]) == multiset{DelayedNode};
      }
    }
  }

  lemma {:induction false} OneNode(c: Clone, n: nat)
    requires n <= CALLS
    ensures multiset(Gained(c, n))[DelayedNode] == if c.flags.thread then 0 else 1
  {
    hide Gain, CallAt;
    if n > 0 {
      OneNode(c, n - 1);
      NoNode(c, CallAt(n - 1));
    }
  }

  lemma NoNode(c: Clone, call: Call)
    ensures DelayedNode !in multiset(Gain(c, call))
  {}

  lemma NothingToGo(c: Clone, p: Child)
    ensures UndoFrom(c, p, 0) == [] && Puts([]) == []
  {}
}
