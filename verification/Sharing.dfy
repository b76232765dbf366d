/**
 Who shares what: the reference counts of signal, sighand, mm, files and fs structs while any number of
 tasks run `copy_process`, `unshare` and exit at the same time.

 Every pointer that owns a reference is a `Slot`; `holds` says what each points to, and `count` is the
 counter inside each object, changed only as the code changes it. An object that is not in `count` is not
 allocated. A task under construction has slots before it is visible, and `unshare` has two of its own.
 */
module Sharing {
  import opened Options
  import opened References

  // ----- Tasks -----

  datatype Flags = Flags(thread: bool, sighand: bool, vm: bool, files: bool, fs: bool, noFiles: bool)

  /** What `copy_process` insists on. */
  predicate Accepted(f: Flags) {
    (f.thread ==> f.sighand) && (f.sighand ==> f.vm)
  }

  /**
   Where a task is. `stage` counts the copies made for the child so far, `phase` the parts of `unshare`
   done; `doomed` is the fs struct that the swap left without users and that is still to be freed.
   */
  datatype Pc =
    | Run
    | Cloning(child: nat, flags: Flags, stage: nat, failing: bool)
    | Unsharing(fs: bool, files: bool, phase: nat, failed: bool, doomed: Option<nat>)

  /** `group` maps each visible task to its thread group; task numbers are never reused. */
  datatype State = State(next: nat, group: map<nat, nat>, pc: map<nat, Pc>, refs: Refs)

  const STAGES := 5

  function FieldAt(k: nat): Field {
    if k == 0 then FilesF else if k == 1 then FsF else if k == 2 then SighandF else if k == 3 then SignalF else MmF
  }

  predicate SharedAt(f: Flags, k: nat) {
    if k == 0 then f.files else if k == 1 then f.fs else if k == 2 then f.sighand else if k == 3 then f.thread else f.vm
  }

  function ObjAt(k: nat, id: nat): Obj {
    if k == 0 then Files(id) else if k == 1 then Fs(id) else if k == 2 then Sighand(id) else if k == 3 then Signal(id) else Mm(id)
  }

  function Me(t: nat, f: Field): Slot { Slot(t, f) }

  datatype Step =
    | BeginClone(t: nat, flags: Flags)
    | Copy(t: nat, ok: bool, id: nat)
    | LateFailure(t: nat)
    | Publish(t: nat)
    | Undo(t: nat)
    | Drop(t: nat, field: Field)
    | Unlink(t: nat)
    | PutTask(t: nat)
    | BeginUnshare(t: nat, fs: bool, files: bool)
    | UnshareFs(t: nat, ok: bool, id: nat)
    | UnshareFiles(t: nat, ok: bool, id: nat)
    | UnshareRest(t: nat, ok: bool)
    | SwapFs(t: nat)
    | SwapFiles(t: nat)
    | PutFiles(t: nat)
    | FreeFs(t: nat)

  ghost predicate Cloner(s: State, t: nat) { t in s.pc && s.pc[t].Cloning? }

  ghost predicate Unsharer(s: State, t: nat, phase: nat) { t in s.pc && s.pc[t].Unsharing? && s.pc[t].phase == phase }

  /** `c` is being built by some task. */
  ghost predicate Embryo(s: State, c: nat) {
    exists t :: Cloner(s, t) && s.pc[t].child == c
  }

  ghost predicate Enabled(s: State, step: Step) {
    var h := s.refs.holds;
    match step
    case BeginClone(t, flags) => t in s.pc && s.pc[t].Run? && Accepted(flags) && Me(t, FsF) in h
    case Copy(t, ok, id) =>
      && Cloner(s, t) && !s.pc[t].failing && s.pc[t].stage < STAGES
      && ObjAt(s.pc[t].stage, id) !in s.refs.count
      && (s.pc[t].stage == 3 ==> Threads(id) !in s.refs.count)
    case LateFailure(t) => Cloner(s, t) && !s.pc[t].failing && s.pc[t].stage == STAGES
    case Publish(t) => Cloner(s, t) && !s.pc[t].failing && s.pc[t].stage == STAGES
    case Undo(t) => Cloner(s, t) && s.pc[t].failing
    case Drop(t, f) => t in s.pc && s.pc[t].Run? && (f == MmF || f == FilesF || f == FsF) && Me(t, f) in h
    case Unlink(t) => t in s.pc && s.pc[t].Run? && Me(t, MmF) !in h && Me(t, FilesF) !in h && Me(t, FsF) !in h
    case PutTask(t) => t !in s.pc && !Embryo(s, t) && Me(t, SignalF) in h
    case BeginUnshare(t, _, _) => t in s.pc && s.pc[t].Run?
    case UnshareFs(t, _, id) => Unsharer(s, t, 0) && Fs(id) !in s.refs.count
    case UnshareFiles(t, _, id) => Unsharer(s, t, 1) && Files(id) !in s.refs.count
    case UnshareRest(t, _) => Unsharer(s, t, 2)
    case SwapFs(t) => Unsharer(s, t, 3)
    case SwapFiles(t) => Unsharer(s, t, 4)
    case PutFiles(t) => Unsharer(s, t, 5)
    case FreeFs(t) => Unsharer(s, t, 6)
  }

  /** The copy made at stage `k` for child `c` of task `t`. */
  ghost function Copied(r: Refs, t: nat, c: nat, f: Flags, k: nat, id: nat): Refs
    requires Counted(r)
  {
    var mine := Me(t, FieldAt(k));
    if k == 3 then
      if f.thread then r else Make(Make(r, Me(c, SignalF), Signal(id)), Me(c, MemberF), Threads(id))
    else if mine !in r.holds || (k == 0 && f.noFiles) then r
    else if SharedAt(f, k) then Share(r, Me(c, FieldAt(k)), r.holds[mine])
    else Make(r, Me(c, FieldAt(k)), ObjAt(k, id))
  }

  /** The clean-up of the copy made at stage `k`. */
  ghost function Undone(r: Refs, c: nat, f: Flags, k: nat): Refs
    requires Counted(r)
    requires k == 3 && !f.thread ==> Me(c, SignalF) in r.holds && Me(c, MemberF) in r.holds
  {
    var sl := Me(c, FieldAt(k));
    if k == 3 then
      if f.thread then r else Free(Free(r, Me(c, SignalF)), Me(c, MemberF))
    else if sl !in r.holds then r
    else ReleaseCounts(r, sl); Release(r, sl)
  }

  /** The caller's fs becomes the copy; the old one loses a user. */
  ghost function FsSwapped(r: Refs, t: nat): Refs
    requires Counted(r) && Me(t, FsF) in r.holds && Me(t, NewFs) in r.holds
  {
    var old_, new_ := r.holds[Me(t, FsF)], r.holds[Me(t, NewFs)];
    HeldIsCounted(r, Me(t, FsF));
    Refs((r.holds - {Me(t, NewFs)})[Me(t, FsF) := new_], r.count[old_ := r.count[old_] - 1])
  }

  ghost function FilesSwapped(r: Refs, t: nat): Refs
    requires Me(t, FilesF) in r.holds && Me(t, NewFiles) in r.holds
  {
    r.(holds := r.holds[Me(t, FilesF) := r.holds[Me(t, NewFiles)]][Me(t, NewFiles) := r.holds[Me(t, FilesF)]])
  }

  // ----- The invariant -----

  predicate KindOk(f: Field, o: Obj) {
    match f
    case SignalF => o.Signal?
    case MemberF => o.Threads?
    case SighandF => o.Sighand?
    case MmF => o.Mm?
    case FilesF => o.Files?
    case FsF => o.Fs?
    case NewFs => o.Fs?
    case NewFiles => o.Files?
  }

  ghost predicate Basic(s: State) {
    && Counted(s.refs)
    && s.pc.Keys == s.group.Keys
    && (forall t :: t in s.group ==> t < s.next && s.group[t] < s.next)
    && (forall sl :: sl in s.refs.holds ==> sl.owner < s.next && KindOk(sl.field, s.refs.holds[sl]))
  }

  /** A visible task is a counted member of its signal struct's thread group and has signal handlers. */
  ghost predicate TaskOk(s: State, t: nat) {
    var h := s.refs.holds;
    && Me(t, SignalF) in h && Me(t, MemberF) in h && Me(t, SighandF) in h
    && h[Me(t, SignalF)].Signal?
    && h[Me(t, MemberF)] == Threads(h[Me(t, SignalF)].id)
  }

  /** The parent has an object for stage `k`, and the child is to have one. */
  ghost predicate Present(s: State, t: nat, f: Flags, k: nat) {
    Me(t, FieldAt(k)) in s.refs.holds && !(k == 0 && f.noFiles)
  }

  /** Stage `k` of the child `c` of `t`: nothing, the parent's object, or one that nobody else has. */
  ghost predicate StageOk(s: State, t: nat, c: nat, f: Flags, done: bool, k: nat) {
    var h := s.refs.holds;
    var sl := Me(c, FieldAt(k));
    && (sl in h <==> done && Present(s, t, f, k))
    && (sl in h ==> if SharedAt(f, k) then Me(t, FieldAt(k)) in h && h[sl] == h[Me(t, FieldAt(k))] else Sole(s.refs, sl))
  }

  ghost predicate EmbryoOk(s: State, t: nat)
    requires Cloner(s, t)
  {
    var h := s.refs.holds;
    var c, f, n := s.pc[t].child, s.pc[t].flags, s.pc[t].stage;
    && c < s.next && c !in s.group && Accepted(f) && n <= STAGES
    && StageOk(s, t, c, f, 0 < n, 0) && StageOk(s, t, c, f, 1 < n, 1) && StageOk(s, t, c, f, 2 < n, 2) && StageOk(s, t, c, f, 4 < n, 4)
    && (2 < n ==> Me(c, SighandF) in h)
    && (Me(c, SignalF) in h <==> 3 < n && !f.thread)
    && (Me(c, MemberF) in h <==> 3 < n && !f.thread)
    && (3 < n && !f.thread ==> Sole(s.refs, Me(c, SignalF)) && Sole(s.refs, Me(c, MemberF))
                               && h[Me(c, SignalF)].Signal? && h[Me(c, MemberF)] == Threads(h[Me(c, SignalF)].id))
  }

  /** Whoever owns a slot is visible or being built, or is a dead task whose signal struct is still referenced. */
  ghost predicate OwnerOk(s: State, sl: Slot) {
    || sl.owner in s.group
    || (Embryo(s, sl.owner) && !sl.field.NewFs? && !sl.field.NewFiles?)
    || sl.field == SignalF
  }

  ghost predicate Embryos(s: State) {
    && (forall t, u :: Cloner(s, t) && Cloner(s, u) && s.pc[t].child == s.pc[u].child ==> t == u)
    && (forall t, u :: t in s.group && Cloner(s, u) ==> s.group[t] != s.pc[u].child)
  }

  /** Same thread group exactly when same signal struct; and then same signal handlers. */
  ghost predicate GroupsShare(s: State) {
    var h := s.refs.holds;
    forall a, b :: a in s.group && b in s.group && TaskOk(s, a) && TaskOk(s, b) ==>
      && (s.group[a] == s.group[b] <==> h[Me(a, SignalF)] == h[Me(b, SignalF)])
      && (s.group[a] == s.group[b] ==> h[Me(a, SighandF)] == h[Me(b, SighandF)])
  }

  /** Same signal handlers, then same address space, unless one of the two has already dropped it. */
  ghost predicate HandlersShareMemory(s: State) {
    var h := s.refs.holds;
    forall a, b ::
      Me(a, SighandF) in h && Me(b, SighandF) in h && Me(a, MmF) in h && Me(b, MmF) in h && h[Me(a, SighandF)] == h[Me(b, SighandF)]
      ==> h[Me(a, MmF)] == h[Me(b, MmF)]
  }

  ghost predicate UnshareOk(s: State, t: nat)
    requires t in s.pc
  {
    var h := s.refs.holds;
    if !s.pc[t].Unsharing? then Me(t, NewFs) !in h && Me(t, NewFiles) !in h else
      var Unsharing(fs, files, n, failed, doomed) := s.pc[t];
      && n <= 6 && (failed ==> 5 <= n)
      && (Me(t, NewFs) in h ==> fs && 1 <= n && (n <= 3 || failed) && Sole(s.refs, Me(t, NewFs)) && Me(t, FsF) in h && doomed.None?)
      && (Me(t, NewFiles) in h ==> files && 2 <= n <= 5 && Me(t, FilesF) in h)
      && (doomed.Some? ==> 4 <= n && !failed && Fs(doomed.value) in s.refs.count && s.refs.count[Fs(doomed.value)] == 0)
      // what was asked for is private, or about to be
      && (fs && !failed && 1 <= n && Me(t, FsF) in h && Me(t, NewFs) !in h ==> Sole(s.refs, Me(t, FsF)))
      && (files && !failed && 2 <= n && Me(t, FilesF) in h ==>
            Sole(s.refs, if n <= 4 && Me(t, NewFiles) in h then Me(t, NewFiles) else Me(t, FilesF)))
  }

  ghost predicate Dooms(s: State, t: nat, o: Obj) {
    t in s.pc && s.pc[t].Unsharing? && s.pc[t].doomed.Some? && o == Fs(s.pc[t].doomed.value)
  }

  /** An object without holders has exactly one task that is about to free it. */
  ghost predicate DoomedOnce(s: State) {
    && (forall t, u, o :: Dooms(s, t, o) && Dooms(s, u, o) ==> t == u)
    && (forall o :: o in s.refs.count && s.refs.count[o] == 0 ==> exists t :: Dooms(s, t, o))
  }

  ghost predicate Inv(s: State) {
    && Sound(s)
    && (forall sl {:trigger OwnerOk(s, sl)} :: sl in s.refs.holds ==> OwnerOk(s, sl))
    && Embryos(s)
    && GroupsShare(s)
    && HandlersShareMemory(s)
    && DoomedOnce(s)
  }

  // ----- The steps -----

  function To(s: State, t: nat, pc: Pc, r: Refs): State {
    s.(pc := s.pc[t := pc], refs := r)
  }

  ghost function CopyDone(s: State, t: nat, id: nat): State
    requires t in s.pc && s.pc[t].Cloning? && Counted(s.refs)
  {
    var pc := s.pc[t];
    To(s, t, pc.(stage := pc.stage + 1), Copied(s.refs, t, pc.child, pc.flags, pc.stage, id))
  }

  ghost function Published(s: State, t: nat): State
    requires t in s.pc && s.pc[t].Cloning? && t in s.group && TaskOk(s, t) && Counted(s.refs)
  {
    var r, c := s.refs, s.pc[t].child;
    var s1 := if s.pc[t].flags.thread then
      var r1 := Share(r, Me(c, SignalF), r.holds[Me(t, SignalF)]);
      s.(group := s.group[c := s.group[t]], refs := Share(r1, Me(c, MemberF), r.holds[Me(t, MemberF)]))
      else s.(group := s.group[c := c]);
    s1.(pc := s.pc[t := Run][c := Run])
  }

  ghost function UndoneOne(s: State, t: nat): State
    requires t in s.pc && s.pc[t].Cloning? && Counted(s.refs) && EmbryoOk(s, t)
  {
    var pc := s.pc[t];
    if pc.stage == 0 then To(s, t, Run, s.refs)
    else To(s, t, pc.(stage := pc.stage - 1), Undone(s.refs, pc.child, pc.flags, pc.stage - 1))
  }

  ghost function Dropped(s: State, sl: Slot): State
    requires Counted(s.refs) && sl in s.refs.holds
  {
    ReleaseCounts(s.refs, sl);
    s.(refs := Release(s.refs, sl))
  }

  ghost function Unlinked(s: State, t: nat): State
    requires Counted(s.refs) && TaskOk(s, t)
  {
    ReleaseCounts(s.refs, Me(t, SighandF));
    var s1 := Dropped(Dropped(s, Me(t, SighandF)), Me(t, MemberF));
    State(s.next, s.group - {t}, s.pc - {t}, s1.refs)
  }

  ghost function FsCopied(s: State, t: nat, ok: bool, id: nat): State
    requires t in s.pc && s.pc[t].Unsharing? && Counted(s.refs)
  {
    var r, pc := s.refs, s.pc[t];
    if !pc.fs || Me(t, FsF) !in r.holds || r.count[r.holds[Me(t, FsF)]] == 1 then To(s, t, pc.(phase := 1), r)
    else if ok then To(s, t, pc.(phase := 1), Make(r, Me(t, NewFs), Fs(id)))
    else To(s, t, Run, r)
  }

  ghost function FilesCopied(s: State, t: nat, ok: bool, id: nat): State
    requires t in s.pc && s.pc[t].Unsharing? && Counted(s.refs)
  {
    var r, pc := s.refs, s.pc[t];
    if !pc.files || Me(t, FilesF) !in r.holds || r.count[r.holds[Me(t, FilesF)]] <= 1 then To(s, t, pc.(phase := 2), r)
    else if ok then To(s, t, pc.(phase := 2), Make(r, Me(t, NewFiles), Files(id)))
    else To(s, t, pc.(phase := 6, failed := true), r)
  }

  ghost function FsInstalled(s: State, t: nat): State
    requires t in s.pc && s.pc[t].Unsharing? && Basic(s) && UnshareOk(s, t)
  {
    var r, pc := s.refs, s.pc[t];
    if Me(t, NewFs) !in r.holds then To(s, t, pc.(phase := 4), r) else
      var was := r.holds[Me(t, FsF)];
      var r1 := FsSwapped(r, t);
      To(s, t, pc.(phase := 4, doomed := if r1.count[was] == 0 then Some(was.id) else None), r1)
  }

  ghost function FilesInstalled(s: State, t: nat): State
    requires t in s.pc && s.pc[t].Unsharing? && UnshareOk(s, t)
  {
    To(s, t, s.pc[t].(phase := 5), if Me(t, NewFiles) in s.refs.holds then FilesSwapped(s.refs, t) else s.refs)
  }

  ghost function FilesPut(s: State, t: nat): State
    requires t in s.pc && s.pc[t].Unsharing? && Counted(s.refs)
  {
    var s1 := s.(pc := s.pc[t := s.pc[t].(phase := 6)]);
    if Me(t, NewFiles) in s.refs.holds then Dropped(s1, Me(t, NewFiles)) else s1
  }

  ghost function FsFreed(s: State, t: nat): State
    requires t in s.pc && s.pc[t].Unsharing?
  {
    var r, pc := s.refs, s.pc[t];
    To(s, t, Run, if Me(t, NewFs) in r.holds then Free(r, Me(t, NewFs))
                  else if pc.doomed.Some? then r.(count := r.count - {Fs(pc.doomed.value)})
                  else r)
  }

  /** What `After` needs of a state. */
  ghost predicate Sound(s: State) {
    && Basic(s)
    && (forall t {:trigger TaskOk(s, t)} :: t in s.group ==> TaskOk(s, t))
    && (forall t {:trigger EmbryoOk(s, t)} :: Cloner(s, t) ==> EmbryoOk(s, t))
    && (forall t {:trigger UnshareOk(s, t)} :: t in s.pc ==> UnshareOk(s, t))
  }

  ghost function AfterClone(s: State, step: Step): State
    requires Sound(s) && Enabled(s, step) && (step.BeginClone? || step.Copy? || step.LateFailure? || step.Publish? || step.Undo?)
  {
    match step
    case BeginClone(t, flags) => To(s, t, Cloning(s.next, flags, 0, false), s.refs).(next := s.next + 1)
    case Copy(t, ok, id) => if ok then CopyDone(s, t, id) else To(s, t, s.pc[t].(failing := true), s.refs)
    case LateFailure(t) => To(s, t, s.pc[t].(failing := true), s.refs)
    case Publish(t) => assert TaskOk(s, t); Published(s, t)
    case Undo(t) => assert EmbryoOk(s, t); UndoneOne(s, t)
  }

  ghost function AfterUnshare(s: State, step: Step): State
    requires Sound(s) && Enabled(s, step) && !(step.BeginClone? || step.Copy? || step.LateFailure? || step.Publish? || step.Undo?)
    requires !(step.Drop? || step.Unlink? || step.PutTask?)
  {
    match step
    case BeginUnshare(t, fs, files) => To(s, t, Unsharing(fs, files, 0, false, None), s.refs)
    case UnshareFs(t, ok, id) => FsCopied(s, t, ok, id)
    case UnshareFiles(t, ok, id) => FilesCopied(s, t, ok, id)
    case UnshareRest(t, ok) => To(s, t, if ok then s.pc[t].(phase := 3) else s.pc[t].(phase := 5, failed := true), s.refs)
    case SwapFs(t) => assert UnshareOk(s, t); FsInstalled(s, t)
    case SwapFiles(t) => assert UnshareOk(s, t); FilesInstalled(s, t)
    case PutFiles(t) => FilesPut(s, t)
    case FreeFs(t) => FsFreed(s, t)
  }

  ghost function After(s: State, step: Step): State
    requires Sound(s) && Enabled(s, step)
  {
    match step
    case Drop(t, f) => Dropped(s, Me(t, f))
    case Unlink(t) => assert TaskOk(s, t); Unlinked(s, t)
    case PutTask(t) => Dropped(s, Me(t, SignalF))
    case BeginClone(_, _) => AfterClone(s, step)
    case Copy(_, _, _) => AfterClone(s, step)
    case LateFailure(_) => AfterClone(s, step)
    case Publish(_) => AfterClone(s, step)
    case Undo(_) => AfterClone(s, step)
    case _ => AfterUnshare(s, step)
  }
}
