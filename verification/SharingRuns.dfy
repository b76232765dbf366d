/**
 What holds of shared objects in every interleaving of clone, unshare and exit.
 */
module SharingRuns {
  import opened Options
  import opened References
  import opened Sharing
  import opened SharingFrames
  import opened UnshareSteps
  import opened CloneSteps

  // ----- Every step -----

  lemma CopyStepKeeps(s: State, step: Step)
    requires Inv(s) && step.Copy? && step.ok && Enabled(s, step)
    ensures Inv(After(s, step))
  {
    var t, k := step.t, s.pc[step.t].stage;
    var s' := After(s, step);
    CloneFacts(s, t);
    var c, f := s.pc[t].child, s.pc[t].flags;
    var mine := Me(t, FieldAt(k));
    assert Me(c, FieldAt(k)) !in s.refs.holds;
    assert k == 2 ==> mine in s.refs.holds;
    assert mine in s.refs.holds ==> s.refs.holds[mine] in s.refs.count;
    assert s' == CopyDone(s, t, step.id);
    hide Inv, Sound, TaskOk, UnshareOk, EmbryoOk, Counted, Basic, HandlersShareMemory, Apart, After;
    if k == 3 {
      if f.thread { PassKeeps(s, s', t, k); } else { CopySignalKeeps(s, s', t, step.id); }
    } else if mine !in s.refs.holds || (k == 0 && f.noFiles) {
      PassKeeps(s, s', t, k);
    } else if SharedAt(f, k) {
      CopySharedKeeps(s, s', t, k);
    } else {
      CopyMadeKeeps(s, s', t, k, step.id);
    }
  }

  /** What an undoing step meets: the child of `t`, and what it holds for the stage to be undone. */
  lemma UndoFacts(s: State, step: Step)
    requires Inv(s) && step.Undo? && Enabled(s, step) && s.pc[step.t].stage > 0
    ensures var t, k := step.t, s.pc[step.t].stage - 1;
            var c, f := s.pc[t].child, s.pc[t].flags;
            && Sound(s) && Counted(s.refs) && EmbryoOk(s, t) && k <= 4 && After(s, step) == UndoneOne(s, t)
            && (k == 3 && f.thread ==> Me(c, SignalF) !in s.refs.holds) && (k == 2 ==> Me(c, SighandF) in s.refs.holds)
            && (k == 3 && !f.thread ==> Me(c, SignalF) in s.refs.holds && Me(c, MemberF) in s.refs.holds)
            && (k != 3 ==> (Me(c, FieldAt(k)) in s.refs.holds <==> Present(s, t, f, k)))
  {
    assert EmbryoOk(s, step.t);
    hide Sound, Basic, TaskOk, UnshareOk, Counted, HandlersShareMemory, GroupsShare, DoomedOnce, Embryos, UndoneOne;
  }

  lemma UndoStepKeeps(s: State, step: Step)
    requires Inv(s) && step.Undo? && Enabled(s, step)
    ensures Inv(After(s, step))
  {
    hide Inv, Sound, TaskOk, UnshareOk, EmbryoOk, Basic, HandlersShareMemory, Apart, After, Counted;
    var t := step.t;
    if s.pc[t].stage == 0 {
      UndoneAllKeeps(s, step);
    } else {
      UndoFacts(s, step);
      var s', k := After(s, step), s.pc[t].stage - 1;
      var c, f := s.pc[t].child, s.pc[t].flags;
      var sl := Me(c, FieldAt(k));
      if k == 3 {
        if f.thread { PassKeeps(s, s', t, k); } else { UndoSignalKeeps(s, s', t); }
      } else if sl in s.refs.holds {
        ReleaseCounts(s.refs, sl);
        UndoReleasedKeeps(s, s', t, k);
      } else {
        PassKeeps(s, s', t, k);
      }
    }
  }

  lemma PublishStepKeeps(s: State, step: Step)
    requires Inv(s) && step.Publish? && Enabled(s, step)
    ensures Inv(After(s, step))
  {
    var t, s' := step.t, After(s, step);
    CloneFacts(s, t);
    if s.pc[t].flags.thread {
      PublishThreadKeeps(s, s', t);
    } else {
      PublishProcessKeeps(s, s', t);
    }
  }

  lemma UnshareStepKeeps(s: State, step: Step)
    requires Inv(s) && Enabled(s, step)
    requires step.UnshareFs? || step.UnshareFiles? || step.SwapFs? || step.SwapFiles? || step.PutFiles? || step.FreeFs?
    ensures Inv(After(s, step))
  {
    var t, s' := step.t, After(s, step);
    Facts(s, t);
    SoundBasic(s);
    hide Inv, Sound, TaskOk, EmbryoOk, Apart, Counted, Basic;
    match step
    case UnshareFs(_, _, id) => if s'.refs == s.refs { FsNotCopiedKeeps(s, step); } else { FsCopiedKeeps(s, s', t, id); }
    case UnshareFiles(_, _, id) => if s'.refs == s.refs { FilesNotCopiedKeeps(s, step); } else { FilesCopiedKeeps(s, s', t, id); }
    case SwapFs(_) => if Me(t, NewFs) in s.refs.holds { FsSwapKeeps(s, s', t); } else { NothingToSwapKeeps(s, step); }
    case SwapFiles(_) => if Me(t, NewFiles) in s.refs.holds { FilesSwapKeeps(s, s', t); } else { NothingToSwapKeeps(s, step); }
    case PutFiles(_) => if Me(t, NewFiles) in s.refs.holds { FilesPutKeeps(s, s', t); } else { NothingToSwapKeeps(s, step); }
    case FreeFs(_) =>
      if Me(t, NewFs) in s.refs.holds {
        CopyFreedKeeps(s, s', t);
      } else if s.pc[t].doomed.Some? {
        DoomedFreedKeeps(s, s', t);
      } else {
        NothingToFreeKeeps(s, step);
      }
  }

  lemma ExitStepKeeps(s: State, step: Step)
    requires Inv(s) && Enabled(s, step) && (step.Drop? || step.Unlink? || step.PutTask?)
    ensures Inv(After(s, step))
  {
    var t, s' := step.t, After(s, step);
    match step
    case Drop(_, f) => DropKeeps(s, s', t, f);
    case Unlink(_) => Facts(s, t); UnlinkKeeps(s, s', t);
    case PutTask(_) => PutTaskKeeps(s, s', t);
  }

  lemma StepKeeps(s: State, step: Step)
    requires Inv(s) && Enabled(s, step)
    ensures Inv(After(s, step))
  {
    hide Sound, Enabled;
    match step
    case BeginClone(_, _) => BeginCloneKeeps(s, step);
    case Copy(_, ok, _) => if ok { CopyStepKeeps(s, step); } else { FailureKeeps(s, step); }
    case LateFailure(_) => FailureKeeps(s, step);
    case Publish(_) => PublishStepKeeps(s, step);
    case Undo(_) => UndoStepKeeps(s, step);
    case Drop(_, _) => ExitStepKeeps(s, step);
    case Unlink(_) => ExitStepKeeps(s, step);
    case PutTask(_) => ExitStepKeeps(s, step);
    case BeginUnshare(_, _, _) => BeginUnshareKeeps(s, step);
    case UnshareRest(_, _) => UnshareRestKeeps(s, step);
    case _ => UnshareStepKeeps(s, step);
  }

  // ----- Runs -----

  /** `Sound` is what a step needs to be defined. It restricts no run: the invariant implies it in every state reached. */
  ghost predicate Reaches(s0: State, run: seq<Step>, s: State)
    decreases |run|
  {
    if run == [] then s0 == s
    else Sound(s0) && Enabled(s0, run[0]) && Reaches(After(s0, run[0]), run[1..], s)
  }

  /** One task, alone, not in a system call; each object has one reference and one pointer to it. */
  ghost predicate Init(s: State) {
    && s.next == 1 && s.group == map[0 := 0] && s.pc == map[0 := Run] && TaskOk(s, 0)
    && (forall sl :: sl in s.refs.holds ==> sl.owner == 0 && KindOk(sl.field, s.refs.holds[sl]) && sl.field != NewFs && sl.field != NewFiles)
    && (forall sl :: sl in s.refs.holds ==> s.refs.holds[sl] in s.refs.count && Sole(s.refs, sl))
    && (forall o :: o in s.refs.count ==> s.refs.count[o] == 1 && exists sl :: sl in s.refs.holds && s.refs.holds[sl] == o)
  }

  /** The object of each kind that the first task starts with. */
  function First(f: Field): Obj {
    match f
    case SignalF => Signal(0)
    case MemberF => Threads(0)
    case SighandF => Sighand(0)
    case MmF => Mm(0)
    case FilesF => Files(0)
    case NewFiles => Files(0)
    case FsF => Fs(0)
    case NewFs => Fs(0)
  }

  predicate Lasting(f: Field) { f != NewFs && f != NewFiles }

  lemma FirstDiffer(f: Field, g: Field)
    requires Lasting(f) && Lasting(g) && f != g
    ensures First(f) != First(g)
  {}

  ghost function FirstRefs(): (r: Refs)
    ensures forall sl :: sl in r.holds <==> sl.owner == 0 && Lasting(sl.field)
    ensures forall sl :: sl in r.holds ==> r.holds[sl] == First(sl.field)
    ensures forall o :: o in r.count ==> r.count[o] == 1 && exists sl :: sl in r.holds && r.holds[sl] == o
    ensures forall sl :: sl in r.holds ==> r.holds[sl] in r.count
  {
    var slots := {Me(0, SignalF), Me(0, MemberF), Me(0, SighandF), Me(0, MmF), Me(0, FilesF), Me(0, FsF)};
    var holds := map sl | sl in slots :: First(sl.field);
    Refs(holds, map o | o in holds.Values :: 1)
  }

  /** The first task, with one object of each kind, is such a state. */
  lemma InitExists() returns (s: State)
    ensures Init(s) && forall f :: Lasting(f) ==> Me(0, f) in s.refs.holds
  {
    hide FirstRefs, First;
    var r := FirstRefs();
    s := State(1, map[0 := 0], map[0 := Run], r);
    FirstTaskOk(s);
    forall sl | sl in r.holds
      ensures Sole(r, sl) && KindOk(sl.field, r.holds[sl])
    {
      FirstSole(r, sl);
    }
  }

  lemma FirstTaskOk(s: State)
    requires s.refs == FirstRefs()
    ensures TaskOk(s, 0) && forall f :: Lasting(f) ==> Me(0, f) in s.refs.holds
  {
    hide FirstRefs, First;
    FirstHeld(s.refs, SignalF);
    FirstHeld(s.refs, MemberF);
    FirstHeld(s.refs, SighandF);
    forall f | Lasting(f) ensures Me(0, f) in s.refs.holds {
      FirstHeld(s.refs, f);
    }
    FirstKinds();
  }

  lemma FirstHeld(r: Refs, f: Field)
    requires r == FirstRefs() && Lasting(f)
    ensures Me(0, f) in r.holds && r.holds[Me(0, f)] == First(f)
  {
    hide FirstRefs, First;
  }

  lemma FirstKinds()
    ensures First(SignalF) == Signal(0) && First(MemberF) == Threads(0)
  {}

  lemma FirstSole(r: Refs, sl: Slot)
    requires r == FirstRefs() && sl in r.holds
    ensures Sole(r, sl) && KindOk(sl.field, r.holds[sl])
  {
    hide FirstRefs;
    forall x | x in r.holds && x != sl
      ensures r.holds[x] != r.holds[sl]
    {
      FirstDiffer(x.field, sl.field);
    }
  }

  lemma InitCounted(s: State)
    requires Init(s)
    ensures Counted(s.refs)
  {
    hide TaskOk, KindOk, Sole;
    forall o | o in s.refs.count ensures s.refs.count[o] == |Holders(s.refs, o)| {
      var sl :| sl in s.refs.holds && s.refs.holds[sl] == o;
      SoleHolders(s.refs, sl);
    }
  }

  lemma InitInv(s: State)
    requires Init(s)
    ensures Inv(s)
  {
    hide KindOk, Sole, Counted, TaskOk;
    InitCounted(s);
    assert UnshareOk(s, 0) && !Cloner(s, 0);
    assert Sound(s);
    forall a: nat | Me(a, SighandF) in s.refs.holds ensures a == 0 { assert Me(a, SighandF).owner == 0; }
    hide UnshareOk;
    assert GroupsShare(s) && HandlersShareMemory(s);
  }

  lemma {:induction false} RunKeeps(s0: State, run: seq<Step>, s: State)
    requires Inv(s0) && Reaches(s0, run, s)
    ensures Inv(s)
    decreases |run|
  {
    hide Inv, Sound, Enabled, After;
    if run != [] {
      StepKeeps(s0, run[0]);
      RunKeeps(After(s0, run[0]), run[1..], s);
    }
  }

  /**
   In every interleaving, `sigcnt`, `nr_threads`, the sighand, mm and files counts and `fs->users` are the
   number of pointers to the object; what is pointed to is allocated, and what is allocated is pointed to
   or about to be freed by exactly one task.
   */
  lemma CountsAreHolders(s0: State, run: seq<Step>, s: State, o: Obj)
    requires Init(s0) && Reaches(s0, run, s)
    ensures o in s.refs.count ==> s.refs.count[o] == |set sl | sl in s.refs.holds.Keys && s.refs.holds[sl] == o|
    ensures (exists sl :: sl in s.refs.holds && s.refs.holds[sl] == o) ==> o in s.refs.count
    ensures o in s.refs.count && s.refs.count[o] == 0 ==> exists t :: Dooms(s, t, o) && forall u :: Dooms(s, u, o) ==> u == t
  {
    InitInv(s0);
    RunKeeps(s0, run, s);
    assert o in s.refs.count ==> s.refs.count[o] == |Holders(s.refs, o)|;
    if o in s.refs.count && s.refs.count[o] == 0 {
      var t :| Dooms(s, t, o);
    }
  }

  /** In every interleaving, thread groups share signal struct and handlers, and shared handlers mean shared memory. */
  lemma SharingDiscipline(s0: State, run: seq<Step>, s: State, a: nat, b: nat)
    requires Init(s0) && Reaches(s0, run, s) && a in s.group && b in s.group
    ensures TaskOk(s, a) && TaskOk(s, b)
    ensures var h := s.refs.holds;
      && (s.group[a] == s.group[b] <==> h[Me(a, SignalF)] == h[Me(b, SignalF)])
      && (s.group[a] == s.group[b] ==> h[Me(a, SighandF)] == h[Me(b, SighandF)])
      && (h[Me(a, SighandF)] == h[Me(b, SighandF)] && Me(a, MmF) in h && Me(b, MmF) in h ==> h[Me(a, MmF)] == h[Me(b, MmF)])
  {
    InitInv(s0);
    RunKeeps(s0, run, s);
    assert TaskOk(s, a) && TaskOk(s, b);
    hide EmbryoOk, UnshareOk, OwnerOk, Embryos, DoomedOnce, Counted, Init, Reaches;
  }

  /** An `unshare` that succeeds leaves its caller alone with what it asked to have unshared, if it still has it. */
  lemma UnshareSeparates(s0: State, run: seq<Step>, s: State, t: nat)
    requires Init(s0) && Reaches(s0, run, s) && Unsharer(s, t, 6) && !s.pc[t].failed
    ensures s.pc[t].fs && Me(t, FsF) in s.refs.holds ==> Sole(s.refs, Me(t, FsF))
    ensures s.pc[t].files && Me(t, FilesF) in s.refs.holds ==> Sole(s.refs, Me(t, FilesF))
  {
    InitInv(s0);
    RunKeeps(s0, run, s);
    assert UnshareOk(s, t);
    hide EmbryoOk, OwnerOk, Embryos, DoomedOnce, Counted, Init, Reaches, TaskOk, Sole;
  }

  /** `free_fs_struct` and `free_signal_struct` ignore the counter; they are called only where nobody else points. */
  lemma FreedOutrightIsUnshared(s0: State, run: seq<Step>, s: State, t: nat)
    requires Init(s0) && Reaches(s0, run, s)
    ensures Unsharer(s, t, 6) && Me(t, NewFs) in s.refs.holds ==> Sole(s.refs, Me(t, NewFs))
    ensures Unsharer(s, t, 6) && s.pc[t].doomed.Some? ==> forall sl :: sl in s.refs.holds ==> s.refs.holds[sl] != Fs(s.pc[t].doomed.value)
    ensures Cloner(s, t) && s.pc[t].stage == 4 && !s.pc[t].flags.thread ==>
      Me(s.pc[t].child, SignalF) in s.refs.holds && Sole(s.refs, Me(s.pc[t].child, SignalF))
  {
    InitInv(s0);
    RunKeeps(s0, run, s);
    if t in s.pc {
      assert UnshareOk(s, t);
      if Cloner(s, t) { assert EmbryoOk(s, t); }
      if Unsharer(s, t, 6) && s.pc[t].doomed.Some? {
        forall sl | sl in s.refs.holds ensures s.refs.holds[sl] != Fs(s.pc[t].doomed.value) { HeldIsCounted(s.refs, sl); }
      }
    }
  }
}
