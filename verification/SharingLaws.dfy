/**
 What clone and unshare share and separate, over the flags and the pointers alone.
 */
module SharingLaws {
  import opened Options
  import opened References
  import opened Sharing
  import opened SharingFrames
  import opened CloneSteps
  import opened SharingRuns

  /** `a` has field `f` and `b` has the same object there. */
  ghost predicate Same(s: State, a: nat, b: nat, f: Field) {
    var h := s.refs.holds;
    Me(a, f) in h && Me(b, f) in h && h[Me(a, f)] == h[Me(b, f)]
  }

  /** `c` has an object of its own in field `f`. */
  ghost predicate Alone(s: State, c: nat, f: Field) { Me(c, f) in s.refs.holds && Sole(s.refs, Me(c, f)) }

  /** Field `f` of child `c` of `t`: the object of `t` if it is shared, one of its own if not, none if `t` has none. */
  ghost predicate AsAsked(s: State, t: nat, c: nat, f: Field, share: bool) {
    if Me(t, f) !in s.refs.holds then Me(c, f) !in s.refs.holds
    else if share then Same(s, t, c, f) else Alone(s, c, f)
  }

  /**
   In every interleaving, what a child under construction has is what the flags ask for: files, fs, handlers and
   memory from the moment their stage is passed, and no signal struct but its own before it is published.
   */
  lemma CloneSharesAsAsked(s0: State, run: seq<Step>, s: State, t: nat)
    requires Init(s0) && Reaches(s0, run, s) && Cloner(s, t)
    ensures var c, f, n := s.pc[t].child, s.pc[t].flags, s.pc[t].stage;
      && (if n <= 0 || f.noFiles then Me(c, FilesF) !in s.refs.holds else AsAsked(s, t, c, FilesF, f.files))
      && (if n <= 1 then Me(c, FsF) !in s.refs.holds else AsAsked(s, t, c, FsF, f.fs))
      && (if n <= 2 then Me(c, SighandF) !in s.refs.holds else AsAsked(s, t, c, SighandF, f.sighand))
      && (if n <= 3 || f.thread then Me(c, SignalF) !in s.refs.holds else Alone(s, c, SignalF))
      && (if n <= 4 then Me(c, MmF) !in s.refs.holds else AsAsked(s, t, c, MmF, f.vm))
  {
    InitInv(s0);
    RunKeeps(s0, run, s);
    CloneFacts(s, t);
    hide Inv, Sound, Basic, Counted, Init, Reaches, TaskOk, UnshareOk, Apart, HandlersShareMemory, Sole;
  }

  /** A child that was given up again has nothing. */
  lemma UndoneLeavesNothing(s0: State, run: seq<Step>, s: State, t: nat)
    requires Init(s0) && Reaches(s0, run, s) && Cloner(s, t) && s.pc[t].stage == 0
    ensures forall f :: Me(s.pc[t].child, f) !in s.refs.holds
  {
    InitInv(s0);
    RunKeeps(s0, run, s);
    CloneFacts(s, t);
    hide Inv, Sound, Basic, Counted, Init, Reaches, TaskOk, UnshareOk, Apart, HandlersShareMemory, Sole;
    forall f: Field ensures Me(s.pc[t].child, f) !in s.refs.holds {
      match f
      case SignalF => case MemberF => case SighandF => case MmF => case FilesF => case FsF => case NewFs => case NewFiles =>
    }
  }

  /** Everything but the two signal pointers of `c` is as before. */
  ghost predicate OnlySignals(s: State, s': State, c: nat) {
    forall sl {:trigger SlotSame(s, s', sl)} :: sl != Me(c, SignalF) && sl != Me(c, MemberF) ==> SlotSame(s, s', sl)
  }

  lemma FieldAsAsked(s: State, s': State, t: nat, c: nat, f: Field, share: bool)
    requires Basic(s') && OnlySignals(s, s', c) && f != SignalF && f != MemberF
    ensures AsAsked(s, t, c, f, share) ==> AsAsked(s', t, c, f, share)
    ensures Me(c, f) !in s.refs.holds ==> Me(c, f) !in s'.refs.holds
  {
    assert SlotSame(s, s', Me(t, f)) && SlotSame(s, s', Me(c, f));
    if Alone(s, c, f) {
      forall x | x in s'.refs.holds && x != Me(c, f) ensures s'.refs.holds[x] != s'.refs.holds[Me(c, f)] {
        if x != Me(c, SignalF) && x != Me(c, MemberF) {
          assert SlotSame(s, s', x);
        }
      }
    }
    hide Counted;
  }

  /** Publication touches nothing but the two signal pointers of a thread. */
  lemma PublishEffect(s: State, t: nat)
    requires Sound(s) && Enabled(s, Publish(t)) && s.pc[t].child != t
    ensures var s', c := After(s, Publish(t)), s.pc[t].child;
      && t in s.group && s'.group == s.group[c := if s.pc[t].flags.thread then s.group[t] else c] && s'.pc == s.pc[t := Run][c := Run]
      && OnlySignals(s, s', c)
      && (!s.pc[t].flags.thread ==> s'.refs == s.refs)
      && (s.pc[t].flags.thread ==> Same(s', t, c, SignalF))
  {
    AfterPublish(s, t);
    hide After, Sound, Basic, Counted, EmbryoOk, UnshareOk;
    assert TaskOk(s, t);
  }

  lemma AfterPublish(s: State, t: nat)
    requires Sound(s) && Enabled(s, Publish(t))
    ensures t in s.group && TaskOk(s, t) && Counted(s.refs) && After(s, Publish(t)) == Published(s, t)
    ensures Me(t, SignalF) in s.refs.holds ==> s.refs.holds[Me(t, SignalF)] in s.refs.count
    ensures Me(t, MemberF) in s.refs.holds ==> s.refs.holds[Me(t, MemberF)] in s.refs.count
  {
    assert TaskOk(s, t);
    hide EmbryoOk, UnshareOk, Published;
    HeldIsCounted(s.refs, Me(t, SignalF));
    HeldIsCounted(s.refs, Me(t, MemberF));
  }

  lemma ChildIsNew(s: State, t: nat)
    requires Inv(s) && Cloner(s, t)
    ensures t in s.group && s.group[t] != s.pc[t].child && s.pc[t].child != t && s.pc[t].child !in s.group && Sound(s) && Basic(s) && TaskOk(s, t)
  {
    CloneFacts(s, t);
    assert Embryos(s);
  }

  lemma InvBasic(s: State)
    requires Inv(s)
    ensures Basic(s)
  {}

  /** The child that a successful clone publishes shares with its parent exactly what the flags say. */
  lemma PublishedSharesAsAsked(s0: State, run: seq<Step>, s: State, t: nat)
    requires Init(s0) && Reaches(s0, run, s) && Sound(s) && Enabled(s, Publish(t))
    ensures var s', c, f := After(s, Publish(t)), s.pc[t].child, s.pc[t].flags;
      && c !in s.group && c in s'.group && t in s'.group && c in s'.pc && t in s'.pc && s'.pc[c] == s'.pc[t] == Run
      && (s'.group[c] == s'.group[t] <==> f.thread)
      && (if f.noFiles then Me(c, FilesF) !in s'.refs.holds else AsAsked(s', t, c, FilesF, f.files))
      && AsAsked(s', t, c, FsF, f.fs) && AsAsked(s', t, c, SighandF, f.sighand) && AsAsked(s', t, c, MmF, f.vm)
      && AsAsked(s', t, c, SignalF, f.thread)
  {
    hide Inv, Sound, Basic, Counted, Init, Reaches, UnshareOk, EmbryoOk, After, Sole, OnlySignals, TaskOk, AsAsked;
    InitInv(s0);
    RunKeeps(s0, run, s);
    CloneSharesAsAsked(s0, run, s, t);
    ChildIsNew(s, t);
    StepKeeps(s, Publish(t));
    PublishEffect(s, t);
    var s', c, f := After(s, Publish(t)), s.pc[t].child, s.pc[t].flags;
    InvBasic(s');
    FieldAsAsked(s, s', t, c, FilesF, f.files);
    FieldAsAsked(s, s', t, c, FsF, f.fs);
    FieldAsAsked(s, s', t, c, SighandF, f.sighand);
    FieldAsAsked(s, s', t, c, MmF, f.vm);
    SignalAsAsked(s, s', t, c, f.thread);
  }

  lemma SignalAsAsked(s: State, s': State, t: nat, c: nat, thread: bool)
    requires TaskOk(s, t) && if thread then Same(s', t, c, SignalF) else s'.refs == s.refs && Alone(s, c, SignalF)
    ensures AsAsked(s', t, c, SignalF, thread)
  {
    hide Sole;
  }

  // ----- What a step leaves alone -----

  /** Only slots of the task that steps, or of the child it builds, change. */
  ghost predicate Foreign(s: State, step: Step, sl: Slot) {
    sl.owner != step.t && !(Cloner(s, step.t) && sl.owner == s.pc[step.t].child)
  }

  lemma CloneLeavesAlone(s: State, step: Step, sl: Slot)
    requires Sound(s) && Enabled(s, step) && Foreign(s, step, sl)
    requires step.BeginClone? || step.Copy? || step.LateFailure? || step.Publish? || step.Undo?
    ensures SlotSame(s, After(s, step), sl)
  {
    if step.Copy? || step.Undo? {
      CopyLeavesAlone(s, step, sl);
    } else {
      if Cloner(s, step.t) { assert EmbryoOk(s, step.t); }
      hide Basic, Counted, UnshareOk, EmbryoOk, Sound, AfterUnshare, TaskOk, StageOk, Copied, Undone, Make, Free;
    }
  }

  lemma CopyLeavesAlone(s: State, step: Step, sl: Slot)
    requires Sound(s) && Enabled(s, step) && Foreign(s, step, sl) && (step.Copy? || step.Undo?)
    ensures SlotSame(s, After(s, step), sl)
  {
    assert EmbryoOk(s, step.t);
    hide Basic, Counted, UnshareOk, EmbryoOk, Sound, AfterUnshare, TaskOk, StageOk;
  }

  lemma UnshareLeavesAlone(s: State, step: Step, sl: Slot)
    requires Sound(s) && Enabled(s, step) && Foreign(s, step, sl)
    requires !(step.BeginClone? || step.Copy? || step.LateFailure? || step.Publish? || step.Undo? || step.Drop? || step.Unlink? || step.PutTask?)
    ensures SlotSame(s, After(s, step), sl)
  {
    assert UnshareOk(s, step.t);
    hide Basic, Counted, UnshareOk, EmbryoOk, Sound, AfterClone, TaskOk, StageOk;
  }

  lemma ExitLeavesAlone(s: State, step: Step, sl: Slot)
    requires Sound(s) && Enabled(s, step) && Foreign(s, step, sl) && (step.Drop? || step.Unlink? || step.PutTask?)
    ensures SlotSame(s, After(s, step), sl)
  {
    if step.Unlink? { assert TaskOk(s, step.t); }
    hide Basic, Counted, UnshareOk, EmbryoOk, Sound, AfterClone, AfterUnshare, TaskOk, StageOk;
  }

  lemma LeavesAlone(s: State, step: Step, sl: Slot)
    requires Sound(s) && Enabled(s, step) && Foreign(s, step, sl)
    ensures SlotSame(s, After(s, step), sl)
  {
    hide Sound, After, Foreign, Enabled;
    if step.BeginClone? || step.Copy? || step.LateFailure? || step.Publish? || step.Undo? {
      CloneLeavesAlone(s, step, sl);
    } else if step.Drop? || step.Unlink? || step.PutTask? {
      ExitLeavesAlone(s, step, sl);
    } else {
      UnshareLeavesAlone(s, step, sl);
    }
  }

  // ----- Unshare -----

  ghost predicate InUnshare(s: State, t: nat) { t in s.pc && s.pc[t].Unsharing? }

  /** Task `t` is in one call of `unshare` all through the run. */
  ghost predicate Throughout(s: State, run: seq<Step>, s': State, t: nat)
    requires Reaches(s, run, s')
    decreases |run|
  {
    InUnshare(s, t) && (run != [] ==> Throughout(After(s, run[0]), run[1..], s', t))
  }

  /** From `s` to `s'` task `t` goes on with its call; what it does to its own pointers. */
  ghost predicate GoesOn(s: State, s': State, t: nat)
    requires InUnshare(s, t) && InUnshare(s', t)
  {
    var w, w' := s.pc[t], s'.pc[t];
    && w'.fs == w.fs && w'.files == w.files && w.phase <= w'.phase && (w.failed ==> w'.failed) && (w'.failed && !w.failed ==> w.phase <= 2)
    && (SlotSame(s, s', Me(t, FsF)) || (w.fs && !w'.failed && w.phase <= 3 && 3 < w'.phase))
    && (SlotSame(s, s', Me(t, FilesF)) || (w.files && !w'.failed && w.phase <= 4 && 4 < w'.phase))
    && (Me(t, FsF) in s'.refs.holds <==> Me(t, FsF) in s.refs.holds) && (Me(t, FilesF) in s'.refs.holds <==> Me(t, FilesF) in s.refs.holds)
  }

  lemma OwnUnshareStep(s: State, step: Step)
    requires Sound(s) && Enabled(s, step) && InUnshare(s, step.t) && InUnshare(After(s, step), step.t)
    ensures GoesOn(s, After(s, step), step.t)
  {
    hide Sound, Enabled, After, GoesOn;
    if s.pc[step.t].phase < 3 {
      OwnCopyStep(s, step);
    } else {
      OwnSwapStep(s, step);
    }
  }

  lemma OwnCopyStep(s: State, step: Step)
    requires Sound(s) && Enabled(s, step) && InUnshare(s, step.t) && InUnshare(After(s, step), step.t) && s.pc[step.t].phase < 3
    ensures GoesOn(s, After(s, step), step.t)
  {
    assert UnshareOk(s, step.t);
    hide Basic, Counted, EmbryoOk, Sound, AfterClone, TaskOk, Sole, Copied, Undone, FsSwapped, FilesSwapped;
  }

  lemma OwnSwapStep(s: State, step: Step)
    requires Sound(s) && Enabled(s, step) && InUnshare(s, step.t) && InUnshare(After(s, step), step.t) && s.pc[step.t].phase >= 3
    ensures GoesOn(s, After(s, step), step.t)
  {
    assert UnshareOk(s, step.t);
    hide Basic, Counted, EmbryoOk, Sound, AfterClone, TaskOk, Sole, Copied, Undone;
  }

  lemma OtherUnshareStep(s: State, step: Step, t: nat)
    requires Inv(s) && Sound(s) && Enabled(s, step) && InUnshare(s, t) && step.t != t
    ensures InUnshare(After(s, step), t) && GoesOn(s, After(s, step), t)
  {
    if Cloner(s, step.t) { ChildIsNew(s, step.t); }
    InvBasic(s);
    LeavesAlone(s, step, Me(t, FsF));
    LeavesAlone(s, step, Me(t, FilesF));
    SamePc(s, step, t);
    hide Inv, Sound, Enabled, After, Basic;
  }

  lemma SamePc(s: State, step: Step, t: nat)
    requires Sound(s) && Enabled(s, step) && t in s.pc && step.t != t && (Cloner(s, step.t) ==> s.pc[step.t].child != t)
    ensures t in After(s, step).pc && After(s, step).pc[t] == s.pc[t]
  {
    if Cloner(s, step.t) { assert EmbryoOk(s, step.t); }
    hide Basic, Counted, EmbryoOk, UnshareOk, TaskOk, StageOk, Release, Free, Make, Copied, Undone;
  }

  /** Going on twice is going on. */
  lemma GoesOnOn(a: State, b: State, c: State, t: nat)
    requires InUnshare(a, t) && InUnshare(b, t) && InUnshare(c, t) && GoesOn(a, b, t) && GoesOn(b, c, t)
    ensures GoesOn(a, c, t)
  {}

  lemma {:induction false} UnshareGoesOn(s: State, run: seq<Step>, s': State, t: nat)
    requires Inv(s) && Reaches(s, run, s') && Throughout(s, run, s', t)
    ensures InUnshare(s, t) && InUnshare(s', t) && GoesOn(s, s', t)
    decreases |run|
  {
    if run != [] {
      var s1 := After(s, run[0]);
      assert InUnshare(s1, t);
      StepKeeps(s, run[0]);
      hide Inv, Sound, Enabled, After, GoesOn, InUnshare;
      if run[0].t == t {
        OwnUnshareStep(s, run[0]);
      } else {
        OtherUnshareStep(s, run[0], t);
      }
      UnshareGoesOn(s1, run[1..], s', t);
      GoesOnOn(s, s1, s', t);
    }
  }

  /**
   Whatever other tasks do meanwhile, `unshare` leaves the caller the fs and files structs it has unless it was
   asked to separate that one and has not failed; and it takes neither away.
   */
  lemma UnshareTouchesOnlyAsked(s: State, run: seq<Step>, s': State, t: nat)
    requires Inv(s) && Reaches(s, run, s') && Throughout(s, run, s', t)
    ensures InUnshare(s', t)
    ensures Me(t, FsF) in s'.refs.holds <==> Me(t, FsF) in s.refs.holds
    ensures Me(t, FilesF) in s'.refs.holds <==> Me(t, FilesF) in s.refs.holds
    ensures !s.pc[t].fs || s'.pc[t].failed ==> SlotSame(s, s', Me(t, FsF))
    ensures !s.pc[t].files || s'.pc[t].failed ==> SlotSame(s, s', Me(t, FilesF))
  {
    hide Inv, Reaches, Throughout;
    UnshareGoesOn(s, run, s', t);
  }

  /** What nobody shares is not copied, so that it cannot fail either. */
  lemma UnsharedFsIsNotCopied(s: State, t: nat, ok: bool, id: nat)
    requires Inv(s) && Sound(s) && Enabled(s, UnshareFs(t, ok, id)) && Alone(s, t, FsF)
    ensures var s' := After(s, UnshareFs(t, ok, id)); s'.refs == s.refs && Unsharer(s', t, 1)
  {
    InvBasic(s);
    SoleHolders(s.refs, Me(t, FsF));
    CountsOne(s.refs);
    hide Inv, Sound, EmbryoOk, TaskOk, UnshareOk, AfterClone, Basic, Counted, Sole, Make;
  }

  lemma UnsharedFilesAreNotCopied(s: State, t: nat, ok: bool, id: nat)
    requires Inv(s) && Sound(s) && Enabled(s, UnshareFiles(t, ok, id)) && Alone(s, t, FilesF)
    ensures var s' := After(s, UnshareFiles(t, ok, id)); s'.refs == s.refs && Unsharer(s', t, 2) && !s'.pc[t].failed
  {
    InvBasic(s);
    SoleHolders(s.refs, Me(t, FilesF));
    CountsOne(s.refs);
    assert UnshareOk(s, t);
    assert !s.pc[t].failed;
    hide Inv, Sound, EmbryoOk, TaskOk, UnshareOk, AfterClone, Basic, Counted, Sole, Make;
  }

  lemma CountsOne(r: Refs)
    requires Counted(r)
    ensures forall sl :: sl in r.holds ==> r.holds[sl] in r.count && r.count[r.holds[sl]] == |Holders(r, r.holds[sl])|
  {
    forall sl | sl in r.holds ensures r.holds[sl] in r.count && r.count[r.holds[sl]] == |Holders(r, r.holds[sl])| {
      HeldIsCounted(r, sl);
    }
  }

  /** What is shared and asked for cannot be had without memory: the call fails, and nothing has changed. */
  lemma NoMemoryForFs(s: State, t: nat, id: nat)
    requires Inv(s) && Sound(s) && Enabled(s, UnshareFs(t, false, id))
    requires s.pc[t].fs && Me(t, FsF) in s.refs.holds && !Sole(s.refs, Me(t, FsF))
    ensures After(s, UnshareFs(t, false, id)) == s.(pc := s.pc[t := Run])
  {
    InvBasic(s);
    SharedIsMore(s, Me(t, FsF));
    hide Inv, Sound, EmbryoOk, TaskOk, UnshareOk, AfterClone, Basic, Counted, Sole, Make;
  }

  lemma NoMemoryForFiles(s: State, t: nat, id: nat)
    requires Inv(s) && Sound(s) && Enabled(s, UnshareFiles(t, false, id))
    requires s.pc[t].files && Me(t, FilesF) in s.refs.holds && !Sole(s.refs, Me(t, FilesF))
    ensures var s' := After(s, UnshareFiles(t, false, id)); s'.refs == s.refs && Unsharer(s', t, 6) && s'.pc[t].failed
  {
    InvBasic(s);
    SharedIsMore(s, Me(t, FilesF));
    hide Inv, Sound, EmbryoOk, TaskOk, UnshareOk, AfterClone, Basic, Counted, Sole, Make;
  }

  /** The rest of the call decides whether the copies are swapped in or given up. */
  lemma RestDecides(s: State, t: nat, ok: bool)
    requires Sound(s) && Enabled(s, UnshareRest(t, ok))
    ensures var s' := After(s, UnshareRest(t, ok));
      s'.refs == s.refs && if ok then Unsharer(s', t, 3) && s'.pc[t].failed == s.pc[t].failed else Unsharer(s', t, 5) && s'.pc[t].failed
  {
    hide Sound, EmbryoOk, TaskOk, UnshareOk, AfterClone, Basic, Counted;
  }

  lemma SharedIsMore(s: State, sl: Slot)
    requires Basic(s)
    ensures sl in s.refs.holds ==> s.refs.holds[sl] in s.refs.count
    ensures sl in s.refs.holds && !Sole(s.refs, sl) ==> s.refs.count[s.refs.holds[sl]] > 1
  {
    if sl in s.refs.holds {
      HeldIsCounted(s.refs, sl);
      var o := s.refs.holds[sl];
      if !Sole(s.refs, sl) {
        var x :| x in s.refs.holds && x != sl && s.refs.holds[x] == o;
        TwoHolders(s.refs, o, sl, x);
      }
    }
  }

  lemma TwoHolders(r: Refs, o: Obj, a: Slot, b: Slot)
    requires a != b && a in r.holds && b in r.holds && r.holds[a] == r.holds[b] == o
    ensures |Holders(r, o)| > 1
  {
    assert {a, b} <= Holders(r, o);
    Subset({a, b}, Holders(r, o));
    assert |{a, b}| == 2;
  }

  lemma {:induction false} Subset(x: set<Slot>, y: set<Slot>)
    requires x <= y
    ensures |x| <= |y|
    decreases x
  {
    if x != {} {
      var e :| e in x;
      Subset(x - {e}, y - {e});
    }
  }

  /** The end of the call: the caller has what it had, and the copies and what they replaced are gone. */
  lemma UnshareEnds(s: State, t: nat)
    requires Inv(s) && Sound(s) && Enabled(s, FreeFs(t))
    ensures var s' := After(s, FreeFs(t));
      && t in s'.pc && s'.pc[t] == Run && Me(t, NewFs) !in s'.refs.holds && Me(t, NewFiles) !in s'.refs.holds
      && SlotSame(s, s', Me(t, FsF)) && SlotSame(s, s', Me(t, FilesF))
  {
    assert UnshareOk(s, t);
    hide Inv, Sound, EmbryoOk, TaskOk, AfterClone, Basic, Counted, Sole;
  }

  // ----- Clones that fail -----

  /** Child `c` has been given up, or is being given up: whoever builds it is undoing what was done. */
  ghost predicate GivenUp(s: State, c: nat) {
    c < s.next && c !in s.group && forall u :: Cloner(s, u) && s.pc[u].child == c ==> s.pc[u].failing
  }

  lemma GivenUpStep(s: State, step: Step, c: nat)
    requires Sound(s) && Enabled(s, step) && GivenUp(s, c)
    ensures GivenUp(After(s, step), c)
  {
    if step.BeginClone? || step.Copy? || step.LateFailure? || step.Publish? || step.Undo? {
      if Cloner(s, step.t) { assert EmbryoOk(s, step.t); }
      hide Sound, Basic, Counted, EmbryoOk, UnshareOk, TaskOk, StageOk, Copied, Undone, AfterUnshare;
    } else {
      BuildsNothing(s, step);
      hide Sound, Basic, Counted, EmbryoOk, UnshareOk, TaskOk, StageOk, After;
    }
  }

  /** Steps other than those of clone publish nothing and build nothing. */
  lemma BuildsNothing(s: State, step: Step)
    requires Sound(s) && Enabled(s, step) && !(step.BeginClone? || step.Copy? || step.LateFailure? || step.Publish? || step.Undo?)
    ensures var s' := After(s, step);
      s'.next == s.next && s'.group.Keys <= s.group.Keys && forall u :: Cloner(s', u) ==> Cloner(s, u) && s'.pc[u] == s.pc[u]
  {
    hide Basic, Counted, EmbryoOk, TaskOk, StageOk, AfterClone, FsSwapped, FilesSwapped, Release, Free, Make;
  }

  /** A clone that failed once never publishes its child. */
  lemma {:induction false} GivenUpForGood(s: State, run: seq<Step>, s': State, c: nat)
    requires Inv(s) && Reaches(s, run, s') && GivenUp(s, c)
    ensures c !in s'.group
    decreases |run|
  {
    if run != [] {
      StepKeeps(s, run[0]);
      GivenUpStep(s, run[0], c);
      GivenUpForGood(After(s, run[0]), run[1..], s', c);
    }
  }

  /** Any failure, of a copy or of what comes after them, gives the child up. */
  lemma FailureGivesUp(s: State, step: Step)
    requires Inv(s) && Sound(s) && Enabled(s, step) && (step.LateFailure? || (step.Copy? && !step.ok))
    ensures GivenUp(After(s, step), s.pc[step.t].child) && After(s, step).refs == s.refs
  {
    CloneFacts(s, step.t);
    assert Embryos(s);
    hide Counted, EmbryoOk, UnshareOk, TaskOk, StageOk, Sound, Basic;
  }

  // ----- What can always be done -----

  lemma {:induction false} ReachesMore(s0: State, run: seq<Step>, s: State, step: Step)
    requires Reaches(s0, run, s) && Sound(s) && Enabled(s, step)
    ensures Reaches(s0, run + [step], After(s, step))
    decreases |run|
  {
    hide Sound, Enabled, After;
    if run == [] {
      assert (run + [step])[1..] == [];
    } else {
      ReachesMore(After(s0, run[0]), run[1..], s, step);
      assert (run + [step])[1..] == run[1..] + [step];
    }
  }

  lemma Extends(s0: State, run: seq<Step>, s: State, step: Step) returns (run': seq<Step>, s': State)
    requires Reaches(s0, run, s) && Inv(s) && Sound(s) && Enabled(s, step)
    ensures run' == run + [step] && s' == After(s, step) && Reaches(s0, run', s') && Inv(s') && Sound(s')
  {
    hide Sound, Enabled, After;
    ReachesMore(s0, run, s, step);
    StepKeeps(s, step);
    run', s' := run + [step], After(s, step);
    InvSound(s');
  }

  lemma InvSound(s: State)
    requires Inv(s)
    ensures Sound(s)
  {}

  /** There is always a number that no allocated object has. */
  lemma {:induction false} FreshNumber(os: set<Obj>) returns (n: nat)
    ensures forall o :: o in os ==> o.id < n
    decreases os
  {
    if os == {} {
      n := 0;
    } else {
      var o :| o in os;
      n := FreshNumber(os - {o});
      n := if o.id < n then n else o.id + 1;
    }
  }

  lemma CopyStep(s0: State, run: seq<Step>, s: State, t: nat) returns (run': seq<Step>, s': State)
    requires Reaches(s0, run, s) && Inv(s) && Sound(s) && Cloner(s, t) && !s.pc[t].failing && s.pc[t].stage < STAGES
    ensures Reaches(s0, run', s') && Inv(s') && Sound(s')
    ensures Cloner(s', t) && s'.pc[t] == s.pc[t].(stage := s.pc[t].stage + 1)
  {
    var n := FreshNumber(s.refs.count.Keys);
    hide Inv, Reaches, Sound, Basic, EmbryoOk, Copied, AfterUnshare, Counted;
    run', s' := Extends(s0, run, s, Copy(t, true, n));
  }

  lemma {:induction false} CopiesAll(s0: State, run: seq<Step>, s: State, t: nat) returns (run': seq<Step>, s': State)
    requires Reaches(s0, run, s) && Inv(s) && Sound(s) && Cloner(s, t) && !s.pc[t].failing && s.pc[t].stage <= STAGES
    ensures Reaches(s0, run', s') && Inv(s') && Sound(s') && Cloner(s', t) && s'.pc[t] == s.pc[t].(stage := STAGES)
    decreases STAGES - s.pc[t].stage
  {
    hide Inv, Reaches, Sound, After;
    run', s' := run, s;
    if s.pc[t].stage < STAGES {
      run', s' := CopyStep(s0, run, s, t);
      run', s' := CopiesAll(s0, run', s', t);
    }
  }

  /** A task that is not in a call can clone with any flags that respect what threads and handlers must share. */
  lemma CloneCanComplete(s: State, t: nat, f: Flags) returns (run: seq<Step>, s': State)
    requires Inv(s) && t in s.pc && s.pc[t] == Run && Me(t, FsF) in s.refs.holds
    requires (f.thread ==> f.sighand) && (f.sighand ==> f.vm)
    ensures Reaches(s, run, s') && s.next !in s.group && s.next in s'.group
  {
    run, s' := Begins(s, t, f);
    hide Inv, Reaches, Sound, After, Enabled;
    run, s' := CopiesAll(s, run, s', t);
    run, s' := Publishes(s, run, s', t);
  }

  lemma Begins(s: State, t: nat, f: Flags) returns (run: seq<Step>, s': State)
    requires Inv(s) && t in s.pc && s.pc[t] == Run && Me(t, FsF) in s.refs.holds
    requires (f.thread ==> f.sighand) && (f.sighand ==> f.vm)
    ensures Reaches(s, run, s') && Inv(s') && Sound(s') && Cloner(s', t) && s'.pc[t] == Cloning(s.next, f, 0, false)
    ensures s.next !in s.group
  {
    assert Reaches(s, [], s);
    InvSound(s);
    BeginEffect(s, t, f);
    hide Inv, Reaches, Sound, After, Enabled;
    run, s' := Extends(s, [], s, BeginClone(t, f));
  }

  lemma Publishes(s0: State, run: seq<Step>, s: State, t: nat) returns (run': seq<Step>, s': State)
    requires Reaches(s0, run, s) && Inv(s) && Sound(s) && Cloner(s, t) && !s.pc[t].failing && s.pc[t].stage == STAGES
    ensures Reaches(s0, run', s') && s.pc[t].child in s'.group
  {
    ChildIsNew(s, t);
    PublishEffect(s, t);
    hide Inv, Reaches, Sound, After, EmbryoOk, OnlySignals;
    run', s' := Extends(s0, run, s, Publish(t));
  }

  lemma BeginEffect(s: State, t: nat, f: Flags)
    requires Sound(s) && t in s.pc && s.pc[t] == Run && Me(t, FsF) in s.refs.holds && (f.thread ==> f.sighand) && (f.sighand ==> f.vm)
    ensures Enabled(s, BeginClone(t, f)) && s.next !in s.group
    ensures var s1 := After(s, BeginClone(t, f)); Cloner(s1, t) && s1.pc[t] == Cloning(s.next, f, 0, false)
  {
    hide Counted, EmbryoOk, UnshareOk, TaskOk, AfterUnshare;
  }

  /** Where task `t` is after one part of a call that goes well. */
  ghost predicate Advances(s: State, step: Step, t: nat)
    requires Sound(s) && InUnshare(s, t)
  {
    && Enabled(s, step)
    && var s' := After(s, step);
       InUnshare(s', t) && !s'.pc[t].failed && s'.pc[t].phase == s.pc[t].phase + 1 && s'.pc[t].fs == s.pc[t].fs && s'.pc[t].files == s.pc[t].files
  }

  lemma CopiesAdvance(s: State, t: nat, n: nat)
    requires Sound(s) && InUnshare(s, t) && !s.pc[t].failed && forall o :: o in s.refs.count ==> o.id < n
    ensures s.pc[t].phase == 0 ==> Advances(s, UnshareFs(t, true, n), t)
    ensures s.pc[t].phase == 1 ==> Advances(s, UnshareFiles(t, true, n), t)
    ensures s.pc[t].phase == 2 ==> Advances(s, UnshareRest(t, true), t)
  {
    hide Basic, Counted, EmbryoOk, UnshareOk, TaskOk, AfterClone, Make;
  }

  lemma SwapsAdvance(s: State, t: nat)
    requires Sound(s) && InUnshare(s, t) && !s.pc[t].failed
    ensures s.pc[t].phase == 3 ==> Advances(s, SwapFs(t), t)
    ensures s.pc[t].phase == 4 ==> Advances(s, SwapFiles(t), t)
    ensures s.pc[t].phase == 5 ==> Advances(s, PutFiles(t), t)
  {
    assert UnshareOk(s, t);
    hide Counted, EmbryoOk, TaskOk, AfterClone, FsSwapped, FilesSwapped, Release, Sole;
  }

  lemma UnshareStep(s0: State, run: seq<Step>, s: State, t: nat) returns (run': seq<Step>, s': State)
    requires Reaches(s0, run, s) && Inv(s) && Sound(s) && InUnshare(s, t) && s.pc[t].phase < 6 && !s.pc[t].failed
    ensures Reaches(s0, run', s') && Inv(s') && Sound(s') && InUnshare(s', t) && !s'.pc[t].failed
    ensures s'.pc[t].phase == s.pc[t].phase + 1 && s'.pc[t].fs == s.pc[t].fs && s'.pc[t].files == s.pc[t].files
  {
    hide Inv, Reaches, Sound, After, Enabled;
    var n := FreshNumber(s.refs.count.Keys);
    var k := s.pc[t].phase;
    CopiesAdvance(s, t, n);
    SwapsAdvance(s, t);
    var step := if k == 0 then UnshareFs(t, true, n) else if k == 1 then UnshareFiles(t, true, n) else if k == 2 then UnshareRest(t, true)
                else if k == 3 then SwapFs(t) else if k == 4 then SwapFiles(t) else PutFiles(t);
    run', s' := Extends(s0, run, s, step);
  }

  lemma {:induction false} UnsharesAll(s0: State, run: seq<Step>, s: State, t: nat) returns (run': seq<Step>, s': State)
    requires Reaches(s0, run, s) && Inv(s) && Sound(s) && InUnshare(s, t) && s.pc[t].phase <= 6 && !s.pc[t].failed
    ensures Reaches(s0, run', s') && Inv(s') && Sound(s') && InUnshare(s', t) && !s'.pc[t].failed
    ensures s'.pc[t].phase == 6 && s'.pc[t].fs == s.pc[t].fs && s'.pc[t].files == s.pc[t].files
    decreases 6 - s.pc[t].phase
  {
    hide Inv, Reaches, Sound;
    run', s' := run, s;
    if s.pc[t].phase < 6 {
      run', s' := UnshareStep(s0, run, s, t);
      run', s' := UnsharesAll(s0, run', s', t);
    }
  }

  /** And it can unshare whatever it asks for. */
  lemma UnshareCanComplete(s: State, t: nat, fs: bool, files: bool) returns (run: seq<Step>, s': State)
    requires Inv(s) && t in s.pc && s.pc[t] == Run
    ensures Reaches(s, run, s') && Unsharer(s', t, 6) && !s'.pc[t].failed && s'.pc[t].fs == fs && s'.pc[t].files == files
  {
    assert Reaches(s, [], s);
    InvSound(s);
    var s1;
    run, s1 := Extends(s, [], s, BeginUnshare(t, fs, files));
    assert InUnshare(s1, t) && s1.pc[t] == Unsharing(fs, files, 0, false, None);
    hide Inv, Reaches, Sound, Counted, After;
    run, s' := UnsharesAll(s, run, s1, t);
  }
}
