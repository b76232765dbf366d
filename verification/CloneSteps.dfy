/**
 The steps of `copy_process`, and of a task that leaves its thread group, keep the sharing invariant.
 */
module CloneSteps {
  import opened Options
  import opened References
  import opened Sharing
  import opened SharingFrames
  import opened UnshareSteps

  // ----- Steps of copy_process -----

  lemma CloneFacts(s: State, t: nat)
    requires Inv(s) && Cloner(s, t)
    ensures t in s.group && t < s.next && TaskOk(s, t) && UnshareOk(s, t) && EmbryoOk(s, t) && Counted(s.refs) && Sound(s) && Basic(s)
    ensures var c := s.pc[t].child;
      Apart(s, t, c) && c !in s.group && c !in s.pc && c < s.next && c != t && Me(c, NewFs) !in s.refs.holds && Me(c, NewFiles) !in s.refs.holds
    ensures HandlersShareMemory(s)
  {
    Facts(s, t);
    ChildApart(s, t);
    assert EmbryoOk(s, t);
    var c := s.pc[t].child;
    assert Me(c, NewFs) in s.refs.holds ==> OwnerOk(s, Me(c, NewFs));
    assert Me(c, NewFiles) in s.refs.holds ==> OwnerOk(s, Me(c, NewFiles));
  }

  /** The child of a cloning task owns its slots as an embryo. */
  lemma CloneOwn(s: State, t: nat, c: nat)
    requires t in s.group && Cloner(s, t) && s.pc[t].child == c && TaskOk(s, t) && EmbryoOk(s, t) && UnshareOk(s, t) && c !in s.pc
    requires Me(c, NewFs) !in s.refs.holds && Me(c, NewFiles) !in s.refs.holds
    ensures Own(s, t, c)
  {
    hide TaskOk, UnshareOk;
    assert c !in s.group;
    forall sl: Slot | sl in s.refs.holds && (sl.owner == t || sl.owner == c) ensures OwnerOk(s, sl) {
      assert sl == Me(sl.owner, sl.field);
      assert Embryo(s, c);
    }
    hide EmbryoOk, OwnerOk;
  }

  lemma StageStays(s: State, s': State, t: nat, c: nat, f: Flags, done: bool, done': bool, j: nat, sl: Slot)
    requires StageOk(s, t, c, f, done, j) && done == done' && Touches(s.refs, s'.refs, sl)
    requires sl != Me(c, FieldAt(j)) && sl != Me(t, FieldAt(j))
    requires Me(c, FieldAt(j)) in s.refs.holds && sl in s'.refs.holds ==> s'.refs.holds[sl] != s.refs.holds[Me(c, FieldAt(j))]
    ensures StageOk(s', t, c, f, done', j)
  {
    var x := Me(c, FieldAt(j));
    if x in s.refs.holds && !SharedAt(f, j) {
      SoleStays(s.refs, s'.refs, x);
    }
  }

  lemma KindAt(s: State, c: nat, k: nat, j: nat, o: Obj)
    requires Basic(s) && Me(c, FieldAt(j)) in s.refs.holds && KindOk(FieldAt(k), o)
    requires j != k && j <= 4 && k <= 4
    ensures s.refs.holds[Me(c, FieldAt(j))] != o
  {
    assert KindOk(FieldAt(j), s.refs.holds[Me(c, FieldAt(j))]);
    hide Counted;
  }

  /** Stage `k` of the child is made or undone, and the other stages are as they were. */
  lemma EmbryoTouched(s: State, s': State, t: nat, k: nat)
    requires Basic(s) && Cloner(s, t) && Cloner(s', t) && EmbryoOk(s, t) && k <= 4 && k != 3 && s'.group == s.group && s'.next == s.next
    requires s'.pc[t].child == s.pc[t].child && s'.pc[t].flags == s.pc[t].flags && s.pc[t].child != t
    requires var n, n' := s.pc[t].stage, s'.pc[t].stage; (n == k && n' == k + 1) || (n == k + 1 && n' == k)
    requires var sl := Me(s.pc[t].child, FieldAt(k));
      && Touches(s.refs, s'.refs, sl)
      && (sl in s'.refs.holds ==> KindOk(FieldAt(k), s'.refs.holds[sl]))
      && (sl in s'.refs.holds <==> s'.pc[t].stage == k + 1)
      && StageOk(s', t, s.pc[t].child, s.pc[t].flags, k < s'.pc[t].stage, k)
    ensures EmbryoOk(s', t)
  {
    hide StageOk, Sole, Basic, Counted, KindOk;
    var c, f, n, n' := s.pc[t].child, s.pc[t].flags, s.pc[t].stage, s'.pc[t].stage;
    var sl := Me(c, FieldAt(k));
    forall j: nat | j <= 4 && j != k && Me(c, FieldAt(j)) in s.refs.holds && sl in s'.refs.holds
      ensures s.refs.holds[Me(c, FieldAt(j))] != s'.refs.holds[sl]
    {
      KindAt(s, c, k, j, s'.refs.holds[sl]);
    }
    if k != 0 { StageStays(s, s', t, c, f, 0 < n, 0 < n', 0, sl); }
    if k != 1 { StageStays(s, s', t, c, f, 1 < n, 1 < n', 1, sl); }
    if k != 2 { StageStays(s, s', t, c, f, 2 < n, 2 < n', 2, sl); }
    if k != 4 { StageStays(s, s', t, c, f, 4 < n, 4 < n', 4, sl); }
    if 3 < n && !f.thread {
      assert sl in s'.refs.holds ==> s'.refs.holds[sl] != s.refs.holds[Me(c, SignalF)] by { if sl in s'.refs.holds { KindAt(s, c, k, 3, s'.refs.holds[sl]); } }
      SoleStays(s.refs, s'.refs, Me(c, SignalF));
      NotMember(s, c, k, s'.refs, sl);
      SoleStays(s.refs, s'.refs, Me(c, MemberF));
    }
  }

  lemma NotMember(s: State, c: nat, k: nat, r: Refs, sl: Slot)
    requires Basic(s) && Me(c, MemberF) in s.refs.holds && k <= 4 && k != 3 && (sl in r.holds ==> KindOk(FieldAt(k), r.holds[sl]))
    ensures sl in r.holds ==> r.holds[sl] != s.refs.holds[Me(c, MemberF)]
  {
    assert KindOk(MemberF, s.refs.holds[Me(c, MemberF)]);
    hide Counted;
  }

  /** A stage without an object is passed, one way or the other. */
  lemma EmbryoPassed(s: State, s': State, t: nat, k: nat)
    requires Cloner(s, t) && Cloner(s', t) && EmbryoOk(s, t) && k <= 4 && s'.group == s.group && s'.next == s.next && s'.refs == s.refs
    requires s'.pc[t].child == s.pc[t].child && s'.pc[t].flags == s.pc[t].flags
    requires var n, n' := s.pc[t].stage, s'.pc[t].stage; (n == k && n' == k + 1) || (n == k + 1 && n' == k)
    requires k != 2 && Me(s.pc[t].child, FieldAt(k)) !in s.refs.holds
    requires if k == 3 then s.pc[t].flags.thread else !Present(s, t, s.pc[t].flags, k)
    ensures EmbryoOk(s', t)
  {
    hide Sole;
  }

  /** The child's handlers are the parent's only if its memory is. */
  lemma MemoryCopied(s: State, s': State, t: nat, k: nat)
    requires Cloner(s, t) && EmbryoOk(s, t) && HandlersShareMemory(s) && k <= 4 && k != 3 && s.pc[t].stage == k && s.pc[t].child != t
    requires Touches(s.refs, s'.refs, Me(s.pc[t].child, FieldAt(k)))
    requires k == 4 && s.pc[t].flags.vm ==>
      Me(t, MmF) in s.refs.holds && Me(s.pc[t].child, MmF) in s'.refs.holds && s'.refs.holds[Me(s.pc[t].child, MmF)] == s.refs.holds[Me(t, MmF)]
    requires Me(t, SighandF) in s.refs.holds
    ensures HandlersShareMemory(s')
  {
    var c, f := s.pc[t].child, s.pc[t].flags;
    var h, h' := s.refs.holds, s'.refs.holds;
    forall a: nat, b: nat | Me(a, SighandF) in h' && Me(b, SighandF) in h' && Me(a, MmF) in h' && Me(b, MmF) in h' && h'[Me(a, SighandF)] == h'[Me(b, SighandF)]
      ensures h'[Me(a, MmF)] == h'[Me(b, MmF)]
    {
      if a != b && (a == c || b == c) {
        ChildMemory(s, s', t, if a == c then b else a);
      }
    }
  }

  lemma ChildMemory(s: State, s': State, t: nat, b: nat)
    requires Cloner(s, t) && EmbryoOk(s, t) && HandlersShareMemory(s) && s.pc[t].stage <= 4 && s.pc[t].stage != 3 && s.pc[t].child != t
    requires var k, c := s.pc[t].stage, s.pc[t].child;
      && Touches(s.refs, s'.refs, Me(c, FieldAt(k)))
      && (k == 4 && s.pc[t].flags.vm ==> Me(t, MmF) in s.refs.holds && Me(c, MmF) in s'.refs.holds && s'.refs.holds[Me(c, MmF)] == s.refs.holds[Me(t, MmF)])
    requires Me(t, SighandF) in s.refs.holds && b != s.pc[t].child
    requires var c, h' := s.pc[t].child, s'.refs.holds;
      Me(c, SighandF) in h' && Me(b, SighandF) in h' && Me(c, MmF) in h' && Me(b, MmF) in h' && h'[Me(c, SighandF)] == h'[Me(b, SighandF)]
    ensures s'.refs.holds[Me(s.pc[t].child, MmF)] == s'.refs.holds[Me(b, MmF)]
  {
    var c, f, k := s.pc[t].child, s.pc[t].flags, s.pc[t].stage;
    assert StageOk(s, t, c, f, 4 < k, 4) && StageOk(s, t, c, f, 2 < k, 2);
    assert k == 4;
    assert Me(c, SighandF) in s.refs.holds && Me(b, SighandF) in s.refs.holds && Me(b, MmF) in s.refs.holds;
  }

  lemma CopyKeeps(s: State, s': State, t: nat, k: nat, r': Refs)
    requires Inv(s) && Cloner(s, t) && s.pc[t].stage == k && k <= 4 && k != 3 && Present(s, t, s.pc[t].flags, k)
    requires s' == To(s, t, s.pc[t].(stage := k + 1), r')
    requires var c := s.pc[t].child; var sl := Me(c, FieldAt(k));
      && Touches(s.refs, r', sl) && sl in r'.holds && KindOk(FieldAt(k), r'.holds[sl])
      && Local(s, s', t, c) && ZerosLocal(s, s', t) && Basic(s')
      && (if SharedAt(s.pc[t].flags, k) then Me(t, FieldAt(k)) in s.refs.holds && r'.holds[sl] == s.refs.holds[Me(t, FieldAt(k))] else Sole(r', sl))
    ensures Inv(s')
  {
    hide Inv, Sound, Counted, Apart, Local, ZerosLocal, Basic, TaskOk, Sole, EmbryoOk, UnshareOk, HandlersShareMemory, KindOk, Own, Embryos, GroupsShare;
    CloneFacts(s, t);
    var c := s.pc[t].child;
    assert FieldAt(k) != NewFs && FieldAt(k) != NewFiles && FieldAt(k) != SignalF && FieldAt(k) != MemberF;
    assert StageOk(s', t, c, s.pc[t].flags, true, k) by { assert Me(t, FieldAt(k)) != Me(c, FieldAt(k)); }
    EmbryoTouched(s, s', t, k);
    CopyTaskOk(s, s', t, k);
    CloneOwn(s', t, c);
    MemoryCopied(s, s', t, k) by { assert TaskOk(s, t); assert Me(t, SighandF) in s.refs.holds by { TaskSighand(s, t); } }
    hide StageOk, FieldAt, SharedAt;
    assert QuietGroups(s, s');
    hide Touches;
    EmbryosKept(s, s', t, c);
    GroupsKept(s, s');
    Assemble(s, s', t, c);
  }

  lemma TaskSighand(s: State, t: nat)
    requires TaskOk(s, t)
    ensures Me(t, SighandF) in s.refs.holds
  {}

  lemma CopyTaskOk(s: State, s': State, t: nat, k: nat)
    requires Cloner(s, t) && Cloner(s', t) && TaskOk(s, t) && UnshareOk(s, t) && s.pc[t].child != t && s'.pc[t].child == s.pc[t].child
    requires Touches(s.refs, s'.refs, Me(s.pc[t].child, FieldAt(k)))
    ensures TaskOk(s', t) && UnshareOk(s', t)
  {}

  lemma CopySharedKeeps(s: State, s': State, t: nat, k: nat)
    requires Inv(s) && Cloner(s, t) && s.pc[t].stage == k && k <= 4 && k != 3 && Present(s, t, s.pc[t].flags, k)
    requires var c := s.pc[t].child; var mine := Me(t, FieldAt(k));
      && SharedAt(s.pc[t].flags, k) && mine in s.refs.holds && s.refs.holds[mine] in s.refs.count
      && s' == To(s, t, s.pc[t].(stage := k + 1), Share(s.refs, Me(c, FieldAt(k)), s.refs.holds[mine]))
    ensures Inv(s')
  {
    hide Inv, Sound, Counted, Apart, TaskOk, Sole, UnshareOk, HandlersShareMemory;
    CloneFacts(s, t);
    var c := s.pc[t].child;
    var sl, mine := Me(c, FieldAt(k)), Me(t, FieldAt(k));
    assert sl !in s.refs.holds;
    assert KindOk(FieldAt(k), s.refs.holds[mine]);
    HeldIsCounted(s.refs, mine);
    SameDoomed(s, s', t);
    hide EmbryoOk, MovesOnly, KindOk, Local, ZerosLocal, Basic;
    ShareLocal(s, s', t, c, sl, mine);
    ShareTouches(s.refs, sl, s.refs.holds[mine]);
    CopyKeeps(s, s', t, k, s'.refs);
  }

  lemma CopyMadeKeeps(s: State, s': State, t: nat, k: nat, id: nat)
    requires Inv(s) && Cloner(s, t) && s.pc[t].stage == k && k <= 4 && k != 3 && Present(s, t, s.pc[t].flags, k) && !SharedAt(s.pc[t].flags, k) && ObjAt(k, id) !in s.refs.count
    requires s' == To(s, t, s.pc[t].(stage := k + 1), Make(s.refs, Me(s.pc[t].child, FieldAt(k)), ObjAt(k, id)))
    ensures Inv(s')
  {
    hide Inv, Sound, Counted, Apart, TaskOk, Sole, UnshareOk, HandlersShareMemory;
    CloneFacts(s, t);
    var sl := Me(s.pc[t].child, FieldAt(k));
    assert sl !in s.refs.holds;
    assert KindOk(FieldAt(k), ObjAt(k, id));
    SameDoomed(s, s', t);
    hide EmbryoOk, MovesOnly, KindOk, Local, ZerosLocal, Basic;
    MakeLocal(s, s', t, s.pc[t].child, sl, ObjAt(k, id));
    MakeTouches(s.refs, sl, ObjAt(k, id));
    CopyKeeps(s, s', t, k, s'.refs);
  }

  /** A stage that has nothing to copy or to undo. */
  lemma PassKeeps(s: State, s': State, t: nat, k: nat)
    requires Inv(s) && Cloner(s, t) && k <= 4 && k != 2 && Me(s.pc[t].child, FieldAt(k)) !in s.refs.holds
    requires if k == 3 then s.pc[t].flags.thread else !Present(s, t, s.pc[t].flags, k)
    requires (s.pc[t].stage == k && s' == To(s, t, s.pc[t].(stage := k + 1), s.refs)) || (s.pc[t].stage == k + 1 && s' == To(s, t, s.pc[t].(stage := k), s.refs))
    ensures Inv(s')
  {
    hide Inv, Sound, Counted, Apart, TaskOk, Sole, EmbryoOk, HandlersShareMemory, Basic;
    CloneFacts(s, t);
    EmbryoPassed(s, s', t, k);
    MoveKeeps(s, s', t);
  }

  lemma UndoReleasedKeeps(s: State, s': State, t: nat, k: nat)
    requires Inv(s) && Cloner(s, t) && s.pc[t].stage == k + 1 && k <= 4 && k != 3
    requires var sl := Me(s.pc[t].child, FieldAt(k));
      && sl in s.refs.holds && s.refs.holds[sl] in s.refs.count && s.refs.count[s.refs.holds[sl]] > 0
      && s' == To(s, t, s.pc[t].(stage := k), Release(s.refs, sl))
    ensures Inv(s')
  {
    hide Inv, Sound, Counted, Apart, TaskOk, Sole, EmbryoOk, UnshareOk, HandlersShareMemory, Basic, KindOk, MovesOnly, Local, ZerosLocal, Own, Release;
    CloneFacts(s, t);
    var c := s.pc[t].child;
    var sl := Me(c, FieldAt(k));
    SameDoomed(s, s', t);
    ReleaseLocal(s, s', t, c, sl);
    ReleaseTouches(s.refs, sl);
    assert FieldAt(k) != NewFs && FieldAt(k) != NewFiles;
    EmbryoTouched(s, s', t, k);
    CopyTaskOk(s, s', t, k);
    CloneOwn(s', t, c);
    hide FieldAt, StageOk;
    QuietDrop(s, s', t, c);
  }

  // ----- Steps that touch two slots -----

  ghost predicate TouchesTwo(r: Refs, r': Refs, a: Slot, b: Slot) {
    && (forall x :: x != a && x != b ==> (x in r'.holds <==> x in r.holds) && (x in r.holds ==> r'.holds[x] == r.holds[x]))
    && (forall o :: o in r.count && r.count[o] == 0 <==> o in r'.count && r'.count[o] == 0)
  }

  lemma TouchesBoth(r: Refs, r1: Refs, r': Refs, a: Slot, b: Slot)
    requires Touches(r, r1, a) && Touches(r1, r', b)
    ensures TouchesTwo(r, r', a, b)
  {}

  /** Only `t` and `c` move, and what `t` is about to free does not change. */
  ghost predicate PairMoves(s: State, s': State, t: nat, c: nat) {
    && s'.next == s.next
    && (forall u {:trigger TaskSame(s, s', u)} :: u != t && u != c ==> TaskSame(s, s', u))
    && (forall o :: Dooms(s', t, o) <==> Dooms(s, t, o))
  }

  lemma TwoSlotLocal(s: State, s': State, t: nat, c: nat, a: Slot, b: Slot)
    requires Sound(s) && PairMoves(s, s', t, c) && TouchesTwo(s.refs, s'.refs, a, b)
    requires (a.owner == t || a.owner == c) && (b.owner == t || b.owner == c) && NoTheft(s, s', t, c, a) && NoTheft(s, s', t, c, b)
    ensures Local(s, s', t, c) && ZerosLocal(s, s', t)
  {
    forall o | Dooms(s, t, o) ensures o in s.refs.count && s.refs.count[o] == 0 { ZeroWhenDoomed(s, t, o); }
    hide EmbryoOk, UnshareOk, TaskOk, Dooms, Basic, Sound;
    forall x: Slot ensures NoTheft(s, s', t, c, x) {}
  }

  lemma BasicTwo(s: State, s': State, t: nat, c: nat, a: Slot, b: Slot)
    requires Sound(s) && Counted(s'.refs) && TouchesTwo(s.refs, s'.refs, a, b) && s'.next == s.next
    requires a in s'.refs.holds ==> a.owner < s.next && KindOk(a.field, s'.refs.holds[a])
    requires b in s'.refs.holds ==> b.owner < s.next && KindOk(b.field, s'.refs.holds[b])
    requires s'.pc.Keys == s'.group.Keys && forall u :: u in s'.group ==> u < s.next && s'.group[u] < s.next
    ensures Basic(s')
  {
    hide EmbryoOk, UnshareOk, TaskOk, Counted;
  }

  // The signal struct of a new process.

  lemma MakeTwo(r: Refs, a: Slot, o: Obj, b: Slot, p: Obj)
    requires Counted(r) && a !in r.holds && b !in r.holds && a != b && o !in r.count && p !in r.count && o != p
    ensures var r' := Make(Make(r, a, o), b, p);
      Counted(r') && TouchesTwo(r, r', a, b) && a in r'.holds && b in r'.holds && Sole(r', a) && Sole(r', b) && r'.holds[a] == o && r'.holds[b] == p
  {
    var r1 := Make(r, a, o);
    MakeCounts(r, a, o);
    MakeCounts(r1, b, p);
    MakeTouches(r, a, o);
    MakeTouches(r1, b, p);
    TouchesBoth(r, r1, Make(r1, b, p), a, b);
    hide Touches, TouchesTwo, Counted;
  }

  lemma StageStaysTwo(s: State, s': State, t: nat, c: nat, f: Flags, done: bool, k: nat)
    requires Basic(s) && StageOk(s, t, c, f, done, k) && k <= 4 && k != 3
    requires TouchesTwo(s.refs, s'.refs, Me(c, SignalF), Me(c, MemberF))
    requires Me(c, SignalF) in s'.refs.holds ==> s'.refs.holds[Me(c, SignalF)].Signal?
    requires Me(c, MemberF) in s'.refs.holds ==> s'.refs.holds[Me(c, MemberF)].Threads?
    ensures StageOk(s', t, c, f, done, k)
  {
    hide Counted;
    var x := Me(c, FieldAt(k));
    if x in s.refs.holds && !SharedAt(f, k) {
      assert KindOk(FieldAt(k), s.refs.holds[x]);
      SoleStays(s.refs, s'.refs, x);
    }
  }

  lemma SignalEmbryo(s: State, s': State, t: nat, id: nat)
    requires Cloner(s, t) && Cloner(s', t) && EmbryoOk(s, t) && s.pc[t].stage == 3 && !s.pc[t].flags.thread && s.pc[t].child != t && Basic(s)
    requires s'.group == s.group && s'.next == s.next && s'.pc[t] == s.pc[t].(stage := 4)
    requires var c, r' := s.pc[t].child, s'.refs;
      && TouchesTwo(s.refs, r', Me(c, SignalF), Me(c, MemberF)) && Me(c, SignalF) in r'.holds && Me(c, MemberF) in r'.holds
      && Sole(r', Me(c, SignalF)) && Sole(r', Me(c, MemberF)) && r'.holds[Me(c, SignalF)] == Signal(id) && r'.holds[Me(c, MemberF)] == Threads(id)
    ensures EmbryoOk(s', t)
  {
    var c, f := s.pc[t].child, s.pc[t].flags;
    hide Counted;
    StageStaysTwo(s, s', t, c, f, true, 0);
    StageStaysTwo(s, s', t, c, f, true, 1);
    StageStaysTwo(s, s', t, c, f, true, 2);
    StageStaysTwo(s, s', t, c, f, false, 4);
    hide StageOk, Basic, Sole, TouchesTwo;
  }

  lemma CopySignalKeeps(s: State, s': State, t: nat, id: nat)
    requires Inv(s) && Cloner(s, t) && s.pc[t].stage == 3 && !s.pc[t].flags.thread && Signal(id) !in s.refs.count && Threads(id) !in s.refs.count
    requires var c := s.pc[t].child; s' == To(s, t, s.pc[t].(stage := 4), Make(Make(s.refs, Me(c, SignalF), Signal(id)), Me(c, MemberF), Threads(id)))
    ensures Inv(s')
  {
    hide Inv, Sound, Counted, Apart, TaskOk, Sole, UnshareOk, HandlersShareMemory, Basic, Local, ZerosLocal, Own, TouchesTwo;
    CloneFacts(s, t);
    var c := s.pc[t].child;
    var a, b := Me(c, SignalF), Me(c, MemberF);
    assert a !in s.refs.holds && b !in s.refs.holds;
    MakeTwo(s.refs, a, Signal(id), b, Threads(id));
    SignalEmbryo(s, s', t, id);
    hide EmbryoOk;
    SameDoomed(s, s', t);
    SignalMoves(s, s', t, c);
    TwoSlotLocal(s, s', t, c, a, b);
    BasicTwo(s, s', t, c, a, b) by { BasicKeys(s); }
    TwoTaskOk(s, s', t, c, a, b);
    hide PairMoves;
    CloneOwn(s', t, c);
    QuietDrop(s, s', t, c);
  }

  lemma BasicKeys(s: State)
    requires Basic(s)
    ensures s.pc.Keys == s.group.Keys && forall u :: u in s.group ==> u < s.next && s.group[u] < s.next
  {}

  lemma SignalMoves(s: State, s': State, t: nat, c: nat)
    requires MovesOnly(s, s', t)
    ensures PairMoves(s, s', t, c)
  {}

  lemma TwoTaskOk(s: State, s': State, t: nat, c: nat, a: Slot, b: Slot)
    requires Cloner(s, t) && Cloner(s', t) && TaskOk(s, t) && UnshareOk(s, t) && c != t && a.owner == c && b.owner == c
    requires TouchesTwo(s.refs, s'.refs, a, b)
    ensures TaskOk(s', t) && UnshareOk(s', t)
  {}

  lemma FreeTwo(r: Refs, a: Slot, b: Slot)
    requires Counted(r) && a in r.holds && b in r.holds && a != b && Sole(r, a) && Sole(r, b)
    ensures b in Free(r, a).holds
    ensures var r' := Free(Free(r, a), b); Counted(r') && TouchesTwo(r, r', a, b) && a !in r'.holds && b !in r'.holds
  {
    var r1 := Free(r, a);
    HeldIsCounted(r, a);
    FreeCounts(r, a);
    FreeTouches(r, a);
    assert Sole(r1, b);
    HeldIsCounted(r1, b);
    FreeCounts(r1, b);
    FreeTouches(r1, b);
    TouchesBoth(r, r1, Free(r1, b), a, b);
    hide Touches, TouchesTwo, Counted, Sole;
  }

  lemma NoSignalEmbryo(s: State, s': State, t: nat)
    requires Cloner(s, t) && Cloner(s', t) && EmbryoOk(s, t) && s.pc[t].stage == 4 && !s.pc[t].flags.thread && s.pc[t].child != t && Basic(s)
    requires s'.group == s.group && s'.next == s.next && s'.pc[t] == s.pc[t].(stage := 3)
    requires var c, r' := s.pc[t].child, s'.refs;
      TouchesTwo(s.refs, r', Me(c, SignalF), Me(c, MemberF)) && Me(c, SignalF) !in r'.holds && Me(c, MemberF) !in r'.holds
    ensures EmbryoOk(s', t)
  {
    var c, f := s.pc[t].child, s.pc[t].flags;
    hide Counted;
    StageStaysTwo(s, s', t, c, f, true, 0);
    StageStaysTwo(s, s', t, c, f, true, 1);
    StageStaysTwo(s, s', t, c, f, true, 2);
    StageStaysTwo(s, s', t, c, f, false, 4);
    hide StageOk, Basic, Sole, TouchesTwo;
  }

  lemma UndoSignalKeeps(s: State, s': State, t: nat)
    requires Inv(s) && Cloner(s, t) && s.pc[t].stage == 4 && !s.pc[t].flags.thread
    requires Me(s.pc[t].child, SignalF) in s.refs.holds && Me(s.pc[t].child, MemberF) in s.refs.holds
    requires var c := s.pc[t].child; s' == To(s, t, s.pc[t].(stage := 3), Free(Free(s.refs, Me(c, SignalF)), Me(c, MemberF)))
    ensures Inv(s')
  {
    hide Inv, Sound, Counted, Apart, TaskOk, Sole, UnshareOk, HandlersShareMemory, Basic, Local, ZerosLocal, Own, TouchesTwo;
    CloneFacts(s, t);
    var c := s.pc[t].child;
    var a, b := Me(c, SignalF), Me(c, MemberF);
    FreeTwo(s.refs, a, b);
    NoSignalEmbryo(s, s', t);
    hide EmbryoOk;
    SameDoomed(s, s', t);
    SignalMoves(s, s', t, c);
    TwoSlotLocal(s, s', t, c, a, b);
    BasicTwo(s, s', t, c, a, b) by { BasicKeys(s); }
    TwoTaskOk(s, s', t, c, a, b);
    assert Me(c, NewFs) !in s'.refs.holds && Me(c, NewFiles) !in s'.refs.holds;
    hide PairMoves, Free;
    CloneOwn(s', t, c);
    QuietFree(s, s', a, b);
    QuietDrop(s, s', t, c);
  }

  lemma QuietFree(s: State, s': State, a: Slot, b: Slot)
    requires s'.group == s.group && TouchesTwo(s.refs, s'.refs, a, b) && a !in s'.refs.holds && b !in s'.refs.holds
    ensures Quiet(s, s')
  {}

  lemma ReleaseTwo(r: Refs, a: Slot, b: Slot)
    requires Counted(r) && a in r.holds && b in r.holds && a != b
    ensures r.holds[a] in r.count && r.count[r.holds[a]] > 0
    ensures var r1 := Release(r, a); b in r1.holds && r1.holds[b] in r1.count && r1.count[r1.holds[b]] > 0
    ensures var r' := Release(Release(r, a), b);
      Counted(r') && TouchesTwo(r, r', a, b) && a !in r'.holds && b !in r'.holds
  {
    ReleaseCounts(r, a);
    var r1 := Release(r, a);
    ReleaseTouches(r, a);
    ReleaseCounts(r1, b);
    ReleaseTouches(r1, b);
    TouchesBoth(r, r1, Release(r1, b), a, b);
    hide Touches, TouchesTwo, Counted;
  }

  lemma UnlinkOwn(s: State, s': State, t: nat)
    requires t in s.group && t in s.pc && s.pc[t].Run? && UnshareOk(s, t)
    requires Me(t, MmF) !in s.refs.holds && Me(t, FilesF) !in s.refs.holds && Me(t, FsF) !in s.refs.holds
    requires TouchesTwo(s.refs, s'.refs, Me(t, SighandF), Me(t, MemberF)) && Me(t, SighandF) !in s'.refs.holds && Me(t, MemberF) !in s'.refs.holds
    requires t !in s'.group && t !in s'.pc
    ensures Own(s', t, t)
  {
    forall f | f != SignalF ensures Me(t, f) !in s'.refs.holds {}
    forall sl: Slot | sl in s'.refs.holds && sl.owner == t ensures OwnerOk(s', sl) {
      assert sl == Me(t, sl.field);
    }
  }

  lemma UnlinkMoves(s: State, s': State, t: nat)
    requires t in s.pc && s.pc[t].Run? && s'.next == s.next && s'.group == s.group - {t} && s'.pc == s.pc - {t}
    ensures PairMoves(s, s', t, t)
  {}

  lemma UnlinkKeeps(s: State, s': State, t: nat)
    requires Inv(s) && t in s.pc && s.pc[t].Run? && Me(t, MmF) !in s.refs.holds && Me(t, FilesF) !in s.refs.holds && Me(t, FsF) !in s.refs.holds
    requires Counted(s.refs) && TaskOk(s, t) && s' == Unlinked(s, t)
    ensures Inv(s')
  {
    hide Inv, Sound, Counted, Apart, Sole, HandlersShareMemory, Basic, Local, ZerosLocal, Own, TouchesTwo, PairMoves;
    Facts(s, t);
    var a, b := Me(t, SighandF), Me(t, MemberF);
    ReleaseTwo(s.refs, a, b);
    assert s' == State(s.next, s.group - {t}, s.pc - {t}, Release(Release(s.refs, a), b));
    UnlinkOwn(s, s', t);
    UnlinkMoves(s, s', t);
    TwoSlotLocal(s, s', t, t, a, b);
    BasicTwo(s, s', t, t, a, b) by { BasicKeys(s) by { SoundBasic(s); } }
    assert Quiet(s, s') by { UnlinkQuiet(s, s', t); }
    hide Release, UnshareOk, TaskOk, Quiet;
    QuietDrop(s, s', t, t);
  }

  lemma SoundBasic(s: State)
    requires Sound(s)
    ensures Basic(s)
  {}

  lemma UnlinkQuiet(s: State, s': State, t: nat)
    requires s'.group == s.group - {t} && TouchesTwo(s.refs, s'.refs, Me(t, SighandF), Me(t, MemberF))
    requires Me(t, SighandF) !in s'.refs.holds && Me(t, MemberF) !in s'.refs.holds
    ensures Quiet(s, s')
  {}

  // ----- The child becomes visible -----

  lemma PublishMoves(s: State, s': State, t: nat, c: nat)
    requires t in s.pc && s.pc[t].Cloning? && s'.next == s.next && s'.pc == s.pc[t := Run][c := Run] && c != t
    requires c in s'.group && s'.group == s.group[c := s'.group[c]]
    ensures PairMoves(s, s', t, c)
  {}

  lemma PublishEmbryos(s: State, s': State, t: nat, c: nat)
    requires Inv(s) && Cloner(s, t) && s.pc[t].child == c && c != t && s'.pc == s.pc[t := Run][c := Run]
    requires c in s'.group && s'.group == s.group[c := s'.group[c]] && (s'.group[c] == c || s'.group[c] == s.group[t]) && t in s.group
    ensures Embryos(s')
  {
    hide EmbryoOk, UnshareOk, OwnerOk, GroupsShare, HandlersShareMemory, DoomedOnce, Counted, TaskOk, Dooms, Basic;
    forall u | Cloner(s', u) ensures Cloner(s, u) && u != t && s'.pc[u] == s.pc[u] && s.pc[u].child != c {
      assert u != t && u != c;
    }
  }

  lemma PublishOwn(s: State, s': State, t: nat, c: nat)
    requires t in s.group && t in s'.group && c in s'.group && t in s'.pc && c in s'.pc && s'.pc[t].Run? && s'.pc[c].Run?
    requires TaskOk(s', t) && TaskOk(s', c)
    requires Me(t, NewFs) !in s'.refs.holds && Me(t, NewFiles) !in s'.refs.holds && Me(c, NewFs) !in s'.refs.holds && Me(c, NewFiles) !in s'.refs.holds
    ensures Own(s', t, c)
  {
    assert UnshareOk(s', t) && UnshareOk(s', c);
    hide TaskOk, UnshareOk;
  }

  /** A new process: its own thread group, with a signal struct that nobody else has. */
  lemma ProcessGroups(s: State, s': State, t: nat, c: nat)
    requires Inv(s) && Cloner(s, t) && s.pc[t].child == c && c !in s.group && Me(c, SignalF) in s.refs.holds && Sole(s.refs, Me(c, SignalF))
    requires s'.refs == s.refs && s'.group == s.group[c := c]
    ensures GroupsShare(s')
  {
    hide EmbryoOk, UnshareOk, OwnerOk, HandlersShareMemory, DoomedOnce, Counted, Dooms, Basic;
    forall b | b in s.group ensures s.group[b] != c && TaskOk(s, b) && s.refs.holds[Me(b, SignalF)] != s.refs.holds[Me(c, SignalF)] {
      assert TaskOk(s, b);
      assert Me(b, SignalF) != Me(c, SignalF);
    }
    forall a | TaskOk(s', a) ensures TaskOk(s, a) {}
  }

  lemma PublishProcessKeeps(s: State, s': State, t: nat)
    requires Inv(s) && Cloner(s, t) && s.pc[t].stage == STAGES && !s.pc[t].flags.thread
    requires var c := s.pc[t].child; s' == s.(group := s.group[c := c], pc := s.pc[t := Run][c := Run])
    ensures Inv(s')
  {
    hide Inv, Sound, Counted, Apart, Sole, HandlersShareMemory, Basic, Local, ZerosLocal, Own, PairMoves, GroupsShare, Embryos;
    CloneFacts(s, t);
    var c := s.pc[t].child;
    assert TaskOk(s', t) && TaskOk(s', c);
    PublishOwn(s, s', t, c);
    PublishMoves(s, s', t, c);
    PublishEmbryos(s, s', t, c);
    ProcessGroups(s, s', t, c);
    hide EmbryoOk, TaskOk, UnshareOk;
    var sl := Me(c, SignalF);
    assert TouchesTwo(s.refs, s'.refs, sl, sl);
    assert NoTheft(s, s', t, c, sl);
    hide TouchesTwo, NoTheft;
    TwoSlotLocal(s, s', t, c, sl, sl);
    PublishBasic(s, s', t, c);
    assert HandlersShareMemory(s') by { MemoryKept(s, s'); }
    Assemble(s, s', t, c);
  }

  lemma PublishBasic(s: State, s': State, t: nat, c: nat)
    requires Basic(s) && t in s.pc && s'.refs == s.refs && s'.next == s.next && c < s.next
    requires s'.pc == s.pc[t := Run][c := Run] && s'.group == s.group[c := c]
    ensures Basic(s')
  {
    hide Counted;
  }

  lemma ShareTwo(r: Refs, a: Slot, y: Slot, b: Slot, z: Slot)
    requires Counted(r) && a !in r.holds && b !in r.holds && a != b && y in r.holds && z in r.holds
    ensures r.holds[y] in r.count && r.holds[z] in r.count && r.holds[z] in Share(r, a, r.holds[y]).count
    ensures var r' := Share(Share(r, a, r.holds[y]), b, r.holds[z]);
      && Counted(r') && TouchesTwo(r, r', a, b)
      && a in r'.holds && b in r'.holds && r'.holds[a] == r.holds[y] && r'.holds[b] == r.holds[z]
  {
    HeldIsCounted(r, y);
    HeldIsCounted(r, z);
    var r1 := Share(r, a, r.holds[y]);
    ShareCounts(r, a, r.holds[y]);
    ShareTouches(r, a, r.holds[y]);
    ShareCounts(r1, b, r.holds[z]);
    ShareTouches(r1, b, r.holds[z]);
    TouchesBoth(r, r1, Share(r1, b, r.holds[z]), a, b);
    hide Touches, TouchesTwo, Counted;
  }

  /** A new thread: the group, the signal struct and the handlers of its parent. */
  lemma ThreadGroups(s: State, s': State, t: nat, c: nat)
    requires Inv(s) && t in s.group && c !in s.group && c != t && s'.group == s.group[c := s.group[t]] && TaskOk(s, t)
    requires TouchesTwo(s.refs, s'.refs, Me(c, SignalF), Me(c, MemberF))
    requires Me(c, SignalF) in s'.refs.holds && s'.refs.holds[Me(c, SignalF)] == s.refs.holds[Me(t, SignalF)]
    requires Me(c, SighandF) in s.refs.holds && s.refs.holds[Me(c, SighandF)] == s.refs.holds[Me(t, SighandF)]
    ensures GroupsShare(s')
  {
    hide EmbryoOk, UnshareOk, OwnerOk, HandlersShareMemory, DoomedOnce, Counted, Dooms, Basic, Embryos;
    forall a, b | a in s'.group && b in s'.group && TaskOk(s', a) && TaskOk(s', b)
      ensures var h := s'.refs.holds;
        && (s'.group[a] == s'.group[b] <==> h[Me(a, SignalF)] == h[Me(b, SignalF)])
        && (s'.group[a] == s'.group[b] ==> h[Me(a, SighandF)] == h[Me(b, SighandF)])
    {
      var a0, b0 := if a == c then t else a, if b == c then t else b;
      assert TaskOk(s, a0) && TaskOk(s, b0);
    }
  }

  lemma ThreadTasks(s: State, s': State, t: nat, c: nat)
    requires TaskOk(s, t) && c != t && TouchesTwo(s.refs, s'.refs, Me(c, SignalF), Me(c, MemberF)) && Me(c, SighandF) in s.refs.holds
    requires Me(c, SignalF) in s'.refs.holds && s'.refs.holds[Me(c, SignalF)] == s.refs.holds[Me(t, SignalF)]
    requires Me(c, MemberF) in s'.refs.holds && s'.refs.holds[Me(c, MemberF)] == s.refs.holds[Me(t, MemberF)]
    ensures TaskOk(s', t) && TaskOk(s', c)
  {}

  lemma ThreadQuiet(s: State, s': State, c: nat)
    requires TouchesTwo(s.refs, s'.refs, Me(c, SignalF), Me(c, MemberF))
    ensures QuietMemory(s, s')
    ensures forall u, f :: (f == NewFs || f == NewFiles) ==> (Me(u, f) in s'.refs.holds <==> Me(u, f) in s.refs.holds)
  {}

  lemma PublishThreadKeeps(s: State, s': State, t: nat)
    requires Inv(s) && Cloner(s, t) && s.pc[t].stage == STAGES && s.pc[t].flags.thread && t in s.group && TaskOk(s, t) && Counted(s.refs)
    requires s' == Published(s, t)
    ensures Inv(s')
  {
    hide Inv, Sound, Counted, Apart, Sole, HandlersShareMemory, Basic, Local, ZerosLocal, Own, PairMoves, GroupsShare, Embryos, TouchesTwo;
    CloneFacts(s, t);
    var c := s.pc[t].child;
    var a, b, y, z := Me(c, SignalF), Me(c, MemberF), Me(t, SignalF), Me(t, MemberF);
    assert a !in s.refs.holds && b !in s.refs.holds && Me(c, SighandF) in s.refs.holds;
    assert s.refs.holds[Me(c, SighandF)] == s.refs.holds[Me(t, SighandF)];
    assert Me(t, NewFs) !in s.refs.holds && Me(t, NewFiles) !in s.refs.holds;
    ShareTwo(s.refs, a, y, b, z);
    ThreadQuiet(s, s', c);
    ThreadTasks(s, s', t, c);
    ThreadGroups(s, s', t, c);
    PublishMoves(s, s', t, c);
    PublishEmbryos(s, s', t, c);
    hide EmbryoOk, UnshareOk;
    assert NoTheft(s, s', t, c, a) && NoTheft(s, s', t, c, b) by {
      assert y in s.refs.holds && z in s.refs.holds;
    }
    hide NoTheft;
    TwoSlotLocal(s, s', t, c, a, b);
    assert Basic(s') by { ThreadBasic(s, s', t, c, a, b); }
    PublishOwn(s, s', t, c);
    hide TaskOk, QuietMemory;
    MemoryKept(s, s');
    Assemble(s, s', t, c);
  }

  lemma ThreadBasic(s: State, s': State, t: nat, c: nat, a: Slot, b: Slot)
    requires Sound(s) && Counted(s'.refs) && TouchesTwo(s.refs, s'.refs, a, b) && s'.next == s.next && a.owner == b.owner == c && c < s.next
    requires a.field == SignalF && b.field == MemberF && t in s.group && t in s.pc && TaskOk(s, t)
    requires a in s'.refs.holds && b in s'.refs.holds
    requires s'.refs.holds[a] == s.refs.holds[Me(t, SignalF)] && s'.refs.holds[b] == s.refs.holds[Me(t, MemberF)]
    requires s'.group == s.group[c := s.group[t]] && s'.pc == s.pc[t := Run][c := Run]
    ensures Basic(s')
  {
    hide Counted, EmbryoOk, UnshareOk;
    BasicTwo(s, s', t, c, a, b);
  }
}
