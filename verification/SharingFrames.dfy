/**
 What a step of one task leaves alone in the sharing machine, and the steps that take or drop one reference.
 */
module SharingFrames {
  import opened Options
  import opened References
  import opened Sharing

  // ----- What a step of one task leaves alone -----

  ghost predicate SlotSame(s: State, s': State, sl: Slot) {
    (sl in s'.refs.holds <==> sl in s.refs.holds) && (sl in s.refs.holds ==> s'.refs.holds[sl] == s.refs.holds[sl])
  }

  /** What `x` holds afterwards was held by `t` or `c` before, or is new. */
  ghost predicate NoTheft(s: State, s': State, t: nat, c: nat, x: Slot) {
    x in s'.refs.holds && (x.owner == t || x.owner == c) ==>
      || s'.refs.holds[x] !in s.refs.count
      || exists y :: y in s.refs.holds && (y.owner == t || y.owner == c) && s.refs.holds[y] == s'.refs.holds[x]
  }

  ghost predicate TaskSame(s: State, s': State, u: nat) {
    && (u in s'.pc <==> u in s.pc) && (u in s.pc ==> s'.pc[u] == s.pc[u])
    && (u in s'.group <==> u in s.group) && (u in s.group ==> s'.group[u] == s.group[u])
  }

  /** Only task `t`, its child `c`, and what they hold has changed. */
  ghost predicate Local(s: State, s': State, t: nat, c: nat) {
    && s.next <= s'.next
    && (forall u {:trigger TaskSame(s, s', u)} :: u != t && u != c ==> TaskSame(s, s', u))
    && (forall sl: Slot {:trigger SlotSame(s, s', sl)} :: sl.owner != t && sl.owner != c ==> SlotSame(s, s', sl))
    && (forall x: Slot {:trigger NoTheft(s, s', t, c, x)} :: NoTheft(s, s', t, c, x))
    && (forall o {:trigger Dooms(s, t, o)} :: o in s.refs.count && s.refs.count[o] == 0 && !Dooms(s, t, o) ==> o in s'.refs.count && s'.refs.count[o] == 0)
  }

  lemma SoleKept(s: State, s': State, t: nat, c: nat, sl: Slot)
    requires Basic(s) && Local(s, s', t, c) && sl in s.refs.holds && sl.owner != t && sl.owner != c && Sole(s.refs, sl)
    ensures sl in s'.refs.holds && Sole(s'.refs, sl)
  {
    assert SlotSame(s, s', sl);
    forall x | x in s'.refs.holds && s'.refs.holds[x] == s'.refs.holds[sl] ensures x == sl {
      assert NoTheft(s, s', t, c, x);
      assert SlotSame(s, s', x) || x.owner == t || x.owner == c;
    }
  }

  lemma TaskKept(s: State, s': State, t: nat, c: nat, u: nat)
    requires Sound(s) && Local(s, s', t, c) && u != t && u != c && u in s.group
    ensures TaskOk(s', u)
  {
    assert TaskOk(s, u);
    assert SlotSame(s, s', Me(u, SignalF)) && SlotSame(s, s', Me(u, MemberF)) && SlotSame(s, s', Me(u, SighandF));
  }

  lemma StageKept(s: State, s': State, t: nat, c: nat, u: nat, d: nat, f: Flags, done: bool, k: nat)
    requires Basic(s) && Local(s, s', t, c) && u != t && u != c && d != t && d != c && StageOk(s, u, d, f, done, k)
    ensures StageOk(s', u, d, f, done, k)
  {
    var sl := Me(d, FieldAt(k));
    assert SlotSame(s, s', sl) && SlotSame(s, s', Me(u, FieldAt(k)));
    if sl in s.refs.holds && !SharedAt(f, k) {
      SoleKept(s, s', t, c, sl);
    }
  }

  lemma EmbryoKept(s: State, s': State, t: nat, c: nat, u: nat)
    requires Sound(s) && Local(s, s', t, c) && u != t && u != c && Cloner(s, u)
    requires s.pc[u].child != t && s.pc[u].child != c
    ensures Cloner(s', u) && s'.pc[u] == s.pc[u] && EmbryoOk(s', u)
  {
    assert TaskSame(s, s', u) && EmbryoOk(s, u);
    var d, f, n := s.pc[u].child, s.pc[u].flags, s.pc[u].stage;
    assert TaskSame(s, s', d);
    StageKept(s, s', t, c, u, d, f, 0 < n, 0);
    StageKept(s, s', t, c, u, d, f, 1 < n, 1);
    StageKept(s, s', t, c, u, d, f, 2 < n, 2);
    StageKept(s, s', t, c, u, d, f, 4 < n, 4);
    assert SlotSame(s, s', Me(d, SighandF)) && SlotSame(s, s', Me(d, SignalF)) && SlotSame(s, s', Me(d, MemberF));
    if Me(d, SignalF) in s.refs.holds {
      SoleKept(s, s', t, c, Me(d, SignalF));
      SoleKept(s, s', t, c, Me(d, MemberF));
    }
    hide StageOk, Local, Sole, Basic, Sound;
  }

  lemma UnshareKept(s: State, s': State, t: nat, c: nat, u: nat)
    requires Sound(s) && DoomedOnce(s) && Local(s, s', t, c) && u != t && u != c && u in s.pc
    ensures u in s'.pc && UnshareOk(s', u)
  {
    assert TaskSame(s, s', u) && UnshareOk(s, u);
    assert SlotSame(s, s', Me(u, NewFs)) && SlotSame(s, s', Me(u, NewFiles)) && SlotSame(s, s', Me(u, FsF)) && SlotSame(s, s', Me(u, FilesF));
    forall f | Me(u, f) in s.refs.holds && Sole(s.refs, Me(u, f)) ensures Me(u, f) in s'.refs.holds && Sole(s'.refs, Me(u, f)) {
      SoleKept(s, s', t, c, Me(u, f));
    }
    if s.pc[u].Unsharing? && s.pc[u].doomed.Some? {
      var o := Fs(s.pc[u].doomed.value);
      assert Dooms(s, u, o) && !Dooms(s, t, o);
    }
  }

  /** No other task is building `t` or `c`. */
  ghost predicate Apart(s: State, t: nat, c: nat) {
    forall u :: Cloner(s, u) && u != t && u != c ==> s.pc[u].child != t && s.pc[u].child != c
  }

  /** The parts of the invariant that speak of `t` and its child `c` only. */
  ghost predicate Own(s: State, t: nat, c: nat) {
    && (t in s.group ==> TaskOk(s, t))
    && (c in s.group ==> TaskOk(s, c))
    && (Cloner(s, t) ==> EmbryoOk(s, t))
    && (Cloner(s, c) ==> EmbryoOk(s, c))
    && (t in s.pc ==> UnshareOk(s, t))
    && (c in s.pc ==> UnshareOk(s, c))
    && (forall sl: Slot {:trigger OwnerOk(s, sl)} :: sl in s.refs.holds && (sl.owner == t || sl.owner == c) ==> OwnerOk(s, sl))
  }

  lemma SoundKept(s: State, s': State, t: nat, c: nat)
    requires Inv(s) && Local(s, s', t, c) && Apart(s, t, c) && Basic(s') && Own(s', t, c)
    ensures Sound(s')
  {
    forall u | u in s'.group ensures TaskOk(s', u) {
      assert TaskSame(s, s', u) || u == t || u == c;
      if u != t && u != c { TaskKept(s, s', t, c, u); }
    }
    forall u | Cloner(s', u) ensures EmbryoOk(s', u) {
      assert TaskSame(s, s', u) || u == t || u == c;
      if u != t && u != c { EmbryoKept(s, s', t, c, u); }
    }
    forall u | u in s'.pc ensures UnshareOk(s', u) {
      assert TaskSame(s, s', u) || u == t || u == c;
      if u != t && u != c { UnshareKept(s, s', t, c, u); }
    }
  }

  lemma OwnersKept(s: State, s': State, t: nat, c: nat)
    requires Inv(s) && Local(s, s', t, c) && Own(s', t, c)
    requires Cloner(s, t) ==> s.pc[t].child == c
    requires Cloner(s, c) ==> c == t
    ensures forall sl {:trigger OwnerOk(s', sl)} :: sl in s'.refs.holds ==> OwnerOk(s', sl)
  {
    forall sl | sl in s'.refs.holds ensures OwnerOk(s', sl) {
      if sl.owner != t && sl.owner != c {
        assert SlotSame(s, s', sl) && OwnerOk(s, sl) && TaskSame(s, s', sl.owner);
        if Embryo(s, sl.owner) {
          var u :| Cloner(s, u) && s.pc[u].child == sl.owner;
          assert TaskSame(s, s', u);
          assert Cloner(s', u);
        }
      }
    }
  }

  /** Objects without holders: the same as before, but for one that `t` may add or free. */
  ghost predicate ZerosLocal(s: State, s': State, t: nat) {
    && (forall o {:trigger Dooms(s', t, o)} :: o in s'.refs.count && s'.refs.count[o] == 0 ==>
          Dooms(s', t, o) || (o in s.refs.count && s.refs.count[o] == 0 && !Dooms(s, t, o)))
    && (forall o {:trigger Dooms(s', t, o)} :: Dooms(s', t, o) && !Dooms(s, t, o) ==> !(o in s.refs.count && s.refs.count[o] == 0))
  }

  lemma DoomedKept(s: State, s': State, t: nat, c: nat)
    requires Inv(s) && Local(s, s', t, c) && ZerosLocal(s, s', t)
    requires c != t ==> (c in s.pc ==> !s.pc[c].Unsharing?) && (c in s'.pc ==> !s'.pc[c].Unsharing?)
    ensures DoomedOnce(s')
  {
    forall u, o | u != t ensures Dooms(s', u, o) <==> Dooms(s, u, o) {
      assert TaskSame(s, s', u) || u == c;
    }
    forall u, v, o | Dooms(s', u, o) && Dooms(s', v, o) ensures u == v {
      if u == t && v != t {
        ZeroWhenDoomed(s, v, o);
      } else if v == t && u != t {
        ZeroWhenDoomed(s, u, o);
      }
    }
    forall o | o in s'.refs.count && s'.refs.count[o] == 0 ensures exists u :: Dooms(s', u, o) {
      if !Dooms(s', t, o) {
        var u :| Dooms(s, u, o);
        assert u != t && Dooms(s', u, o);
      }
    }
  }

  lemma ZeroWhenDoomed(s: State, u: nat, o: Obj)
    requires Sound(s) && Dooms(s, u, o)
    ensures o in s.refs.count && s.refs.count[o] == 0
  {
    assert UnshareOk(s, u);
  }

  /** The children under construction are as before, but that `t` may have stopped building `c`. */
  lemma EmbryosKept(s: State, s': State, t: nat, c: nat)
    requires Inv(s) && Local(s, s', t, c) && (Cloner(s', t) ==> Cloner(s, t) && s'.pc[t].child == s.pc[t].child)
    requires c != t ==> !Cloner(s', c)
    requires forall u :: u in s'.group ==> u in s.group && s'.group[u] == s.group[u]
    ensures Embryos(s')
  {
    forall u | Cloner(s', u) ensures Cloner(s, u) && s'.pc[u].child == s.pc[u].child {
      assert TaskSame(s, s', u) || u == t || u == c;
    }
  }

  /** Visible tasks have the thread group, signal struct and handlers they had. */
  ghost predicate QuietGroups(s: State, s': State) {
    && (forall u :: u in s'.group ==> u in s.group && s'.group[u] == s.group[u])
    && (forall sl: Slot :: sl in s'.refs.holds && sl.owner in s'.group && (sl.field == SighandF || sl.field == SignalF) ==>
          sl in s.refs.holds && s'.refs.holds[sl] == s.refs.holds[sl])
  }

  /** Handlers and memory are as before, or less. */
  ghost predicate QuietMemory(s: State, s': State) {
    forall sl: Slot :: sl in s'.refs.holds && (sl.field == SighandF || sl.field == MmF) ==>
      sl in s.refs.holds && s'.refs.holds[sl] == s.refs.holds[sl]
  }

  ghost predicate Quiet(s: State, s': State) { QuietGroups(s, s') && QuietMemory(s, s') }

  lemma GroupsKept(s: State, s': State)
    requires Inv(s) && QuietGroups(s, s')
    ensures GroupsShare(s')
  {
    hide EmbryoOk, UnshareOk, OwnerOk, Embryos, HandlersShareMemory, DoomedOnce, Counted;
    forall a, b | a in s'.group && b in s'.group && TaskOk(s', a) && TaskOk(s', b)
      ensures var h := s'.refs.holds;
        && (s'.group[a] == s'.group[b] <==> h[Me(a, SignalF)] == h[Me(b, SignalF)])
        && (s'.group[a] == s'.group[b] ==> h[Me(a, SighandF)] == h[Me(b, SighandF)])
    {
      assert TaskOk(s, a) && TaskOk(s, b);
    }
  }

  lemma MemoryKept(s: State, s': State)
    requires HandlersShareMemory(s) && QuietMemory(s, s')
    ensures HandlersShareMemory(s')
  {}

  // ----- Every step keeps the invariant -----

  lemma Assemble(s: State, s': State, t: nat, c: nat)
    requires Inv(s) && Local(s, s', t, c) && Apart(s, t, c) && Basic(s') && Own(s', t, c) && ZerosLocal(s, s', t)
    requires Cloner(s, t) ==> s.pc[t].child == c
    requires Cloner(s, c) ==> c == t
    requires c != t ==> (c in s.pc ==> !s.pc[c].Unsharing?) && (c in s'.pc ==> !s'.pc[c].Unsharing?)
    requires Embryos(s') && GroupsShare(s') && HandlersShareMemory(s')
    ensures Inv(s')
  {
    hide EmbryoOk, UnshareOk, OwnerOk, Embryos, GroupsShare, HandlersShareMemory, DoomedOnce, Counted, TaskOk, Dooms, Local, Own,
      ZerosLocal, Basic, Sound, Apart;
    SoundKept(s, s', t, c);
    OwnersKept(s, s', t, c);
    DoomedKept(s, s', t, c);
  }

  lemma MoveLocal(s: State, s': State, t: nat, c: nat)
    requires Sound(s) && t in s.pc && t in s'.pc && s' == s.(pc := s.pc[t := s'.pc[t]])
    requires forall o :: Dooms(s', t, o) <==> Dooms(s, t, o)
    ensures Local(s, s', t, c) && ZerosLocal(s, s', t) && Quiet(s, s') && Basic(s')
  {
    forall o | Dooms(s, t, o) ensures o in s.refs.count && s.refs.count[o] == 0 { ZeroWhenDoomed(s, t, o); }
    hide EmbryoOk, UnshareOk, Counted, TaskOk, Dooms;
    forall x: Slot ensures NoTheft(s, s', t, c, x) {}
  }

  /** A step that changes nothing but where `t` is, and builds no child that was not being built. */
  lemma MoveKeeps(s: State, s': State, t: nat)
    requires Inv(s) && t in s.pc && t in s'.pc && s' == s.(pc := s.pc[t := s'.pc[t]])
    requires s'.pc[t].Cloning? ==> s.pc[t].Cloning? && s'.pc[t].child == s.pc[t].child && EmbryoOk(s', t)
    requires s.pc[t].Cloning? && !s'.pc[t].Cloning? ==> s.pc[t].stage == 0
    requires UnshareOk(s', t)
    requires forall o :: Dooms(s', t, o) <==> Dooms(s, t, o)
    ensures Inv(s')
  {
    var c := if s.pc[t].Cloning? then s.pc[t].child else t;
    assert TaskOk(s, t) && TaskOk(s', t);
    ChildApart(s, t);
    EmbryoSlots(s, s', t, c);
    MoveLocal(s, s', t, c);
    EmbryosKept(s, s', t, c);
    GroupsKept(s, s');
    MemoryKept(s, s');
    hide EmbryoOk, UnshareOk, OwnerOk, Embryos, GroupsShare, HandlersShareMemory, DoomedOnce, Counted, TaskOk, Dooms, Local, ZerosLocal, Quiet, Apart;
    Assemble(s, s', t, c);
  }

  /** The child of `t`, if any, is nobody's and is not visible. */
  lemma ChildApart(s: State, t: nat)
    requires Inv(s) && t in s.pc
    ensures var c := if s.pc[t].Cloning? then s.pc[t].child else t;
      Apart(s, t, c) && (s.pc[t].Cloning? ==> c !in s.group && c !in s.pc && c < s.next && c != t)
  {
    if s.pc[t].Cloning? {
      assert EmbryoOk(s, t);
    }
    forall u | Cloner(s, u) && u != t ensures s.pc[u].child != t {
      assert EmbryoOk(s, u);
    }
  }

  /** When nothing is held differently, the slots of `t` and of its child have owners as before. */
  lemma EmbryoSlots(s: State, s': State, t: nat, c: nat)
    requires Inv(s) && t in s.pc && t in s'.pc && s' == s.(pc := s.pc[t := s'.pc[t]])
    requires c == if s.pc[t].Cloning? then s.pc[t].child else t
    requires s'.pc[t].Cloning? ==> s.pc[t].Cloning? && s'.pc[t].child == s.pc[t].child
    requires s.pc[t].Cloning? && !s'.pc[t].Cloning? ==> s.pc[t].stage == 0
    ensures forall sl: Slot {:trigger OwnerOk(s', sl)} :: sl in s'.refs.holds && (sl.owner == t || sl.owner == c) ==> OwnerOk(s', sl)
  {
    forall sl: Slot | sl in s'.refs.holds && (sl.owner == t || sl.owner == c) ensures OwnerOk(s', sl) {
      assert OwnerOk(s, sl);
      if sl.owner == c && c != t {
        assert EmbryoOk(s, t);
        if s'.pc[t].Cloning? {
          assert Cloner(s', t) && s'.pc[t].child == c;
          OnlyBuilder(s, t, c);
        } else {
          NothingYet(s, t, sl);
        }
      }
    }
  }

  lemma OnlyBuilder(s: State, t: nat, c: nat)
    requires Inv(s) && Cloner(s, t) && s.pc[t].child == c
    ensures c !in s.group && Embryo(s, c)
  {
    assert EmbryoOk(s, t);
  }

  lemma NothingYet(s: State, t: nat, sl: Slot)
    requires Inv(s) && Cloner(s, t) && s.pc[t].stage == 0 && sl.owner == s.pc[t].child
    ensures sl !in s.refs.holds
  {
    assert EmbryoOk(s, t);
    assert sl in s.refs.holds ==> OwnerOk(s, sl);
    assert FieldAt(0) == FilesF && FieldAt(1) == FsF && FieldAt(2) == SighandF && FieldAt(4) == MmF;
    assert StageOk(s, t, sl.owner, s.pc[t].flags, false, 0);
    assert sl == Me(sl.owner, sl.field);
  }

  lemma BeginCloneOwn(s: State, s': State, t: nat, flags: Flags)
    requires Inv(s) && t in s.pc && s.pc[t].Run? && Accepted(flags)
    requires s' == To(s, t, Cloning(s.next, flags, 0, false), s.refs).(next := s.next + 1)
    ensures Own(s', t, s.next) && Basic(s')
  {
    assert TaskOk(s, t) && UnshareOk(s, t);
    hide Embryos, GroupsShare, HandlersShareMemory, DoomedOnce, Counted;
    assert forall f :: Me(s.next, f) !in s.refs.holds;
    assert TaskOk(s', t) && UnshareOk(s', t);
    assert EmbryoOk(s', t);
    forall sl: Slot | sl in s'.refs.holds && (sl.owner == t || sl.owner == s.next) ensures OwnerOk(s', sl) {}
  }

  lemma BeginCloneEmbryos(s: State, s': State, t: nat, flags: Flags)
    requires Inv(s) && t in s.pc && s.pc[t].Run?
    requires s' == To(s, t, Cloning(s.next, flags, 0, false), s.refs).(next := s.next + 1)
    ensures Embryos(s') && Apart(s, t, s.next)
  {
    forall u | Cloner(s, u) ensures s.pc[u].child < s.next && s.pc[u].child !in s.group { assert EmbryoOk(s, u); }
    hide EmbryoOk, UnshareOk, OwnerOk, GroupsShare, HandlersShareMemory, DoomedOnce, Counted, TaskOk, Dooms;
    forall u | Cloner(s', u) && u != t ensures Cloner(s, u) && s'.pc[u] == s.pc[u] {}
  }

  lemma BeginCloneLocal(s: State, s': State, t: nat, flags: Flags)
    requires Inv(s) && t in s.pc && s.pc[t].Run?
    requires s' == To(s, t, Cloning(s.next, flags, 0, false), s.refs).(next := s.next + 1)
    ensures Local(s, s', t, s.next) && ZerosLocal(s, s', t) && Quiet(s, s')
  {
    assert forall o :: !Dooms(s, t, o) && !Dooms(s', t, o);
    hide EmbryoOk, UnshareOk, OwnerOk, GroupsShare, HandlersShareMemory, DoomedOnce, Counted, TaskOk, Dooms, Embryos;
    forall x: Slot ensures NoTheft(s, s', t, s.next, x) {}
  }

  lemma BeginCloneKeeps(s: State, step: Step)
    requires Inv(s) && step.BeginClone? && Enabled(s, step)
    ensures Inv(After(s, step))
  {
    var s' := After(s, step);
    BeginCloneOwn(s, s', step.t, step.flags);
    BeginCloneEmbryos(s, s', step.t, step.flags);
    BeginCloneLocal(s, s', step.t, step.flags);
    GroupsKept(s, s');
    MemoryKept(s, s');
    hide EmbryoOk, UnshareOk, OwnerOk, Embryos, GroupsShare, HandlersShareMemory, DoomedOnce, Counted, TaskOk, Dooms, Local, Quiet, Own,
      ZerosLocal, Apart;
    Assemble(s, s', step.t, s.next);
  }

  lemma FailureKeeps(s: State, step: Step)
    requires Inv(s) && Enabled(s, step) && (step.LateFailure? || (step.Copy? && !step.ok))
    ensures Inv(After(s, step))
  {
    var s', t := After(s, step), step.t;
    assert EmbryoOk(s, t) && UnshareOk(s, t);
    var n, c, f := s.pc[t].stage, s.pc[t].child, s.pc[t].flags;
    assert EmbryoOk(s', t) by {
      assert forall k, done :: StageOk(s, t, c, f, done, k) <==> StageOk(s', t, c, f, done, k);
      hide StageOk, TaskOk, UnshareOk, OwnerOk;
    }
    MoveKeeps(s, s', t);
  }

  lemma UndoneAllKeeps(s: State, step: Step)
    requires Inv(s) && Enabled(s, step) && step.Undo? && s.pc[step.t].stage == 0
    ensures Inv(After(s, step))
  {
    var s', t := After(s, step), step.t;
    assert EmbryoOk(s, t) && UnshareOk(s, t);
    MoveKeeps(s, s', t);
  }

  /** A step of `unshare` that holds nothing more or less than before. */
  lemma UnshareMoves(s: State, s': State, t: nat, pc: Pc)
    requires Inv(s) && t in s.pc && !s.pc[t].Cloning? && !pc.Cloning? && s' == s.(pc := s.pc[t := pc])
    requires UnshareOk(s', t)
    requires (if pc.Unsharing? then pc.doomed else None) == (if s.pc[t].Unsharing? then s.pc[t].doomed else None)
    ensures Inv(s')
  {
    hide EmbryoOk, UnshareOk, OwnerOk, GroupsShare, HandlersShareMemory, DoomedOnce, Counted, TaskOk, Embryos;
    MoveKeeps(s, s', t);
  }

  lemma BeginUnshareKeeps(s: State, step: Step)
    requires Inv(s) && Enabled(s, step) && step.BeginUnshare?
    ensures Inv(After(s, step))
  {
    var s', t := After(s, step), step.t;
    assert UnshareOk(s, t);
    hide EmbryoOk, OwnerOk, GroupsShare, HandlersShareMemory, DoomedOnce, Counted, TaskOk, Embryos;
    UnshareMoves(s, s', t, s'.pc[t]);
  }

  lemma UnshareRestKeeps(s: State, step: Step)
    requires Inv(s) && Enabled(s, step) && step.UnshareRest?
    ensures Inv(After(s, step))
  {
    var s', t := After(s, step), step.t;
    assert UnshareOk(s, t);
    hide EmbryoOk, OwnerOk, GroupsShare, HandlersShareMemory, DoomedOnce, Counted, TaskOk, Embryos;
    UnshareMoves(s, s', t, s'.pc[t]);
  }

  lemma FsNotCopiedKeeps(s: State, step: Step)
    requires Inv(s) && Enabled(s, step) && step.UnshareFs? && After(s, step).refs == s.refs
    ensures Inv(After(s, step))
  {
    var s', t := After(s, step), step.t;
    assert UnshareOk(s, t);
    if Me(t, FsF) in s.refs.holds { SoleHolders(s.refs, Me(t, FsF)); }
    assert UnshareOk(s', t) by { hide EmbryoOk, OwnerOk, GroupsShare, HandlersShareMemory, DoomedOnce, TaskOk, Embryos; }
    hide EmbryoOk, OwnerOk, GroupsShare, HandlersShareMemory, DoomedOnce, Counted, TaskOk, Embryos, Sole, UnshareOk;
    UnshareMoves(s, s', t, s'.pc[t]);
  }

  lemma FilesNotCopiedKeeps(s: State, step: Step)
    requires Inv(s) && Enabled(s, step) && step.UnshareFiles? && After(s, step).refs == s.refs
    ensures Inv(After(s, step))
  {
    var s', t := After(s, step), step.t;
    assert UnshareOk(s, t);
    if Me(t, FilesF) in s.refs.holds {
      SoleHolders(s.refs, Me(t, FilesF));
      HeldIsCounted(s.refs, Me(t, FilesF));
    }
    assert UnshareOk(s', t) by { hide EmbryoOk, OwnerOk, GroupsShare, HandlersShareMemory, DoomedOnce, TaskOk, Embryos; }
    hide EmbryoOk, OwnerOk, GroupsShare, HandlersShareMemory, DoomedOnce, Counted, TaskOk, Embryos, Sole, UnshareOk;
    UnshareMoves(s, s', t, s'.pc[t]);
  }

  lemma NothingToSwapKeeps(s: State, step: Step)
    requires Inv(s) && Enabled(s, step)
    requires (step.SwapFs? && Me(step.t, NewFs) !in s.refs.holds) || ((step.SwapFiles? || step.PutFiles?) && Me(step.t, NewFiles) !in s.refs.holds)
    ensures Inv(After(s, step))
  {
    var s', t := After(s, step), step.t;
    assert UnshareOk(s, t);
    hide EmbryoOk, OwnerOk, GroupsShare, HandlersShareMemory, DoomedOnce, Counted, TaskOk, Embryos, Sole;
    UnshareMoves(s, s', t, s'.pc[t]);
  }

  lemma NothingToFreeKeeps(s: State, step: Step)
    requires Inv(s) && Enabled(s, step) && step.FreeFs? && Me(step.t, NewFs) !in s.refs.holds && s.pc[step.t].doomed.None?
    ensures Inv(After(s, step))
  {
    var s', t := After(s, step), step.t;
    assert UnshareOk(s, t);
    hide EmbryoOk, OwnerOk, GroupsShare, HandlersShareMemory, DoomedOnce, Counted, TaskOk, Embryos, Sole;
    UnshareMoves(s, s', t, s'.pc[t]);
  }

  // ----- Steps that take or drop references -----

  /** Besides references, only the whereabouts of `t` change, and what it is about to free does not. */
  ghost predicate MovesOnly(s: State, s': State, t: nat) {
    && s'.next == s.next && s'.group == s.group && s'.pc.Keys == s.pc.Keys
    && (forall u :: u in s.pc && u != t ==> s'.pc[u] == s.pc[u])
    && (forall o :: Dooms(s', t, o) <==> Dooms(s, t, o))
  }

  /** A single slot is filled or emptied, and no counter becomes or leaves zero. */
  ghost predicate Touches(r: Refs, r': Refs, sl: Slot) {
    && (forall x :: x != sl ==> (x in r'.holds <==> x in r.holds) && (x in r.holds ==> r'.holds[x] == r.holds[x]))
    && (forall o :: o in r.count && r.count[o] == 0 <==> o in r'.count && r'.count[o] == 0)
  }

  lemma ShareTouches(r: Refs, sl: Slot, o: Obj)
    requires o in r.count && r.count[o] > 0
    ensures Touches(r, Share(r, sl, o), sl)
  {}

  lemma MakeTouches(r: Refs, sl: Slot, o: Obj)
    requires o !in r.count
    ensures Touches(r, Make(r, sl, o), sl)
  {}

  lemma ReleaseTouches(r: Refs, sl: Slot)
    requires sl in r.holds && r.holds[sl] in r.count && r.count[r.holds[sl]] > 0
    ensures Touches(r, Release(r, sl), sl) && sl !in Release(r, sl).holds
  {}

  lemma FreeTouches(r: Refs, sl: Slot)
    requires sl in r.holds && r.holds[sl] in r.count && r.count[r.holds[sl]] > 0
    ensures Touches(r, Free(r, sl), sl) && sl !in Free(r, sl).holds
  {}

  lemma OneSlotLocal(s: State, s': State, t: nat, c: nat, sl: Slot)
    requires Sound(s) && MovesOnly(s, s', t) && Touches(s.refs, s'.refs, sl) && (sl.owner == t || sl.owner == c) && NoTheft(s, s', t, c, sl)
    ensures Local(s, s', t, c) && ZerosLocal(s, s', t)
  {
    forall o | Dooms(s, t, o) ensures o in s.refs.count && s.refs.count[o] == 0 { ZeroWhenDoomed(s, t, o); }
    hide EmbryoOk, UnshareOk, TaskOk, Dooms, Basic, Sound;
    forall x: Slot ensures NoTheft(s, s', t, c, x) {}
  }

  lemma BasicKept(s: State, s': State, t: nat, sl: Slot)
    requires Sound(s) && MovesOnly(s, s', t) && Counted(s'.refs) && Touches(s.refs, s'.refs, sl)
    requires sl in s'.refs.holds ==> sl.owner < s.next && KindOk(sl.field, s'.refs.holds[sl])
    ensures Basic(s')
  {
    hide EmbryoOk, UnshareOk, TaskOk, Dooms, Counted;
  }

  lemma ShareLocal(s: State, s': State, t: nat, c: nat, sl: Slot, y: Slot)
    requires Sound(s) && MovesOnly(s, s', t) && y in s.refs.holds && sl !in s.refs.holds && s.refs.holds[y] in s.refs.count
    requires s'.refs == Share(s.refs, sl, s.refs.holds[y]) && (y.owner == t || y.owner == c) && (sl.owner == t || sl.owner == c)
    requires sl.owner < s.next && KindOk(sl.field, s.refs.holds[y])
    ensures Local(s, s', t, c) && ZerosLocal(s, s', t) && Basic(s')
  {
    ShareCounts(s.refs, sl, s.refs.holds[y]);
    HeldIsCounted(s.refs, y);
    ShareTouches(s.refs, sl, s.refs.holds[y]);
    hide Sound, MovesOnly, Counted, Touches;
    BasicKept(s, s', t, sl);
    OneSlotLocal(s, s', t, c, sl);
  }

  lemma MakeLocal(s: State, s': State, t: nat, c: nat, sl: Slot, o: Obj)
    requires Sound(s) && MovesOnly(s, s', t) && sl !in s.refs.holds && o !in s.refs.count
    requires s'.refs == Make(s.refs, sl, o) && (sl.owner == t || sl.owner == c)
    requires sl.owner < s.next && KindOk(sl.field, o)
    ensures Local(s, s', t, c) && ZerosLocal(s, s', t) && Basic(s') && Sole(s'.refs, sl)
  {
    MakeCounts(s.refs, sl, o);
    MakeTouches(s.refs, sl, o);
    hide Sound, MovesOnly, Counted, Sole, Touches;
    BasicKept(s, s', t, sl);
    OneSlotLocal(s, s', t, c, sl);
  }

  lemma ReleaseLocal(s: State, s': State, t: nat, c: nat, sl: Slot)
    requires Sound(s) && MovesOnly(s, s', t) && sl in s.refs.holds && (sl.owner == t || sl.owner == c)
    requires s.refs.holds[sl] in s.refs.count && s.refs.count[s.refs.holds[sl]] > 0 && s'.refs == Release(s.refs, sl)
    ensures Local(s, s', t, c) && ZerosLocal(s, s', t) && Basic(s')
  {
    ReleaseCounts(s.refs, sl);
    ReleaseTouches(s.refs, sl);
    hide Sound, MovesOnly, Counted, Touches, Release;
    BasicKept(s, s', t, sl);
    OneSlotLocal(s, s', t, c, sl);
  }

  lemma FreeLocal(s: State, s': State, t: nat, c: nat, sl: Slot)
    requires Sound(s) && MovesOnly(s, s', t) && sl in s.refs.holds && (sl.owner == t || sl.owner == c) && Sole(s.refs, sl)
    requires s'.refs == Free(s.refs, sl)
    ensures Local(s, s', t, c) && ZerosLocal(s, s', t) && Basic(s')
  {
    FreeCounts(s.refs, sl);
    HeldIsCounted(s.refs, sl);
    FreeTouches(s.refs, sl);
    hide Sound, MovesOnly, Counted, Sole, Touches, Free;
    BasicKept(s, s', t, sl);
    OneSlotLocal(s, s', t, c, sl);
  }

  /** A visible task that is not cloning owns whatever slots it has. */
  lemma OwnAlone(s: State, t: nat)
    requires t in s.group && t in s.pc && !s.pc[t].Cloning? && TaskOk(s, t) && UnshareOk(s, t)
    ensures Own(s, t, t)
  {
    hide TaskOk, UnshareOk;
  }

  lemma DropOwn(s: State, s': State, t: nat, f: Field)
    requires t in s.group && t in s.pc && s.pc[t].Run? && TaskOk(s, t) && UnshareOk(s, t) && (f == MmF || f == FilesF || f == FsF)
    requires s' == s.(refs := s'.refs) && s'.refs.holds == s.refs.holds - {Me(t, f)}
    ensures Own(s', t, t)
  {
    OwnAlone(s', t);
  }

  lemma Facts(s: State, t: nat)
    requires Inv(s) && t in s.pc
    ensures t in s.group && t < s.next && TaskOk(s, t) && UnshareOk(s, t) && Counted(s.refs) && Sound(s)
    ensures !s.pc[t].Cloning? ==> Apart(s, t, t)
    ensures forall sl :: sl in s.refs.holds ==> s.refs.holds[sl] in s.refs.count
  {
    assert TaskOk(s, t) && UnshareOk(s, t);
    ChildApart(s, t);
  }

  lemma SameDoomed(s: State, s': State, t: nat)
    requires s'.next == s.next && s'.group == s.group && t in s.pc && t in s'.pc && s'.pc == s.pc[t := s'.pc[t]]
    requires (if s'.pc[t].Unsharing? then s'.pc[t].doomed else None) == (if s.pc[t].Unsharing? then s.pc[t].doomed else None)
    ensures MovesOnly(s, s', t)
  {}

  lemma DropKeeps(s: State, s': State, t: nat, f: Field)
    requires Inv(s) && t in s.pc && s.pc[t].Run? && (f == MmF || f == FilesF || f == FsF) && Me(t, f) in s.refs.holds
    requires s' == Dropped(s, Me(t, f))
    ensures Inv(s')
  {
    hide Inv, Sound, Counted, Own, Apart, MovesOnly, Local, ZerosLocal, Basic, TaskOk, Sole, Touches;
    Facts(s, t);
    ReleaseCounts(s.refs, Me(t, f));
    DropOwn(s, s', t, f);
    SameDoomed(s, s', t);
    ReleaseLocal(s, s', t, t, Me(t, f));
    QuietDrop(s, s', t, t);
  }

  /** A step after which `t` and `c` hold no signal struct, handlers or memory they did not hold before. */
  lemma QuietDrop(s: State, s': State, t: nat, c: nat)
    requires Inv(s) && Local(s, s', t, c) && Apart(s, t, c) && Basic(s') && Own(s', t, c) && ZerosLocal(s, s', t) && Quiet(s, s')
    requires Cloner(s, t) ==> s.pc[t].child == c
    requires Cloner(s, c) ==> c == t
    requires Cloner(s', t) ==> Cloner(s, t) && s'.pc[t].child == s.pc[t].child
    requires c != t ==> !Cloner(s', c) && (c in s.pc ==> !s.pc[c].Unsharing?) && (c in s'.pc ==> !s'.pc[c].Unsharing?)
    ensures Inv(s')
  {
    EmbryosKept(s, s', t, c) by {
      hide EmbryoOk, UnshareOk, OwnerOk, Embryos, GroupsShare, HandlersShareMemory, DoomedOnce, Counted, TaskOk, Dooms, Local, Own,
        ZerosLocal, Basic, Apart;
    }
    hide EmbryoOk, UnshareOk, OwnerOk, Embryos, GroupsShare, DoomedOnce, Counted, TaskOk, Dooms, Local, Own,
      ZerosLocal, Basic, Sound, Apart, QuietGroups, QuietMemory;
    GroupsKept(s, s');
    MemoryKept(s, s');
    Assemble(s, s', t, c);
  }

  /** A task that is neither visible nor being built owns at most a reference to its signal struct. */
  lemma DeadFacts(s: State, t: nat)
    requires Inv(s) && t !in s.pc && !Embryo(s, t)
    ensures forall f :: f != SignalF ==> Me(t, f) !in s.refs.holds
    ensures Apart(s, t, t) && Counted(s.refs) && Sound(s) && t !in s.group
  {
    forall f | f != SignalF ensures Me(t, f) !in s.refs.holds {
      assert Me(t, f) in s.refs.holds ==> OwnerOk(s, Me(t, f));
    }
    assert forall u :: Cloner(s, u) ==> s.pc[u].child != t;
  }

  lemma PutTaskKeeps(s: State, s': State, t: nat)
    requires Inv(s) && t !in s.pc && !Embryo(s, t) && Me(t, SignalF) in s.refs.holds && Counted(s.refs) && s' == Dropped(s, Me(t, SignalF))
    ensures Inv(s')
  {
    hide Inv, Sound, Counted, Apart, Local, ZerosLocal, Basic, TaskOk, Sole, EmbryoOk, UnshareOk;
    var sl := Me(t, SignalF);
    DeadFacts(s, t);
    ReleaseCounts(s.refs, sl);
    ReleaseTouches(s.refs, sl);
    assert Own(s', t, t) by {
      forall x: Slot | x.owner == t ensures x !in s'.refs.holds { assert x == Me(t, x.field); }
    }
    assert MovesOnly(s, s', t);
    hide Own, MovesOnly, Touches, Embryo;
    ReleaseLocal(s, s', t, t, sl);
    QuietDrop(s, s', t, t);
  }
}
