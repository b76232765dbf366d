/**
 The steps of `unshare` keep the sharing invariant.
 */
module UnshareSteps {
  import opened Options
  import opened References
  import opened Sharing
  import opened SharingFrames

  // ----- Steps of unshare -----

  lemma FsCopiedOwn(s: State, s': State, t: nat, id: nat)
    requires t in s.group && Unsharer(s, t, 0) && s.pc[t].fs && TaskOk(s, t) && UnshareOk(s, t) && Fs(id) !in s.refs.count && Me(t, FsF) in s.refs.holds
    requires s' == To(s, t, s.pc[t].(phase := 1), Make(s.refs, Me(t, NewFs), Fs(id))) && Sole(s'.refs, Me(t, NewFs))
    ensures Own(s', t, t)
  {
    OwnAlone(s', t);
  }

  lemma FsCopiedKeeps(s: State, s': State, t: nat, id: nat)
    requires Inv(s) && Unsharer(s, t, 0) && s.pc[t].fs && Fs(id) !in s.refs.count && Me(t, FsF) in s.refs.holds
    requires s' == To(s, t, s.pc[t].(phase := 1), Make(s.refs, Me(t, NewFs), Fs(id)))
    ensures Inv(s')
  {
    hide Inv, Sound, Counted, Own, Apart, MovesOnly, Local, ZerosLocal, Basic, TaskOk, Sole, Touches;
    Facts(s, t);
    SameDoomed(s, s', t);
    assert Me(t, NewFs) !in s.refs.holds;
    MakeLocal(s, s', t, t, Me(t, NewFs), Fs(id));
    FsCopiedOwn(s, s', t, id);
    QuietDrop(s, s', t, t);
  }

  lemma FilesCopiedOwn(s: State, s': State, t: nat, id: nat)
    requires t in s.group && Unsharer(s, t, 1) && s.pc[t].files && TaskOk(s, t) && UnshareOk(s, t) && Files(id) !in s.refs.count && Me(t, FilesF) in s.refs.holds
    requires s' == To(s, t, s.pc[t].(phase := 2), Make(s.refs, Me(t, NewFiles), Files(id))) && Sole(s'.refs, Me(t, NewFiles))
    requires forall sl :: sl in s.refs.holds ==> s.refs.holds[sl] in s.refs.count
    ensures Own(s', t, t)
  {
    assert UnshareOk(s', t) by {
      forall sl | sl in s.refs.holds && Sole(s.refs, sl) && sl != Me(t, NewFiles) ensures Sole(s'.refs, sl) {}
    }
    OwnAlone(s', t);
  }

  lemma FilesCopiedKeeps(s: State, s': State, t: nat, id: nat)
    requires Inv(s) && Unsharer(s, t, 1) && s.pc[t].files && Files(id) !in s.refs.count && Me(t, FilesF) in s.refs.holds
    requires s' == To(s, t, s.pc[t].(phase := 2), Make(s.refs, Me(t, NewFiles), Files(id)))
    ensures Inv(s')
  {
    hide Inv, Sound, Counted, Own, Apart, MovesOnly, Local, ZerosLocal, Basic, TaskOk, Sole, Touches;
    Facts(s, t);
    SameDoomed(s, s', t);
    assert Me(t, NewFiles) !in s.refs.holds;
    MakeLocal(s, s', t, t, Me(t, NewFiles), Files(id));
    FilesCopiedOwn(s, s', t, id);
    QuietDrop(s, s', t, t);
  }

  lemma FilesPutOwn(s: State, s': State, t: nat)
    requires t in s.group && Unsharer(s, t, 5) && TaskOk(s, t) && UnshareOk(s, t) && Me(t, NewFiles) in s.refs.holds
    requires s' == s.(pc := s.pc[t := s.pc[t].(phase := 6)], refs := s'.refs) && s'.refs.holds == s.refs.holds - {Me(t, NewFiles)}
    requires forall o :: o in s.refs.count && s.refs.count[o] == 0 ==> o in s'.refs.count && s'.refs.count[o] == 0
    ensures Own(s', t, t)
  {
    assert UnshareOk(s', t) by {
      forall sl | sl in s'.refs.holds && Sole(s.refs, sl) ensures Sole(s'.refs, sl) {}
    }
    OwnAlone(s', t);
  }

  lemma FilesPutKeeps(s: State, s': State, t: nat)
    requires Inv(s) && Unsharer(s, t, 5) && Me(t, NewFiles) in s.refs.holds && Counted(s.refs) && s' == FilesPut(s, t)
    ensures Inv(s')
  {
    hide Inv, Sound, Counted, Own, Apart, MovesOnly, Local, ZerosLocal, Basic, TaskOk, Sole, Touches;
    Facts(s, t);
    SameDoomed(s, s', t);
    ReleaseCounts(s.refs, Me(t, NewFiles));
    ReleaseTouches(s.refs, Me(t, NewFiles));
    FilesPutOwn(s, s', t);
    ReleaseLocal(s, s', t, t, Me(t, NewFiles));
    QuietDrop(s, s', t, t);
  }

  lemma CopyFreedOwn(s: State, s': State, t: nat)
    requires t in s.group && Unsharer(s, t, 6) && TaskOk(s, t) && UnshareOk(s, t) && Me(t, NewFs) in s.refs.holds
    requires s' == To(s, t, Run, Free(s.refs, Me(t, NewFs)))
    ensures Own(s', t, t)
  {
    hide Sole;
    OwnAlone(s', t);
  }

  lemma CopyFreedKeeps(s: State, s': State, t: nat)
    requires Inv(s) && Unsharer(s, t, 6) && Me(t, NewFs) in s.refs.holds
    requires s' == To(s, t, Run, Free(s.refs, Me(t, NewFs)))
    ensures Inv(s')
  {
    hide Inv, Sound, Counted, Own, Apart, MovesOnly, Local, ZerosLocal, Basic, TaskOk, Sole, Touches;
    Facts(s, t);
    SameDoomed(s, s', t);
    CopyFreedOwn(s, s', t);
    assert Sole(s.refs, Me(t, NewFs));
    FreeLocal(s, s', t, t, Me(t, NewFs));
    QuietDrop(s, s', t, t);
  }

  lemma DoomedFreedCounts(r: Refs, o: Obj)
    requires Counted(r) && o in r.count && r.count[o] == 0
    ensures Counted(r.(count := r.count - {o}))
  {
    var r' := r.(count := r.count - {o});
    forall x ensures Holders(r', x) == Holders(r, x) {}
    forall sl | sl in r.holds ensures r.holds[sl] != o {
      assert sl in Holders(r, r.holds[sl]);
    }
  }

  lemma DoomedFreedOwn(s: State, s': State, t: nat)
    requires t in s.group && Unsharer(s, t, 6) && TaskOk(s, t) && UnshareOk(s, t) && s.pc[t].doomed.Some?
    requires s' == To(s, t, Run, s.refs.(count := s.refs.count - {Fs(s.pc[t].doomed.value)}))
    ensures Own(s', t, t)
  {
    hide Sole;
    OwnAlone(s', t);
  }

  lemma DoomedFreedLocal(s: State, s': State, t: nat, o: Obj)
    requires Sound(s) && Unsharer(s, t, 6) && Dooms(s, t, o) && s' == To(s, t, Run, s.refs.(count := s.refs.count - {o}))
    requires Counted(s'.refs)
    ensures Local(s, s', t, t) && ZerosLocal(s, s', t) && Basic(s')
  {
    hide EmbryoOk, UnshareOk, TaskOk, Counted;
    forall x: Slot ensures NoTheft(s, s', t, t, x) {}
  }

  lemma DoomedFreedKeeps(s: State, s': State, t: nat)
    requires Inv(s) && Unsharer(s, t, 6) && s.pc[t].doomed.Some?
    requires s' == To(s, t, Run, s.refs.(count := s.refs.count - {Fs(s.pc[t].doomed.value)}))
    ensures Inv(s')
  {
    hide Inv, Sound, Counted, Own, Apart, MovesOnly, Local, ZerosLocal, Basic, TaskOk, Sole, Touches;
    Facts(s, t);
    var o := Fs(s.pc[t].doomed.value);
    DoomedFreedCounts(s.refs, o);
    DoomedFreedOwn(s, s', t);
    DoomedFreedLocal(s, s', t, o);
    QuietDrop(s, s', t, t);
  }

  // ----- The two swaps -----

  /** Number of holders. */
  ghost function N(r: Refs, o: Obj): nat { |Holders(r, o)| }

  lemma Filled(r: Refs, r': Refs, sl: Slot, v: Obj, o: Obj)
    requires sl !in r.holds && r'.holds == r.holds[sl := v]
    ensures N(r', o) == N(r, o) + if o == v then 1 else 0
  {
    Grown(r, r', sl, v);
  }

  lemma Emptied(r: Refs, r': Refs, sl: Slot, o: Obj)
    requires sl in r.holds && r'.holds == r.holds - {sl}
    ensures N(r', o) == N(r, o) - if o == r.holds[sl] then 1 else 0
  {
    Shrunk(r, r', sl);
    hide Holders;
  }

  /** Slots `a` and `b` now point to `u` and to `v`, if given; every other slot is as before. */
  lemma Redirected(r: Refs, r': Refs, a: Slot, b: Slot, u: Obj, v: Option<Obj>, o: Obj)
    requires a != b && a in r.holds && b in r.holds
    requires r'.holds == var h := (r.holds - {a} - {b})[a := u]; if v.Some? then h[b := v.value] else h
    ensures N(r', o) == N(r, o) - (if o == r.holds[a] then 1 else 0) - (if o == r.holds[b] then 1 else 0)
                        + (if o == u then 1 else 0) + (if v == Some(o) then 1 else 0)
  {
    var r1 := r.(holds := r.holds - {a});
    var r2 := r.(holds := r1.holds - {b});
    var r3 := r.(holds := r2.holds[a := u]);
    Emptied(r, r1, a, o);
    Emptied(r1, r2, b, o);
    Filled(r2, r3, a, u, o);
    hide N;
    if v.Some? {
      Filled(r3, r', b, v.value, o);
    } else {
      assert N(r', o) == N(r3, o) by { SameHolds(r3, r', o); }
    }
  }

  lemma SameHolds(r: Refs, r': Refs, o: Obj)
    requires r.holds == r'.holds
    ensures N(r, o) == N(r', o)
  {}

  lemma CountedN(r: Refs)
    requires forall o :: o in r.count ==> r.count[o] == N(r, o)
    requires forall sl :: sl in r.holds ==> r.holds[sl] in r.count
    ensures Counted(r)
  {}

  lemma NCounted(r: Refs, o: Obj)
    requires Counted(r) && o in r.count
    ensures r.count[o] == N(r, o)
  {}

  lemma FsSwapCounts(r: Refs, t: nat)
    requires Counted(r) && Me(t, FsF) in r.holds && Me(t, NewFs) in r.holds && Sole(r, Me(t, NewFs))
    ensures Counted(FsSwapped(r, t)) && Sole(FsSwapped(r, t), Me(t, FsF))
    ensures r.holds[Me(t, FsF)] != r.holds[Me(t, NewFs)]
  {
    var r' := FsSwapped(r, t);
    var a, b := Me(t, FsF), Me(t, NewFs);
    HeldIsCounted(r, a);
    HeldIsCounted(r, b);
    forall o | o in r'.count ensures r'.count[o] == N(r', o) {
      assert r'.holds == (r.holds - {a} - {b})[a := r.holds[b]];
      Redirected(r, r', a, b, r.holds[b], None, o);
      NCounted(r, o);
    }
    CountedN(r');
  }

  lemma FilesSwapCounts(r: Refs, t: nat)
    requires Counted(r) && Me(t, FilesF) in r.holds && Me(t, NewFiles) in r.holds
    ensures Counted(FilesSwapped(r, t))
  {
    var r' := FilesSwapped(r, t);
    var a, b := Me(t, FilesF), Me(t, NewFiles);
    forall o | o in r'.count ensures r'.count[o] == N(r', o) {
      assert r'.holds == (r.holds - {a} - {b})[a := r.holds[b]][b := r.holds[a]];
      Redirected(r, r', a, b, r.holds[b], Some(r.holds[a]), o);
      NCounted(r, o);
    }
    CountedN(r');
  }

  /** A slot that nobody shares with stays so if no slot is redirected to its object. */
  lemma SoleStays(r: Refs, r': Refs, sl: Slot)
    requires sl in r.holds && sl in r'.holds && r'.holds[sl] == r.holds[sl] && Sole(r, sl)
    requires forall x :: x in r'.holds && r'.holds[x] == r.holds[sl] ==> x in r.holds && r.holds[x] == r.holds[sl]
    ensures Sole(r', sl)
  {}

  lemma FsSwapOwn(s: State, s': State, t: nat, r': Refs, doomed: Option<nat>)
    requires t in s.group && Unsharer(s, t, 3) && TaskOk(s, t) && UnshareOk(s, t) && Me(t, NewFs) in s.refs.holds
    requires r'.holds == (s.refs.holds - {Me(t, NewFs)})[Me(t, FsF) := s.refs.holds[Me(t, NewFs)]]
    requires s' == To(s, t, s.pc[t].(phase := 4, doomed := doomed), r') && Sole(r', Me(t, FsF))
    requires s.refs.holds[Me(t, NewFs)].Fs?
    requires Me(t, FilesF) in s.refs.holds ==> s.refs.holds[Me(t, FilesF)].Files?
    requires Me(t, NewFiles) in s.refs.holds ==> s.refs.holds[Me(t, NewFiles)].Files?
    requires doomed.Some? ==> Fs(doomed.value) in r'.count && r'.count[Fs(doomed.value)] == 0
    ensures Own(s', t, t)
  {
    assert UnshareOk(s', t) by {
      if Me(t, FilesF) in s.refs.holds && Sole(s.refs, Me(t, FilesF)) { SoleStays(s.refs, r', Me(t, FilesF)); }
      if Me(t, NewFiles) in s.refs.holds && Sole(s.refs, Me(t, NewFiles)) { SoleStays(s.refs, r', Me(t, NewFiles)); }
      hide Sole, TaskOk;
    }
    OwnAlone(s', t);
  }

  lemma FsSwapLocal(s: State, s': State, t: nat, r': Refs, doomed: Option<nat>)
    requires Sound(s) && Unsharer(s, t, 3) && Me(t, FsF) in s.refs.holds && Me(t, NewFs) in s.refs.holds && s.pc[t].doomed.None?
    requires s' == To(s, t, s.pc[t].(phase := 4, doomed := doomed), r') && Counted(r')
    requires r'.holds == (s.refs.holds - {Me(t, NewFs)})[Me(t, FsF) := s.refs.holds[Me(t, NewFs)]]
    requires s.refs.holds[Me(t, FsF)].Fs? && s.refs.holds[Me(t, FsF)] in s.refs.count && s.refs.count[s.refs.holds[Me(t, FsF)]] > 0
    requires r'.count == s.refs.count[s.refs.holds[Me(t, FsF)] := s.refs.count[s.refs.holds[Me(t, FsF)]] - 1]
    requires doomed == if r'.count[s.refs.holds[Me(t, FsF)]] == 0 then Some(s.refs.holds[Me(t, FsF)].id) else None
    ensures Local(s, s', t, t) && ZerosLocal(s, s', t) && Basic(s')
  {
    hide EmbryoOk, UnshareOk, TaskOk, Counted;
    assert KindOk(NewFs, s.refs.holds[Me(t, NewFs)]);
    assert Basic(s');
    hide KindOk, Sound, Basic;
    forall x: Slot ensures NoTheft(s, s', t, t, x) {
      if x == Me(t, FsF) {
        assert Me(t, NewFs) in s.refs.holds && s.refs.holds[Me(t, NewFs)] == s'.refs.holds[x];
      }
    }
  }

  lemma FsSwapKeeps(s: State, s': State, t: nat)
    requires Inv(s) && Unsharer(s, t, 3) && Basic(s) && UnshareOk(s, t) && Me(t, NewFs) in s.refs.holds && s' == FsInstalled(s, t)
    ensures Inv(s')
  {
    hide Counted, Basic, KindOk;
    hide Inv, Sound, Own, Apart, Local, ZerosLocal, TaskOk, Sole;
    Facts(s, t);
    var r', doomed := s'.refs, s'.pc[t].doomed;
    Kinds(s, t);
    FsSwapCounts(s.refs, t);
    HeldIsCounted(s.refs, Me(t, FsF));
    FsSwapOwn(s, s', t, r', doomed);
    FsSwapLocal(s, s', t, r', doomed);
    hide UnshareOk;
    QuietDrop(s, s', t, t);
  }

  lemma Kinds(s: State, t: nat)
    requires Basic(s)
    ensures var h := s.refs.holds;
      && (Me(t, FsF) in h ==> h[Me(t, FsF)].Fs?) && (Me(t, NewFs) in h ==> h[Me(t, NewFs)].Fs?)
      && (Me(t, FilesF) in h ==> h[Me(t, FilesF)].Files?) && (Me(t, NewFiles) in h ==> h[Me(t, NewFiles)].Files?)
  {}

  lemma FilesSwapOwn(s: State, s': State, t: nat, r': Refs)
    requires t in s.group && Unsharer(s, t, 4) && TaskOk(s, t) && UnshareOk(s, t) && Me(t, NewFiles) in s.refs.holds
    requires s' == To(s, t, s.pc[t].(phase := 5), r') && r'.count == s.refs.count
    requires r'.holds == s.refs.holds[Me(t, FilesF) := s.refs.holds[Me(t, NewFiles)]][Me(t, NewFiles) := s.refs.holds[Me(t, FilesF)]]
    requires Me(t, FsF) in s.refs.holds ==> s.refs.holds[Me(t, FsF)].Fs?
    requires Me(t, NewFs) in s.refs.holds ==> s.refs.holds[Me(t, NewFs)].Fs?
    requires s.refs.holds[Me(t, FilesF)].Files? && s.refs.holds[Me(t, NewFiles)].Files?
    ensures Own(s', t, t)
  {
    assert UnshareOk(s', t) by {
      if Sole(s.refs, Me(t, NewFiles)) { assert Sole(r', Me(t, FilesF)); }
      if Me(t, FsF) in s.refs.holds && Sole(s.refs, Me(t, FsF)) { SoleStays(s.refs, r', Me(t, FsF)); }
      if Me(t, NewFs) in s.refs.holds { SoleStays(s.refs, r', Me(t, NewFs)); }
      hide Sole, TaskOk;
    }
    OwnAlone(s', t);
  }

  lemma FilesSwapLocal(s: State, s': State, t: nat, r': Refs)
    requires Sound(s) && Unsharer(s, t, 4) && Me(t, FilesF) in s.refs.holds && Me(t, NewFiles) in s.refs.holds && MovesOnly(s, s', t)
    requires s' == To(s, t, s.pc[t].(phase := 5), r') && r'.count == s.refs.count && Counted(r')
    requires r'.holds == s.refs.holds[Me(t, FilesF) := s.refs.holds[Me(t, NewFiles)]][Me(t, NewFiles) := s.refs.holds[Me(t, FilesF)]]
    ensures Local(s, s', t, t) && ZerosLocal(s, s', t) && Basic(s')
  {
    hide EmbryoOk, UnshareOk, TaskOk, Counted;
    assert KindOk(FilesF, s.refs.holds[Me(t, FilesF)]) && KindOk(NewFiles, s.refs.holds[Me(t, NewFiles)]);
    assert Basic(s');
    forall o | Dooms(s, t, o) ensures o in s.refs.count && s.refs.count[o] == 0 { ZeroWhenDoomed(s, t, o); }
    hide KindOk, Sound, Basic, Dooms;
    forall x: Slot ensures NoTheft(s, s', t, t, x) {
      if x == Me(t, FilesF) {
        assert Me(t, NewFiles) in s.refs.holds && s.refs.holds[Me(t, NewFiles)] == s'.refs.holds[x];
      } else if x == Me(t, NewFiles) {
        assert Me(t, FilesF) in s.refs.holds && s.refs.holds[Me(t, FilesF)] == s'.refs.holds[x];
      }
    }
  }

  lemma FilesSwapKeeps(s: State, s': State, t: nat)
    requires Inv(s) && Unsharer(s, t, 4) && Basic(s) && UnshareOk(s, t) && Me(t, NewFiles) in s.refs.holds && s' == FilesInstalled(s, t)
    ensures Inv(s')
  {
    hide Counted, Basic, KindOk;
    hide Inv, Sound, Own, Apart, Local, ZerosLocal, TaskOk, Sole, MovesOnly;
    Facts(s, t);
    Kinds(s, t);
    FilesSwapCounts(s.refs, t);
    SameDoomed(s, s', t);
    FilesSwapOwn(s, s', t, s'.refs);
    FilesSwapLocal(s, s', t, s'.refs);
    hide UnshareOk;
    QuietDrop(s, s', t, t);
  }
}
