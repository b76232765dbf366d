/**
 Reference counts: pointers that own a reference, the counters they are counted by, and what sharing,
 making, releasing and freeing do to both.
 */
module References {
  import opened Options

  /** `Threads` stands for the counter `nr_threads` inside a signal struct; the others for an object's own count. */
  datatype Obj = Signal(id: nat) | Threads(id: nat) | Sighand(id: nat) | Mm(id: nat) | Files(id: nat) | Fs(id: nat)

  datatype Field = SignalF | MemberF | SighandF | MmF | FilesF | FsF | NewFs | NewFiles

  datatype Slot = Slot(owner: nat, field: Field)

  datatype Refs = Refs(holds: map<Slot, Obj>, count: map<Obj, nat>)

  // ----- What the code does to a counter -----

  /** Takes one more reference to an object. */
  function Share(r: Refs, sl: Slot, o: Obj): Refs
    requires o in r.count
  {
    Refs(r.holds[sl := o], r.count[o := r.count[o] + 1])
  }

  /** Allocates an object with one reference. */
  function Make(r: Refs, sl: Slot, o: Obj): Refs {
    Refs(r.holds[sl := o], r.count[o := 1])
  }

  /** Drops a reference and frees the object when it was the last. */
  function Release(r: Refs, sl: Slot): Refs
    requires sl in r.holds && r.holds[sl] in r.count && r.count[r.holds[sl]] > 0
  {
    var o := r.holds[sl];
    Refs(r.holds - {sl}, if r.count[o] == 1 then r.count - {o} else r.count[o := r.count[o] - 1])
  }

  /** Frees an object without looking at its counter. */
  function Free(r: Refs, sl: Slot): Refs
    requires sl in r.holds
  {
    Refs(r.holds - {sl}, r.count - {r.holds[sl]})
  }

  // ----- Counters and holders -----

  ghost function Holders(r: Refs, o: Obj): set<Slot> {
    set sl | sl in r.holds.Keys && r.holds[sl] == o
  }

  /** Each counter is the number of holders, and whatever is held is allocated. */
  ghost predicate Counted(r: Refs) {
    && (forall o :: o in r.count ==> r.count[o] == |Holders(r, o)|)
    && (forall sl :: sl in r.holds ==> r.holds[sl] in r.count)
  }

  ghost predicate Sole(r: Refs, sl: Slot)
    requires sl in r.holds
  {
    forall x :: x in r.holds && r.holds[x] == r.holds[sl] ==> x == sl
  }

  lemma SoleHolders(r: Refs, sl: Slot)
    requires sl in r.holds
    ensures Sole(r, sl) <==> |Holders(r, r.holds[sl])| == 1
  {
    var hs := Holders(r, r.holds[sl]);
    assert sl in hs;
    if Sole(r, sl) {
      assert hs == {sl};
    }
    if |hs| == 1 {
      assert |hs - {sl}| == 0;
      forall x | x in r.holds && r.holds[x] == r.holds[sl] ensures x == sl {
        assert x in hs && x !in hs - {sl};
      }
    }
  }

  lemma Grown(r: Refs, r': Refs, sl: Slot, o: Obj)
    requires sl !in r.holds && r'.holds == r.holds[sl := o]
    ensures |Holders(r', o)| == |Holders(r, o)| + 1
    ensures forall x :: x != o ==> Holders(r', x) == Holders(r, x)
  {
    assert Holders(r', o) == Holders(r, o) + {sl};
    forall x | x != o ensures Holders(r', x) == Holders(r, x) {}
  }

  lemma Shrunk(r: Refs, r': Refs, sl: Slot)
    requires sl in r.holds && r'.holds == r.holds - {sl}
    ensures |Holders(r', r.holds[sl])| == |Holders(r, r.holds[sl])| - 1
    ensures forall x :: x != r.holds[sl] ==> Holders(r', x) == Holders(r, x)
  {
    assert sl in Holders(r, r.holds[sl]);
    assert Holders(r', r.holds[sl]) == Holders(r, r.holds[sl]) - {sl};
    forall x | x != r.holds[sl] ensures Holders(r', x) == Holders(r, x) {}
  }

  lemma ShareCounts(r: Refs, sl: Slot, o: Obj)
    requires Counted(r) && sl !in r.holds && o in r.count
    ensures Counted(Share(r, sl, o))
  {
    Grown(r, Share(r, sl, o), sl, o);
  }

  lemma MakeCounts(r: Refs, sl: Slot, o: Obj)
    requires Counted(r) && sl !in r.holds && o !in r.count
    ensures Counted(Make(r, sl, o)) && Sole(Make(r, sl, o), sl)
  {
    Grown(r, Make(r, sl, o), sl, o);
    assert Holders(r, o) == {};
  }

  lemma HeldIsCounted(r: Refs, sl: Slot)
    requires Counted(r) && sl in r.holds
    ensures r.holds[sl] in r.count && r.count[r.holds[sl]] > 0
  {
    assert sl in Holders(r, r.holds[sl]);
  }

  lemma ReleaseCounts(r: Refs, sl: Slot)
    requires Counted(r) && sl in r.holds
    ensures r.holds[sl] in r.count && r.count[r.holds[sl]] > 0 && Counted(Release(r, sl))
  {
    HeldIsCounted(r, sl);
    var r' := Release(r, sl);
    Shrunk(r, r', sl);
    forall x | x in r'.holds ensures r'.holds[x] in r'.count {
      assert x in Holders(r', r'.holds[x]);
    }
  }

  lemma FreeCounts(r: Refs, sl: Slot)
    requires Counted(r) && sl in r.holds && Sole(r, sl)
    ensures Counted(Free(r, sl))
  {
    Shrunk(r, Free(r, sl), sl);
  }
}
