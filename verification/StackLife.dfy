/**
 The life of one kernel stack: that references to it balance, that a finished task's stack comes back to the
 cache or is freed, that nothing is freed before its grace period, and that an offline CPU keeps none.
 */
module StackLife {
  import opened Options
  import opened StackCache

  /** A step of a CPU or of another task leaves a task where it is. */
  lemma OtherStep(s: State, step: Step, t: nat)
    requires Shape(s) && Enabled(s, step) && t in s.tasks && (OfCpu(step) || step.t != t)
    ensures t in After(s, step).tasks && After(s, step).tasks[t] == s.tasks[t]
  {
    hide Shape;
    if OfCpu(step) {
      hide AfterTask;
    } else {
      hide AfterCpu;
    }
  }

  // ----- Leaks -----

  ghost predicate NoLeaks(s: State) { forall t :: t in s.tasks ==> !s.tasks[t].Leaked? }

  ghost predicate AllDead(run: seq<Step>) { forall i :: 0 <= i < |run| && run[i].PutRef? ==> run[i].dead }

  lemma StepLeaksNot(s: State, step: Step)
    requires Shape(s) && Enabled(s, step) && NoLeaks(s) && (step.PutRef? ==> step.dead)
    ensures NoLeaks(After(s, step))
  {
    hide Shape;
  }

  /** If every task is dead when its last reference goes, no stack is ever leaked. */
  lemma {:induction false} DeadTasksLeakNothing(s0: State, run: seq<Step>, s: State)
    requires Inv(s0) && NoLeaks(s0) && Reaches(s0, run, s) && AllDead(run)
    ensures NoLeaks(s)
    decreases |run|
  {
    if run != [] {
      StepLeaksNot(s0, run[0]);
      StepKeeps(s0, run[0]);
      assert AllDead(run[1..]);
      DeadTasksLeakNothing(After(s0, run[0]), run[1..], s);
    }
  }

  /** The last reference decides: a dead task's stack is released, another's is leaked; any other put only counts. */
  lemma LastPutDecides(s: State, t: nat, dead: bool)
    requires Shape(s) && Enabled(s, PutRef(t, dead))
    ensures var now := After(s, PutRef(t, dead)).tasks[t];
      if s.tasks[t].refs > 1 then (now.Owned? || now.Unaccount? || now.Spent?) && now.refs == s.tasks[t].refs - 1 && now.stack == s.tasks[t].stack
      else if dead then now == Release(s.tasks[t].stack, 0) else now == Leaked(s.tasks[t].stack)
  {}

  /** A leaked stack is in no slot and is never freed, whatever happens. */
  lemma {:induction false} LeakedForGood(s: State, run: seq<Step>, s': State, t: nat, x: nat)
    requires Inv(s) && Reaches(s, run, s') && t in s.tasks && s.tasks[t] == Leaked(x)
    ensures t in s'.tasks && s'.tasks[t] == Leaked(x)
    ensures x !in s'.freed && forall c, i :: !IsAt(s', x, InSlot(c, i))
    decreases |run|
  {
    assert IsAt(s, x, With(t));
    if run != [] {
      StepKeeps(s, run[0]);
      LeakedStep(s, run[0], t);
      LeakedForGood(After(s, run[0]), run[1..], s', t, x);
    } else {
      InvParts(s);
      assert x in s.freed ==> IsAt(s, x, Gone);
    }
  }

  lemma LeakedStep(s: State, step: Step, t: nat)
    requires Shape(s) && Enabled(s, step) && t in s.tasks && s.tasks[t].Leaked?
    ensures t in After(s, step).tasks && After(s, step).tasks[t] == s.tasks[t]
  {
    OtherStep(s, step, t);
    hide Shape, AfterCpu, AfterTask;
  }

  // ----- References -----

  predicate Holding(ph: Phase) { ph.Owned? || ph.Unaccount? || ph.Spent? }

  /** References to the stack of `t` taken less those dropped. */
  function Balance(run: seq<Step>, t: nat): int {
    if run == [] then 0
    else (if run[0] == GetRef(t) then 1 else if run[0].PutRef? && run[0].t == t then -1 else 0) + Balance(run[1..], t)
  }

  lemma HoldingStep(s: State, step: Step, t: nat)
    requires Shape(s) && Enabled(s, step) && t in s.tasks && step != Start(t) && !s.tasks[t].Probe? && !s.tasks[t].Charge?
    ensures t in After(s, step).tasks
    ensures var now := After(s, step).tasks[t]; !now.Probe? && !now.Charge?
    ensures var now := After(s, step).tasks[t];
      Holding(now) ==> Holding(s.tasks[t]) && now.stack == s.tasks[t].stack && now.refs == s.tasks[t].refs + Balance([step], t)
  {
    assert [step][1..] == [];
    hide Shape, AfterCpu;
    if OfCpu(step) || step.t != t {
      hide AfterTask;
      OtherStep(s, step, t);
    }
  }

  /** While a task has its stack, the count is what it was plus the references taken less those dropped. */
  lemma {:induction false} ReferencesBalance(s: State, run: seq<Step>, s': State, t: nat)
    requires Inv(s) && Reaches(s, run, s') && t in s.tasks && !s.tasks[t].Probe? && !s.tasks[t].Charge? && Start(t) !in run
    requires t in s'.tasks && Holding(s'.tasks[t])
    ensures Holding(s.tasks[t]) && s'.tasks[t].stack == s.tasks[t].stack && s'.tasks[t].refs == s.tasks[t].refs + Balance(run, t)
    decreases |run|
  {
    if run != [] {
      HoldingStep(s, run[0], t);
      StepKeeps(s, run[0]);
      ReferencesBalance(After(s, run[0]), run[1..], s', t);
      assert [run[0]][1..] == [];
    }
  }

  /** A task comes by a stack with one reference, its own, and only when every page is charged. */
  lemma FirstReference(s: State, step: Step, t: nat)
    requires Shape(s) && Enabled(s, step) && t in s.tasks && t in After(s, step).tasks
    requires !Holding(s.tasks[t]) && Holding(After(s, step).tasks[t])
    ensures After(s, step).tasks[t].Owned? && After(s, step).tasks[t].refs == 1
    ensures s.pages > 0 ==> step == ChargePage(t, true) && s.tasks[t] == Charge(After(s, step).tasks[t].stack, s.pages - 1)
  {
    assert PhaseOk(s, s.tasks[t]);
    hide Shape, AfterCpu;
    if OfCpu(step) || step.t != t {
      hide AfterTask;
      OtherStep(s, step, t);
    }
  }

  /** A fresh stack is made only when both slots were empty; without memory the task ends up without one. */
  lemma AllocatesFresh(s: State, t: nat, ok: bool)
    requires Shape(s) && Enabled(s, Allocate(t, ok))
    ensures var s' := After(s, Allocate(t, ok));
      && s'.slots == s.slots && s'.freed == s.freed
      && (ok ==> Held(s'.tasks[t]) == Some(s.next) && s'.next == s.next + 1)
      && (!ok ==> s' == s.(tasks := s.tasks[t := Idle]))
  {
    hide AfterCpu;
  }

  /** Only a CPU that goes down is drained, from its first slot, and it is back online after that. */
  lemma GoesDownAndUp(s: State, c: nat)
    requires Shape(s)
    ensures c in s.online ==> var s' := After(s, CpuDown(c)); s'.online == s.online - {c} && s'.drains == s.drains[c := Look(0)]
    ensures c in s.slots && c !in s.online && c !in s.drains ==> After(s, CpuUp(c)) == s.(online := s.online + {c})
  {
    hide AfterTask;
  }

  // ----- The grace period -----

  lemma CallbackStep(s: State, step: Step, t: nat)
    requires Shape(s) && Enabled(s, step) && t in s.tasks && step != GracePeriod(t) && !s.tasks[t].Callback?
    ensures t in After(s, step).tasks && !After(s, step).tasks[t].Callback?
  {
    hide Shape, AfterCpu;
    if OfCpu(step) || step.t != t {
      hide AfterTask;
      OtherStep(s, step, t);
    }
  }

  /** The callback that frees a released stack runs only after a grace period. */
  lemma {:induction false} CallbackNeedsGrace(s: State, run: seq<Step>, s': State, t: nat)
    requires Inv(s) && Reaches(s, run, s') && t in s.tasks && !s.tasks[t].Callback? && GracePeriod(t) !in run
    ensures t in s'.tasks && !s'.tasks[t].Callback?
    decreases |run|
  {
    if run != [] {
      CallbackStep(s, run[0], t);
      StepKeeps(s, run[0]);
      CallbackNeedsGrace(After(s, run[0]), run[1..], s', t);
    }
  }

  // ----- Offline CPUs -----

  /** The slots of an offline CPU are empty as far as its drain has come, and all of them once it is done. */
  ghost predicate Drained(s: State) {
    forall c, i :: c in s.slots && c !in s.online && 0 <= i < |s.slots[c]| && (c in s.drains ==> i < s.drains[c].slot) ==> s.slots[c][i].None?
  }

  lemma DrainedStep(s: State, step: Step)
    requires Shape(s) && Enabled(s, step) && Drained(s)
    ensures Drained(After(s, step))
  {
    hide PhaseOk;
    if OfCpu(step) {
      hide AfterTask;
    } else {
      SlotsAfter(s, step);
      hide AfterCpu, AfterTask;
    }
  }

  /** A task's step changes at most one slot, of an online CPU. */
  lemma SlotsAfter(s: State, step: Step)
    requires Shape(s) && Enabled(s, step) && !OfCpu(step)
    ensures var s' := After(s, step);
      && s'.online == s.online && s'.drains == s.drains && s'.slots.Keys == s.slots.Keys
      && forall c :: c in s.slots && c !in s.online ==> s'.slots[c] == s.slots[c]
  {
    hide PhaseOk, AfterCpu;
  }

  lemma {:induction false} DrainedRun(s0: State, run: seq<Step>, s: State)
    requires Inv(s0) && Drained(s0) && Reaches(s0, run, s)
    ensures Drained(s)
    decreases |run|
  {
    if run != [] {
      DrainedStep(s0, run[0]);
      StepKeeps(s0, run[0]);
      DrainedRun(After(s0, run[0]), run[1..], s);
    }
  }

  /** A CPU that is offline and whose drain is over has no stack left in its cache. */
  lemma OfflineKeepsNone(s0: State, run: seq<Step>, s: State, c: nat)
    requires Init(s0) && Reaches(s0, run, s) && c in s.slots && c !in s.online && c !in s.drains
    ensures forall i :: 0 <= i < |s.slots[c]| ==> s.slots[c][i].None?
  {
    InitInv(s0);
    DrainedRun(s0, run, s);
  }

  // ----- What one task can always do -----

  lemma {:induction false} ReachesMore(s0: State, run: seq<Step>, s: State, step: Step)
    requires Reaches(s0, run, s) && Shape(s) && Enabled(s, step)
    ensures Reaches(s0, run + [step], After(s, step))
    decreases |run|
  {
    if run == [] {
      assert (run + [step])[1..] == [];
    } else {
      ReachesMore(After(s0, run[0]), run[1..], s, step);
      assert (run + [step])[1..] == run[1..] + [step];
    }
  }

  /** One more step of a run. */
  lemma Extends(s0: State, run: seq<Step>, s: State, step: Step) returns (run': seq<Step>, s': State)
    requires Reaches(s0, run, s) && Inv(s) && Enabled(s, step)
    ensures run' == run + [step] && s' == After(s, step) && Reaches(s0, run', s') && Inv(s')
  {
    ReachesMore(s0, run, s, step);
    StepKeeps(s, step);
    run', s' := run + [step], After(s, step);
  }

  /** Stack `x` is in the cache or has been freed. */
  ghost predicate GivenBack(s: State, x: nat) { x in s.freed || exists c, i :: IsAt(s, x, InSlot(c, i)) }

  lemma {:induction false} DropsReferences(s0: State, run0: seq<Step>, s: State, t: nat) returns (run: seq<Step>, s': State)
    requires Reaches(s0, run0, s) && Inv(s) && t in s.tasks && s.tasks[t].Spent?
    ensures Reaches(s0, run, s') && Inv(s') && s' == At(s, t, Release(s.tasks[t].stack, 0))
    decreases s.tasks[t].refs
  {
    var x := s.tasks[t].stack;
    InvParts(s);
    assert PhaseOk(s, s.tasks[t]);
    hide Inv, Reaches, Shape;
    run, s' := Extends(s0, run0, s, PutRef(t, true));
    if s.tasks[t].refs > 1 {
      var s1 := s';
      run, s' := DropsReferences(s0, run, s1, t);
      assert s'.tasks == s.tasks[t := Release(x, 0)];
    }
  }

  /** The phase of a task that has offered its stack to `i` slots in vain. */
  function Offered(ph: Phase, i: nat): Phase
    requires ph.Release? || ph.Callback?
  {
    if ph.Release? then Release(ph.stack, i) else Callback(ph.stack, i)
  }

  lemma OfferEffect(s: State, t: nat, c: nat)
    requires Shape(s) && Enabled(s, OfferSlot(t, c))
    ensures c in s.slots && s.tasks[t].slot < |s.slots[c]|
    ensures var s', x, i := After(s, OfferSlot(t, c)), s.tasks[t].stack, s.tasks[t].slot;
      if s.slots[c][i].None? then IsAt(s', x, InSlot(c, i)) else s' == At(s, t, Offered(s.tasks[t], i + 1))
  {
    hide AfterCpu, PhaseOk;
  }

  /** Offering a stack to both slots of a CPU: it is taken if one is free, and otherwise nothing but the offers has happened. */
  lemma OffersBoth(s0: State, run0: seq<Step>, s: State, t: nat, c: nat) returns (run: seq<Step>, s': State)
    requires Reaches(s0, run0, s) && Inv(s) && t in s.tasks && c in s.online && c in s.slots && |s.slots[c]| == 2
    requires s.tasks[t].Release? || s.tasks[t].Callback?
    requires s.tasks[t].slot == 0
    ensures Reaches(s0, run, s') && Inv(s')
    ensures s.slots[c][0].None? || s.slots[c][1].None? ==> GivenBack(s', s.tasks[t].stack)
    ensures s.slots[c][0].Some? && s.slots[c][1].Some? ==> s' == At(s, t, Offered(s.tasks[t], 2))
  {
    hide Inv, Reaches, Shape, IsAt, After;
    InvParts(s);
    OfferEffect(s, t, c);
    run, s' := Extends(s0, run0, s, OfferSlot(t, c));
    if s.slots[c][0].Some? {
      var s1 := s';
      InvParts(s1);
      OfferEffect(s1, t, c);
      run, s' := Extends(s0, run, s1, OfferSlot(t, c));
      assert s.slots[c][1].Some? ==> s'.tasks == s.tasks[t := Offered(s.tasks[t], 2)];
    }
  }

  /** A release that found no slot waits for the grace period and then offers the stack again. */
  lemma Waits(s0: State, run0: seq<Step>, s: State, t: nat) returns (run: seq<Step>, s': State)
    requires Reaches(s0, run0, s) && Inv(s) && t in s.tasks && s.tasks[t].Release? && s.tasks[t].slot == 2
    ensures Reaches(s0, run, s') && Inv(s') && s' == At(s, t, Callback(s.tasks[t].stack, 0))
  {
    hide Inv, Reaches, Shape, AfterCpu;
    var x := s.tasks[t].stack;
    run, s' := Extends(s0, run0, s, Defer(t));
    run, s' := Extends(s0, run, s', GracePeriod(t));
    assert s'.tasks == s.tasks[t := Callback(x, 0)];
  }

  lemma NotDrained(s: State, c: nat)
    requires Shape(s) && c in s.online
    ensures c !in s.drains && c in s.slots && |s.slots[c]| == NR_CACHED_STACKS
  {}

  lemma FreeEffect(s: State, t: nat)
    requires Inv(s) && t in s.tasks && s.tasks[t].Callback? && s.tasks[t].slot == NR_CACHED_STACKS
    ensures Shape(s) && Enabled(s, FreeDeferred(t)) && GivenBack(After(s, FreeDeferred(t)), s.tasks[t].stack)
  {
    hide AfterCpu, PhaseOk;
  }

  lemma FromCallback(s0: State, run0: seq<Step>, s: State, t: nat, c: nat) returns (run: seq<Step>, s': State)
    requires Reaches(s0, run0, s) && Inv(s) && t in s.tasks && s.tasks[t].Callback? && s.tasks[t].slot == 0 && c in s.online
    ensures Reaches(s0, run, s') && GivenBack(s', s.tasks[t].stack)
  {
    InvParts(s);
    NotDrained(s, c);
    hide Inv, Reaches, Shape, IsAt, After, GivenBack, Enabled;
    run, s' := OffersBoth(s0, run0, s, t, c);
    if s.slots[c][0].Some? && s.slots[c][1].Some? {
      FreeEffect(s', t);
      run, s' := Extends(s0, run, s', FreeDeferred(t));
    }
  }

  lemma FromRelease(s0: State, run0: seq<Step>, s: State, t: nat, c: nat) returns (run: seq<Step>, s': State)
    requires Reaches(s0, run0, s) && Inv(s) && t in s.tasks && s.tasks[t].Release? && s.tasks[t].slot == 0 && c in s.online
    ensures Reaches(s0, run, s') && GivenBack(s', s.tasks[t].stack)
  {
    InvParts(s);
    NotDrained(s, c);
    hide Inv, Reaches, Shape, IsAt, After, GivenBack;
    run, s' := OffersBoth(s0, run0, s, t, c);
    if s.slots[c][0].Some? && s.slots[c][1].Some? {
      run, s' := Waits(s0, run, s', t);
      run, s' := FromCallback(s0, run, s', t, c);
    }
  }

  /** From every state in which a task has finished with its stack, the stack can be brought back. */
  lemma ComesBack(s: State, t: nat, c: nat) returns (run: seq<Step>, s': State)
    requires Inv(s) && t in s.tasks && s.tasks[t].Spent? && c in s.online
    ensures Reaches(s, run, s') && GivenBack(s', s.tasks[t].stack)
  {
    assert Reaches(s, [], s);
    hide Inv, Reaches, Shape, IsAt, After, GivenBack;
    run, s' := DropsReferences(s, [], s, t);
    run, s' := FromRelease(s, run, s', t, c);
  }

  /** A task that starts on a CPU with a cached stack can have it. */
  lemma ReusesCached(s: State, t: nat, c: nat) returns (run: seq<Step>, s': State)
    requires Inv(s) && t in s.tasks && s.tasks[t].Idle? && c in s.online && c in s.slots && |s.slots[c]| == 2
    requires s.slots[c][0].Some? || s.slots[c][1].Some?
    ensures Reaches(s, run, s') && s'.next == s.next
    ensures t in s'.tasks && Held(s'.tasks[t]) == if s.slots[c][0].Some? then s.slots[c][0] else s.slots[c][1]
  {
    assert Reaches(s, [], s);
    InvParts(s);
    hide Inv, Reaches, Shape;
    run, s' := Extends(s, [], s, Start(t));
    run, s' := Extends(s, run, s', ProbeSlot(t, c));
    if s.slots[c][0].None? {
      run, s' := Extends(s, run, s', ProbeSlot(t, c));
    }
  }

  lemma {:induction false} Uncharges(s0: State, run0: seq<Step>, s: State, t: nat) returns (run: seq<Step>, s': State)
    requires Reaches(s0, run0, s) && Inv(s) && t in s.tasks && s.tasks[t].Uncharge?
    ensures Reaches(s0, run, s') && Inv(s') && t in s'.tasks && s'.tasks[t] == Discard(s.tasks[t].stack)
    decreases s.tasks[t].done - s.tasks[t].from
  {
    InvParts(s);
    assert PhaseOk(s, s.tasks[t]);
    hide Inv, Reaches, Shape;
    run, s' := Extends(s0, run0, s, UnchargePage(t));
    if s.tasks[t].from + 1 < s.tasks[t].done {
      run, s' := Uncharges(s0, run, s', t);
    }
  }

  /** A stack that cannot be charged is freed, and its task is without one. */
  lemma RefusedIsFreed(s: State, t: nat) returns (run: seq<Step>, s': State)
    requires Inv(s) && t in s.tasks && s.tasks[t].Charge? && Enabled(s, ChargePage(t, false))
    ensures Reaches(After(s, ChargePage(t, false)), run, s')
    ensures s.tasks[t].stack in s'.freed && t in s'.tasks && s'.tasks[t] == Idle
  {
    StepKeeps(s, ChargePage(t, false));
    var s1 := After(s, ChargePage(t, false));
    assert Reaches(s1, [], s1);
    hide Inv, Reaches, Shape;
    run, s' := [], s1;
    if s1.tasks[t].Uncharge? {
      run, s' := Uncharges(s1, [], s1, t);
    }
    run, s' := Extends(s1, run, s', FreeUncharged(t));
  }
}
