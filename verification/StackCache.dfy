/**
 The per-CPU cache of kernel stacks: `alloc_thread_stack_node`, `free_thread_stack`, the RCU-delayed
 free and the CPU-offline drain, as atomic steps of any number of tasks and CPUs.

 A `this_cpu_xchg` or `this_cpu_cmpxchg` is one step. A task may migrate between two of them, so each
 picks an online CPU anew. Charging a page, undoing a charge, `vfree` and clearing a drained slot are
 steps of their own.
 */
module StackCache {
  import opened Options

  const NR_CACHED_STACKS := 2

  /** Where a task, or the callback that outlives it, is in its use of one stack. */
  datatype Phase =
    | Probe(slot: nat)                                  // looks for a cached stack
    | Charge(stack: nat, done: nat)                     // has charged the pages below `done`
    | Uncharge(stack: nat, from: nat, done: nat)        // a charge failed; undoes the pages below `done`
    | Discard(stack: nat)                               // frees the stack it could not charge
    | Owned(stack: nat, refs: nat)                      // runs on the stack
    | Unaccount(stack: nat, refs: nat, from: nat)       // `exit_task_stack_account`
    | Spent(stack: nat, refs: nat)                      // waits for the last reference to go
    | Release(stack: nat, slot: nat)                    // offers the stack to the cache
    | Leaked(stack: nat)                                // dropped while the task was not dead
    | Pending(stack: nat)                               // waits for the RCU grace period
    | Callback(stack: nat, slot: nat)                   // `thread_stack_free_rcu`
    | Idle

  /** The drain of an offline CPU looks at a slot, frees what it holds, then clears the slot. */
  datatype Drain = Look(slot: nat) | Clear(slot: nat)

  /**
   Stacks are numbered in order of creation, below `next`, and have `pages` pages each; `charged`
   holds the (stack, page) pairs charged to a memory group.
   */
  datatype State = State(pages: nat, next: nat, slots: map<nat, seq<Option<nat>>>, online: set<nat>,
                         drains: map<nat, Drain>, tasks: map<nat, Phase>, freed: set<nat>, charged: set<(nat, nat)>)

  function Held(ph: Phase): Option<nat> {
    if ph.Probe? || ph.Idle? then None else Some(ph.stack)
  }

  // ----- Steps -----

  datatype Step =
    | Start(t: nat)
    | ProbeSlot(t: nat, cpu: nat)
    | Allocate(t: nat, ok: bool)
    | ChargePage(t: nat, ok: bool)
    | UnchargePage(t: nat)
    | FreeUncharged(t: nat)
    | GetRef(t: nat)
    | PutRef(t: nat, dead: bool)
    | BeginExit(t: nat)
    | ExitPage(t: nat)
    | OfferSlot(t: nat, cpu: nat)
    | Defer(t: nat)
    | GracePeriod(t: nat)
    | FreeDeferred(t: nat)
    | CpuDown(cpu: nat)
    | CpuUp(cpu: nat)
    | DrainLook(cpu: nat)
    | DrainClear(cpu: nat)

  ghost predicate Enabled(s: State, step: Step) {
    match step
    case Start(t) => t in s.tasks && s.tasks[t].Idle?
    case ProbeSlot(t, cpu) =>
      t in s.tasks && s.tasks[t].Probe? && s.tasks[t].slot < NR_CACHED_STACKS && cpu in s.online
    case Allocate(t, _) => t in s.tasks && s.tasks[t] == Probe(NR_CACHED_STACKS)
    case ChargePage(t, _) => t in s.tasks && s.tasks[t].Charge? && s.tasks[t].done < s.pages
    case UnchargePage(t) => t in s.tasks && s.tasks[t].Uncharge? && s.tasks[t].from < s.tasks[t].done
    case FreeUncharged(t) => t in s.tasks && s.tasks[t].Discard?
    case GetRef(t) => t in s.tasks && (s.tasks[t].Owned? || s.tasks[t].Unaccount? || s.tasks[t].Spent?) && s.tasks[t].refs > 0
    case PutRef(t, _) =>
      // the task's own reference goes only after it has been un-accounted
      && t in s.tasks
      && (match s.tasks[t]
          case Owned(_, refs) => refs > 1
          case Unaccount(_, refs, _) => refs > 1
          case Spent(_, refs) => refs > 0
          case _ => false)
    case BeginExit(t) => t in s.tasks && s.tasks[t].Owned?
    case ExitPage(t) => t in s.tasks && s.tasks[t].Unaccount?
    case OfferSlot(t, cpu) =>
      && t in s.tasks && cpu in s.online
      && (s.tasks[t].Release? || s.tasks[t].Callback?) && s.tasks[t].slot < NR_CACHED_STACKS
    case Defer(t) => t in s.tasks && s.tasks[t].Release? && s.tasks[t].slot == NR_CACHED_STACKS
    case GracePeriod(t) => t in s.tasks && s.tasks[t].Pending?
    case FreeDeferred(t) => t in s.tasks && s.tasks[t].Callback? && s.tasks[t].slot == NR_CACHED_STACKS
    case CpuDown(cpu) => cpu in s.online
    case CpuUp(cpu) => cpu in s.slots && cpu !in s.online && cpu !in s.drains
    case DrainLook(cpu) => cpu in s.drains && s.drains[cpu].Look?
    case DrainClear(cpu) => cpu in s.drains && s.drains[cpu].Clear?
  }

  function At(s: State, t: nat, ph: Phase): State {
    s.(tasks := s.tasks[t := ph])
  }

  function SetSlot(s: State, cpu: nat, i: nat, v: Option<nat>): State
    requires cpu in s.slots && i < |s.slots[cpu]|
  {
    s.(slots := s.slots[cpu := s.slots[cpu][i := v]])
  }

  function SetRefs(ph: Phase, refs: nat): Phase
    requires ph.Owned? || ph.Unaccount? || ph.Spent?
  {
    match ph
    case Owned(x, _) => Owned(x, refs)
    case Unaccount(x, _, from) => Unaccount(x, refs, from)
    case Spent(x, _) => Spent(x, refs)
  }

  /** A full set of charges makes the stack the task's own; otherwise charging goes on. */
  function Charged(s: State, x: nat, done: nat): Phase {
    if done >= s.pages then Owned(x, 1) else Charge(x, done)
  }

  /** A step of a CPU that goes down, comes up or is drained; all others are steps of a task. */
  predicate OfCpu(step: Step) { step.CpuDown? || step.CpuUp? || step.DrainLook? || step.DrainClear? }

  function After(s: State, step: Step): State
    requires Shape(s) && Enabled(s, step)
  {
    if OfCpu(step) then AfterCpu(s, step) else AfterTask(s, step)
  }

  function AfterCpu(s: State, step: Step): State
    requires Shape(s) && Enabled(s, step) && OfCpu(step)
  {
    match step
    case CpuDown(cpu) => s.(online := s.online - {cpu}, drains := s.drains[cpu := Look(0)])
    case CpuUp(cpu) => s.(online := s.online + {cpu})
    case DrainLook(cpu) =>
      var i := s.drains[cpu].slot;
      if i == NR_CACHED_STACKS then s.(drains := s.drains - {cpu})
      else if s.slots[cpu][i].None? then s.(drains := s.drains[cpu := Look(i + 1)])
      else s.(freed := s.freed + {s.slots[cpu][i].value}, drains := s.drains[cpu := Clear(i)])
    case DrainClear(cpu) =>
      var i := s.drains[cpu].slot;
      SetSlot(s, cpu, i, None).(drains := s.drains[cpu := Look(i + 1)])
  }

  function AfterTask(s: State, step: Step): State
    requires Shape(s) && Enabled(s, step) && !OfCpu(step)
  {
    match step
    case Start(t) => At(s, t, Probe(0))
    case ProbeSlot(t, cpu) =>
      var i := s.tasks[t].slot;
      if s.slots[cpu][i].None? then At(s, t, Probe(i + 1))
      else At(SetSlot(s, cpu, i, None), t, Charged(s, s.slots[cpu][i].value, 0))
    case Allocate(t, ok) => if ok then At(s.(next := s.next + 1), t, Charged(s, s.next, 0)) else At(s, t, Idle)
    case ChargePage(t, ok) =>
      var x, k := s.tasks[t].stack, s.tasks[t].done;
      if ok then At(s.(charged := s.charged + {(x, k)}), t, Charged(s, x, k + 1))
      else if k == 0 then At(s, t, Discard(x)) else At(s, t, Uncharge(x, 0, k))
    case UnchargePage(t) =>
      var x, i, k := s.tasks[t].stack, s.tasks[t].from, s.tasks[t].done;
      At(s.(charged := s.charged - {(x, i)}), t, if i + 1 == k then Discard(x) else Uncharge(x, i + 1, k))
    case FreeUncharged(t) => At(s.(freed := s.freed + {s.tasks[t].stack}), t, Idle)
    case GetRef(t) => At(s, t, SetRefs(s.tasks[t], s.tasks[t].refs + 1))
    case PutRef(t, dead) =>
      var ph := s.tasks[t];
      if ph.refs > 1 then At(s, t, SetRefs(ph, ph.refs - 1))
      else if dead then At(s, t, Release(ph.stack, 0)) else At(s, t, Leaked(ph.stack))
    case BeginExit(t) => At(s, t, Unaccount(s.tasks[t].stack, s.tasks[t].refs, 0))
    case ExitPage(t) =>
      var x, r, i := s.tasks[t].stack, s.tasks[t].refs, s.tasks[t].from;
      if i < s.pages then At(s.(charged := s.charged - {(x, i)}), t, Unaccount(x, r, i + 1))
      else At(s, t, Spent(x, r))
    case OfferSlot(t, cpu) =>
      var x, i := s.tasks[t].stack, s.tasks[t].slot;
      if s.slots[cpu][i].None? then At(SetSlot(s, cpu, i, Some(x)), t, Idle)
      else At(s, t, if s.tasks[t].Release? then Release(x, i + 1) else Callback(x, i + 1))
    case Defer(t) => At(s, t, Pending(s.tasks[t].stack))
    case GracePeriod(t) => At(s, t, Callback(s.tasks[t].stack, 0))
    case FreeDeferred(t) => At(s.(freed := s.freed + {s.tasks[t].stack}), t, Idle)
  }

  // ----- Places -----

  datatype Place = InSlot(cpu: nat, slot: nat) | With(task: nat) | Gone

  /** The drain of `cpu` has freed the stack in this slot but not yet cleared the slot. */
  ghost predicate Dangling(s: State, cpu: nat, slot: nat) {
    cpu in s.drains && s.drains[cpu] == Clear(slot)
  }

  ghost predicate IsAt(s: State, x: nat, p: Place) {
    match p
    case InSlot(c, i) => c in s.slots && i < |s.slots[c]| && s.slots[c][i] == Some(x) && !Dangling(s, c, i)
    case With(t) => t in s.tasks && Held(s.tasks[t]) == Some(x)
    case Gone => x in s.freed
  }

  /** The pages of its stack that a task in this phase has charged. */
  ghost predicate HasCharged(pages: nat, ph: Phase, k: nat) {
    match ph
    case Charge(_, done) => k < done
    case Uncharge(_, from, done) => from <= k < done
    case Owned(_, _) => k < pages
    case Unaccount(_, _, from) => from <= k < pages
    case _ => false
  }

  // ----- The invariant -----

  ghost predicate PhaseOk(s: State, ph: Phase) {
    match ph
    case Probe(i) => i <= NR_CACHED_STACKS
    case Release(_, i) => i <= NR_CACHED_STACKS
    case Callback(_, i) => i <= NR_CACHED_STACKS
    case Charge(_, done) => done < s.pages
    case Uncharge(_, from, done) => from < done < s.pages
    case Unaccount(_, refs, from) => from <= s.pages && refs > 0
    case Owned(_, refs) => refs > 0
    case Spent(_, refs) => refs > 0
    case _ => true
  }

  /** Slots, drains and phases are in range, and only offline CPUs are drained. */
  ghost predicate Shape(s: State) {
    && (forall c :: c in s.slots ==> |s.slots[c]| == NR_CACHED_STACKS)
    && s.online <= s.slots.Keys
    && (forall c :: c in s.drains ==> c in s.slots && c !in s.online)
    && (forall c :: c in s.drains ==>
          match s.drains[c] { case Look(i) => i <= NR_CACHED_STACKS case Clear(i) => i < NR_CACHED_STACKS && s.slots[c][i].Some? })
    && (forall t :: t in s.tasks ==> PhaseOk(s, s.tasks[t]))
  }

  /** No stack is in two places at once. */
  ghost predicate Unique(s: State) {
    forall x: nat, p, q :: IsAt(s, x, p) && IsAt(s, x, q) ==> p == q
  }

  ghost predicate Somewhere(s: State, x: nat) {
    exists p :: IsAt(s, x, p)
  }

  /** Exactly the created stacks are somewhere: none is lost, none appears. */
  ghost predicate Accounted(s: State) {
    forall x: nat :: Somewhere(s, x) <==> x < s.next
  }

  ghost predicate ChargedBy(s: State, x: nat, k: nat) {
    exists t: nat :: IsAt(s, x, With(t)) && HasCharged(s.pages, s.tasks[t], k)
  }

  /** A page is charged exactly while a task holds the stack and has charged, and not yet undone, that page. */
  ghost predicate ChargesMatch(s: State) {
    forall x: nat, k: nat :: (x, k) in s.charged <==> ChargedBy(s, x, k)
  }

  ghost predicate Inv(s: State) {
    Shape(s) && Unique(s) && Accounted(s) && ChargesMatch(s)
  }

  ghost predicate Init(s: State) {
    && s.next == 0 && s.freed == {} && s.charged == {} && s.drains == map[]
    && s.online <= s.slots.Keys
    && (forall c :: c in s.slots ==> s.slots[c] == [None, None])
    && (forall t :: t in s.tasks ==> s.tasks[t] == Idle)
  }

  lemma InitInv(s: State)
    requires Init(s)
    ensures Inv(s)
  {
    forall x: nat, p ensures !IsAt(s, x, p) {}
  }

  lemma InvParts(s: State)
    requires Inv(s)
    ensures Shape(s) && Unique(s) && Accounted(s) && ChargesMatch(s)
  {}

  // ----- Moving one stack -----

  /** From `s` to `s'` stack `x` goes from place `p` to place `q`, and every other stack stays. */
  ghost predicate Moves(s: State, s': State, x: nat, p: Place, q: Place) {
    && IsAt(s, x, p)
    && s'.next == s.next
    && forall y: nat, r :: IsAt(s', y, r) <==> if y == x then r == q else IsAt(s, y, r)
  }

  /** No stack changes place. */
  ghost predicate Stays(s: State, s': State) {
    s'.next == s.next && forall y: nat, r :: IsAt(s', y, r) <==> IsAt(s, y, r)
  }

  lemma PlacesKept(s: State, s': State, x: nat, p: Place, q: Place)
    requires Unique(s) && Accounted(s) && (Stays(s, s') || Moves(s, s', x, p, q))
    ensures Unique(s') && Accounted(s')
  {
    forall y: nat ensures Somewhere(s', y) <==> Somewhere(s, y) {
      if Somewhere(s', y) {
        var r :| IsAt(s', y, r);
        assert Stays(s, s') ==> IsAt(s, y, r);
      }
      if Somewhere(s, y) {
        var r :| IsAt(s, y, r);
        assert IsAt(s', y, if Stays(s, s') || y != x then r else q);
      }
    }
  }

  /** The pages of stack `x` charged by task `t`. */
  ghost predicate Mine(s: State, t: nat, x: nat, k: nat) {
    IsAt(s, x, With(t)) && HasCharged(s.pages, s.tasks[t], k)
  }

  /** The charges follow when only task `t` changes and only its own charges change with it. */
  lemma ChargesKept(s: State, s': State, t: nat)
    requires ChargesMatch(s) && Unique(s) && Unique(s') && s'.pages == s.pages
    requires forall u :: u != t ==> (u in s'.tasks <==> u in s.tasks) && (u in s.tasks ==> s'.tasks[u] == s.tasks[u])
    requires forall x: nat, k: nat :: (x, k) in s'.charged <==>
      if IsAt(s, x, With(t)) || IsAt(s', x, With(t)) then Mine(s', t, x, k) else (x, k) in s.charged
    ensures ChargesMatch(s')
  {
    forall x: nat, k: nat ensures (x, k) in s'.charged <==> ChargedBy(s', x, k) {
      if IsAt(s', x, With(t)) {
        forall u: nat | IsAt(s', x, With(u)) ensures u == t { assert With(u) == With(t); }
      } else if IsAt(s, x, With(t)) {
        forall u: nat ensures !IsAt(s', x, With(u)) {
          if u != t {
            assert IsAt(s', x, With(u)) ==> IsAt(s, x, With(u));
            assert IsAt(s, x, With(u)) ==> With(u) == With(t);
          }
        }
      } else {
        forall u: nat ensures IsAt(s', x, With(u)) && HasCharged(s.pages, s'.tasks[u], k)
                         <==> IsAt(s, x, With(u)) && HasCharged(s.pages, s.tasks[u], k) {}
        assert (x, k) in s.charged <==> ChargedBy(s, x, k);
        if ChargedBy(s, x, k) {
          var u: nat :| IsAt(s, x, With(u)) && HasCharged(s.pages, s.tasks[u], k);
          assert IsAt(s', x, With(u)) && HasCharged(s'.pages, s'.tasks[u], k);
        }
        if ChargedBy(s', x, k) {
          var u: nat :| IsAt(s', x, With(u)) && HasCharged(s'.pages, s'.tasks[u], k);
          assert IsAt(s, x, With(u)) && HasCharged(s.pages, s.tasks[u], k);
        }
      }
    }
  }

  /** What is charged on the stack a task holds is what the task has charged. */
  lemma HolderCharges(s: State, t: nat, x: nat, k: nat)
    requires Unique(s) && ChargesMatch(s) && IsAt(s, x, With(t))
    ensures (x, k) in s.charged <==> HasCharged(s.pages, s.tasks[t], k)
  {
    assert (x, k) in s.charged <==> ChargedBy(s, x, k);
    if ChargedBy(s, x, k) {
      var u: nat :| IsAt(s, x, With(u)) && HasCharged(s.pages, s.tasks[u], k);
      assert With(u) == With(t);
    }
  }

  // ----- Every step keeps the invariant -----

  /** Steps in which a task goes on with the stack it has, or with none. */
  ghost predicate Private(s: State, step: Step)
    requires Shape(s) && Enabled(s, step)
  {
    match step
    case ProbeSlot(t, cpu) => s.slots[cpu][s.tasks[t].slot].None?
    case OfferSlot(t, cpu) => s.slots[cpu][s.tasks[t].slot].Some?
    case Allocate(_, ok) => !ok
    case FreeUncharged(_) => false
    case FreeDeferred(_) => false
    case CpuDown(_) => false
    case CpuUp(_) => false
    case DrainLook(_) => false
    case DrainClear(_) => false
    case _ => true
  }

  /** A new phase with the same stack. */
  ghost predicate KeepsStack(s: State, step: Step)
    requires Shape(s) && Enabled(s, step) && Private(s, step)
  {
    var s' := After(s, step);
    var ph := s'.tasks[step.t];
    && s' == s.(tasks := s.tasks[step.t := ph], charged := s'.charged)
    && PhaseOk(s, ph) && Held(ph) == Held(s.tasks[step.t])
  }

  lemma TakingKeepsStack(s: State, step: Step)
    requires Shape(s) && Enabled(s, step) && Private(s, step)
    requires step.Start? || step.ProbeSlot? || step.Allocate? || step.ChargePage? || step.UnchargePage?
    ensures KeepsStack(s, step)
  {
    hide AfterCpu;
    assert PhaseOk(s, s.tasks[step.t]);
    hide Shape;
  }

  lemma UsingKeepsStack(s: State, step: Step)
    requires Shape(s) && Enabled(s, step) && Private(s, step)
    requires step.GetRef? || step.PutRef? || step.BeginExit? || step.ExitPage?
    ensures KeepsStack(s, step)
  {
    hide AfterCpu;
    assert PhaseOk(s, s.tasks[step.t]);
    hide Shape;
  }

  lemma ReleasingKeepsStack(s: State, step: Step)
    requires Shape(s) && Enabled(s, step) && Private(s, step)
    requires step.OfferSlot? || step.Defer? || step.GracePeriod?
    ensures KeepsStack(s, step)
  {
    hide AfterCpu;
    assert PhaseOk(s, s.tasks[step.t]);
    hide Shape;
  }

  /** What a private step does to the stacks: nothing. */
  lemma PrivateEffect(s: State, step: Step)
    requires Shape(s) && Enabled(s, step) && Private(s, step)
    ensures KeepsStack(s, step)
  {
    hide AfterCpu, AfterTask, KeepsStack;
    if step.Start? || step.ProbeSlot? || step.Allocate? || step.ChargePage? || step.UnchargePage? {
      TakingKeepsStack(s, step);
    } else if step.GetRef? || step.PutRef? || step.BeginExit? || step.ExitPage? {
      UsingKeepsStack(s, step);
    } else {
      ReleasingKeepsStack(s, step);
    }
  }

  /** What a private step charges: page `k` is charged on stack `x` afterwards as the new phase says, or as before. */
  ghost predicate ChargesFollow(s: State, step: Step, k: nat)
    requires Shape(s) && Enabled(s, step) && Private(s, step)
  {
    var s' := After(s, step);
    && step.t in s.tasks && step.t in s'.tasks
    && (forall x: nat :: Held(s.tasks[step.t]) != Some(x) ==> ((x, k) in s'.charged <==> (x, k) in s.charged))
    && (forall x: nat :: Held(s.tasks[step.t]) == Some(x) && ((x, k) in s.charged <==> HasCharged(s.pages, s.tasks[step.t], k)) ==>
          ((x, k) in s'.charged <==> HasCharged(s.pages, s'.tasks[step.t], k)))
  }

  lemma PageSteps(s: State, step: Step, k: nat)
    requires Shape(s) && Enabled(s, step) && (step.ChargePage? || step.UnchargePage? || step.ExitPage?)
    ensures ChargesFollow(s, step, k)
  {
    hide AfterCpu;
    assert PhaseOk(s, s.tasks[step.t]);
    hide Shape;
  }

  lemma OtherSteps(s: State, step: Step, k: nat)
    requires Shape(s) && Enabled(s, step) && Private(s, step) && !step.ChargePage? && !step.UnchargePage? && !step.ExitPage?
    ensures ChargesFollow(s, step, k)
  {
    hide AfterCpu;
    assert PhaseOk(s, s.tasks[step.t]);
    hide Shape;
  }

  lemma PrivateCharges(s: State, step: Step, x: nat, k: nat)
    requires Inv(s) && Enabled(s, step) && Private(s, step)
    ensures var s' := After(s, step);
      (x, k) in s'.charged <==> if IsAt(s, x, With(step.t)) then Mine(s', step.t, x, k) else (x, k) in s.charged
  {
    hide After, Shape, Unique, Accounted, ChargesMatch;
    InvParts(s);
    PrivateEffect(s, step);
    if step.ChargePage? || step.UnchargePage? || step.ExitPage? {
      PageSteps(s, step, k);
    } else {
      OtherSteps(s, step, k);
    }
    if IsAt(s, x, With(step.t)) {
      HolderCharges(s, step.t, x, k);
    }
  }

  lemma PrivateKeeps(s: State, step: Step)
    requires Inv(s) && Enabled(s, step) && Private(s, step)
    ensures Inv(After(s, step))
  {
    var s' := After(s, step);
    PrivateEffect(s, step);
    PhaseChangeKeeps(s, s', step.t, s'.tasks[step.t]) by {
      forall x: nat, k: nat { PrivateCharges(s, step, x, k); }
    }
  }

  lemma PhaseChangeKeeps(s: State, s': State, t: nat, ph: Phase)
    requires Inv(s) && t in s.tasks && s' == s.(tasks := s.tasks[t := ph], charged := s'.charged)
    requires PhaseOk(s, ph) && Held(ph) == Held(s.tasks[t])
    requires forall x: nat, k: nat :: (x, k) in s'.charged <==>
      if IsAt(s, x, With(t)) then Mine(s', t, x, k) else (x, k) in s.charged
    ensures Inv(s')
  {
    forall u | u in s'.tasks ensures PhaseOk(s', s'.tasks[u]) {
      assert PhaseOk(s, if u == t then ph else s.tasks[u]);
    }
    forall y: nat, r ensures IsAt(s', y, r) <==> IsAt(s, y, r) {}
    assert Stays(s, s');
    PlacesKept(s, s', 0, Gone, Gone);
    ChargesKept(s, s', t);
  }

  lemma AllocateKeeps(s: State, step: Step)
    requires Inv(s) && Enabled(s, step) && step.Allocate? && step.ok
    ensures Inv(After(s, step))
  {
    var s' := After(s, step);
    var t, x := step.t, s.next;
    assert !Somewhere(s, x);
    forall y: nat, r ensures IsAt(s', y, r) <==> if y == x then r == With(t) else IsAt(s, y, r) {
      assert !IsAt(s, x, r);
    }
    assert IsAt(s', x, With(t));
    forall y: nat ensures Somewhere(s', y) <==> Somewhere(s, y) || y == x {
      if y != x && Somewhere(s, y) {
        var r :| IsAt(s, y, r);
        assert IsAt(s', y, r);
      }
      if y != x && Somewhere(s', y) {
        var r :| IsAt(s', y, r);
        assert IsAt(s, y, r);
      }
    }
    forall k: nat ensures (x, k) !in s.charged {
      assert (x, k) in s.charged <==> ChargedBy(s, x, k);
    }
    ChargesKept(s, s', t);
  }

  /** Steps that hand a stack from a task to a slot, back, or to the allocator of pages. */
  lemma HandOverKeeps(s: State, step: Step, x: nat, p: Place, q: Place)
    requires Inv(s) && Enabled(s, step)
    requires step.ProbeSlot? || step.OfferSlot? || step.FreeUncharged? || step.FreeDeferred?
    requires !Private(s, step)
    requires p == With(step.t) || q == With(step.t)
    requires Moves(s, After(s, step), x, p, q)
    ensures Inv(After(s, step))
  {
    var s' := After(s, step);
    var t := step.t;
    HandOverShape(s, step);
    hide After, Shape, Accounted;
    InvParts(s);
    PlacesKept(s, s', x, p, q);
    forall y: nat, k: nat ensures (y, k) in s'.charged <==>
      if IsAt(s, y, With(t)) || IsAt(s', y, With(t)) then Mine(s', t, y, k) else (y, k) in s.charged
    {
      if IsAt(s, y, With(t)) {
        HolderCharges(s, t, y, k);
      } else if IsAt(s', y, With(t)) {
        SlotUncharged(s, y, p, k);
      }
    }
    ChargesKept(s, s', t);
  }

  /** Such a step changes one task and no charge, and neither the old nor the new phase has any. */
  lemma HandOverShape(s: State, step: Step)
    requires Shape(s) && Enabled(s, step) && !Private(s, step)
    requires step.ProbeSlot? || step.OfferSlot? || step.FreeUncharged? || step.FreeDeferred?
    ensures var s' := After(s, step);
      && Shape(s') && s'.pages == s.pages && s'.charged == s.charged
      && step.t in s.tasks && s'.tasks == s.tasks[step.t := s'.tasks[step.t]]
      && (forall k: nat :: !HasCharged(s.pages, s.tasks[step.t], k) && !HasCharged(s.pages, s'.tasks[step.t], k))
  {}

  lemma SlotUncharged(s: State, x: nat, p: Place, k: nat)
    requires Unique(s) && ChargesMatch(s) && IsAt(s, x, p) && !p.With?
    ensures (x, k) !in s.charged
  {
    assert (x, k) in s.charged <==> ChargedBy(s, x, k);
    forall u: nat ensures !IsAt(s, x, With(u)) {
      assert With(u) != p;
    }
  }

  lemma ProbeKeeps(s: State, step: Step)
    requires Inv(s) && Enabled(s, step) && step.ProbeSlot? && !Private(s, step)
    ensures Inv(After(s, step))
  {
    var s' := After(s, step);
    var t, c, i := step.t, step.cpu, s.tasks[step.t].slot;
    var x := s.slots[c][i].value;
    assert IsAt(s, x, InSlot(c, i));
    forall y: nat, r ensures IsAt(s', y, r) <==> if y == x then r == With(t) else IsAt(s, y, r) {
      if y == x && IsAt(s, x, r) {
        assert r == InSlot(c, i);
      }
    }
    HandOverKeeps(s, step, x, InSlot(c, i), With(t));
  }

  lemma OfferKeeps(s: State, step: Step)
    requires Inv(s) && Enabled(s, step) && step.OfferSlot? && !Private(s, step)
    ensures Inv(After(s, step))
  {
    var s' := After(s, step);
    var t, c, i := step.t, step.cpu, s.tasks[step.t].slot;
    var x := s.tasks[t].stack;
    assert IsAt(s, x, With(t));
    forall y: nat, r ensures IsAt(s', y, r) <==> if y == x then r == InSlot(c, i) else IsAt(s, y, r) {
      if y == x && IsAt(s, x, r) {
        assert r == With(t);
      }
    }
    HandOverKeeps(s, step, x, With(t), InSlot(c, i));
  }

  lemma FreeKeeps(s: State, step: Step)
    requires Inv(s) && Enabled(s, step) && (step.FreeUncharged? || step.FreeDeferred?)
    ensures Inv(After(s, step))
  {
    var s' := After(s, step);
    var t := step.t;
    var x := s.tasks[t].stack;
    assert IsAt(s, x, With(t));
    forall y: nat, r ensures IsAt(s', y, r) <==> if y == x then r == Gone else IsAt(s, y, r) {
      if y == x && IsAt(s, x, r) {
        assert r == With(t);
      }
    }
    HandOverKeeps(s, step, x, With(t), Gone);
  }

  lemma ChargesUntouched(s: State, s': State)
    requires ChargesMatch(s) && s'.pages == s.pages && s'.tasks == s.tasks && s'.charged == s.charged
    ensures ChargesMatch(s')
  {
    forall x: nat, k: nat ensures (x, k) in s'.charged <==> ChargedBy(s', x, k) {
      assert (x, k) in s.charged <==> ChargedBy(s, x, k);
      forall t: nat ensures IsAt(s', x, With(t)) <==> IsAt(s, x, With(t)) {}
    }
  }

  lemma CpuKeeps(s: State, step: Step)
    requires Inv(s) && Enabled(s, step)
    requires OfCpu(step)
    ensures Inv(After(s, step))
  {
    var s' := After(s, step);
    var c := step.cpu;
    CpuShape(s, step);
    if Drains(s, step) {
      DrainMoves(s, step);
    } else {
      CpuStays(s, step);
    }
    hide Shape, Unique, Accounted, Moves, Stays, IsAt, ChargesMatch, Drains, After;
    if Drains(s, step) {
      PlacesKept(s, s', s.slots[c][s.drains[c].slot].value, InSlot(c, s.drains[c].slot), Gone);
    } else {
      PlacesKept(s, s', 0, Gone, Gone);
    }
    ChargesUntouched(s, s');
  }

  /** The drain of an offline CPU finds a stack in a slot. */
  ghost predicate Drains(s: State, step: Step)
    requires Shape(s) && Enabled(s, step)
  {
    step.DrainLook? && s.drains[step.cpu].slot < NR_CACHED_STACKS && s.slots[step.cpu][s.drains[step.cpu].slot].Some?
  }

  lemma CpuShape(s: State, step: Step)
    requires Shape(s) && Enabled(s, step) && OfCpu(step)
    ensures var s' := After(s, step); Shape(s') && s'.pages == s.pages && s'.tasks == s.tasks && s'.charged == s.charged
    ensures Drains(s, step) ==> step.cpu in s.slots && step.cpu in s.drains
  {
    hide AfterTask, PhaseOk;
    var s' := After(s, step);
    forall t | t in s'.tasks ensures PhaseOk(s', s'.tasks[t]) {
      SamePhaseOk(s, s', s.tasks[t]);
    }
    match step
    case CpuDown(_) =>
    case CpuUp(_) =>
    case DrainLook(_) =>
    case DrainClear(_) =>
  }

  lemma SamePhaseOk(s: State, s': State, ph: Phase)
    requires PhaseOk(s, ph) && s'.pages == s.pages
    ensures PhaseOk(s', ph)
  {}

  lemma DrainMoves(s: State, step: Step)
    requires Inv(s) && Enabled(s, step) && Drains(s, step)
    ensures var c, i := step.cpu, s.drains[step.cpu].slot; Moves(s, After(s, step), s.slots[c][i].value, InSlot(c, i), Gone)
  {
    hide AfterTask, PhaseOk;
    var s', c, i := After(s, step), step.cpu, s.drains[step.cpu].slot;
    var x := s.slots[c][i].value;
    assert IsAt(s, x, InSlot(c, i));
    hide Accounted, ChargesMatch;
    forall y: nat, r ensures IsAt(s', y, r) <==> if y == x then r == Gone else IsAt(s, y, r) {
      if y == x && IsAt(s, x, r) {
        assert r == InSlot(c, i);
      }
    }
  }

  lemma CpuStays(s: State, step: Step)
    requires Shape(s) && Enabled(s, step) && !Drains(s, step) && OfCpu(step)
    ensures Stays(s, After(s, step))
  {
    hide AfterTask, PhaseOk;
    var s' := After(s, step);
    forall y: nat, r ensures IsAt(s', y, r) <==> IsAt(s, y, r) {}
  }

  lemma StepKeeps(s: State, step: Step)
    requires Inv(s) && Enabled(s, step)
    ensures Inv(After(s, step))
  {
    if Private(s, step) {
      PrivateKeeps(s, step);
    } else {
      match step
      case ProbeSlot(_, _) => ProbeKeeps(s, step);
      case OfferSlot(_, _) => OfferKeeps(s, step);
      case Allocate(_, _) => AllocateKeeps(s, step);
      case FreeUncharged(_) => FreeKeeps(s, step);
      case FreeDeferred(_) => FreeKeeps(s, step);
      case _ => CpuKeeps(s, step);
    }
  }

  // ----- Runs -----

  /** `Shape` is what a step needs to be defined. It restricts no run: the invariant implies it in every state reached. */
  ghost predicate Reaches(s0: State, run: seq<Step>, s: State)
    decreases |run|
  {
    if run == [] then s0 == s
    else Shape(s0) && Enabled(s0, run[0]) && Reaches(After(s0, run[0]), run[1..], s)
  }

  lemma {:induction false} RunKeeps(s0: State, run: seq<Step>, s: State)
    requires Inv(s0) && Reaches(s0, run, s)
    ensures Inv(s)
    decreases |run|
  {
    if run != [] {
      StepKeeps(s0, run[0]);
      RunKeeps(After(s0, run[0]), run[1..], s);
    }
  }

  /** In every interleaving each created stack is in exactly one place, and no other stack is anywhere. */
  lemma OnePlaceEach(s0: State, run: seq<Step>, s: State, x: nat)
    requires Init(s0) && Reaches(s0, run, s)
    ensures x < s.next <==> exists p :: IsAt(s, x, p)
    ensures forall p, q :: IsAt(s, x, p) && IsAt(s, x, q) ==> p == q
  {
    InitInv(s0);
    RunKeeps(s0, run, s);
    assert Somewhere(s, x) <==> x < s.next;
  }

  /** A step that frees pages. */
  ghost predicate Frees(s: State, step: Step, x: nat)
    requires Shape(s) && Enabled(s, step)
  {
    match step
    case FreeUncharged(t) => s.tasks[t].stack == x
    case FreeDeferred(t) => s.tasks[t].stack == x
    case DrainLook(c) => s.drains[c].slot < NR_CACHED_STACKS && s.slots[c][s.drains[c].slot] == Some(x)
    case _ => false
  }

  /** Nothing is freed that was freed before, that any task still has, or that is still charged. */
  lemma FreedOnce(s0: State, run: seq<Step>, s: State, step: Step, x: nat)
    requires Init(s0) && Reaches(s0, run, s) && Shape(s) && Enabled(s, step) && Frees(s, step, x)
    ensures x !in s.freed && x in After(s, step).freed
    ensures forall k: nat :: (x, k) !in s.charged
    ensures forall t: nat :: IsAt(s, x, With(t)) ==> (step.FreeUncharged? || step.FreeDeferred?) && t == step.t
  {
    InitInv(s0);
    RunKeeps(s0, run, s);
    var p := if step.DrainLook? then InSlot(step.cpu, s.drains[step.cpu].slot) else With(step.t);
    assert IsAt(s, x, p);
    forall k: nat ensures (x, k) !in s.charged {
      if p.With? {
        HolderCharges(s, p.task, x, k);
      } else {
        SlotUncharged(s, x, p, k);
      }
    }
    assert x in s.freed ==> IsAt(s, x, Gone);
    forall t: nat | IsAt(s, x, With(t)) ensures With(t) == p {}
  }

  /** A freed stack is never handed out, cached or freed again. */
  lemma {:induction false} FreedForever(s: State, run: seq<Step>, s': State, x: nat)
    requires Inv(s) && Reaches(s, run, s') && x in s.freed
    ensures IsAt(s', x, Gone) && Inv(s')
    ensures forall p :: IsAt(s', x, p) ==> p == Gone
    decreases |run|
  {
    assert IsAt(s, x, Gone);
    if run != [] {
      StepKeeps(s, run[0]);
      FreedForever(After(s, run[0]), run[1..], s', x);
    }
  }

  /**
   Charging is all or nothing: a stack a task runs on has every page charged; one that waits for its last
   reference, for the grace period or in a slot, and one that is freed, has none.
   */
  lemma ChargedAllOrNothing(s0: State, run: seq<Step>, s: State, x: nat, p: Place, k: nat)
    requires Init(s0) && Reaches(s0, run, s) && IsAt(s, x, p)
    ensures p.With? && s.tasks[p.task].Owned? ==> ((x, k) in s.charged <==> k < s.pages)
    ensures !p.With? ==> (x, k) !in s.charged
    ensures p.With? ==> var ph := s.tasks[p.task];
      ph.Discard? || ph.Spent? || ph.Release? || ph.Leaked? || ph.Pending? || ph.Callback? ==> (x, k) !in s.charged
  {
    hide Inv, Init, Reaches, Unique, Accounted, ChargesMatch, Shape;
    InitInv(s0);
    RunKeeps(s0, run, s);
    InvParts(s);
    if p.With? {
      HolderCharges(s, p.task, x, k);
    } else {
      SlotUncharged(s, x, p, k);
    }
  }
}
