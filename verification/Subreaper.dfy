/**
 The child-subreaper flags: `is_child_subreaper`, set by prctl, and `has_child_subreaper`, a cached
 summary of the ancestors that fork copies and that prctl pushes down with `walk_process_tree`.

 prctl writes the first flag without a lock and then walks under the tasklist lock held for
 reading, so walks of several callers interleave with each other but never with fork. A visit reads the
 cached flag and writes it in two steps, so two walks may both find a process unflagged.
 */
module Subreaper {
  import opened ProcessTree

  /**
   `callers`: the process of each thread that has set the flag and not yet begun its walk.
   `marked`: processes whose flag was switched on with no walk begun since.
   `walks`: per walk in progress, the processes it still has to visit; `descending` once it has found
   the first of them unflagged and is about to flag it.
   `ever`: processes that have been subreapers at some time.
   */
  datatype State = State(f: Forest, reapers: set<nat>, isSub: set<nat>, hasSub: set<nat>,
                         callers: multiset<nat>, marked: set<nat>, walks: map<nat, Walk>, ever: set<nat>)

  datatype Walk = Walk(root: nat, work: seq<nat>, descending: bool)

  /** `propagate_has_child_subreaper`, as a visitor over the set of flagged processes. */
  function Propagate(reapers: set<nat>, flagged: set<nat>, c: nat): (set<nat>, int) {
    if c in flagged || c in reapers then (flagged, 0) else (flagged + {c}, 1)
  }

  // ----- Growing the forest -----

  /** Links a new process under `parent`, as fork does. */
  function AddProcess(f: Forest, parent: nat): Forest
    requires parent in f.tasks
  {
    var t := f.tasks[parent];
    Forest(f.next + 1,
           f.tasks[parent := t.(children := t.children + [f.next])][f.next := Task(f.next, parent, [])],
           f.threads[f.next := [f.next]])
  }

  /** Adds a thread to the group of `cur`; it shares the real parent of `cur`. */
  function AddThread(f: Forest, cur: nat): Forest
    requires cur in f.tasks && f.tasks[cur].leader in f.threads
  {
    var l := f.tasks[cur].leader;
    Forest(f.next + 1, f.tasks[f.next := Task(l, f.tasks[cur].realParent, [])],
           f.threads[l := f.threads[l] + [f.next]])
  }

  lemma NextIsNew(f: Forest)
    requires WF(f)
    ensures f.next !in f.tasks && f.next !in f.threads
  {
    assert f.next in f.tasks ==> TaskOk(f, f.next);
    assert f.next in f.threads ==> GroupOk(f, f.next);
  }

  lemma AddProcessTask(f: Forest, parent: nat, t: nat)
    requires WF(f) && parent in f.tasks && t in f.tasks
    ensures TaskOk(AddProcess(f, parent), t)
  {
    NextIsNew(f);
    var g := AddProcess(f, parent);
    assert TaskOk(f, t);
    assert g.tasks[t].leader == f.tasks[t].leader && g.tasks[t].realParent == f.tasks[t].realParent;
    forall c | c in g.tasks[t].children ensures g.tasks[t].leader < c && c in g.tasks && c in g.threads && g.tasks[c].realParent == t {
      assert c == f.next || c in f.tasks[t].children;
    }
  }

  lemma AddProcessGroup(f: Forest, parent: nat, l: nat)
    requires WF(f) && parent in f.tasks && l in AddProcess(f, parent).threads
    ensures GroupOk(AddProcess(f, parent), l)
  {
    NextIsNew(f);
    assert l != f.next ==> GroupOk(f, l);
    hide WF, TaskOk;
  }

  lemma AddProcessNew(f: Forest, parent: nat)
    requires WF(f) && parent in f.tasks
    ensures TaskOk(AddProcess(f, parent), f.next)
  {
    NextIsNew(f);
    hide WF;
    assert AddProcess(f, parent).tasks[f.next] == Task(f.next, parent, []);
  }

  lemma AddProcessWF(f: Forest, parent: nat)
    requires WF(f) && parent in f.tasks
    ensures WF(AddProcess(f, parent))
  {
    hide TaskOk, GroupOk;
    var g := AddProcess(f, parent);
    forall t | t in g.tasks ensures TaskOk(g, t) {
      if t == f.next {
        AddProcessNew(f, parent);
      } else {
        AddProcessTask(f, parent, t);
      }
    }
    forall l | l in g.threads ensures GroupOk(g, l) {
      AddProcessGroup(f, parent, l);
    }
  }

  /** The new process hangs below the process of `parent`; every other link is as before. */
  lemma AddProcessLinks(f: Forest, parent: nat, c: nat)
    requires WF(f) && parent in f.tasks
    ensures Linked(AddProcess(f, parent), c) <==> Linked(f, c) || c == f.next
    ensures Linked(f, c) ==> ParentProcess(AddProcess(f, parent), c) == ParentProcess(f, c)
    ensures Linked(f, c) ==> c < f.next && ParentProcess(f, c) < c
    ensures ParentProcess(AddProcess(f, parent), f.next) == f.tasks[parent].leader
  {
    NextIsNew(f);
    if c in f.tasks {
      assert TaskOk(f, c) && TaskOk(f, f.tasks[c].realParent);
    }
  }

  lemma AddThreadTask(f: Forest, cur: nat, t: nat)
    requires WF(f) && cur in f.tasks && f.tasks[cur].leader in f.threads && t in AddThread(f, cur).tasks
    ensures TaskOk(AddThread(f, cur), t)
  {
    NextIsNew(f);
    var g := AddThread(f, cur);
    var l := f.tasks[cur].leader;
    assert TaskOk(f, cur) && GroupOk(f, l);
    assert g.threads[l][|f.threads[l]|] == f.next;
    if t == f.next {
      assert g.tasks[t] == Task(l, f.tasks[cur].realParent, []);
    } else {
      assert TaskOk(f, t);
      assert f.tasks[t].leader == l ==> t in g.threads[l];
      assert g.tasks[t] == f.tasks[t];
      forall c | c in f.tasks[t].children ensures c in g.tasks && c in g.threads && g.tasks[c] == f.tasks[c] {}
    }
  }

  lemma AddThreadGroup(f: Forest, cur: nat, k: nat)
    requires WF(f) && cur in f.tasks && f.tasks[cur].leader in f.threads && k in f.threads
    ensures GroupOk(AddThread(f, cur), k)
  {
    NextIsNew(f);
    assert GroupOk(f, k);
  }

  lemma AddThreadWF(f: Forest, cur: nat)
    requires WF(f) && cur in f.tasks
    ensures f.tasks[cur].leader in f.threads && WF(AddThread(f, cur))
  {
    assert TaskOk(f, cur);
    var g := AddThread(f, cur);
    forall t | t in g.tasks ensures TaskOk(g, t) {
      AddThreadTask(f, cur, t);
    }
    forall k | k in g.threads ensures GroupOk(g, k) {
      AddThreadGroup(f, cur, k);
    }
  }

  lemma AddThreadLinks(f: Forest, cur: nat, c: nat)
    requires WF(f) && cur in f.tasks && f.tasks[cur].leader in f.threads
    ensures Linked(AddThread(f, cur), c) <==> Linked(f, c)
    ensures Linked(f, c) ==> ParentProcess(AddThread(f, cur), c) == ParentProcess(f, c)
  {
    NextIsNew(f);
    assert TaskOk(f, cur);
    assert TaskOk(f, f.tasks[cur].realParent);
    if c in f.tasks {
      assert TaskOk(f, c);
    }
  }

  // ----- Steps -----

  datatype Step =
    | CloneProcess(cur: nat, sibling: bool, reaper: bool)
    | CloneThread(cur: nat)
    | SetFlag(me: nat)
    | ClearFlag(me: nat)
    | BeginWalk(id: nat, me: nat)
    | Look(id: nat)
    | Mark(id: nat)
    | EndWalk(id: nat)

  ghost predicate Enabled(s: State, step: Step)
    requires WF(s.f)
  {
    match step
    case CloneProcess(cur, _, _) => s.walks == map[] && cur in s.f.tasks
    case CloneThread(cur) => s.walks == map[] && cur in s.f.tasks
    case SetFlag(me) => me in s.f.threads
    case ClearFlag(me) => me in s.f.threads
    case BeginWalk(id, me) => me in s.callers && me in s.f.threads && id !in s.walks
    case Look(id) => id in s.walks && !s.walks[id].descending && s.walks[id].work != [] && Above(s.f, -1, s.walks[id].work)
    case Mark(id) => id in s.walks && s.walks[id].descending && s.walks[id].work != [] && Above(s.f, -1, s.walks[id].work)
    case EndWalk(id) => id in s.walks && s.walks[id].work == []
  }

  ghost function After(s: State, step: Step): State
    requires WF(s.f) && Enabled(s, step)
  {
    match step
    case CloneProcess(cur, sibling, reaper) =>
      assert TaskOk(s.f, cur);
      var parent := if sibling then s.f.tasks[cur].realParent else cur;
      var p := s.f.tasks[parent].leader;
      var c := s.f.next;
      s.(f := AddProcess(s.f, parent),
         reapers := if reaper then s.reapers + {c} else s.reapers,
         hasSub := if p in s.hasSub || p in s.isSub then s.hasSub + {c} else s.hasSub)
    case CloneThread(cur) => AddThreadWF(s.f, cur); s.(f := AddThread(s.f, cur))
    case SetFlag(me) =>
      s.(isSub := s.isSub + {me}, ever := s.ever + {me}, callers := s.callers + multiset{me},
         marked := if me in s.isSub then s.marked else s.marked + {me})
    case ClearFlag(me) => s.(isSub := s.isSub - {me})
    case BeginWalk(id, me) =>
      s.(callers := s.callers - multiset{me}, marked := s.marked - {me},
         walks := s.walks[id := Walk(me, Kids(s.f, me), false)])
    case Look(id) =>
      var w := s.walks[id];
      if Propagate(s.reapers, s.hasSub, w.work[0]).1 == 0 then
        s.(walks := s.walks[id := w.(work := NextWork(s.f, w.work, 0))])
      else
        s.(walks := s.walks[id := w.(descending := true)])
    case Mark(id) =>
      var w := s.walks[id];
      s.(hasSub := s.hasSub + {w.work[0]}, walks := s.walks[id := Walk(w.root, NextWork(s.f, w.work, 1), false)])
    case EndWalk(id) => s.(walks := s.walks - {id})
  }

  // ----- The invariant -----

  /** Some walk in progress will still visit `c`. */
  ghost predicate Awaited(s: State, c: nat) {
    exists id :: id in s.walks && c in s.walks[id].work
  }

  /** The children of `p` must carry the flag: `p` carries it, or is a subreaper whose walk has begun. */
  ghost predicate Passes(s: State, p: nat) {
    p in s.hasSub || (p in s.isSub && p !in s.marked)
  }

  ghost predicate EdgeOk(s: State, c: nat)
    requires Linked(s.f, c)
  {
    Passes(s, ParentProcess(s.f, c)) ==> c in s.hasSub || c in s.reapers || Awaited(s, c)
  }

  /** `c` has a proper ancestor in `set`. */
  ghost predicate BelowSome(f: Forest, roots: set<nat>, c: nat)
    requires WF(f)
    decreases c
  {
    && Linked(f, c)
    && (assert TaskOk(f, f.tasks[c].realParent);
        var p := ParentProcess(f, c);
        p in roots || BelowSome(f, roots, p))
  }

  ghost predicate WalkOk(s: State, id: nat)
    requires WF(s.f) && id in s.walks
  {
    && Above(s.f, -1, s.walks[id].work)
    && (s.walks[id].descending ==> s.walks[id].work != [] && s.walks[id].work[0] !in s.reapers)
    && forall c :: c in s.walks[id].work ==> BelowSome(s.f, s.ever, c)
  }

  ghost predicate Inv(s: State) {
    && WF(s.f)
    && s.isSub <= s.ever
    && (forall p :: p in s.callers ==> p in s.ever)
    && (forall c :: Linked(s.f, c) ==> EdgeOk(s, c))
    && (forall c :: c in s.hasSub ==> c < s.f.next && BelowSome(s.f, s.ever, c))
    && (forall id :: id in s.walks ==> WalkOk(s, id))
  }

  /** Any forest, no flag set and nobody walking. */
  ghost predicate Init(s: State) {
    WF(s.f) && s.isSub == s.hasSub == s.marked == s.ever == {} && s.callers == multiset{} && s.walks == map[]
  }

  lemma {:induction false} BelowSomeGrows(f: Forest, g: Forest, roots: set<nat>, more: set<nat>, c: nat)
    requires WF(f) && WF(g) && roots <= more
    requires forall x :: Linked(f, x) ==> Linked(g, x) && ParentProcess(g, x) == ParentProcess(f, x)
    requires BelowSome(f, roots, c)
    ensures BelowSome(g, more, c)
    decreases c
  {
    assert TaskOk(f, f.tasks[c].realParent);
    if ParentProcess(f, c) !in roots {
      BelowSomeGrows(f, g, roots, more, ParentProcess(f, c));
    }
  }

  lemma CloneProcessKeeps(s: State, step: Step)
    requires Inv(s) && step.CloneProcess? && Enabled(s, step)
    ensures Inv(After(s, step))
  {
    var s' := After(s, step);
    assert TaskOk(s.f, step.cur);
    var parent := if step.sibling then s.f.tasks[step.cur].realParent else step.cur;
    AddProcessWF(s.f, parent);
    forall c: nat { AddProcessLinks(s.f, parent, c); }
    var p := s.f.tasks[parent].leader;
    assert TaskOk(s.f, parent);
    forall c | Linked(s'.f, c) ensures EdgeOk(s', c) {
      if c != s.f.next {
        assert EdgeOk(s, c);
        assert TaskOk(s.f, s.f.tasks[c].realParent);
      }
    }
    forall c | c in s'.hasSub ensures BelowSome(s'.f, s'.ever, c) {
      if c in s.hasSub {
        BelowSomeGrows(s.f, s'.f, s.ever, s'.ever, c);
      } else if p !in s.ever {
        BelowSomeGrows(s.f, s'.f, s.ever, s'.ever, p);
      }
    }
  }

  lemma CloneThreadKeeps(s: State, step: Step)
    requires Inv(s) && step.CloneThread? && Enabled(s, step)
    ensures Inv(After(s, step))
  {
    var s' := After(s, step);
    AddThreadWF(s.f, step.cur);
    forall c: nat { AddThreadLinks(s.f, step.cur, c); }
    forall c | Linked(s'.f, c) ensures EdgeOk(s', c) {
      assert EdgeOk(s, c);
    }
    forall c | c in s'.hasSub ensures BelowSome(s'.f, s'.ever, c) {
      BelowSomeGrows(s.f, s'.f, s.ever, s'.ever, c);
    }
  }

  lemma FlagKeeps(s: State, step: Step)
    requires Inv(s) && (step.SetFlag? || step.ClearFlag?) && Enabled(s, step)
    ensures Inv(After(s, step))
  {
    var s' := After(s, step);
    forall c | Linked(s'.f, c) ensures EdgeOk(s', c) {
      assert EdgeOk(s, c);
    }
    forall c | BelowSome(s.f, s.ever, c) ensures BelowSome(s'.f, s'.ever, c) {
      BelowSomeGrows(s.f, s'.f, s.ever, s'.ever, c);
    }
    forall id | id in s'.walks ensures WalkOk(s', id) {
      assert WalkOk(s, id);
    }
  }

  lemma BeginWalkKeeps(s: State, step: Step)
    requires Inv(s) && step.BeginWalk? && Enabled(s, step)
    ensures Inv(After(s, step))
  {
    var s' := After(s, step);
    KidsAbove(s.f, step.me);
    assert s'.walks[step.id].work == Kids(s.f, step.me);
    forall c | Linked(s'.f, c) ensures EdgeOk(s', c) {
      assert EdgeOk(s, c);
      KidsAre(s.f, step.me, c);
      if Awaited(s, c) {
        var id :| id in s.walks && c in s.walks[id].work;
        assert id in s'.walks && c in s'.walks[id].work;
      }
    }
    forall id | id in s'.walks ensures WalkOk(s', id) {
      if id == step.id {
        forall c | c in s'.walks[id].work ensures BelowSome(s'.f, s'.ever, c) {
          KidsAre(s.f, step.me, c);
        }
      } else {
        assert WalkOk(s, id);
      }
    }
  }

  lemma LookKeeps(s: State, step: Step)
    requires Inv(s) && step.Look? && Enabled(s, step)
    ensures Inv(After(s, step))
  {
    var s' := After(s, step);
    var id := step.id;
    var work := s.walks[id].work;
    assert WalkOk(s, id);
    forall c | Linked(s'.f, c) ensures EdgeOk(s', c) {
      assert EdgeOk(s, c);
      if Awaited(s, c) {
        var x :| x in s.walks && c in s.walks[x].work;
        assert c in s.hasSub || c in s.reapers || (x in s'.walks && c in s'.walks[x].work);
      }
    }
    NextWorkLighter(s.f, work, 0);
    forall x | x in s'.walks ensures WalkOk(s', x) {
      assert WalkOk(s, x);
    }
  }

  /** The work list after a process was flagged: it leaves the list and its children enter. */
  lemma MarkWork(s: State, id: nat, c: nat)
    requires Inv(s) && Enabled(s, Mark(id))
    ensures var work := s.walks[id].work; var s' := After(s, Mark(id));
      && (c in work && c != work[0] ==> c in s'.walks[id].work)
      && (c in s'.walks[id].work ==> c in work || (Linked(s.f, c) && ParentProcess(s.f, c) == work[0]))
      && (Linked(s.f, c) && ParentProcess(s.f, c) == work[0] ==> c in s'.walks[id].work)
  {
    KidsAre(s.f, s.walks[id].work[0], c);
  }

  lemma MarkKeeps(s: State, step: Step)
    requires Inv(s) && step.Mark? && Enabled(s, step)
    ensures Inv(After(s, step))
  {
    var s' := After(s, step);
    var id := step.id;
    var work := s.walks[id].work;
    assert WalkOk(s, id);
    forall c | Linked(s'.f, c) ensures EdgeOk(s', c) {
      assert EdgeOk(s, c);
      MarkWork(s, id, c);
      if Awaited(s, c) {
        var x :| x in s.walks && c in s.walks[x].work;
        assert c == work[0] || (x in s'.walks && c in s'.walks[x].work);
      }
      assert c in s'.walks[id].work ==> Awaited(s', c);
    }
    NextWorkLighter(s.f, work, 1);
    forall x | x in s'.walks ensures WalkOk(s', x) {
      if x == id {
        forall c | c in s'.walks[id].work ensures BelowSome(s.f, s.ever, c) {
          MarkWork(s, id, c);
        }
      } else {
        assert WalkOk(s, x);
      }
    }
  }

  lemma EndWalkKeeps(s: State, step: Step)
    requires Inv(s) && step.EndWalk? && Enabled(s, step)
    ensures Inv(After(s, step))
  {
    var s' := After(s, step);
    forall c | Linked(s'.f, c) ensures EdgeOk(s', c) {
      assert EdgeOk(s, c);
      if Awaited(s, c) {
        var x :| x in s.walks && c in s.walks[x].work;
        assert x in s'.walks && c in s'.walks[x].work;
      }
    }
    forall id | id in s'.walks ensures WalkOk(s', id) {
      assert WalkOk(s, id);
    }
  }

  lemma StepKeeps(s: State, step: Step)
    requires Inv(s) && Enabled(s, step)
    ensures Inv(After(s, step))
  {
    match step
    case CloneProcess(_, _, _) => CloneProcessKeeps(s, step);
    case CloneThread(_) => CloneThreadKeeps(s, step);
    case SetFlag(_) => FlagKeeps(s, step);
    case ClearFlag(_) => FlagKeeps(s, step);
    case BeginWalk(_, _) => BeginWalkKeeps(s, step);
    case Look(_) => LookKeeps(s, step);
    case Mark(_) => MarkKeeps(s, step);
    case EndWalk(_) => EndWalkKeeps(s, step);
  }

  // ----- Runs -----

  /** `s` is reached from `s0` by the steps of `run`. */
  ghost predicate Reaches(s0: State, run: seq<Step>, s: State)
    decreases |run|
  {
    if run == [] then s0 == s
    else WF(s0.f) && Enabled(s0, run[0]) && Reaches(After(s0, run[0]), run[1..], s)
  }

  lemma {:induction false} RunKeeps(s0: State, run: seq<Step>, s: State)
    requires Inv(s0) && Reaches(s0, run, s)
    ensures Inv(s)
    decreases |run|
  {
    if run != [] {
      StepKeeps(s0, run[0]);
      RunKeeps(After(s0, run[0]), run[1..], s);
    }
  }

  /** `d` descends from `p`, and no process on the way down, `d` included, is a namespace reaper. */
  ghost predicate Descends(s: State, p: nat, d: nat)
    requires WF(s.f)
    decreases d
  {
    && Linked(s.f, d)
    && d !in s.reapers
    && (assert TaskOk(s.f, s.f.tasks[d].realParent);
        ParentProcess(s.f, d) == p || Descends(s, p, ParentProcess(s.f, d)))
  }

  /** A walk still has to visit `c`, which is bare although its parent passes the flag on. */
  ghost predicate Owing(s: State, id: nat, c: nat) {
    && id in s.walks && c in s.walks[id].work
    && Linked(s.f, c) && c !in s.hasSub && c !in s.reapers
    && Passes(s, ParentProcess(s.f, c))
  }

  lemma {:induction false} FlagReaches(s: State, p: nat, d: nat)
    requires Inv(s) && (forall id, c :: !Owing(s, id, c)) && Passes(s, p) && Descends(s, p, d)
    ensures d in s.hasSub
    decreases d
  {
    var q := ParentProcess(s.f, d);
    assert TaskOk(s.f, s.f.tasks[d].realParent);
    if q != p {
      FlagReaches(s, p, q);
    }
    assert EdgeOk(s, d);
    if Awaited(s, d) {
      var id :| id in s.walks && d in s.walks[id].work;
      assert !Owing(s, id, d);
    }
  }

  /** The flag is on every uncut descendant of whatever passes it on. */
  ghost predicate Complete(s: State)
    requires WF(s.f)
  {
    forall p, d :: Passes(s, p) && Descends(s, p, d) ==> d in s.hasSub
  }

  /**
   In every reachable state, walks in progress or not, the flag is complete if and only if no walk owes a
   visit to a bare child of a process that passes it on. So a walk that stops at a flagged process loses
   nobody but those another walk will still visit. And the flag is on descendants of past subreapers only.
   */
  lemma FlagExactly(s0: State, run: seq<Step>, s: State)
    requires Init(s0) && Reaches(s0, run, s)
    ensures WF(s.f)
    ensures Complete(s) <==> forall id, c :: !Owing(s, id, c)
    ensures forall d :: d in s.hasSub ==> BelowSome(s.f, s.ever, d)
  {
    RunKeeps(s0, run, s);
    if forall id, c :: !Owing(s, id, c) {
      forall p, d | Passes(s, p) && Descends(s, p, d) ensures d in s.hasSub {
        FlagReaches(s, p, d);
      }
    }
    if Complete(s) {
      forall id, c ensures !Owing(s, id, c) {
        if Owing(s, id, c) {
          assert Descends(s, ParentProcess(s.f, c), c);
        }
      }
    }
  }

  /** Every child of a current subreaper whose walk has not begun is flagged or cut off. */
  ghost predicate MarkedCovered(s: State) {
    forall c :: Linked(s.f, c) && ParentProcess(s.f, c) in s.isSub && ParentProcess(s.f, c) in s.marked ==> c in s.hasSub || c in s.reapers
  }

  /** The flag is on every uncut descendant of every current subreaper and of every flagged process. */
  ghost predicate AllFlagged(s: State)
    requires WF(s.f)
  {
    forall p, d :: (p in s.hasSub || p in s.isSub) && Descends(s, p, d) ==> d in s.hasSub
  }

  /** The same for all current subreapers: those whose walk has not begun must have no bare child either. */
  lemma SubreapersExactly(s0: State, run: seq<Step>, s: State)
    requires Init(s0) && Reaches(s0, run, s)
    ensures WF(s.f)
    ensures AllFlagged(s) <==> (forall id, c :: !Owing(s, id, c)) && MarkedCovered(s)
  {
    hide Reaches, Init, Owing;
    FlagExactly(s0, run, s);
    if Complete(s) && MarkedCovered(s) {
      forall p, d | (p in s.hasSub || p in s.isSub) && Descends(s, p, d) ensures d in s.hasSub {
        MarkedReaches(s, p, d);
      }
    }
    if AllFlagged(s) {
      FlaggedCovers(s);
    }
  }

  lemma FlaggedCovers(s: State)
    requires WF(s.f) && AllFlagged(s)
    ensures Complete(s) && MarkedCovered(s)
  {
    forall c | Linked(s.f, c) && ParentProcess(s.f, c) in s.isSub && c !in s.reapers ensures c in s.hasSub {
      assert Descends(s, ParentProcess(s.f, c), c);
    }
    hide Descends, WF;
  }

  lemma {:induction false} MarkedReaches(s: State, p: nat, d: nat)
    requires WF(s.f) && Complete(s) && (p in s.hasSub || p in s.isSub) && Descends(s, p, d) && MarkedCovered(s)
    ensures d in s.hasSub
    decreases d
  {
    var q := ParentProcess(s.f, d);
    assert TaskOk(s.f, s.f.tasks[d].realParent);
    if q != p {
      MarkedReaches(s, p, q);
    }
    assert Descends(s, q, d);
    assert Passes(s, q) || (q in s.isSub && q in s.marked);
  }

  /** In particular the flag is complete whenever no walk is in progress. */
  lemma FlagIsExact(s0: State, run: seq<Step>, s: State)
    requires Init(s0) && Reaches(s0, run, s) && s.walks == map[]
    ensures WF(s.f) && Complete(s)
  {
    FlagExactly(s0, run, s);
  }

  /** With walks in progress, the first unflagged process below a flagged one awaits a visit. */
  lemma UnflaggedIsAwaited(s0: State, run: seq<Step>, s: State, c: nat)
    requires Init(s0) && Reaches(s0, run, s) && Linked(s.f, c) && c !in s.reapers && c !in s.hasSub
    requires ParentProcess(s.f, c) in s.hasSub
    ensures Awaited(s, c)
  {
    RunKeeps(s0, run, s);
    assert EdgeOk(s, c);
  }

  /** A process, its child and its grandchild, each single-threaded. */
  function Chain(): Forest {
    Forest(3, map[0 := Task(0, 0, [1]), 1 := Task(1, 0, [2]), 2 := Task(2, 1, [])],
           map[0 := [0], 1 := [1], 2 := [2]])
  }

  lemma ChainTask(t: nat)
    requires t < 3
    ensures t in Chain().tasks && t in Chain().threads && TaskOk(Chain(), t) && GroupOk(Chain(), t)
  {}

  lemma ChainWF()
    ensures WF(Chain())
  {
    var f := Chain();
    assert f.tasks.Keys == {0, 1, 2} == f.threads.Keys;
    hide TaskOk, GroupOk, Chain;
    forall t | t in f.tasks ensures TaskOk(f, t) { ChainTask(t); }
    forall t | t in f.threads ensures GroupOk(f, t) { ChainTask(t); }
  }

  lemma ChainKids(l: nat)
    requires l < 2
    ensures WF(Chain()) && l in Chain().threads && Kids(Chain(), l) == [l + 1]
  {
    ChainWF();
    hide TaskOk, GroupOk, WF;
    var f := Chain();
    assert f.threads[l] == [l] && f.tasks[l].children == [l + 1];
    assert ChildrenOf(f, [l][1..]) == [];
  }

  /** What the runs below need to know of the chain. */
  ghost predicate IsChain(f: Forest) {
    && WF(f) && 0 in f.threads && 1 in f.threads && 2 in f.threads && f.next == 3
    && Kids(f, 0) == [1] && Kids(f, 1) == [2]
  }

  lemma ChainIsChain()
    ensures IsChain(Chain())
  {
    ChainKids(0);
    ChainKids(1);
    hide WF, Kids;
  }

  lemma ChainDescends(s: State)
    requires s.f == Chain() && s.reapers == {}
    ensures WF(s.f) && Descends(s, 0, 2)
  {
    ChainWF();
    hide WF;
    assert Linked(s.f, 1) && ParentProcess(s.f, 1) == 0 && Linked(s.f, 2) && ParentProcess(s.f, 2) == 1;
    assert Descends(s, 0, 1);
  }

  lemma {:induction false} ReachesMore(s0: State, run: seq<Step>, s: State, step: Step)
    requires Reaches(s0, run, s) && WF(s.f) && Enabled(s, step)
    ensures Reaches(s0, run + [step], After(s, step))
    decreases |run|
  {
    if run == [] {
      assert Reaches(After(s, step), [], After(s, step));
      assert (run + [step])[1..] == [];
    } else {
      ReachesMore(After(s0, run[0]), run[1..], s, step);
      assert (run + [step])[1..] == run[1..] + [step];
    }
  }

  lemma Extends(s0: State, run: seq<Step>, s: State, step: Step) returns (run': seq<Step>, s': State)
    requires Reaches(s0, run, s) && WF(s.f) && Enabled(s, step)
    ensures run' == run + [step] && s' == After(s, step) && Reaches(s0, run', s')
  {
    ReachesMore(s0, run, s, step);
    run', s' := run + [step], After(s, step);
  }

  /**
   A call that has returned may leave a gap while another is under way: two threads of one process call
   prctl, the second call finds the first one's flag on the child, stops there and returns, and the
   grandchild is bare.
   */
  lemma ReturnedCallMayLeaveGap() returns (s0: State, run: seq<Step>, s: State)
    ensures Init(s0) && Reaches(s0, run + [EndWalk(1)], s) && WF(s.f)
    ensures 0 in s.isSub && 0 !in s.marked && Descends(s, 0, 2) && 2 !in s.hasSub
  {
    ChainIsChain();
    s0 := State(Chain(), {}, {}, {}, multiset{}, {}, map[], {});
    run, s := GapRun(s0);
    ChainDescends(s);
  }

  lemma GapRun(s0: State) returns (run: seq<Step>, s: State)
    requires IsChain(s0.f) && s0 == State(s0.f, {}, {}, {}, multiset{}, {}, map[], {})
    ensures Reaches(s0, run + [EndWalk(1)], s) && s == State(s0.f, {}, {0}, {1}, multiset{}, {}, map[0 := Walk(0, [2], false)], {0})
  {
    hide WF, Kids, Reaches;
    run, s := FirstMarks(s0);
    run, s := Extends(s0, run, s, SetFlag(0));
    run, s := Extends(s0, run, s, BeginWalk(1, 0));
    run, s := Extends(s0, run, s, Look(1));
    assert s.walks[1] == Walk(0, [], false) && s.marked == {} && s.callers == multiset{};
    var run', s' := Extends(s0, run, s, EndWalk(1));
    s := s';
    assert s.walks == map[0 := Walk(0, [2], false)];
  }

  lemma FirstMarks(s0: State) returns (run: seq<Step>, s: State)
    requires IsChain(s0.f) && s0 == State(s0.f, {}, {}, {}, multiset{}, {}, map[], {})
    ensures Reaches(s0, run, s) && s == State(s0.f, {}, {0}, {1}, multiset{}, {}, map[0 := Walk(0, [2], false)], {0})
  {
    assert Reaches(s0, [], s0);
    hide WF, Kids, Reaches;
    run, s := Extends(s0, [], s0, SetFlag(0));
    run, s := Extends(s0, run, s, BeginWalk(0, 0));
    assert s.marked == {} && s.callers == multiset{};
    assert s == State(s0.f, {}, {0}, {}, multiset{}, {}, map[0 := Walk(0, [1], false)], {0});
    run, s := Extends(s0, run, s, Look(0));
    run, s := Extends(s0, run, s, Mark(0));
    assert s.walks[0].work == [2] + [1][1..] == [2];
    assert s.walks == map[0 := Walk(0, [2], false)];
  }

  /** Two walks may both find a process unflagged and both descend below it. */
  lemma BothMayDescend() returns (s0: State, run: seq<Step>, s: State)
    ensures Init(s0) && Reaches(s0, run, s)
    ensures 0 in s.walks && 1 in s.walks && s.walks[0] == s.walks[1] == Walk(0, [2], false)
  {
    ChainIsChain();
    s0 := State(Chain(), {}, {}, {}, multiset{}, {}, map[], {});
    run, s := BothLook(s0);
    hide WF, Kids, Reaches, Chain;
    run, s := Extends(s0, run, s, Mark(0));
    run, s := Extends(s0, run, s, Mark(1));
    assert [2] + [1][1..] == [2];
  }

  lemma BothLook(s0: State) returns (run: seq<Step>, s: State)
    requires IsChain(s0.f) && s0 == State(s0.f, {}, {}, {}, multiset{}, {}, map[], {})
    ensures Reaches(s0, run, s)
    ensures s == State(s0.f, {}, {0}, {}, multiset{}, {}, map[0 := Walk(0, [1], true), 1 := Walk(0, [1], true)], {0})
  {
    hide WF, Kids, Reaches;
    run, s := BothBegin(s0);
    run, s := Extends(s0, run, s, Look(0));
    run, s := Extends(s0, run, s, Look(1));
    assert s.walks == map[0 := Walk(0, [1], true), 1 := Walk(0, [1], true)];
  }

  lemma BothBegin(s0: State) returns (run: seq<Step>, s: State)
    requires IsChain(s0.f) && s0 == State(s0.f, {}, {}, {}, multiset{}, {}, map[], {})
    ensures Reaches(s0, run, s)
    ensures s == State(s0.f, {}, {0}, {}, multiset{}, {}, map[0 := Walk(0, [1], false), 1 := Walk(0, [1], false)], {0})
  {
    assert Reaches(s0, [], s0);
    hide WF, Kids, Reaches;
    run, s := Extends(s0, [], s0, SetFlag(0));
    run, s := Extends(s0, run, s, SetFlag(0));
    assert s == State(s0.f, {}, {0}, {}, multiset{0, 0}, {0}, map[], {0});
    run, s := Extends(s0, run, s, BeginWalk(0, 0));
    run, s := Extends(s0, run, s, BeginWalk(1, 0));
    assert s.callers == multiset{} && s.marked == {};
    assert s.walks == map[0 := Walk(0, [1], false), 1 := Walk(0, [1], false)];
  }

  // ----- One undisturbed call -----

  function Visitor(reapers: set<nat>): (set<nat>, nat) -> (set<nat>, int) {
    (flagged, c) => Propagate(reapers, flagged, c)
  }

  lemma {:induction false} ReachesJoin(a: State, run: seq<Step>, b: State, more: seq<Step>, c: State)
    requires Reaches(a, run, b) && Reaches(b, more, c)
    ensures Reaches(a, run + more, c)
    decreases |run|
  {
    if run == [] {
      assert run + more == more;
    } else {
      ReachesJoin(After(a, run[0]), run[1..], b, more, c);
      assert (run + more)[1..] == run[1..] + more;
    }
  }

  /** One visit of one walk: looking, and marking if that is what was found. */
  lemma VisitIsRun(s: State, id: nat) returns (run: seq<Step>, end: State)
    requires Inv(s) && Enabled(s, Look(id))
    ensures var work := s.walks[id].work; var (flagged, res) := Propagate(s.reapers, s.hasSub, work[0]);
      end == s.(hasSub := flagged, walks := s.walks[id := s.walks[id].(work := NextWork(s.f, work, res))])
    ensures Reaches(s, run, end)
  {
    assert WalkOk(s, id);
    StepKeeps(s, Look(id));
    run, end := Extends(s, [], s, Look(id));
    if end.walks[id].descending {
      run, end := Extends(s, run, end, Mark(id));
    }
  }

  lemma VisitedAll(s: State, id: nat)
    requires Inv(s) && id in s.walks && s.walks[id].work == []
    ensures Reaches(s, [], s) && ProcessTree.Run(s.f, Visitor(s.reapers), [], s.hasSub) == Outcome(s.hasSub, [], false)
  {}

  /** Letting one walk visit until its list is empty computes the work-list traversal. */
  lemma {:induction false} VisitsAreRun(s: State, id: nat) returns (run: seq<Step>, end: State)
    requires Inv(s) && id in s.walks && !s.walks[id].descending && Above(s.f, -1, s.walks[id].work)
    ensures var r := Run(s.f, Visitor(s.reapers), s.walks[id].work, s.hasSub);
      !r.stopped && end == s.(hasSub := r.state, walks := s.walks[id := s.walks[id].(work := [])])
    ensures Reaches(s, run, end)
    decreases Weight(s.f, -1, s.walks[id].work)
  {
    hide WF, Kids, Reaches, Inv, ProcessTree.Run, Weight;
    var work := s.walks[id].work;
    if work == [] {
      VisitedAll(s, id);
      run, end := [], s;
      assert s.walks[id := s.walks[id].(work := [])] == s.walks;
    } else {
      InvWF(s);
      var visit, s1 := VisitIsRun(s, id);
      RunKeeps(s, visit, s1);
      var (flagged, res) := Propagate(s.reapers, s.hasSub, work[0]);
      NextWorkLighter(s.f, work, res);
      RunVisits(s.f, Visitor(s.reapers), work, s.hasSub, flagged, res);
      var rest;
      rest, end := VisitsAreRun(s1, id);
      run := visit + rest;
      ReachesJoin(s, visit, s1, rest, end);
      assert s1.walks[id := s1.walks[id].(work := [])] == s.walks[id := s.walks[id].(work := [])];
    }
  }

  /** `c` is a child of `root` or of a descendant of `root` that is not cut off by a reaper. */
  ghost predicate WorkItem(s: State, root: nat, c: nat)
    requires WF(s.f)
  {
    Linked(s.f, c) && (ParentProcess(s.f, c) == root || Descends(s, root, ParentProcess(s.f, c)))
  }

  /** A traversal flags nothing but descendants of its root. */
  lemma {:induction false} RunFlagsDescendants(s: State, root: nat, work: seq<nat>, flagged: set<nat>)
    requires WF(s.f) && Above(s.f, -1, work) && forall c :: c in work ==> WorkItem(s, root, c)
    ensures var r := Run(s.f, Visitor(s.reapers), work, flagged);
      flagged <= r.state && forall d :: d in r.state && d !in flagged ==> Descends(s, root, d)
    decreases Weight(s.f, -1, work)
  {
    if work != [] {
      var (flagged', res) := Propagate(s.reapers, flagged, work[0]);
      NextWorkLighter(s.f, work, res);
      RunVisits(s.f, Visitor(s.reapers), work, flagged, flagged', res);
      var next := NextWork(s.f, work, res);
      assert WorkItem(s, root, work[0]);
      forall c | c in next ensures WorkItem(s, root, c) {
        KidsAre(s.f, work[0], c);
        assert c in work || (res != 0 && c in Kids(s.f, work[0]));
      }
      RunFlagsDescendants(s, root, next, flagged');
    }
  }

  lemma {:induction false} SameDescent(s: State, t: State, p: nat, d: nat)
    requires WF(s.f) && t.f == s.f && t.reapers == s.reapers && Descends(s, p, d)
    ensures Descends(t, p, d)
    decreases d
  {
    assert TaskOk(s.f, s.f.tasks[d].realParent);
    if ParentProcess(s.f, d) != p {
      SameDescent(s, t, p, ParentProcess(s.f, d));
    }
  }

  /** The state after an undisturbed call that sets the flag of `process`. */
  ghost function AfterCall(s: State, process: nat): State
    requires WF(s.f) && process in s.f.threads
  {
    KidsAbove(s.f, process);
    s.(isSub := s.isSub + {process}, ever := s.ever + {process},
       hasSub := PreOrder(s.f, Visitor(s.reapers), process, Kids(s.f, process), s.hasSub).state)
  }

  /** Nobody is in the middle of a call. */
  ghost predicate Idle(s: State) { s.walks == map[] && s.marked == {} && s.callers == multiset{} }

  /** Setting the flag and beginning the walk. */
  lemma Begins(s: State, process: nat) returns (run: seq<Step>, s2: State)
    requires Inv(s) && Idle(s) && process in s.f.threads
    ensures s2 == s.(isSub := s.isSub + {process}, ever := s.ever + {process}, walks := map[0 := Walk(process, Kids(s.f, process), false)])
    ensures Reaches(s, run, s2) && Inv(s2)
  {
    assert Reaches(s, [], s);
    var s1;
    run, s1 := Extends(s, [], s, SetFlag(process));
    run, s2 := Extends(s, run, s1, BeginWalk(0, process));
    RunKeeps(s, run, s2);
    hide Inv, Reaches, Kids;
    assert s2.callers == multiset{} && s2.marked == {} && s2.walks == map[0 := Walk(process, Kids(s.f, process), false)];
  }

  lemma CallIsRun(s: State, process: nat)
    requires Inv(s) && Idle(s) && process in s.f.threads
    ensures Inv(AfterCall(s, process))
    ensures exists run :: Reaches(s, run, AfterCall(s, process))
  {
    hide WF, Kids, Reaches, Inv, ProcessTree.Run, PreOrder, Visitor;
    InvWF(s);
    KidsAbove(s.f, process);
    var begin, s2 := Begins(s, process);
    var visits, s3 := VisitsAreRun(s2, 0);
    ReachesJoin(s, begin, s2, visits, s3);
    RunKeeps(s, begin + visits, s3);
    var run, s4 := Extends(s, begin + visits, s3, EndWalk(0));
    RunKeeps(s, run, s4);
    assert s4.walks == map[];
    TraversalIs(s, process);
    assert s4 == AfterCall(s, process);
  }

  lemma TraversalIs(s: State, process: nat)
    requires WF(s.f) && process in s.f.threads && Above(s.f, process, Kids(s.f, process)) && Above(s.f, -1, Kids(s.f, process))
    ensures ProcessTree.Run(s.f, Visitor(s.reapers), Kids(s.f, process), s.hasSub).state
         == PreOrder(s.f, Visitor(s.reapers), process, Kids(s.f, process), s.hasSub).state
  {
    hide WF, Kids, ProcessTree.Run, PreOrder, Visitor;
    RunIsPreOrder(s.f, Visitor(s.reapers), process, Kids(s.f, process), [], s.hasSub);
    NothingLeft(s, process);
    assert Kids(s.f, process) + [] == Kids(s.f, process);
  }

  lemma InvWF(s: State)
    requires Inv(s)
    ensures WF(s.f)
  {}

  /** Working off nothing after a traversal adds nothing. */
  lemma NothingLeft(s: State, process: nat)
    requires WF(s.f) && process in s.f.threads && Above(s.f, process, Kids(s.f, process))
    ensures var pre := PreOrder(s.f, Visitor(s.reapers), process, Kids(s.f, process), s.hasSub);
      ProcessTree.Run(s.f, Visitor(s.reapers), [], pre.state) == Outcome(pre.state, [], false)
  {}

  lemma CallFlagsDescendants(s: State, process: nat)
    requires Inv(s) && Idle(s) && process in s.f.threads
    ensures forall d :: d in AfterCall(s, process).hasSub <==> d in s.hasSub || Descends(s, process, d)
  {
    var t := AfterCall(s, process);
    CallIsRun(s, process);
    KidsAbove(s.f, process);
    RunIsPreOrder(s.f, Visitor(s.reapers), process, Kids(s.f, process), [], s.hasSub);
    assert Kids(s.f, process) + [] == Kids(s.f, process);
    forall c | c in Kids(s.f, process) ensures WorkItem(s, process, c) {
      KidsAre(s.f, process, c);
    }
    RunFlagsDescendants(s, process, Kids(s.f, process), s.hasSub);
    assert forall id, c :: !Owing(t, id, c);
    forall d | Descends(s, process, d) ensures d in t.hasSub {
      SameDescent(s, t, process, d);
      FlagReaches(t, process, d);
    }
  }

  /** The signal structs of all processes, as fork and prctl update them. */
  class SignalFlags {
    var forest: Forest
    var reapers: set<nat>
    var isSub: set<nat>
    var hasSub: set<nat>
    ghost var ever: set<nat>

    ghost function View(): State
      reads this
    {
      State(forest, reapers, isSub, hasSub, multiset{}, {}, map[], ever)
    }

    ghost predicate Valid()
      reads this
    {
      Inv(View())
    }

    /** `PR_SET_CHILD_SUBREAPER`: afterwards exactly the uncut descendants are flagged besides those that were. */
    method SetChildSubreaper(me: nat, on: bool)
      requires Valid() && me in forest.tasks
      modifies this`isSub, this`hasSub, this`ever
      ensures Valid()
      ensures isSub == if on then old(isSub) + {forest.tasks[me].leader} else old(isSub) - {forest.tasks[me].leader}
      ensures !on ==> hasSub == old(hasSub)
      ensures on ==> forall d :: d in hasSub <==> d in old(hasSub) || Descends(old(View()), forest.tasks[me].leader, d)
      ensures exists run :: Reaches(old(View()), run, View())
    {
      assert TaskOk(forest, me);
      var process := forest.tasks[me].leader;
      ghost var s0 := View();
      if !on {
        isSub := isSub - {process};
        StepKeeps(s0, ClearFlag(process));
        assert [ClearFlag(process)][1..] == [];
        assert Reaches(s0, [ClearFlag(process)], View());
        return;
      }
      isSub := isSub + {process};
      ever := ever + {process};
      var calls, stopped;
      hasSub, calls, stopped := WalkProcessTree(forest, me, Visitor(reapers), hasSub);
      CallIsRun(s0, process);
      CallFlagsDescendants(s0, process);
      assert View() == AfterCall(s0, process);
    }

    /**
     The part of fork that links the child and lets it inherit the flag: below the caller, or with `sibling`
     below the parent of the caller, at the end of that task's list; no other list changes.
     */
    method LinkProcess(cur: nat, sibling: bool, reaper: bool) returns (child: nat)
      requires Valid() && cur in forest.tasks
      modifies this`forest, this`reapers, this`hasSub
      ensures Valid() && child == old(forest.next)
      ensures View() == After(old(View()), CloneProcess(cur, sibling, reaper))
      ensures LinkedBelow(old(forest), forest, if sibling then old(forest.tasks[cur].realParent) else cur, child)
      ensures !sibling ==> ParentProcess(forest, child) == old(forest.tasks[cur].leader)
      ensures sibling ==> ParentProcess(forest, child) == old(ParentProcess(forest, cur))
      ensures forall c :: c != child ==> (c in hasSub <==> c in old(hasSub)) && (c in reapers <==> c in old(reapers))
      ensures child in hasSub <==> ParentProcess(forest, child) in old(hasSub) || ParentProcess(forest, child) in isSub
      ensures child in reapers <==> reaper || child in old(reapers)
    {
      hide Inv, LinkedBelow, WF;
      InvWF(View());
      StepKeeps(View(), CloneProcess(cur, sibling, reaper));
      CloneLinks(View(), cur, sibling, reaper);
      var parent := if sibling then forest.tasks[cur].realParent else cur;
      child := forest.next;
      if reaper {
        reapers := reapers + {child};
      }
      if forest.tasks[parent].leader in hasSub || forest.tasks[parent].leader in isSub {
        hasSub := hasSub + {child};
      }
      forest := AddProcess(forest, parent);
    }

    /** The same for a thread: it joins the caller's group at the end and has the caller's parent, but is nobody's child. */
    method LinkThread(cur: nat) returns (t: nat)
      requires Valid() && cur in forest.tasks
      modifies this`forest
      ensures Valid() && t == old(forest.next)
      ensures View() == After(old(View()), CloneThread(cur))
      ensures Joined(old(forest), forest, cur, t)
    {
      StepKeeps(View(), CloneThread(cur));
      AddThreadWF(forest, cur);
      ThreadJoins(forest, cur);
      t := forest.next;
      forest := AddThread(forest, cur);
    }
  }

  /** `g` is `f` with process `c` added at the end of the children of task `parent`, and nothing else changed. */
  ghost predicate LinkedBelow(f: Forest, g: Forest, parent: nat, c: nat) {
    && c !in f.tasks && parent in f.tasks && g.tasks.Keys == f.tasks.Keys + {c} && g.threads == f.threads[c := [c]]
    && g.tasks[c] == Task(c, parent, [])
    && (forall t :: t in f.tasks ==>
          g.tasks[t] == if t == parent then f.tasks[t].(children := f.tasks[t].children + [c]) else f.tasks[t])
  }

  /** `g` is `f` with task `t` added at the end of the group of `cur`. */
  ghost predicate Joined(f: Forest, g: Forest, cur: nat, t: nat) {
    && cur in f.tasks && t !in f.tasks && f.tasks[cur].leader in f.threads
    && g.tasks == f.tasks[t := Task(f.tasks[cur].leader, f.tasks[cur].realParent, [])]
    && g.threads == f.threads[f.tasks[cur].leader := f.threads[f.tasks[cur].leader] + [t]]
  }

  lemma ThreadJoins(f: Forest, cur: nat)
    requires WF(f) && cur in f.tasks && f.tasks[cur].leader in f.threads
    ensures Joined(f, AddThread(f, cur), cur, f.next)
  {
    NextIsNew(f);
  }

  /** Whose child a forked process is, whom it inherits the flag from, and that a walk of any other process is as before. */
  lemma CloneLinks(s: State, cur: nat, sibling: bool, reaper: bool)
    requires Inv(s) && Enabled(s, CloneProcess(cur, sibling, reaper))
    ensures var s', c := After(s, CloneProcess(cur, sibling, reaper)), s.f.next;
      && WF(s'.f) && Linked(s'.f, c)
      && LinkedBelow(s.f, s'.f, if sibling then s.f.tasks[cur].realParent else cur, c)
      && s.f.tasks[cur].realParent in s.f.tasks
      && ParentProcess(s'.f, c) == (if sibling then ParentProcess(s.f, cur) else s.f.tasks[cur].leader)
      && (c in s'.hasSub <==> ParentProcess(s'.f, c) in s.hasSub || ParentProcess(s'.f, c) in s.isSub)
      && (forall l :: l in s.f.threads && l != ParentProcess(s'.f, c) ==> Kids(s'.f, l) == Kids(s.f, l))
  {
    assert TaskOk(s.f, cur);
    var parent := if sibling then s.f.tasks[cur].realParent else cur;
    StepKeeps(s, CloneProcess(cur, sibling, reaper));
    AddProcessLinks(s.f, parent, s.f.next);
    NextIsNew(s.f);
    var g := AddProcess(s.f, parent);
    assert s.f.next !in s.hasSub;
    forall l | l in s.f.threads && l != s.f.tasks[parent].leader ensures Kids(g, l) == Kids(s.f, l) {
      assert GroupOk(s.f, l);
      SameChildren(s.f, g, s.f.threads[l]);
    }
  }

  lemma {:induction false} SameChildren(f: Forest, g: Forest, ts: seq<nat>)
    requires forall t :: t in ts ==> t in f.tasks && t in g.tasks && g.tasks[t].children == f.tasks[t].children
    ensures ChildrenOf(g, ts) == ChildrenOf(f, ts)
  {
    if ts != [] {
      SameChildren(f, g, ts[1..]);
    }
  }
}
