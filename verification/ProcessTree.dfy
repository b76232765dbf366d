/**
 The process forest and `walk_process_tree`.

 A task is named by its creation number, so a process is always numbered above its parent process. The
 thread it hangs from may be any of that process, younger ones included.
 Only thread-group leaders are linked into a `children` list, and each thread of a group
 has its own list; the children of a process are the lists of its threads, in thread order.
 */
module ProcessTree {
  import opened Options

  datatype Task = Task(leader: nat, realParent: nat, children: seq<nat>)

  /** `threads` maps a group leader to the thread list of its group; `next` is the next creation number. */
  datatype Forest = Forest(next: nat, tasks: map<nat, Task>, threads: map<nat, seq<nat>>)

  ghost predicate Distinct<T>(s: seq<T>) {
    forall i, j :: 0 <= i < j < |s| ==> s[i] != s[j]
  }

  ghost predicate TaskOk(f: Forest, t: nat)
    requires t in f.tasks
  {
    && t < f.next
    && f.tasks[t].realParent in f.tasks
    && f.tasks[t].leader <= t
    && f.tasks[t].leader in f.threads
    && t in f.threads[f.tasks[t].leader]
    && Distinct(f.tasks[t].children)
    && forall c :: c in f.tasks[t].children ==>
         f.tasks[t].leader < c && c in f.tasks && c in f.threads && f.tasks[c].realParent == t
  }

  ghost predicate GroupOk(f: Forest, l: nat)
    requires l in f.threads
  {
    && l in f.tasks
    && f.tasks[l].leader == l
    && Distinct(f.threads[l])
    && forall t :: t in f.threads[l] ==> t in f.tasks && f.tasks[t].leader == l
  }

  /** What fork's linking of tasks into thread and children lists maintains. */
  ghost predicate WF(f: Forest) {
    && (forall t {:trigger TaskOk(f, t)} :: t in f.tasks ==> TaskOk(f, t))
    && (forall l {:trigger GroupOk(f, l)} :: l in f.threads ==> GroupOk(f, l))
  }

  function ChildrenOf(f: Forest, ts: seq<nat>): seq<nat>
    requires forall t :: t in ts ==> t in f.tasks
  {
    if ts == [] then [] else f.tasks[ts[0]].children + ChildrenOf(f, ts[1..])
  }

  /** All children of the process led by `l`. */
  function Kids(f: Forest, l: nat): seq<nat>
    requires WF(f) && l in f.threads
  {
    assert GroupOk(f, l);
    ChildrenOf(f, f.threads[l])
  }

  /** The process of the parent of `c`. */
  function ParentProcess(f: Forest, c: nat): nat
    requires c in f.tasks && f.tasks[c].realParent in f.tasks
  {
    f.tasks[f.tasks[c].realParent].leader
  }

  lemma {:induction false} ChildrenOfSound(f: Forest, ts: seq<nat>, c: nat)
    requires forall t :: t in ts ==> t in f.tasks
    ensures c in ChildrenOf(f, ts) <==> exists t :: t in ts && c in f.tasks[t].children
  {
    if ts != [] {
      ChildrenOfSound(f, ts[1..], c);
    }
  }

  /** A child of a process is a live group leader, younger than the process, whose parent process it is. */
  lemma KidsSound(f: Forest, l: nat, c: nat)
    requires WF(f) && l in f.threads && c in Kids(f, l)
    ensures l < c && c in f.tasks && c in f.threads && c < f.next
    ensures f.tasks[c].realParent in f.tasks && ParentProcess(f, c) == l
    ensures c in f.tasks[f.tasks[c].realParent].children
  {
    assert GroupOk(f, l);
    ChildrenOfSound(f, f.threads[l], c);
    var t :| t in f.threads[l] && c in f.tasks[t].children;
    assert TaskOk(f, t);
    assert TaskOk(f, c);
  }

  /** A list of processes, each younger than `p`. */
  ghost predicate Above(f: Forest, p: int, cs: seq<nat>) {
    forall i :: 0 <= i < |cs| ==> p < cs[i] < f.next && cs[i] in f.threads
  }

  lemma KidsAbove(f: Forest, l: nat)
    requires WF(f) && l in f.threads
    ensures Above(f, l, Kids(f, l))
  {
    var ks := Kids(f, l);
    forall i | 0 <= i < |ks| ensures l < ks[i] < f.next && ks[i] in f.threads {
      KidsSound(f, l, ks[i]);
    }
  }

  // ----- The recursive traversal -----

  datatype Outcome<S> = Outcome(state: S, calls: seq<nat>, stopped: bool)

  /**
   Recursive pre-order traversal of the subtrees rooted at `cs`. The visitor result decides:
   zero skips the subtree, a positive result enters it, a negative one ends the whole traversal.
   */
  function PreOrder<S>(f: Forest, v: (S, nat) -> (S, int), p: int, cs: seq<nat>, s: S): Outcome<S>
    requires WF(f) && Above(f, p, cs)
    decreases f.next - p, |cs|
  {
    if cs == [] then Outcome(s, [], false) else
      var c := cs[0];
      var (s1, res) := v(s, c);
      if res < 0 then Outcome(s1, [c], true) else
        var sub := if res == 0 then Outcome(s1, [], false) else (KidsAbove(f, c); PreOrder(f, v, c, Kids(f, c), s1));
        if sub.stopped then Outcome(sub.state, [c] + sub.calls, true) else
          var rest := PreOrder(f, v, p, cs[1..], sub.state);
          Outcome(rest.state, [c] + sub.calls + rest.calls, rest.stopped)
  }

  // ----- Sizes, for termination -----

  /** Number of processes in the subtrees rooted at `cs`. */
  ghost function Weight(f: Forest, p: int, cs: seq<nat>): nat
    requires WF(f) && Above(f, p, cs)
    decreases f.next - p, |cs|
  {
    if cs == [] then 0 else
      KidsAbove(f, cs[0]);
      1 + Weight(f, cs[0], Kids(f, cs[0])) + Weight(f, p, cs[1..])
  }

  lemma {:induction false} WeightAnyBound(f: Forest, p: int, q: int, cs: seq<nat>)
    requires WF(f) && Above(f, p, cs) && Above(f, q, cs)
    ensures Weight(f, p, cs) == Weight(f, q, cs)
    decreases |cs|
  {
    if cs != [] {
      WeightAnyBound(f, p, q, cs[1..]);
    }
  }

  lemma {:induction false} WeightConcat(f: Forest, p: int, a: seq<nat>, b: seq<nat>)
    requires WF(f) && Above(f, p, a) && Above(f, p, b)
    ensures Above(f, p, a + b)
    ensures Weight(f, p, a + b) == Weight(f, p, a) + Weight(f, p, b)
    decreases |a|
  {
    if a == [] {
      assert a + b == b;
    } else {
      WeightConcat(f, p, a[1..], b);
      assert (a + b)[1..] == a[1..] + b;
    }
  }

  // ----- The work-list traversal -----

  /** The work list after process `work[0]` was visited with result `res` (not negative). */
  function NextWork(f: Forest, work: seq<nat>, res: int): seq<nat>
    requires WF(f) && Above(f, -1, work) && work != []
  {
    if res == 0 then work[1..] else Kids(f, work[0]) + work[1..]
  }

  lemma NextWorkLighter(f: Forest, work: seq<nat>, res: int)
    requires WF(f) && Above(f, -1, work) && work != []
    ensures Above(f, -1, NextWork(f, work, res))
    ensures Weight(f, -1, NextWork(f, work, res)) < Weight(f, -1, work)
  {
    KidsAbove(f, work[0]);
    WeightAnyBound(f, -1, work[0], Kids(f, work[0]));
    WeightConcat(f, -1, Kids(f, work[0]), work[1..]);
  }

  /** Traversal driven by an explicit list of the processes still to visit. */
  function Run<S>(f: Forest, v: (S, nat) -> (S, int), work: seq<nat>, s: S): Outcome<S>
    requires WF(f) && Above(f, -1, work)
    decreases Weight(f, -1, work)
  {
    if work == [] then Outcome(s, [], false) else
      var (s1, res) := v(s, work[0]);
      if res < 0 then Outcome(s1, [work[0]], true) else
        NextWorkLighter(f, work, res);
        var r := Run(f, v, NextWork(f, work, res), s1);
        Outcome(r.state, [work[0]] + r.calls, r.stopped)
  }

  /** One outcome followed, unless it stopped, by another that starts where it ended. */
  function Then<S>(a: Outcome<S>, b: Outcome<S>): Outcome<S> {
    if a.stopped then a else Outcome(b.state, a.calls + b.calls, b.stopped)
  }

  /** Visiting the head of the work list, then working off what is left. */
  lemma RunVisits<S>(f: Forest, v: (S, nat) -> (S, int), work: seq<nat>, s: S, s1: S, res: int)
    requires WF(f) && Above(f, -1, work) && work != [] && v(s, work[0]) == (s1, res)
    ensures res < 0 ==> Run(f, v, work, s) == Outcome(s1, [work[0]], true)
    ensures res >= 0 ==> Above(f, -1, NextWork(f, work, res))
    ensures res >= 0 ==> Run(f, v, work, s) == Then(Outcome(s1, [work[0]], false), Run(f, v, NextWork(f, work, res), s1))
  {
    NextWorkLighter(f, work, res);
  }

  lemma ThenAssociates<S>(a: Outcome<S>, b: Outcome<S>, c: Outcome<S>)
    ensures Then(Then(a, b), c) == Then(a, Then(b, c))
  {}

  lemma PreOrderEnters<S>(f: Forest, v: (S, nat) -> (S, int), p: int, cs: seq<nat>, s: S, s1: S, res: int)
    requires WF(f) && Above(f, p, cs) && cs != [] && v(s, cs[0]) == (s1, res) && res > 0
    ensures Above(f, cs[0], Kids(f, cs[0]))
    ensures var sub := PreOrder(f, v, cs[0], Kids(f, cs[0]), s1);
      PreOrder(f, v, p, cs, s) == Then(Outcome(s1, [cs[0]], false), Then(sub, PreOrder(f, v, p, cs[1..], sub.state)))
  {
    KidsAbove(f, cs[0]);
  }

  lemma PreOrderSkips<S>(f: Forest, v: (S, nat) -> (S, int), p: int, cs: seq<nat>, s: S, s1: S, res: int)
    requires WF(f) && Above(f, p, cs) && cs != [] && v(s, cs[0]) == (s1, res) && res <= 0
    ensures res < 0 ==> PreOrder(f, v, p, cs, s) == Outcome(s1, [cs[0]], true)
    ensures res == 0 ==> PreOrder(f, v, p, cs, s) == Then(Outcome(s1, [cs[0]], false), PreOrder(f, v, p, cs[1..], s1))
  {}

  lemma NothingToDo<S>(f: Forest, v: (S, nat) -> (S, int), p: int, rest: seq<nat>, s: S)
    requires WF(f) && Above(f, -1, rest) && Above(f, p, [])
    ensures PreOrder(f, v, p, [], s) == Outcome(s, [], false)
    ensures Run(f, v, rest, s) == Then(Outcome(s, [], false), Run(f, v, rest, s))
  {}

  /** Working off `cs + rest` is traversing `cs` recursively and then working off `rest`. */
  lemma {:induction false} RunIsPreOrder<S>(f: Forest, v: (S, nat) -> (S, int), p: int, cs: seq<nat>, rest: seq<nat>, s: S)
    requires WF(f) && -1 <= p && Above(f, p, cs) && Above(f, -1, rest)
    ensures Above(f, -1, cs + rest)
    ensures Run(f, v, cs + rest, s) == Then(PreOrder(f, v, p, cs, s), Run(f, v, rest, PreOrder(f, v, p, cs, s).state))
    decreases f.next - p, |cs|
  {
    hide Run, PreOrder, WF, Kids, Weight;
    if cs == [] {
      assert cs + rest == rest;
      NothingToDo(f, v, p, rest, s);
    } else {
      var c := cs[0];
      var (s1, res) := v(s, c);
      var visit := Outcome(s1, [c], false);
      assert (cs + rest)[1..] == cs[1..] + rest;
      RunVisits(f, v, cs + rest, s, s1, res);
      if res <= 0 {
        PreOrderSkips(f, v, p, cs, s, s1, res);
      }
      if res == 0 {
        RunIsPreOrder(f, v, p, cs[1..], rest, s1);
        var pre := PreOrder(f, v, p, cs[1..], s1);
        ThenAssociates(visit, pre, Run(f, v, rest, pre.state));
      } else if res > 0 {
        PreOrderEnters(f, v, p, cs, s, s1, res);
        assert Kids(f, c) + cs[1..] + rest == Kids(f, c) + (cs[1..] + rest);
        RunIsPreOrder(f, v, c, Kids(f, c), cs[1..] + rest, s1);
        var sub := PreOrder(f, v, c, Kids(f, c), s1);
        RunIsPreOrder(f, v, p, cs[1..], rest, sub.state);
        var pre := PreOrder(f, v, p, cs[1..], sub.state);
        var last := Run(f, v, rest, pre.state);
        ThenAssociates(sub, pre, last);
        ThenAssociates(visit, Then(sub, pre), last);
      }
    }
  }

  // ----- Positions of the stackless walk -----

  function IndexOf(s: seq<nat>, x: nat): (i: nat)
    requires x in s
    ensures i < |s| && s[i] == x
  {
    if s[0] == x then 0 else 1 + IndexOf(s[1..], x)
  }

  lemma IndexUnique(s: seq<nat>, i: nat)
    requires Distinct(s) && i < |s|
    ensures IndexOf(s, s[i]) == i
  {}

  /** `c` is linked into the children list of its parent task. */
  ghost predicate Linked(f: Forest, c: nat) {
    && c in f.tasks
    && f.tasks[c].realParent in f.tasks
    && c in f.tasks[f.tasks[c].realParent].children
  }

  /** The children of a process are exactly the tasks linked below one of its threads. */
  lemma KidsAre(f: Forest, l: nat, c: nat)
    requires WF(f) && l in f.threads
    ensures c in Kids(f, l) <==> Linked(f, c) && ParentProcess(f, c) == l
    ensures c in Kids(f, l) ==> c in f.threads && l < c < f.next
  {
    if c in Kids(f, l) {
      KidsSound(f, l, c);
    }
    if Linked(f, c) && ParentProcess(f, c) == l {
      assert GroupOk(f, l) && TaskOk(f, f.tasks[c].realParent);
      ChildrenOfSound(f, f.threads[l], c);
    }
  }

  /** The children of the threads of process `l` that come after thread `t`. */
  function Later(f: Forest, l: nat, t: nat): seq<nat>
    requires WF(f) && l in f.threads && t in f.threads[l]
  {
    assert GroupOk(f, l);
    var ts := f.threads[l];
    ChildrenOf(f, ts[IndexOf(ts, t) + 1..])
  }

  lemma LaterAbove(f: Forest, l: nat, t: nat)
    requires WF(f) && l in f.threads && t in f.threads[l]
    ensures Above(f, -1, Later(f, l, t))
  {
    assert GroupOk(f, l);
    ChildrenOfAbove(f, f.threads[l][IndexOf(f.threads[l], t) + 1..]);
  }

  lemma LaterFirst(f: Forest, l: nat)
    requires WF(f) && l in f.threads
    ensures f.threads[l] != [] && f.threads[l][0] in f.tasks
    ensures Kids(f, l) == f.tasks[f.threads[l][0]].children + Later(f, l, f.threads[l][0])
  {
    assert GroupOk(f, l) && TaskOk(f, l);
    var ts := f.threads[l];
    assert ts[IndexOf(ts, ts[0]) + 1..] == ts[1..];
  }

  lemma LaterNext(f: Forest, l: nat, t: nat)
    requires WF(f) && l in f.threads && t in f.threads[l]
    ensures NextIn(f.threads[l], t) == None ==> Later(f, l, t) == []
    ensures NextIn(f.threads[l], t).Some? ==>
      var q := NextIn(f.threads[l], t).value;
      q in f.threads[l] && q in f.tasks && Later(f, l, t) == f.tasks[q].children + Later(f, l, q)
  {
    assert GroupOk(f, l);
    var ts := f.threads[l];
    var i := IndexOf(ts, t) + 1;
    if i < |ts| {
      IndexUnique(ts, i);
      assert ts[i..][0] == ts[i] && ts[i..][1..] == ts[i + 1..];
    }
  }

  /** The children of the parent process of `c` that come after `c`. */
  function AfterSibling(f: Forest, c: nat): seq<nat>
    requires WF(f) && Linked(f, c)
  {
    var p := f.tasks[c].realParent;
    assert TaskOk(f, p);
    f.tasks[p].children[IndexOf(f.tasks[p].children, c) + 1..] + Later(f, f.tasks[p].leader, p)
  }

  /** `l` is `top` or a descendant of `top`. */
  ghost predicate Under(f: Forest, top: nat, l: nat)
    requires WF(f)
    decreases l
  {
    || l == top
    || (Linked(f, l)
        && (assert TaskOk(f, f.tasks[l].realParent); Under(f, top, ParentProcess(f, l))))
  }

  /** Everything still to visit once the subtree of `l` is done: what the climb to `top` will find. */
  ghost function Pending(f: Forest, top: nat, l: nat): seq<nat>
    requires WF(f) && Under(f, top, l)
    decreases l
  {
    if l == top then [] else
      assert TaskOk(f, f.tasks[l].realParent);
      AfterSibling(f, l) + Pending(f, top, ParentProcess(f, l))
  }

  lemma ChildrenOfAbove(f: Forest, ts: seq<nat>)
    requires WF(f) && forall t :: t in ts ==> t in f.tasks
    ensures Above(f, -1, ChildrenOf(f, ts))
  {
    var cs := ChildrenOf(f, ts);
    forall i | 0 <= i < |cs| ensures cs[i] < f.next && cs[i] in f.threads {
      ChildrenOfSound(f, ts, cs[i]);
      var t :| t in ts && cs[i] in f.tasks[t].children;
      assert TaskOk(f, t) && TaskOk(f, cs[i]);
    }
  }

  lemma AfterSiblingAbove(f: Forest, c: nat)
    requires WF(f) && Linked(f, c)
    ensures Above(f, -1, AfterSibling(f, c))
  {
    var p := f.tasks[c].realParent;
    assert TaskOk(f, p);
    LaterAbove(f, f.tasks[p].leader, p);
    ChildrenOfAbove(f, [p]);
    assert ChildrenOf(f, [p]) == f.tasks[p].children;
  }

  lemma {:induction false} PendingAbove(f: Forest, top: nat, l: nat)
    requires WF(f) && Under(f, top, l)
    ensures Above(f, -1, Pending(f, top, l))
    decreases l
  {
    if l != top {
      assert TaskOk(f, f.tasks[l].realParent);
      AfterSiblingAbove(f, l);
      PendingAbove(f, top, ParentProcess(f, l));
    }
  }

  /** The successor of `x` in a list, as its `next` link gives it. */
  function NextIn(s: seq<nat>, x: nat): (n: Option<nat>)
    requires x in s
  {
    var i := IndexOf(s, x) + 1;
    if i < |s| then Some(s[i]) else None
  }

  function FirstIn(s: seq<nat>): Option<nat> {
    if s == [] then None else Some(s[0])
  }

  /** The part of `s` from the cursor `x` on; a cursor past the end leaves nothing. */
  function From(s: seq<nat>, x: Option<nat>): seq<nat>
    requires x.Some? ==> x.value in s
  {
    match x
    case None => []
    case Some(c) => s[IndexOf(s, c)..]
  }

  /** A cursor `(leader, parent, child)` of the walk that lies under `top`. */
  ghost predicate Cursor(f: Forest, top: nat, leader: nat, parent: nat, child: Option<nat>)
    requires WF(f)
  {
    && leader in f.threads && Under(f, top, leader)
    && parent in f.threads[leader] && parent in f.tasks
    && (child.Some? ==> child.value in f.tasks[parent].children)
  }

  /** What the walk still has to visit when its cursor is `(leader, parent, child)`. */
  ghost function Remaining(f: Forest, top: nat, leader: nat, parent: nat, child: Option<nat>): seq<nat>
    requires WF(f) && Cursor(f, top, leader, parent, child)
  {
    From(f.tasks[parent].children, child) + Later(f, leader, parent) + Pending(f, top, leader)
  }

  lemma RemainingAbove(f: Forest, top: nat, leader: nat, parent: nat, child: Option<nat>)
    requires WF(f) && Cursor(f, top, leader, parent, child)
    ensures Above(f, -1, Remaining(f, top, leader, parent, child))
  {
    LaterAbove(f, leader, parent);
    ChildrenOfAbove(f, [parent]);
    assert ChildrenOf(f, [parent]) == f.tasks[parent].children;
    PendingAbove(f, top, leader);
  }

  /** Entering a process: the cursor at its first thread and first child has all its children ahead. */
  lemma EnterRemaining(f: Forest, top: nat, l: nat)
    requires WF(f) && l in f.threads && Under(f, top, l)
    ensures f.threads[l] != []
    ensures var p := f.threads[l][0];
      p in f.tasks
      && Cursor(f, top, l, p, FirstIn(f.tasks[p].children))
      && Remaining(f, top, l, p, FirstIn(f.tasks[p].children)) == Kids(f, l) + Pending(f, top, l)
  {
    hide WF, Under, Pending, Later, Kids, From, FirstIn;
    LaterFirst(f, l);
    FromFirst(f.tasks[f.threads[l][0]].children);
  }

  lemma FromFirst(cs: seq<nat>)
    ensures FirstIn(cs).Some? ==> FirstIn(cs).value in cs
    ensures From(cs, FirstIn(cs)) == cs
  {}

  lemma FromIs(cs: seq<nat>, c: nat)
    requires c in cs
    ensures From(cs, Some(c)) == [c] + cs[IndexOf(cs, c) + 1..]
  {
    SliceHead(cs, IndexOf(cs, c));
    hide IndexOf;
  }

  lemma FromNext(cs: seq<nat>, c: nat)
    requires Distinct(cs) && c in cs
    ensures NextIn(cs, c).Some? ==> NextIn(cs, c).value in cs
    ensures From(cs, NextIn(cs, c)) == cs[IndexOf(cs, c) + 1..]
  {
    hide IndexOf, Distinct;
    var i := IndexOf(cs, c) + 1;
    if i < |cs| {
      IndexUnique(cs, i);
      assert cs[i] in cs;
      assert From(cs, Some(cs[i])) == cs[i..];
    } else {
      assert cs[i..] == [];
    }
  }

  lemma SliceHead(s: seq<nat>, i: nat)
    requires i < |s|
    ensures s[i..] == [s[i]] + s[i + 1..]
  {}

  lemma TailOf(c: nat, a: seq<nat>, x: seq<nat>)
    ensures ([c] + a + x)[0] == c && ([c] + a + x)[1..] == a + x
  {}

  lemma Cancel(c: nat, a: seq<nat>, b: seq<nat>)
    requires [c] + a == [c] + b
    ensures a == b
  {
    assert a == ([c] + a)[1..] && b == ([c] + b)[1..];
  }

  lemma ChildrenDistinct(f: Forest, t: nat)
    requires WF(f) && t in f.tasks
    ensures Distinct(f.tasks[t].children)
  {
    assert TaskOk(f, t);
  }

  lemma Regroup(c: nat, a: seq<nat>, x: seq<nat>, y: seq<nat>)
    ensures ([c] + a) + x + y == [c] + (a + x + y) == [c] + (a + x) + y
  {}

  /** At a child, the list ahead is that child followed by the list at its next sibling. */
  lemma SiblingRemaining(f: Forest, top: nat, leader: nat, parent: nat, c: nat)
    requires WF(f) && Cursor(f, top, leader, parent, Some(c))
    ensures Cursor(f, top, leader, parent, NextIn(f.tasks[parent].children, c))
    ensures Remaining(f, top, leader, parent, Some(c))
         == [c] + Remaining(f, top, leader, parent, NextIn(f.tasks[parent].children, c))
  {
    ChildrenDistinct(f, parent);
    hide WF, Under, Pending, Later, From, NextIn, Distinct;
    var cs := f.tasks[parent].children;
    FromIs(cs, c);
    FromNext(cs, c);
    Regroup(c, From(cs, NextIn(cs, c)), Later(f, leader, parent), Pending(f, top, leader));
  }

  /** A child at the cursor hangs below the process of the cursor. */
  lemma ChildAtCursor(f: Forest, top: nat, leader: nat, parent: nat, c: nat)
    requires WF(f) && Cursor(f, top, leader, parent, Some(c))
    ensures c in f.tasks && f.tasks[c].realParent == parent && f.tasks[parent].leader == leader
    ensures Linked(f, c) && c in f.threads && leader < c && Under(f, top, c)
  {
    assert TaskOk(f, parent) && GroupOk(f, leader);
  }

  /** Entering a child puts exactly what follows the child on the climb path. */
  lemma DescendPending(f: Forest, top: nat, leader: nat, parent: nat, c: nat)
    requires WF(f) && Cursor(f, top, leader, parent, Some(c))
    ensures Linked(f, c) && ParentProcess(f, c) == leader && c in f.threads && leader < c && Under(f, top, c)
    ensures Remaining(f, top, leader, parent, Some(c)) == [c] + AfterSibling(f, c) + Pending(f, top, leader)
  {
    ChildAtCursor(f, top, leader, parent, c);
    ChildrenDistinct(f, parent);
    hide WF, Under, Pending, Later, From, NextIn, Distinct;
    var cs := f.tasks[parent].children;
    FromIs(cs, c);
    Regroup(c, cs[IndexOf(cs, c) + 1..], Later(f, leader, parent), Pending(f, top, leader));
  }

  lemma {:induction false} UnderTop(f: Forest, top: nat, l: nat)
    requires WF(f) && Under(f, top, l)
    ensures top <= l
    decreases l
  {
    if l != top {
      assert TaskOk(f, f.tasks[l].realParent);
      UnderTop(f, top, ParentProcess(f, l));
    }
  }

  /** At the end of a thread's list, moving to the next thread leaves the list ahead unchanged. */
  lemma NextThreadRemaining(f: Forest, top: nat, leader: nat, parent: nat, q: nat)
    requires WF(f) && Cursor(f, top, leader, parent, None)
    requires NextIn(f.threads[leader], parent) == Some(q)
    ensures q in f.tasks && Cursor(f, top, leader, q, FirstIn(f.tasks[q].children))
    ensures Remaining(f, top, leader, parent, None) == Remaining(f, top, leader, q, FirstIn(f.tasks[q].children))
  {
    hide WF, Under, Pending, Later, NextIn, FirstIn;
    LaterNext(f, leader, parent);
    FromFirst(f.tasks[q].children);
  }

  /** At the end of a process, the list ahead is what the climb finds after it. */
  lemma ClimbRemaining(f: Forest, top: nat, leader: nat, parent: nat)
    requires WF(f) && Cursor(f, top, leader, parent, None)
    requires NextIn(f.threads[leader], parent) == None
    ensures Remaining(f, top, leader, parent, None) == Pending(f, top, leader)
    ensures leader != top ==>
      var p := f.tasks[leader].realParent;
      && p in f.tasks && leader in f.tasks[p].children
      && f.tasks[p].leader < leader
      && Cursor(f, top, f.tasks[p].leader, p, Some(leader))
      && Cursor(f, top, f.tasks[p].leader, p, NextIn(f.tasks[p].children, leader))
      && Remaining(f, top, f.tasks[p].leader, p, NextIn(f.tasks[p].children, leader)) == Pending(f, top, leader)
  {
    LaterNext(f, leader, parent);
    if leader != top {
      ParentCursor(f, top, leader);
      hide WF, Under, Later, From, NextIn, AfterSibling, Cursor, Remaining;
      PendingStep(f, top, leader);
      var p := f.tasks[leader].realParent;
      var l := f.tasks[p].leader;
      SiblingRemaining(f, top, l, p, leader);
      DescendPending(f, top, l, p, leader);
      Regroup(leader, AfterSibling(f, leader), Pending(f, top, l), []);
      Cancel(leader, Remaining(f, top, l, p, NextIn(f.tasks[p].children, leader)), AfterSibling(f, leader) + Pending(f, top, l));
    }
  }

  /** Below the top, a process can be found at a cursor in its parent process. */
  lemma ParentCursor(f: Forest, top: nat, leader: nat)
    requires WF(f) && Under(f, top, leader) && leader != top
    ensures Linked(f, leader)
    ensures var p := f.tasks[leader].realParent;
      f.tasks[p].leader < leader && Cursor(f, top, f.tasks[p].leader, p, Some(leader))
  {
    assert TaskOk(f, f.tasks[leader].realParent);
  }

  // ----- The stackless walk -----

  /** Having made `calls`, the walk stands at this cursor, and working off what is ahead of it yields `goal`. */
  ghost predicate OnTrack<S>(f: Forest, v: (S, nat) -> (S, int), top: nat, leader: nat, parent: nat, child: Option<nat>,
                             s: S, calls: seq<nat>, goal: Outcome<S>) {
    && WF(f)
    && Cursor(f, top, leader, parent, child)
    && var work := Remaining(f, top, leader, parent, child);
       Above(f, -1, work) && goal == Then(Outcome(s, calls, false), Run(f, v, work, s))
  }

  /** Number of processes ahead of the cursor, counting subtrees. */
  ghost function Ahead(f: Forest, top: nat, leader: nat, parent: nat, child: Option<nat>): nat
    requires WF(f) && Cursor(f, top, leader, parent, child)
  {
    RemainingAbove(f, top, leader, parent, child);
    Weight(f, -1, Remaining(f, top, leader, parent, child))
  }

  lemma StartsOnTrack<S>(f: Forest, v: (S, nat) -> (S, int), top: nat, s: S)
    requires WF(f) && top in f.threads
    ensures Above(f, top, Kids(f, top)) && f.threads[top] != [] && f.threads[top][0] in f.tasks
    ensures var p := f.threads[top][0];
      OnTrack(f, v, top, top, p, FirstIn(f.tasks[p].children), s, [], PreOrder(f, v, top, Kids(f, top), s))
  {
    KidsAbove(f, top);
    EnterRemaining(f, top, top);
    RunIsPreOrder(f, v, top, Kids(f, top), [], s);
    assert Kids(f, top) + [] == Kids(f, top);
    var goal := PreOrder(f, v, top, Kids(f, top), s);
    assert Run(f, v, [], goal.state) == Outcome(goal.state, [], false);
    assert Then(goal, Outcome(goal.state, [], false)) == goal;
  }

  /** A visit with a negative result ends the traversal; otherwise what is ahead becomes lighter. */
  lemma VisitProgress<S>(f: Forest, v: (S, nat) -> (S, int), top: nat, leader: nat, parent: nat, c: nat,
                         s: S, calls: seq<nat>, goal: Outcome<S>, s1: S, res: int)
    requires OnTrack(f, v, top, leader, parent, Some(c), s, calls, goal) && v(s, c) == (s1, res)
    ensures Remaining(f, top, leader, parent, Some(c)) != []
    ensures res < 0 ==> goal == Outcome(s1, calls + [c], true)
    ensures res >= 0 ==>
      var next := NextWork(f, Remaining(f, top, leader, parent, Some(c)), res);
      && Above(f, -1, next) && Weight(f, -1, next) < Ahead(f, top, leader, parent, Some(c))
      && goal == Then(Outcome(s1, calls + [c], false), Run(f, v, next, s1))
  {
    var work := Remaining(f, top, leader, parent, Some(c));
    SiblingRemaining(f, top, leader, parent, c);
    RunVisits(f, v, work, s, s1, res);
    if res >= 0 {
      NextWorkLighter(f, work, res);
      ThenAssociates(Outcome(s, calls, false), Outcome(s1, [c], false), Run(f, v, NextWork(f, work, res), s1));
      assert Then(Outcome(s, calls, false), Outcome(s1, [c], false)) == Outcome(s1, calls + [c], false);
    }
  }

  lemma SkipOnTrack<S>(f: Forest, v: (S, nat) -> (S, int), top: nat, leader: nat, parent: nat, c: nat,
                       s: S, calls: seq<nat>, goal: Outcome<S>, s1: S)
    requires OnTrack(f, v, top, leader, parent, Some(c), s, calls, goal) && v(s, c) == (s1, 0)
    ensures var next := NextIn(f.tasks[parent].children, c);
      && OnTrack(f, v, top, leader, parent, next, s1, calls + [c], goal)
      && Ahead(f, top, leader, parent, next) < Ahead(f, top, leader, parent, Some(c))
  {
    SiblingRemaining(f, top, leader, parent, c);
    VisitProgress(f, v, top, leader, parent, c, s, calls, goal, s1, 0);
  }

  lemma EnterOnTrack<S>(f: Forest, v: (S, nat) -> (S, int), top: nat, leader: nat, parent: nat, c: nat,
                        s: S, calls: seq<nat>, goal: Outcome<S>, s1: S, res: int)
    requires OnTrack(f, v, top, leader, parent, Some(c), s, calls, goal) && v(s, c) == (s1, res) && res > 0
    ensures c in f.threads && f.threads[c] != [] && f.threads[c][0] in f.tasks
    ensures var p := f.threads[c][0];
      var first := FirstIn(f.tasks[p].children);
      && OnTrack(f, v, top, c, p, first, s1, calls + [c], goal)
      && Ahead(f, top, c, p, first) < Ahead(f, top, leader, parent, Some(c))
  {
    hide Run, Weight, Kids, AfterSibling, Later, WF, From, Then, Cursor;
    DescendPending(f, top, leader, parent, c);
    EnterRemaining(f, top, c);
    UnderLeader(f, top, leader, parent, Some(c));
    UnderTop(f, top, leader);
    VisitProgress(f, v, top, leader, parent, c, s, calls, goal, s1, res);
    EnteredIsPending(f, top, leader, parent, c, res);
  }

  lemma UnderLeader(f: Forest, top: nat, leader: nat, parent: nat, child: Option<nat>)
    requires WF(f) && Cursor(f, top, leader, parent, child)
    ensures Under(f, top, leader)
  {}

  /** What is ahead after a child is entered is its children and then what was ahead behind it. */
  lemma EnteredIsPending(f: Forest, top: nat, leader: nat, parent: nat, c: nat, res: int)
    requires WF(f) && Cursor(f, top, leader, parent, Some(c)) && top <= leader < c && c in f.threads && Under(f, top, c)
    requires Above(f, -1, Remaining(f, top, leader, parent, Some(c))) && res > 0
    ensures Remaining(f, top, leader, parent, Some(c)) != []
    ensures NextWork(f, Remaining(f, top, leader, parent, Some(c)), res) == Kids(f, c) + Pending(f, top, c)
  {
    hide Kids, AfterSibling, Later, WF, From, Remaining, Cursor;
    DescendPending(f, top, leader, parent, c);
    TailOf(c, AfterSibling(f, c), Pending(f, top, leader));
    PendingStep(f, top, c);
    hide Pending;
  }

  lemma PendingStep(f: Forest, top: nat, c: nat)
    requires WF(f) && Under(f, top, c) && c != top
    ensures Linked(f, c) && Under(f, top, ParentProcess(f, c))
    ensures Pending(f, top, c) == AfterSibling(f, c) + Pending(f, top, ParentProcess(f, c))
  {
    assert TaskOk(f, f.tasks[c].realParent);
  }

  /**
   `walk_process_tree`: no stack, only the cursor. `parent` and `child` are the two loop cursors;
   at the end of a process the walk resumes after that process in the list of its real parent.
   */
  method WalkProcessTree<S>(f: Forest, start: nat, v: (S, nat) -> (S, int), s0: S)
    returns (s: S, calls: seq<nat>, stopped: bool)
    requires WF(f) && start in f.tasks
    ensures f.tasks[start].leader in f.threads && Above(f, f.tasks[start].leader, Kids(f, f.tasks[start].leader))
    ensures Outcome(s, calls, stopped)
         == PreOrder(f, v, f.tasks[start].leader, Kids(f, f.tasks[start].leader), s0)
  {
    assert TaskOk(f, start);
    var top := f.tasks[start].leader;
    var leader := top;
    StartsOnTrack(f, v, top, s0);
    ghost var goal := PreOrder(f, v, top, Kids(f, top), s0);
    var parent := f.threads[leader][0];
    var child := FirstIn(f.tasks[parent].children);
    s, calls, stopped := s0, [], false;
    while true
      invariant OnTrack(f, v, top, leader, parent, child, s, calls, goal) && !stopped
      decreases Ahead(f, top, leader, parent, child), leader, |f.threads[leader]| - IndexOf(f.threads[leader], parent)
    {
      if child.Some? {
        var c := child.value;
        var (s1, res) := v(s, c);
        if res < 0 {
          VisitProgress(f, v, top, leader, parent, c, s, calls, goal, s1, res);
          s, calls, stopped := s1, calls + [c], true;
          return;
        }
        if res > 0 {
          EnterOnTrack(f, v, top, leader, parent, c, s, calls, goal, s1, res);
          leader := c;
          parent := f.threads[leader][0];
          child := FirstIn(f.tasks[parent].children);
        } else {
          SkipOnTrack(f, v, top, leader, parent, c, s, calls, goal, s1);
          child := NextIn(f.tasks[parent].children, c);
        }
        s, calls := s1, calls + [c];
      } else {
        var q := NextIn(f.threads[leader], parent);
        if q.Some? {
          NextThreadRemaining(f, top, leader, parent, q.value);
          assert GroupOk(f, leader);
          IndexUnique(f.threads[leader], IndexOf(f.threads[leader], parent) + 1);
          parent := q.value;
          child := FirstIn(f.tasks[parent].children);
        } else {
          ClimbRemaining(f, top, leader, parent);
          if leader == top {
            return;
          }
          var done := leader;
          parent := f.tasks[done].realParent;
          leader := f.tasks[parent].leader;
          child := NextIn(f.tasks[parent].children, done);
        }
      }
    }
  }
}
