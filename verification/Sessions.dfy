/**
 Process groups and sessions: `setpgid`, `setsid`, and the part of fork that hands both on.

 A task is named by its pid. Group, session and the leader flag belong to the process, named by the
 pid of its group leader. A pid number stays unavailable for new tasks while it names a task, a
 process group or a session.
 */
module Sessions {

  const EPERM := 1
  const ESRCH := 3
  const EACCES := 13
  const EINVAL := 22

  /** `noExec`: the task has not called exec since it was forked (`PF_FORKNOEXEC`). */
  datatype Task = Task(leader: int, realParent: int, noExec: bool)

  datatype Ids = Ids(pgrp: int, session: int, leader: bool)

  datatype State = State(tasks: map<int, Task>, procs: map<int, Ids>)

  /** Every task belongs to a listed process, and a process is listed under its leading task. */
  ghost predicate WF(s: State) {
    && (forall t :: t in s.tasks ==> t > 0 && s.tasks[t].leader in s.procs)
    && (forall p :: p in s.procs ==> p in s.tasks && s.tasks[p].leader == p)
  }

  /** The process of the real parent of `t`; a parent outside the table stands for itself. */
  function ParentProcess(s: State, t: int): int
    requires t in s.tasks
  {
    var r := s.tasks[t].realParent;
    if r in s.tasks then s.tasks[r].leader else r
  }

  function Group(s: State, g: int): (r: set<int>)
    ensures forall p :: p in r <==> p in s.procs && s.procs[p].pgrp == g
  {
    set p | p in s.procs.Keys && s.procs[p].pgrp == g :: p
  }

  function Session(s: State, x: int): (r: set<int>)
    ensures forall p :: p in r <==> p in s.procs && s.procs[p].session == x
  {
    set p | p in s.procs.Keys && s.procs[p].session == x :: p
  }

  // ----- The invariant -----

  /** Each process group lies inside one session. */
  ghost predicate GroupsInOneSession(s: State) {
    forall p, q :: p in s.procs && q in s.procs && s.procs[p].pgrp == s.procs[q].pgrp ==>
      s.procs[p].session == s.procs[q].session
  }

  /** A session leader leads the group and the session named by its own pid. */
  ghost predicate LeadersLead(s: State) {
    forall p :: p in s.procs && s.procs[p].leader ==> s.procs[p].pgrp == p && s.procs[p].session == p
  }

  /** The group named by a live process lies in that process's session, whether or not it is a member. */
  ghost predicate NamedGroupIsLocal(s: State) {
    forall p, q :: p in s.procs && q in s.procs && s.procs[q].pgrp == p ==> s.procs[q].session == s.procs[p].session
  }

  /** The session named by a live process has that process as its leader. */
  ghost predicate NamedSessionIsLed(s: State) {
    forall p, q :: p in s.procs && q in s.procs && s.procs[q].session == p ==> s.procs[p].leader
  }

  ghost predicate Inv(s: State) {
    WF(s) && GroupsInOneSession(s) && LeadersLead(s) && NamedGroupIsLocal(s) && NamedSessionIsLed(s)
  }

  /** The boot thread has forked init and kthreadd, which keep its group and session 0. */
  ghost predicate Init(s: State) {
    && s.tasks.Keys == s.procs.Keys == {1, 2}
    && (forall p :: p in s.procs ==> s.tasks[p].leader == p && s.procs[p] == Ids(0, 0, false))
  }

  // ----- setpgid and setsid, as POSIX describes them -----

  /** The process and group that `setpgid(pid, pgid)` of task `cur` speaks of; zero means "mine". */
  function Target(s: State, cur: int, pid: int): int
    requires cur in s.tasks
  {
    if pid == 0 then s.tasks[cur].leader else pid
  }

  function NewGroup(s: State, cur: int, pid: int, pgid: int): int
    requires cur in s.tasks
  {
    if pgid == 0 then Target(s, cur, pid) else pgid
  }

  /** `p` is the caller, or a child of the caller in its session that has not called exec. */
  ghost predicate MayMove(s: State, cur: int, p: int)
    requires WF(s) && cur in s.tasks && p in s.procs
  {
    var me := s.tasks[cur].leader;
    if ParentProcess(s, p) == me then s.procs[p].session == s.procs[me].session && s.tasks[p].noExec
    else p == me
  }

  /** Group `g` may be joined by `p`: its own, or a group that exists and lies wholly in the caller's session. */
  ghost predicate MayJoin(s: State, cur: int, p: int, g: int)
    requires WF(s) && cur in s.tasks
  {
    g == p || (Group(s, g) != {} && Group(s, g) <= Session(s, s.procs[s.tasks[cur].leader].session))
  }

  ghost predicate MaySetpgid(s: State, cur: int, pid: int, pgid: int)
    requires WF(s) && cur in s.tasks
  {
    var p, g := Target(s, cur, pid), NewGroup(s, cur, pid, pgid);
    g >= 0 && p in s.procs && MayMove(s, cur, p) && !s.procs[p].leader && MayJoin(s, cur, p, g)
  }

  ghost predicate MaySetsid(s: State, cur: int)
    requires WF(s) && cur in s.tasks
  {
    var me := s.tasks[cur].leader;
    !s.procs[me].leader && Group(s, me) == {}
  }

  // ----- Steps -----

  datatype Step =
    | CloneProcess(cur: int, sibling: bool, pid: int)
    | CloneThread(cur: int, pid: int)
    | Exec(cur: int)
    | Setpgid(cur: int, pid: int, pgid: int, lsm: int)
    | Setsid(cur: int)
    | Reparent(child: int, parent: int)
    | ExitThread(t: int)
    | ExitProcess(p: int)

  /** The allocator hands out positive numbers that name no task, group or session. */
  ghost predicate Unused(s: State, pid: int) {
    pid > 0 && pid !in s.tasks && Group(s, pid) == {} && Session(s, pid) == {}
  }

  ghost predicate Enabled(s: State, step: Step)
    requires WF(s)
  {
    match step
    case CloneProcess(cur, _, pid) => cur in s.tasks && Unused(s, pid)
    case CloneThread(cur, pid) => cur in s.tasks && Unused(s, pid)
    case Exec(cur) => cur in s.procs
    case Setpgid(cur, _, _, lsm) => cur in s.tasks && lsm <= 0
    case Setsid(cur) => cur in s.tasks
    case Reparent(child, _) => child in s.tasks
    case ExitThread(t) => t in s.tasks && t !in s.procs
    case ExitProcess(p) => p in s.procs && forall t :: t in s.tasks && s.tasks[t].leader == p ==> t == p
  }

  ghost function After(s: State, step: Step): State
    requires WF(s) && Enabled(s, step)
  {
    match step
    case CloneProcess(cur, sibling, pid) =>
      var ids := s.procs[s.tasks[cur].leader];
      State(s.tasks[pid := Task(pid, if sibling then s.tasks[cur].realParent else cur, true)],
            s.procs[pid := Ids(ids.pgrp, ids.session, false)])
    case CloneThread(cur, pid) =>
      s.(tasks := s.tasks[pid := Task(s.tasks[cur].leader, s.tasks[cur].realParent, true)])
    case Exec(cur) => s.(tasks := s.tasks[cur := s.tasks[cur].(noExec := false)])
    case Setpgid(cur, pid, pgid, lsm) =>
      if MaySetpgid(s, cur, pid, pgid) && lsm == 0 then
        var p := Target(s, cur, pid);
        s.(procs := s.procs[p := s.procs[p].(pgrp := NewGroup(s, cur, pid, pgid))])
      else s
    case Setsid(cur) =>
      var me := s.tasks[cur].leader;
      if MaySetsid(s, cur) then s.(procs := s.procs[me := Ids(me, me, true)]) else s
    case Reparent(child, parent) => s.(tasks := s.tasks[child := s.tasks[child].(realParent := parent)])
    case ExitThread(t) => s.(tasks := s.tasks - {t})
    case ExitProcess(p) => State(s.tasks - {p}, s.procs - {p})
  }

  // ----- Every step keeps the invariant -----

  lemma CloneKeeps(s: State, step: Step)
    requires Inv(s) && Enabled(s, step) && (step.CloneProcess? || step.CloneThread?)
    ensures Inv(After(s, step))
  {
    var s' := After(s, step);
    if step.CloneProcess? {
      assert forall p :: p in s.procs ==> p !in Group(s, step.pid) && p !in Session(s, step.pid);
      var parent := s.tasks[step.cur].leader;
      forall p, q | p in s'.procs && q in s'.procs && s'.procs[p].pgrp == s'.procs[q].pgrp
        ensures s'.procs[p].session == s'.procs[q].session
      {
        var p0 := if p == step.pid then parent else p;
        var q0 := if q == step.pid then parent else q;
        assert s.procs[p0].pgrp == s.procs[q0].pgrp;
      }
    }
  }

  lemma SomeMember(s: State, g: int) returns (q: int)
    requires Group(s, g) != {}
    ensures q in s.procs && s.procs[q].pgrp == g
  {
    var members := Group(s, g);
    assert |members| != 0;
    q :| q in members;
  }

  /** The members of a group that may be joined are in the session of the process that joins, and so is a process it is named by. */
  lemma JoinedIsLocal(s: State, cur: int, p: int, g: int)
    requires Inv(s) && cur in s.tasks && p in s.procs && MayMove(s, cur, p) && MayJoin(s, cur, p, g)
    ensures forall q :: q in s.procs && s.procs[q].pgrp == g ==> s.procs[q].session == s.procs[p].session
    ensures g in s.procs ==> s.procs[g].session == s.procs[p].session
  {
    var x := s.procs[s.tasks[cur].leader].session;
    forall q | q in s.procs && s.procs[q].pgrp == g ensures s.procs[q].session == s.procs[p].session {
      assert q in Group(s, g);
      assert g != p ==> q in Session(s, x);
    }
    if g != p {
      var _ := SomeMember(s, g);
    }
  }

  /** Moving a process into a group of its own session keeps the invariant. */
  lemma MovedKeeps(s: State, p: int, g: int)
    requires Inv(s) && p in s.procs && !s.procs[p].leader
    requires forall q :: q in s.procs && s.procs[q].pgrp == g ==> s.procs[q].session == s.procs[p].session
    requires g in s.procs ==> s.procs[g].session == s.procs[p].session
    ensures Inv(s.(procs := s.procs[p := s.procs[p].(pgrp := g)]))
  {
    var s' := s.(procs := s.procs[p := s.procs[p].(pgrp := g)]);
    assert forall q :: q in s'.procs <==> q in s.procs;
    assert forall q :: q in s.procs ==> s'.procs[q].session == s.procs[q].session && s'.procs[q].leader == s.procs[q].leader;
    assert forall q :: q in s.procs && q != p ==> s'.procs[q] == s.procs[q];
  }

  /** Moving into a permitted group keeps that group, and every group named by a live process, in one session. */
  lemma SetpgidKeeps(s: State, step: Step)
    requires Inv(s) && Enabled(s, step) && step.Setpgid?
    ensures Inv(After(s, step))
  {
    hide Inv, MayMove, MayJoin;
    WellFormed(s);
    if MaySetpgid(s, step.cur, step.pid, step.pgid) {
      var p, g := Target(s, step.cur, step.pid), NewGroup(s, step.cur, step.pid, step.pgid);
      JoinedIsLocal(s, step.cur, p, g);
      MovedKeeps(s, p, g);
    }
  }

  lemma WellFormed(s: State)
    requires Inv(s)
    ensures WF(s)
  {}

  lemma SetsidKeeps(s: State, step: Step)
    requires Inv(s) && Enabled(s, step) && step.Setsid?
    ensures Inv(After(s, step))
  {
    var me := s.tasks[step.cur].leader;
    if MaySetsid(s, step.cur) {
      assert forall q :: q in s.procs ==> q !in Group(s, me);
    }
  }

  lemma StepKeeps(s: State, step: Step)
    requires Inv(s) && Enabled(s, step)
    ensures Inv(After(s, step))
  {
    match step
    case CloneProcess(_, _, _) => CloneKeeps(s, step);
    case CloneThread(_, _) => CloneKeeps(s, step);
    case Setpgid(_, _, _, _) => SetpgidKeeps(s, step);
    case Setsid(_) => SetsidKeeps(s, step);
    case _ =>
  }

  /** `s` is reached from `s0` by the steps of `run`. */
  ghost predicate Reaches(s0: State, run: seq<Step>, s: State)
    decreases |run|
  {
    if run == [] then s0 == s
    else WF(s0) && Enabled(s0, run[0]) && Reaches(After(s0, run[0]), run[1..], s)
  }

  /** Sessions and groups stay consistent in every run from boot. */
  lemma {:induction false} RunKeeps(s0: State, run: seq<Step>, s: State)
    requires Inv(s0) && Reaches(s0, run, s)
    ensures GroupsInOneSession(s) && LeadersLead(s) && NamedGroupIsLocal(s) && NamedSessionIsLed(s) && WF(s)
    decreases |run|
  {
    if run != [] {
      StepKeeps(s0, run[0]);
      RunKeeps(After(s0, run[0]), run[1..], s);
    }
  }

  lemma BootIsConsistent(s: State)
    requires Init(s)
    ensures Inv(s)
  {}

  /** A successful `setsid` founds a session and a group that nobody else is in, and nobody was in before. */
  lemma SetsidFounds(s0: State, run: seq<Step>, s: State, cur: int)
    requires Init(s0) && Reaches(s0, run, s) && WF(s) && cur in s.tasks && MaySetsid(s, cur)
    ensures var me := s.tasks[cur].leader; var s' := After(s, Setsid(cur));
      Session(s, me) == {} && Group(s, me) == {} && Session(s', me) == {me} && Group(s', me) == {me}
  {
    RunKeeps(s0, run, s);
    var me := s.tasks[cur].leader;
    var s' := After(s, Setsid(cur));
    forall q | q in s.procs ensures s.procs[q].session != me && s.procs[q].pgrp != me {
      assert q !in Group(s, me);
    }
    assert s'.procs == s.procs[me := Ids(me, me, true)];
    assert Session(s', me) == {me};
  }

  /** Somewhere in the run a task of process `p` calls `setsid` and is let to. */
  ghost predicate CallsSetsid(s: State, run: seq<Step>, s': State, p: int)
    requires Reaches(s, run, s')
    decreases |run|
  {
    run != [] &&
    ((run[0].Setsid? && s.tasks[run[0].cur].leader == p && MaySetsid(s, run[0].cur)) || CallsSetsid(After(s, run[0]), run[1..], s', p))
  }

  /**
   While a process lives, its session changes at most once, to the one it founds itself by its own call; and
   once it leads a session, neither its group nor its session ever changes, whoever calls what.
   */
  lemma {:induction false} SessionsAreFixed(s: State, run: seq<Step>, s': State, p: int)
    requires Inv(s) && Reaches(s, run, s') && p in s.procs && ExitProcess(p) !in run
    ensures p in s'.procs
    ensures s.procs[p].leader ==> s'.procs[p] == s.procs[p]
    ensures if CallsSetsid(s, run, s', p) then s'.procs[p] == Ids(p, p, true) else s'.procs[p].session == s.procs[p].session
    decreases |run|
  {
    if run != [] {
      var t := After(s, run[0]);
      StepKeeps(s, run[0]);
      assert run[0] in run && p in t.procs;
      assert forall step :: step in run[1..] ==> step in run;
      SessionsAreFixed(t, run[1..], s', p);
    }
  }

  /** After a successful `setpgid`, the moved process, its whole new group and the caller share a session. */
  lemma MovedGroupIsTheCallersSession(s: State, cur: int, pid: int, pgid: int)
    requires Inv(s) && cur in s.tasks && MaySetpgid(s, cur, pid, pgid)
    ensures var g := NewGroup(s, cur, pid, pgid); var s' := After(s, Setpgid(cur, pid, pgid, 0));
      Target(s, cur, pid) in Group(s', g) && Group(s', g) <= Session(s', s'.procs[s'.tasks[cur].leader].session)
  {
    var p, g := Target(s, cur, pid), NewGroup(s, cur, pid, pgid);
    var s' := After(s, Setpgid(cur, pid, pgid, 0));
    SetpgidKeeps(s, Setpgid(cur, pid, pgid, 0));
    forall q | q in Group(s', g) ensures s'.procs[q].session == s'.procs[p].session {
      assert s'.procs[q].pgrp == s'.procs[p].pgrp;
    }
  }

  // ----- Who may change what -----

  /** Task `cur` belongs to the parent of process `p`. */
  ghost predicate IsParent(s: State, cur: int, p: int)
    requires cur in s.tasks && p in s.tasks
  {
    ParentProcess(s, p) == s.tasks[cur].leader
  }

  /**
   A step changes the group or session of at most one process, and the call that does is that process's own,
   or its parent's `setpgid` on a child of the parent's session that has not called exec. Processes appear
   only by clone and go only by exit.
   */
  lemma OnlyItsOwnOrItsParents(s: State, step: Step, p: int)
    requires Inv(s) && Enabled(s, step)
    ensures var s' := After(s, step);
      && (p in s.procs && p !in s'.procs <==> step == ExitProcess(p))
      && (p !in s.procs && p in s'.procs <==> step.CloneProcess? && step.pid == p)
      && (p in s.tasks && p !in s'.tasks <==> step == ExitProcess(p) || step == ExitThread(p))
      && (p !in s.tasks && p in s'.tasks <==> (step.CloneProcess? || step.CloneThread?) && step.pid == p)
      && (p in s.procs && p in s'.procs && s'.procs[p] != s.procs[p] ==>
            && (step.Setsid? || step.Setpgid?)
            && (s.tasks[step.cur].leader != p ==>
                  && step.Setpgid? && IsParent(s, step.cur, p) && s.tasks[p].noExec
                  && s.procs[p].session == s.procs[s.tasks[step.cur].leader].session))
  {}

  /** Somewhere in the run a task of process `p` calls `setpgid` or `setsid`. */
  ghost predicate CallsItself(s: State, run: seq<Step>, s': State, p: int)
    requires Reaches(s, run, s')
    decreases |run|
  {
    run != [] &&
    (((run[0].Setsid? || run[0].Setpgid?) && s.tasks[run[0].cur].leader == p) || CallsItself(After(s, run[0]), run[1..], s', p))
  }

  lemma {:induction false} ExecedStays(s: State, run: seq<Step>, s': State, p: int)
    requires Inv(s) && Reaches(s, run, s') && p in s.procs && !s.tasks[p].noExec
    requires ExitProcess(p) !in run && !CallsItself(s, run, s', p)
    ensures p in s'.procs && s'.procs[p] == s.procs[p]
    decreases |run|
  {
    if run != [] {
      assert run[0] in run && run[0] != ExitProcess(p);
      OnlyItsOwnOrItsParents(s, run[0], p);
      StepKeeps(s, run[0]);
      assert forall step :: step in run[1..] ==> step in run;
      ExecedStays(After(s, run[0]), run[1..], s', p);
    }
  }

  /** Once a process has called exec, nobody but itself changes its group or session, parents included. */
  lemma ExecEndsTheParentsSay(s: State, p: int, run: seq<Step>, s': State)
    requires Inv(s) && p in s.procs && Reaches(After(s, Exec(p)), run, s')
    requires ExitProcess(p) !in run && !CallsItself(After(s, Exec(p)), run, s', p)
    ensures p in s'.procs && s'.procs[p] == s.procs[p]
  {
    StepKeeps(s, Exec(p));
    ExecedStays(After(s, Exec(p)), run, s', p);
  }

  /** Fork adds the child, and nobody else, to the group and session of its caller. */
  lemma ForkInherits(s: State, cur: int, sibling: bool, pid: int, x: int)
    requires Inv(s) && Enabled(s, CloneProcess(cur, sibling, pid))
    ensures var me := s.tasks[cur].leader; var s' := After(s, CloneProcess(cur, sibling, pid));
      && Group(s', x) == Group(s, x) + (if x == s.procs[me].pgrp then {pid} else {})
      && Session(s', x) == Session(s, x) + (if x == s.procs[me].session then {pid} else {})
      && ParentProcess(s', pid) == (if sibling then ParentProcess(s, cur) else me)
  {
    assert pid !in s.procs;
  }

  /** The job-control idiom: right after fork, either side may give the child a group of its own, and the child a session. */
  lemma ForkedMayBePlaced(s: State, cur: int, pid: int)
    requires Inv(s) && Enabled(s, CloneProcess(cur, false, pid))
    ensures var s' := After(s, CloneProcess(cur, false, pid));
      && MaySetpgid(s', cur, pid, 0) && Group(After(s', Setpgid(cur, pid, 0, 0)), pid) == {pid}
      && MaySetpgid(s', pid, 0, 0) && Group(After(s', Setpgid(pid, 0, 0, 0)), pid) == {pid}
      && MaySetsid(s', pid) && Session(After(s', Setsid(pid)), pid) == {pid}
  {
    var s' := After(s, CloneProcess(cur, false, pid));
    assert forall q :: q in s.procs ==> q !in Group(s, pid) && q !in Session(s, pid);
    assert Group(s', pid) == {};
    var moved := s'.(procs := s'.procs[pid := s'.procs[pid].(pgrp := pid)]);
    assert Group(moved, pid) == {pid};
    var led := s'.(procs := s'.procs[pid := Ids(pid, pid, true)]);
    assert Session(led, pid) == {pid};
  }

  /** A thread acts for its process: it may do what the thread that made it may. */
  lemma ThreadActsForItsProcess(s: State, cur: int, t: int, pid: int, pgid: int)
    requires Inv(s) && Enabled(s, CloneThread(cur, t)) && pid != t
    ensures var s' := After(s, CloneThread(cur, t));
      && s'.procs == s.procs && t !in s'.procs && s'.tasks[t].realParent == s.tasks[cur].realParent
      && (MaySetsid(s', t) <==> MaySetsid(s, cur))
      && (MaySetpgid(s', t, pid, pgid) <==> MaySetpgid(s', cur, pid, pgid))
  {
    var s' := After(s, CloneThread(cur, t));
    assert Group(s', s.tasks[cur].leader) == Group(s, s.tasks[cur].leader);
  }

  /** What the arguments of a permitted `setpgid` name: zero stands for the caller, and for the group named by the process. */
  lemma ArgumentsName(s: State, cur: int, pid: int, pgid: int)
    requires Inv(s) && cur in s.tasks && MaySetpgid(s, cur, pid, pgid)
    ensures var s' := After(s, Setpgid(cur, pid, pgid, 0)); var p := if pid == 0 then s.tasks[cur].leader else pid;
      && pid >= 0 && pgid >= 0
      && p in s'.procs && s'.procs[p].pgrp == (if pgid == 0 then p else pgid)
  {}

  /** A process that leads no session may always found a group of its own, if it is not its own parent. */
  lemma MayFoundAGroup(s: State, cur: int)
    requires Inv(s) && cur in s.tasks
    ensures MaySetpgid(s, cur, 0, 0) <==>
      var me := s.tasks[cur].leader; !s.procs[me].leader && (IsParent(s, cur, me) ==> s.tasks[me].noExec)
  {}

  /** Whoever may be moved may join the group of any process of the caller's session. */
  lemma MayJoinAnyGroupOfTheSession(s: State, cur: int, pid: int, q: int)
    requires Inv(s) && cur in s.tasks && q in s.procs && s.procs[q].pgrp > 0
    requires var p := Target(s, cur, pid); p in s.procs && MayMove(s, cur, p) && !s.procs[p].leader
    ensures MaySetpgid(s, cur, pid, s.procs[q].pgrp) <==>
      s.procs[q].pgrp == Target(s, cur, pid) || s.procs[q].session == s.procs[s.tasks[cur].leader].session
  {
    assert q in Group(s, s.procs[q].pgrp);
    OneMemberTells(s, s.procs[q].pgrp, q, s.procs[s.tasks[cur].leader].session);
  }

  // ----- The system calls -----

  /** Process `p` is not there for task `cur` to move: it does not exist, or is neither the caller's own nor its child. */
  ghost predicate NotForCaller(s: State, cur: int, p: int)
    requires WF(s) && cur in s.tasks
  {
    p !in s.tasks || (p in s.procs && p != s.tasks[cur].leader && !IsParent(s, cur, p))
  }

  /** Process `p` is a child in the caller's session that has called exec. */
  ghost predicate ExecedChild(s: State, cur: int, p: int)
    requires WF(s) && cur in s.tasks
  {
    p in s.procs && IsParent(s, cur, p) && s.procs[p].session == s.procs[s.tasks[cur].leader].session && !s.tasks[p].noExec
  }

  /** Since groups never span sessions, one member tells where the whole group is. */
  lemma OneMemberTells(s: State, g: int, q: int, x: int)
    requires Inv(s) && q in Group(s, g)
    ensures Group(s, g) <= Session(s, x) <==> s.procs[q].session == x
  {}

  class PidTable {
    var tasks: map<int, Task>
    var procs: map<int, Ids>

    ghost function View(): State
      reads this
    {
      State(tasks, procs)
    }

    /** Some process of group `g`, as the pid's task list would give its first entry; none if the group is empty. */
    method AnyInGroup(g: int) returns (found: bool, q: int)
      ensures found <==> Group(View(), g) != {}
      ensures found ==> q in Group(View(), g)
    {
      var members := Group(State(tasks, procs), g);
      if members == {} {
        return false, 0;
      }
      assert |members| != 0;
      q :| q in members;
      found := true;
    }

    /**
     `setpgid`. Only one member of the joined group is looked at; that it succeeds exactly when the
     whole group is in the caller's session rests on groups never spanning sessions.
     */
    method SetPgid(cur: int, pid0: int, pgid0: int, lsm: int) returns (err: int)
      requires Inv(View()) && Enabled(View(), Setpgid(cur, pid0, pgid0, lsm))
      modifies this`procs
      ensures Inv(View()) && View() == After(old(View()), Setpgid(cur, pid0, pgid0, lsm))
      ensures err == 0 <==> old(MaySetpgid(View(), cur, pid0, pgid0)) && lsm == 0
      ensures old(MaySetpgid(View(), cur, pid0, pgid0)) ==> err == lsm
      ensures !old(MaySetpgid(View(), cur, pid0, pgid0)) ==>
        var s := old(View()); var pid := Target(s, cur, pid0); var pgid := NewGroup(s, cur, pid0, pgid0);
        && err in {-EPERM, -ESRCH, -EACCES, -EINVAL}
        && (err == -EINVAL <==> pgid < 0 || (pid in s.tasks && pid !in s.procs))
        && (err == -ESRCH <==> pgid >= 0 && NotForCaller(s, cur, pid))
        && (err == -EACCES <==> pgid >= 0 && ExecedChild(s, cur, pid))
    {
      StepKeeps(View(), Setpgid(cur, pid0, pgid0, lsm));
      hide Inv, MaySetpgid;
      WellFormed(View());
      var pid, pgid;
      err, pid, pgid := Check(cur, pid0, pgid0);
      if err != 0 {
        return;
      }
      if lsm != 0 {
        return lsm;
      }
      if procs[pid].pgrp != pgid {
        procs := procs[pid := procs[pid].(pgrp := pgid)];
      }
      assert procs == old(procs)[pid := old(procs)[pid].(pgrp := pgid)];
      return 0;
    }

    /** Everything that is tested under the lock; `pid` and `pgid` are the arguments with zero replaced. */
    method Check(cur: int, pid0: int, pgid0: int) returns (err: int, pid: int, pgid: int)
      requires Inv(View()) && cur in tasks
      ensures pid == Target(View(), cur, pid0) && pgid == NewGroup(View(), cur, pid0, pgid0)
      ensures err == 0 <==> MaySetpgid(View(), cur, pid0, pgid0)
      ensures err == 0 ==> pid in procs
      ensures err in {0, -EPERM, -ESRCH, -EACCES, -EINVAL}
      ensures err == -EINVAL <==> pgid < 0 || (pid in tasks && pid !in procs)
      ensures err == -ESRCH <==> pgid >= 0 && NotForCaller(View(), cur, pid)
      ensures err == -EACCES <==> pgid >= 0 && ExecedChild(View(), cur, pid)
    {
      hide Inv, MayMove, Group, Session;
      ghost var s := View();
      WellFormed(s);
      var groupLeader := tasks[cur].leader;
      pid, pgid := pid0, pgid0;
      if pid == 0 {
        pid := groupLeader;
      }
      if pgid == 0 {
        pgid := pid;
      }
      if pgid < 0 {
        err := -EINVAL;
        return;
      }
      if pid !in tasks {
        err := -ESRCH;
        return;
      }
      if tasks[pid].leader != pid {
        err := -EINVAL;
        return;
      }
      err := CheckTarget(cur, pid);
      if err != 0 {
        return;
      }
      if pgid != pid {
        var found, g := AnyInGroup(pgid);
        if found {
          OneMemberTells(s, pgid, g, procs[groupLeader].session);
        }
        if !found || procs[g].session != procs[groupLeader].session {
          err := -EPERM;
        }
      }
    }

    /** The tests on the process to be moved. */
    method CheckTarget(cur: int, pid: int) returns (err: int)
      requires WF(View()) && cur in tasks && pid in procs
      ensures err == 0 <==> MayMove(View(), cur, pid) && !procs[pid].leader
      ensures err in {0, -EPERM, -ESRCH, -EACCES}
      ensures err == -ESRCH <==> NotForCaller(View(), cur, pid)
      ensures err == -EACCES <==> ExecedChild(View(), cur, pid)
    {
      var groupLeader := tasks[cur].leader;
      if ParentProcess(State(tasks, procs), pid) == groupLeader {
        if procs[pid].session != procs[groupLeader].session {
          return -EPERM;
        }
        if !tasks[pid].noExec {
          return -EACCES;
        }
      } else if pid != groupLeader {
        return -ESRCH;
      }
      if procs[pid].leader {
        return -EPERM;
      }
      return 0;
    }

    /** `setsid`: the new session id on success. */
    method SetSid(cur: int) returns (err: int)
      requires Inv(View()) && cur in tasks
      modifies this`procs
      ensures Inv(View()) && View() == After(old(View()), Setsid(cur))
      ensures err == if old(MaySetsid(View(), cur)) then tasks[cur].leader else -EPERM
    {
      StepKeeps(View(), Setsid(cur));
      var groupLeader := tasks[cur].leader;
      if procs[groupLeader].leader {
        return -EPERM;
      }
      var found, _ := AnyInGroup(groupLeader);
      if found {
        return -EPERM;
      }
      procs := procs[groupLeader := procs[groupLeader].(leader := true)];
      if procs[groupLeader].session != groupLeader {
        procs := procs[groupLeader := procs[groupLeader].(session := groupLeader)];
      }
      if procs[groupLeader].pgrp != groupLeader {
        procs := procs[groupLeader := procs[groupLeader].(pgrp := groupLeader)];
      }
      return groupLeader;
    }
  }
}
