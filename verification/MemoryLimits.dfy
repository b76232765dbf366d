/**
 The list of per-process memory limits behind the system calls 557 to 559: `so2_add_memory_limit`,
 `so2_get_memory_limits` and `so2_update_memory_limit`. Everything that touches the list runs under one mutex.
 */
module MemoryLimits {
  import opened Options
  import opened Wrapping

  const EPERM := 1
  const ESRCH := 3
  const ENOMEM := 12
  const EFAULT := 14
  const EINVAL := 22
  const PAGE_SIZE := 4096

  datatype Entry = Entry(pid: int, limit: nat)

  /** What a call finds outside the list. `rss` is the resident pages of the target, when it exists and has memory. */
  datatype Target = Target(admin: bool, exists_: bool, rss: Option<nat>, memory: bool)

  /** `get_mm_rss(mm) * PAGE_SIZE / 1024` in 64-bit unsigned arithmetic. */
  function UsedKb(rss: nat): nat { U64(rss * PAGE_SIZE) / 1024 }

  /** The checks made before the lock is taken; zero lets the call go on. */
  function Precheck(pid: int, limit: nat, t: Target): int {
    if pid <= 0 || limit == 0 then -EINVAL
    else if !t.admin then -EPERM
    else if !t.exists_ || t.rss.None? then -ESRCH
    else if UsedKb(t.rss.value) > limit then -100
    else 0
  }

  // ---------- The list against a map and an order of arrival ----------

  /** What the list stands for: the pids in the order they were added, and a limit for each. */
  datatype Registry = Registry(order: seq<int>, limits: map<int, nat>)

  ghost predicate Known(g: Registry) {
    && (forall i, j :: 0 <= i < j < |g.order| ==> g.order[i] != g.order[j])
    && (forall p :: p in g.order <==> p in g.limits)
    && forall p :: p in g.limits ==> 0 < p && 0 < g.limits[p] < TWO64
  }

  /** The list holds the registry, newest first. */
  ghost predicate Holds(list: seq<Entry>, g: Registry) {
    && Known(g)
    && |list| == |g.order|
    && forall i :: 0 <= i < |list| ==> list[i] == At(g, i)
  }

  /** The entry that is `i` places from the newest. */
  ghost function At(g: Registry, i: nat): Entry
    requires Known(g) && i < |g.order|
  {
    var p := g.order[|g.order| - 1 - i];
    assert p in g.order;
    Entry(p, g.limits[p])
  }

  ghost function Newest(g: Registry, n: nat): (r: seq<Entry>)
    requires Known(g) && n <= |g.order|
    ensures |r| == n && forall i :: 0 <= i < n ==> r[i] == At(g, i)
  {
    seq(n, i requires 0 <= i < n => At(g, i))
  }

  function Min(a: nat, b: nat): nat { if a < b then a else b }

  /** A position of `pid` in the list, or its length. */
  function Find(list: seq<Entry>, pid: int): (i: nat)
    ensures i <= |list|
    ensures forall j :: 0 <= j < i ==> list[j].pid != pid
    ensures i < |list| ==> list[i].pid == pid
  {
    if list == [] || list[0].pid == pid then 0 else 1 + Find(list[1..], pid)
  }

  // ---------- Calls on values ----------

  datatype Call =
    | Add(pid: int, limit: nat, target: Target)
    | Update(pid: int, limit: nat, target: Target)

  predicate Sized(c: Call) { c.limit < TWO64 }

  /** One call on the list: the result and the list after it. */
  function Perform(list: seq<Entry>, c: Call): (int, seq<Entry>) {
    var e := Precheck(c.pid, c.limit, c.target);
    if e != 0 then (e, list)
    else
      var i := Find(list, c.pid);
      match c
      case Add(pid, limit, t) =>
        if i < |list| then (-101, list) else if !t.memory then (-ENOMEM, list) else (0, [Entry(pid, limit)] + list)
      case Update(pid, limit, t) =>
        if i < |list| then (0, list[i := list[i].(limit := limit)]) else (-102, list)
  }

  /** The same call on the registry: no list is searched. */
  function Intended(g: Registry, c: Call): (int, Registry) {
    var e := Precheck(c.pid, c.limit, c.target);
    var known := c.pid in g.limits;
    var given := g.limits[c.pid := c.limit];
    if e != 0 then (e, g)
    else if c.Add? then
      if known then (-101, g) else if !c.target.memory then (-ENOMEM, g) else (0, Registry(g.order + [c.pid], given))
    else
      if known then (0, g.(limits := given)) else (-102, g)
  }

  /** Every known pid has a place in the list. */
  lemma PlaceOf(list: seq<Entry>, g: Registry, pid: int) returns (i: nat)
    requires Holds(list, g) && pid in g.limits
    ensures i < |list| && list[i].pid == pid
  {
    assert pid in g.order;
    var k :| 0 <= k < |g.order| && g.order[k] == pid;
    i := |g.order| - 1 - k;
    assert list[i] == At(g, i);
  }

  lemma FindIsMember(list: seq<Entry>, g: Registry, pid: int)
    requires Holds(list, g)
    ensures Find(list, pid) < |list| <==> pid in g.limits
  {
    var i := Find(list, pid);
    if i < |list| {
      assert list[i] == At(g, i);
      assert g.order[|g.order| - 1 - i] in g.order;
    }
    if pid in g.limits {
      var _ := PlaceOf(list, g, pid);
    }
  }

  /** The first place with `pid`, or the length when there is none, is where `Find` stops. */
  lemma {:induction false} FindIs(list: seq<Entry>, pid: int, i: nat)
    requires i <= |list| && (forall j :: 0 <= j < i ==> list[j].pid != pid) && (i < |list| ==> list[i].pid == pid)
    ensures i == Find(list, pid)
  {
    if i > 0 {
      assert list[0].pid != pid;
      FindIs(list[1..], pid, i - 1);
    }
  }

  /** Each call answers as the registry does, and the list goes on holding it; a refused call changes nothing. */
  lemma CallRefines(list: seq<Entry>, g: Registry, c: Call)
    requires Holds(list, g) && Sized(c)
    ensures Perform(list, c).0 == Intended(g, c).0
    ensures Holds(Perform(list, c).1, Intended(g, c).1)
    ensures Perform(list, c).0 != 0 ==> Perform(list, c).1 == list && Intended(g, c).1 == g
  {
    FindIsMember(list, g, c.pid);
    if Perform(list, c).0 == 0 {
      if c.Add? {
        AddRefines(list, g, c.pid, c.limit);
      } else {
        UpdateRefines(list, g, c.pid, c.limit);
      }
    }
  }

  lemma AddRefines(list: seq<Entry>, g: Registry, pid: int, limit: nat)
    requires Holds(list, g) && pid !in g.limits && 0 < pid && 0 < limit < TWO64
    ensures Holds([Entry(pid, limit)] + list, Registry(g.order + [pid], g.limits[pid := limit]))
  {
    var h := Registry(g.order + [pid], g.limits[pid := limit]);
    assert forall i :: 0 <= i < |g.order| ==> g.order[i] in g.order;
    assert Known(h);
    forall i | 0 <= i < |list| + 1
      ensures ([Entry(pid, limit)] + list)[i] == At(h, i)
    {
      if i > 0 {
        assert list[i - 1] == At(g, i - 1);
        assert g.order[|g.order| - i] in g.order;
      }
    }
  }

  lemma UpdateRefines(list: seq<Entry>, g: Registry, pid: int, limit: nat)
    requires Holds(list, g) && Find(list, pid) < |list| && pid in g.limits && 0 < limit < TWO64
    ensures Holds(list[Find(list, pid) := Entry(pid, limit)], g.(limits := g.limits[pid := limit]))
  {
    var h := g.(limits := g.limits[pid := limit]);
    assert Known(h);
    UpdatedEntries(list, g, pid, limit);
  }

  lemma UpdatedEntries(list: seq<Entry>, g: Registry, pid: int, limit: nat)
    requires Holds(list, g) && Find(list, pid) < |list| && pid in g.limits
    requires Known(g.(limits := g.limits[pid := limit]))
    ensures forall j: nat :: j < |list| ==> At(g.(limits := g.limits[pid := limit]), j) == (if j == Find(list, pid) then Entry(pid, limit) else list[j])
  {
    hide Known;
    var h := g.(limits := g.limits[pid := limit]);
    var i := Find(list, pid);
    assert list[i] == At(g, i);
    forall j: nat | j < |list|
      ensures At(h, j) == if j == i then Entry(pid, limit) else list[j]
    {
      assert list[j] == At(g, j);
      if i != j {
        OtherPlace(g, i, j);
      }
    }
  }

  lemma OtherPlace(g: Registry, i: nat, j: nat)
    requires Known(g) && i < |g.order| && j < |g.order| && i != j
    ensures At(g, i).pid != At(g, j).pid
  {}

  // ---------- Who may change a limit, and to what ----------

  /** What every change takes: an administrator, a process that exists and has memory, and a limit it does not exceed. */
  predicate Legitimate(c: Call) {
    c.pid > 0 && c.limit > 0 && c.target.admin && c.target.exists_ && c.target.rss.Some? && UsedKb(c.target.rss.value) <= c.limit
  }

  /** A call is granted exactly when it is legitimate and the pid is new to an addition, or known to an update. */
  lemma GrantedExactly(g: Registry, c: Call)
    ensures Intended(g, c).0 == 0 <==> Legitimate(c) && (if c.Add? then c.pid !in g.limits && c.target.memory else c.pid in g.limits)
    ensures Intended(g, c).0 != 0 ==> Intended(g, c).1 == g
    ensures Intended(g, c).1 != g ==> Legitimate(c)
  {}

  /** Each answer has a reason of its own. */
  lemma AnswersMean(g: Registry, c: Call)
    ensures var r := Intended(g, c).0; var t := c.target;
      && (r == -EINVAL <==> c.pid <= 0 || c.limit == 0)
      && (r == -EPERM <==> c.pid > 0 && c.limit > 0 && !t.admin)
      && (r == -ESRCH <==> c.pid > 0 && c.limit > 0 && t.admin && !(t.exists_ && t.rss.Some?))
      && (r == -100 <==> c.pid > 0 && c.limit > 0 && t.admin && t.exists_ && t.rss.Some? && UsedKb(t.rss.value) > c.limit)
      && (r == -101 <==> Legitimate(c) && c.Add? && c.pid in g.limits)
      && (r == -102 <==> Legitimate(c) && c.Update? && c.pid !in g.limits)
      && (r == -ENOMEM <==> Legitimate(c) && c.Add? && c.pid !in g.limits && !t.memory)
  {}

  /** A granted call changes the limit of its own pid and no other, and no pid changes its place. */
  lemma GrantedChanges(g: Registry, c: Call)
    requires Intended(g, c).0 == 0
    ensures var h := Intended(g, c).1;
      && h.limits.Keys == g.limits.Keys + {c.pid} && h.limits[c.pid] == c.limit
      && (forall p :: p in g.limits && p != c.pid ==> h.limits[p] == g.limits[p])
      && g.order <= h.order && |h.order| == |g.order| + (if c.Add? then 1 else 0) && (c.Add? ==> h.order[|g.order|] == c.pid)
  {}

  function Run(list: seq<Entry>, calls: seq<Call>): (seq<int>, seq<Entry>)
    decreases |calls|
  {
    if calls == [] then ([], list)
    else
      var (r, l) := Perform(list, calls[0]);
      var (rs, m) := Run(l, calls[1..]);
      ([r] + rs, m)
  }

  function IntendedRun(g: Registry, calls: seq<Call>): (seq<int>, Registry)
    decreases |calls|
  {
    if calls == [] then ([], g)
    else
      var (r, h) := Intended(g, calls[0]);
      var (rs, k) := IntendedRun(h, calls[1..]);
      ([r] + rs, k)
  }

  /** Over any sequence of calls, all answers are the registry's, and so is the list at the end. */
  lemma {:induction false} RunRefines(list: seq<Entry>, g: Registry, calls: seq<Call>)
    requires Holds(list, g) && forall i :: 0 <= i < |calls| ==> Sized(calls[i])
    ensures Run(list, calls).0 == IntendedRun(g, calls).0
    ensures Holds(Run(list, calls).1, IntendedRun(g, calls).1)
    decreases |calls|
  {
    if calls != [] {
      CallRefines(list, g, calls[0]);
      RunRefines(Perform(list, calls[0]).1, Intended(g, calls[0]).1, calls[1..]);
    }
  }

  /** The list starts empty, so it never holds a pid twice, a pid that is not positive or a limit of zero. */
  lemma ListIsSound(calls: seq<Call>)
    requires forall i :: 0 <= i < |calls| ==> Sized(calls[i])
    ensures var list := Run([], calls).1;
            && (forall i, j :: 0 <= i < j < |list| ==> list[i].pid != list[j].pid)
            && forall i :: 0 <= i < |list| ==> list[i].pid > 0 && 0 < list[i].limit < TWO64
  {
    RunRefines([], Registry([], map[]), calls);
    var list, g := Run([], calls).1, IntendedRun(Registry([], map[]), calls).1;
    forall i, j | 0 <= i < j < |list|
      ensures list[i].pid != list[j].pid
    {
      assert list[i] == At(g, i) && list[j] == At(g, j);
    }
    forall i | 0 <= i < |list|
      ensures list[i].pid > 0 && 0 < list[i].limit < TWO64
    {
      assert list[i] == At(g, i);
    }
  }

  // ---------- Interleavings ----------

  /** A call that has been made under the lock, with its answer. */
  datatype Done = Done(call: Call, answer: int)

  /** What the holder of the lock is doing: searching for its pid, counting entries, or copying them into a buffer of `room`. */
  datatype Job =
    | Searching(call: Call, at: nat)
    | Counting(max: nat, memory: bool, at: nat)
    | Copying(max: nat, room: nat, copied: seq<Entry>)

  /** A filled buffer, on its way to the caller; `since` is how many calls had been made when the lock was taken. */
  datatype View = View(max: nat, since: nat, buffer: seq<Entry>)

  /** `holder` is the thread in the locked section with its job, and what `since` will be; `log` is history. */
  datatype System = System(list: seq<Entry>, holder: Option<Holder>, views: map<nat, View>, log: seq<Done>)

  datatype Holder = Holder(id: nat, job: Job, since: nat)

  datatype Event =
    | LockToChange(id: nat, call: Call)
    | LockToRead(id: nat, max: nat, memory: bool)
    | Advance(id: nat)
    | CopyOut(id: nat)

  ghost predicate Enabled(s: System, e: Event) {
    match e
    case LockToChange(_, c) => s.holder.None? && Sized(c) && Precheck(c.pid, c.limit, c.target) == 0
    case LockToRead(id, max, _) => s.holder.None? && id !in s.views && max > 0
    case Advance(id) => s.holder.Some? && s.holder.value.id == id
    case CopyOut(id) => id in s.views
  }

  /** The call ends with `answer` and the lock is released. */
  function Finish(s: System, call: Call, answer: int, list: seq<Entry>): System {
    s.(list := list, holder := None, log := s.log + [Done(call, answer)])
  }

  /** One step of a search; at the end of the list, or at the pid, the call is decided. */
  function Search(s: System, h: Holder, c: Call, at: nat): System {
    if at >= |s.list| then
      match c
      case Add(pid, limit, t) =>
        if t.memory then Finish(s, c, 0, [Entry(pid, limit)] + s.list) else Finish(s, c, -ENOMEM, s.list)
      case Update(_, _, _) => Finish(s, c, -102, s.list)
    else if s.list[at].pid != c.pid then s.(holder := Some(h.(job := Searching(c, at + 1))))
    else
      match c
      case Add(_, _, _) => Finish(s, c, -101, s.list)
      case Update(_, limit, _) => Finish(s, c, 0, s.list[at := s.list[at].(limit := limit)])
  }

  function After(s: System, e: Event): System
    requires e.Advance? ==> s.holder.Some?
  {
    match e
    case LockToChange(id, c) => s.(holder := Some(Holder(id, Searching(c, 0), |s.log|)))
    case LockToRead(id, max, memory) => s.(holder := Some(Holder(id, Counting(max, memory, 0), |s.log|)))
    case CopyOut(id) => s.(views := s.views - {id})
    case Advance(id) =>
      var h := s.holder.value;
      match h.job
      case Searching(c, at) => Search(s, h, c, at)
      case Counting(max, memory, at) =>
        if at < |s.list| then s.(holder := Some(h.(job := Counting(max, memory, at + 1))))
        else if memory then s.(holder := Some(h.(job := Copying(max, Min(at, max), []))))
        else s.(holder := None)
      case Copying(max, room, copied) =>
        if |copied| < |s.list| && |copied| < max then s.(holder := Some(h.(job := Copying(max, room, copied + [s.list[|copied|]]))))
        else s.(holder := None, views := s.views[id := View(max, h.since, copied)])
  }

  /** The registry after the calls of the log, one at a time, whatever was answered. */
  function RegistryAfter(log: seq<Done>): Registry {
    if log == [] then Registry([], map[]) else Intended(RegistryAfter(log[..|log| - 1]), log[|log| - 1].call).1
  }

  /** Each answer is what the registry would have answered at that point. */
  ghost predicate Answered(log: seq<Done>) {
    forall i :: 0 <= i < |log| ==> log[i].answer == Intended(RegistryAfter(log[..i]), log[i].call).0
  }

  /** The newest entries, as many as asked for, of the registry after the first `since` calls. */
  ghost predicate Shows(log: seq<Done>, max: nat, since: nat, buffer: seq<Entry>) {
    && since <= |log|
    && Known(RegistryAfter(log[..since]))
    && var g := RegistryAfter(log[..since]); buffer == Newest(g, Min(|g.order|, max))
  }

  ghost predicate JobOk(list: seq<Entry>, job: Job) {
    match job
    case Searching(c, at) =>
      && Sized(c) && Precheck(c.pid, c.limit, c.target) == 0
      && at <= |list| && forall j :: 0 <= j < at ==> list[j].pid != c.pid
    case Counting(_, _, at) => at <= |list|
    case Copying(max, room, copied) => room == Min(|list|, max) && |copied| <= room && copied == list[..|copied|]
  }

  ghost predicate Inv(s: System) {
    && Holds(s.list, RegistryAfter(s.log))
    && Answered(s.log)
    && (s.holder.Some? ==> s.holder.value.since == |s.log| && JobOk(s.list, s.holder.value.job))
    && forall id :: id in s.views ==> Shows(s.log, s.views[id].max, s.views[id].since, s.views[id].buffer)
  }

  lemma ShowsMore(log: seq<Done>, d: Done, max: nat, since: nat, buffer: seq<Entry>)
    requires Shows(log, max, since, buffer)
    ensures Shows(log + [d], max, since, buffer)
  {
    assert (log + [d])[..since] == log[..since];
  }

  lemma AnsweredMore(log: seq<Done>, d: Done)
    requires Answered(log) && d.answer == Intended(RegistryAfter(log), d.call).0
    ensures Answered(log + [d]) && RegistryAfter(log + [d]) == Intended(RegistryAfter(log), d.call).1
  {
    assert (log + [d])[..|log|] == log;
    forall i | 0 <= i < |log| + 1
      ensures (log + [d])[i].answer == Intended(RegistryAfter((log + [d])[..i]), (log + [d])[i].call).0
    {
      assert (log + [d])[..i] == log[..i];
      assert i < |log| ==> (log + [d])[i] == log[i];
      assert log[..|log|] == log;
    }
  }

  /** A search that is over has found what `Find` finds, so the call has done what it does in one piece. */
  lemma FinishKeeps(s: System, c: Call, answer: int, list: seq<Entry>)
    requires Inv(s) && Sized(c) && Precheck(c.pid, c.limit, c.target) == 0 && (answer, list) == Perform(s.list, c)
    ensures Inv(Finish(s, c, answer, list))
  {
    hide Perform, Intended, Precheck, Sized, Holds, Answered, Shows;
    CallRefines(s.list, RegistryAfter(s.log), c);
    AnsweredMore(s.log, Done(c, answer));
    forall id | id in s.views
      ensures Shows(s.log + [Done(c, answer)], s.views[id].max, s.views[id].since, s.views[id].buffer)
    {
      ShowsMore(s.log, Done(c, answer), s.views[id].max, s.views[id].since, s.views[id].buffer);
    }
  }

  lemma SearchKeeps(s: System, h: Holder, c: Call, at: nat)
    requires Inv(s) && s.holder == Some(h) && h.job == Searching(c, at)
    ensures Inv(Search(s, h, c, at))
  {
    hide Holds, Answered, Shows, Precheck, Sized;
    if at >= |s.list| || s.list[at].pid == c.pid {
      FindIs(s.list, c.pid, at);
      var (answer, list) := Perform(s.list, c);
      FinishKeeps(s, c, answer, list);
    }
  }

  /** A buffer that is full shows the present instant, which is still the one when the lock was taken. */
  lemma FullShows(list: seq<Entry>, log: seq<Done>, max: nat)
    requires Holds(list, RegistryAfter(log))
    ensures Shows(log, max, |log|, list[..Min(|list|, max)])
  {
    assert log[..|log|] == log;
    var g := RegistryAfter(log);
    assert list[..Min(|list|, max)] == Newest(g, Min(|g.order|, max));
  }

  lemma EventKeeps(s: System, e: Event)
    requires Inv(s) && Enabled(s, e)
    ensures Inv(After(s, e))
  {
    hide Holds, Answered, Shows, Precheck, Sized, Search;
    if e.Advance? {
      var h := s.holder.value;
      match h.job
      case Searching(c, at) => SearchKeeps(s, h, c, at);
      case Counting(_, _, _) =>
      case Copying(max, _, copied) =>
        assert |copied| < |s.list| ==> s.list[..|copied| + 1] == s.list[..|copied|] + [s.list[|copied|]];
        FullShows(s.list, s.log, max);
    }
  }

  ghost predicate Reaches(s0: System, run: seq<Event>, s: System)
    decreases |run|
  {
    if run == [] then s0 == s else Enabled(s0, run[0]) && Reaches(After(s0, run[0]), run[1..], s)
  }

  lemma {:induction false} RunKeeps(s0: System, run: seq<Event>, s: System)
    requires Inv(s0) && Reaches(s0, run, s)
    ensures Inv(s)
    decreases |run|
  {
    if run != [] {
      EventKeeps(s0, run[0]);
      RunKeeps(After(s0, run[0]), run[1..], s);
    }
  }

  const EMPTY := System([], None, map[], [])

  /**
   In every interleaving of calls that take the lock, walk the list step by step and release it, and of readers
   that copy their buffer out later: the answers are those of the registry called one at a time, the list holds
   it, and what any reader has in its buffer is the newest entries of the one instant it held the lock, whatever
   has happened since.
   */
  lemma EveryInterleaving(run: seq<Event>, s: System)
    requires Reaches(EMPTY, run, s)
    ensures Answered(s.log) && Holds(s.list, RegistryAfter(s.log))
    ensures forall id :: id in s.views ==> Shows(s.log, s.views[id].max, s.views[id].since, s.views[id].buffer)
  {
    assert Holds([], Registry([], map[]));
    RunKeeps(EMPTY, run, s);
  }

  /** The copying walk is bounded by the caller's maximum only; it never writes past the room counted before, and ends with it full. */
  lemma NeverPastTheRoom(run: seq<Event>, s: System)
    requires Reaches(EMPTY, run, s) && s.holder.Some? && s.holder.value.job.Copying?
    ensures var Copying(max, room, copied) := s.holder.value.job;
            && |copied| <= room
            && (|copied| < |s.list| && |copied| < max <==> |copied| < room)
  {
    assert Holds([], Registry([], map[]));
    RunKeeps(EMPTY, run, s);
  }

  /** The limit that the last granted call on `pid` gave, if there was one. */
  function LastGranted(log: seq<Done>, pid: int): Option<Call> {
    if log == [] then None
    else
      var d := log[|log| - 1];
      if d.answer == 0 && d.call.pid == pid then Some(d.call) else LastGranted(log[..|log| - 1], pid)
  }

  lemma {:induction false} LimitsAreLastGranted(log: seq<Done>, pid: int)
    requires Answered(log)
    ensures var g := RegistryAfter(log); var last := LastGranted(log, pid);
      && (pid in g.limits <==> last.Some?)
      && (last.Some? ==> last.value.pid == pid && g.limits[pid] == last.value.limit && Legitimate(last.value))
  {
    if log != [] {
      var init, d := log[..|log| - 1], log[|log| - 1];
      assert Answered(init) by {
        forall i | 0 <= i < |init| ensures init[i].answer == Intended(RegistryAfter(init[..i]), init[i].call).0 {
          assert init[..i] == log[..i] && init[i] == log[i];
        }
      }
      LimitsAreLastGranted(init, pid);
      GrantedExactly(RegistryAfter(init), d.call);
      if d.answer == 0 {
        GrantedChanges(RegistryAfter(init), d.call);
      }
      hide Intended, Legitimate;
    }
  }

  /**
   In every interleaving, each entry of the list carries the limit of the last call granted for its pid; that call
   came from an administrator, for a process that existed and used no more. A pid without an entry was never granted one.
   */
  lemma EveryLimitWasGranted(run: seq<Event>, s: System, i: nat, pid: int)
    requires Reaches(EMPTY, run, s)
    ensures i < |s.list| ==>
      var last := LastGranted(s.log, s.list[i].pid); last.Some? && last.value.limit == s.list[i].limit && Legitimate(last.value)
    ensures (forall j :: 0 <= j < |s.list| ==> s.list[j].pid != pid) ==> LastGranted(s.log, pid).None?
  {
    EveryInterleaving(run, s);
    var g := RegistryAfter(s.log);
    if i < |s.list| {
      assert s.list[i] == At(g, i);
      LimitsAreLastGranted(s.log, s.list[i].pid);
    }
    LimitsAreLastGranted(s.log, pid);
    if pid in g.limits {
      var _ := PlaceOf(s.list, g, pid);
    }
  }

  // ---------- Limits that look negative ----------

  /**
   The manual promises -EINVAL for a negative amount of memory. The parameter is unsigned, so a negative amount
   is refused that way if and only if the pid is refused anyway.
   */
  lemma NegativeRefusedExactly(pid: int, k: int, t: Target)
    requires -TWO63 <= k < 0
    ensures Precheck(pid, U64(k), t) == -EINVAL <==> pid <= 0
  {
    assert U64(k) != 0;
  }

  /** A limit given as a negative number is at least 2^63, and is never below what a process uses. */
  lemma NegativeIsNeverExceeded(pid: int, k: int, t: Target)
    requires pid > 0 && -TWO63 <= k < 0 && t.admin && t.exists_ && t.rss.Some?
    ensures U64(k) >= TWO63 && Precheck(pid, U64(k), t) == 0
  {
    assert U64(k) == k + TWO64;
    assert UsedKb(t.rss.value) < TWO63;
  }

  /** The usage figure is right if and only if the resident size in bytes fits 64 bits. */
  lemma UsageExactly(rss: nat)
    ensures UsedKb(rss) == rss * 4 <==> rss * PAGE_SIZE < TWO64
  {
    if rss * PAGE_SIZE < TWO64 {
      assert U64(rss * PAGE_SIZE) == rss * PAGE_SIZE;
    }
  }

  /** The number of entries is stored as a 32-bit one, which is right if and only if it is below 2^31. */
  lemma CountExactly(n: nat)
    ensures S32(n) == n <==> n < TWO31
  {}
}
