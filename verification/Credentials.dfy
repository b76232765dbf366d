/**
 Credentials: the set*uid and set*gid system calls. A call copies the task's credentials, fills in the
 copy field by field and commits it, or throws it away.
 */
module Credentials {
  import opened Options

  const EPERM := 1
  const EAGAIN := 11
  const ENOMEM := 12
  const EINVAL := 22

  /** The real, effective, saved and file-system id of one family. */
  datatype Ids = Ids(rid: nat, eff: nat, saved: nat, fs: nat)

  /** `user` is the uid whose per-user accounting the credentials point to. */
  datatype Cred = Cred(u: Ids, g: Ids, user: nat)

  datatype Family = Uid | Gid

  /** An argument after translation into kernel ids: -1, not mapped in the caller's namespace, or an id. */
  datatype Arg = Keep | Unmapped | Id(id: nat)

  datatype Call =
    | SetRe(family: Family, r: Arg, e: Arg)
    | SetId(family: Family, x: Arg)
    | SetRes(family: Family, r: Arg, e: Arg, s: Arg)
    | SetFs(family: Family, x: Arg)

  /** What the surroundings decide: the capability over the family, memory, per-user accounting, the security module. */
  datatype Env = Env(cap: bool, memory: bool, userAlloc: bool, lsm: int, ucounts: int)

  function Of(c: Cred, f: Family): Ids { if f == Uid then c.u else c.g }

  function Three(i: Ids): set<nat> { {i.rid, i.eff, i.saved} }

  // ----- What each call may do and does -----

  predicate In(a: Arg, allowed: set<nat>) { a.Id? ==> a.id in allowed }

  function Or(a: Arg, current: nat): nat { if a.Id? then a.id else current }

  /** The caller may ask for these ids. */
  predicate Allowed(i: Ids, call: Call, cap: bool) {
    cap || match call
    case SetRe(_, r, e) => In(r, {i.rid, i.eff}) && In(e, Three(i))
    case SetId(_, x) => In(x, {i.rid, i.saved})
    case SetRes(_, r, e, s) => In(r, Three(i)) && In(e, Three(i)) && In(s, Three(i))
    case SetFs(_, x) => In(x, Three(i) + {i.fs})
  }

  predicate Mapped(call: Call) {
    match call
    case SetRe(_, r, e) => !r.Unmapped? && !e.Unmapped?
    case SetId(_, x) => x.Id?
    case SetRes(_, r, e, s) => !r.Unmapped? && !e.Unmapped? && !s.Unmapped?
    case SetFs(_, x) => x.Id?
  }

  /** `setresuid` and `setresgid` return early when nothing is asked for that is not so already. */
  predicate NoOp(i: Ids, call: Call) {
    match call
    case SetRes(_, r, e, s) => Or(r, i.rid) == i.rid && (e.Keep? || (e == Id(i.eff) && e == Id(i.fs))) && Or(s, i.saved) == i.saved
    case _ => false
  }

  /** The ids that an accepted call asks for. */
  function Wanted(i: Ids, call: Call, cap: bool): Ids
    requires Mapped(call)
  {
    match call
    case SetRe(_, r, e) =>
      var eff := Or(e, i.eff);
      Ids(Or(r, i.rid), eff, if r.Id? || (e.Id? && e.id != i.rid) then eff else i.saved, eff)
    case SetId(_, x) => if cap then Ids(x.id, x.id, x.id, x.id) else Ids(i.rid, x.id, i.saved, x.id)
    case SetRes(_, r, e, s) => Ids(Or(r, i.rid), Or(e, i.eff), Or(s, i.saved), Or(e, i.eff))
    case SetFs(_, x) => i.(fs := x.id)
  }

  /** Zero, or why the call changes nothing. */
  function Error(c: Cred, call: Call, env: Env): int {
    var i := Of(c, call.family);
    if !Mapped(call) then -EINVAL
    else if NoOp(i, call) then 0
    else if call.SetRes? && !Allowed(i, call, env.cap) then -EPERM
    else if !env.memory then -ENOMEM
    else if !Allowed(i, call, env.cap) then -EPERM
    else if call.family == Uid && Wanted(i, call, env.cap).rid != i.rid && !env.userAlloc then -EAGAIN
    else if env.lsm < 0 then env.lsm
    else if call.family == Uid && !call.SetFs? && env.ucounts < 0 then env.ucounts
    else 0
  }

  /** The credentials after a call. */
  function After(c: Cred, call: Call, env: Env): Cred {
    var i := Of(c, call.family);
    if Error(c, call, env) != 0 || NoOp(i, call) then c
    else
      var w := Wanted(i, call, env.cap);
      if call.family == Gid then c.(g := w) else c.(u := w, user := if w.rid != i.rid then w.rid else c.user)
  }

  // ----- Runs -----

  datatype Event = Event(call: Call, env: Env)

  function Run(c: Cred, es: seq<Event>): Cred
    decreases |es|
  {
    if es == [] then c else Run(After(c, es[0].call, es[0].env), es[1..])
  }

  predicate Unprivileged(es: seq<Event>, f: Family) {
    forall i :: 0 <= i < |es| && es[i].call.family == f ==> !es[i].env.cap
  }

  lemma StepContained(c: Cred, e: Event, f: Family, ids: set<nat>, fs: set<nat>)
    requires Three(Of(c, f)) <= ids && Of(c, f).fs in fs && ids <= fs && (e.call.family == f ==> !e.env.cap)
    ensures Three(Of(After(c, e.call, e.env), f)) <= ids && Of(After(c, e.call, e.env), f).fs in fs
  {}

  /**
   Without the capability the real, effective and saved ids never leave the three they started from, and
   the file-system id never leaves those and its own start.
   */
  lemma {:induction false} Contained(c: Cred, es: seq<Event>, f: Family, ids: set<nat>, fs: set<nat>)
    requires Three(Of(c, f)) <= ids && Of(c, f).fs in fs && ids <= fs && Unprivileged(es, f)
    ensures Three(Of(Run(c, es), f)) <= ids && Of(Run(c, es), f).fs in fs
    decreases |es|
  {
    if es != [] {
      StepContained(c, es[0], f, ids, fs);
      Contained(After(c, es[0].call, es[0].env), es[1..], f, ids, fs);
    }
  }

  /** The surroundings put nothing in the way, and give no capability either. */
  const UNPRIVILEGED := Env(false, true, true, 0, 0)

  /** The containment is exact: each combination of the three ids can be had, in one call. */
  lemma ReachableExactly(c: Cred, f: Family, r: nat, e: nat, s: nat)
    ensures (exists es :: Unprivileged(es, f) && var i := Of(Run(c, es), f); i.rid == r && i.eff == e && i.saved == s)
       <==> r in Three(Of(c, f)) && e in Three(Of(c, f)) && s in Three(Of(c, f))
  {
    var i := Of(c, f);
    if exists es :: Unprivileged(es, f) && var i := Of(Run(c, es), f); i.rid == r && i.eff == e && i.saved == s {
      var es :| Unprivileged(es, f) && var i := Of(Run(c, es), f); i.rid == r && i.eff == e && i.saved == s;
      Contained(c, es, f, Three(i), Three(i) + {i.fs});
    }
    if r in Three(i) && e in Three(i) && s in Three(i) {
      var es := [Event(SetRes(f, Id(r), Id(e), Id(s)), UNPRIVILEGED)];
      assert Run(After(c, es[0].call, es[0].env), es[1..]) == After(c, es[0].call, es[0].env);
      assert Unprivileged(es, f);
    }
  }

  /** A task that set its id with the capability and then lost it can never have another id again. */
  lemma DroppedForGood(c: Cred, f: Family, x: nat, env: Env, es: seq<Event>)
    requires env.cap && Error(c, SetId(f, Id(x)), env) == 0 && Unprivileged(es, f)
    ensures Of(Run(After(c, SetId(f, Id(x)), env), es), f) == Ids(x, x, x, x)
  {
    Contained(After(c, SetId(f, Id(x)), env), es, f, {x}, {x});
  }

  /** The same for `setreuid` with both ids and `setresuid` with all three, whoever was let to make the call. */
  lemma ReplacedForGood(c: Cred, f: Family, x: nat, call: Call, env: Env, es: seq<Event>)
    requires call == SetRe(f, Id(x), Id(x)) || call == SetRes(f, Id(x), Id(x), Id(x))
    requires Error(c, call, env) == 0 && Unprivileged(es, f)
    ensures Of(Run(After(c, call, env), es), f) == Ids(x, x, x, x)
  {
    Contained(After(c, call, env), es, f, {x}, {x});
  }

  /** `setreuid` moves the saved id exactly when a real id is given, or an effective one other than the old real id. */
  lemma SavedMoves(c: Cred, f: Family, r: Arg, e: Arg, env: Env)
    requires Error(c, SetRe(f, r, e), env) == 0
    ensures var was, now := Of(c, f), Of(After(c, SetRe(f, r, e), env), f);
      && (r != Keep || (e != Keep && e != Id(was.rid)) ==> now.saved == now.eff)
      && (r == Keep && (e == Keep || e == Id(was.rid)) ==> now.saved == was.saved)
  {}

  /** An effective id that is also the saved one can be put away for the real one and taken back. */
  lemma PutAwayAndTakenBack(c: Cred, f: Family)
    requires Of(c, f).eff == Of(c, f).saved
    ensures var was := Of(c, f);
      var away := After(c, SetRe(f, Keep, Id(was.rid)), UNPRIVILEGED);
      var back := After(away, SetRe(f, Keep, Id(was.eff)), UNPRIVILEGED);
      && Of(away, f) == Ids(was.rid, was.rid, was.saved, was.rid)
      && Of(back, f).rid == was.rid && Of(back, f).eff == was.eff && Of(back, f).saved == was.saved
    ensures var was := Of(c, f);
      var away := After(c, SetId(f, Id(was.rid)), UNPRIVILEGED);
      Of(After(away, SetId(f, Id(was.eff)), UNPRIVILEGED), f) == Ids(was.rid, was.eff, was.saved, was.eff)
  {}

  /** What an accepted call leaves: the ids that were given, where they were given, and the others as they were. */
  lemma GivenIdsAreSet(c: Cred, call: Call, env: Env)
    requires Error(c, call, env) == 0
    ensures var was, now := Of(c, call.family), Of(After(c, call, env), call.family);
      match call
      case SetRe(_, r, e) =>
        && (r.Id? ==> now.rid == r.id) && (r.Keep? ==> now.rid == was.rid)
        && (e.Id? ==> now.eff == e.id) && (e.Keep? ==> now.eff == was.eff) && now.fs == now.eff
      case SetId(_, x) => x.Id? && now.eff == now.fs == x.id && (if env.cap then now.rid == now.saved == x.id else now.rid == was.rid && now.saved == was.saved)
      case SetRes(_, r, e, s) =>
        && (r.Id? ==> now.rid == r.id) && (r.Keep? ==> now.rid == was.rid) && (e.Id? ==> now.eff == e.id) && (e.Keep? ==> now.eff == was.eff)
        && (s.Id? ==> now.saved == s.id) && (s.Keep? ==> now.saved == was.saved) && (e.Id? ==> now.fs == e.id)
        && ((now.rid, now.eff, now.saved) != (was.rid, was.eff, was.saved) ==> now.fs == now.eff)
      case SetFs(_, x) => x.Id? && now.fs == x.id && (now.rid, now.eff, now.saved) == (was.rid, was.eff, was.saved)
  {}

  /** Asking `setresuid` for what is so already always succeeds, needs nothing and leaves the file-system id alone. */
  lemma NothingAsked(c: Cred, f: Family, r: Arg, s: Arg, env: Env)
    requires r in {Keep, Id(Of(c, f).rid)} && s in {Keep, Id(Of(c, f).saved)}
    ensures Error(c, SetRes(f, r, Keep, s), env) == 0 && After(c, SetRes(f, r, Keep, s), env) == c
  {}

  /** Nothing stands in the way but, perhaps, the missing capability. */
  predicate Undisturbed(env: Env) { env.memory && env.userAlloc && env.lsm == 0 && env.ucounts == 0 }

  predicate OneOf(a: Arg, ids: seq<nat>) { a == Keep || exists i :: 0 <= i < |ids| && a == Id(ids[i]) }

  /** Which ids a call may name: any with the capability, and without it those POSIX lists for each call. */
  lemma PermittedExactly(c: Cred, call: Call, env: Env)
    requires Undisturbed(env)
    ensures var i := Of(c, call.family); Error(c, call, env) == 0 <==>
      match call
      case SetRe(_, r, e) => if env.cap then r != Unmapped && e != Unmapped else OneOf(r, [i.rid, i.eff]) && OneOf(e, [i.rid, i.eff, i.saved])
      case SetId(_, x) => if env.cap then x.Id? else x != Keep && OneOf(x, [i.rid, i.saved])
      case SetRes(_, r, e, s) =>
        if env.cap then r != Unmapped && e != Unmapped && s != Unmapped
        else OneOf(r, [i.rid, i.eff, i.saved]) && OneOf(e, [i.rid, i.eff, i.saved]) && OneOf(s, [i.rid, i.eff, i.saved])
      case SetFs(_, x) => if env.cap then x.Id? else x != Keep && OneOf(x, [i.rid, i.eff, i.saved, i.fs])
  {
    var i := Of(c, call.family);
    match call
    case SetRe(_, r, e) => OneOfTwo(r, i.rid, i.eff); OneOfThree(e, i.rid, i.eff, i.saved);
    case SetId(_, x) => OneOfTwo(x, i.rid, i.saved);
    case SetRes(_, r, e, s) =>
      OneOfThree(r, i.rid, i.eff, i.saved);
      OneOfThree(e, i.rid, i.eff, i.saved);
      OneOfThree(s, i.rid, i.eff, i.saved);
    case SetFs(_, x) => OneOfFour(x, i.rid, i.eff, i.saved, i.fs);
  }

  lemma OneOfTwo(x: Arg, a: nat, b: nat)
    ensures OneOf(x, [a, b]) <==> x == Keep || x == Id(a) || x == Id(b)
  {
    assert [a, b][0] == a && [a, b][1] == b;
  }

  lemma OneOfThree(x: Arg, a: nat, b: nat, d: nat)
    ensures OneOf(x, [a, b, d]) <==> x == Keep || x == Id(a) || x == Id(b) || x == Id(d)
  {
    assert [a, b, d][0] == a && [a, b, d][1] == b && [a, b, d][2] == d;
  }

  lemma OneOfFour(x: Arg, a: nat, b: nat, d: nat, e: nat)
    ensures OneOf(x, [a, b, d, e]) <==> x == Keep || x == Id(a) || x == Id(b) || x == Id(d) || x == Id(e)
  {
    assert [a, b, d, e][0] == a && [a, b, d, e][1] == b && [a, b, d, e][2] == d && [a, b, d, e][3] == e;
  }

  /**
   What each error is for. An id that is not mapped comes first and a missing permission before anything the
   security module or the accounting has to say; whatever the error, nothing changes.
   */
  lemma ErrorsMean(c: Cred, call: Call, env: Env)
    requires env.lsm <= 0 && env.ucounts <= 0
    ensures Error(c, call, env) <= 0 && (Error(c, call, env) != 0 ==> After(c, call, env) == c)
    ensures Unmapped in Args(call) ==> Error(c, call, env) == -EINVAL
    ensures Error(c, call, env.(memory := true, userAlloc := true, lsm := 0, ucounts := 0)) == -EPERM && env.memory ==> Error(c, call, env) == -EPERM
    ensures !env.memory && Error(c, call, env) == 0 ==> After(c, call, env) == c && call.SetRes?
    ensures env.lsm != 0 && Error(c, call, env) == 0 ==> After(c, call, env) == c && call.SetRes?
    ensures env.ucounts != 0 && Error(c, call, env) == 0 && After(c, call, env) != c ==> call.family == Gid || call.SetFs?
    ensures !env.userAlloc && Error(c, call, env) == 0 && call.family == Uid ==> After(c, call, env).u.rid == c.u.rid
    ensures Error(c, call, env) == -EAGAIN && env.lsm == env.ucounts == 0 ==>
      call.family == Uid && !env.userAlloc && After(c, call, env.(userAlloc := true)).u.rid != c.u.rid
  {}

  function Args(call: Call): set<Arg> {
    match call
    case SetRe(_, r, e) => {r, e}
    case SetId(_, x) => {x}
    case SetRes(_, r, e, s) => {r, e, s}
    case SetFs(_, x) => {x}
  }

  /** Swapping the real and the effective id, and swapping back, is always possible and restores both. */
  lemma SwapRegains(c: Cred, f: Family)
    ensures var swap := (d: Cred) => After(d, SetRe(f, Id(Of(d, f).eff), Id(Of(d, f).rid)), UNPRIVILEGED);
      && Of(swap(c), f).rid == Of(c, f).eff && Of(swap(c), f).eff == Of(c, f).rid
      && Of(swap(swap(c)), f).rid == Of(c, f).rid && Of(swap(swap(c)), f).eff == Of(c, f).eff
  {}

  /** Whatever the privileges, the per-user accounting is that of the real uid in every committed state. */
  lemma {:induction false} UserMatches(c: Cred, es: seq<Event>)
    requires c.user == c.u.rid
    ensures Run(c, es).user == Run(c, es).u.rid
    decreases |es|
  {
    if es != [] {
      UserMatches(After(c, es[0].call, es[0].env), es[1..]);
    }
  }

  /** The file-system id shadows the effective one until it is set on its own. */
  lemma {:induction false} ShadowsUntilSet(c: Cred, es: seq<Event>, f: Family)
    requires Of(c, f).fs == Of(c, f).eff && forall i :: 0 <= i < |es| && es[i].call.family == f ==> !es[i].call.SetFs?
    ensures Of(Run(c, es), f).fs == Of(Run(c, es), f).eff
    decreases |es|
  {
    if es != [] {
      ShadowsUntilSet(After(c, es[0].call, es[0].env), es[1..], f);
    }
  }

  /** Calls of one family never touch the other. */
  lemma {:induction false} FamiliesApart(c: Cred, es: seq<Event>, f: Family)
    requires forall i :: 0 <= i < |es| ==> es[i].call.family != f
    ensures Of(Run(c, es), f) == Of(c, f) && (f == Uid ==> Run(c, es).user == c.user)
    decreases |es|
  {
    if es != [] {
      FamiliesApart(After(c, es[0].call, es[0].env), es[1..], f);
    }
  }

  // ----- The code -----

  /** `make_kuid`/`make_kgid` of an argument that may be -1. */
  const MINUS_ONE := 0xFFFF_FFFF

  function Translate(ns: nat -> Option<nat>, x: nat): Arg {
    if x == MINUS_ONE then Keep else if ns(x).None? then Unmapped else Id(ns(x).value)
  }

  class Task {
    var cred: Cred

    /** `__sys_setreuid`. */
    method SetReUid(ns: nat -> Option<nat>, ruid: nat, euid: nat, env: Env) returns (retval: int)
      requires env.lsm <= 0 && env.ucounts <= 0
      modifies this
      ensures retval == Error(old(cred), SetRe(Uid, Translate(ns, ruid), Translate(ns, euid)), env)
      ensures cred == After(old(cred), SetRe(Uid, Translate(ns, ruid), Translate(ns, euid)), env)
      ensures (ruid != MINUS_ONE && ns(ruid).None?) || (euid != MINUS_ONE && ns(euid).None?) ==> retval == -EINVAL && cred == old(cred)
    {
      var kruid, keuid := Translate(ns, ruid), Translate(ns, euid);
      if kruid.Unmapped? || keuid.Unmapped? {
        return -EINVAL;
      }
      if !env.memory {
        return -ENOMEM;
      }
      var was, next := cred.u, cred;
      if kruid.Id? {
        next := next.(u := next.u.(rid := kruid.id));
        if was.rid != kruid.id && was.eff != kruid.id && !env.cap {
          return -EPERM;
        }
      }
      if keuid.Id? {
        next := next.(u := next.u.(eff := keuid.id));
        if was.rid != keuid.id && was.eff != keuid.id && was.saved != keuid.id && !env.cap {
          return -EPERM;
        }
      }
      if next.u.rid != was.rid {
        if !env.userAlloc {
          return -EAGAIN;
        }
        next := next.(user := next.u.rid);
      }
      if kruid.Id? || (keuid.Id? && keuid.id != was.rid) {
        next := next.(u := next.u.(saved := next.u.eff));
      }
      next := next.(u := next.u.(fs := next.u.eff));
      if env.lsm < 0 {
        return env.lsm;
      }
      if env.ucounts < 0 {
        return env.ucounts;
      }
      cred := next;
      return 0;
    }

    /** `__sys_setuid`. */
    method SetUid(ns: nat -> Option<nat>, uid: nat, env: Env) returns (retval: int)
      requires env.lsm <= 0 && env.ucounts <= 0 && ns(MINUS_ONE).None?
      modifies this
      ensures retval == Error(old(cred), SetId(Uid, Translate(ns, uid)), env)
      ensures cred == After(old(cred), SetId(Uid, Translate(ns, uid)), env)
    {
      var kuid := ns(uid);
      if kuid.None? {
        return -EINVAL;
      }
      if !env.memory {
        return -ENOMEM;
      }
      var was, next := cred.u, cred;
      if env.cap {
        next := next.(u := next.u.(saved := kuid.value, rid := kuid.value));
        if kuid.value != was.rid {
          if !env.userAlloc {
            return -EAGAIN;
          }
          next := next.(user := next.u.rid);
        }
      } else if kuid.value != was.rid && kuid.value != next.u.saved {
        return -EPERM;
      }
      next := next.(u := next.u.(fs := kuid.value, eff := kuid.value));
      if env.lsm < 0 {
        return env.lsm;
      }
      if env.ucounts < 0 {
        return env.ucounts;
      }
      cred := next;
      return 0;
    }

    /** Fills in new credentials for `__sys_setresuid`; a new real uid needs its accounting user. */
    method FillRes(kr: Arg, ke: Arg, ks: Arg, env: Env) returns (ok: bool, next: Cred)
      requires !kr.Unmapped? && !ke.Unmapped? && !ks.Unmapped?
      ensures ok <==> Or(kr, cred.u.rid) == cred.u.rid || env.userAlloc
      ensures ok ==> next.g == cred.g && next.user == if Or(kr, cred.u.rid) != cred.u.rid then Or(kr, cred.u.rid) else cred.user
      ensures ok ==> next.u == Ids(Or(kr, cred.u.rid), Or(ke, cred.u.eff), Or(ks, cred.u.saved), Or(ke, cred.u.eff))
    {
      next := cred;
      if kr.Id? {
        next := next.(u := next.u.(rid := kr.id));
        if kr.id != cred.u.rid {
          if !env.userAlloc {
            return false, next;
          }
          next := next.(user := next.u.rid);
        }
      }
      if ke.Id? {
        next := next.(u := next.u.(eff := ke.id));
      }
      if ks.Id? {
        next := next.(u := next.u.(saved := ks.id));
      }
      next := next.(u := next.u.(fs := next.u.eff));
      ok := true;
    }

    /** `__sys_setresuid`. */
    method SetResUid(ns: nat -> Option<nat>, ruid: nat, euid: nat, suid: nat, env: Env) returns (retval: int)
      requires env.lsm <= 0 && env.ucounts <= 0
      modifies this
      ensures retval == Error(old(cred), SetRes(Uid, Translate(ns, ruid), Translate(ns, euid), Translate(ns, suid)), env)
      ensures cred == After(old(cred), SetRes(Uid, Translate(ns, ruid), Translate(ns, euid), Translate(ns, suid)), env)
      ensures (exists id :: id in {ruid, euid, suid} && id != MINUS_ONE && ns(id).None?) ==> retval == -EINVAL && cred == old(cred)
      ensures ruid == euid == suid == MINUS_ONE ==> retval == 0 && cred == old(cred)
    {
      var kr, ke, ks := Translate(ns, ruid), Translate(ns, euid), Translate(ns, suid);
      if kr.Unmapped? || ke.Unmapped? || ks.Unmapped? {
        return -EINVAL;
      }
      var was := cred.u;
      if (kr.Keep? || kr.id == was.rid) && (ke.Keep? || (ke.id == was.eff && ke.id == was.fs)) && (ks.Keep? || ks.id == was.saved) {
        return 0;
      }
      var rNew := kr.Id? && kr.id != was.rid && kr.id != was.eff && kr.id != was.saved;
      var eNew := ke.Id? && ke.id != was.rid && ke.id != was.eff && ke.id != was.saved;
      var sNew := ks.Id? && ks.id != was.rid && ks.id != was.eff && ks.id != was.saved;
      if (rNew || eNew || sNew) && !env.cap {
        return -EPERM;
      }
      if !env.memory {
        return -ENOMEM;
      }
      var ok, next := FillRes(kr, ke, ks, env);
      if !ok {
        return -EAGAIN;
      }
      if env.lsm < 0 {
        return env.lsm;
      }
      if env.ucounts < 0 {
        return env.ucounts;
      }
      cred := next;
      return 0;
    }

    /** `__sys_setfsuid`: the previous id, whether it changed or not. */
    method SetFsUid(ns: nat -> Option<nat>, uid: nat, env: Env) returns (previous: nat)
      requires env.lsm <= 0 && ns(MINUS_ONE).None?
      modifies this
      ensures previous == old(cred.u.fs)
      ensures cred == After(old(cred), SetFs(Uid, Translate(ns, uid)), env)
    {
      previous := cred.u.fs;
      var kuid := ns(uid);
      if kuid.None? || !env.memory {
        return;
      }
      var was := cred.u;
      if kuid.value == was.rid || kuid.value == was.eff || kuid.value == was.saved || kuid.value == was.fs || env.cap {
        if kuid.value != was.fs && env.lsm == 0 {
          cred := cred.(u := was.(fs := kuid.value));
        }
      }
    }

    /** `__sys_setregid`. */
    method SetReGid(ns: nat -> Option<nat>, rgid: nat, egid: nat, env: Env) returns (retval: int)
      requires env.lsm <= 0
      modifies this
      ensures retval == Error(old(cred), SetRe(Gid, Translate(ns, rgid), Translate(ns, egid)), env)
      ensures cred == After(old(cred), SetRe(Gid, Translate(ns, rgid), Translate(ns, egid)), env)
      ensures (rgid != MINUS_ONE && ns(rgid).None?) || (egid != MINUS_ONE && ns(egid).None?) ==> retval == -EINVAL && cred == old(cred)
    {
      var kr, ke := Translate(ns, rgid), Translate(ns, egid);
      if kr.Unmapped? || ke.Unmapped? {
        return -EINVAL;
      }
      if !env.memory {
        return -ENOMEM;
      }
      var was, next := cred.g, cred;
      if kr.Id? {
        if was.rid == kr.id || was.eff == kr.id || env.cap {
          next := next.(g := next.g.(rid := kr.id));
        } else {
          return -EPERM;
        }
      }
      if ke.Id? {
        if was.rid == ke.id || was.eff == ke.id || was.saved == ke.id || env.cap {
          next := next.(g := next.g.(eff := ke.id));
        } else {
          return -EPERM;
        }
      }
      if kr.Id? || (ke.Id? && ke.id != was.rid) {
        next := next.(g := next.g.(saved := next.g.eff));
      }
      next := next.(g := next.g.(fs := next.g.eff));
      if env.lsm < 0 {
        return env.lsm;
      }
      cred := next;
      return 0;
    }

    /** `__sys_setgid`. */
    method SetGid(ns: nat -> Option<nat>, gid: nat, env: Env) returns (retval: int)
      requires env.lsm <= 0 && ns(MINUS_ONE).None?
      modifies this
      ensures retval == Error(old(cred), SetId(Gid, Translate(ns, gid)), env)
      ensures cred == After(old(cred), SetId(Gid, Translate(ns, gid)), env)
    {
      var kgid := ns(gid);
      if kgid.None? {
        return -EINVAL;
      }
      if !env.memory {
        return -ENOMEM;
      }
      var was, next := cred.g, cred;
      if env.cap {
        next := next.(g := Ids(kgid.value, kgid.value, kgid.value, kgid.value));
      } else if kgid.value == was.rid || kgid.value == was.saved {
        next := next.(g := next.g.(eff := kgid.value, fs := kgid.value));
      } else {
        return -EPERM;
      }
      if env.lsm < 0 {
        return env.lsm;
      }
      cred := next;
      return 0;
    }

    /** `__sys_setresgid`. */
    method SetResGid(ns: nat -> Option<nat>, rgid: nat, egid: nat, sgid: nat, env: Env) returns (retval: int)
      requires env.lsm <= 0
      modifies this
      ensures retval == Error(old(cred), SetRes(Gid, Translate(ns, rgid), Translate(ns, egid), Translate(ns, sgid)), env)
      ensures cred == After(old(cred), SetRes(Gid, Translate(ns, rgid), Translate(ns, egid), Translate(ns, sgid)), env)
      ensures (exists id :: id in {rgid, egid, sgid} && id != MINUS_ONE && ns(id).None?) ==> retval == -EINVAL && cred == old(cred)
      ensures rgid == egid == sgid == MINUS_ONE ==> retval == 0 && cred == old(cred)
    {
      var kr, ke, ks := Translate(ns, rgid), Translate(ns, egid), Translate(ns, sgid);
      if kr.Unmapped? || ke.Unmapped? || ks.Unmapped? {
        return -EINVAL;
      }
      var was := cred.g;
      if (kr.Keep? || kr.id == was.rid) && (ke.Keep? || (ke.id == was.eff && ke.id == was.fs)) && (ks.Keep? || ks.id == was.saved) {
        return 0;
      }
      var rNew := kr.Id? && kr.id != was.rid && kr.id != was.eff && kr.id != was.saved;
      var eNew := ke.Id? && ke.id != was.rid && ke.id != was.eff && ke.id != was.saved;
      var sNew := ks.Id? && ks.id != was.rid && ks.id != was.eff && ks.id != was.saved;
      if (rNew || eNew || sNew) && !env.cap {
        return -EPERM;
      }
      if !env.memory {
        return -ENOMEM;
      }
      var next := cred.g;
      if kr.Id? {
        next := next.(rid := kr.id);
      }
      if ke.Id? {
        next := next.(eff := ke.id);
      }
      if ks.Id? {
        next := next.(saved := ks.id);
      }
      next := next.(fs := next.eff);
      if env.lsm < 0 {
        return env.lsm;
      }
      cred := cred.(g := next);
      return 0;
    }

    /** `__sys_setfsgid`. */
    method SetFsGid(ns: nat -> Option<nat>, gid: nat, env: Env) returns (previous: nat)
      requires env.lsm <= 0 && ns(MINUS_ONE).None?
      modifies this
      ensures previous == old(cred.g.fs)
      ensures cred == After(old(cred), SetFs(Gid, Translate(ns, gid)), env)
    {
      previous := cred.g.fs;
      var kgid := ns(gid);
      if kgid.None? || !env.memory {
        return;
      }
      var was := cred.g;
      if kgid.value == was.rid || kgid.value == was.eff || kgid.value == was.saved || kgid.value == was.fs || env.cap {
        if kgid.value != was.fs && env.lsm == 0 {
          cred := cred.(g := was.(fs := kgid.value));
        }
      }
    }
  }
}
