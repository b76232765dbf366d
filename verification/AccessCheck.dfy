/**
 `access()`: file permissions are checked with the real ids. The code builds credentials for that, or skips
 it when a fast check says that the caller's own would do.
 */
module AccessCheck {
  import opened Options

  const ENOMEM := 12

  /** `root` is what uid 0 of the caller's namespace maps to; -1 when it is not mapped. */
  datatype Cred = Cred(uid: int, fsuid: int, gid: int, fsgid: int, effective: set<nat>, permitted: set<nat>, root: int)

  /** Credentials as the permission check wants them: real ids, and the capabilities that go with the real uid. */
  function RealView(c: Cred, noFixup: bool): Cred {
    c.(fsuid := c.uid, fsgid := c.gid,
       effective := if noFixup then c.effective else if c.uid == c.root then c.permitted else {})
  }

  /** `access_need_override_creds`. */
  predicate NeedOverride(c: Cred, eaccess: bool, noFixup: bool) {
    if eaccess then false
    else if c.fsuid != c.uid || c.fsgid != c.gid then true
    else if !noFixup then
      if c.uid != c.root then c.effective != {} else c.effective != c.permitted
    else false
  }

  /** The fast check is exact: credentials are built if and only if they would differ from those the caller has. */
  lemma SkipsExactly(c: Cred, noFixup: bool)
    ensures NeedOverride(c, false, noFixup) <==> RealView(c, noFixup) != c
  {}

  /** The view depends on who the caller really is and nothing else: not on the ids it acts under, nor on the capabilities it has in effect. */
  lemma AnswersForTheRealUser(c: Cred, d: Cred, noFixup: bool)
    requires c.uid == d.uid && c.gid == d.gid && c.permitted == d.permitted && c.root == d.root && (noFixup ==> c.effective == d.effective)
    ensures RealView(c, noFixup) == RealView(d, noFixup)
    ensures RealView(c, noFixup).fsuid == c.uid && RealView(c, noFixup).fsgid == c.gid
    ensures !noFixup && c.uid != c.root ==> RealView(c, noFixup).effective == {}
    ensures !noFixup && c.uid == c.root ==> RealView(c, noFixup).effective == c.permitted
    ensures noFixup ==> RealView(c, noFixup).effective == c.effective
  {}

  class Task {
    var cred: Cred

    /** `access_override_creds`: the previous credentials, or none when there was no memory for new ones. */
    method Override(noFixup: bool, memory: bool) returns (previous: Option<Cred>)
      modifies this
      ensures previous == if memory then Some(old(cred)) else None
      ensures cred == if memory then RealView(old(cred), noFixup) else old(cred)
    {
      if !memory {
        return None;
      }
      var new_ := cred;
      new_ := new_.(fsuid := new_.uid);
      new_ := new_.(fsgid := new_.gid);
      if !noFixup {
        if new_.uid != new_.root {
          new_ := new_.(effective := {});
        } else {
          new_ := new_.(effective := new_.permitted);
        }
      }
      previous, cred := Some(cred), new_;
    }

    /**
     The frame of `do_faccessat`. `check` stands for the path walk and permission check under given
     credentials. It always runs under the real view unless the caller asked otherwise, and the caller's
     credentials are back afterwards.
     */
    method Faccessat(eaccess: bool, noFixup: bool, memory: bool, check: Cred -> int) returns (r: int)
      modifies this
      ensures cred == old(cred)
      ensures eaccess ==> r == check(old(cred))
      ensures !eaccess && (memory || RealView(old(cred), noFixup) == old(cred)) ==> r == check(RealView(old(cred), noFixup))
      ensures !eaccess && !memory && RealView(old(cred), noFixup) != old(cred) ==> r == -ENOMEM
    {
      SkipsExactly(cred, noFixup);
      var previous := None;
      if NeedOverride(cred, eaccess, noFixup) {
        previous := Override(noFixup, memory);
        if previous.None? {
          return -ENOMEM;
        }
      }
      r := check(cred);
      if previous.Some? {
        cred := previous.value;
      }
    }
  }
}
