/**
 The boot command line handed to init: two fixed tables of strings, filled by scanning for the first free slot,
 and a latch that stops the boot later when one of them overflows.
 */
module BootArgs {
  import opened Options

  // ---------- C strings ----------

  predicate Terminated(b: seq<char>, i: nat) { exists j :: i <= j < |b| && b[j] == '\0' }

  /** The characters from `i` up to the first NUL. */
  function CString(b: seq<char>, i: nat): (r: string)
    ensures i + |r| <= |b| || |r| == 0
    ensures forall k :: 0 <= k < |r| ==> r[k] == b[i + k] && r[k] != '\0'
    ensures Terminated(b, i) ==> i + |r| < |b| && b[i + |r|] == '\0'
    decreases |b| - i
  {
    if i >= |b| || b[i] == '\0' then [] else [b[i]] + CString(b, i + 1)
  }

  /** A string is known by its characters and the NUL after them. */
  lemma {:induction false} CStringIs(b: seq<char>, i: nat, r: string)
    requires i + |r| < |b| && b[i + |r|] == '\0'
    requires forall k :: 0 <= k < |r| ==> b[i + k] == r[k] != '\0'
    ensures CString(b, i) == r
    decreases |r|
  {
    if r != [] {
      assert b[i + 0] == r[0];
      assert forall k :: 0 <= k < |r| - 1 ==> b[i + 1 + k] == b[i + (k + 1)] == r[1..][k];
      CStringIs(b, i + 1, r[1..]);
    }
  }

  method StrLen(b: array<char>, i: nat) returns (n: nat)
    requires Terminated(b[..], i)
    ensures n == |CString(b[..], i)|
  {
    ghost var r := CString(b[..], i);
    n := 0;
    while b[i + n] != '\0'
      invariant n <= |r| && (n < |r| ==> b[i + n] == r[n] != '\0')
      decreases |r| - n
    {
      n := n + 1;
    }
  }

  /** `memmove` by one place down. */
  method MoveDown(b: array<char>, from: nat, count: nat)
    requires 0 < from && from + count <= b.Length
    modifies b
    ensures b[from - 1..from - 1 + count] == old(b[from..from + count])
    ensures b[..from - 1] == old(b[..from - 1])
  {
    ghost var before := b[..];
    for i := 0 to count
      invariant b[from - 1..from - 1 + i] == before[from..from + i]
      invariant b[from - 1 + i..] == before[from - 1 + i..]
      invariant b[..from - 1] == before[..from - 1]
    {
      assert b[from + i] == b[from - 1 + i..][1] == before[from - 1 + i..][1] == before[from + i];
      b[from - 1 + i] := b[from + i];
      assert before[from..from + i + 1] == before[from..from + i] + [before[from + i]];
    }
  }

  /** A name, an equals sign and a value with its NUL, side by side, read as one string. */
  lemma JoinedIs(b: seq<char>, i: nat, name: string, value: string)
    requires i + |name| + 1 + |value| < |b|
    requires b[i..i + |name|] == name && '\0' !in name
    requires b[i + |name|] == '='
    requires b[i + |name| + 1..i + |name| + 1 + |value|] == value && '\0' !in value
    requires b[i + |name| + 1 + |value|] == '\0'
    ensures CString(b, i) == name + "=" + value
  {
    var r := name + "=" + value;
    forall k | 0 <= k < |r|
      ensures b[i + k] == r[k] != '\0'
    {
      if k < |name| {
        assert r[k] == name[k];
      } else if k > |name| {
        assert r[k] == value[k - |name| - 1];
      }
    }
    CStringIs(b, i, r);
  }

  lemma CStringSlice(b: seq<char>, i: nat)
    requires Terminated(b, i)
    ensures var n := |CString(b, i)|; i + n < |b| && b[i..i + n + 1] == CString(b, i) + ['\0'] && '\0' !in CString(b, i)
  {}

  /**
   `repair_env_string`: a parameter and its value, cut apart by the parser, become one string again. A quoted
   value starts one place later, after the quote, and is moved down over it.
   */
  method RepairEnvString(b: array<char>, param: nat, val: nat)
    requires Terminated(b[..], param) && Terminated(b[..], val)
    requires val == param + |CString(b[..], param)| + 1 || val == param + |CString(b[..], param)| + 2
    modifies b
    ensures CString(b[..], param) == old(CString(b[..], param)) + "=" + old(CString(b[..], val))
  {
    hide CString, Terminated;
    ghost var before := b[..];
    ghost var name, value := CString(before, param), CString(before, val);
    CStringSlice(before, param);
    CStringSlice(before, val);
    var n := StrLen(b, param);
    if val == param + n + 1 {
      b[val - 1] := '=';
      assert b[..] == before[..val - 1] + ['='] + before[val..];
      Rejoined(before, b[..], param, val, val, name, value);
    } else {
      var m := StrLen(b, val);
      b[val - 2] := '=';
      assert b[val..val + m + 1] == before[val..val + m + 1];
      assert b[..val - 1] == before[..val - 2] + ['='];
      MoveDown(b, val, m + 1);
      Rejoined(before, b[..], param, val, val - 1, name, value);
    }
  }

  /** `at` is where the value stands in the end. */
  lemma Rejoined(before: seq<char>, after: seq<char>, param: nat, val: nat, at: nat, name: string, value: string)
    requires param + |name| < |before| && before[param..param + |name| + 1] == name + ['\0'] && '\0' !in name
    requires val + |value| < |before| && before[val..val + |value| + 1] == value + ['\0'] && '\0' !in value
    requires |after| == |before| && at == param + |name| + 1 && at <= val
    requires after[..at] == before[..at - 1] + ['='] && after[at..at + |value| + 1] == before[val..val + |value| + 1]
    ensures CString(after, param) == name + "=" + value
  {
    assert after[param + |name|] == after[..at][at - 1] == '=';
    forall k | 0 <= k < |name| ensures after[param + k] == name[k] {
      assert after[param + k] == after[..at][param + k] == before[param + k] == before[param..param + |name| + 1][k] == name[k];
    }
    assert after[param..param + |name|] == name;
    assert after[at..at + |value|] == after[at..at + |value| + 1][..|value|] == value;
    assert after[at + |value|] == after[at..at + |value| + 1][|value|] == '\0';
    JoinedIs(after, param, name, value);
  }

  // ---------- The tables ----------

  type Slot = Option<string>

  /** `argv` and `envp` have two slots more than the limit. `panic` is the latch. */
  datatype Tables = Tables(argv: seq<Slot>, envp: seq<Slot>, panic: bool)

  /** What a parameter turns out to be when it is looked up as an old-style one. */
  datatype Setup = Unhandled | Handled | InitCommand

  /** `value` is what follows the `=`; `alias` says that the name stands for a sysctl. */
  datatype Param =
    | Unknown(name: string, value: Option<string>, alias: bool, setup: Setup)
    | AfterDashes(name: string, value: Option<string>)

  function Whole(p: Param): string {
    if p.value.Some? then p.name + "=" + p.value.value else p.name
  }

  predicate Named(p: Param) { '=' !in p.name }

  /** The limit of both tables. */
  function Max(t: Tables): int { |t.argv| - 2 }

  /** The last slot of each table is free as long as the latch is open, which keeps every scan inside. */
  predicate Bounded(t: Tables) {
    && |t.argv| == |t.envp| >= 3
    && (!t.panic ==> t.argv[|t.argv| - 1].None? && t.envp[|t.envp| - 1].None?)
  }

  /** Where a scan from the start ends: at the first free slot, or one that begins with `key`. */
  function Stop(s: seq<Slot>, key: Option<string>): (i: nat)
    requires |s| > 0 && s[|s| - 1].None?
    ensures i < |s| && Stops(s[i], key)
    ensures forall j :: 0 <= j < i ==> !Stops(s[j], key)
  {
    if Stops(s[0], key) then 0 else 1 + Stop(s[1..], key)
  }

  predicate Stops(slot: Slot, key: Option<string>) {
    slot.None? || (key.Some? && key.value <= slot.value)
  }

  lemma {:induction false} StopIs(s: seq<Slot>, key: Option<string>, i: nat)
    requires |s| > 0 && s[|s| - 1].None? && i < |s| && Stops(s[i], key)
    requires forall j :: 0 <= j < i ==> !Stops(s[j], key)
    ensures Stop(s, key) == i
  {
    if i > 0 {
      assert !Stops(s[0], key);
      StopIs(s[1..], key, i - 1);
    }
  }

  function Clear(argv: seq<Slot>): seq<Slot>
    requires |argv| >= 3
  {
    seq(|argv|, i requires 0 <= i < |argv| => if 1 <= i < |argv| - 2 then None else argv[i])
  }

  /** An argument. Past the limit the latch is set; only an unknown option is stored even then. */
  function PutArg(t: Tables, s: string, store: bool): Tables
    requires Bounded(t) && !t.panic
  {
    var i := Stop(t.argv, None);
    var over := i > Max(t);
    Tables(if over && !store then t.argv else t.argv[i := Some(s)], t.envp, over)
  }

  /** An environment string: it replaces one with the same name. */
  function PutEnv(t: Tables, name: string, s: string): Tables
    requires Bounded(t) && !t.panic
  {
    var i := Stop(t.envp, Some(name + "="));
    t.(envp := t.envp[i := Some(s)], panic := i >= Max(t) && t.envp[Max(t)].Some?)
  }

  /** One parameter of the command line. */
  function Step(t: Tables, p: Param): Tables
    requires Bounded(t)
  {
    match p
    case AfterDashes(_, _) => if t.panic then t else PutArg(t, Whole(p), false)
    case Unknown(name, value, alias, setup) =>
      if alias then t
      else if setup == InitCommand then t.(argv := Clear(t.argv))
      else if setup == Handled || '.' in name || t.panic then t
      else if value.Some? then PutEnv(t, name, Whole(p))
      else PutArg(t, name, true)
  }

  /** The latch never opens again, and once it is set no string is stored. */
  lemma StepKeepsBounds(t: Tables, p: Param)
    requires Bounded(t)
    ensures Bounded(Step(t, p)) && |Step(t, p).argv| == |t.argv|
    ensures t.panic ==> Step(t, p).panic && Step(t, p).envp == t.envp && Step(t, p).argv in {t.argv, Clear(t.argv)}
  {}

  /**
   What each parameter is for: sysctl aliases, options the kernel took itself and names of module parameters
   leave no trace; `name=value` becomes an environment string and a bare name, or anything after `--`, an argument.
   */
  lemma EachToItsTable(t: Tables, p: Param)
    requires Bounded(t) && !t.panic
    ensures p.Unknown? && (p.alias || p.setup == Handled || (p.setup == Unhandled && '.' in p.name)) ==> Step(t, p) == t
    ensures p.Unknown? && !p.alias && p.setup == InitCommand ==> Step(t, p) == t.(argv := Clear(t.argv))
    ensures p.Unknown? && !p.alias && p.setup == Unhandled && '.' !in p.name && p.value.Some? ==>
      Step(t, p).argv == t.argv && Some(p.name + "=" + p.value.value) in Step(t, p).envp
    ensures p.Unknown? && !p.alias && p.setup == Unhandled && '.' !in p.name && p.value.None? ==>
      Step(t, p).envp == t.envp && Some(p.name) in Step(t, p).argv
    ensures p.AfterDashes? ==>
      Step(t, p).envp == t.envp && (Step(t, p).panic || Some(if p.value.Some? then p.name + "=" + p.value.value else p.name) in Step(t, p).argv)
  {
    if IsInit(p) {
    } else if IsEnv(p) {
      assert PutEnv(t, p.name, Whole(p)).envp[Stop(t.envp, Some(p.name + "="))] == Some(Whole(p));
    } else if PassedOn(p) {
      var u := PutArg(t, Whole(p), p.Unknown?);
      assert !u.panic || p.Unknown? ==> u.argv[Stop(t.argv, None)] == Some(Whole(p));
    }
  }

  // ---------- What the tables are meant to hold ----------

  /** Arguments since the last `init=`, and the environment as names with values; no limits, no slots. */
  datatype Wanted = Wanted(args: seq<string>, env: seq<(string, string)>)

  function IndexOf(env: seq<(string, string)>, name: string): (i: nat)
    ensures i <= |env| && (i < |env| ==> env[i].0 == name)
    ensures forall j :: 0 <= j < i ==> env[j].0 != name
  {
    if env == [] || env[0].0 == name then 0 else 1 + IndexOf(env[1..], name)
  }

  /** A new name goes to the end; a known one keeps its place. */
  function Assign(env: seq<(string, string)>, name: string, value: string): seq<(string, string)> {
    var i := IndexOf(env, name);
    if i < |env| then env[i := (name, value)] else env + [(name, value)]
  }

  predicate IsInit(p: Param) { p.Unknown? && !p.alias && p.setup == InitCommand }

  /** A parameter that is passed on to init. */
  predicate PassedOn(p: Param) { p.AfterDashes? || (!p.alias && p.setup == Unhandled && '.' !in p.name) }

  predicate IsEnv(p: Param) { p.Unknown? && PassedOn(p) && p.value.Some? }

  function WantedStep(w: Wanted, p: Param): Wanted
    requires w.args != []
  {
    if IsInit(p) then w.(args := w.args[..1])
    else if IsEnv(p) then w.(env := Assign(w.env, p.name, p.value.value))
    else if PassedOn(p) then w.(args := w.args + [Whole(p)])
    else w
  }

  predicate ArgsMatch(argv: seq<Slot>, args: seq<string>) {
    && 1 <= |args| < |argv|
    && (forall i :: 0 <= i < |args| ==> argv[i] == Some(args[i]))
    && forall i :: |args| <= i < |argv| && i != |argv| - 2 ==> argv[i].None?
  }

  predicate EnvMatches(envp: seq<Slot>, env: seq<(string, string)>) {
    && |env| < |envp|
    && (forall i :: 0 <= i < |env| ==> '=' !in env[i].0 && envp[i] == Some(env[i].0 + "=" + env[i].1))
    && (forall i :: |env| <= i < |envp| ==> envp[i].None?)
    && forall i, j :: 0 <= i < j < |env| ==> env[i].0 != env[j].0
  }

  predicate Matches(t: Tables, w: Wanted) {
    !t.panic && |t.argv| == |t.envp| >= 3 && ArgsMatch(t.argv, w.args) && EnvMatches(t.envp, w.env)
  }

  /** The one slot that clearing the arguments forgets still holds an old one. */
  predicate Stale(t: Tables, w: Wanted)
    requires |t.argv| >= 3
  {
    |w.args| <= Max(t) && t.argv[Max(t)].Some?
  }

  /** What init is started with: the strings before the first free slot. */
  function Visible(argv: seq<Slot>): seq<string> {
    if argv == [] || argv[0].None? then [] else [argv[0].value] + Visible(argv[1..])
  }

  lemma {:induction false} VisibleIs(argv: seq<Slot>, args: seq<string>)
    requires |args| < |argv| && argv[|args|].None? && forall i :: 0 <= i < |args| ==> argv[i] == Some(args[i])
    ensures Visible(argv) == args
  {
    if args != [] {
      assert argv[0] == Some(args[0]);
      VisibleIs(argv[1..], args[1..]);
    }
  }

  /** Init sees the wanted arguments if and only if they do not reach up to a stale slot. */
  lemma VisibleExactly(t: Tables, w: Wanted)
    requires Matches(t, w)
    ensures Visible(t.argv) == w.args <==> !(Stale(t, w) && |w.args| == Max(t))
  {
    if Stale(t, w) && |w.args| == Max(t) {
      VisibleIs(t.argv, w.args + [t.argv[Max(t)].value]);
    } else {
      VisibleIs(t.argv, w.args);
    }
  }

  // ---------- One step ----------

  /** Names without an equals sign are told apart by what comes before it. */
  lemma {:induction false} SameName(a: string, x: string, b: string)
    requires '=' !in a && '=' !in b
    ensures b + "=" <= a + "=" + x <==> a == b
  {
    var l, r := a + "=" + x, b + "=";
    assert r <= l <==> r[0] == l[0] && r[1..] <= l[1..];
    if a != [] && b != [] {
      SameName(a[1..], x, b[1..]);
      assert l[1..] == a[1..] + "=" + x && r[1..] == b[1..] + "=";
      assert a == b <==> a[0] == b[0] && a[1..] == b[1..];
    }
  }

  lemma EnvStop(envp: seq<Slot>, env: seq<(string, string)>, name: string)
    requires EnvMatches(envp, env) && '=' !in name
    ensures Stop(envp, Some(name + "=")) == IndexOf(env, name)
  {
    var i := IndexOf(env, name);
    forall j | 0 <= j < |env|
      ensures Stops(envp[j], Some(name + "=")) <==> env[j].0 == name
    {
      SameName(env[j].0, env[j].1, name);
    }
    StopIs(envp, Some(name + "="), i);
  }

  lemma ArgStop(argv: seq<Slot>, args: seq<string>)
    requires ArgsMatch(argv, args)
    ensures Stop(argv, None) == if |args| == |argv| - 2 && argv[|args|].Some? then |args| + 1 else |args|
  {
    StopIs(argv, None, if |args| == |argv| - 2 && argv[|args|].Some? then |args| + 1 else |args|);
  }

  lemma PutArgMatches(t: Tables, w: Wanted, s: string, store: bool)
    requires Matches(t, w)
    ensures var u := PutArg(t, s, store);
            && (u.panic <==> |w.args| == Max(t) + 1 || (Stale(t, w) && |w.args| == Max(t)))
            && (!u.panic ==> ArgsMatch(u.argv, w.args + [s]) && (Stale(u, w.(args := w.args + [s])) <==> Stale(t, w)))
  {
    ArgStop(t.argv, w.args);
  }

  lemma PutEnvMatches(t: Tables, w: Wanted, name: string, value: string)
    requires Matches(t, w) && '=' !in name
    ensures var u := PutEnv(t, name, name + "=" + value);
            && (u.panic <==> |w.env| == Max(t) + 1 && IndexOf(w.env, name) >= Max(t))
            && u.argv == t.argv
            && (|Assign(w.env, name, value)| < |t.envp| ==> EnvMatches(u.envp, Assign(w.env, name, value)))
  {
    EnvStop(t.envp, w.env, name);
    hide IndexOf, Stop, Stops;
  }

  lemma ClearMatches(t: Tables, w: Wanted)
    requires Matches(t, w)
    ensures ArgsMatch(Clear(t.argv), w.args[..1]) && Clear(t.argv)[Max(t)] == t.argv[Max(t)]
  {}

  /** A step that should latch: one string more than the table has room for before its last slot. */
  predicate Overflows(w: Wanted, max: int) { |w.args| > max + 1 || |w.env| > max + 1 }

  /**
   The latch is set if and only if a table overflows, or in one of two cases where nothing does: an argument
   runs into a stale slot, or a value is given again to the last name there is room for.
   */
  lemma LatchExactly(t: Tables, w: Wanted, p: Param)
    requires Matches(t, w) && Named(p)
    ensures Step(t, p).panic <==>
            || Overflows(WantedStep(w, p), Max(t))
            || (Stale(t, w) && |WantedStep(w, p).args| == Max(t) + 1)
            || (IsEnv(p) && |w.env| == Max(t) + 1 && IndexOf(w.env, p.name) == Max(t))
  {
    hide Matches, EnvMatches, ArgsMatch, PutArg, PutEnv;
    MatchFacts(t, w);
    if IsEnv(p) {
      PutEnvMatches(t, w, p.name, p.value.value);
    } else if PassedOn(p) {
      PutArgMatches(t, w, Whole(p), p.Unknown?);
    }
  }

  lemma MatchFacts(t: Tables, w: Wanted)
    requires Matches(t, w)
    ensures Bounded(t) && !t.panic && 1 <= |w.args| <= Max(t) + 1 && |w.env| <= Max(t) + 1
  {}

  /** Until then the tables hold what they are meant to hold. */
  lemma StepMatches(t: Tables, w: Wanted, p: Param)
    requires Matches(t, w) && Named(p) && !Step(t, p).panic
    ensures Matches(Step(t, p), WantedStep(w, p))
    ensures Stale(Step(t, p), WantedStep(w, p)) <==> Stale(t, w) || (IsInit(p) && |w.args| == Max(t) + 1)
  {
    if IsInit(p) {
      ClearMatches(t, w);
    } else if IsEnv(p) {
      PutEnvMatches(t, w, p.name, p.value.value);
    } else if PassedOn(p) {
      PutArgMatches(t, w, Whole(p), p.Unknown?);
    }
  }

  // ---------- Whole command lines ----------

  function Start(max: nat): Tables
    requires max >= 1
  {
    Tables([Some("init")] + seq(max + 1, _ => None), [Some("HOME=/"), Some("TERM=linux")] + seq(max, _ => None), false)
  }

  const WANTED_START := Wanted(["init"], [("HOME", "/"), ("TERM", "linux")])

  function Run(max: nat, params: seq<Param>): (t: Tables)
    requires max >= 1
    ensures Bounded(t) && Max(t) == max
  {
    if params == [] then Start(max)
    else
      var n := |params| - 1;
      var t := Run(max, params[..n]);
      StepKeepsBounds(t, params[n]);
      Step(t, params[n])
  }

  function WantedRun(params: seq<Param>): (w: Wanted)
    ensures w.args != []
  {
    if params == [] then WANTED_START
    else WantedStep(WantedRun(params[..|params| - 1]), params[|params| - 1])
  }

  /** The last `init=` or an earlier one came when the arguments had filled every slot. */
  ghost predicate LateInit(max: nat, params: seq<Param>) {
    exists i :: 0 <= i < |params| && IsInit(params[i]) && |WantedRun(params[..i]).args| == max + 1
  }

  lemma StartMatches(max: nat)
    requires max >= 1
    ensures Matches(Start(max), WANTED_START) && !Stale(Start(max), WANTED_START)
  {
    assert "HOME=/" == "HOME" + "=" + "/" && "TERM=linux" == "TERM" + "=" + "linux";
    assert "HOME"[0] != "TERM"[0];
  }

  lemma {:induction false} LateInitStep(max: nat, params: seq<Param>)
    requires params != []
    ensures var before, p := params[..|params| - 1], params[|params| - 1];
            LateInit(max, params) <==> LateInit(max, before) || (IsInit(p) && |WantedRun(before).args| == max + 1)
  {
    hide WantedRun, IsInit;
    var n := |params| - 1;
    var before, p := params[..n], params[n];
    assert forall i :: 0 <= i < n ==> before[..i] == params[..i] && before[i] == params[i];
    if LateInit(max, params) {
      var i :| 0 <= i < |params| && IsInit(params[i]) && |WantedRun(params[..i]).args| == max + 1;
      if i < n {
        assert IsInit(before[i]) && |WantedRun(before[..i]).args| == max + 1;
      }
    }
    if LateInit(max, before) {
      var i :| 0 <= i < |before| && IsInit(before[i]) && |WantedRun(before[..i]).args| == max + 1;
      assert IsInit(params[i]) && |WantedRun(params[..i]).args| == max + 1;
    }
    if IsInit(p) && |WantedRun(before).args| == max + 1 {
      assert IsInit(params[n]) && |WantedRun(params[..n]).args| == max + 1;
    }
  }

  /** For every command line: unless the latch is set, the tables are right, and a slot is stale exactly after a late `init=`. */
  lemma {:induction false} RunMatches(max: nat, params: seq<Param>)
    requires max >= 1 && (forall i :: 0 <= i < |params| ==> Named(params[i])) && !Run(max, params).panic
    ensures Matches(Run(max, params), WantedRun(params))
    ensures Stale(Run(max, params), WantedRun(params)) <==> LateInit(max, params)
  {
    hide Matches, Stale, LateInit, Step, WantedStep;
    StartMatches(max);
    if params != [] {
      var n := |params| - 1;
      var before := params[..n];
      StepKeepsBounds(Run(max, before), params[n]);
      RunMatches(max, before);
      StepMatches(Run(max, before), WantedRun(before), params[n]);
      LateInitStep(max, params);
    } else {
      NoLateInit(max);
    }
  }

  lemma NoLateInit(max: nat)
    ensures !LateInit(max, [])
  {}

  /** What init is started with is what the command line asks for, unless the arguments reach a stale slot. */
  lemma StartedExactly(max: nat, params: seq<Param>)
    requires max >= 1 && (forall i :: 0 <= i < |params| ==> Named(params[i])) && !Run(max, params).panic
    ensures Visible(Run(max, params).argv) == WantedRun(params).args <==> !(LateInit(max, params) && |WantedRun(params).args| == max)
  {
    RunMatches(max, params);
    VisibleExactly(Run(max, params), WantedRun(params));
  }

  lemma RunStep(max: nat, before: seq<Param>, p: Param)
    requires max >= 1
    ensures Run(max, before + [p]) == Step(Run(max, before), p)
    ensures WantedRun(before + [p]) == WantedStep(WantedRun(before), p)
    ensures LateInit(max, before + [p]) <==> LateInit(max, before) || (IsInit(p) && |WantedRun(before).args| == max + 1)
  {
    hide LateInit;
    assert (before + [p])[..|before|] == before;
    LateInitStep(max, before + [p]);
  }

  /** A parameter that becomes an argument. */
  predicate IsArg(p: Param) { Named(p) && PassedOn(p) && !IsEnv(p) }

  ghost predicate AllArgs(ps: seq<Param>) { forall i :: 0 <= i < |ps| ==> IsArg(ps[i]) }

  ghost predicate AllNamed(ps: seq<Param>) { forall i :: 0 <= i < |ps| ==> Named(ps[i]) }

  function Wholes(ps: seq<Param>): seq<string> {
    seq(|ps|, i requires 0 <= i < |ps| => Whole(ps[i]))
  }

  /** One more argument is stored as long as it meets neither the end of the table nor a stale slot, which it leaves alone. */
  lemma OneArg(max: nat, before: seq<Param>, p: Param)
    requires max >= 1 && AllNamed(before) && IsArg(p) && !Run(max, before).panic
    requires |WantedRun(before).args| < if LateInit(max, before) then max else max + 1
    ensures !Run(max, before + [p]).panic && LateInit(max, before + [p]) == LateInit(max, before)
    ensures WantedRun(before + [p]).args == WantedRun(before).args + [Whole(p)]
    ensures LateInit(max, before) ==> Run(max, before + [p]).argv[max] == Run(max, before).argv[max]
  {
    hide Run, WantedRun, LateInit, Matches;
    RunMatches(max, before);
    RunStep(max, before, p);
    var t, w := Run(max, before), WantedRun(before);
    MatchFacts(t, w);
    LatchExactly(t, w, p);
    if LateInit(max, before) {
      StaysStale(t, w, p);
    }
  }

  lemma StaysStale(t: Tables, w: Wanted, p: Param)
    requires Matches(t, w) && IsArg(p) && |w.args| < Max(t)
    ensures Step(t, p).argv[Max(t)] == t.argv[Max(t)]
  {
    ArgStop(t.argv, w.args);
  }

  lemma {:induction false} ArgsGrow(max: nat, before: seq<Param>, ps: seq<Param>)
    requires max >= 1 && AllNamed(before) && AllArgs(ps) && !Run(max, before).panic
    requires |WantedRun(before).args| + |ps| <= if LateInit(max, before) then max else max + 1
    ensures !Run(max, before + ps).panic && LateInit(max, before + ps) == LateInit(max, before)
    ensures WantedRun(before + ps).args == WantedRun(before).args + Wholes(ps)
    ensures LateInit(max, before) ==> Run(max, before + ps).argv[max] == Run(max, before).argv[max]
    decreases |ps|
  {
    hide Run, WantedRun, LateInit, Whole;
    if ps == [] {
      assert before + ps == before;
    } else {
      var n := |ps| - 1;
      ArgsGrow(max, before, ps[..n]);
      OneArg(max, before + ps[..n], ps[n]);
      assert before + ps == before + ps[..n] + [ps[n]];
      assert Wholes(ps) == Wholes(ps[..n]) + [Whole(ps[n])];
    }
  }

  lemma FillsUp(max: nat, first: seq<Param>)
    requires max >= 1 && AllArgs(first) && |first| == max
    ensures !Run(max, first).panic && !LateInit(max, first) && |WantedRun(first).args| == max + 1
    ensures Run(max, first).argv[max] == Some(Whole(first[max - 1]))
  {
    NoLateInit(max);
    ArgsGrow(max, [], first);
    assert [] + first == first;
    RunMatches(max, first);
    assert WantedRun(first).args == ["init"] + Wholes(first);
  }

  lemma Empties(max: nat, before: seq<Param>, init: Param)
    requires max >= 1 && AllNamed(before) && !Run(max, before).panic && |WantedRun(before).args| == max + 1 && Named(init) && IsInit(init)
    ensures !Run(max, before + [init]).panic && LateInit(max, before + [init])
    ensures WantedRun(before + [init]).args == WantedRun(before).args[..1]
    ensures Run(max, before + [init]).argv[max] == Run(max, before).argv[max]
  {
    hide Run, WantedRun, LateInit;
    RunStep(max, before, init);
  }

  /**
   For every table size: as many arguments as fit, then `init=`, then one fewer. The last argument before
   `init=` should have been dropped and is passed to init after all.
   */
  lemma StaleArgument(max: nat, first: seq<Param>, init: Param, second: seq<Param>)
    requires max >= 1 && AllArgs(first) && |first| == max && Named(init) && IsInit(init) && AllArgs(second) && |second| == max - 1
    ensures var params := first + [init] + second;
            && !Run(max, params).panic
            && WantedRun(params).args == ["init"] + Wholes(second)
            && Visible(Run(max, params).argv) == ["init"] + Wholes(second) + [Whole(first[max - 1])]
  {
    hide Run, LateInit, Whole, Visible, Stale, Matches, WantedRun;
    FillsUp(max, first);
    Empties(max, first, init);
    FirstIsInit(first);
    ArgsGrow(max, first + [init], second);
    var params := first + [init] + second;
    RunMatches(max, params);
    StaleShows(Run(max, params), WantedRun(params));
  }

  lemma StaleShows(t: Tables, w: Wanted)
    requires Matches(t, w) && Stale(t, w) && |w.args| == Max(t)
    ensures Visible(t.argv) == w.args + [t.argv[Max(t)].value]
  {
    VisibleIs(t.argv, w.args + [t.argv[Max(t)].value]);
  }

  /** The name in front of all arguments is never dropped. */
  lemma {:induction false} FirstIsInit(params: seq<Param>)
    ensures WantedRun(params).args[..1] == ["init"]
  {
    if params != [] {
      FirstIsInit(params[..|params| - 1]);
    }
  }

  /** A name that the environment does not start with, different for each number. */
  function NewName(i: nat): string { seq(i + 1, _ => 'a') }

  function NewValue(i: nat): Param { Unknown(NewName(i), Some(""), false, Unhandled) }

  /** Values for `k` new names. */
  function NewValues(k: nat): seq<Param> {
    if k == 0 then [] else NewValues(k - 1) + [NewValue(k - 1)]
  }

  /** The name of entry `i` of the environment once new names were added. */
  function NameAt(i: nat): string { if i == 0 then "HOME" else if i == 1 then "TERM" else NewName(i - 2) }

  lemma NamesDiffer(i: nat, j: nat)
    requires i != j
    ensures NameAt(i) != NameAt(j)
  {
    assert "HOME"[0] == 'H' && "TERM"[0] == 'T';
    assert i >= 2 ==> NameAt(i)[0] == 'a' && |NameAt(i)| == i - 1;
    assert j >= 2 ==> NameAt(j)[0] == 'a' && |NameAt(j)| == j - 1;
  }

  lemma NameIsPlain(i: nat)
    ensures '=' !in NameAt(i) && '.' !in NameAt(i)
  {
    assert "HOME" == ['H', 'O', 'M', 'E'] && "TERM" == ['T', 'E', 'R', 'M'];
  }

  ghost predicate Filled(env: seq<(string, string)>, n: nat) {
    |env| == n && forall i :: 0 <= i < n ==> env[i].0 == NameAt(i)
  }

  lemma FilledIndex(env: seq<(string, string)>, n: nat, i: nat)
    requires Filled(env, n) && i <= n
    ensures IndexOf(env, NameAt(i)) == i
  {
    forall j | 0 <= j < n && j != i ensures env[j].0 != NameAt(i) {
      NamesDiffer(i, j);
    }
    IndexIs(env, NameAt(i), i);
  }

  /** New names fill the environment one by one, and nothing overflows while they fit. */
  lemma {:induction false} NamesGrow(max: nat, k: nat)
    requires max >= 1 && k <= max - 1
    ensures AllNamed(NewValues(k)) && !Run(max, NewValues(k)).panic && !LateInit(max, NewValues(k))
    ensures WantedRun(NewValues(k)).args == ["init"] && Filled(WantedRun(NewValues(k)).env, k + 2)
  {
    hide Run, WantedRun, LateInit, Matches, NameAt, NewValue, Filled;
    if k == 0 {
      NamesStart(max);
    } else {
      NamesGrow(max, k - 1);
      OneName(max, NewValues(k - 1), k - 1);
      NewNameIs(k - 1);
    }
  }

  lemma NamesStart(max: nat)
    requires max >= 1
    ensures !Run(max, []).panic && !LateInit(max, []) && WantedRun([]).args == ["init"] && Filled(WantedRun([]).env, 2)
  {
    NoLateInit(max);
    hide LateInit;
  }

  lemma NewNameIs(i: nat)
    ensures NewValue(i).name == NameAt(i + 2) && Named(NewValue(i)) && IsEnv(NewValue(i))
  {
    NameIsPlain(i + 2);
  }

  lemma OneName(max: nat, before: seq<Param>, k: nat)
    requires max >= 1 && k < max - 1 && AllNamed(before) && !Run(max, before).panic && !LateInit(max, before)
    requires WantedRun(before).args == ["init"] && Filled(WantedRun(before).env, k + 2)
    ensures var params := before + [NewValue(k)];
            && !Run(max, params).panic && !LateInit(max, params)
            && WantedRun(params).args == ["init"] && Filled(WantedRun(params).env, k + 3)
  {
    hide Run, WantedRun, LateInit, Matches, NameAt;
    var p := NewValue(k);
    RunMatches(max, before);
    RunStep(max, before, p);
    NewNameIs(k);
    var t, w := Run(max, before), WantedRun(before);
    FilledIndex(w.env, k + 2, k + 2);
    MatchFacts(t, w);
    LatchExactly(t, w, p);
  }

  /**
   For every table size: once the names given fill the environment exactly, a new value for the last of them
   sets the latch, although both tables have room for everything.
   */
  lemma SpuriousLatch(max: nat, value: string)
    requires max >= 1
    ensures var params := NewValues(max - 1) + [Unknown(NameAt(max), Some(value), false, Unhandled)];
            Run(max, params).panic && !Overflows(WantedRun(params), max)
  {
    hide Run, WantedRun, LateInit, Matches, NameAt;
    var before, p := NewValues(max - 1), Unknown(NameAt(max), Some(value), false, Unhandled);
    NamesGrow(max, max - 1);
    NameIsPlain(max);
    var t, w := Run(max, before), WantedRun(before);
    RunMatches(max, before);
    FilledIndex(w.env, max + 1, max);
    LatchExactly(t, w, p);
    RunStep(max, before, p);
  }

  /** The value last given to a name, or the one it starts with. */
  function LastValue(params: seq<Param>, name: string): Option<string> {
    if params == [] then
      if name == "HOME" then Some("/") else if name == "TERM" then Some("linux") else None
    else
      var p := params[|params| - 1];
      if IsEnv(p) && p.name == name then p.value else LastValue(params[..|params| - 1], name)
  }

  function Value(env: seq<(string, string)>, name: string): Option<string> {
    var i := IndexOf(env, name);
    if i < |env| then Some(env[i].1) else None
  }

  lemma AssignedValue(env: seq<(string, string)>, a: string, x: string, name: string)
    ensures Value(Assign(env, a, x), name) == if name == a then Some(x) else Value(env, name)
  {
    var e := Assign(env, a, x);
    var i, j, k := IndexOf(e, name), IndexOf(env, name), IndexOf(env, a);
    assert forall m :: 0 <= m < |env| ==> e[m].0 == env[m].0;
    if name == a {
      IndexIs(e, name, k);
    } else if j < |env| {
      IndexIs(e, name, j);
    } else {
      IndexIs(e, name, |e|);
    }
  }

  lemma {:induction false} IndexIs(env: seq<(string, string)>, name: string, i: nat)
    requires i <= |env| && (i < |env| ==> env[i].0 == name) && forall j :: 0 <= j < i ==> env[j].0 != name
    ensures IndexOf(env, name) == i
  {
    if i > 0 {
      assert env[0].0 != name;
      IndexIs(env[1..], name, i - 1);
    }
  }

  /** For every command line and every name, the environment holds the value given last. */
  lemma {:induction false} LastValueWins(params: seq<Param>, name: string)
    ensures Value(WantedRun(params).env, name) == LastValue(params, name)
  {
    if params == [] {
      var e := WANTED_START.env;
      IndexIs(e, name, if name == "HOME" then 0 else if name == "TERM" then 1 else 2);
    } else {
      var before, p := params[..|params| - 1], params[|params| - 1];
      LastValueWins(before, name);
      if IsEnv(p) {
        AssignedValue(WantedRun(before).env, p.name, p.value.value, name);
      }
    }
  }

  // ---------- The code ----------

  class Boot {
    const argv: array<Slot>
    const envp: array<Slot>
    var panic: bool

    ghost function Contents(): Tables
      reads this, argv, envp
    {
      Tables(argv[..], envp[..], panic)
    }

    ghost predicate Valid()
      reads this, argv, envp
    {
      argv != envp && Bounded(Contents())
    }

    /** `set_init_arg`, given the repaired string. */
    method SetInitArg(p: Param)
      requires Valid() && p.AfterDashes?
      modifies this, argv
      ensures Valid() && Contents() == Step(old(Contents()), p)
    {
      if panic {
        return;
      }
      var i := 0;
      while argv[i].Some?
        invariant i <= argv.Length - 2 && !panic && Valid() && Contents() == old(Contents())
        invariant forall j :: 0 <= j < i ==> argv[j].Some?
        decreases argv.Length - i
      {
        if i == argv.Length - 2 {
          StopIs(argv[..], None, i + 1);
          panic := true;
          return;
        }
        i := i + 1;
      }
      StopIs(argv[..], None, i);
      argv[i] := Some(Whole(p));
    }

    /** The loop shared by `init_setup` and `rdinit_setup`. */
    method InitSetup()
      requires Valid()
      modifies argv
      ensures Valid() && Contents() == old(Contents()).(argv := Clear(old(argv[..])))
    {
      for i := 1 to argv.Length - 2
        invariant forall j :: 1 <= j < i ==> argv[j] == None
        invariant forall j :: 0 <= j < argv.Length && !(1 <= j < i) ==> argv[j] == old(argv[j])
      {
        argv[i] := None;
      }
      assert argv[..] == Clear(old(argv[..]));
    }

    /** `unknown_bootoption`, given the repaired string. */
    method UnknownBootoption(p: Param)
      requires Valid() && p.Unknown?
      modifies this, argv, envp
      ensures Valid() && Contents() == Step(old(Contents()), p)
    {
      if p.alias {
        return;
      }
      if p.setup == InitCommand {
        InitSetup();
        return;
      }
      if p.setup == Handled || '.' in p.name || panic {
        return;
      }
      if p.value.Some? {
        StoreEnv(p.name, Whole(p));
      } else {
        StoreArg(p.name);
      }
    }

    method StoreEnv(name: string, s: string)
      requires Valid() && !panic
      modifies this, envp
      ensures Valid() && Contents() == PutEnv(old(Contents()), name, s)
    {
      var i := 0;
      while envp[i].Some?
        invariant i < envp.Length && envp[..] == old(envp[..]) && argv[..] == old(argv[..])
        invariant panic == (i > envp.Length - 2)
        invariant forall j :: 0 <= j < i ==> !Stops(envp[j], Some(name + "="))
        decreases envp.Length - i
      {
        if i == envp.Length - 2 {
          panic := true;
        }
        if name + "=" <= envp[i].value {
          break;
        }
        i := i + 1;
      }
      StopIs(envp[..], Some(name + "="), i);
      envp[i] := Some(s);
    }

    method StoreArg(s: string)
      requires Valid() && !panic
      modifies this, argv
      ensures Valid() && Contents() == PutArg(old(Contents()), s, true)
    {
      var i := 0;
      while argv[i].Some?
        invariant i < argv.Length && argv[..] == old(argv[..]) && envp[..] == old(envp[..])
        invariant panic == (i > argv.Length - 2)
        invariant forall j :: 0 <= j < i ==> argv[j].Some?
        decreases argv.Length - i
      {
        if i == argv.Length - 2 {
          panic := true;
        }
        i := i + 1;
      }
      StopIs(argv[..], None, i);
      argv[i] := Some(s);
    }
  }
}
