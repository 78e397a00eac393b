/**
 * Temporary environment variables. A variable is written to three stores at
 * once: the process environment (`putenv`/`getenv`), `$_ENV` and `$_SERVER`.
 * `executeWithEnvironment` backs up the variables it is about to set, sets
 * them, runs a callback and restores the backup whether the callback returns
 * or throws.
 *
 * The backup keeps only `getenv(key) ?: null`: the `$_ENV` and `$_SERVER`
 * values it reads first are overwritten, and an original value of "" or "0"
 * is falsy and recorded as null, so on restore such a variable is removed.
 */
module EnvironmentService {
  import opened PhpValues

  /** The three stores. */
  datatype Stores = Stores(process: map<string, string>, env: map<string, string>, server: map<string, string>)

  /** `key` is mapped to `v` in all three stores. */
  predicate Holds(s: Stores, key: string, v: string) {
    key in s.process && s.process[key] == v && key in s.env && s.env[key] == v && key in s.server && s.server[key] == v
  }

  /** `key` is in none of the three stores. */
  predicate Absent(s: Stores, key: string) {
    key !in s.process && key !in s.env && key !in s.server
  }

  /** `a` and `b` agree at `key` in each store. */
  predicate SameAt(a: Stores, b: Stores, key: string) {
    && (key in a.process <==> key in b.process) && (key in a.process ==> a.process[key] == b.process[key])
    && (key in a.env <==> key in b.env) && (key in a.env ==> a.env[key] == b.env[key])
    && (key in a.server <==> key in b.server) && (key in a.server ==> a.server[key] == b.server[key])
  }

  /** `setTemporaryEnvironment`. */
  function Put(s: Stores, key: string, value: string): (r: Stores)
    ensures Holds(r, key, value)
    ensures forall k :: k != key ==> SameAt(r, s, k)
  {
    Stores(s.process[key := value], s.env[key := value], s.server[key := value])
  }

  /** `putenv(key)` followed by `unset($_ENV[key], $_SERVER[key])`. */
  function Remove(s: Stores, key: string): (r: Stores)
    ensures Absent(r, key)
    ensures forall k :: k != key ==> SameAt(r, s, k)
  {
    Stores(s.process - {key}, s.env - {key}, s.server - {key})
  }

  /** What `putenv` accepts as a name, and what a PHP array's keys are: each
      name non-empty and free of `=`, no name twice. */
  predicate ValidNames(envVars: seq<(string, string)>) {
    && (forall i :: 0 <= i < |envVars| ==> envVars[i].0 != "" && '=' !in envVars[i].0)
    && (forall i, j :: 0 <= i < j < |envVars| ==> envVars[i].0 != envVars[j].0)
  }

  predicate NotAName(envVars: seq<(string, string)>, key: string) {
    forall i :: 0 <= i < |envVars| ==> envVars[i].0 != key
  }

  /** The set loop: every pair written in order. */
  function SetAll(s: Stores, envVars: seq<(string, string)>): (r: Stores)
    ensures envVars != [] ==> Holds(r, envVars[|envVars| - 1].0, envVars[|envVars| - 1].1)
    ensures forall k :: NotAName(envVars, k) ==> SameAt(r, s, k)
    decreases |envVars|
  {
    if envVars == [] then s
    else
      var n := |envVars| - 1;
      assert forall k :: NotAName(envVars, k) ==> NotAName(envVars[..n], k) && envVars[n].0 != k;
      Put(SetAll(s, envVars[..n]), envVars[n].0, envVars[n].1)
  }

  /** `getenv(key) ?: null`: the process value when it is truthy. */
  function GetenvOrNull(process: map<string, string>, key: string): (r: Option<string>)
    ensures r.Some? <==> key in process && !EmptyString(process[key])
    ensures r.Some? ==> r.value == process[key]
  {
    if key in process && !EmptyString(process[key]) then Some(process[key]) else None
  }

  /** The backup the first loop ends with: for each name, in order, only
      what `getenv` gave. */
  function Backup(process: map<string, string>, envVars: seq<(string, string)>): (r: seq<(string, Option<string>)>)
    ensures |r| == |envVars|
    ensures forall i :: 0 <= i < |r| ==> r[i] == (envVars[i].0, GetenvOrNull(process, envVars[i].0))
  {
    seq(|envVars|, i requires 0 <= i < |envVars| => (envVars[i].0, GetenvOrNull(process, envVars[i].0)))
  }

  /** `key` has no entry in the backup. */
  predicate NotBackedUp(backup: seq<(string, Option<string>)>, key: string) {
    forall i :: 0 <= i < |backup| ==> backup[i].0 != key
  }

  /** One step of the restore loop. */
  function RestoreOne(s: Stores, entry: (string, Option<string>)): Stores {
    if entry.1.None? then Remove(s, entry.0) else Put(s, entry.0, entry.1.value)
  }

  /** The restore loop over the backup, in order. */
  function RestoreAll(s: Stores, backup: seq<(string, Option<string>)>): (r: Stores)
    ensures backup != [] && backup[|backup| - 1].1.Some? ==>
      Holds(r, backup[|backup| - 1].0, backup[|backup| - 1].1.value)
    ensures backup != [] && backup[|backup| - 1].1.None? ==> Absent(r, backup[|backup| - 1].0)
    ensures forall k :: NotBackedUp(backup, k) ==> SameAt(r, s, k)
    decreases |backup|
  {
    if backup == [] then s
    else
      var n := |backup| - 1;
      assert forall k :: NotBackedUp(backup, k) ==> NotBackedUp(backup[..n], k) && backup[n].0 != k;
      RestoreOne(RestoreAll(s, backup[..n]), backup[n])
  }

  /** What the callback did: returned a value or threw. */
  datatype Outcome = Returned(value: Json) | Threw(message: string)

  /** The callback, as it sees and leaves the three stores. */
  type Callback = Stores -> (Stores, Outcome)

  // ---------------------------------------------------------------------
  // Properties of the loops

  /** After the set loop every name holds its new value in all three
      stores (SetAll states that every other name is as it was). */
  lemma {:induction false} SetAllEffect(s: Stores, envVars: seq<(string, string)>)
    requires ValidNames(envVars)
    ensures forall i :: 0 <= i < |envVars| ==> Holds(SetAll(s, envVars), envVars[i].0, envVars[i].1)
    decreases |envVars|
  {
    if envVars != [] {
      var n := |envVars| - 1;
      var prefix := envVars[..n];
      SetAllEffect(s, prefix);
      forall i | 0 <= i < |envVars| ensures Holds(SetAll(s, envVars), envVars[i].0, envVars[i].1) {
        if i < n {
          assert prefix[i] == envVars[i];
          assert envVars[i].0 != envVars[n].0;
        }
      }
    }
  }

  /** After the restore loop every name with a value in the backup holds it
      in all three stores, and every name backed up as null is gone from
      all three (RestoreAll states that every other name is as it was). */
  lemma {:induction false} RestoreAllEffect(s: Stores, backup: seq<(string, Option<string>)>)
    requires forall i, j :: 0 <= i < j < |backup| ==> backup[i].0 != backup[j].0
    ensures forall i :: 0 <= i < |backup| && backup[i].1.Some? ==> Holds(RestoreAll(s, backup), backup[i].0, backup[i].1.value)
    ensures forall i :: 0 <= i < |backup| && backup[i].1.None? ==> Absent(RestoreAll(s, backup), backup[i].0)
    decreases |backup|
  {
    if backup != [] {
      var n := |backup| - 1;
      var prefix := backup[..n];
      RestoreAllEffect(s, prefix);
      var r := RestoreAll(s, backup);
      assert r == RestoreOne(RestoreAll(s, prefix), backup[n]);
      forall i | 0 <= i < |backup| && i < n
        ensures backup[i].1.Some? ==> Holds(r, backup[i].0, backup[i].1.value)
        ensures backup[i].1.None? ==> Absent(r, backup[i].0)
      {
        assert prefix[i] == backup[i];
        assert backup[i].0 != backup[n].0;
      }
    }
  }

  /** The whole service call, on the stores it starts from: what the
      callback sees, and what is left after the restore. */
  function Executed(s: Stores, envVars: seq<(string, string)>, callback: Callback): (r: (Stores, Outcome))
    ensures r.1 == callback(SetAll(s, envVars)).1
    ensures forall k :: NotAName(envVars, k) ==> SameAt(r.0, callback(SetAll(s, envVars)).0, k)
  {
    var (after, outcome) := callback(SetAll(s, envVars));
    var backup := Backup(s.process, envVars);
    assert forall k :: NotAName(envVars, k) ==> NotBackedUp(backup, k);
    (RestoreAll(after, backup), outcome)
  }

  /** The callback runs with every new value in place in all three stores. */
  lemma CallbackSeesNewValues(s: Stores, envVars: seq<(string, string)>)
    requires ValidNames(envVars)
    ensures forall i :: 0 <= i < |envVars| ==> Holds(SetAll(s, envVars), envVars[i].0, envVars[i].1)
  {
    SetAllEffect(s, envVars);
  }

  /** After the call, a name whose original process value was truthy holds
      that value in all three stores (whatever `$_ENV` and `$_SERVER` held
      before); a name that was unset, "" or "0" is removed from all three;
      every other name is as the callback left it. The outcome is the
      callback's, returned or thrown. */
  lemma ExecutedEffect(s: Stores, envVars: seq<(string, string)>, callback: Callback)
    requires ValidNames(envVars)
    ensures var (final, outcome) := Executed(s, envVars, callback);
      var after := callback(SetAll(s, envVars)).0;
      && outcome == callback(SetAll(s, envVars)).1
      && (forall i :: 0 <= i < |envVars| && envVars[i].0 in s.process && !EmptyString(s.process[envVars[i].0]) ==>
            Holds(final, envVars[i].0, s.process[envVars[i].0]))
      && (forall i :: 0 <= i < |envVars| && (envVars[i].0 !in s.process || EmptyString(s.process[envVars[i].0])) ==>
            Absent(final, envVars[i].0))
      && (forall k :: NotAName(envVars, k) ==> SameAt(final, after, k))
  {
    var backup := Backup(s.process, envVars);
    var after := callback(SetAll(s, envVars)).0;
    RestoreAllEffect(after, backup);
    forall k | NotAName(envVars, k) ensures NotBackedUp(backup, k) {
    }
  }

  /** Each name is either in none of the stores, or holds one truthy value
      in all three. */
  predicate Restorable(s: Stores, envVars: seq<(string, string)>) {
    forall i :: 0 <= i < |envVars| ==>
      Absent(s, envVars[i].0) ||
      (envVars[i].0 in s.process && !EmptyString(s.process[envVars[i].0]) && Holds(s, envVars[i].0, s.process[envVars[i].0]))
  }

  /** When the callback leaves the stores alone, the call leaves them
      exactly as they were if and only if each name in `envVars` was in
      none of the stores or held one truthy value in all three. */
  lemma ExactRestoreWhenConsistent(s: Stores, envVars: seq<(string, string)>, callback: Callback)
    requires ValidNames(envVars)
    requires forall t :: callback(t).0 == t
    ensures Executed(s, envVars, callback).0 == s <==> Restorable(s, envVars)
  {
    var final := Executed(s, envVars, callback).0;
    if Restorable(s, envVars) {
      RestorableIsRestored(s, envVars, callback);
    }
    if final == s {
      ExecutedEffect(s, envVars, callback);
      forall i | 0 <= i < |envVars|
        ensures Absent(s, envVars[i].0) ||
          (envVars[i].0 in s.process && !EmptyString(s.process[envVars[i].0]) && Holds(s, envVars[i].0, s.process[envVars[i].0]))
      {
        var k := envVars[i].0;
        if k in s.process && !EmptyString(s.process[k]) {
          assert Holds(final, k, s.process[k]);
        } else {
          assert Absent(final, k);
        }
      }
    }
  }

  lemma RestorableIsRestored(s: Stores, envVars: seq<(string, string)>, callback: Callback)
    requires ValidNames(envVars)
    requires forall t :: callback(t).0 == t
    requires Restorable(s, envVars)
    ensures Executed(s, envVars, callback).0 == s
  {
    var final := Executed(s, envVars, callback).0;
    var during := SetAll(s, envVars);
    ExecutedEffect(s, envVars, callback);
    SetAllEffect(s, envVars);
    forall k
      ensures (k in final.process <==> k in s.process) && (k in final.process ==> final.process[k] == s.process[k])
      ensures (k in final.env <==> k in s.env) && (k in final.env ==> final.env[k] == s.env[k])
      ensures (k in final.server <==> k in s.server) && (k in final.server ==> final.server[k] == s.server[k])
    {
      if NotAName(envVars, k) {
        assert SameAt(final, during, k) && SameAt(during, s, k);
      } else {
        var i :| 0 <= i < |envVars| && envVars[i].0 == k;
        assert SameAt(final, s, k);
      }
    }
    assert final.process == s.process;
    assert final.env == s.env;
    assert final.server == s.server;
  }

  /** A variable set to "0" before the call is gone after it, even though
      the callback changed nothing. */
  lemma FalsyValueIsLost()
    ensures var s := Stores(map["APP_DEBUG" := "0"], map["APP_DEBUG" := "0"], map["APP_DEBUG" := "0"]);
      var identity: Callback := t => (t, Returned(JNull));
      var final := Executed(s, [("APP_DEBUG", "1")], identity).0;
      "APP_DEBUG" !in final.process && "APP_DEBUG" !in final.env && final != s
  {
    var s := Stores(map["APP_DEBUG" := "0"], map["APP_DEBUG" := "0"], map["APP_DEBUG" := "0"]);
    var identity: Callback := t => (t, Returned(JNull));
    var envVars := [("APP_DEBUG", "1")];
    ExecutedEffect(s, envVars, identity);
    assert envVars[0].0 == "APP_DEBUG";
  }

  // ---------------------------------------------------------------------
  // The service over the global stores

  /** The process environment, `$_ENV` and `$_SERVER`. */
  class Globals {
    var process: map<string, string>
    var env: map<string, string>
    var server: map<string, string>

    constructor (s: Stores)
      ensures State() == s
    {
      process, env, server := s.process, s.env, s.server;
    }

    function State(): Stores
      reads this
    {
      Stores(process, env, server)
    }

    method Assign(s: Stores)
      modifies this
      ensures State() == s
    {
      process, env, server := s.process, s.env, s.server;
    }
  }

  method SetTemporaryEnvironment(g: Globals, key: string, value: string)
    modifies g
    ensures g.State() == Put(old(g.State()), key, value)
  {
    g.process := g.process[key := value];
    g.env := g.env[key := value];
    g.server := g.server[key := value];
  }

  /** The backup loop: three reads per name, of which only the last is
      kept. It reads the stores and changes nothing. */
  method BackUp(g: Globals, envVars: seq<(string, string)>) returns (originalEnv: seq<(string, Option<string>)>)
    ensures originalEnv == Backup(g.process, envVars)
  {
    originalEnv := [];
    var i := 0;
    while i < |envVars|
      invariant 0 <= i <= |envVars|
      invariant originalEnv == Backup(g.process, envVars[..i])
    {
      var key := envVars[i].0;
      originalEnv := originalEnv + [(key, if key in g.env then Some(g.env[key]) else None)];
      originalEnv := originalEnv[i := (key, if key in g.server then Some(g.server[key]) else None)];
      originalEnv := originalEnv[i := (key, GetenvOrNull(g.process, key))];
      i := i + 1;
    }
    assert envVars[..i] == envVars;
  }

  /** The set loop. */
  method SetEach(g: Globals, envVars: seq<(string, string)>)
    modifies g
    ensures g.State() == SetAll(old(g.State()), envVars)
  {
    var i := 0;
    while i < |envVars|
      invariant 0 <= i <= |envVars|
      invariant g.State() == SetAll(old(g.State()), envVars[..i])
    {
      assert envVars[..i + 1][..i] == envVars[..i];
      SetTemporaryEnvironment(g, envVars[i].0, envVars[i].1);
      i := i + 1;
    }
    assert envVars[..i] == envVars;
  }

  /** The restore loop: a null backup unsets the name in all three stores,
      any other value is set again. */
  method RestoreEach(g: Globals, originalEnv: seq<(string, Option<string>)>)
    modifies g
    ensures g.State() == RestoreAll(old(g.State()), originalEnv)
  {
    var i := 0;
    while i < |originalEnv|
      invariant 0 <= i <= |originalEnv|
      invariant g.State() == RestoreAll(old(g.State()), originalEnv[..i])
    {
      assert originalEnv[..i + 1][..i] == originalEnv[..i];
      var (key, value) := originalEnv[i];
      if value.None? {
        g.process := g.process - {key};
        g.env := g.env - {key};
        g.server := g.server - {key};
      } else {
        SetTemporaryEnvironment(g, key, value.value);
      }
      i := i + 1;
    }
    assert originalEnv[..i] == originalEnv;
  }

  /** `executeWithEnvironment`: the restore runs after the callback whether
      it returned or threw, and the callback's outcome is passed on. */
  method ExecuteWithEnvironment(g: Globals, envVars: seq<(string, string)>, callback: Callback) returns (outcome: Outcome)
    requires ValidNames(envVars)
    modifies g
    ensures (g.State(), outcome) == Executed(old(g.State()), envVars, callback)
  {
    var originalEnv := BackUp(g, envVars);
    SetEach(g, envVars);
    var result := callback(g.State());
    outcome := result.1;
    g.Assign(result.0);
    RestoreEach(g, originalEnv);
  }
}
