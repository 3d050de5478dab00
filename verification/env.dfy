/** Environment variables of a container, and the single-match deletion the
    sink binding performs on an environment list.

    An environment list is an ordered sequence of (name, value) pairs; names
    are not unique, so a list may hold several entries with the same name. */
module EnvVars {

  /** One entry of a container's environment. */
  datatype EnvVar = EnvVar(name: string, value: string)

  /** The reserved variable through which a bound workload learns its sink. */
  const SinkName: string := "K_SINK"

  /** The entries of `env` called `name`, in list order. */
  function Named(env: seq<EnvVar>, name: string): seq<EnvVar>
  {
    if |env| == 0 then []
    else (if env[0].name == name then [env[0]] else []) + Named(env[1..], name)
  }

  /** The entries of `env` not called `name`, in list order. */
  function Unnamed(env: seq<EnvVar>, name: string): seq<EnvVar>
  {
    if |env| == 0 then []
    else (if env[0].name != name then [env[0]] else []) + Unnamed(env[1..], name)
  }

  /** How many entries of `env` are called `name`. */
  function Count(env: seq<EnvVar>, name: string): nat
  {
    |Named(env, name)|
  }

  /** The position of the first entry called `name`, or `|env|` when there is none. */
  function FirstIndex(env: seq<EnvVar>, name: string): (j: nat)
    ensures j <= |env|
    ensures forall k :: 0 <= k < j ==> env[k].name != name
    ensures j < |env| ==> env[j].name == name
  {
    if |env| == 0 then 0
    else if env[0].name == name then 0
    else 1 + FirstIndex(env[1..], name)
  }

  /** `after` is `before` with its first entry called `name` spliced out, or
      `before` itself when no entry has that name. */
  predicate FirstRemoved(before: seq<EnvVar>, after: seq<EnvVar>, name: string)
  {
    var j := FirstIndex(before, name);
    if j < |before| then after == before[..j] + before[j+1..] else after == before
  }

  /** Deletes the first entry called `name` and nothing else. */
  function RemoveFirst(env: seq<EnvVar>, name: string): (r: seq<EnvVar>)
    ensures FirstRemoved(env, r, name)
  {
    if |env| == 0 then []
    else if env[0].name == name then env[1..]
    else [env[0]] + RemoveFirst(env[1..], name)
  }

  /** `Named` distributes over concatenation. */
  lemma {:induction false} NamedAppend(a: seq<EnvVar>, b: seq<EnvVar>, name: string)
    ensures Named(a + b, name) == Named(a, name) + Named(b, name)
  {
    if |a| == 0 {
      assert a + b == b;
    } else {
      var ab := a + b;
      assert ab[0] == a[0];
      assert ab[1..] == a[1..] + b;
      NamedAppend(a[1..], b, name);
      var h: seq<EnvVar> := if a[0].name == name then [a[0]] else [];
      assert Named(ab, name) == h + Named(a[1..] + b, name);
      assert Named(a, name) == h + Named(a[1..], name);
    }
  }

  /** `Unnamed` distributes over concatenation. */
  lemma {:induction false} UnnamedAppend(a: seq<EnvVar>, b: seq<EnvVar>, name: string)
    ensures Unnamed(a + b, name) == Unnamed(a, name) + Unnamed(b, name)
  {
    if |a| == 0 {
      assert a + b == b;
    } else {
      var ab := a + b;
      assert ab[0] == a[0];
      assert ab[1..] == a[1..] + b;
      UnnamedAppend(a[1..], b, name);
      var h: seq<EnvVar> := if a[0].name != name then [a[0]] else [];
      assert Unnamed(ab, name) == h + Unnamed(a[1..] + b, name);
      assert Unnamed(a, name) == h + Unnamed(a[1..], name);
    }
  }

  /** A list in which no entry is called `name` has no `Named` part, and its
      `Unnamed` part is the whole list. */
  lemma {:induction false} NamedOfAbsent(env: seq<EnvVar>, name: string)
    requires forall k :: 0 <= k < |env| ==> env[k].name != name
    ensures Named(env, name) == []
    ensures Unnamed(env, name) == env
  {
    if |env| > 0 {
      NamedOfAbsent(env[1..], name);
    }
  }

  /** No entry is called `name` exactly when `name` is counted zero times. */
  lemma {:induction false} CountZeroIff(env: seq<EnvVar>, name: string)
    ensures Count(env, name) == 0 <==> FirstIndex(env, name) == |env|
  {
    if |env| > 0 && env[0].name != name {
      CountZeroIff(env[1..], name);
    }
  }

  /** Deleting the first entry called `name` keeps every other entry in its
      relative order, drops exactly the first of the entries called `name`,
      and keeps any later ones. */
  lemma {:induction false} RemoveFirstKeepsOrder(env: seq<EnvVar>, name: string)
    ensures Unnamed(RemoveFirst(env, name), name) == Unnamed(env, name)
    ensures Named(RemoveFirst(env, name), name)
         == if Count(env, name) == 0 then [] else Named(env, name)[1..]
    ensures |RemoveFirst(env, name)| == |env| - (if Count(env, name) == 0 then 0 else 1)
  {
    var j := FirstIndex(env, name);
    CountZeroIff(env, name);
    if j < |env| {
      var pre, mid, post := env[..j], [env[j]], env[j+1..];
      assert env == pre + mid + post;
      NamedOfAbsent(pre, name);
      NamedAppend(pre, mid, name);
      NamedAppend(pre + mid, post, name);
      NamedAppend(pre, post, name);
      UnnamedAppend(pre, mid, name);
      UnnamedAppend(pre + mid, post, name);
      UnnamedAppend(pre, post, name);
    } else {
      NamedOfAbsent(env, name);
    }
  }

  /** A list with no entry called `name` is left as it is. */
  lemma {:induction false} RemoveFirstAbsent(env: seq<EnvVar>, name: string)
    requires Count(env, name) == 0
    ensures RemoveFirst(env, name) == env
  {
    CountZeroIff(env, name);
  }

  /** Appending an entry called `name` to a list that has none, then deleting
      the first entry called `name`, gives the list back. */
  lemma {:induction false} RemoveFirstOfAppended(env: seq<EnvVar>, name: string, value: string)
    requires Count(env, name) == 0
    ensures RemoveFirst(env + [EnvVar(name, value)], name) == env
  {
    var e := env + [EnvVar(name, value)];
    CountZeroIff(env, name);
    assert forall k :: 0 <= k < |env| ==> e[k] == env[k];
    assert e[|env|].name == name;
    assert FirstIndex(e, name) == |env|;
    assert e[..|env|] == env;
  }
}
