/** What `Do` and `Undo` guarantee about the `K_SINK` entries of a Pod spec,
    under repeated application and in combination. */
module SinkBindingLaws {
  import opened EnvVars
  import opened Pods
  import opened SinkBinding

  /** No container of `ps` carries a `K_SINK` entry. */
  predicate NoSink(ps: PodSpec)
  {
    forall k :: 0 <= k < |AllContainers(ps)| ==> Count(AllContainers(ps)[k].env, SinkName) == 0
  }

  /** No container of `ps` carries more than one `K_SINK` entry. */
  predicate AtMostOneSink(ps: PodSpec)
  {
    forall k :: 0 <= k < |AllContainers(ps)| ==> Count(AllContainers(ps)[k].env, SinkName) <= 1
  }

  /** `after` is `before` with its first `K_SINK` entry removed and
      `K_SINK=<uri>` appended at the end. */
  predicate Rebound(before: seq<EnvVar>, after: seq<EnvVar>, uri: string)
  {
    |after| > 0 && after[|after| - 1] == SinkVar(uri)
    && FirstRemoved(before, after[..|after| - 1], SinkName)
  }

  /** How many entries `Undo` takes out of an environment list: one if it
      has a `K_SINK` entry, none otherwise. */
  function Removed(env: seq<EnvVar>): nat
  {
    if Count(env, SinkName) == 0 then 0 else 1
  }

  /** In every container, `Undo` splices out the first `K_SINK` entry and only
      that: all other entries keep their relative order, and any later
      `K_SINK` entries remain. */
  lemma {:induction false} UndoRemovesFirstSink(ps: PodSpec)
    ensures forall k :: 0 <= k < |AllContainers(ps)| ==>
      FirstRemoved(AllContainers(ps)[k].env, AllContainers(Undo(ps))[k].env, SinkName)
    ensures forall k :: 0 <= k < |AllContainers(ps)| ==>
      Unnamed(AllContainers(Undo(ps))[k].env, SinkName) == Unnamed(AllContainers(ps)[k].env, SinkName)
    ensures forall k :: 0 <= k < |AllContainers(ps)| ==>
      Named(AllContainers(Undo(ps))[k].env, SinkName)
      == if Count(AllContainers(ps)[k].env, SinkName) == 0 then []
         else Named(AllContainers(ps)[k].env, SinkName)[1..]
  {
    UndoPerContainer(ps);
    forall k | 0 <= k < |AllContainers(ps)|
      ensures Unnamed(AllContainers(Undo(ps))[k].env, SinkName) == Unnamed(AllContainers(ps)[k].env, SinkName)
      ensures Named(AllContainers(Undo(ps))[k].env, SinkName)
        == if Count(AllContainers(ps)[k].env, SinkName) == 0 then []
           else Named(AllContainers(ps)[k].env, SinkName)[1..]
    {
      RemoveFirstKeepsOrder(AllContainers(ps)[k].env, SinkName);
    }
  }

  /** A spec without `K_SINK` entries is left unchanged by `Undo`. */
  lemma {:induction false} UndoWithoutSinkIsIdentity(ps: PodSpec)
    requires NoSink(ps)
    ensures Undo(ps) == ps
  {
    UndoPerContainer(ps);
    forall k | 0 <= k < |AllContainers(ps)|
      ensures AllContainers(Undo(ps))[k] == AllContainers(ps)[k]
    {
      RemoveFirstAbsent(AllContainers(ps)[k].env, SinkName);
    }
    SpecsEqual(Undo(ps), ps);
  }

  /** With a URI, `Do` leaves every environment list ending in `K_SINK=<uri>`,
      preceded by the list `Undo` would leave; so each list changes length by
      one minus the number of entries `Undo` removed. */
  lemma {:induction false} DoAppendsSink(ps: PodSpec, u: string)
    ensures forall k :: 0 <= k < |AllContainers(ps)| ==>
      Rebound(AllContainers(ps)[k].env, AllContainers(Do(ps, Some(u)))[k].env, u)
    ensures forall k :: 0 <= k < |AllContainers(ps)| ==>
      |AllContainers(Do(ps, Some(u)))[k].env| == |AllContainers(ps)[k].env| - Removed(AllContainers(ps)[k].env) + 1
  {
    DoPerContainer(ps, Some(u));
    forall k | 0 <= k < |AllContainers(ps)|
      ensures Rebound(AllContainers(ps)[k].env, AllContainers(Do(ps, Some(u)))[k].env, u)
      ensures |AllContainers(Do(ps, Some(u)))[k].env| == |AllContainers(ps)[k].env| - Removed(AllContainers(ps)[k].env) + 1
    {
      var e := AllContainers(ps)[k].env;
      RemoveFirstKeepsOrder(e, SinkName);
      assert (RemoveFirst(e, SinkName) + [SinkVar(u)])[..|RemoveFirst(e, SinkName)|] == RemoveFirst(e, SinkName);
    }
  }

  /** `K_SINK` entries after `Do` with a URI: if the container had none,
      the appended one; otherwise as many as before, since the first is
      replaced and any duplicates stay. */
  lemma {:induction false} DoSinkCount(ps: PodSpec, u: string)
    ensures forall k :: 0 <= k < |AllContainers(ps)| ==>
      Count(AllContainers(Do(ps, Some(u)))[k].env, SinkName)
      == if Count(AllContainers(ps)[k].env, SinkName) == 0 then 1 else Count(AllContainers(ps)[k].env, SinkName)
    ensures forall k :: 0 <= k < |AllContainers(ps)| ==>
      Named(AllContainers(Do(ps, Some(u)))[k].env, SinkName)
      == (if Count(AllContainers(ps)[k].env, SinkName) == 0 then []
          else Named(AllContainers(ps)[k].env, SinkName)[1..]) + [SinkVar(u)]
  {
    DoPerContainer(ps, Some(u));
    forall k | 0 <= k < |AllContainers(ps)|
      ensures Named(AllContainers(Do(ps, Some(u)))[k].env, SinkName)
        == (if Count(AllContainers(ps)[k].env, SinkName) == 0 then []
            else Named(AllContainers(ps)[k].env, SinkName)[1..]) + [SinkVar(u)]
    {
      var e := AllContainers(ps)[k].env;
      RemoveFirstKeepsOrder(e, SinkName);
      NamedAppend(RemoveFirst(e, SinkName), [SinkVar(u)], SinkName);
    }
  }

  /** From a spec with at most one `K_SINK` entry per container, `Do` leaves
      exactly one per container, carrying the new URI. */
  lemma {:induction false} DoLeavesExactlyOneSink(ps: PodSpec, u: string)
    requires AtMostOneSink(ps)
    ensures forall k :: 0 <= k < |AllContainers(ps)| ==>
      Named(AllContainers(Do(ps, Some(u)))[k].env, SinkName) == [SinkVar(u)]
    ensures AtMostOneSink(Do(ps, Some(u)))
  {
    DoSinkCount(ps, u);
    DoPerContainer(ps, Some(u));
  }

  /** With at most one `K_SINK` entry per container, `Undo` clears them all. */
  lemma {:induction false} UndoClearsSingleSink(ps: PodSpec)
    requires AtMostOneSink(ps)
    ensures NoSink(Undo(ps))
  {
    UndoRemovesFirstSink(ps);
    UndoPerContainer(ps);
  }

  /** One container, rebound twice: the second `Do` removes exactly the
      entry the first appended. */
  lemma {:induction false} DoContainerTwice(c: Container, u1: string, u2: string)
    requires Count(c.env, SinkName) <= 1
    ensures DoContainer(DoContainer(c, Some(u1)), Some(u2)) == DoContainer(c, Some(u2))
    ensures DoContainer(DoContainer(c, Some(u1)), None) == UndoContainer(c)
  {
    RemoveFirstKeepsOrder(c.env, SinkName);
    RemoveFirstOfAppended(RemoveFirst(c.env, SinkName), SinkName, u1);
  }

  /** Rebinding to a new URI replaces the old binding rather than adding to
      it, provided no container starts with duplicate `K_SINK` entries. */
  lemma {:induction false} DoOverwrites(ps: PodSpec, u1: string, u2: string)
    requires AtMostOneSink(ps)
    ensures Do(Do(ps, Some(u1)), Some(u2)) == Do(ps, Some(u2))
  {
    var once := Do(ps, Some(u1));
    DoPerContainer(ps, Some(u1));
    DoPerContainer(once, Some(u2));
    DoPerContainer(ps, Some(u2));
    forall k | 0 <= k < |AllContainers(ps)|
      ensures AllContainers(Do(once, Some(u2)))[k] == AllContainers(Do(ps, Some(u2)))[k]
    {
      DoContainerTwice(AllContainers(ps)[k], u1, u2);
    }
    SpecsEqual(Do(once, Some(u2)), Do(ps, Some(u2)));
  }

  /** Repeating `Do` with the same URI changes nothing more, provided no
      container starts with duplicate `K_SINK` entries. */
  lemma {:induction false} DoIdempotent(ps: PodSpec, u: string)
    requires AtMostOneSink(ps)
    ensures Do(Do(ps, Some(u)), Some(u)) == Do(ps, Some(u))
  {
    DoOverwrites(ps, u, u);
  }

  /** A later `Do` without a URI tears down the binding an earlier `Do`
      made: the result is `Undo` of the original, with no `K_SINK` left. */
  lemma {:induction false} UnbindAfterBind(ps: PodSpec, u: string)
    requires AtMostOneSink(ps)
    ensures Do(Do(ps, Some(u)), None) == Undo(ps)
    ensures NoSink(Do(Do(ps, Some(u)), None))
  {
    var once := Do(ps, Some(u));
    DoPerContainer(ps, Some(u));
    UndoPerContainer(once);
    UndoPerContainer(ps);
    forall k | 0 <= k < |AllContainers(ps)|
      ensures AllContainers(Undo(once))[k] == AllContainers(Undo(ps))[k]
    {
      DoContainerTwice(AllContainers(ps)[k], u, u);
    }
    SpecsEqual(Undo(once), Undo(ps));
    UndoClearsSingleSink(ps);
  }

  /** Binding a spec that has no `K_SINK` entries and then undoing the
      binding gives the original spec back. */
  lemma {:induction false} RoundTrip(ps: PodSpec, u: string)
    requires NoSink(ps)
    ensures Undo(Do(ps, Some(u))) == ps
  {
    var bound := Do(ps, Some(u));
    DoPerContainer(ps, Some(u));
    UndoPerContainer(bound);
    forall k | 0 <= k < |AllContainers(ps)|
      ensures AllContainers(Undo(bound))[k] == AllContainers(ps)[k]
    {
      var e := AllContainers(ps)[k].env;
      RemoveFirstAbsent(e, SinkName);
      RemoveFirstOfAppended(e, SinkName, u);
    }
    SpecsEqual(Undo(bound), ps);
  }

  /** A sequence that equals itself shifted left by one, with `s` filling
      the last place, holds only `s`. */
  lemma {:induction false} ShiftFixedIsConstant<T>(xs: seq<T>, s: T, i: nat)
    requires xs == (xs + [s])[1..]
    requires i < |xs|
    ensures xs[i] == s
    decreases |xs| - i
  {
    if i + 1 < |xs| {
      ShiftFixedIsConstant(xs, s, i + 1);
      assert xs[i] == (xs + [s])[i + 1];
    } else {
      assert xs[i] == (xs + [s])[i + 1];
    }
  }

  /** A non-empty sequence equals itself shifted left by one with `s`
      filling the last place exactly when it holds only `s`. */
  lemma {:induction false} ShiftFixedIff<T>(xs: seq<T>, s: T)
    requires |xs| > 0
    ensures xs[1..] + [s] == xs <==> forall i :: 0 <= i < |xs| ==> xs[i] == s
  {
    assert (xs + [s])[1..] == xs[1..] + [s];
    if xs[1..] + [s] == xs {
      forall i | 0 <= i < |xs|
        ensures xs[i] == s
      {
        ShiftFixedIsConstant(xs, s, i);
      }
    }
  }

  /** The environment list `env` holds only `K_SINK=<uri>` from its first
      `K_SINK` entry to its end. */
  predicate SettledFrom(env: seq<EnvVar>, uri: string)
  {
    forall i :: FirstIndex(env, SinkName) <= i < |env| ==> env[i] == SinkVar(uri)
  }

  /** Exactly when a second `Do` with the same URI leaves one container
      alone: when the list the first `Do` left holds only `K_SINK=<u>` from
      its first `K_SINK` entry onwards. */
  lemma {:induction false} DoContainerSettlesIff(c: Container, u: string)
    ensures DoContainer(DoContainer(c, Some(u)), Some(u)) == DoContainer(c, Some(u))
      <==> SettledFrom(DoContainer(c, Some(u)).env, u)
  {
    var s := SinkVar(u);
    var e := DoContainer(c, Some(u)).env;
    assert e[|e| - 1] == s;
    var j := FirstIndex(e, SinkName);
    assert j < |e|;
    var pre, xs := e[..j], e[j..];
    assert e == pre + xs;
    assert e[j+1..] == xs[1..];
    var again := RemoveFirst(e, SinkName) + [s];
    assert DoContainer(DoContainer(c, Some(u)), Some(u)).env == again;
    assert again == pre + (xs[1..] + [s]);
    ShiftFixedIff(xs, s);
    if again == e {
      assert (pre + (xs[1..] + [s]))[j..] == xs[1..] + [s];
      assert (pre + xs)[j..] == xs;
    }
    assert SettledFrom(e, u) <==> forall i :: 0 <= i < |xs| ==> xs[i] == s by {
      forall i | 0 <= i < |xs|
        ensures xs[i] == e[j + i]
      {
      }
    }
  }

  /** Exactly when a second `Do` with the same URI changes nothing: when
      every container the first `Do` produced is settled. */
  lemma {:induction false} DoSettlesIff(ps: PodSpec, u: string)
    ensures Do(Do(ps, Some(u)), Some(u)) == Do(ps, Some(u))
      <==> forall k :: 0 <= k < |AllContainers(ps)| ==>
             SettledFrom(AllContainers(Do(ps, Some(u)))[k].env, u)
  {
    var once := Do(ps, Some(u));
    DoPerContainer(ps, Some(u));
    DoPerContainer(once, Some(u));
    forall k | 0 <= k < |AllContainers(ps)|
      ensures AllContainers(Do(once, Some(u)))[k] == AllContainers(once)[k]
        <==> SettledFrom(AllContainers(once)[k].env, u)
    {
      DoContainerSettlesIff(AllContainers(ps)[k], u);
    }
    if forall k :: 0 <= k < |AllContainers(ps)| ==> SettledFrom(AllContainers(once)[k].env, u) {
      SpecsEqual(Do(once, Some(u)), once);
    }
  }

  /** `K_SINK` entries of one container after `Do` with a URI. */
  lemma {:induction false} DoContainerNamed(c: Container, u: string)
    ensures Named(DoContainer(c, Some(u)).env, SinkName)
      == (if Count(c.env, SinkName) == 0 then [] else Named(c.env, SinkName)[1..]) + [SinkVar(u)]
  {
    RemoveFirstKeepsOrder(c.env, SinkName);
    NamedAppend(RemoveFirst(c.env, SinkName), [SinkVar(u)], SinkName);
  }

  /** One container with a stale duplicate `K_SINK` entry is changed again
      by a second `Do` with the same URI. */
  lemma {:induction false} DoContainerNotFixed(c: Container, u: string, i: nat)
    requires 1 <= i < Count(c.env, SinkName)
    requires Named(c.env, SinkName)[i] != SinkVar(u)
    ensures DoContainer(DoContainer(c, Some(u)), Some(u)) != DoContainer(c, Some(u))
  {
    var once := DoContainer(c, Some(u));
    var s := SinkVar(u);
    var xs := Named(c.env, SinkName)[1..];
    DoContainerNamed(c, u);
    DoContainerNamed(once, u);
    assert Named(once.env, SinkName) == xs + [s];
    if DoContainer(once, Some(u)) == once {
      assert xs + [s] == (xs + [s])[1..] + [s];
      assert xs == (xs + [s])[1..] by {
        assert xs == (xs + [s])[..|xs|];
        assert (xs + [s])[1..] == ((xs + [s])[1..] + [s])[..|xs|];
      }
      ShiftFixedIsConstant(xs, s, i - 1);
      assert false;
    }
  }

  /** The first-match-only removal means `Do` need not be idempotent on a
      container that starts with duplicate `K_SINK` entries: if any of them
      after the first does not already carry `u`, a second `Do` with the
      same `u` changes the spec again. */
  lemma {:induction false} DoNotFixedWithStaleDuplicate(ps: PodSpec, u: string, k: nat, i: nat)
    requires k < |AllContainers(ps)|
    requires 1 <= i < Count(AllContainers(ps)[k].env, SinkName)
    requires Named(AllContainers(ps)[k].env, SinkName)[i] != SinkVar(u)
    ensures Do(Do(ps, Some(u)), Some(u)) != Do(ps, Some(u))
  {
    var once := Do(ps, Some(u));
    DoPerContainer(ps, Some(u));
    DoPerContainer(once, Some(u));
    DoContainerNotFixed(AllContainers(ps)[k], u, i);
    assert AllContainers(Do(once, Some(u)))[k] != AllContainers(once)[k];
  }

  /** One container with `FOO=bar`: binding appends the sink entry, and
      rebinding to a second URI replaces it instead of adding another. */
  lemma {:induction false} RebindScenario()
    ensures var t := PodSpec([], [Container("app", "img", [EnvVar("FOO", "bar")])]);
      var once := Do(t, Some("http://sink.example/"));
      var twice := Do(once, Some("http://sink2.example/"));
      && once.containers[0].env == [EnvVar("FOO", "bar"), EnvVar("K_SINK", "http://sink.example/")]
      && twice.containers[0].env == [EnvVar("FOO", "bar"), EnvVar("K_SINK", "http://sink2.example/")]
  {
  }

  /** A container that starts with two `K_SINK` entries: `Undo` leaves the
      second in place, and `Do` needs two calls to settle. */
  lemma {:induction false} DuplicateSinkScenario()
    ensures var t := PodSpec([], [Container("app", "img", [EnvVar("K_SINK", "a"), EnvVar("K_SINK", "b")])]);
      && Undo(t).containers[0].env == [EnvVar("K_SINK", "b")]
      && Do(t, Some("u")).containers[0].env == [EnvVar("K_SINK", "b"), EnvVar("K_SINK", "u")]
      && Do(Do(t, Some("u")), Some("u")).containers[0].env == [EnvVar("K_SINK", "u"), EnvVar("K_SINK", "u")]
  {
  }

  /** Duplicates need not block settling: `[K_SINK=a, K_SINK=u]` is settled
      after one `Do` with `u`, while `[K_SINK=a, K_SINK=u, FOO=b]` is not,
      because the second `Do` moves the remaining `K_SINK=u` behind `FOO=b`. */
  lemma {:induction false} SettlingScenario()
    ensures var t := PodSpec([], [Container("app", "img", [EnvVar("K_SINK", "a"), EnvVar("K_SINK", "u")])]);
      Do(Do(t, Some("u")), Some("u")) == Do(t, Some("u"))
    ensures var t := PodSpec([], [Container("app", "img", [EnvVar("K_SINK", "a"), EnvVar("K_SINK", "u"), EnvVar("FOO", "b")])]);
      && Do(t, Some("u")).containers[0].env == [EnvVar("K_SINK", "u"), EnvVar("FOO", "b"), EnvVar("K_SINK", "u")]
      && Do(Do(t, Some("u")), Some("u")).containers[0].env == [EnvVar("FOO", "b"), EnvVar("K_SINK", "u"), EnvVar("K_SINK", "u")]
  {
  }
}
