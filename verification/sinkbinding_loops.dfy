/** The index-based loops of the binding's mutations, step by step as they
    walk the container and environment lists, shown to compute the same
    spec as the functional definitions in `SinkBinding`. */
module SinkBindingLoops {
  import opened EnvVars
  import opened Pods
  import opened SinkBinding

  /** Scans `env` from the front; at the first entry called `name` splices
      it out and stops. */
  method RemoveFirstLoop(env: seq<EnvVar>, name: string) returns (r: seq<EnvVar>)
    ensures r == RemoveFirst(env, name)
  {
    r := env;
    var j := 0;
    while j < |env|
      invariant 0 <= j <= |env|
      invariant forall k :: 0 <= k < j ==> env[k].name != name
    {
      if env[j].name == name {
        assert FirstIndex(env, name) == j;
        r := env[..j] + env[j+1..];
        return;
      }
      j := j + 1;
    }
    assert FirstIndex(env, name) == |env|;
  }

  /** Undo's pass over one list of containers. */
  method UndoEachLoop(cs: seq<Container>) returns (ds: seq<Container>)
    ensures ds == UndoEach(cs)
  {
    ds := cs;
    var i := 0;
    while i < |ds|
      invariant 0 <= i <= |ds| == |cs|
      invariant forall k :: 0 <= k < i ==> ds[k] == UndoContainer(cs[k])
      invariant forall k :: i <= k < |ds| ==> ds[k] == cs[k]
    {
      var env := RemoveFirstLoop(ds[i].env, SinkName);
      ds := ds[i := ds[i].(env := env)];
      i := i + 1;
    }
  }

  /** Do's append pass over one list of containers. */
  method InjectEachLoop(cs: seq<Container>, uri: string) returns (ds: seq<Container>)
    ensures ds == InjectEach(cs, uri)
  {
    ds := cs;
    var i := 0;
    while i < |ds|
      invariant 0 <= i <= |ds| == |cs|
      invariant forall k :: 0 <= k < i ==> ds[k] == InjectContainer(cs[k], uri)
      invariant forall k :: i <= k < |ds| ==> ds[k] == cs[k]
    {
      ds := ds[i := ds[i].(env := ds[i].env + [SinkVar(uri)])];
      i := i + 1;
    }
  }

  /** Undo: init containers first, then containers. */
  method UndoLoop(ps: PodSpec) returns (r: PodSpec)
    ensures r == Undo(ps)
  {
    var inits := UndoEachLoop(ps.initContainers);
    var cs := UndoEachLoop(ps.containers);
    r := PodSpec(inits, cs);
  }

  /** Do: Undo unconditionally, stop when no URI is known, otherwise append
      to init containers, then to containers. */
  method DoLoop(ps: PodSpec, uri: Option<string>) returns (r: PodSpec)
    ensures r == Do(ps, uri)
  {
    r := UndoLoop(ps);
    if uri.None? {
      return;
    }
    var inits := InjectEachLoop(r.initContainers, uri.value);
    var cs := InjectEachLoop(r.containers, uri.value);
    r := PodSpec(inits, cs);
  }
}
