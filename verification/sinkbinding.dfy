/** The sink binding's two mutations of a workload's Pod spec.

    `Undo` deletes, from every init container and then every container, the
    first environment entry named `K_SINK`. `Do` first performs `Undo`, then,
    when a sink URI is known, appends `K_SINK=<uri>` to every container's
    environment. The URI is an explicit parameter: `None` stands for a
    context that carries no sink URI. */
module SinkBinding {
  import opened EnvVars
  import opened Pods

  datatype Option<T> = None | Some(value: T)

  /** The entry that tells a workload where its sink is. */
  function SinkVar(uri: string): EnvVar
  {
    EnvVar(SinkName, uri)
  }

  /** `Undo`'s effect on one container. */
  function UndoContainer(c: Container): Container
  {
    c.(env := RemoveFirst(c.env, SinkName))
  }

  /** The append `Do` performs on one container once `Undo` has run. */
  function InjectContainer(c: Container, uri: string): Container
  {
    c.(env := c.env + [SinkVar(uri)])
  }

  /** `Do`'s effect on one container. */
  function DoContainer(c: Container, uri: Option<string>): Container
  {
    match uri
    case None => UndoContainer(c)
    case Some(u) => InjectContainer(UndoContainer(c), u)
  }

  function UndoEach(cs: seq<Container>): (ds: seq<Container>)
    ensures |ds| == |cs|
    ensures forall i :: 0 <= i < |cs| ==> ds[i] == UndoContainer(cs[i])
  {
    seq(|cs|, i requires 0 <= i < |cs| => UndoContainer(cs[i]))
  }

  function InjectEach(cs: seq<Container>, uri: string): (ds: seq<Container>)
    ensures |ds| == |cs|
    ensures forall i :: 0 <= i < |cs| ==> ds[i] == InjectContainer(cs[i], uri)
  {
    seq(|cs|, i requires 0 <= i < |cs| => InjectContainer(cs[i], uri))
  }

  /** Removes one `K_SINK` entry from every container. Nothing but
      environments changes: no container is added, dropped or reordered. */
  function Undo(ps: PodSpec): (r: PodSpec)
    ensures SameShape(ps, r)
  {
    PodSpec(UndoEach(ps.initContainers), UndoEach(ps.containers))
  }

  /** Rebinds every container to `uri`. Nothing but environments changes;
      without a URI the net effect is exactly `Undo`. */
  function Do(ps: PodSpec, uri: Option<string>): (r: PodSpec)
    ensures SameShape(ps, r)
    ensures uri.None? ==> r == Undo(ps)
  {
    var undone := Undo(ps);
    match uri
    case None => undone
    case Some(u) => PodSpec(InjectEach(undone.initContainers, u), InjectEach(undone.containers, u))
  }

  /** `Undo` acts on each container of the spec independently. */
  lemma {:induction false} UndoPerContainer(ps: PodSpec)
    ensures |AllContainers(Undo(ps))| == |AllContainers(ps)|
    ensures forall k :: 0 <= k < |AllContainers(ps)| ==>
      AllContainers(Undo(ps))[k] == UndoContainer(AllContainers(ps)[k])
  {
  }

  /** `Do` acts on each container of the spec independently. */
  lemma {:induction false} DoPerContainer(ps: PodSpec, uri: Option<string>)
    ensures |AllContainers(Do(ps, uri))| == |AllContainers(ps)|
    ensures forall k :: 0 <= k < |AllContainers(ps)| ==>
      AllContainers(Do(ps, uri))[k] == DoContainer(AllContainers(ps)[k], uri)
  {
  }
}
