/** The part of a workload's Pod template that the sink binding edits: two
    ordered lists of containers, each container carrying an environment list. */
module Pods {
  import opened EnvVars

  /** A container. `name` and `image` stand for every field other than the
      environment, which the binding never touches. */
  datatype Container = Container(name: string, image: string, env: seq<EnvVar>)

  /** The Pod spec of a workload template: init containers, then containers. */
  datatype PodSpec = PodSpec(initContainers: seq<Container>, containers: seq<Container>)

  /** Every container of the spec, init containers first, in the order the
      binding visits them. */
  function AllContainers(ps: PodSpec): (cs: seq<Container>)
    ensures |cs| == |ps.initContainers| + |ps.containers|
    ensures forall k :: 0 <= k < |ps.initContainers| ==> cs[k] == ps.initContainers[k]
    ensures forall k :: 0 <= k < |ps.containers| ==> cs[|ps.initContainers| + k] == ps.containers[k]
  {
    ps.initContainers + ps.containers
  }

  /** `c` and `d` agree on every field except the environment. */
  predicate SameExceptEnv(c: Container, d: Container)
  {
    c.name == d.name && c.image == d.image
  }

  /** `ds` has as many containers as `cs`, in the same order, each differing
      from its counterpart at most in its environment. */
  predicate SameShapeSeq(cs: seq<Container>, ds: seq<Container>)
  {
    |cs| == |ds| && forall i :: 0 <= i < |cs| ==> SameExceptEnv(cs[i], ds[i])
  }

  /** `b` is `a` with at most the environments of its containers changed. */
  predicate SameShape(a: PodSpec, b: PodSpec)
  {
    SameShapeSeq(a.initContainers, b.initContainers) && SameShapeSeq(a.containers, b.containers)
  }

  /** Two specs with equally many init containers and the same containers
      overall are equal. */
  lemma {:induction false} SpecsEqual(a: PodSpec, b: PodSpec)
    requires |a.initContainers| == |b.initContainers|
    requires AllContainers(a) == AllContainers(b)
    ensures a == b
  {
  }
}
