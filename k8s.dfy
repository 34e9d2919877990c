/** The parts of the Kubernetes core/v1 container types that the Vault mutator touches:
    environment variables, volume mounts, and a container holding a sequence of each. */
module K8s {

  /** An environment variable of a container: a name and a plain string value. */
  datatype EnvVar = EnvVar(name: string, value: string)

  /** A volume mount. The empty subPath means "no sub-path": the whole volume is mounted. */
  datatype VolumeMount = VolumeMount(name: string, mountPath: string, subPath: string)

  /** A container specification: the two sequences the mutator extends, and every other
      field of the container, carried through as one opaque value of type Rest. */
  datatype Container<Rest> = Container(env: seq<EnvVar>, volumeMounts: seq<VolumeMount>, rest: Rest)

  /** The number of variables in env called name. Kubernetes does not require names to be
      unique, so this is how "emitted once", "emitted" and "not emitted" are stated. */
  function Occurrences(env: seq<EnvVar>, name: string): (n: nat)
    ensures n <= |env|
    ensures n == 0 <==> forall i :: 0 <= i < |env| ==> env[i].name != name
  {
    if env == [] then 0
    else
      assert forall i :: 1 <= i < |env| ==> env[i] == env[1..][i - 1];
      (if env[0].name == name then 1 else 0) + Occurrences(env[1..], name)
  }

  /** Counting distributes over appending, which is the only way env grows. */
  lemma {:induction false} OccurrencesAppend(a: seq<EnvVar>, b: seq<EnvVar>, name: string)
    ensures Occurrences(a + b, name) == Occurrences(a, name) + Occurrences(b, name)
  {
    if a == [] {
      assert a + b == b;
    } else {
      assert (a + b)[1..] == a[1..] + b;
      OccurrencesAppend(a[1..], b, name);
    }
  }
}
