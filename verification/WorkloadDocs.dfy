/** The parsed documents of workloads: user data, specification and the chain of
    inheritance that both of them follow. */
module WorkloadDocs {
  import opened Wrappers

  /** A YAML value.  Nil is an empty entry, as in a key without a value. */
  datatype Value =
    | Scalar(text: string)
    | Sequence(items: seq<Value>)
    | Mapping(entries: map<string, Value>)
    | Nil

  type Config = map<string, Value>

  datatype PortMapping = PortMapping(host: int, guest: int)

  datatype Mount = Mount(tag: string, securityModel: string, path: string)

  datatype Drive = Drive(path: string, format: string, options: string)

  /** A VMSpec value; an empty `hostIP` is an address that is not set. */
  datatype Spec = Spec(
    memMiB: int, diskGiB: int, cpus: int, qemuport: nat,
    ports: seq<PortMapping>, mounts: seq<Mount>, drives: seq<Drive>, hostIP: seq<int>)

  datatype WorkloadSpec = WorkloadSpec(baseURL: string, baseName: string, name: string, nested: bool, bios: string, vm: Spec, inherits: string)

  /** A workload and the chain it inherits from; the chain is finite, as
      createWorkload needs it to be. */
  datatype Chain = Chain(spec: WorkloadSpec, userData: Config, parent: Option<Chain>)
}
