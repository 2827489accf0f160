/** The values the node manager works on. */
module Types {

  datatype Option<+T> = None | Some(value: T)

  type NodeId = string

  /** Engines and spawned tasks are numbered in the order they come to life. */
  type EngineId = nat
  type TaskId = nat

  datatype Transport = H2 | Quic

  datatype NodeKind = ExposeAgent | MeshAgent | Hub | Ingress

  /** The runtime state shared by the four engines. */
  datatype NodeState =
    | Starting
    | Connecting
    | Connected(agentId: string)
    | Reconnecting(reason: string, backoffSecs: nat)
    | Running
    | Stopping
    | Stopped
    | Failed(error: string)

  /** A pack directory: the path as written and the path the file system resolves it to. */
  datatype PackDir = PackDir(text: string, canonical: string)

  /** What the manager records about a node; all but the preferences is read from its pack. */
  datatype Spec = Spec(
    kind: NodeKind,
    name: string,
    principal: Option<string>,
    dir: PackDir,
    transport: Option<Transport>,
    quicAddr: Option<string>,
    packGeneration: nat,
    digest: string,
    addresses: map<string, string>)

  /** The persisted shape of one node. */
  datatype ProfileEntry = ProfileEntry(
    dir: PackDir,
    transport: Option<Transport>,
    quicAddr: Option<string>,
    addresses: map<string, string>,
    desiredRunning: bool)

  type Profile = map<NodeId, ProfileEntry>

  /** What a readable pack says about its node. */
  datatype Pack = Pack(kind: NodeKind, node: string, principal: string, generation: nat, digest: string)
}
