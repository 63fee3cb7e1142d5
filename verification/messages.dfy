/**
 * The RPC messages of the host-agent service (the generated protobuf classes
 * `HostAgentInfo`, `HostAgentInfo.InstanceInfo` and `Command`).
 */
module Messages {

  /** One installed software instance; `instanceState` is the number of the schema's InstanceState enum. */
  datatype InstanceInfo = InstanceInfo(id: string, name: string, versionId: string, instanceState: int)

  /** The report an agent sends; an empty `uid` means that no uid was assigned yet. */
  datatype HostAgentInfo = HostAgentInfo(token: string, uid: string, hostname: string, instances: seq<InstanceInfo>)

  /** The `cmd` oneof of `Command`: exactly one variant is active. */
  datatype Command =
    | AssignHost(uid: string)
    | Install(id: string)
    | SetDefault(id: string)
    | ShutdownHost
    | Start(id: string)
    | Stop(id: string)
    | Uninstall(id: string)
}
