/**
 * The values the pipe-information page works on: device nodes, the
 * PipeManager's device table, module and client snapshots, autoload rules,
 * and the calls the page issues to the PresetsManager.
 */
module PipeTypes {

  datatype Option<T> = None | Some(value: T) {
    function GetOr(default: T): T {
      if Some? then value else default
    }
  }

  /** The two parallel halves of the page: input (sources) and output (sinks). */
  datatype PresetType = Input | Output {
    function Other(): PresetType {
      if Input? then Output else Input
    }
  }

  /** A node as the device lists hold it (NodeInfoHolder): its own id, its
      display name and the id of the physical device it belongs to. */
  datatype NodeInfo = NodeInfo(id: nat, name: string, deviceId: nat)

  /** An entry of the PipeManager's device table with its active routes. */
  datatype DeviceInfo = DeviceInfo(id: nat, inputRouteName: string, outputRouteName: string)

  datatype ModuleInfo = ModuleInfo(id: nat, name: string, description: string)

  datatype ClientInfo = ClientInfo(id: nat, name: string, api: string, access: string)

  /** A row of the autoload list: device name, route profile, preset. */
  datatype AutoloadRule = AutoloadRule(device: string, deviceProfile: string, presetName: string)

  /** An autoload rule as the store hands it over, any field possibly missing. */
  datatype RuleJson = RuleJson(device: Option<string>, deviceProfile: Option<string>, presetName: Option<string>)

  /** A request sent to the PresetsManager. */
  datatype StoreCall =
    | AddAutoload(kind: PresetType, presetName: string, device: string, deviceProfile: string)
    | RemoveAutoload(kind: PresetType, presetName: string, device: string, deviceProfile: string)

  /** What the page reads from the PipeManager at the moment a handler runs. */
  datatype PipeSnapshot = PipeSnapshot(
    listDevices: seq<DeviceInfo>,
    listModules: seq<ModuleInfo>,
    listClients: seq<ClientInfo>,
    defaultInputDevice: NodeInfo,
    defaultOutputDevice: NodeInfo)
  {
    function DefaultDevice(kind: PresetType): NodeInfo {
      if kind.Input? then defaultInputDevice else defaultOutputDevice
    }
  }
}
