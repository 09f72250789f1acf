/**
 * The pipe-information page (PipeInfoUi) as a state machine: every list the
 * page shows is a sequence field, the two stored device names are string
 * fields, each device dropdown's selected position is a nat (no item is
 * selected when it is past the end of the list), and the requests sent to
 * the PresetsManager are appended to a log. Each signal handler of the page
 * is a method that the caller invokes directly; its contract ties the new
 * state to the list functions of Registry and Autoload.
 */
module PipeInfo {
  import opened PipeTypes
  import opened Registry
  import opened Autoload
  import opened Selection

  /** The profile scan of the autoload add button: the route of the first
      device table entry with the node's device id, "" if there is none. */
  method FindRouteProfile(devices: seq<DeviceInfo>, deviceId: nat, kind: PresetType) returns (profile: string)
    ensures profile == ResolveProfile(devices, deviceId, kind)
    ensures (exists i :: 0 <= i < |devices| && devices[i].id == deviceId) || profile == ""
  {
    profile := "";
    var i := 0;
    while i < |devices|
      invariant 0 <= i <= |devices|
      invariant profile == ""
      invariant forall j :: 0 <= j < i ==> devices[j].id != deviceId
    {
      if devices[i].id == deviceId {
        profile := RouteName(devices[i], kind);
        ProfileIsFirstMatchRoute(devices, deviceId, kind, i);
        return;
      }
      i := i + 1;
    }
  }

  /** The rule scan of the autoload add button: the position of the first
      visible rule with the node's name and profile, |rules| if none. */
  method FindRule(rules: seq<AutoloadRule>, device: string, profile: string) returns (n: nat)
    ensures n <= |rules|
    ensures n < |rules| ==> rules[n].device == device && rules[n].deviceProfile == profile
    ensures forall j :: 0 <= j < n ==> !IsFor(rules[j], device, profile)
  {
    n := 0;
    while n < |rules|
      invariant 0 <= n <= |rules|
      invariant forall j :: 0 <= j < n ==> !IsFor(rules[j], device, profile)
    {
      if device == rules[n].device && profile == rules[n].deviceProfile {
        return;
      }
      n := n + 1;
    }
  }

  class PipeInfoUi {
    // device lists (input_devices_model, output_devices_model)
    var inputDevices: seq<NodeInfo>
    var outputDevices: seq<NodeInfo>
    // preset names offered by the autoload dropdowns (*_presets_string_list)
    var inputPresets: seq<string>
    var outputPresets: seq<string>
    // visible autoload rules (autoloading_*_model)
    var autoloadInput: seq<AutoloadRule>
    var autoloadOutput: seq<AutoloadRule>
    // diagnostic mirrors (modules_model, clients_model)
    var modules: seq<ModuleInfo>
    var clients: seq<ClientInfo>
    // the stored "input-device" and "output-device" settings
    var inputDeviceName: string
    var outputDeviceName: string
    // selected positions of the stream device dropdowns
    var inputSelected: nat
    var outputSelected: nat
    // selected positions of the autoload device dropdowns
    var autoloadInputSelected: nat
    var autoloadOutputSelected: nat
    // requests sent to the PresetsManager, oldest first
    var calls: seq<StoreCall>

    function Devices(kind: PresetType): seq<NodeInfo>
      reads this`inputDevices, this`outputDevices
    {
      if kind.Input? then inputDevices else outputDevices
    }

    function Presets(kind: PresetType): seq<string>
      reads this`inputPresets, this`outputPresets
    {
      if kind.Input? then inputPresets else outputPresets
    }

    function Rules(kind: PresetType): seq<AutoloadRule>
      reads this`autoloadInput, this`autoloadOutput
    {
      if kind.Input? then autoloadInput else autoloadOutput
    }

    function StoredName(kind: PresetType): string
      reads this`inputDeviceName, this`outputDeviceName
    {
      if kind.Input? then inputDeviceName else outputDeviceName
    }

    function Selected(kind: PresetType): nat
      reads this`inputSelected, this`outputSelected
    {
      if kind.Input? then inputSelected else outputSelected
    }

    function AutoloadSelected(kind: PresetType): nat
      reads this`autoloadInputSelected, this`autoloadOutputSelected
    {
      if kind.Input? then autoloadInputSelected else autoloadOutputSelected
    }

    /** Neither device list holds two nodes with the same id. */
    ghost predicate Valid()
      reads this`inputDevices, this`outputDevices
    {
      UniqueIds(inputDevices) && UniqueIds(outputDevices)
    }

    // -------------------------------------------------------------------
    // Field updates by preset type

    method SetDevices(kind: PresetType, list: seq<NodeInfo>)
      modifies this`inputDevices, this`outputDevices
      ensures Devices(kind) == list
      ensures Devices(kind.Other()) == old(Devices(kind.Other()))
    {
      if kind.Input? { inputDevices := list; } else { outputDevices := list; }
    }

    method SetPresets(kind: PresetType, list: seq<string>)
      modifies this`inputPresets, this`outputPresets
      ensures Presets(kind) == list
      ensures Presets(kind.Other()) == old(Presets(kind.Other()))
    {
      if kind.Input? { inputPresets := list; } else { outputPresets := list; }
    }

    method SetRules(kind: PresetType, list: seq<AutoloadRule>)
      modifies this`autoloadInput, this`autoloadOutput
      ensures Rules(kind) == list
      ensures Rules(kind.Other()) == old(Rules(kind.Other()))
    {
      if kind.Input? { autoloadInput := list; } else { autoloadOutput := list; }
    }

    method SetStoredName(kind: PresetType, name: string)
      modifies this`inputDeviceName, this`outputDeviceName
      ensures StoredName(kind) == name
      ensures StoredName(kind.Other()) == old(StoredName(kind.Other()))
    {
      if kind.Input? { inputDeviceName := name; } else { outputDeviceName := name; }
    }

    // -------------------------------------------------------------------
    // Construction

    /** Builds the page: the member initialisers leave every list empty but
        the two preset-name lists, which hold a placeholder; the body then
        fills the lists and selects (see Setup). */
    constructor (pm: PipeSnapshot, inputNames: seq<string>, outputNames: seq<string>,
                 inputProfiles: seq<RuleJson>, outputProfiles: seq<RuleJson>,
                 storedInput: string, storedOutput: string)
      ensures Valid()
      ensures inputDevices == [] && outputDevices == []
      ensures inputPresets == inputNames && outputPresets == outputNames
      ensures autoloadInput == DecodeRules(inputProfiles) && autoloadOutput == DecodeRules(outputProfiles)
      ensures modules == pm.listModules && clients == pm.listClients
      ensures inputDeviceName == storedInput && outputDeviceName == storedOutput
      ensures inputSelected == 0 && outputSelected == 0
      ensures autoloadInputSelected == 0 && autoloadOutputSelected == 0
      ensures calls == []
    {
      inputDevices, outputDevices := [], [];
      inputPresets, outputPresets := ["initial_value"], ["initial_value"];
      autoloadInput, autoloadOutput := [], [];
      modules, clients := [], [];
      inputDeviceName, outputDeviceName := storedInput, storedOutput;
      inputSelected, outputSelected := 0, 0;
      autoloadInputSelected, autoloadOutputSelected := 0, 0;
      calls := [];
      new;
      Setup(pm, inputNames, outputNames, inputProfiles, outputProfiles);
    }

    /** The constructor body: fill both preset-name lists and both autoload
        lists, re-select the stored devices (the device lists are still
        empty, so nothing is selected), then take the module and client
        snapshots. */
    method Setup(pm: PipeSnapshot, inputNames: seq<string>, outputNames: seq<string>,
                 inputProfiles: seq<RuleJson>, outputProfiles: seq<RuleJson>)
      requires inputDevices == [] && outputDevices == []
      requires inputPresets == ["initial_value"] && outputPresets == ["initial_value"]
      requires autoloadInput == [] && autoloadOutput == []
      requires inputSelected == 0 && outputSelected == 0
      modifies this`inputPresets, this`outputPresets, this`autoloadInput, this`autoloadOutput
      modifies this`inputSelected, this`outputSelected, this`inputDeviceName, this`outputDeviceName
      modifies this`modules, this`clients
      ensures inputPresets == inputNames && outputPresets == outputNames
      ensures autoloadInput == DecodeRules(inputProfiles) && autoloadOutput == DecodeRules(outputProfiles)
      ensures modules == pm.listModules && clients == pm.listClients
      ensures inputDeviceName == old(inputDeviceName) && outputDeviceName == old(outputDeviceName)
      ensures inputSelected == 0 && outputSelected == 0
    {
      SetupLists(inputNames, outputNames, inputProfiles, outputProfiles);
      RestoreSelection(Input);
      RestoreSelection(Output);
      UpdateModulesInfo(pm);
      UpdateClientsInfo(pm);
    }

    /** The list fills done while the page is built: both preset-name lists
        from their placeholder state, then both autoload lists. */
    method SetupLists(inputNames: seq<string>, outputNames: seq<string>,
                      inputProfiles: seq<RuleJson>, outputProfiles: seq<RuleJson>)
      requires inputPresets == ["initial_value"] && outputPresets == ["initial_value"]
      requires autoloadInput == [] && autoloadOutput == []
      modifies this`inputPresets, this`outputPresets, this`autoloadInput, this`autoloadOutput
      ensures inputPresets == inputNames && outputPresets == outputNames
      ensures autoloadInput == DecodeRules(inputProfiles) && autoloadOutput == DecodeRules(outputProfiles)
    {
      FillPresets(Input, inputNames);
      FillPresets(Output, outputNames);
      FillAutoload(Input, inputProfiles);
      FillAutoload(Output, outputProfiles);
    }

    /** Initial fill of a preset-name list: drop the placeholder at position 0,
        then append the store's names in order. */
    method FillPresets(kind: PresetType, names: seq<string>)
      requires |Presets(kind)| > 0
      modifies this`inputPresets, this`outputPresets
      ensures Presets(kind) == old(Presets(kind))[1..] + names
      ensures Presets(kind.Other()) == old(Presets(kind.Other()))
    {
      SetPresets(kind, RemoveAt(Presets(kind), 0));
      for i := 0 to |names|
        invariant Presets(kind) == old(Presets(kind))[1..] + names[..i]
        invariant Presets(kind.Other()) == old(Presets(kind.Other()))
      {
        SetPresets(kind, Presets(kind) + [names[i]]);
        assert names[..i + 1] == names[..i] + [names[i]];
      }
      assert names[..|names|] == names;
    }

    /** Initial fill of an autoload list: append the store's rules in order. */
    method FillAutoload(kind: PresetType, profiles: seq<RuleJson>)
      modifies this`autoloadInput, this`autoloadOutput
      ensures Rules(kind) == old(Rules(kind)) + DecodeRules(profiles)
      ensures Rules(kind.Other()) == old(Rules(kind.Other()))
    {
      for i := 0 to |profiles|
        invariant Rules(kind) == old(Rules(kind)) + DecodeRules(profiles[..i])
        invariant Rules(kind.Other()) == old(Rules(kind.Other()))
      {
        SetRules(kind, Rules(kind) + [DecodeRule(profiles[i])]);
        assert profiles[..i + 1] == profiles[..i] + [profiles[i]];
        DecodeRulesAppend(profiles[..i], profiles[i]);
      }
      assert profiles[..|profiles|] == profiles;
    }

    // -------------------------------------------------------------------
    // Device lists

    /** A sink (Output) or source (Input) node was added: ignored when a node
        with its id is listed, appended otherwise. */
    method OnDeviceAdded(kind: PresetType, info: NodeInfo)
      requires Valid()
      modifies this`inputDevices, this`outputDevices
      ensures Valid()
      ensures Devices(kind) == WithDevice(old(Devices(kind)), info)
      ensures Devices(kind.Other()) == old(Devices(kind.Other()))
    {
      var model := Devices(kind);
      for n := 0 to |model|
        invariant forall j :: 0 <= j < n ==> model[j].id != info.id
      {
        if model[n].id == info.id {
          return;
        }
      }
      WithDeviceKeepsIdsUnique(model, info);
      SetDevices(kind, model + [info]);
    }

    /** A sink (Output) or source (Input) node was removed: the first listed
        node with its id is taken out; nothing happens when there is none. */
    method OnDeviceRemoved(kind: PresetType, info: NodeInfo)
      requires Valid()
      modifies this`inputDevices, this`outputDevices
      ensures Valid()
      ensures Devices(kind) == WithoutId(old(Devices(kind)), info.id)
      ensures Devices(kind.Other()) == old(Devices(kind.Other()))
    {
      var model := Devices(kind);
      for n := 0 to |model|
        invariant forall j :: 0 <= j < n ==> model[j].id != info.id
        invariant Devices(kind) == model
        invariant Devices(kind.Other()) == old(Devices(kind.Other()))
      {
        if model[n].id == info.id {
          WithoutIdExact(model, info.id);
          SetDevices(kind, RemoveAt(model, n));
          return;
        }
      }
    }

    // -------------------------------------------------------------------
    // Preset-name lists

    /** A user preset was created: an empty name or a listed name is ignored,
        any other name is appended. */
    method OnPresetCreated(kind: PresetType, name: string)
      modifies this`inputPresets, this`outputPresets
      ensures Presets(kind) == WithPreset(old(Presets(kind)), name)
      ensures Presets(kind.Other()) == old(Presets(kind.Other()))
    {
      if name == "" {
        return;
      }
      var list := Presets(kind);
      for n := 0 to |list|
        invariant forall j :: 0 <= j < n ==> list[j] != name
      {
        if list[n] == name {
          return;
        }
      }
      SetPresets(kind, list + [name]);
    }

    /** A user preset was removed: an empty name is ignored, otherwise the
        first equal name is taken out. */
    method OnPresetRemoved(kind: PresetType, name: string)
      modifies this`inputPresets, this`outputPresets
      ensures Presets(kind) == WithoutPreset(old(Presets(kind)), name)
      ensures Presets(kind.Other()) == old(Presets(kind.Other()))
    {
      if name == "" {
        return;
      }
      var list := Presets(kind);
      for n := 0 to |list|
        invariant forall j :: 0 <= j < n ==> list[j] != name
        invariant Presets(kind) == list
        invariant Presets(kind.Other()) == old(Presets(kind.Other()))
      {
        if list[n] == name {
          SetPresets(kind, RemoveAt(list, n));
          return;
        }
      }
    }

    // -------------------------------------------------------------------
    // Autoload rules

    /** The store reported a new rule set: the visible list becomes the
        decoded rules, in the order given. */
    method OnAutoloadChanged(kind: PresetType, profiles: seq<RuleJson>)
      modifies this`autoloadInput, this`autoloadOutput
      ensures Rules(kind) == DecodeRules(profiles)
      ensures Rules(kind.Other()) == old(Rules(kind.Other()))
    {
      var list: seq<AutoloadRule> := [];
      for i := 0 to |profiles|
        invariant list == DecodeRules(profiles[..i])
        invariant Rules(kind.Other()) == old(Rules(kind.Other()))
      {
        list := list + [DecodeRule(profiles[i])];
        assert profiles[..i + 1] == profiles[..i] + [profiles[i]];
        DecodeRulesAppend(profiles[..i], profiles[i]);
      }
      assert profiles[..|profiles|] == profiles;
      SetRules(kind, list);
    }

    /** The autoload add button: with no device selected in the autoload
        device dropdown nothing is sent; otherwise the route profile of the
        selected node is resolved, the first visible rule for its (name,
        profile) is removed if there is one, and the new rule is added. */
    method OnAutoloadAddClicked(kind: PresetType, pm: PipeSnapshot, preset: string)
      modifies this`calls
      ensures SelectedItem(Devices(kind), AutoloadSelected(kind)).None? ==> calls == old(calls)
      ensures SelectedItem(Devices(kind), AutoloadSelected(kind)).Some? ==>
                calls == old(calls) + AutoloadRequests(kind, SelectedItem(Devices(kind), AutoloadSelected(kind)).value,
                                                       pm.listDevices, Rules(kind), preset)
    {
      var item := SelectedItem(Devices(kind), AutoloadSelected(kind));
      if item.None? {
        return;
      }
      var holder := item.value;

      var profile := FindRouteProfile(pm.listDevices, holder.deviceId, kind);
      var n := FindRule(Rules(kind), holder.name, profile);
      if n < |Rules(kind)| {
        var rule := Rules(kind)[n];
        calls := calls + [RemoveAutoload(kind, rule.presetName, rule.device, rule.deviceProfile)];
      }
      calls := calls + [AddAutoload(kind, preset, holder.name, profile)];
    }

    /** The remove button of a visible autoload row: asks the store to drop
        exactly that row's rule. */
    method OnAutoloadRemoveClicked(kind: PresetType, rule: AutoloadRule)
      modifies this`calls
      ensures calls == old(calls) + [RemoveAutoload(kind, rule.presetName, rule.device, rule.deviceProfile)]
      ensures forall x :: x in Apply(Rules(kind), calls[|calls| - 1]) <==> x in Rules(kind) && x != rule
    {
      calls := calls + [RemoveAutoload(kind, rule.presetName, rule.device, rule.deviceProfile)];
    }

    // -------------------------------------------------------------------
    // Modules and clients

    /** The module list becomes the PipeManager's module snapshot. */
    method UpdateModulesInfo(pm: PipeSnapshot)
      modifies this`modules
      ensures modules == pm.listModules
    {
      var values: seq<ModuleInfo> := [];
      for i := 0 to |pm.listModules|
        invariant values == pm.listModules[..i]
      {
        values := values + [pm.listModules[i]];
        assert pm.listModules[..i + 1] == pm.listModules[..i] + [pm.listModules[i]];
      }
      assert pm.listModules[..|pm.listModules|] == pm.listModules;
      modules := values;
    }

    /** The client list becomes the PipeManager's client snapshot. */
    method UpdateClientsInfo(pm: PipeSnapshot)
      modifies this`clients
      ensures clients == pm.listClients
    {
      var values: seq<ClientInfo> := [];
      for i := 0 to |pm.listClients|
        invariant values == pm.listClients[..i]
      {
        values := values + [pm.listClients[i]];
        assert pm.listClients[..i + 1] == pm.listClients[..i] + [pm.listClients[i]];
      }
      assert pm.listClients[..|pm.listClients|] == pm.listClients;
      clients := values;
    }

    /** A page of the stack became visible: "page_modules" refreshes the
        modules, "page_clients" the clients, any other page changes nothing. */
    method OnStackVisibleChildChanged(name: string, pm: PipeSnapshot)
      modifies this`modules, this`clients
      ensures name == "page_modules" ==> modules == pm.listModules && clients == old(clients)
      ensures name == "page_clients" ==> clients == pm.listClients && modules == old(modules)
      ensures name != "page_modules" && name != "page_clients" ==> modules == old(modules) && clients == old(clients)
    {
      if name == "page_modules" {
        UpdateModulesInfo(pm);
      } else if name == "page_clients" {
        UpdateClientsInfo(pm);
      }
    }

    // -------------------------------------------------------------------
    // Selected devices

    /** Moves an autoload device dropdown to position n. The page attaches no
        handler to these dropdowns; the add button reads the position. */
    method SelectAutoloadDevice(kind: PresetType, n: nat)
      modifies this`autoloadInputSelected, this`autoloadOutputSelected
      ensures AutoloadSelected(kind) == n
      ensures AutoloadSelected(kind.Other()) == old(AutoloadSelected(kind.Other()))
    {
      if kind.Input? { autoloadInputSelected := n; } else { autoloadOutputSelected := n; }
    }

    /** Moves a stream device dropdown to position n. When the position
        changes, the selected-item handler runs: if an item is selected, its
        name becomes the stored device name. */
    method SelectDevice(kind: PresetType, n: nat)
      modifies this`inputSelected, this`outputSelected, this`inputDeviceName, this`outputDeviceName
      ensures Selected(kind) == n
      ensures n != old(Selected(kind)) && n < |Devices(kind)| ==> StoredName(kind) == Devices(kind)[n].name
      ensures n == old(Selected(kind)) || n >= |Devices(kind)| ==> StoredName(kind) == old(StoredName(kind))
      ensures Selected(kind.Other()) == old(Selected(kind.Other()))
      ensures StoredName(kind.Other()) == old(StoredName(kind.Other()))
    {
      if n == Selected(kind) {
        return;
      }
      if kind.Input? { inputSelected := n; } else { outputSelected := n; }
      var item := SelectedItem(Devices(kind), Selected(kind));
      if item.None? {
        return;
      }
      SetStoredName(kind, item.value.name);
    }

    /** Start-up re-selection of the stored device: when a node is selected
        and its name differs from the stored name, every position whose node
        has the stored name is selected in turn, so the last one wins; the
        stored name itself is left as it was. */
    method RestoreSelection(kind: PresetType)
      modifies this`inputSelected, this`outputSelected, this`inputDeviceName, this`outputDeviceName
      ensures StoredName(Input) == old(StoredName(Input)) && StoredName(Output) == old(StoredName(Output))
      ensures Selected(kind.Other()) == old(Selected(kind.Other()))
      ensures Selected(kind) == RestoredPosition(Devices(kind), old(Selected(kind)), StoredName(kind))
    {
      var holder := SelectedItem(Devices(kind), Selected(kind));
      if holder.None? {
        return;
      }
      var name := StoredName(kind);
      if holder.value.name == name {
        return;
      }
      var model := Devices(kind);
      for n := 0 to |model|
        invariant StoredName(kind) == name
        invariant StoredName(kind.Other()) == old(StoredName(kind.Other()))
        invariant Selected(kind.Other()) == old(Selected(kind.Other()))
        invariant Selected(kind) == if LastIndexOfName(model[..n], name) < n
                                    then LastIndexOfName(model[..n], name) else old(Selected(kind))
      {
        LastIndexOfNameStep(model, n, name);
        if model[n].name == name {
          SelectDevice(kind, n);
        }
      }
      assert model[..|model|] == model;
    }

    /** The "use default" switch changed: when it is on, the default device's
        name becomes the stored name and, if a node with a different name is
        selected, the first position whose node has the default name is
        selected. When it is off nothing changes. */
    method OnUseDefaultChanged(kind: PresetType, active: bool, pm: PipeSnapshot)
      modifies this`inputSelected, this`outputSelected, this`inputDeviceName, this`outputDeviceName
      ensures !active ==> StoredName(kind) == old(StoredName(kind)) && Selected(kind) == old(Selected(kind))
      ensures active ==> StoredName(kind) == pm.DefaultDevice(kind).name
      ensures active ==> Selected(kind) == DefaultPosition(Devices(kind), old(Selected(kind)), pm.DefaultDevice(kind).name)
      ensures StoredName(kind.Other()) == old(StoredName(kind.Other()))
      ensures Selected(kind.Other()) == old(Selected(kind.Other()))
    {
      if !active {
        return;
      }
      var name := pm.DefaultDevice(kind).name;
      SetStoredName(kind, name);
      var holder := SelectedItem(Devices(kind), Selected(kind));
      if holder.None? || holder.value.name == name {
        return;
      }
      var model := Devices(kind);
      var n := 0;
      while n < |model|
        invariant 0 <= n <= |model|
        invariant forall j :: 0 <= j < n ==> model[j].name != name
        invariant StoredName(kind) == name
        invariant StoredName(kind.Other()) == old(StoredName(kind.Other()))
        invariant Selected(kind) == old(Selected(kind))
        invariant Selected(kind.Other()) == old(Selected(kind.Other()))
      {
        if model[n].name == name {
          SelectDevice(kind, n);
          break;
        }
        n := n + 1;
      }
    }
  }
}
