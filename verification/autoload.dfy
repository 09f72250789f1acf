/**
 * The autoload "add or replace" logic: which route profile a device node is
 * recorded under, which visible rule the new one replaces, and the requests
 * the page sends to the PresetsManager. The effect of those requests on the
 * store's rule list is given by Apply, an assumed store semantics (remove
 * drops every equal rule, add appends one), so that the "one rule per
 * (device, profile)" invariant the page aims for can be stated and proved.
 */
module Autoload {
  import opened PipeTypes
  import opened Registry

  /** The active route of a device in the direction of the preset type. */
  function RouteName(device: DeviceInfo, kind: PresetType): string {
    if kind.Input? then device.inputRouteName else device.outputRouteName
  }

  /** Position of the first device table entry with the given id, or |devices|. */
  function IndexOfDevice(devices: seq<DeviceInfo>, id: nat): (k: nat)
    ensures k <= |devices|
    ensures k < |devices| ==> devices[k].id == id
    ensures forall j :: 0 <= j < k ==> devices[j].id != id
  {
    FirstIndex(devices, (d: DeviceInfo) => d.id == id)
  }

  /** The route profile a node is recorded under, "" when the device table
      has no entry with the node's device id. */
  function ResolveProfile(devices: seq<DeviceInfo>, deviceId: nat, kind: PresetType): string {
    var k := IndexOfDevice(devices, deviceId);
    if k < |devices| then RouteName(devices[k], kind) else ""
  }

  /** The resolved profile is the route, in the preset type's direction, of
      the first device table entry with the node's device id; it is "" when
      no entry has that id, and a device with an empty route cannot be told
      apart from a missing device. */
  lemma ProfileIsFirstMatchRoute(devices: seq<DeviceInfo>, deviceId: nat, kind: PresetType, i: nat)
    requires i < |devices| && devices[i].id == deviceId
    requires forall j :: 0 <= j < i ==> devices[j].id != deviceId
    ensures ResolveProfile(devices, deviceId, kind) == RouteName(devices[i], kind)
  {
    assert IndexOfDevice(devices, deviceId) == i;
  }

  lemma ProfileOfUnknownDevice(devices: seq<DeviceInfo>, deviceId: nat, kind: PresetType)
    requires forall j :: 0 <= j < |devices| ==> devices[j].id != deviceId
    ensures ResolveProfile(devices, deviceId, kind) == ""
  {
  }

  /** The rule is the one kept for this device name and route profile. */
  predicate IsFor(rule: AutoloadRule, device: string, profile: string) {
    rule.device == device && rule.deviceProfile == profile
  }

  /** Position of the first rule for (device, profile), or |rules|. */
  function IndexOfRule(rules: seq<AutoloadRule>, device: string, profile: string): (k: nat)
    ensures k <= |rules|
    ensures k < |rules| ==> IsFor(rules[k], device, profile)
    ensures forall j :: 0 <= j < k ==> !IsFor(rules[j], device, profile)
  {
    FirstIndex(rules, (r: AutoloadRule) => IsFor(r, device, profile))
  }

  /** The requests the add button sends for the selected node: a removal of
      the first visible rule for its (name, profile), if any, then the add. */
  function AutoloadRequests(kind: PresetType, holder: NodeInfo, devices: seq<DeviceInfo>,
                            rules: seq<AutoloadRule>, preset: string): seq<StoreCall>
  {
    var profile := ResolveProfile(devices, holder.deviceId, kind);
    var k := IndexOfRule(rules, holder.name, profile);
    var add := AddAutoload(kind, preset, holder.name, profile);
    if k < |rules| then
      [RemoveAutoload(kind, rules[k].presetName, rules[k].device, rules[k].deviceProfile), add]
    else
      [add]
  }

  /** At most one removal is requested, always before the single add; it is
      requested exactly when a visible rule has the node's name and profile,
      and it names the first such rule. */
  lemma AtMostOneRemoveBeforeAdd(kind: PresetType, holder: NodeInfo, devices: seq<DeviceInfo>,
                                 rules: seq<AutoloadRule>, preset: string)
    ensures var calls := AutoloadRequests(kind, holder, devices, rules, preset);
            var profile := ResolveProfile(devices, holder.deviceId, kind);
            && 1 <= |calls| <= 2
            && calls[|calls| - 1] == AddAutoload(kind, preset, holder.name, profile)
            && (forall c :: c in calls[..|calls| - 1] ==> c.RemoveAutoload?)
            && (|calls| == 2 <==> exists i :: 0 <= i < |rules| && IsFor(rules[i], holder.name, profile))
            && (|calls| == 2 ==>
                  exists i :: && 0 <= i < |rules| && IsFor(rules[i], holder.name, profile)
                              && (forall j :: 0 <= j < i ==> !IsFor(rules[j], holder.name, profile))
                              && calls[0] == RemoveAutoload(kind, rules[i].presetName, rules[i].device, rules[i].deviceProfile))
  {
    var profile := ResolveProfile(devices, holder.deviceId, kind);
    var k := IndexOfRule(rules, holder.name, profile);
    if k < |rules| {
      assert IsFor(rules[k], holder.name, profile);
    }
  }

  // ---------------------------------------------------------------------
  // Store semantics assumed for the invariant

  /** At most one rule per (device, profile) pair. */
  predicate OnePerPair(rules: seq<AutoloadRule>) {
    forall i, j :: 0 <= i < j < |rules| ==> !IsFor(rules[j], rules[i].device, rules[i].deviceProfile)
  }

  /** The rule list without any rule equal to r, order kept. */
  function Drop(rules: seq<AutoloadRule>, r: AutoloadRule): (out: seq<AutoloadRule>)
    ensures forall x :: x in out <==> x in rules && x != r
    ensures OnePerPair(rules) ==> OnePerPair(out)
  {
    if |rules| == 0 then []
    else if rules[0] == r then Drop(rules[1..], r)
    else
      var rest := Drop(rules[1..], r);
      assert OnePerPair(rules) ==> forall x :: x in rest ==> !IsFor(x, rules[0].device, rules[0].deviceProfile) by {
        if OnePerPair(rules) {
          forall x | x in rest ensures !IsFor(x, rules[0].device, rules[0].deviceProfile) {
            var i :| 0 <= i < |rules[1..]| && rules[1..][i] == x;
            assert rules[i + 1] == x;
          }
        }
      }
      [rules[0]] + rest
  }

  /** The store's rule list after it carries out one request. */
  function Apply(rules: seq<AutoloadRule>, call: StoreCall): seq<AutoloadRule> {
    match call
    case AddAutoload(_, preset, device, profile) => rules + [AutoloadRule(device, profile, preset)]
    case RemoveAutoload(_, preset, device, profile) => Drop(rules, AutoloadRule(device, profile, preset))
  }

  /** The store's rule list after it carries out the requests in order. */
  function ApplyAll(rules: seq<AutoloadRule>, calls: seq<StoreCall>): seq<AutoloadRule>
    decreases |calls|
  {
    if |calls| == 0 then rules else ApplyAll(Apply(rules, calls[0]), calls[1..])
  }

  lemma AppendKeepsOnePerPair(rules: seq<AutoloadRule>, rule: AutoloadRule)
    requires OnePerPair(rules)
    requires forall x :: x in rules ==> !IsFor(x, rule.device, rule.deviceProfile)
    ensures OnePerPair(rules + [rule])
  {
    var grown := rules + [rule];
    forall i, j | 0 <= i < j < |grown|
      ensures !IsFor(grown[j], grown[i].device, grown[i].deviceProfile)
    {
      if j == |rules| {
        assert grown[i] in rules;
      }
    }
  }

  /** The rules the store keeps of the visible ones when the node's pair is
      replaced: all but the first rule for the pair, if there is one. */
  function Kept(rules: seq<AutoloadRule>, device: string, profile: string): seq<AutoloadRule> {
    var k := IndexOfRule(rules, device, profile);
    if k < |rules| then Drop(rules, rules[k]) else rules
  }

  lemma ApplyTwo(rules: seq<AutoloadRule>, first: StoreCall, second: StoreCall)
    ensures ApplyAll(rules, [first, second]) == Apply(Apply(rules, first), second)
  {
    assert [first, second][1..] == [second];
    assert ApplyAll(rules, [first, second]) == ApplyAll(Apply(rules, first), [second]);
    ApplyOne(Apply(rules, first), second);
  }

  lemma ApplyOne(rules: seq<AutoloadRule>, call: StoreCall)
    ensures ApplyAll(rules, [call]) == Apply(rules, call)
  {
    assert [call][1..] == [];
  }

  lemma RequestsApplied(kind: PresetType, holder: NodeInfo, devices: seq<DeviceInfo>,
                        rules: seq<AutoloadRule>, preset: string)
    ensures var profile := ResolveProfile(devices, holder.deviceId, kind);
            ApplyAll(rules, AutoloadRequests(kind, holder, devices, rules, preset))
            == Kept(rules, holder.name, profile) + [AutoloadRule(holder.name, profile, preset)]
  {
    var profile := ResolveProfile(devices, holder.deviceId, kind);
    var k := IndexOfRule(rules, holder.name, profile);
    var add := AddAutoload(kind, preset, holder.name, profile);
    if k < |rules| {
      var r := rules[k];
      var remove := RemoveAutoload(kind, r.presetName, r.device, r.deviceProfile);
      ApplyTwo(rules, remove, add);
    } else {
      ApplyOne(rules, add);
    }
  }

  lemma KeptLosesPair(rules: seq<AutoloadRule>, device: string, profile: string)
    requires OnePerPair(rules)
    ensures OnePerPair(Kept(rules, device, profile))
    ensures forall x :: x in Kept(rules, device, profile) ==> !IsFor(x, device, profile)
    ensures forall x :: !IsFor(x, device, profile) ==> (x in Kept(rules, device, profile) <==> x in rules)
  {
    var k := IndexOfRule(rules, device, profile);
    if k < |rules| {
      DropFirstForPair(rules, device, profile, k);
    } else {
      forall x | x in rules ensures !IsFor(x, device, profile) {
        var i :| 0 <= i < |rules| && rules[i] == x;
      }
    }
  }

  /** Dropping the first rule for a pair leaves no rule for that pair. */
  lemma DropFirstForPair(rules: seq<AutoloadRule>, device: string, profile: string, k: nat)
    requires OnePerPair(rules)
    requires k < |rules| && IsFor(rules[k], device, profile)
    ensures forall x :: x in Drop(rules, rules[k]) ==> !IsFor(x, device, profile)
  {
    var out := Drop(rules, rules[k]);
    forall x | x in out ensures !IsFor(x, device, profile) {
      assert x in rules && x != rules[k];
      var i :| 0 <= i < |rules| && rules[i] == x;
      if i < k {
        assert !IsFor(rules[k], rules[i].device, rules[i].deviceProfile);
      } else {
        assert i > k;
        assert !IsFor(rules[i], rules[k].device, rules[k].deviceProfile);
      }
    }
  }

  /** Add-or-replace keeps at most one rule per pair, leaves the chosen preset
      as the rule for the node's pair, and keeps every other pair's rules. */
  lemma AddOrReplaceKeepsOneRulePerPair(kind: PresetType, holder: NodeInfo, devices: seq<DeviceInfo>,
                                        rules: seq<AutoloadRule>, preset: string)
    requires OnePerPair(rules)
    ensures var after := ApplyAll(rules, AutoloadRequests(kind, holder, devices, rules, preset));
            var profile := ResolveProfile(devices, holder.deviceId, kind);
            && OnePerPair(after)
            && AutoloadRule(holder.name, profile, preset) in after
            && (forall r :: r in after && IsFor(r, holder.name, profile) ==> r.presetName == preset)
            && (forall r :: !IsFor(r, holder.name, profile) ==> (r in after <==> r in rules))
  {
    var profile := ResolveProfile(devices, holder.deviceId, kind);
    var kept := Kept(rules, holder.name, profile);
    var added := AutoloadRule(holder.name, profile, preset);
    RequestsApplied(kind, holder, devices, rules, preset);
    KeptLosesPair(rules, holder.name, profile);
    AppendKeepsOnePerPair(kept, added);
    assert added == (kept + [added])[|kept|];
  }

  /** Two add-or-replace requests in a row for the same node, the second made
      after the visible list has caught up with the store, leave exactly one
      rule for the node's pair: the one with the second preset. */
  lemma {:induction false} AddOrReplaceTwiceKeepsSecond(kind: PresetType, holder: NodeInfo,
      devices: seq<DeviceInfo>, rules: seq<AutoloadRule>, first: string, second: string)
    requires OnePerPair(rules)
    ensures var mid := ApplyAll(rules, AutoloadRequests(kind, holder, devices, rules, first));
            var after := ApplyAll(mid, AutoloadRequests(kind, holder, devices, mid, second));
            var profile := ResolveProfile(devices, holder.deviceId, kind);
            && OnePerPair(after)
            && AutoloadRule(holder.name, profile, second) in after
            && (forall r :: r in after && IsFor(r, holder.name, profile) ==> r == AutoloadRule(holder.name, profile, second))
  {
    var mid := ApplyAll(rules, AutoloadRequests(kind, holder, devices, rules, first));
    AddOrReplaceKeepsOneRulePerPair(kind, holder, devices, rules, first);
    AddOrReplaceKeepsOneRulePerPair(kind, holder, devices, mid, second);
  }
}
