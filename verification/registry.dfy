/**
 * The ordered lists the page keeps in sync with its event sources: device
 * lists keyed by node id, preset-name lists keyed by the name itself, and
 * the autoload list decoded from the store's records. Each list operation is
 * stated here as a function on values; the handlers of PipeInfoUi are proved
 * to compute exactly these functions.
 */
module Registry {
  import opened PipeTypes

  // ---------------------------------------------------------------------
  // Scans

  /** Position of the first element satisfying p, or |s| if none does. */
  function FirstIndex<T>(s: seq<T>, p: T -> bool): (k: nat)
    ensures k <= |s|
    ensures k < |s| ==> p(s[k])
    ensures forall j :: 0 <= j < k ==> !p(s[j])
  {
    if |s| == 0 then 0
    else if p(s[0]) then 0
    else 1 + FirstIndex(s[1..], p)
  }

  /** Position of the first node with the given id, or |list| if none has it. */
  function IndexOfId(list: seq<NodeInfo>, id: nat): (k: nat)
    ensures k <= |list|
    ensures k < |list| ==> list[k].id == id
    ensures forall j :: 0 <= j < k ==> list[j].id != id
  {
    FirstIndex(list, (n: NodeInfo) => n.id == id)
  }

  /** Position of the first occurrence of x, or |s| if x does not occur. */
  function IndexOf<T(==)>(s: seq<T>, x: T): (k: nat)
    ensures k <= |s|
    ensures k < |s| ==> s[k] == x
    ensures forall j :: 0 <= j < k ==> s[j] != x
  {
    FirstIndex(s, (y: T) => y == x)
  }

  /** Position of the first node with the given display name, or |list|. */
  function FirstIndexOfName(list: seq<NodeInfo>, name: string): (k: nat)
    ensures k <= |list|
    ensures k < |list| ==> list[k].name == name
    ensures forall j :: 0 <= j < k ==> list[j].name != name
  {
    FirstIndex(list, (n: NodeInfo) => n.name == name)
  }

  /** Position of the last node with the given display name, or |list|. */
  function LastIndexOfName(list: seq<NodeInfo>, name: string): (k: nat)
    ensures k <= |list|
    ensures k < |list| ==> list[k].name == name
    ensures k < |list| ==> forall j :: k < j < |list| ==> list[j].name != name
    ensures k == |list| ==> forall j :: 0 <= j < |list| ==> list[j].name != name
  {
    if |list| == 0 then 0
    else if list[|list| - 1].name == name then |list| - 1
    else
      var k := LastIndexOfName(list[..|list| - 1], name);
      if k < |list| - 1 then k else |list|
  }

  /** One more element of a prefix: the last match moves to n exactly when
      the node at n has the name. */
  lemma LastIndexOfNameStep(list: seq<NodeInfo>, n: nat, name: string)
    requires n < |list|
    ensures var k := LastIndexOfName(list[..n], name);
            LastIndexOfName(list[..n + 1], name) ==
              if list[n].name == name then n else if k < n then k else n + 1
  {
    assert list[..n + 1][..n] == list[..n];
  }

  predicate HasId(list: seq<NodeInfo>, id: nat) {
    exists i :: 0 <= i < |list| && list[i].id == id
  }

  predicate HasName(list: seq<NodeInfo>, name: string) {
    exists i :: 0 <= i < |list| && list[i].name == name
  }

  /** No two nodes of the list share an id. */
  predicate UniqueIds(list: seq<NodeInfo>) {
    forall i, j :: 0 <= i < j < |list| ==> list[i].id != list[j].id
  }

  /** No name occurs twice. */
  predicate NoDuplicates<T(==)>(s: seq<T>) {
    forall i, j :: 0 <= i < j < |s| ==> s[i] != s[j]
  }

  /** The list with position k taken out, the others keeping their order. */
  function RemoveAt<T>(s: seq<T>, k: nat): (r: seq<T>)
    requires k < |s|
    ensures |r| == |s| - 1
    ensures forall j :: 0 <= j < k ==> r[j] == s[j]
    ensures forall j :: k <= j < |r| ==> r[j] == s[j + 1]
  {
    s[..k] + s[k + 1..]
  }

  // ---------------------------------------------------------------------
  // Device lists (sink/source added and removed)

  /** The device list after an "added" notification for info. */
  function WithDevice(list: seq<NodeInfo>, info: NodeInfo): seq<NodeInfo> {
    if IndexOfId(list, info.id) < |list| then list else list + [info]
  }

  /** The device list after a "removed" notification for a node with this id. */
  function WithoutId(list: seq<NodeInfo>, id: nat): seq<NodeInfo> {
    var k := IndexOfId(list, id);
    if k < |list| then RemoveAt(list, k) else list
  }

  lemma WithDeviceAppendsNewId(list: seq<NodeInfo>, info: NodeInfo)
    ensures HasId(list, info.id) ==> WithDevice(list, info) == list
    ensures !HasId(list, info.id) ==> WithDevice(list, info) == list + [info]
    ensures HasId(WithDevice(list, info), info.id)
  {
    if !HasId(list, info.id) {
      assert (list + [info])[|list|].id == info.id;
    }
  }

  lemma {:induction false} WithDeviceIdempotent(list: seq<NodeInfo>, a: NodeInfo, b: NodeInfo)
    requires a.id == b.id
    ensures WithDevice(WithDevice(list, a), b) == WithDevice(list, a)
  {
    WithDeviceAppendsNewId(list, a);
    WithDeviceAppendsNewId(WithDevice(list, a), b);
  }

  lemma WithDeviceKeepsIdsUnique(list: seq<NodeInfo>, info: NodeInfo)
    requires UniqueIds(list)
    ensures UniqueIds(WithDevice(list, info))
    ensures |WithDevice(list, info)| == if HasId(list, info.id) then |list| else |list| + 1
  {
    WithDeviceAppendsNewId(list, info);
  }

  lemma WithoutIdRemovesFirst(list: seq<NodeInfo>, id: nat)
    ensures !HasId(list, id) ==> WithoutId(list, id) == list
    ensures HasId(list, id) ==>
      exists k :: 0 <= k < |list| && list[k].id == id &&
        (forall j :: 0 <= j < k ==> list[j].id != id) &&
        WithoutId(list, id) == list[..k] + list[k + 1..]
  {
    var k := IndexOfId(list, id);
    if HasId(list, id) {
      assert k < |list|;
    }
  }

  lemma WithoutIdExact(list: seq<NodeInfo>, id: nat)
    requires UniqueIds(list)
    ensures UniqueIds(WithoutId(list, id))
    ensures !HasId(WithoutId(list, id), id)
    ensures forall x :: x in WithoutId(list, id) <==> x in list && x.id != id
    ensures |WithoutId(list, id)| == if HasId(list, id) then |list| - 1 else |list|
  {
    var r := WithoutId(list, id);
    var k := IndexOfId(list, id);
    if k < |list| {
      forall x ensures x in r <==> x in list && x.id != id {
        if x in list && x.id != id {
          var i :| 0 <= i < |list| && list[i] == x;
          assert i != k;
          if i < k { assert r[i] == x; } else { assert r[i - 1] == x; }
        }
        if x in r {
          var i :| 0 <= i < |r| && r[i] == x;
          if i < k { assert list[i] == x; } else { assert list[i + 1] == x; }
        }
      }
    }
  }

  lemma {:induction false} AddThenRemoveRestores(list: seq<NodeInfo>, info: NodeInfo)
    requires !HasId(list, info.id)
    ensures WithoutId(WithDevice(list, info), info.id) == list
  {
    WithDeviceAppendsNewId(list, info);
    var grown := list + [info];
    assert IndexOfId(grown, info.id) == |list|;
    assert grown[..|list|] == list;
  }

  // ---------------------------------------------------------------------
  // Preset-name lists (user preset created and removed)

  /** The name list after a "preset created" notification. */
  function WithPreset(list: seq<string>, name: string): seq<string> {
    if name == "" || IndexOf(list, name) < |list| then list else list + [name]
  }

  /** The name list after a "preset removed" notification. */
  function WithoutPreset(list: seq<string>, name: string): seq<string> {
    if name == "" then list
    else
      var k := IndexOf(list, name);
      if k < |list| then RemoveAt(list, k) else list
  }

  lemma WithPresetAppendsNewName(list: seq<string>, name: string)
    ensures name == "" || name in list ==> WithPreset(list, name) == list
    ensures name != "" && name !in list ==> WithPreset(list, name) == list + [name]
    ensures NoDuplicates(list) ==> NoDuplicates(WithPreset(list, name))
    ensures name != "" ==> name in WithPreset(list, name)
  {
  }

  lemma WithoutPresetExact(list: seq<string>, name: string)
    requires NoDuplicates(list)
    ensures name == "" ==> WithoutPreset(list, name) == list
    ensures name != "" ==> forall x :: x in WithoutPreset(list, name) <==> x in list && x != name
    ensures NoDuplicates(WithoutPreset(list, name))
  {
    var r := WithoutPreset(list, name);
    var k := IndexOf(list, name);
    if name != "" && k < |list| {
      forall x ensures x in r <==> x in list && x != name {
        if x in list && x != name {
          var i :| 0 <= i < |list| && list[i] == x;
          if i < k { assert r[i] == x; } else { assert r[i - 1] == x; }
        }
        if x in r {
          var i :| 0 <= i < |r| && r[i] == x;
          if i < k { assert list[i] == x; } else { assert list[i + 1] == x; }
        }
      }
    }
  }

  lemma {:induction false} CreateThenRemoveRestores(list: seq<string>, name: string)
    requires name !in list
    ensures WithoutPreset(WithPreset(list, name), name) == list
  {
    if name != "" {
      var grown := list + [name];
      assert grown[|list|] == name;
      assert IndexOf(grown, name) == |list|;
      assert grown[..|list|] == list;
    }
  }

  // ---------------------------------------------------------------------
  // Autoload list

  /** A store record with each missing field read as the empty string. */
  function DecodeRule(json: RuleJson): AutoloadRule {
    AutoloadRule(json.device.GetOr(""), json.deviceProfile.GetOr(""), json.presetName.GetOr(""))
  }

  /** The store's records decoded one for one, in the order given. */
  function DecodeRules(profiles: seq<RuleJson>): (rules: seq<AutoloadRule>)
    ensures |rules| == |profiles|
    ensures forall i :: 0 <= i < |profiles| ==> rules[i] == DecodeRule(profiles[i])
  {
    if |profiles| == 0 then [] else [DecodeRule(profiles[0])] + DecodeRules(profiles[1..])
  }

  lemma DecodeRulesAppend(profiles: seq<RuleJson>, json: RuleJson)
    ensures DecodeRules(profiles + [json]) == DecodeRules(profiles) + [DecodeRule(json)]
  {
  }

  lemma DecodeRuleDefaults(json: RuleJson)
    ensures json.device == None ==> DecodeRule(json).device == ""
    ensures json.deviceProfile == None ==> DecodeRule(json).deviceProfile == ""
    ensures json.presetName == None ==> DecodeRule(json).presetName == ""
    ensures json.device == Some(DecodeRule(json).device) || json.device == None
    ensures json.deviceProfile == Some(DecodeRule(json).deviceProfile) || json.deviceProfile == None
    ensures json.presetName == Some(DecodeRule(json).presetName) || json.presetName == None
  {
  }
}
