# PipeInfoUi list synchronisation, modelled in Dafny

EasyEffects' "pipe information" page (`PipeInfoUi`) keeps several ordered
lists in step with two collaborators:

- the **PipeManager** announces sinks and sources being added and removed,
  and offers snapshots of the device table, the loaded modules, the
  connected clients and the default devices;
- the **PresetsManager** announces user presets being created and removed
  and autoload rule sets changing, and receives `add_autoload` /
  `remove_autoload` requests from the page.

Every handler of the page is a short, sequential scan over one of these
lists with an early `return` or `break`. This project models the page as
the class `PipeInfo.PipeInfoUi`:

- every list the page shows is a `seq` field, handled once per preset type
  (`Input` / `Output`) rather than as two copies;
- the two stored device names are `string` fields;
- the selected positions of the device dropdowns are `nat` fields; no item
  is selected when the position is past the end of the list;
- the requests sent to the PresetsManager are appended to the log `calls`.

Each handler is a method with the source's loop. Its contract ties the new
state to a function on values:

- `Registry` holds the device-list, preset-list and rule-decoding functions
  and the lemmas about them.
- `Autoload` holds the profile resolution, the request sequence of the add
  button, and the store semantics under which "one rule per (device,
  profile)" is proved.
- `Selection` holds the two re-selection rules.

Files: `types.dfy` (values), `registry.dfy`, `autoload.dfy`,
`selection.dfy`, `pipe_info_ui.dfy` (the class).

## Model

| member | source | states |
|---|---|---|
| PipeInfo.PipeInfoUi.OnDeviceAdded | src/pipe_info_ui.cpp:221-229 | An added sink/source whose id is already listed changes nothing; otherwise it is appended (`WithDevice`). Unique ids are kept and the other direction's list is untouched. |
| PipeInfo.PipeInfoUi.OnDeviceRemoved | src/pipe_info_ui.cpp:231-239 | A removed sink/source takes out the first listed node with its id, or nothing (`WithoutId`). Unique ids are kept and the other list is untouched. |
| Registry.WithDeviceAppendsNewId | src/pipe_info_ui.cpp:241-249 | A known id leaves the list unchanged, an unknown one is appended at the end, and afterwards the id is present. |
| Registry.WithDeviceIdempotent | src/pipe_info_ui.cpp:221-229 | A second "added" notification for the same id changes nothing. |
| Registry.WithDeviceKeepsIdsUnique | src/pipe_info_ui.cpp:221-229 | Adding keeps ids unique and grows the list by one exactly when the id was new. |
| Registry.WithoutIdRemovesFirst | src/pipe_info_ui.cpp:251-259 | Removing an absent id leaves the list as it was. Otherwise the result is the list with exactly the first entry with that id cut out, order kept. |
| Registry.WithoutIdExact | src/pipe_info_ui.cpp:231-239 | On a list with unique ids the removal keeps exactly the nodes with other ids, leaves the id absent, keeps ids unique and shrinks the list by one exactly when the id was present. |
| Registry.AddThenRemoveRestores | src/pipe_info_ui.cpp:221-239 | Adding a new node and then removing its id restores the original list. |
| PipeInfo.PipeInfoUi.OnPresetCreated | src/pipe_info_ui.cpp:261-275 | A created preset name is appended unless it is empty or already listed (`WithPreset`); the other preset type's list is untouched. |
| PipeInfo.PipeInfoUi.OnPresetRemoved | src/pipe_info_ui.cpp:277-291 | A removed preset name takes out its first occurrence; an empty name changes nothing (`WithoutPreset`). |
| Registry.WithPresetAppendsNewName | src/pipe_info_ui.cpp:293-307 | An empty or listed name leaves the list unchanged, any other is appended; a duplicate-free list stays duplicate-free; a non-empty name is listed afterwards. |
| Registry.WithoutPresetExact | src/pipe_info_ui.cpp:309-323 | On a duplicate-free list, removing a non-empty name keeps exactly the other names, and the list stays duplicate-free. |
| Registry.CreateThenRemoveRestores | src/pipe_info_ui.cpp:261-291 | Creating a preset name that was not listed and then removing it restores the previous list. |
| PipeInfo.PipeInfoUi.FillPresets | src/pipe_info_ui.cpp:444-448 | The initial fill drops the placeholder at position 0 and appends the store's names in order. |
| PipeInfo.PipeInfoUi.FillAutoload | src/pipe_info_ui.cpp:503-511 | The initial fill appends the store's rules, decoded, in order. |
| PipeInfo.PipeInfoUi.OnAutoloadChanged | src/pipe_info_ui.cpp:325-353 | After a rule-set change the visible list is the incoming rules decoded one for one, in order. The other preset type's list is untouched. |
| Registry.DecodeRules | src/pipe_info_ui.cpp:329-334 | Decoding keeps the length and decodes record i into rule i. |
| Registry.DecodeRulesAppend | src/pipe_info_ui.cpp:344-349 | Decoding one more record appends its rule at the end. |
| Registry.DecodeRuleDefaults | src/pipe_info_ui.cpp:330-332 | A missing device, device-profile or preset-name field becomes "". A present field is kept as given. |
| PipeInfo.FindRouteProfile | src/pipe_info_ui.cpp:158-166 | The scan yields the route of the first device table entry with the node's device id (`ResolveProfile`). It yields "" when no entry has that id. |
| Autoload.ProfileIsFirstMatchRoute | src/pipe_info_ui.cpp:193-201 | The resolved profile is the route, in the preset type's direction, of the first entry whose id matches. |
| PipeInfo.FindRule | src/pipe_info_ui.cpp:170-178 | The scan stops at the first visible rule whose device is the node's name and whose profile is the resolved profile, or at the end. |
| PipeInfo.PipeInfoUi.OnAutoloadAddClicked | src/pipe_info_ui.cpp:151-219 | With no node selected in the autoload device dropdown, no request is sent. Otherwise exactly `AutoloadRequests` for the selected node is appended to the request log. |
| Autoload.AtMostOneRemoveBeforeAdd | src/pipe_info_ui.cpp:168-183 | The add button sends one or two requests. The last is the add for (preset, node name, profile). A removal is sent exactly when a visible rule matches the node's name and profile; it comes first and names the first such rule. |
| Autoload.Drop | src/pipe_info_ui.cpp:174 | The assumed store removal keeps exactly the rules unequal to the removed one and keeps "one rule per pair". |
| Autoload.RequestsApplied | src/pipe_info_ui.cpp:203-218 | Under the assumed store semantics, and with the store holding exactly the visible rules, the requests leave the store's rules as the visible rules without the first rule for the node's pair, followed by the new rule. |
| Autoload.KeptLosesPair | src/pipe_info_ui.cpp:205-213 | On rules with one rule per pair, removing the first rule for a pair leaves no rule for it. Rules of other pairs are kept exactly. |
| Autoload.AddOrReplaceKeepsOneRulePerPair | src/pipe_info_ui.cpp:168-183 | If the store holds exactly the visible rules and they have at most one rule per (device, profile), the add button's requests keep that true in the store. The new rule is present, every rule for the pair carries the new preset, and other pairs' rules are unchanged. |
| Autoload.AddOrReplaceTwiceKeepsSecond | src/pipe_info_ui.cpp:186-219 | Two adds in a row for the same node, with the list caught up in between, leave exactly the second preset's rule for the pair. |
| PipeInfo.PipeInfoUi.OnAutoloadRemoveClicked | src/pipe_info_ui.cpp:552-554 | A row's remove button sends one removal with that row's fields. Applied to the visible rules, that removal keeps exactly the other rules. |
| PipeInfo.PipeInfoUi.UpdateModulesInfo | src/pipe_info_ui.cpp:644-652 | The module list becomes the PipeManager's module snapshot, element for element. |
| PipeInfo.PipeInfoUi.UpdateClientsInfo | src/pipe_info_ui.cpp:654-662 | The client list becomes the PipeManager's client snapshot, element for element. |
| PipeInfo.PipeInfoUi.OnStackVisibleChildChanged | src/pipe_info_ui.cpp:664-670 | "page_modules" refreshes only the modules and "page_clients" only the clients. Any other page changes nothing. |
| PipeInfo.PipeInfoUi.SelectAutoloadDevice | src/pipe_info_ui.cpp:43-44 | Choosing a node in an autoload device dropdown sets only that dropdown's position, which the add button reads. The page attaches no handler to it, so nothing else changes. |
| PipeInfo.PipeInfoUi.SelectDevice | src/pipe_info_ui.cpp:55-73 | Selecting a new position stores the name of the node there, if there is one. Re-selecting the same position or selecting past the end leaves the stored name as it was. |
| PipeInfo.PipeInfoUi.RestoreSelection | src/pipe_info_ui.cpp:77-107 | The start-up re-selection yields `RestoredPosition`, with no `break`, so the last match wins. Both stored names are left as they were. |
| Selection.RestoredPositionIsLastMatch | src/pipe_info_ui.cpp:80-89 | A selected node whose name differs moves to the last node with the stored name. Nothing selected, a matching selection, or no match leaves the position alone. |
| PipeInfo.PipeInfoUi.OnUseDefaultChanged | src/pipe_info_ui.cpp:111-149 | Switching "use default" on stores the default device's name and yields `DefaultPosition`, with `break`, so the first match wins. Switching it off changes nothing. |
| Selection.DefaultPositionIsFirstMatch | src/pipe_info_ui.cpp:115-126 | A selected node whose name differs moves to the first node with the default name. Nothing selected, a matching selection, or no match leaves the position alone. |
| Selection.RestoreAndDefaultDisagreeOnSharedNames | src/pipe_info_ui.cpp:84-87 | When two nodes share the wanted name, start-up re-selection picks the later one and the default switch the earlier one. |
| PipeInfo.PipeInfoUi.constructor | src/pipe_info_ui.cpp:22-50 | The built page has empty device lists, the store's preset names and decoded rules, the module and client snapshots, the stored device names, position 0 selected in all four device dropdowns and no request sent. |
| PipeInfo.PipeInfoUi.Setup | src/pipe_info_ui.cpp:46-107 | The constructor body fills both preset lists and both rule lists, re-selects on the still-empty device lists (nothing moves) and takes the module and client snapshots (lines 355-356). |

## Left out

- GTK widget construction, list-item factories, labels, icons and
  accessibility properties: presentation with no state of the page's own.
- Signal connection, disconnection and the destructor: the handlers are
  methods called directly.
- GSettings persistence: the stored device names are plain string fields
  with no notification.
- The `Gtk::StringSorter` sort model over the preset names: the model keeps
  the unsorted list, which is what the handlers scan.
- JSON decoding: a stored rule is a record of three optional strings. A
  field of the wrong JSON type is not modelled.
- The PipeManager and PresetsManager internals. The snapshots are
  parameters and requests go to a log.
- Autoload.Apply: this is an assumed store semantics (removal drops every
  equal rule, add appends one), not the real PresetsManager. The "one rule
  per pair" lemmas (`RequestsApplied`, `KeptLosesPair`,
  `AddOrReplaceKeepsOneRulePerPair`, `AddOrReplaceTwiceKeepsSecond`) hold
  only under that assumption. They also pass one list as both the visible
  list the add button scans and the store's own list, so they assume the
  visible list has caught up with the store. With a stale visible list the
  invariant can break: if the store holds a rule for the pair that the
  visible list does not show yet, no removal is sent and the store ends up
  with two rules for the pair.
- PipeInfo.PipeInfoUi.SelectDevice: GTK's own selection behaviour is not modelled. That
  includes the dropdown autoselecting a first item and the position
  shifting when the list under it changes; a position is only changed by
  the page's own `set_selected` calls.
- PipeInfo.PipeInfoUi.OnAutoloadAddClicked: the preset chosen in the preset
  dropdown is passed in as a string. The source reads it through
  `get_selected_item()` with no null check; that dereference is not
  modelled.
- Node, device, module and client ids are `nat`. The source's 32-bit
  unsigned width is not modelled, since ids are only compared for
  equality.
- `TestSignals` and `util::warning` logging on an empty preset name: side
  channels with no effect on the lists.
- src/equalizer_band_box.cpp, include/effects_base_ui.hpp and
  src/plugin_preset_base.cpp are not part of this model.
