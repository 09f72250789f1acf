/**
 * The selected position of a stream device dropdown and the two ways the
 * page re-selects it: the start-up re-selection of the stored device name
 * (every match is selected in turn, so the last one wins) and the switch to
 * the default device (the scan stops at the first match).
 */
module Selection {
  import opened PipeTypes
  import opened Registry

  /** The node a dropdown shows at position pos; None when pos is past the end. */
  function SelectedItem(list: seq<NodeInfo>, pos: nat): Option<NodeInfo> {
    if pos < |list| then Some(list[pos]) else None
  }

  /** A node is selected and its name is not the wanted one. */
  predicate SelectionDiffers(list: seq<NodeInfo>, pos: nat, name: string) {
    pos < |list| && list[pos].name != name
  }

  /** The position after the start-up re-selection of name. */
  function RestoredPosition(list: seq<NodeInfo>, pos: nat, name: string): nat {
    var k := LastIndexOfName(list, name);
    if SelectionDiffers(list, pos, name) && k < |list| then k else pos
  }

  /** The position after switching to the default device called name. */
  function DefaultPosition(list: seq<NodeInfo>, pos: nat, name: string): nat {
    var k := FirstIndexOfName(list, name);
    if SelectionDiffers(list, pos, name) && k < |list| then k else pos
  }

  /** Start-up re-selection moves a differing selection to the LAST node with
      the stored name, and leaves the selection alone when nothing is
      selected, the selected node already has the name, or no node has it. */
  lemma RestoredPositionIsLastMatch(list: seq<NodeInfo>, pos: nat, name: string)
    ensures !SelectionDiffers(list, pos, name) || !HasName(list, name) ==> RestoredPosition(list, pos, name) == pos
    ensures SelectionDiffers(list, pos, name) && HasName(list, name) ==>
              var r := RestoredPosition(list, pos, name);
              && r < |list| && r != pos && list[r].name == name
              && forall j :: r < j < |list| ==> list[j].name != name
  {
    var k := LastIndexOfName(list, name);
    if HasName(list, name) {
      var i :| 0 <= i < |list| && list[i].name == name;
      assert k < |list|;
    }
  }

  /** Switching to the default device moves a differing selection to the
      FIRST node with the default name, with the same cases left alone. */
  lemma DefaultPositionIsFirstMatch(list: seq<NodeInfo>, pos: nat, name: string)
    ensures !SelectionDiffers(list, pos, name) || !HasName(list, name) ==> DefaultPosition(list, pos, name) == pos
    ensures SelectionDiffers(list, pos, name) && HasName(list, name) ==>
              var r := DefaultPosition(list, pos, name);
              && r < |list| && r != pos && list[r].name == name
              && forall j :: 0 <= j < r ==> list[j].name != name
  {
    var k := FirstIndexOfName(list, name);
    if HasName(list, name) {
      var i :| 0 <= i < |list| && list[i].name == name;
      assert k < |list|;
    }
  }

  /** The two paths disagree when two nodes share the wanted name: start-up
      re-selection picks the later node, the default switch the earlier. */
  lemma {:induction false} RestoreAndDefaultDisagreeOnSharedNames(a: NodeInfo, b: NodeInfo, c: NodeInfo)
    requires a.name != b.name && b.name == c.name
    ensures RestoredPosition([a, b, c], 0, b.name) == 2
    ensures DefaultPosition([a, b, c], 0, b.name) == 1
  {
    var list := [a, b, c];
    RestoredPositionIsLastMatch(list, 0, b.name);
    DefaultPositionIsFirstMatch(list, 0, b.name);
    assert list[1].name == b.name;
  }
}
