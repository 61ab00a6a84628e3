/**
 * The selection session (stores/annotation.ts): the list of selected block ids, the drag
 * rectangle, and the regions made from selections.
 */
module Annotation {
  import opened Wrappers
  import opened Geometry
  import opened Seqs
  import opened Sorting
  import opened JsText
  import opened Json
  import opened Pdf

  datatype Point = Point(x: real, y: real)

  /** A region as the client keeps it; dates are timestamps. */
  datatype Region = Region(
    id: int,
    name: string,
    annotation: string,
    blocks: seq<int>,
    bbox: Bbox,
    createdAt: int,
    updatedAt: int)

  /** `toggleBlockSelection` on values: drop the id if it is there, append it otherwise. */
  function Toggled(s: seq<int>, id: int): seq<int>
  {
    var i := IndexOf(s, id);
    if i > -1 then RemoveAt(s, i) else s + [id]
  }

  /** `removeBlockFromSelection` on values: drop the first occurrence, if any. */
  function Removed(s: seq<int>, id: int): seq<int>
  {
    var i := IndexOf(s, id);
    if i > -1 then RemoveAt(s, i) else s
  }

  /** Removing an id takes out its first occurrence, keeps the others in order, and ignores an absent id. */
  lemma RemovedIsRemoveFirst(s: seq<int>, id: int)
    ensures Removed(s, id) == RemoveFirstWhere(s, y => y == id)
    ensures id !in s ==> Removed(s, id) == s
    ensures id in s ==> multiset(Removed(s, id)) == multiset(s) - multiset{id}
  {
    var p := (y: int) => y == id;
    assert IndexOf(s, id) == FindIndex(s, p);
    SpliceFoundIsRemoveFirst(s, p);
    RemoveFirstMultiset(s, p);
  }

  /** After a removal from a list without duplicates the id is gone. */
  lemma RemovedIsGone(s: seq<int>, id: int)
    requires NoDuplicates(s)
    ensures id !in Removed(s, id)
    ensures NoDuplicates(Removed(s, id))
  {
    RemovedIsRemoveFirst(s, id);
    RemoveFirstNoDuplicates(s, y => y == id);
    var i := IndexOf(s, id);
    if i > -1 {
      var r := RemoveAt(s, i);
      forall k | 0 <= k < |r|
        ensures r[k] != id
      {
        if k < i {
          assert r[k] == s[k];
        } else {
          assert r[k] == s[k + 1];
        }
      }
    }
  }

  /**
   * Toggling twice restores a list that did not hold the id; for one that held it (once), the id
   * comes back at the end, so the same ids are selected but not necessarily in the same order.
   */
  lemma ToggleTwice(s: seq<int>, id: int)
    requires NoDuplicates(s)
    ensures id !in s ==> Toggled(Toggled(s, id), id) == s
    ensures id in s ==> Toggled(Toggled(s, id), id) == Removed(s, id) + [id]
    ensures multiset(Toggled(Toggled(s, id), id)) == multiset(s)
  {
    if id !in s {
      AppendThenToggle(s, id);
    } else {
      RemovedIsRemoveFirst(s, id);
      RemovedIsGone(s, id);
      assert multiset(Removed(s, id) + [id]) == multiset(s);
    }
  }

  /** Toggling an id just appended to a list without it removes it again. */
  lemma AppendThenToggle(s: seq<int>, id: int)
    requires id !in s
    ensures Toggled(s + [id], id) == s
  {
    var t := s + [id];
    assert IndexOf(t, id) == |s| by {
      assert t[|s|] == id;
      assert t[..|s|] == s;
    }
    assert RemoveAt(t, |s|) == s;
  }

  /** Toggling keeps the selection free of duplicates. */
  lemma ToggledNoDuplicates(s: seq<int>, id: int)
    requires NoDuplicates(s)
    ensures NoDuplicates(Toggled(s, id))
    ensures id in Toggled(s, id) <==> id !in s
  {
    if id in s {
      RemovedIsGone(s, id);
    } else {
      SnocNoDuplicates(s, id);
    }
  }

  function Abs(d: real): (r: real)
    ensures r >= 0.0 && (r == d || r == -d)
  {
    if d < 0.0 then -d else d
  }

  /** The drag rectangle of `updateSelection`: the two points are opposite corners. */
  function DragBox(start: Point, current: Point): (b: Bbox)
    ensures b.width >= 0.0 && b.height >= 0.0
    ensures (b.x == start.x && b.Right() == current.x) || (b.x == current.x && b.Right() == start.x)
    ensures (b.y == start.y && b.Bottom() == current.y) || (b.y == current.y && b.Bottom() == start.y)
  {
    Bbox(Min(start.x, current.x), Min(start.y, current.y), Abs(current.x - start.x), Abs(current.y - start.y))
  }

  /** The drag direction does not matter, and a drag that has not moved is the zero-size start box. */
  lemma DragBoxSymmetric(a: Point, b: Point)
    ensures DragBox(a, b) == DragBox(b, a)
    ensures DragBox(a, a) == Bbox(a.x, a.y, 0.0, 0.0)
  {
  }

  /** `selectedBlocks.map(id => visualBlocks.find(b => b.id === id))`, before the filter. */
  function FindBlock(blocks: seq<VisualBlock>, id: int): (r: Option<VisualBlock>)
    ensures r.Some? <==> exists k :: 0 <= k < |blocks| && blocks[k].id == id
    ensures r.Some? ==> r.value in blocks && r.value.id == id
  {
    var i := FindIndex(blocks, (b: VisualBlock) => b.id == id);
    if i == -1 then None else Some(blocks[i])
  }

  /** The found blocks in selection order, missing ids skipped (`.filter(Boolean)`). */
  function FoundBlocks(ids: seq<int>, blocks: seq<VisualBlock>): (r: seq<VisualBlock>)
    ensures |r| <= |ids|
    ensures forall b :: b in r ==> b in blocks && b.id in ids
    ensures r == [] <==> forall k :: 0 <= k < |ids| ==> FindBlock(blocks, ids[k]).None?
  {
    if ids == [] then []
    else
      var init := FoundBlocks(ids[..|ids| - 1], blocks);
      var last := FindBlock(blocks, ids[|ids| - 1]);
      assert forall k :: 0 <= k < |ids| - 1 ==> ids[..|ids| - 1][k] == ids[k];
      if last.Some? then init + [last.value] else init
  }

  function Boxes(blocks: seq<VisualBlock>): (r: seq<Bbox>)
    ensures |r| == |blocks|
    ensures forall k :: 0 <= k < |blocks| ==> r[k] == blocks[k].bbox
  {
    seq(|blocks|, k requires 0 <= k < |blocks| => blocks[k].bbox)
  }

  /** `name || \`区域 ${regions.length + 1}\``: an empty or missing name gets the ordinal default. */
  function RegionName(name: Option<string>, count: nat): (r: string)
    ensures name.Some? && name.value != "" ==> r == name.value
    ensures !(name.Some? && name.value != "") ==> r == "区域 " + NatToString(count + 1)
  {
    if name.Some? && name.value != "" then name.value else "区域 " + NatToString(count + 1)
  }

  /** Default names of different ordinals differ. */
  lemma DefaultNamesDistinct(m: nat, n: nat)
    requires m != n
    ensures RegionName(None, m) != RegionName(None, n)
  {
    var a := RegionName(None, m);
    var b := RegionName(None, n);
    if a == b {
      assert a[3..] == NatToString(m + 1) && b[3..] == NatToString(n + 1);
      NatToStringInjective(m + 1, n + 1);
    }
  }

  /**
   * The body `createRegion` posts as written: `{name, annotation, blocks, bbox}`, with no
   * `rootBlockId` and no `blockIds`.
   */
  function ClientRequest(r: Region): (body: map<string, Json>)
    ensures body.Keys == {"name", "annotation", "blocks", "bbox"}
    ensures "rootBlockId" !in body && "blockIds" !in body
    ensures body["blocks"] == NumArray(r.blocks) && body["bbox"] == BboxJson(r.bbox)
  {
    map["name" := JStr(r.name), "annotation" := JStr(r.annotation),
      "blocks" := NumArray(r.blocks), "bbox" := BboxJson(r.bbox)]
  }

  /**
   * The body the region service reads, added to the client's: the block ids as `blockIds`
   * and the first selected block as `rootBlockId`.
   */
  function SaveRequest(r: Region): (body: map<string, Json>)
    ensures forall key :: key in ClientRequest(r) ==> key in body && body[key] == ClientRequest(r)[key]
    ensures "blockIds" in body && body["blockIds"] == NumArray(r.blocks)
    ensures |r.blocks| > 0 ==> "rootBlockId" in body && body["rootBlockId"] == JNum(r.blocks[0] as real)
  {
    var withIds := ClientRequest(r)["blockIds" := NumArray(r.blocks)];
    if |r.blocks| > 0 then withIds["rootBlockId" := JNum(r.blocks[0] as real)] else withIds
  }

  /** `regionsSorted`'s comparator `b.createdAt - a.createdAt`: newest first. */
  function NewerFirst(a: Region, b: Region): bool
  {
    a.createdAt >= b.createdAt
  }

  lemma NewerFirstIsTotalPreorder()
    ensures TotalPreorder(NewerFirst)
  {
  }

  /** The sorted copy is newest first and holds exactly the regions. */
  lemma RegionsSortedSpec(regions: seq<Region>)
    ensures SortedBy(Sort(regions, NewerFirst), NewerFirst)
    ensures multiset(Sort(regions, NewerFirst)) == multiset(regions)
  {
    NewerFirstIsTotalPreorder();
    SortSorted(regions, NewerFirst);
  }

  class AnnotationStore {
    var selectedBlocks: seq<int>
    var highlightedBlock: Option<int>
    var currentBlock: Option<int>
    var regions: seq<Region>
    var selectionBox: Option<Bbox>
    var isSelecting: bool
    var selectionMode: bool
    var selectionStart: Option<Point>
    var keyboardNavigation: bool

    /**
     * No id is selected twice; a drag is in progress exactly when it has a start point; a
     * rectangle exists only during a drag and is never inside out.
     */
    predicate Valid()
      reads this
    {
      && NoDuplicates(selectedBlocks)
      && (isSelecting <==> selectionStart.Some?)
      && (selectionBox.Some? ==> isSelecting)
      && (selectionBox.Some? ==> selectionBox.value.width >= 0.0 && selectionBox.value.height >= 0.0)
    }

    predicate Initial()
      reads this
    {
      && selectedBlocks == [] && highlightedBlock == None && currentBlock == None && regions == []
      && selectionBox == None && !isSelecting && !selectionMode && selectionStart == None
      && !keyboardNavigation
    }

    constructor()
      ensures Initial() && Valid()
    {
      selectedBlocks := [];
      highlightedBlock := None;
      currentBlock := None;
      regions := [];
      selectionBox := None;
      isSelecting := false;
      selectionMode := false;
      selectionStart := None;
      keyboardNavigation := false;
    }

    predicate HasSelectedBlocks()
      reads this
    {
      |selectedBlocks| > 0
    }

    function SelectedBlocksCount(): nat
      reads this
    {
      |selectedBlocks|
    }

    predicate HasRegions()
      reads this
    {
      |regions| > 0
    }

    function RegionsCount(): nat
      reads this
    {
      |regions|
    }

    function RegionsSorted(): seq<Region>
      reads this
    {
      Sort(regions, NewerFirst)
    }

    predicate CanCreateRegion()
      reads this
    {
      |selectedBlocks| > 0
    }

    method ToggleBlockSelection(blockId: int)
      requires Valid()
      modifies this`selectedBlocks
      ensures Valid()
      ensures selectedBlocks == Toggled(old(selectedBlocks), blockId)
    {
      ToggledNoDuplicates(selectedBlocks, blockId);
      selectedBlocks := Toggled(selectedBlocks, blockId);
    }

    method AddBlockToSelection(blockId: int)
      requires Valid()
      modifies this`selectedBlocks
      ensures Valid()
      ensures blockId in old(selectedBlocks) ==> selectedBlocks == old(selectedBlocks)
      ensures blockId !in old(selectedBlocks) ==> selectedBlocks == old(selectedBlocks) + [blockId]
    {
      if blockId !in selectedBlocks {
        SnocNoDuplicates(selectedBlocks, blockId);
        selectedBlocks := selectedBlocks + [blockId];
      }
    }

    method RemoveBlockFromSelection(blockId: int)
      requires Valid()
      modifies this`selectedBlocks
      ensures Valid()
      ensures selectedBlocks == Removed(old(selectedBlocks), blockId)
      ensures blockId !in selectedBlocks
    {
      var index := IndexOf(selectedBlocks, blockId);
      RemovedIsGone(selectedBlocks, blockId);
      if index > -1 {
        selectedBlocks := RemoveAt(selectedBlocks, index);
      }
    }

    method ClearSelection()
      requires Valid()
      modifies this`selectedBlocks, this`highlightedBlock, this`currentBlock
      ensures Valid()
      ensures selectedBlocks == [] && highlightedBlock == None && currentBlock == None
    {
      selectedBlocks := [];
      highlightedBlock := None;
      currentBlock := None;
    }

    method SetHighlightedBlock(blockId: Option<int>)
      modifies this`highlightedBlock
      ensures highlightedBlock == blockId
    {
      highlightedBlock := blockId;
    }

    method SetCurrentBlock(blockId: Option<int>)
      modifies this`currentBlock
      ensures currentBlock == blockId
    {
      currentBlock := blockId;
    }

    method StartSelection(start: Point)
      requires Valid()
      modifies this`isSelecting, this`selectionStart, this`selectionBox
      ensures Valid()
      ensures isSelecting && selectionStart == Some(start)
      ensures selectionBox == Some(Bbox(start.x, start.y, 0.0, 0.0))
    {
      isSelecting := true;
      selectionStart := Some(start);
      selectionBox := Some(Bbox(start.x, start.y, 0.0, 0.0));
    }

    method UpdateSelection(current: Point)
      requires Valid()
      modifies this`selectionBox
      ensures Valid()
      ensures !isSelecting ==> selectionBox == old(selectionBox)
      ensures isSelecting ==> selectionBox == Some(DragBox(selectionStart.value, current))
    {
      if !isSelecting || selectionStart.None? {
        return;
      }
      var start := selectionStart.value;
      selectionBox := Some(Bbox(Min(start.x, current.x), Min(start.y, current.y),
        Abs(current.x - start.x), Abs(current.y - start.y)));
    }

    method EndSelection()
      requires Valid()
      modifies this`isSelecting, this`selectionStart, this`selectionBox
      ensures Valid()
      ensures !isSelecting && selectionStart == None && selectionBox == None
    {
      isSelecting := false;
      selectionStart := None;
      selectionBox := None;
    }

    method ToggleSelectionMode()
      requires Valid()
      modifies this`selectionMode, this`isSelecting, this`selectionStart, this`selectionBox
      ensures Valid()
      ensures selectionMode == !old(selectionMode)
      ensures !selectionMode ==> !isSelecting && selectionStart == None && selectionBox == None
      ensures selectionMode ==>
        (isSelecting == old(isSelecting) && selectionStart == old(selectionStart) && selectionBox == old(selectionBox))
    {
      selectionMode := !selectionMode;
      if !selectionMode {
        EndSelection();
      }
    }

    /**
     * `createRegion` with the viewer's blocks, the new id (`Date.now()`) and the time as
     * parameters. It also yields the body it posts, `ClientRequest`, as written; the post's
     * outcome changes nothing here, so the selection is cleared even when saving fails.
     */
    method CreateRegion(name: Option<string>, visualBlocks: seq<VisualBlock>, id: int, now: int)
      returns (region: Option<Region>, request: Option<map<string, Json>>)
      requires Valid()
      modifies this`selectedBlocks, this`highlightedBlock, this`currentBlock, this`regions
      ensures Valid()
      ensures region.None? <==> FoundBlocks(old(selectedBlocks), visualBlocks) == []
      ensures region.None? ==>
        (request.None? && selectedBlocks == old(selectedBlocks) && highlightedBlock == old(highlightedBlock)
        && currentBlock == old(currentBlock) && regions == old(regions))
      ensures region.Some? ==>
        && region.value.id == id && region.value.annotation == ""
        && region.value.name == RegionName(name, |old(regions)|)
        && region.value.blocks == old(selectedBlocks)
        && region.value.bbox == BoundingBox(Boxes(FoundBlocks(old(selectedBlocks), visualBlocks)))
        && region.value.createdAt == now && region.value.updatedAt == now
        && regions == old(regions) + [region.value]
        && request == Some(ClientRequest(region.value))
        && selectedBlocks == [] && highlightedBlock == None && currentBlock == None
    {
      if |selectedBlocks| == 0 {
        return None, None;
      }
      var found := FoundBlocks(selectedBlocks, visualBlocks);
      if |found| == 0 {
        return None, None;
      }
      var bbox := CalculateBoundingBox(Boxes(found));
      var r := Region(id, RegionName(name, |regions|), "", selectedBlocks, bbox, now, now);
      regions := regions + [r];
      request := Some(ClientRequest(r));
      ClearSelection();
      region := Some(r);
    }

    /** `updateRegionAnnotation`: the first region with that id gets the text and a new update time. */
    method UpdateRegionAnnotation(regionId: int, annotation: string, now: int)
      modifies this`regions
      ensures var i := FindIndex(old(regions), (r: Region) => r.id == regionId);
        && (i == -1 ==> regions == old(regions))
        && (i >= 0 ==> regions == old(regions)[i := old(regions)[i].(annotation := annotation, updatedAt := now)])
    {
      var i := FindIndex(regions, (r: Region) => r.id == regionId);
      if i >= 0 {
        regions := regions[i := regions[i].(annotation := annotation, updatedAt := now)];
      }
    }

    /** `deleteRegion`: removes the first region with that id, the others stay in order. */
    method DeleteRegion(regionId: int)
      modifies this`regions
      ensures regions == RemoveFirstWhere(old(regions), (r: Region) => r.id == regionId)
    {
      var index := FindIndex(regions, (r: Region) => r.id == regionId);
      SpliceFoundIsRemoveFirst(regions, (r: Region) => r.id == regionId);
      if index > -1 {
        regions := RemoveAt(regions, index);
      }
    }

    /** `loadRegions` with the response as a parameter: a failed request leaves the list alone. */
    method LoadRegions(response: Option<seq<Region>>)
      modifies this`regions
      ensures response.Some? ==> regions == response.value
      ensures response.None? ==> regions == old(regions)
    {
      if response.Some? {
        regions := response.value;
      }
    }

    method ToggleKeyboardNavigation()
      modifies this`keyboardNavigation
      ensures keyboardNavigation == !old(keyboardNavigation)
    {
      keyboardNavigation := !keyboardNavigation;
    }

    method Reset()
      modifies this
      ensures Initial() && Valid()
    {
      selectedBlocks := [];
      highlightedBlock := None;
      currentBlock := None;
      regions := [];
      selectionBox := None;
      isSelecting := false;
      selectionMode := false;
      selectionStart := None;
      keyboardNavigation := false;
    }
  }

  /** Deleting keeps every other region, in order, and an unknown id changes nothing. */
  lemma DeleteRegionSpec(regions: seq<Region>, regionId: int)
    ensures (forall k :: 0 <= k < |regions| ==> regions[k].id != regionId) ==>
      RemoveFirstWhere(regions, (r: Region) => r.id == regionId) == regions
    ensures FindIndex(regions, (r: Region) => r.id == regionId) >= 0 ==>
      RemoveFirstWhere(regions, (r: Region) => r.id == regionId)
        == RemoveAt(regions, FindIndex(regions, (r: Region) => r.id == regionId))
  {
    SpliceFoundIsRemoveFirst(regions, (r: Region) => r.id == regionId);
  }
}
