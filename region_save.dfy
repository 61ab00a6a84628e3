/**
 * What happens to a region the selection store saves: the body it posts, what the
 * create-region handler stores from it, and what the region listing then returns.
 */
module RegionSave {
  import opened Wrappers
  import opened Geometry
  import opened Json
  import opened Schema
  import opened Database
  import opened RegionsGet
  import opened Annotation
  import opened Http
  import opened Pdf

  /**
   * As written, the client's body has no `rootBlockId`, so the region insert breaks the
   * NOT NULL constraint: the handler answers 500 and stores nothing. Its `blocks` are not
   * read either, so no membership would be written even if the insert passed.
   */
  lemma ClientRequestRejected(r: Region, id: int, now: int)
    ensures RegionInsert(ClientRequest(r), id, now) == Failure("NOT NULL constraint failed: regions.root_block_id")
    ensures PlanMemberships(Get(ClientRequest(r), "blockIds")) == NoMemberships
  {
    var body := ClientRequest(r);
    assert "rootBlockId" !in body && "blockIds" !in body;
    assert TextField(Get(body, "name")) == Val(r.name);
    assert IntField(Get(body, "rootBlockId")) == Omitted;
    assert NotNull(IntField(Get(body, "rootBlockId")), "regions.root_block_id")
      == Failure("NOT NULL constraint failed: " + "regions.root_block_id");
    assert "NOT NULL constraint failed: " + "regions.root_block_id" == "NOT NULL constraint failed: regions.root_block_id";
  }

  /**
   * The save as the program runs it: the selection store creates the region and the body it
   * posts, and the create-region handler receives that body. Whenever a region is created,
   * the handler answers 500 with the NOT NULL error and the tables are left as they were,
   * while the store keeps the region and has cleared the selection.
   */
  method CreateAndPost(store: AnnotationStore, db: Db, name: Option<string>,
    visualBlocks: seq<VisualBlock>, id: int, now: int)
    returns (region: Option<Region>, resp: Option<Response<RegionRow>>)
    requires store.Valid() && db.Valid()
    modifies store`selectedBlocks, store`highlightedBlock, store`currentBlock, store`regions
    modifies db`regions, db`nextRegionId, db`regionBlocks
    ensures store.Valid() && db.Valid()
    ensures region.None? <==> resp.None?
    ensures region.Some? ==> store.regions == old(store.regions) + [region.value] && store.selectedBlocks == []
    ensures resp.Some? ==>
      resp.value == InternalError(RegionFailurePrefix, "NOT NULL constraint failed: regions.root_block_id")
    ensures db.regions == old(db.regions) && db.nextRegionId == old(db.nextRegionId)
      && db.regionBlocks == old(db.regionBlocks)
  {
    var request;
    region, request := store.CreateRegion(name, visualBlocks, id, now);
    if request.None? {
      return region, None;
    }
    ClientRequestRejected(region.value, db.nextRegionId, now);
    var r := db.PostRegion(request.value, now);
    resp := Some(r);
  }

  /**
   * The corrected body is accepted: one region row with the region's name, first block and
   * box, and one membership per selected block, in selection order.
   */
  lemma SaveRequestStored(r: Region, id: int, now: int)
    requires |r.blocks| > 0
    ensures var row := RegionInsert(SaveRequest(r), id, now);
      && row.Success?
      && row.value == RegionRow(id, Some(r.name), r.blocks[0], JsonText(BboxJson(r.bbox)), now, now)
    ensures var plan := PlanMemberships(Get(SaveRequest(r), "blockIds"));
      && plan.InsertEach? && PlanSucceeds(plan)
      && |PlannedRows(id, plan)| == |r.blocks|
      && forall k :: 0 <= k < |r.blocks| ==> PlannedRows(id, plan)[k] == RegionBlockRow(id, r.blocks[k])
  {
    var body := SaveRequest(r);
    assert body["name"] == JStr(r.name);
    assert body["bbox"] == BboxJson(r.bbox);
    var items := NumArray(r.blocks).items;
    assert forall k :: 0 <= k < |items| ==> IntField(Some(items[k])) == Val(r.blocks[k]);
    MembershipRowsOnePerElement(id, items);
  }

  /**
   * A region saved with the corrected body into tables where nothing yet names its new id is
   * listed with the selection's blocks, its box and its name; its annotation is empty, as it
   * was when created.
   */
  lemma SavedRegionListed(r: Region, id: int, now: int, memberships: seq<RegionBlockRow>,
    annotations: seq<AnnotationRow>)
    requires |r.blocks| > 0 && r.annotation == ""
    requires forall k :: 0 <= k < |memberships| ==> memberships[k].regionId < id
    requires forall k :: 0 <= k < |annotations| ==> annotations[k].regionId != id
    ensures var row := RegionInsert(SaveRequest(r), id, now).value;
      var stored := memberships + PlannedRows(id, PlanMemberships(Get(SaveRequest(r), "blockIds")));
      var e := Hydrate(row, stored, annotations, false);
      && e.id == id && e.name == Some(r.name) && e.createdAt == now
      && e.blocks == r.blocks && e.bbox == BboxJson(r.bbox) && e.annotation == r.annotation
  {
    SaveRequestStored(r, id, now);
    var added := PlannedRows(id, PlanMemberships(Get(SaveRequest(r), "blockIds")));
    BlockIdsOfConcat(memberships, added, id);
    BlockIdsOfNone(memberships, id);
    BlockIdsOfOwn(added, id, r.blocks);
  }

  /** Membership rows that all name the region list their block ids in order. */
  lemma {:induction false} BlockIdsOfOwn(rows: seq<RegionBlockRow>, id: int, blocks: seq<int>)
    requires |rows| == |blocks|
    requires forall k :: 0 <= k < |rows| ==> rows[k] == RegionBlockRow(id, blocks[k])
    ensures BlockIdsOf(rows, id) == blocks
  {
    if rows != [] {
      BlockIdsOfOwn(rows[..|rows| - 1], id, blocks[..|blocks| - 1]);
      assert blocks == blocks[..|blocks| - 1] + [blocks[|blocks| - 1]];
    }
  }
}
