/**
 * `GET /api/regions` (server/api/regions.get.ts) as a function of the tables: every region
 * row, ordered by creation time, with its block ids, its first annotation and its decoded box.
 * The queries' own failures are parameters: `outage` fails the listing, `failing` names the
 * regions whose follow-up queries fail.
 */
module RegionsGet {
  import opened Wrappers
  import opened Geometry
  import opened Json
  import opened Schema
  import opened Http
  import opened Sorting
  import opened Seqs

  /** One listed region: the row's own columns, then `bbox`, `blocks` and `annotation`. */
  datatype RegionEntry = RegionEntry(
    id: int,
    name: Option<string>,
    bbox: Json,
    createdAt: int,
    updatedAt: int,
    blocks: seq<int>,
    annotation: string)

  /** The `{x: 0, y: 0, width: 0, height: 0}` fallback. */
  const ZeroBboxJson := BboxJson(ZeroBbox)

  const ListFailurePrefix := "Failed to load regions: "

  /** `ORDER BY created_at`. */
  function ByCreatedAt(a: RegionRow, b: RegionRow): bool
  {
    a.createdAt <= b.createdAt
  }

  lemma ByCreatedAtIsTotalPreorder()
    ensures TotalPreorder(ByCreatedAt)
  {
  }

  /** `SELECT block_id FROM region_blocks WHERE region_id = ?`, in table order. */
  function BlockIdsOf(memberships: seq<RegionBlockRow>, regionId: int): (r: seq<int>)
    ensures |r| <= |memberships|
  {
    if memberships == [] then []
    else
      var last := memberships[|memberships| - 1];
      BlockIdsOf(memberships[..|memberships| - 1], regionId)
        + (if last.regionId == regionId then [last.blockId] else [])
  }

  /** The block ids listed are exactly those of the region's membership rows, repeats included. */
  lemma {:induction false} BlockIdsOfMembers(memberships: seq<RegionBlockRow>, regionId: int, b: int)
    ensures b in BlockIdsOf(memberships, regionId) <==> RegionBlockRow(regionId, b) in memberships
  {
    if memberships != [] {
      var init := memberships[..|memberships| - 1];
      BlockIdsOfMembers(init, regionId, b);
      assert memberships == init + [memberships[|memberships| - 1]];
    }
  }

  /** Memberships added later are listed after the earlier ones. */
  lemma {:induction false} BlockIdsOfConcat(a: seq<RegionBlockRow>, b: seq<RegionBlockRow>, regionId: int)
    ensures BlockIdsOf(a + b, regionId) == BlockIdsOf(a, regionId) + BlockIdsOf(b, regionId)
    decreases |b|
  {
    if b == [] {
      assert a + b == a;
    } else {
      var b' := b[..|b| - 1];
      assert (a + b)[..|a + b| - 1] == a + b';
      BlockIdsOfConcat(a, b', regionId);
    }
  }

  /** A region no membership row names lists no blocks. */
  lemma {:induction false} BlockIdsOfNone(memberships: seq<RegionBlockRow>, regionId: int)
    requires forall k :: 0 <= k < |memberships| ==> memberships[k].regionId != regionId
    ensures BlockIdsOf(memberships, regionId) == []
  {
    if memberships != [] {
      BlockIdsOfNone(memberships[..|memberships| - 1], regionId);
    }
  }

  /** `annotations[0]?.content || ''` over `... WHERE region_id = ? LIMIT 1`. */
  function FirstAnnotation(annotations: seq<AnnotationRow>, regionId: int): (r: string)
    ensures (forall k :: 0 <= k < |annotations| ==> annotations[k].regionId != regionId) ==> r == ""
    ensures forall k :: 0 <= k < |annotations| ==>
      (annotations[k].regionId == regionId && (forall i :: 0 <= i < k ==> annotations[i].regionId != regionId)
      ==> r == annotations[k].content)
  {
    var i := FindIndex(annotations, (a: AnnotationRow) => a.regionId == regionId);
    if i == -1 then "" else annotations[i].content
  }

  /** `JSON.parse(region.bbox)`, with the zero rectangle when the text is not JSON. */
  function DecodeRegionBox(t: StoredText): (j: Json)
    ensures t.JsonText? ==> j == t.value
    ensures t.MalformedText? ==> j == ZeroBboxJson
  {
    match Parse(t)
    case Success(v) => v
    case Failure(_) => ZeroBboxJson
  }

  /** One region's entry; when its own queries fail, the entry falls back to a zero box, no blocks and no annotation. */
  function Hydrate(row: RegionRow, memberships: seq<RegionBlockRow>, annotations: seq<AnnotationRow>, fails: bool)
    : (e: RegionEntry)
    ensures e.id == row.id && e.name == row.name && e.createdAt == row.createdAt && e.updatedAt == row.updatedAt
    ensures fails ==> e.bbox == ZeroBboxJson && e.blocks == [] && e.annotation == ""
    ensures !fails ==>
      && e.bbox == DecodeRegionBox(row.bbox)
      && e.blocks == BlockIdsOf(memberships, row.id)
      && e.annotation == FirstAnnotation(annotations, row.id)
  {
    if fails then RegionEntry(row.id, row.name, ZeroBboxJson, row.createdAt, row.updatedAt, [], "")
    else
      RegionEntry(row.id, row.name, DecodeRegionBox(row.bbox), row.createdAt, row.updatedAt,
        BlockIdsOf(memberships, row.id), FirstAnnotation(annotations, row.id))
  }

  /** The handler's answer: a 500 when the region query fails, otherwise one entry per row in creation order. */
  function ListRegions(regions: seq<RegionRow>, memberships: seq<RegionBlockRow>, annotations: seq<AnnotationRow>,
    outage: Option<string>, failing: set<int>): (r: Response<seq<RegionEntry>>)
    ensures outage.Some? ==> r == InternalError(ListFailurePrefix, outage.value)
    ensures outage.None? ==> r.Ok? && |r.value| == |regions|
  {
    if outage.Some? then InternalError(ListFailurePrefix, outage.value)
    else
      var sorted := Sort(regions, ByCreatedAt);
      Ok(seq(|sorted|, k requires 0 <= k < |sorted| => Hydrate(sorted[k], memberships, annotations, sorted[k].id in failing)))
  }

  /**
   * The listing holds every region exactly once, oldest first, each entry hydrated from its
   * own row: a bad box or a failing query in one region leaves the other entries as they are.
   */
  lemma ListRegionsSpec(regions: seq<RegionRow>, memberships: seq<RegionBlockRow>, annotations: seq<AnnotationRow>,
    failing: set<int>)
    ensures var r := ListRegions(regions, memberships, annotations, None, failing);
      var sorted := Sort(regions, ByCreatedAt);
      && r.Ok? && multiset(sorted) == multiset(regions) && SortedBy(sorted, ByCreatedAt)
      && (forall k :: 0 <= k < |r.value| ==> r.value[k] == Hydrate(sorted[k], memberships, annotations, sorted[k].id in failing))
      && (forall i, j :: 0 <= i < j < |r.value| ==> r.value[i].createdAt <= r.value[j].createdAt)
  {
    ByCreatedAtIsTotalPreorder();
    SortSorted(regions, ByCreatedAt);
  }

  /** Rows already in creation order (as inserts with a clock that does not go back leave them) are listed in table order. */
  lemma ListInTableOrder(regions: seq<RegionRow>, memberships: seq<RegionBlockRow>, annotations: seq<AnnotationRow>,
    failing: set<int>, k: nat)
    requires SortedBy(regions, ByCreatedAt)
    requires k < |regions|
    ensures ListRegions(regions, memberships, annotations, None, failing).value[k]
      == Hydrate(regions[k], memberships, annotations, regions[k].id in failing)
  {
    ByCreatedAtIsTotalPreorder();
    SortOfSorted(regions, ByCreatedAt);
  }
}
