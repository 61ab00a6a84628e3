/**
 * The server's store as an in-memory database: one sequence of rows per table and an
 * auto-increment counter per table with an id column, with the two insert handlers
 * (server/api/regions.post.ts, server/api/annotations.post.ts) as methods on it.
 */
module Database {
  import opened Wrappers
  import opened Json
  import opened Schema
  import opened Http
  import opened JsText

  const RegionFailurePrefix := "Failed to create region: "
  const AnnotationFailurePrefix := "Failed to create annotation: "

  /** The `regions` row the create-region handler inserts from the body's `name`, `rootBlockId` and `bbox`. */
  function RegionInsert(body: map<string, Json>, id: int, now: int): (r: Result<RegionRow, string>)
    ensures r.Success? <==>
      && IntField(Get(body, "rootBlockId")).Val? && "bbox" in body
      && !TextField(Get(body, "name")).Mistyped?
    ensures r.Success? ==>
      && r.value.id == id && r.value.createdAt == now && r.value.updatedAt == now
      && JNum(r.value.rootBlockId as real) == body["rootBlockId"]
      && r.value.bbox == JsonText(body["bbox"])
      && (r.value.name.Some? <==> "name" in body && body["name"].JStr?)
      && (r.value.name.Some? ==> body["name"] == JStr(r.value.name.value))
  {
    NewRegionRow(id, now, TextField(Get(body, "name")), IntField(Get(body, "rootBlockId")),
      JsonField(Stringify(Get(body, "bbox"))))
  }

  /**
   * `Number(s) > 0` for a string read as a decimal integer: `Number` ignores surrounding white
   * space, and the digits must not all be 0. Any other string counts as `NaN` here.
   */
  predicate DigitsPositive(s: string)
  {
    var t := Trim(s);
    && (forall k :: 0 <= k < |t| ==> '0' <= t[k] <= '9')
    && exists k :: 0 <= k < |t| && t[k] != '0'
  }

  /** A digit string is positive exactly when it has a non-zero digit. */
  lemma {:induction false} DecimalPositive(t: string)
    requires forall k :: 0 <= k < |t| ==> '0' <= t[k] <= '9'
    ensures DecimalValue(t) > 0 <==> exists k :: 0 <= k < |t| && t[k] != '0'
  {
    if t != [] {
      var init := t[..|t| - 1];
      DecimalPositive(init);
      if exists k :: 0 <= k < |init| && init[k] != '0' {
        var k :| 0 <= k < |init| && init[k] != '0';
        assert t[k] != '0';
      }
      if exists k :: 0 <= k < |t| && t[k] != '0' {
        var k :| 0 <= k < |t| && t[k] != '0';
        if k < |init| {
          assert init[k] != '0';
        }
      }
    }
  }

  /** `DigitsPositive` is the numeric comparison: the trimmed digits read as a positive number. */
  lemma DigitsPositiveIsValue(s: string)
    requires forall k :: 0 <= k < |Trim(s)| ==> '0' <= Trim(s)[k] <= '9'
    ensures DigitsPositive(s) <==> DecimalValue(Trim(s)) > 0
  {
    DecimalPositive(Trim(s));
  }

  /**
   * `v > 0`, where `>` converts a parsed value to a number: `null` is 0, `true` is 1, a string
   * is read as a number, an array becomes its `join(",")` (so only a one-element array that
   * does not render as `true`/`false` can be a number), and a plain object is `NaN`.
   */
  predicate GreaterThanZero(v: Json)
  {
    match v
    case JNull => false
    case JBool(b) => b
    case JNum(n) => n > 0.0
    case JStr(s) => DigitsPositive(s)
    case JArray(items) => |items| == 1 && !items[0].JBool? && GreaterThanZero(items[0])
    case JObject(_) => false
  }

  /** `blockIds.length > 0`: numbers and booleans have no `length`, and `undefined > 0` is false. */
  predicate LengthPositive(j: Json)
  {
    match j
    case JArray(items) => |items| > 0
    case JStr(s) => |s| > 0
    case JObject(fields) => "length" in fields && GreaterThanZero(fields["length"])
    case _ => false
  }

  /** What `if (blockIds && blockIds.length > 0) blockIds.map(...)` does with the body's `blockIds`. */
  datatype MembershipPlan =
    | NoMemberships
    | InsertEach(items: seq<Json>)
    | NotAnArray

  function PlanMemberships(blockIds: Option<Json>): (p: MembershipPlan)
    ensures blockIds.None? ==> p.NoMemberships?
    ensures p.InsertEach? <==> blockIds.Some? && blockIds.value.JArray? && |blockIds.value.items| > 0
    ensures p.InsertEach? ==> p.items == blockIds.value.items
    ensures p.NotAnArray? <==>
      blockIds.Some? && Truthy(blockIds.value) && LengthPositive(blockIds.value) && !blockIds.value.JArray?
  {
    match blockIds
    case None => NoMemberships
    case Some(j) =>
      if !Truthy(j) || !LengthPositive(j) then NoMemberships
      else if j.JArray? then InsertEach(j.items)
      // A string or an object with a positive `length` passes the guard and has no `map`.
      else NotAnArray
  }

  /**
   * Values that are not arrays but whose `length` compares above 0 reach `.map` and throw:
   * a non-empty string, and objects whose `length` is a numeric string, `true` or `[1]`.
   * A `length` that reads as `NaN` or 0 skips the memberships.
   */
  lemma LengthCoerced()
    ensures PlanMemberships(Some(JStr("7"))) == NotAnArray
    ensures PlanMemberships(Some(JObject(map["length" := JStr(" 12 ")]))) == NotAnArray
    ensures PlanMemberships(Some(JObject(map["length" := JBool(true)]))) == NotAnArray
    ensures PlanMemberships(Some(JObject(map["length" := JArray([JNum(1.0)])]))) == NotAnArray
    ensures PlanMemberships(Some(JObject(map["length" := JStr("00")]))) == NoMemberships
    ensures PlanMemberships(Some(JObject(map["length" := JArray([JBool(true)])]))) == NoMemberships
    ensures PlanMemberships(Some(JObject(map["length" := JArray([JNum(1.0), JNum(2.0)])]))) == NoMemberships
  {
    assert Trim(" 12 ") == "12" by {
      assert IsWhiteSpace(' ') && !IsWhiteSpace('1') && !IsWhiteSpace('2');
      TrimUnique(" 12 ", 1, 3);
    }
    assert (" 12 "[1..3])[0] != '0';
    assert Trim("00") == "00" by {
      TrimUnique("00", 0, 2);
    }
  }

  /** Every element is an integer, so each membership insert succeeds. */
  predicate AllInsertable(items: seq<Json>)
  {
    forall k :: 0 <= k < |items| ==> IntField(Some(items[k])).Val?
  }

  /** The rows the membership inserts leave behind, in array order: an element that is not an integer stores nothing. */
  function MembershipRows(regionId: int, items: seq<Json>): seq<RegionBlockRow>
  {
    if items == [] then []
    else
      var init := MembershipRows(regionId, items[..|items| - 1]);
      var row := NewRegionBlockRow(Val(regionId), IntField(Some(items[|items| - 1])));
      if row.Success? then init + [row.value] else init
  }

  /** With integer elements only, there is one row per element, in order, repeated ids included. */
  lemma {:induction false} MembershipRowsOnePerElement(regionId: int, items: seq<Json>)
    requires AllInsertable(items)
    ensures |MembershipRows(regionId, items)| == |items|
    ensures forall k :: 0 <= k < |items| ==>
      MembershipRows(regionId, items)[k] == RegionBlockRow(regionId, IntField(Some(items[k])).v)
  {
    if items != [] {
      var init := items[..|items| - 1];
      assert forall k :: 0 <= k < |init| ==> init[k] == items[k];
      MembershipRowsOnePerElement(regionId, init);
    }
  }

  /** Every stored membership points at the new region. */
  lemma {:induction false} MembershipRowsOfRegion(regionId: int, items: seq<Json>)
    ensures |MembershipRows(regionId, items)| <= |items|
    ensures forall row :: row in MembershipRows(regionId, items) ==> row.regionId == regionId
  {
    if items != [] {
      MembershipRowsOfRegion(regionId, items[..|items| - 1]);
    }
  }

  function PlannedRows(regionId: int, plan: MembershipPlan): seq<RegionBlockRow>
  {
    if plan.InsertEach? then MembershipRows(regionId, plan.items) else []
  }

  /** The memberships step ends without an error. */
  predicate PlanSucceeds(plan: MembershipPlan)
  {
    match plan
    case NoMemberships => true
    case InsertEach(items) => AllInsertable(items)
    case NotAnArray => false
  }

  /**
   * The `annotations` row the create-annotation handler inserts: `type` falls back to `'text'`
   * only when it is left out, `position` is stringified when truthy and NULL otherwise, and
   * `isVisible` is always 1.
   */
  function AnnotationInsert(body: map<string, Json>, id: int, now: int): (r: Result<AnnotationRow, string>)
    ensures r.Success? <==>
      && IntField(Get(body, "regionId")).Val? && TextField(Get(body, "content")).Val?
      && !TextField(Get(body, "type")).Mistyped?
    ensures r.Success? ==>
      && r.value.id == id && r.value.createdAt == now && r.value.updatedAt == now
      && JNum(r.value.regionId as real) == body["regionId"] && JStr(r.value.content) == body["content"]
      && ("type" !in body ==> r.value.annotationType == Some("text"))
      && ("type" in body && body["type"] == JNull ==> r.value.annotationType == None)
      && ("type" in body && body["type"].JStr? ==> r.value.annotationType == Some(body["type"].s))
      && ("position" in body && Truthy(body["position"]) ==> r.value.position == Some(JsonText(body["position"])))
      && (!("position" in body && Truthy(body["position"])) ==> r.value.position == None)
      && r.value.isVisible == Some(1)
  {
    var annotationType := if "type" in body then TextField(Get(body, "type")) else Val("text");
    var position := if "position" in body && Truthy(body["position"]) then Val(JsonText(body["position"])) else Null;
    NewAnnotationRow(id, now, IntField(Get(body, "regionId")), TextField(Get(body, "content")),
      annotationType, position, Val(1))
  }

  /** Ids in a table increase with insertion order and stay below the table's counter. */
  predicate FreshIds(ids: seq<int>, next: int)
  {
    && (forall i, j :: 0 <= i < j < |ids| ==> ids[i] < ids[j])
    && (forall i :: 0 <= i < |ids| ==> ids[i] < next)
  }

  /** Appending the counter's value keeps the ids increasing and distinct. */
  lemma FreshIdsAppend(ids: seq<int>, next: int)
    requires FreshIds(ids, next)
    ensures FreshIds(ids + [next], next + 1)
    ensures forall i :: 0 <= i < |ids| ==> ids[i] != next
  {
  }

  /** The id column of a table, row by row. */
  function Ids<R>(rows: seq<R>, id: R -> int): (r: seq<int>)
    ensures |r| == |rows| && forall k :: 0 <= k < |rows| ==> r[k] == id(rows[k])
  {
    seq(|rows|, k requires 0 <= k < |rows| => id(rows[k]))
  }

  class Db {
    var visualBlocks: seq<VisualBlockRow>
    var regions: seq<RegionRow>
    var regionBlocks: seq<RegionBlockRow>
    var annotations: seq<AnnotationRow>
    var nextVisualBlockId: int
    var nextRegionId: int
    var nextAnnotationId: int

    /**
     * Every table with an id column holds distinct ids below its counter, and memberships
     * name only regions already created (only the create-region handler writes them).
     */
    predicate Valid()
      reads this
    {
      && FreshIds(Ids(visualBlocks, (t: VisualBlockRow) => t.id), nextVisualBlockId)
      && FreshIds(Ids(regions, (t: RegionRow) => t.id), nextRegionId)
      && FreshIds(Ids(annotations, (t: AnnotationRow) => t.id), nextAnnotationId)
      && (forall k :: 0 <= k < |regionBlocks| ==> regionBlocks[k].regionId < nextRegionId)
    }

    /** Empty tables; SQLite's first auto-increment id is 1. */
    constructor()
      ensures Valid()
      ensures visualBlocks == [] && regions == [] && regionBlocks == [] && annotations == []
      ensures nextVisualBlockId == 1 && nextRegionId == 1 && nextAnnotationId == 1
    {
      visualBlocks := [];
      regions := [];
      regionBlocks := [];
      annotations := [];
      nextVisualBlockId := 1;
      nextRegionId := 1;
      nextAnnotationId := 1;
    }

    /** An insert into `visual_blocks`, as the ingest issues it: the row gets the next id, or nothing changes. */
    method InsertVisualBlock(pageIndex: Field<int>, blockIndex: Field<int>, blockType: Field<string>,
      bbox: Field<StoredText>, content: Field<string>, level: Field<int>, parentId: Field<int>, now: int)
      returns (r: Result<VisualBlockRow, string>)
      requires Valid()
      modifies this`visualBlocks, this`nextVisualBlockId
      ensures Valid()
      ensures r == NewVisualBlockRow(old(nextVisualBlockId), now, pageIndex, blockIndex, blockType, bbox,
        content, level, parentId)
      ensures r.Success? ==> visualBlocks == old(visualBlocks) + [r.value] && nextVisualBlockId == old(nextVisualBlockId) + 1
      ensures r.Success? ==> forall k :: 0 <= k < |old(visualBlocks)| ==> old(visualBlocks)[k].id != r.value.id
      ensures r.Failure? ==> visualBlocks == old(visualBlocks) && nextVisualBlockId == old(nextVisualBlockId)
    {
      r := NewVisualBlockRow(nextVisualBlockId, now, pageIndex, blockIndex, blockType, bbox, content, level, parentId);
      if r.Success? {
        FreshIdsAppend(Ids(visualBlocks, (t: VisualBlockRow) => t.id), nextVisualBlockId);
        assert Ids(visualBlocks + [r.value], (t: VisualBlockRow) => t.id) == Ids(visualBlocks, (t: VisualBlockRow) => t.id) + [nextVisualBlockId];
        visualBlocks := visualBlocks + [r.value];
        nextVisualBlockId := nextVisualBlockId + 1;
      }
    }

    /** Inserts the region row; the id it gets is the counter's value. */
    method InsertRegion(row: Result<RegionRow, string>)
      requires Valid()
      requires row.Success? ==> row.value.id == nextRegionId
      modifies this`regions, this`nextRegionId
      ensures Valid()
      ensures row.Success? ==> regions == old(regions) + [row.value] && nextRegionId == old(nextRegionId) + 1
      ensures row.Success? ==> forall k :: 0 <= k < |old(regions)| ==> old(regions)[k].id != row.value.id
      ensures row.Failure? ==> regions == old(regions) && nextRegionId == old(nextRegionId)
    {
      if row.Success? {
        FreshIdsAppend(Ids(regions, (t: RegionRow) => t.id), nextRegionId);
        assert Ids(regions + [row.value], (t: RegionRow) => t.id) == Ids(regions, (t: RegionRow) => t.id) + [nextRegionId];
        regions := regions + [row.value];
        nextRegionId := nextRegionId + 1;
      }
    }

    /**
     * The memberships of a new region, one insert per array element in array order; the
     * inserts do not depend on each other, so a failing one leaves the others stored.
     */
    method InsertMemberships(regionId: int, items: seq<Json>) returns (ok: bool)
      modifies this`regionBlocks
      ensures regionBlocks == old(regionBlocks) + MembershipRows(regionId, items)
      ensures ok <==> AllInsertable(items)
    {
      ok := true;
      var k := 0;
      while k < |items|
        invariant 0 <= k <= |items|
        invariant regionBlocks == old(regionBlocks) + MembershipRows(regionId, items[..k])
        invariant ok <==> AllInsertable(items[..k])
      {
        var row := NewRegionBlockRow(Val(regionId), IntField(Some(items[k])));
        assert items[..k + 1][..k] == items[..k];
        if row.Success? {
          regionBlocks := regionBlocks + [row.value];
        } else {
          ok := false;
        }
        k := k + 1;
      }
      assert items[..k] == items;
    }

    /**
     * `POST /api/regions`: the region row first, then its memberships, with no transaction, so a
     * failing membership answers 500 with the region row (and the other memberships) kept.
     */
    method PostRegion(body: map<string, Json>, now: int) returns (resp: Response<RegionRow>)
      requires Valid()
      modifies this`regions, this`nextRegionId, this`regionBlocks
      ensures Valid()
      ensures var row := RegionInsert(body, old(nextRegionId), now);
        && (row.Failure? ==>
          && resp == InternalError(RegionFailurePrefix, row.error)
          && regions == old(regions) && nextRegionId == old(nextRegionId) && regionBlocks == old(regionBlocks))
        && (row.Success? ==>
          && regions == old(regions) + [row.value] && nextRegionId == old(nextRegionId) + 1
          && regionBlocks == old(regionBlocks) + PlannedRows(row.value.id, PlanMemberships(Get(body, "blockIds")))
          && (PlanSucceeds(PlanMemberships(Get(body, "blockIds"))) ==> resp == Ok(row.value))
          && (!PlanSucceeds(PlanMemberships(Get(body, "blockIds"))) ==> resp.ServerError? && resp.statusCode == 500))
    {
      var row := RegionInsert(body, nextRegionId, now);
      InsertRegion(row);
      if row.Failure? {
        return InternalError(RegionFailurePrefix, row.error);
      }
      var region := row.value;
      var plan := PlanMemberships(Get(body, "blockIds"));
      match plan {
        case NoMemberships =>
          resp := Ok(region);
        case NotAnArray =>
          resp := InternalError(RegionFailurePrefix, "blockIds.map is not a function");
        case InsertEach(items) =>
          MembershipRowsOfRegion(region.id, items);
          var ok := InsertMemberships(region.id, items);
          if ok {
            resp := Ok(region);
          } else {
            resp := InternalError(RegionFailurePrefix, "NOT NULL constraint failed: region_blocks.block_id");
          }
      }
    }

    /** `POST /api/annotations`: one row with the handler's defaults, or a 500 and no change. */
    method PostAnnotation(body: map<string, Json>, now: int) returns (resp: Response<AnnotationRow>)
      requires Valid()
      modifies this`annotations, this`nextAnnotationId
      ensures Valid()
      ensures var row := AnnotationInsert(body, old(nextAnnotationId), now);
        && (row.Failure? ==>
          && resp == InternalError(AnnotationFailurePrefix, row.error)
          && annotations == old(annotations) && nextAnnotationId == old(nextAnnotationId))
        && (row.Success? ==>
          && resp == Ok(row.value)
          && annotations == old(annotations) + [row.value] && nextAnnotationId == old(nextAnnotationId) + 1
          && forall k :: 0 <= k < |old(annotations)| ==> old(annotations)[k].id != row.value.id)
    {
      var row := AnnotationInsert(body, nextAnnotationId, now);
      if row.Failure? {
        return InternalError(AnnotationFailurePrefix, row.error);
      }
      FreshIdsAppend(Ids(annotations, (t: AnnotationRow) => t.id), nextAnnotationId);
      assert Ids(annotations + [row.value], (t: AnnotationRow) => t.id) == Ids(annotations, (t: AnnotationRow) => t.id) + [nextAnnotationId];
      annotations := annotations + [row.value];
      nextAnnotationId := nextAnnotationId + 1;
      resp := Ok(row.value);
    }
  }
}
