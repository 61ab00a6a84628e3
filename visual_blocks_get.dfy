/**
 * `GET /api/visual-blocks` (server/api/visual-blocks.get.ts) as a function of the
 * `visual_blocks` table: the rows ordered by page then block position, each box read
 * positionally from its stored array. Unlike the region listing, one unreadable box fails
 * the whole request.
 */
module VisualBlocksGet {
  import opened Wrappers
  import opened Json
  import opened Schema
  import opened Http
  import opened Sorting
  import opened Geometry
  import opened Layout

  /** The returned box; a property that read `undefined` is absent from the answer. */
  datatype BoxOut = BoxOut(x: Option<Json>, y: Option<Json>, width: Option<Json>, height: Option<Json>)

  /** One listed block: the selected columns, with the box decoded; parent and timestamps are not selected. */
  datatype BlockEntry = BlockEntry(
    id: int,
    pageIndex: int,
    blockIndex: int,
    blockType: string,
    bbox: BoxOut,
    content: Option<string>,
    level: Option<int>)

  const FailurePrefix := "Failed to get visual blocks: "

  /** `ORDER BY page_index, block_index`. */
  function ByPosition(a: VisualBlockRow, b: VisualBlockRow): bool
  {
    a.pageIndex < b.pageIndex || (a.pageIndex == b.pageIndex && a.blockIndex <= b.blockIndex)
  }

  lemma ByPositionIsTotalPreorder()
    ensures TotalPreorder(ByPosition)
  {
  }

  /** The property name JavaScript looks up for `v[i]`, for the four positions read. */
  function IndexKey(i: nat): string
    requires i < 4
  {
    if i == 0 then "0" else if i == 1 then "1" else if i == 2 then "2" else "3"
  }

  /**
   * `v[i]` on a parsed value: an array or string element, an object's property named by the
   * index, `undefined` for other values, and a `TypeError` on `null`.
   */
  function ElementAt(v: Json, i: nat): (r: Result<Option<Json>, string>)
    requires i < 4
    ensures r.Failure? <==> v.JNull?
    ensures v.JArray? ==> r == Success(if i < |v.items| then Some(v.items[i]) else None)
  {
    match v
    case JNull => Failure("Cannot read properties of null")
    case JArray(items) => Success(if i < |items| then Some(items[i]) else None)
    case JStr(s) => Success(if i < |s| then Some(JStr([s[i]])) else None)
    case JObject(fields) => Success(if IndexKey(i) in fields then Some(fields[IndexKey(i)]) else None)
    case _ => Success(None)
  }

  /** `JSON.parse(block.bbox)` then `{x: a[0], y: a[1], width: a[2], height: a[3]}`. */
  function DecodeBox(t: StoredText): (r: Result<BoxOut, string>)
    ensures r.Success? <==> t.JsonText? && !t.value.JNull?
  {
    match Parse(t)
    case Failure(e) => Failure(e)
    case Success(v) =>
      if v.JNull? then Failure("Cannot read properties of null")
      else
        Success(BoxOut(ElementAt(v, 0).value, ElementAt(v, 1).value, ElementAt(v, 2).value, ElementAt(v, 3).value))
  }

  /** A box stored as a four-number array comes back as `{x, y, width, height}` in that order. */
  lemma DecodeFourNumbers(a: real, b: real, c: real, d: real)
    ensures DecodeBox(JsonText(JArray([JNum(a), JNum(b), JNum(c), JNum(d)])))
      == Success(BoxOut(Some(JNum(a)), Some(JNum(b)), Some(JNum(c)), Some(JNum(d))))
  {
  }

  /** The stored text of a box the ingest serialised. */
  function StoredArray(xs: seq<real>): (t: StoredText)
    ensures t.JsonText? && t.value.JArray? && |t.value.items| == |xs|
    ensures forall k :: 0 <= k < |xs| ==> t.value.items[k] == JNum(xs[k])
  {
    JsonText(JArray(seq(|xs|, k requires 0 <= k < |xs| => JNum(xs[k]))))
  }

  /** A rectangle the layout ingest serialised, stored and listed, comes back as its origin and size. */
  lemma IngestedBoxListed(b: Bbox)
    ensures DecodeBox(StoredArray(SerializeBbox(b)))
      == Success(BoxOut(Some(JNum(b.x)), Some(JNum(b.y)), Some(JNum(b.width)), Some(JNum(b.height))))
  {
  }

  function Entry(row: VisualBlockRow, box: BoxOut): BlockEntry
  {
    BlockEntry(row.id, row.pageIndex, row.blockIndex, row.blockType, box, row.content, row.level)
  }

  /** `rows.map(...)`: stops at the first row whose box cannot be read. */
  function DecodeAll(rows: seq<VisualBlockRow>): (r: Result<seq<BlockEntry>, string>)
    ensures r.Success? <==> forall k :: 0 <= k < |rows| ==> DecodeBox(rows[k].bbox).Success?
    ensures r.Success? ==> |r.value| == |rows|
    ensures r.Success? ==> forall k :: 0 <= k < |rows| ==> r.value[k] == Entry(rows[k], DecodeBox(rows[k].bbox).value)
  {
    if rows == [] then Success([])
    else
      var head := DecodeBox(rows[0].bbox);
      if head.Failure? then Failure(head.error)
      else
        var tail := DecodeAll(rows[1..]);
        if tail.Failure? then
          assert exists k :: 1 <= k < |rows| && DecodeBox(rows[k].bbox).Failure? by {
            var j :| 0 <= j < |rows[1..]| && DecodeBox(rows[1..][j].bbox).Failure?;
            assert rows[1..][j] == rows[j + 1];
          }
          Failure(tail.error)
        else Success([Entry(rows[0], head.value)] + tail.value)
  }

  /** The handler's answer. */
  function ListVisualBlocks(rows: seq<VisualBlockRow>, outage: Option<string>): (r: Response<seq<BlockEntry>>)
    ensures outage.Some? ==> r == InternalError(FailurePrefix, outage.value)
  {
    if outage.Some? then InternalError(FailurePrefix, outage.value)
    else
      var decoded := DecodeAll(Sort(rows, ByPosition));
      if decoded.Failure? then InternalError(FailurePrefix, decoded.error) else Ok(decoded.value)
  }

  /**
   * Without an outage the listing succeeds exactly when every row's box can be read; it then
   * holds one entry per row, ordered by page and then block position.
   */
  lemma ListVisualBlocksSpec(rows: seq<VisualBlockRow>)
    ensures var r := ListVisualBlocks(rows, None);
      && (r.Ok? <==> forall row :: row in rows ==> DecodeBox(row.bbox).Success?)
      && (r.Ok? ==> |r.value| == |rows|)
      && (r.Ok? ==> forall i, j :: 0 <= i < j < |r.value| ==>
        r.value[i].pageIndex < r.value[j].pageIndex
        || (r.value[i].pageIndex == r.value[j].pageIndex && r.value[i].blockIndex <= r.value[j].blockIndex))
      && (r.ServerError? ==> r.statusCode == 500)
  {
    var sorted := Sort(rows, ByPosition);
    SortSameElements(rows, ByPosition);
    assert (forall k :: 0 <= k < |sorted| ==> DecodeBox(sorted[k].bbox).Success?)
      <==> (forall row :: row in rows ==> DecodeBox(row.bbox).Success?);
    ByPositionIsTotalPreorder();
    SortSorted(rows, ByPosition);
    if DecodeAll(sorted).Success? {
      DecodedInOrder(sorted);
    }
  }

  /** Decoding keeps each row's position, so rows in order give entries in order. */
  lemma DecodedInOrder(sorted: seq<VisualBlockRow>)
    requires SortedBy(sorted, ByPosition) && DecodeAll(sorted).Success?
    ensures var es := DecodeAll(sorted).value;
      forall i, j :: 0 <= i < j < |es| ==>
        es[i].pageIndex < es[j].pageIndex || (es[i].pageIndex == es[j].pageIndex && es[i].blockIndex <= es[j].blockIndex)
  {
    var es := DecodeAll(sorted).value;
    forall i, j | 0 <= i < j < |es|
      ensures es[i].pageIndex < es[j].pageIndex || (es[i].pageIndex == es[j].pageIndex && es[i].blockIndex <= es[j].blockIndex)
    {
      assert ByPosition(sorted[i], sorted[j]);
    }
  }

  /** `e` is the entry of some row of `rows` whose box can be read. */
  ghost predicate EntryOfSome(rows: seq<VisualBlockRow>, e: BlockEntry)
  {
    exists row :: row in rows && DecodeBox(row.bbox).Success? && e == Entry(row, DecodeBox(row.bbox).value)
  }

  /** Every listed entry is some row of the table with its own box, and every row is listed. */
  lemma ListVisualBlocksRows(rows: seq<VisualBlockRow>)
    requires forall row :: row in rows ==> DecodeBox(row.bbox).Success?
    ensures ListVisualBlocks(rows, None).Ok?
    ensures var entries := ListVisualBlocks(rows, None).value;
      && (forall k :: 0 <= k < |entries| ==> EntryOfSome(rows, entries[k]))
      && (forall row :: row in rows ==> Entry(row, DecodeBox(row.bbox).value) in entries)
  {
    var sorted := Sort(rows, ByPosition);
    SortSameElements(rows, ByPosition);
    assert forall k :: 0 <= k < |sorted| ==> DecodeBox(sorted[k].bbox).Success? by {
      assert forall k :: 0 <= k < |sorted| ==> sorted[k] in rows;
    }
    assert ListVisualBlocks(rows, None) == Ok(DecodeAll(sorted).value);
    EntriesAreRows(rows, sorted, DecodeAll(sorted).value);
  }

  /** Entries made one per row of a reordering of `rows` are exactly the entries of `rows`. */
  lemma EntriesAreRows(rows: seq<VisualBlockRow>, sorted: seq<VisualBlockRow>, entries: seq<BlockEntry>)
    requires forall row :: row in sorted <==> row in rows
    requires forall row :: row in rows ==> DecodeBox(row.bbox).Success?
    requires |entries| == |sorted|
    requires forall k :: 0 <= k < |sorted| ==> entries[k] == Entry(sorted[k], DecodeBox(sorted[k].bbox).value)
    ensures forall k :: 0 <= k < |entries| ==> EntryOfSome(rows, entries[k])
    ensures forall row :: row in rows ==> Entry(row, DecodeBox(row.bbox).value) in entries
  {
    forall k | 0 <= k < |entries|
      ensures EntryOfSome(rows, entries[k])
    {
      var row := sorted[k];
      assert row in rows && entries[k] == Entry(row, DecodeBox(row.bbox).value);
    }
    forall row | row in rows
      ensures Entry(row, DecodeBox(row.bbox).value) in entries
    {
      assert row in sorted;
      var k :| 0 <= k < |sorted| && sorted[k] == row;
      assert entries[k] == Entry(row, DecodeBox(row.bbox).value);
      assert entries[k] in entries;
    }
  }

}
