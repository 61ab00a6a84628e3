/**
 * The server's tables (server/database/schema.ts): row shapes, which columns are NOT NULL,
 * which have defaults, and how a value handed to an insert becomes a stored column.
 * Timestamps are integers supplied by the caller as the insert's time.
 */
module Schema {
  import opened Wrappers
  import opened Json

  /**
   * A value given to an insert for one column: left out (`undefined`), an explicit `null`,
   * a value of the column's type, or a value of another type.
   */
  datatype Field<+T> = Omitted | Null | Val(v: T) | Mistyped

  /** A NOT NULL column without a default: only a value of its type is accepted. */
  function NotNull<T>(f: Field<T>, column: string): (r: Result<T, string>)
    ensures r.Success? <==> f.Val?
    ensures r.Success? ==> r.value == f.v
    ensures r.Failure? ==> r.error == "NOT NULL constraint failed: " + column || r.error == "datatype mismatch: " + column
  {
    match f
    case Val(v) => Success(v)
    case Mistyped => Failure("datatype mismatch: " + column)
    case _ => Failure("NOT NULL constraint failed: " + column)
  }

  /** A nullable column without a default: left out and `null` both store NULL. */
  function Nullable<T>(f: Field<T>, column: string): (r: Result<Option<T>, string>)
    ensures r.Success? <==> !f.Mistyped?
    ensures f.Val? ==> r == Success(Some(f.v))
    ensures f.Omitted? || f.Null? ==> r == Success(None)
  {
    match f
    case Val(v) => Success(Some(v))
    case Mistyped => Failure("datatype mismatch: " + column)
    case _ => Success(None)
  }

  /** A nullable column with a default: the default fills a left-out value, an explicit `null` stays NULL. */
  function WithDefault<T>(f: Field<T>, default: T, column: string): (r: Result<Option<T>, string>)
    ensures r.Success? <==> !f.Mistyped?
    ensures f.Omitted? ==> r == Success(Some(default))
    ensures f.Null? ==> r == Success(None)
    ensures f.Val? ==> r == Success(Some(f.v))
  {
    match f
    case Omitted => Success(Some(default))
    case Null => Success(None)
    case Val(v) => Success(Some(v))
    case Mistyped => Failure("datatype mismatch: " + column)
  }

  /** An integer column's value from a request-body property. */
  function IntField(j: Option<Json>): (f: Field<int>)
    ensures j.None? <==> f.Omitted?
    ensures j == Some(JNull) <==> f.Null?
    ensures f.Val? <==> (j.Some? && j.value.JNum? && j.value.n == j.value.n.Floor as real)
    ensures f.Val? ==> j == Some(JNum(f.v as real))
  {
    match j
    case None => Omitted
    case Some(JNull) => Null
    case Some(JNum(n)) => if n == n.Floor as real then Val(n.Floor) else Mistyped
    case Some(_) => Mistyped
  }

  /** A text column's value from a request-body property. */
  function TextField(j: Option<Json>): (f: Field<string>)
    ensures j.None? <==> f.Omitted?
    ensures j == Some(JNull) <==> f.Null?
    ensures f.Val? <==> (j.Some? && j.value.JStr?)
    ensures f.Val? ==> j == Some(JStr(f.v))
  {
    match j
    case None => Omitted
    case Some(JNull) => Null
    case Some(JStr(s)) => Val(s)
    case Some(_) => Mistyped
  }

  /** A text column given `JSON.stringify(v)`: `undefined` stays left out. */
  function JsonField(t: Option<StoredText>): (f: Field<StoredText>)
    ensures t.None? <==> f.Omitted?
    ensures t.Some? ==> f == Val(t.value)
  {
    if t.Some? then Val(t.value) else Omitted
  }

  /** A row of `visual_blocks`. */
  datatype VisualBlockRow = VisualBlockRow(
    id: int,
    pageIndex: int,
    blockIndex: int,
    blockType: string,
    bbox: StoredText,
    content: Option<string>,
    level: Option<int>,
    parentId: Option<int>,
    createdAt: int,
    updatedAt: int)

  /** A row of `regions`. */
  datatype RegionRow = RegionRow(
    id: int,
    name: Option<string>,
    rootBlockId: int,
    bbox: StoredText,
    createdAt: int,
    updatedAt: int)

  /** A row of `region_blocks`: the table has no key, so equal rows may repeat. */
  datatype RegionBlockRow = RegionBlockRow(regionId: int, blockId: int)

  /** A row of `annotations`. */
  datatype AnnotationRow = AnnotationRow(
    id: int,
    regionId: int,
    content: string,
    annotationType: Option<string>,
    position: Option<StoredText>,
    isVisible: Option<int>,
    createdAt: int,
    updatedAt: int)

  const DefaultLevel := 1
  const DefaultAnnotationType := "text"
  const DefaultIsVisible := 1

  /**
   * The row an insert into `visual_blocks` stores under `id` at time `now`, or the constraint
   * it breaks: page, index, type and box are required, level defaults to 1, content and parent
   * may be NULL.
   */
  function NewVisualBlockRow(id: int, now: int, pageIndex: Field<int>, blockIndex: Field<int>,
    blockType: Field<string>, bbox: Field<StoredText>, content: Field<string>, level: Field<int>,
    parentId: Field<int>): (r: Result<VisualBlockRow, string>)
    ensures r.Success? <==>
      (pageIndex.Val? && blockIndex.Val? && blockType.Val? && bbox.Val?
      && !content.Mistyped? && !level.Mistyped? && !parentId.Mistyped?)
    ensures r.Success? ==>
      && r.value.id == id && r.value.pageIndex == pageIndex.v && r.value.blockIndex == blockIndex.v
      && r.value.blockType == blockType.v && r.value.bbox == bbox.v
      && r.value.content == (if content.Val? then Some(content.v) else None)
      && r.value.level == (if level.Omitted? then Some(DefaultLevel) else if level.Val? then Some(level.v) else None)
      && r.value.parentId == (if parentId.Val? then Some(parentId.v) else None)
      && r.value.createdAt == now && r.value.updatedAt == now
  {
    var pi := NotNull(pageIndex, "visual_blocks.page_index");
    var bi := NotNull(blockIndex, "visual_blocks.block_index");
    var ty := NotNull(blockType, "visual_blocks.type");
    var bb := NotNull(bbox, "visual_blocks.bbox");
    var co := Nullable(content, "visual_blocks.content");
    var le := WithDefault(level, DefaultLevel, "visual_blocks.level");
    var pa := Nullable(parentId, "visual_blocks.parent_id");
    if pi.Failure? then Failure(pi.error)
    else if bi.Failure? then Failure(bi.error)
    else if ty.Failure? then Failure(ty.error)
    else if bb.Failure? then Failure(bb.error)
    else if co.Failure? then Failure(co.error)
    else if le.Failure? then Failure(le.error)
    else if pa.Failure? then Failure(pa.error)
    else Success(VisualBlockRow(id, pi.value, bi.value, ty.value, bb.value, co.value, le.value, pa.value, now, now))
  }

  /** The row an insert into `regions` stores: root block and box are required, the name may be NULL. */
  function NewRegionRow(id: int, now: int, name: Field<string>, rootBlockId: Field<int>, bbox: Field<StoredText>)
    : (r: Result<RegionRow, string>)
    ensures r.Success? <==> (rootBlockId.Val? && bbox.Val? && !name.Mistyped?)
    ensures r.Success? ==>
      && r.value.id == id && r.value.rootBlockId == rootBlockId.v && r.value.bbox == bbox.v
      && r.value.name == (if name.Val? then Some(name.v) else None)
      && r.value.createdAt == now && r.value.updatedAt == now
  {
    var na := Nullable(name, "regions.name");
    var ro := NotNull(rootBlockId, "regions.root_block_id");
    var bb := NotNull(bbox, "regions.bbox");
    if na.Failure? then Failure(na.error)
    else if ro.Failure? then Failure(ro.error)
    else if bb.Failure? then Failure(bb.error)
    else Success(RegionRow(id, na.value, ro.value, bb.value, now, now))
  }

  /** The row an insert into `region_blocks` stores: both ids are required, and neither is checked against another table. */
  function NewRegionBlockRow(regionId: Field<int>, blockId: Field<int>): (r: Result<RegionBlockRow, string>)
    ensures r.Success? <==> (regionId.Val? && blockId.Val?)
    ensures r.Success? ==> r.value == RegionBlockRow(regionId.v, blockId.v)
  {
    var re := NotNull(regionId, "region_blocks.region_id");
    var bl := NotNull(blockId, "region_blocks.block_id");
    if re.Failure? then Failure(re.error)
    else if bl.Failure? then Failure(bl.error)
    else Success(RegionBlockRow(re.value, bl.value))
  }

  /**
   * The row an insert into `annotations` stores: region and content are required, the type
   * defaults to `'text'`, visibility to 1, and the position may be NULL.
   */
  function NewAnnotationRow(id: int, now: int, regionId: Field<int>, content: Field<string>,
    annotationType: Field<string>, position: Field<StoredText>, isVisible: Field<int>): (r: Result<AnnotationRow, string>)
    ensures r.Success? <==>
      (regionId.Val? && content.Val? && !annotationType.Mistyped? && !position.Mistyped? && !isVisible.Mistyped?)
    ensures r.Success? ==>
      && r.value.id == id && r.value.regionId == regionId.v && r.value.content == content.v
      && r.value.annotationType
        == (if annotationType.Omitted? then Some(DefaultAnnotationType)
            else if annotationType.Val? then Some(annotationType.v) else None)
      && r.value.position == (if position.Val? then Some(position.v) else None)
      && r.value.isVisible
        == (if isVisible.Omitted? then Some(DefaultIsVisible) else if isVisible.Val? then Some(isVisible.v) else None)
      && r.value.createdAt == now && r.value.updatedAt == now
  {
    var re := NotNull(regionId, "annotations.region_id");
    var co := NotNull(content, "annotations.content");
    var ty := WithDefault(annotationType, DefaultAnnotationType, "annotations.type");
    var po := Nullable(position, "annotations.position");
    var vi := WithDefault(isVisible, DefaultIsVisible, "annotations.is_visible");
    if re.Failure? then Failure(re.error)
    else if co.Failure? then Failure(co.error)
    else if ty.Failure? then Failure(ty.error)
    else if po.Failure? then Failure(po.error)
    else if vi.Failure? then Failure(vi.error)
    else Success(AnnotationRow(id, re.value, co.value, ty.value, po.value, vi.value, now, now))
  }
}
