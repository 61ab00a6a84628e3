/**
 * The viewer store (stores/pdf.ts): page navigation, zoom, the current page's blocks and the
 * loading of the parsed layout into blocks with ids and decoded boxes.
 */
module Pdf {
  import opened Wrappers
  import opened Geometry
  import opened Layout
  import opened Seqs
  import opened Json

  /** The decoded box of a loaded block: a field the positional decoding never reached is absent. */
  datatype Coords = Coords(x: Option<real>, y: Option<real>, width: Option<real>, height: Option<real>)

  const NoCoords := Coords(None, None, None, None)

  /** One step of the `reduce` callback: position 0..3 sets x, y, width, height; later positions are ignored. */
  function AssignAt(c: Coords, i: nat, v: real): Coords
  {
    if i == 0 then c.(x := Some(v))
    else if i == 1 then c.(y := Some(v))
    else if i == 2 then c.(width := Some(v))
    else if i == 3 then c.(height := Some(v))
    else c
  }

  /** `JSON.parse(block.bbox).reduce(..., {})`: a left fold of `AssignAt` over the array, from `{}`. */
  function DecodePositional(a: seq<real>): Coords
  {
    if a == [] then NoCoords
    else AssignAt(DecodePositional(a[..|a| - 1]), |a| - 1, a[|a| - 1])
  }

  /** The fold reads the array by position: field `i` is element `i` when there is one. */
  lemma {:induction false} DecodeFields(a: seq<real>)
    ensures DecodePositional(a).x == (if |a| > 0 then Some(a[0]) else None)
    ensures DecodePositional(a).y == (if |a| > 1 then Some(a[1]) else None)
    ensures DecodePositional(a).width == (if |a| > 2 then Some(a[2]) else None)
    ensures DecodePositional(a).height == (if |a| > 3 then Some(a[3]) else None)
  {
    if a != [] {
      var init := a[..|a| - 1];
      DecodeFields(init);
      assert forall k :: 0 <= k < |init| ==> init[k] == a[k];
    }
  }

  /** Decoding the ingest's `[x, y, width, height]` gives the serialised rectangle back. */
  lemma DecodeSerialized(b: Bbox)
    ensures DecodePositional(SerializeBbox(b)) == Coords(Some(b.x), Some(b.y), Some(b.width), Some(b.height))
  {
    DecodeFields(SerializeBbox(b));
  }

  /** A block as the viewer holds it: the ingest record with an id, a decoded box and its page. */
  datatype VisualBlock = VisualBlock(
    id: int,
    pageIndex: nat,
    blockIndex: nat,
    blockType: string,
    bbox: Bbox,
    content: string,
    level: int,
    parentId: Option<int>,
    pageInfo: PageInfo)

  /** What the loader requires of an ingest result: four-number boxes and existing pages. */
  predicate WellShaped(data: MiddleJson, records: seq<ParsedBlock>)
  {
    forall k :: 0 <= k < |records| ==> |records[k].bbox| == 4 && records[k].pageIndex < |data.pdfInfo|
  }

  /** The element `blocks.map` builds for the record at position `index`. */
  function LoadedBlock(data: MiddleJson, rec: ParsedBlock, index: nat): (v: VisualBlock)
    requires |rec.bbox| == 4 && rec.pageIndex < |data.pdfInfo|
    ensures v.id == index + 1
    ensures v.bbox == Bbox(rec.bbox[0], rec.bbox[1], rec.bbox[2], rec.bbox[3])
    ensures v.pageInfo == data.pdfInfo[rec.pageIndex]
  {
    var c := DecodePositional(rec.bbox);
    DecodeFields(rec.bbox);
    VisualBlock(index + 1, rec.pageIndex, rec.blockIndex, rec.blockType,
      Bbox(c.x.value, c.y.value, c.width.value, c.height.value),
      rec.content, rec.level, rec.parentId, data.pdfInfo[rec.pageIndex])
  }

  /** `blocks.map((block, index) => ...)` of `loadPDFData`. */
  function LoadedBlocks(data: MiddleJson, records: seq<ParsedBlock>): (r: seq<VisualBlock>)
    requires WellShaped(data, records)
    ensures |r| == |records|
    ensures forall k :: 0 <= k < |r| ==> r[k] == LoadedBlock(data, records[k], k)
  {
    seq(|records|, k requires 0 <= k < |records| => LoadedBlock(data, records[k], k))
  }

  /** Loaded blocks are numbered 1..n in parse order, so their ids are distinct. */
  lemma LoadedIdsDistinct(data: MiddleJson, records: seq<ParsedBlock>, i: nat, j: nat)
    requires WellShaped(data, records)
    requires i < j < |records|
    ensures LoadedBlocks(data, records)[i].id < LoadedBlocks(data, records)[j].id
  {
  }

  /** The loaded box of a block is the ingest's box of the source block, origin and size. */
  lemma LoadedBoxIsIngestBox(data: MiddleJson, p: nat, j: nat)
    requires p < |data.pdfInfo| && j < |data.pdfInfo[p].paraBlocks|
    requires WellShaped(data, Flatten(data.pdfInfo, MakeRecord))
    ensures TotalBlocks(data.pdfInfo[..p]) + j < |Flatten(data.pdfInfo, MakeRecord)|
    ensures LoadedBlocks(data, Flatten(data.pdfInfo, MakeRecord))[TotalBlocks(data.pdfInfo[..p]) + j].bbox
      == BboxArrayToObject(data.pdfInfo[p].paraBlocks[j].bbox)
  {
    FlattenAt(data.pdfInfo, MakeRecord, p, j);
  }

  /** `currentPageBlocks`: the blocks of one page, in their original order. */
  function BlocksOnPage(blocks: seq<VisualBlock>, pageIndex: int): (r: seq<VisualBlock>)
    ensures forall b :: b in r <==> b in blocks && b.pageIndex == pageIndex
  {
    Filter(blocks, (b: VisualBlock) => b.pageIndex == pageIndex)
  }

  /** Blocks of one page keep their relative order: the filter distributes over concatenation. */
  lemma BlocksOnPageConcat(a: seq<VisualBlock>, b: seq<VisualBlock>, pageIndex: int)
    ensures BlocksOnPage(a + b, pageIndex) == BlocksOnPage(a, pageIndex) + BlocksOnPage(b, pageIndex)
  {
    FilterConcat(a, b, (x: VisualBlock) => x.pageIndex == pageIndex);
  }

  const MinScale: real := 0.5
  const MaxScale: real := 3.0
  const InitialScale: real := 1.2

  /** `Math.max(0.5, Math.min(3.0, scale))`. */
  function ClampScale(s: real): (r: real)
    ensures MinScale <= r <= MaxScale
    ensures MinScale <= s <= MaxScale ==> r == s
    ensures s < MinScale ==> r == MinScale
    ensures s > MaxScale ==> r == MaxScale
  {
    Max(MinScale, Min(MaxScale, s))
  }

  /** Clamping twice is clamping once, and it never reverses an order of scales. */
  lemma ClampScaleProperties(s: real, t: real)
    ensures ClampScale(ClampScale(s)) == ClampScale(s)
    ensures s <= t ==> ClampScale(s) <= ClampScale(t)
  {
  }

  /** `doc?.numPages || 0`: a missing document, a missing count and a zero count all give 0. */
  function PageCount(doc: Option<PdfDoc>): (n: int)
    ensures doc.None? ==> n == 0
    ensures doc.Some? && doc.value.numPages.Some? ==> n == doc.value.numPages.value
    ensures doc.Some? && doc.value.numPages.None? ==> n == 0
  {
    if doc.Some? && doc.value.numPages.Some? && doc.value.numPages.value != 0 then doc.value.numPages.value else 0
  }

  datatype PdfDoc = PdfDoc(numPages: Option<int>)

  datatype Overlay = Overlay(width: real, height: real, offsetX: real, offsetY: real)

  const ZeroOverlay := Overlay(0.0, 0.0, 0.0, 0.0)

  /** The message `loadPDFData` records when the failure is not an `Error`. */
  const LoadFailedMessage := "加载PDF数据失败"

  /**
   * What fetching the layout gives `loadPDFData`: a layout the parser reads; a JSON value the
   * parser throws on (no `pdf_info`, `para_blocks` or `spans`, or a block without `bbox`),
   * with the thrown error's message; or a failed fetch, with the message when it was an `Error`.
   */
  datatype Fetched =
    | Document(doc: MiddleJson)
    | Malformed(raw: Json, message: string)
    | FetchFailed(error: Option<string>)

  /** What `mineruData` holds: a layout, or a fetched value the parser could not read. */
  datatype MineruData = Parsed(doc: MiddleJson) | Unparsed(raw: Json)

  class PdfStore {
    var pdfDoc: Option<PdfDoc>
    var currentPage: int
    var totalPages: int
    var scale: real
    var mineruData: Option<MineruData>
    var visualBlocks: seq<VisualBlock>
    var overlayDimensions: Overlay
    var isLoading: bool
    var error: Option<string>

    /** The initial state of the store, which `reset` restores. */
    predicate Initial()
      reads this
    {
      && pdfDoc == None && currentPage == 1 && totalPages == 0 && scale == InitialScale
      && mineruData == None && visualBlocks == [] && overlayDimensions == ZeroOverlay
      && !isLoading && error == None
    }

    /** The page is never below 1 and the scale never leaves [0.5, 3.0]. */
    predicate Valid()
      reads this
    {
      currentPage >= 1 && MinScale <= scale <= MaxScale
    }

    constructor()
      ensures Initial() && Valid()
    {
      pdfDoc := None;
      currentPage := 1;
      totalPages := 0;
      scale := InitialScale;
      mineruData := None;
      visualBlocks := [];
      overlayDimensions := ZeroOverlay;
      isLoading := false;
      error := None;
    }

    function CurrentPageBlocks(): (r: seq<VisualBlock>)
      reads this
      ensures forall b :: b in r <==> b in visualBlocks && b.pageIndex == currentPage - 1
    {
      BlocksOnPage(visualBlocks, currentPage - 1)
    }

    predicate HasPdf()
      reads this
    {
      pdfDoc.Some?
    }

    predicate CanGoNext()
      reads this
    {
      currentPage < totalPages
    }

    predicate CanGoPrev()
      reads this
    {
      currentPage > 1
    }

    method SetPdfDoc(doc: Option<PdfDoc>)
      modifies this
      ensures pdfDoc == doc && totalPages == PageCount(doc)
      ensures currentPage == old(currentPage) && scale == old(scale) && mineruData == old(mineruData)
      ensures visualBlocks == old(visualBlocks) && overlayDimensions == old(overlayDimensions)
      ensures isLoading == old(isLoading) && error == old(error)
    {
      pdfDoc := doc;
      totalPages := PageCount(doc);
    }

    /** `setCurrentPage` (and `goToPage`): a page outside 1..totalPages is ignored. */
    method SetCurrentPage(page: int)
      requires Valid()
      modifies this`currentPage
      ensures Valid()
      ensures 1 <= page <= totalPages ==> currentPage == page
      ensures !(1 <= page <= totalPages) ==> currentPage == old(currentPage)
    {
      if page >= 1 && page <= totalPages {
        currentPage := page;
      }
    }

    method NextPage()
      requires Valid()
      modifies this`currentPage
      ensures Valid()
      ensures old(CanGoNext()) ==> currentPage == old(currentPage) + 1
      ensures !old(CanGoNext()) ==> currentPage == old(currentPage)
      ensures currentPage <= old(currentPage) || currentPage <= totalPages
    {
      if CanGoNext() {
        currentPage := currentPage + 1;
      }
    }

    method PrevPage()
      requires Valid()
      modifies this`currentPage
      ensures Valid()
      ensures old(CanGoPrev()) ==> currentPage == old(currentPage) - 1
      ensures !old(CanGoPrev()) ==> currentPage == old(currentPage)
    {
      if CanGoPrev() {
        currentPage := currentPage - 1;
      }
    }

    method SetScale(s: real)
      requires Valid()
      modifies this`scale
      ensures Valid()
      ensures scale == ClampScale(s)
    {
      scale := Max(MinScale, Min(MaxScale, s));
    }

    method ZoomIn()
      requires Valid()
      modifies this`scale
      ensures Valid()
      ensures scale == ClampScale(old(scale) + 0.1)
    {
      SetScale(scale + 0.1);
    }

    method ZoomOut()
      requires Valid()
      modifies this`scale
      ensures Valid()
      ensures scale == ClampScale(old(scale) - 0.1)
    {
      SetScale(scale - 0.1);
    }

    method ResetZoom()
      requires Valid()
      modifies this`scale
      ensures Valid()
      ensures scale == 1.0
    {
      SetScale(1.0);
    }

    method UpdateOverlayDimensions(d: Overlay)
      modifies this`overlayDimensions
      ensures overlayDimensions == d
    {
      overlayDimensions := d;
    }

    /**
     * `loadPDFData` with the fetched value as a parameter. `mineruData` is assigned before
     * parsing, so a value the parser throws on is kept while the blocks stay as they were.
     */
    method LoadPdfData(fetched: Fetched)
      modifies this`isLoading, this`error, this`mineruData, this`visualBlocks
      ensures !isLoading
      ensures fetched.Document? ==> error == None && mineruData == Some(Parsed(fetched.doc))
      ensures fetched.Document? ==> WellShaped(fetched.doc, Flatten(fetched.doc.pdfInfo, MakeRecord))
      ensures fetched.Document? ==>
        visualBlocks == LoadedBlocks(fetched.doc, Flatten(fetched.doc.pdfInfo, MakeRecord))
      ensures fetched.Malformed? ==>
        && error == Some(fetched.message) && mineruData == Some(Unparsed(fetched.raw))
        && visualBlocks == old(visualBlocks)
      ensures fetched.FetchFailed? ==> mineruData == old(mineruData) && visualBlocks == old(visualBlocks)
      ensures fetched.FetchFailed? && fetched.error.Some? ==> error == fetched.error
      ensures fetched.FetchFailed? && fetched.error.None? ==> error == Some(LoadFailedMessage)
    {
      isLoading := true;
      error := None;
      match fetched {
        case Document(data) =>
          mineruData := Some(Parsed(data));
          var blocks := ParseMiddleJsonToBlocks(data);
          visualBlocks := LoadedBlocks(data, blocks);
        case Malformed(raw, message) =>
          mineruData := Some(Unparsed(raw));
          error := Some(message);
        case FetchFailed(e) =>
          error := if e.Some? then e else Some(LoadFailedMessage);
      }
      isLoading := false;
    }

    method Reset()
      modifies this
      ensures Initial() && Valid()
    {
      pdfDoc := None;
      currentPage := 1;
      totalPages := 0;
      scale := InitialScale;
      mineruData := None;
      visualBlocks := [];
      overlayDimensions := ZeroOverlay;
      isLoading := false;
      error := None;
    }
  }
}
