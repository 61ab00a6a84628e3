/**
 * Layout ingest (utils/pdf-parser.ts): the parsed-layout document, the text extraction of a
 * block tree, and the flattening of pages into one record per top-level block.
 */
module Layout {
  import opened Wrappers
  import opened Geometry
  import opened JsText
  import opened Seqs

  datatype Span = Span(bbox: Corners, spanType: string, content: Option<string>)

  datatype Line = Line(bbox: Corners, spans: seq<Span>)

  /** A layout block; an absent `lines` or `blocks` list is the empty sequence. */
  datatype Block = Block(
    bbox: Corners,
    blockType: string,
    lines: seq<Line>,
    index: Option<int>,
    level: Option<int>,
    blocks: seq<Block>)

  datatype PageInfo = PageInfo(paraBlocks: seq<Block>, pageIdx: int, pageWidth: real, pageHeight: real)

  datatype MiddleJson = MiddleJson(pdfInfo: seq<PageInfo>, parseType: string, versionName: string)

  /** A span contributes its content and a space when the content is truthy (present, non-empty). */
  function SpanPiece(sp: Span): string
  {
    if sp.content.Some? && sp.content.value != "" then sp.content.value + " " else ""
  }

  function SpansText(spans: seq<Span>): string
  {
    if spans == [] then ""
    else SpansText(spans[..|spans| - 1]) + SpanPiece(spans[|spans| - 1])
  }

  /** A line contributes its spans' pieces and then a newline. */
  function LineText(line: Line): string
  {
    SpansText(line.spans) + "\n"
  }

  function LinesText(lines: seq<Line>): string
  {
    if lines == [] then ""
    else LinesText(lines[..|lines| - 1]) + LineText(lines[|lines| - 1])
  }

  /** `extractBlockText`: own lines, then each sub-block's (already trimmed) text, all trimmed. */
  function BlockText(b: Block): string
    decreases b, |b.blocks| + 1
  {
    Trim(LinesText(b.lines) + SubBlocksText(b, |b.blocks|))
  }

  /** The texts of the first `n` sub-blocks of `parent`, concatenated without separator. */
  function SubBlocksText(parent: Block, n: nat): string
    requires n <= |parent.blocks|
    decreases parent, n
  {
    if n == 0 then ""
    else SubBlocksText(parent, n - 1) + BlockText(parent.blocks[n - 1])
  }

  /** No span anywhere in the tree has truthy content. */
  predicate NoContent(b: Block)
  {
    && (forall i, j :: 0 <= i < |b.lines| && 0 <= j < |b.lines[i].spans| ==> SpanPiece(b.lines[i].spans[j]) == "")
    && (forall k :: 0 <= k < |b.blocks| ==> NoContent(b.blocks[k]))
  }

  lemma {:induction false} EmptySpansText(spans: seq<Span>)
    requires forall j :: 0 <= j < |spans| ==> SpanPiece(spans[j]) == ""
    ensures SpansText(spans) == ""
  {
    if spans != [] {
      EmptySpansText(spans[..|spans| - 1]);
    }
  }

  lemma {:induction false} EmptyLinesText(lines: seq<Line>)
    requires forall i, j :: 0 <= i < |lines| && 0 <= j < |lines[i].spans| ==> SpanPiece(lines[i].spans[j]) == ""
    ensures AllWhiteSpace(LinesText(lines))
  {
    if lines != [] {
      var init := lines[..|lines| - 1];
      assert forall i :: 0 <= i < |init| ==> init[i] == lines[i];
      EmptyLinesText(init);
      EmptySpansText(lines[|lines| - 1].spans);
      assert AllWhiteSpace("\n");
      AllWhiteSpaceConcat(LinesText(init), LineText(lines[|lines| - 1]));
    }
  }

  /** A tree with no span content extracts to the empty string, whatever its shape. */
  lemma {:induction false} NoContentYieldsEmpty(b: Block)
    requires NoContent(b)
    ensures BlockText(b) == ""
    decreases b, |b.blocks| + 1
  {
    EmptyLinesText(b.lines);
    NoContentSubBlocks(b, |b.blocks|);
    assert LinesText(b.lines) + SubBlocksText(b, |b.blocks|) == LinesText(b.lines);
    TrimAllWhiteSpace(LinesText(b.lines));
  }

  lemma {:induction false} NoContentSubBlocks(parent: Block, n: nat)
    requires n <= |parent.blocks|
    requires NoContent(parent)
    ensures SubBlocksText(parent, n) == ""
    decreases parent, n
  {
    if n > 0 {
      NoContentSubBlocks(parent, n - 1);
      NoContentYieldsEmpty(parent.blocks[n - 1]);
    }
  }

  /** `w` is non-empty and neither starts nor ends with white space. */
  predicate Word(w: string)
  {
    w != [] && !IsWhiteSpace(w[0]) && !IsWhiteSpace(w[|w| - 1])
  }

  /**
   * The separators, whatever the boxes and the words: a space after every span's truthy
   * content (an empty content adds nothing), a newline per line, nothing between a block's own
   * lines and its sub-blocks' texts, and the edges trimmed.
   */
  lemma ExtractExample(c: Corners, a: string, b: string, w: string)
    requires Word(a) && b != [] && Word(w)
    ensures BlockText(Block(c, "text",
      [Line(c, [Span(c, "text", Some(a)), Span(c, "text", Some("")), Span(c, "text", Some(b))])],
      None, None,
      [Block(c, "text", [Line(c, [Span(c, "text", Some(w))])], None, None, [])]))
      == a + " " + b + " \n" + w
  {
    var lines := ExampleOuterLines(c, a, b);
    var inner := ExampleInner(c, w);
    var outer := Block(c, "text", lines, None, None, [inner]);
    assert SubBlocksText(outer, 1) == w by { assert SubBlocksText(outer, 0) == ""; }
    var all := a + " " + b + " \n" + w;
    assert LinesText(outer.lines) + SubBlocksText(outer, 1) == all;
    assert all[0] == a[0];
    assert all[|all| - 1] == w[|w| - 1];
    assert AllWhiteSpace(all[..0]) && AllWhiteSpace(all[|all|..]);
    TrimUnique(all, 0, |all|);
    assert all[0..|all|] == all;
  }

  lemma ExampleOuterLines(c: Corners, a: string, b: string) returns (lines: seq<Line>)
    requires a != [] && b != []
    ensures lines == [Line(c, [Span(c, "text", Some(a)), Span(c, "text", Some("")), Span(c, "text", Some(b))])]
    ensures LinesText(lines) == a + " " + b + " \n"
  {
    var spans := [Span(c, "text", Some(a)), Span(c, "text", Some("")), Span(c, "text", Some(b))];
    assert SpansText(spans[..1]) == a + " " by { assert spans[..1][..0] == []; }
    assert SpansText(spans[..2]) == a + " " by { assert spans[..2][..1] == spans[..1]; }
    assert SpansText(spans) == a + " " + b + " " by { assert spans[..2] == spans[..|spans| - 1]; }
    lines := [Line(c, spans)];
    assert LinesText(lines) == a + " " + b + " \n" by { assert lines[..0] == []; }
  }

  lemma ExampleInner(c: Corners, w: string) returns (inner: Block)
    requires Word(w)
    ensures inner == Block(c, "text", [Line(c, [Span(c, "text", Some(w))])], None, None, [])
    ensures BlockText(inner) == w
  {
    var world := [Span(c, "text", Some(w))];
    assert SpansText(world) == w + " " by { assert world[..0] == []; }
    var innerLines := [Line(c, world)];
    assert LinesText(innerLines) == w + " \n" by { assert innerLines[..0] == []; }
    inner := Block(c, "text", innerLines, None, None, []);
    var raw := w + " \n";
    assert LinesText(inner.lines) + SubBlocksText(inner, 0) == raw;
    assert AllWhiteSpace(raw[|w|..]) by { assert raw[|w|..] == " \n"; }
    TrimUnique(raw, 0, |w|);
    assert raw[0..|w|] == w;
  }

  lemma SpansTextStep(spans: seq<Span>, j: nat)
    requires j < |spans|
    ensures SpansText(spans[..j + 1]) == SpansText(spans[..j]) + SpanPiece(spans[j])
  {
    assert spans[..j + 1][..j] == spans[..j];
  }

  lemma LinesTextStep(lines: seq<Line>, i: nat)
    requires i < |lines|
    ensures LinesText(lines[..i + 1]) == LinesText(lines[..i]) + LineText(lines[i])
  {
    assert lines[..i + 1][..i] == lines[..i];
  }

  /** The first half of `extractBlockText`: appends span by span and line by line. */
  method ExtractLinesText(lines: seq<Line>) returns (text: string)
    ensures text == LinesText(lines)
  {
    text := "";
    var i := 0;
    while i < |lines|
      invariant 0 <= i <= |lines|
      invariant text == LinesText(lines[..i])
    {
      var line := lines[i];
      ghost var done := text;
      var j := 0;
      while j < |line.spans|
        invariant 0 <= j <= |line.spans|
        invariant text == done + SpansText(line.spans[..j])
      {
        var span := line.spans[j];
        ghost var before := text;
        if span.content.Some? && span.content.value != "" {
          text := text + span.content.value + " ";
          AppendAssoc(before, span.content.value, " ");
        }
        SpansTextStep(line.spans, j);
        AppendAssoc(done, SpansText(line.spans[..j]), SpanPiece(span));
        j := j + 1;
      }
      assert line.spans[..j] == line.spans;
      text := text + "\n";
      AppendAssoc(done, SpansText(line.spans), "\n");
      LinesTextStep(lines, i);
      i := i + 1;
    }
    assert lines[..i] == lines;
  }

  lemma SubBlocksTextStep(parent: Block, k: nat)
    requires k < |parent.blocks|
    ensures SubBlocksText(parent, k + 1) == SubBlocksText(parent, k) + BlockText(parent.blocks[k])
  {
  }

  /** `extractBlockText`: the block's own lines, then each sub-block's text in order, trimmed. */
  method ExtractBlockText(block: Block) returns (text: string)
    ensures text == BlockText(block)
    decreases block, 1
  {
    var own := ExtractLinesText(block.lines);
    var rest := ExtractSubBlocksText(block);
    text := Trim(own + rest);
  }

  /** The loop of `extractBlockText` over the sub-blocks, each extracted recursively. */
  method ExtractSubBlocksText(block: Block) returns (rest: string)
    ensures rest == SubBlocksText(block, |block.blocks|)
    decreases block, 0
  {
    rest := "";
    var k := 0;
    while k < |block.blocks|
      invariant 0 <= k <= |block.blocks|
      invariant rest == SubBlocksText(block, k)
    {
      var sub := ExtractBlockText(block.blocks[k]);
      SubBlocksTextStep(block, k);
      rest := rest + sub;
      k := k + 1;
    }
  }

  /** One element of `parseMiddleJsonToBlocks`'s result. */
  datatype ParsedBlock = ParsedBlock(
    pageIndex: nat,
    blockIndex: nat,
    blockType: string,
    bbox: seq<real>,
    content: string,
    level: int,
    parentId: Option<int>)

  /** `block.level || 1`: a missing or zero level becomes 1. */
  function LevelOrOne(level: Option<int>): int
  {
    if level.Some? && level.value != 0 then level.value else 1
  }

  /** The `[x, y, width, height]` array the ingest serialises. */
  function SerializeBbox(b: Bbox): seq<real>
  {
    [b.x, b.y, b.width, b.height]
  }

  function MakeRecord(pageIndex: nat, blockIndex: nat, block: Block): ParsedBlock
  {
    ParsedBlock(pageIndex, blockIndex, block.blockType, SerializeBbox(BboxArrayToObject(block.bbox)),
      BlockText(block), LevelOrOne(block.level), None)
  }

  /** One record per top-level block of the page, in order, made by `f` from the positions and the block. */
  function PageRecords<R>(pageIndex: nat, page: PageInfo, f: (nat, nat, Block) -> R): (r: seq<R>)
    ensures |r| == |page.paraBlocks|
    ensures forall j :: 0 <= j < |r| ==> r[j] == f(pageIndex, j, page.paraBlocks[j])
  {
    seq(|page.paraBlocks|, j requires 0 <= j < |page.paraBlocks| => f(pageIndex, j, page.paraBlocks[j]))
  }

  /** Number of top-level blocks on the given pages. */
  function TotalBlocks(pages: seq<PageInfo>): nat
  {
    if pages == [] then 0
    else TotalBlocks(pages[..|pages| - 1]) + |pages[|pages| - 1].paraBlocks|
  }

  /** The records of the pages, page by page, each page's blocks in order. */
  function Flatten<R>(pages: seq<PageInfo>, f: (nat, nat, Block) -> R): (r: seq<R>)
    ensures |r| == TotalBlocks(pages)
  {
    if pages == [] then []
    else Flatten(pages[..|pages| - 1], f) + PageRecords(|pages| - 1, pages[|pages| - 1], f)
  }

  /**
   * Block `j` of page `p` is the record at position "blocks on earlier pages + j": one record
   * per top-level block, pages in order, blocks in order, and the indices are positions
   * (a page's own `page_idx` plays no part; nested blocks get no record).
   */
  lemma {:induction false} FlattenAt<R>(pages: seq<PageInfo>, f: (nat, nat, Block) -> R, p: nat, j: nat)
    requires p < |pages| && j < |pages[p].paraBlocks|
    ensures TotalBlocks(pages[..p]) + j < |Flatten(pages, f)|
    ensures Flatten(pages, f)[TotalBlocks(pages[..p]) + j] == f(p, j, pages[p].paraBlocks[j])
  {
    var n := |pages|;
    var init := pages[..n - 1];
    if p < n - 1 {
      FlattenAt(init, f, p, j);
      assert init[..p] == pages[..p];
      assert init[p] == pages[p];
    } else {
      assert init == pages[..p];
    }
  }

  /** Every record comes from some top-level block at that page and block position. */
  lemma {:induction false} FlattenFrom<R>(pages: seq<PageInfo>, f: (nat, nat, Block) -> R, k: nat)
    requires k < |Flatten(pages, f)|
    ensures exists p, j ::
      (0 <= p < |pages| && 0 <= j < |pages[p].paraBlocks| && Flatten(pages, f)[k] == f(p, j, pages[p].paraBlocks[j]))
  {
    var n := |pages|;
    var init := pages[..n - 1];
    var before := Flatten(init, f);
    if k < |before| {
      FlattenFrom(init, f, k);
      var p, j :| 0 <= p < |init| && 0 <= j < |init[p].paraBlocks|
        && before[k] == f(p, j, init[p].paraBlocks[j]);
      assert init[p] == pages[p];
    } else {
      var j := k - |before|;
      assert Flatten(pages, f)[k] == f(n - 1, j, pages[n - 1].paraBlocks[j]);
    }
  }

  /** Record fields: type passes through, level defaults to 1, no parent, the bbox is four numbers. */
  lemma RecordFields(p: nat, j: nat, block: Block)
    ensures MakeRecord(p, j, block).pageIndex == p && MakeRecord(p, j, block).blockIndex == j
    ensures MakeRecord(p, j, block).blockType == block.blockType
    ensures MakeRecord(p, j, block).level == (if block.level == Some(0) || block.level.None? then 1 else block.level.value)
    ensures MakeRecord(p, j, block).parentId.None?
    ensures MakeRecord(p, j, block).content == BlockText(block)
    ensures MakeRecord(p, j, block).bbox == [block.bbox.x1, block.bbox.y1,
      block.bbox.x2 - block.bbox.x1, block.bbox.y2 - block.bbox.y1]
  {
  }

  lemma PageRecordsStep<R>(p: nat, page: PageInfo, f: (nat, nat, Block) -> R, j: nat)
    requires j < |page.paraBlocks|
    ensures PageRecords(p, page, f)[..j + 1] == PageRecords(p, page, f)[..j] + [f(p, j, page.paraBlocks[j])]
  {
  }

  lemma FlattenStep<R>(pages: seq<PageInfo>, f: (nat, nat, Block) -> R, i: nat)
    requires i < |pages|
    ensures Flatten(pages[..i + 1], f) == Flatten(pages[..i], f) + PageRecords(i, pages[i], f)
  {
    assert pages[..i + 1][..i] == pages[..i];
  }

  /** Every record of the ingest carries a four-number bbox and the position of an existing page. */
  lemma FlattenRecordShape(pages: seq<PageInfo>)
    ensures forall k :: 0 <= k < |Flatten(pages, MakeRecord)| ==>
      |Flatten(pages, MakeRecord)[k].bbox| == 4 && Flatten(pages, MakeRecord)[k].pageIndex < |pages|
  {
    forall k | 0 <= k < |Flatten(pages, MakeRecord)|
      ensures |Flatten(pages, MakeRecord)[k].bbox| == 4 && Flatten(pages, MakeRecord)[k].pageIndex < |pages|
    {
      FlattenFrom(pages, MakeRecord, k);
      var p, j :| 0 <= p < |pages| && 0 <= j < |pages[p].paraBlocks|
        && Flatten(pages, MakeRecord)[k] == MakeRecord(p, j, pages[p].paraBlocks[j]);
      RecordFields(p, j, pages[p].paraBlocks[j]);
    }
  }

  /** `parseMiddleJsonToBlocks`: nested loops over pages and their top-level blocks. */
  method ParseMiddleJsonToBlocks(data: MiddleJson) returns (visualBlocks: seq<ParsedBlock>)
    ensures visualBlocks == Flatten(data.pdfInfo, MakeRecord)
    ensures forall k :: 0 <= k < |visualBlocks| ==>
      |visualBlocks[k].bbox| == 4 && visualBlocks[k].pageIndex < |data.pdfInfo|
  {
    visualBlocks := [];
    var pages := data.pdfInfo;
    var pageIndex := 0;
    while pageIndex < |pages|
      invariant 0 <= pageIndex <= |pages|
      invariant visualBlocks == Flatten(pages[..pageIndex], MakeRecord)
    {
      var pageInfo := pages[pageIndex];
      ghost var done := visualBlocks;
      ghost var records := PageRecords(pageIndex, pageInfo, MakeRecord);
      var blockIndex := 0;
      while blockIndex < |pageInfo.paraBlocks|
        invariant 0 <= blockIndex <= |pageInfo.paraBlocks|
        invariant visualBlocks == done + records[..blockIndex]
      {
        var block := pageInfo.paraBlocks[blockIndex];
        var blockBbox := BboxArrayToObject(block.bbox);
        var content := ExtractBlockText(block);
        var record := ParsedBlock(pageIndex, blockIndex, block.blockType,
          [blockBbox.x, blockBbox.y, blockBbox.width, blockBbox.height], content, LevelOrOne(block.level), None);
        assert record == MakeRecord(pageIndex, blockIndex, block);
        PageRecordsStep(pageIndex, pageInfo, MakeRecord, blockIndex);
        AppendAssoc(done, records[..blockIndex], [record]);
        visualBlocks := visualBlocks + [record];
        blockIndex := blockIndex + 1;
      }
      assert records[..blockIndex] == records;
      FlattenStep(pages, MakeRecord, pageIndex);
      pageIndex := pageIndex + 1;
    }
    assert pages[..pageIndex] == pages;
    FlattenRecordShape(pages);
  }
}
