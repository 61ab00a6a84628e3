# box-selection, modelled in Dafny

box-selection is a PDF annotation tool. A layout-analysis result (the "middle JSON": pages,
each with a tree of blocks, lines and spans) is flattened into visual blocks. The viewer
shows a page's blocks over the rendered PDF. The user selects blocks by clicking or by
dragging a rectangle, and groups a selection into a named *region*. Regions are saved
through a small HTTP API backed by four SQLite tables: visual blocks, regions,
region-to-block memberships and annotations.

This project models the core of that system:

- **Layout ingest** (`Geometry`, `Layout`, `JsText`):
  - box conversion, rectangle intersection and the bounding box of a set of rectangles;
  - the recursive text extraction of a block tree, with JavaScript's `trim`;
  - the flattening of pages into one record per top-level block.
- **Client stores**, one class per store. Each store action is a method that changes the
  fields the store changes:
  - `Pdf.PdfStore`: pages, zoom, loading of the blocks;
  - `Annotation.AnnotationStore`: selection, drag rectangle, regions;
  - `Ui.UiStore`: sidebar, modals, theme, layout and preference flags, persisted settings;
  - `System.SystemStore`: status badges and notifications.
- **Performance monitor** (`Perf.PerformanceMonitor`): a bounded window of durations per
  operation, its statistics, and the page-flip warm-up check.
- **Server** (`Schema`, `Database`, `RegionsGet`, `VisualBlocksGet`, `Json`, `Http`):
  - the table schema as constraint checks on inserts;
  - the two insert handlers as methods on an in-memory database (`Database.Db`);
  - the two listing handlers as functions of the tables.
- **The save path** (`RegionSave`): the body the client posts, what the server stores from
  it, and what the listing then returns.

Shared sequence idioms have one reference definition each (`Seqs`, `Sorting`):
- `findIndex` followed by `splice(i, 1)`, proved to be "remove the first match";
- `indexOf`, `filter`;
- `sort` with a comparator.

Modelling choices:
- Numbers in boxes, scales, widths and durations are `real`. Ids, indices and timestamps
  are `int`.
- Text stored in a column is a `Json.StoredText`: the JSON value it encodes, or text that
  is not JSON.
- Everything that comes from outside becomes a parameter: the network, `Date.now()`, the
  clock, local storage and the database's failures.

## Model

| member | source | states |
|---|---|---|
| Geometry.BboxArrayToObject | utils/pdf-parser.ts:49-56 | the rectangle starts at the first corner and ends exactly at the second (right edge x2, bottom edge y2) |
| Geometry.IntersectIffCommonPoint | utils/pdf-parser.ts:59-64 | for rectangles with non-negative size, `isRectIntersect` holds exactly when the two closed rectangles share a point |
| Geometry.IntersectSymmetric | utils/pdf-parser.ts:59-64 | intersection does not depend on argument order |
| Geometry.SelfIntersect | utils/pdf-parser.ts:59-64 | a rectangle intersects itself exactly when its size is non-negative |
| Geometry.EdgeTouchIntersects | utils/pdf-parser.ts:59-64 | rectangles that only touch along an edge count as intersecting; any positive gap separates them |
| Geometry.HullIsTight | utils/pdf-parser.ts:72-83 | the extents the loop accumulates enclose every rectangle, and each extent is attained by some rectangle |
| Geometry.BoundingBoxContainsAll | utils/pdf-parser.ts:67-91 | the bounding box contains every input rectangle |
| Geometry.BoundingBoxMinimal | utils/pdf-parser.ts:67-91 | any rectangle containing all the inputs contains the bounding box, and each of its four edges is an edge of some input |
| Geometry.CalculateBoundingBox | utils/pdf-parser.ts:67-91 | the loop computes the bounding box of the inputs: the zero rectangle for none, otherwise one that contains every input |
| JsText.TrimStartSpec | utils/pdf-parser.ts:114 | `trimStart` keeps a suffix, drops only white space, and stops at a non-white-space character |
| JsText.TrimEndSpec | utils/pdf-parser.ts:114 | `trimEnd` keeps a prefix, drops only white space, and stops at a non-white-space character |
| JsText.TrimKeepsMiddle | utils/pdf-parser.ts:114 | `trim` keeps a contiguous middle of its input, cuts only white space at either end, and leaves no white space at its own ends |
| JsText.TrimUnique | utils/pdf-parser.ts:114 | a middle that is bounded by white space and starts and ends with other characters is exactly what `trim` returns |
| JsText.TrimAllWhiteSpace | utils/pdf-parser.ts:114 | a string made only of white space trims to the empty string |
| JsText.NatToString | stores/annotation.ts:164 | the rendering of a number is non-empty, made of decimal digits, and has no leading zero |
| JsText.NatToStringRoundTrip | stores/annotation.ts:164 | reading the rendered digits back gives the number |
| JsText.NatToStringInjective | stores/annotation.ts:164 | different numbers render differently |
| Layout.ExtractLinesText | utils/pdf-parser.ts:97-106 | the nested loop over lines and spans builds the lines' text: each truthy span content plus a space, and a newline after each line |
| Layout.ExtractSubBlocksText | utils/pdf-parser.ts:108-112 | the loop over sub-blocks concatenates their extracted texts in order, with no separator |
| Layout.ExtractBlockText | utils/pdf-parser.ts:94-115 | the extraction equals the recursive definition: own lines, then sub-block texts, the whole trimmed |
| Layout.NoContentYieldsEmpty | utils/pdf-parser.ts:94-115 | a block tree in which no span has truthy content extracts to the empty string, whatever its shape |
| Layout.ExtractExample | utils/pdf-parser.ts:94-115 | the separators on a concrete tree: a space after each word, nothing for an empty content, newlines between lines, none between a block's lines and its sub-blocks, edges trimmed |
| Layout.RecordFields | utils/pdf-parser.ts:123-136 | a record carries its page and block position, the block's type, a level of 1 for a missing or zero level, no parent, the extracted text, and the box as `[x, y, width, height]` |
| Layout.FlattenAt | utils/pdf-parser.ts:121-138 | block `j` of page `p` becomes the record at position (blocks on earlier pages) + `j` |
| Layout.FlattenFrom | utils/pdf-parser.ts:121-138 | every record is the record of some top-level block, made with that block's page and block position |
| Layout.FlattenRecordShape | utils/pdf-parser.ts:121-138 | every record has a four-number box and a page index that names an existing page |
| Layout.ParseMiddleJsonToBlocks | utils/pdf-parser.ts:118-141 | the nested `forEach` loops push, in page order and then block order, the record of every block |
| Pdf.DecodeFields | stores/pdf.ts:138-144 | the `reduce` over the stored array sets x, y, width and height from positions 0 to 3 when present, and leaves the missing ones out |
| Pdf.DecodeSerialized | stores/pdf.ts:138-144 | decoding the ingest's serialised `[x, y, width, height]` gives back the rectangle |
| Pdf.LoadedBlock | stores/pdf.ts:135-146 | a loaded block gets the id position+1, its decoded box and its page's info |
| Pdf.LoadedBlocks | stores/pdf.ts:135-146 | one loaded block per record, in order |
| Pdf.LoadedIdsDistinct | stores/pdf.ts:137 | loaded ids increase with position, so they are distinct |
| Pdf.LoadedBoxIsIngestBox | stores/pdf.ts:133-146 | the viewer's box for block `j` of page `p` is `bboxArrayToObject` of that block's layout box |
| Pdf.BlocksOnPage | stores/pdf.ts:51-53 | the page's blocks are exactly the loaded blocks on that page |
| Pdf.BlocksOnPageConcat | stores/pdf.ts:51-53 | blocks of a page keep their relative order |
| Pdf.ClampScale | stores/pdf.ts:100-102 | the scale stays in [0.5, 3.0]: unchanged inside the range, the nearest bound outside it |
| Pdf.ClampScaleProperties | stores/pdf.ts:100-114 | clamping is idempotent and monotone, so zooming never jumps past a bound |
| Pdf.PageCount | stores/pdf.ts:71-74 | `doc?.numPages \|\| 0`: zero without a document or without a count, the count otherwise |
| Pdf.PdfStore.constructor | stores/pdf.ts:29-47 | the initial state: page 1, no pages, scale 1.2, no data, zero overlay, not loading, no error |
| Pdf.PdfStore.CurrentPageBlocks | stores/pdf.ts:51-53 | the blocks whose page index is the current page minus one |
| Pdf.PdfStore.SetPdfDoc | stores/pdf.ts:71-74 | stores the document and its page count; nothing else changes |
| Pdf.PdfStore.SetCurrentPage | stores/pdf.ts:77-97 | a page in 1..totalPages becomes current; any other page is ignored (also `goToPage`) |
| Pdf.PdfStore.NextPage | stores/pdf.ts:83-87 | advances by one only while a next page exists, and never moves past the last page |
| Pdf.PdfStore.PrevPage | stores/pdf.ts:89-93 | goes back by one only above page 1 |
| Pdf.PdfStore.SetScale | stores/pdf.ts:100-102 | the scale becomes the clamped value |
| Pdf.PdfStore.ZoomIn | stores/pdf.ts:104-106 | the scale becomes the clamped scale + 0.1 |
| Pdf.PdfStore.ZoomOut | stores/pdf.ts:108-110 | the scale becomes the clamped scale − 0.1 |
| Pdf.PdfStore.ResetZoom | stores/pdf.ts:112-114 | the scale becomes 1.0 |
| Pdf.PdfStore.UpdateOverlayDimensions | stores/pdf.ts:117-119 | the overlay dimensions are replaced |
| Pdf.PdfStore.LoadPdfData | stores/pdf.ts:122-155 | for a layout the parser reads, the data is kept and the blocks are the loaded records, with no error; for a value the parser throws on, the value is kept (it is assigned before parsing), the blocks stay as they were and the error is the thrown message; for a failed fetch, the data and blocks are kept and the error is the message or the default text; loading ends in every case |
| Pdf.PdfStore.Reset | stores/pdf.ts:158-168 | every field returns to its initial value |
| Seqs.FindIndex | stores/annotation.ts:207 | the first position that satisfies the predicate, or -1 exactly when none does |
| Seqs.IndexOf | stores/annotation.ts:74 | the first position of the value, or -1 exactly when it is absent |
| Seqs.RemoveAt | stores/annotation.ts:76 | `splice(i, 1)`: one element shorter, elements before `i` kept, later ones shifted down by one |
| Seqs.SpliceFoundIsRemoveFirst | stores/annotation.ts:206-209 | `findIndex` followed by `splice` removes exactly the first match, and changes nothing when there is none |
| Seqs.RemoveFirstMultiset | stores/annotation.ts:88-93 | the removal takes exactly one copy of the match out of the multiset |
| Seqs.RemoveFirstNoDuplicates | stores/annotation.ts:88-93 | removing cannot create a duplicate |
| Seqs.RemoveFirstAfterAppend | stores/system.ts:182-201 | removing the only match right after appending it restores the list |
| Seqs.Filter | stores/pdf.ts:52 | the kept elements are exactly the elements that satisfy the predicate |
| Seqs.FilterConcat | stores/pdf.ts:52 | filtering distributes over concatenation, so the order is kept |
| Seqs.FilterAll | stores/pdf.ts:52 | a filter that keeps everything is the identity |
| Sorting.Sort | stores/annotation.ts:64 | the sorted copy is a permutation of the input |
| Sorting.SortSorted | stores/annotation.ts:64 | under a total preorder the copy is ordered |
| Sorting.SortOfSorted | server/api/regions.get.ts:18 | input that is already ordered comes back unchanged |
| Sorting.SortStable | server/api/regions.get.ts:18 | the sort is stable: the elements that tie with any key come out in their input order |
| Sorting.SortSameElements | server/api/visual-blocks.get.ts:18 | sorting neither adds nor drops a value |
| Annotation.RemovedIsRemoveFirst | stores/annotation.ts:88-93 | removing an id drops its first occurrence and keeps the rest in order; an absent id changes nothing |
| Annotation.RemovedIsGone | stores/annotation.ts:88-93 | in a selection without duplicates the removed id is gone afterwards |
| Annotation.AppendThenToggle | stores/annotation.ts:73-80 | toggling an id just appended removes it again |
| Annotation.ToggleTwice | stores/annotation.ts:73-80 | toggling twice restores a selection that lacked the id; otherwise the id moves to the end and the same ids stay selected |
| Annotation.ToggledNoDuplicates | stores/annotation.ts:73-80 | toggling keeps the selection free of duplicates, and the id is selected afterwards exactly when it was not before |
| Annotation.DragBox | stores/annotation.ts:121-131 | the drag rectangle has non-negative size, and the start and current points are opposite corners |
| Annotation.DragBoxSymmetric | stores/annotation.ts:110-131 | the drag direction does not matter, and a drag that has not moved is the zero-size box at the start |
| Annotation.FindBlock | stores/annotation.ts:152-154 | the block with that id when the viewer has one, otherwise nothing |
| Annotation.FoundBlocks | stores/annotation.ts:152-156 | the found blocks are viewer blocks with selected ids, and there are none exactly when no selected id is found |
| Annotation.Boxes | stores/annotation.ts:160 | one box per block, in order |
| Annotation.RegionName | stores/annotation.ts:164 | a non-empty name is kept; a missing or empty one becomes `区域 n+1` |
| Annotation.DefaultNamesDistinct | stores/annotation.ts:164 | default names for different region counts differ |
| Annotation.ClientRequest | stores/annotation.ts:176-183 | the body `createRegion` posts has exactly the keys `name`, `annotation`, `blocks` and `bbox`: no `rootBlockId` and no `blockIds` |
| Annotation.SaveRequest | stores/annotation.ts:176-183 | the corrected body: the client's four fields, plus the block ids as `blockIds` and the first block as `rootBlockId` |
| Annotation.NewerFirstIsTotalPreorder | stores/annotation.ts:64 | the comparator on creation time is a total preorder |
| Annotation.RegionsSortedSpec | stores/annotation.ts:63-65 | `regionsSorted` is newest first and holds exactly the regions |
| Annotation.AnnotationStore.constructor | stores/annotation.ts:34-47 | the initial state: nothing selected, no regions, no drag, both modes off |
| Annotation.AnnotationStore.ToggleBlockSelection | stores/annotation.ts:73-80 | the selection becomes its toggle by the id and stays free of duplicates |
| Annotation.AnnotationStore.AddBlockToSelection | stores/annotation.ts:82-86 | appends the id only when it is absent |
| Annotation.AnnotationStore.RemoveBlockFromSelection | stores/annotation.ts:88-93 | removes the id's occurrence; afterwards it is not selected |
| Annotation.AnnotationStore.ClearSelection | stores/annotation.ts:95-99 | empties the selection and clears the highlighted and current block |
| Annotation.AnnotationStore.SetHighlightedBlock | stores/annotation.ts:101-103 | sets the highlighted block |
| Annotation.AnnotationStore.SetCurrentBlock | stores/annotation.ts:105-107 | sets the current block |
| Annotation.AnnotationStore.StartSelection | stores/annotation.ts:110-119 | a drag starts at the point, with a zero-size rectangle there |
| Annotation.AnnotationStore.UpdateSelection | stores/annotation.ts:121-131 | outside a drag nothing changes; during a drag the rectangle spans from the start point to the current point |
| Annotation.AnnotationStore.EndSelection | stores/annotation.ts:133-137 | the drag ends and its rectangle and start point are cleared |
| Annotation.AnnotationStore.ToggleSelectionMode | stores/annotation.ts:139-144 | flips the mode; switching it off ends any drag, and switching it on leaves the drag alone |
| Annotation.AnnotationStore.CreateRegion | stores/annotation.ts:147-193 | no region when no selected block is found, with nothing changed; otherwise a region with the given id, the name or its default, the selected ids, the bounding box of the found blocks and the time, appended to the regions, posted as the `{name, annotation, blocks, bbox}` body (`ClientRequest`), and the selection cleared |
| Annotation.AnnotationStore.UpdateRegionAnnotation | stores/annotation.ts:195-204 | the first region with that id gets the text and the new update time; the others are untouched; an unknown id changes nothing |
| Annotation.AnnotationStore.DeleteRegion | stores/annotation.ts:206-214 | removes the first region with that id |
| Annotation.DeleteRegionSpec | stores/annotation.ts:206-214 | deleting an unknown id changes nothing; otherwise exactly the found region is spliced out |
| Annotation.AnnotationStore.LoadRegions | stores/annotation.ts:243-254 | a response replaces the regions; a failed request leaves them alone |
| Annotation.AnnotationStore.ToggleKeyboardNavigation | stores/annotation.ts:257-259 | flips keyboard navigation |
| Annotation.AnnotationStore.Reset | stores/annotation.ts:262-272 | every field returns to its initial value |
| Json.Get | server/api/regions.post.ts:3 | a destructured property is present exactly when the body has the key, and is its value |
| Json.NumArray | stores/annotation.ts:181 | the block ids are sent as an array of numbers of the same length and order |
| Json.Parse | server/api/regions.get.ts:52 | parsing succeeds exactly on text that encodes JSON |
| Json.ParseStringify | server/api/regions.post.ts:10 | parsing a stringified value gives the value back; this holds by construction of the stored-text abstraction |
| Http.InternalError | server/api/regions.post.ts:26-31 | a handler failure is a 500 whose message is the handler's prefix followed by the error's message |
| Schema.NotNull | server/database/schema.ts:21 | a NOT NULL column without a default accepts only a value of its type; left-out and null values fail with the NOT NULL error |
| Schema.Nullable | server/database/schema.ts:20 | a nullable column stores NULL for a left-out or null value |
| Schema.WithDefault | server/database/schema.ts:11 | a column with a default takes it for a left-out value, and keeps an explicit null |
| Schema.IntField | server/database/schema.ts:6-7 | an integer column accepts exactly an integral number; null and left-out are kept apart; other values are mistyped |
| Schema.TextField | server/database/schema.ts:8 | a text column accepts exactly a string; null and left-out are kept apart; other values are mistyped |
| Schema.JsonField | server/database/schema.ts:9 | the stringified value is stored; `undefined` stays left out |
| Schema.NewVisualBlockRow | server/database/schema.ts:4-15 | the insert succeeds exactly when page, index, type and box are given and no value is mistyped; level defaults to 1; the times are the insert's time |
| Schema.NewRegionRow | server/database/schema.ts:18-25 | the insert succeeds exactly when the root block and the box are given and the name is not mistyped |
| Schema.NewRegionBlockRow | server/database/schema.ts:28-31 | the insert succeeds exactly when both ids are given; no key or reference is checked |
| Schema.NewAnnotationRow | server/database/schema.ts:34-43 | the insert succeeds exactly when region and content are given; the type defaults to `text` and the visibility to 1 |
| Database.RegionInsert | server/api/regions.post.ts:7-11 | the region row is inserted exactly when `rootBlockId` is an integer, `bbox` is present and the name is not mistyped; it stores the stringified box and the string name |
| Database.PlanMemberships | server/api/regions.post.ts:14-22 | memberships are inserted exactly for a non-empty `blockIds` array; `.map` throws exactly for a truthy non-array whose `length` compares above 0 once `>` converts it to a number; anything else inserts none |
| Database.DigitsPositiveIsValue | server/api/regions.post.ts:14 | a digit string compares above 0 exactly when its value is positive |
| Database.LengthCoerced | server/api/regions.post.ts:14-22 | a non-empty string, and objects whose `length` is a numeric string, `true` or `[1]`, reach `.map` and throw; a `length` of `"00"`, `[true]` or `[1, 2]` skips the memberships |
| Database.MembershipRowsOnePerElement | server/api/regions.post.ts:15-22 | with integer ids there is one membership row per element, in order, repeated ids included |
| Database.MembershipRowsOfRegion | server/api/regions.post.ts:15-22 | every stored membership names the new region |
| Database.AnnotationInsert | server/api/annotations.post.ts:3-12 | the insert succeeds exactly when the region id and the content are given; the type is `text` only when left out; the position is stringified when truthy and NULL otherwise; visibility is 1 |
| Database.FreshIdsAppend | server/database/schema.ts:5 | an auto-increment id differs from every earlier id, and ids keep increasing |
| Database.Db.constructor | server/database/schema.ts:4-43 | empty tables, and every counter starts at 1 |
| Database.Db.InsertVisualBlock | server/database/schema.ts:4-15 | a successful insert appends the row under a fresh id; a failed one changes nothing |
| Database.Db.InsertRegion | server/api/regions.post.ts:7-11 | a successful insert appends the row under a fresh id; a failed one changes nothing |
| Database.Db.InsertMemberships | server/api/regions.post.ts:15-22 | each element's row is appended in order; the step succeeds exactly when every element is an integer |
| Database.Db.PostRegion | server/api/regions.post.ts:1-32 | a rejected region row answers 500 and changes nothing; otherwise the row and its memberships are stored, and the answer is 200 exactly when the memberships step succeeds, keeping the stored row when it does not |
| Database.Db.PostAnnotation | server/api/annotations.post.ts:1-21 | a rejected row answers 500 and changes nothing; otherwise the row is stored under a fresh id and returned |
| RegionsGet.ByCreatedAtIsTotalPreorder | server/api/regions.get.ts:18 | ordering by creation time is a total preorder |
| RegionsGet.BlockIdsOf | server/api/regions.get.ts:29-34 | a region lists no more block ids than there are membership rows |
| RegionsGet.BlockIdsOfMembers | server/api/regions.get.ts:29-34 | a block id is listed exactly when a membership row links it to the region |
| RegionsGet.BlockIdsOfConcat | server/api/regions.get.ts:29-34 | later memberships are listed after earlier ones |
| RegionsGet.BlockIdsOfNone | server/api/regions.get.ts:29-34 | a region that no membership names lists no blocks |
| RegionsGet.FirstAnnotation | server/api/regions.get.ts:39-62 | the content of the region's first annotation row, or the empty string when there is none |
| RegionsGet.DecodeRegionBox | server/api/regions.get.ts:50-56 | a stored box is parsed; text that is not JSON falls back to the zero rectangle |
| RegionsGet.Hydrate | server/api/regions.get.ts:24-76 | an entry keeps the row's columns and adds its box, block ids and first annotation; when its own queries fail it gets the zero box, no blocks and no annotation |
| RegionsGet.ListRegions | server/api/regions.get.ts:7-91 | a failed region query answers 500; otherwise there is one entry per region row |
| RegionsGet.ListRegionsSpec | server/api/regions.get.ts:9-77 | the listing is the regions in creation order, each hydrated independently of the others |
| RegionsGet.ListInTableOrder | server/api/regions.get.ts:9-18 | rows already in creation order are listed in table order |
| VisualBlocksGet.ByPositionIsTotalPreorder | server/api/visual-blocks.get.ts:18 | ordering by page and then block index is a total preorder |
| VisualBlocksGet.ElementAt | server/api/visual-blocks.get.ts:28-31 | indexing a parsed value throws exactly on null; on an array it is the element, or `undefined` past the end |
| VisualBlocksGet.DecodeBox | server/api/visual-blocks.get.ts:24-32 | a stored box can be read exactly when its text is JSON and not null |
| VisualBlocksGet.DecodeFourNumbers | server/api/visual-blocks.get.ts:24-32 | a four-number array comes back as x, y, width, height in that order |
| VisualBlocksGet.StoredArray | utils/pdf-parser.ts:130 | the stored text of a serialised box is an array of the same numbers |
| VisualBlocksGet.IngestedBoxListed | server/api/visual-blocks.get.ts:24-32 | a box the ingest serialised is listed as the rectangle's origin and size |
| VisualBlocksGet.DecodeAll | server/api/visual-blocks.get.ts:23-34 | decoding succeeds exactly when every box can be read, and then gives one entry per row, in order |
| VisualBlocksGet.ListVisualBlocks | server/api/visual-blocks.get.ts:3-47 | a failed query answers 500 with the handler's prefix |
| VisualBlocksGet.ListVisualBlocksSpec | server/api/visual-blocks.get.ts:7-45 | the listing succeeds exactly when every stored box can be read; it then has one entry per row, ordered by page and then block index; any failure is a 500 |
| VisualBlocksGet.DecodedInOrder | server/api/visual-blocks.get.ts:18-34 | rows in position order give entries in position order |
| VisualBlocksGet.ListVisualBlocksRows | server/api/visual-blocks.get.ts:7-34 | every listed entry is a table row with its decoded box, and every row is listed |
| RegionSave.ClientRequestRejected | server/api/regions.post.ts:3-11 | as written, the client's body is rejected by the NOT NULL check on `root_block_id`, and its block ids would not be read either |
| RegionSave.CreateAndPost | stores/annotation.ts:147-193 | when `createRegion` makes a region and posts its body to the create-region handler, the handler answers 500 with the NOT NULL error and the tables stay as they were, while the store keeps the region and has cleared the selection |
| RegionSave.SaveRequestStored | server/api/regions.post.ts:3-23 | the corrected body is stored as one region row (name, first block, box) and one membership per selected block, in order |
| RegionSave.SavedRegionListed | server/api/regions.get.ts:24-66 | a region saved with the corrected body is listed with its id, name, time, box and the selection's blocks |
| RegionSave.BlockIdsOfOwn | server/api/regions.get.ts:61 | membership rows that all name the region list their block ids in order |
| Perf.Window | utils/performance-monitor.ts:20-26 | at most 50 samples, the latest ones, in arrival order |
| Perf.PushBoundedWindow | utils/performance-monitor.ts:20-26 | a `push` followed by a `shift` past 50 keeps the window of the whole history |
| Perf.SumBounds | utils/performance-monitor.ts:69 | the sum of samples between two bounds lies between `n` times each bound |
| Perf.StatsOf | utils/performance-monitor.ts:62-73 | no statistics for an empty series; otherwise the count is the series length |
| Perf.StatsOfSpec | utils/performance-monitor.ts:62-73 | min, max and median are samples; min and max bound every sample; the median lies between them and sits at position n/2 of the sorted copy; the average lies between min and max |
| Perf.SortedCopyBounds | utils/performance-monitor.ts:66-70 | the ends and the middle of the ascending copy are samples, and the ends bound every sample |
| Perf.AverageWithinBounds | utils/performance-monitor.ts:69 | the average of samples between two bounds lies between them |
| Perf.AscendingIsTotalPreorder | utils/performance-monitor.ts:66 | the comparator `a - b` orders as a total preorder |
| Perf.OptimizationOf | utils/performance-monitor.ts:96-112 | no verdict below 10 samples; "optimized" exactly when the first five average more than 1.5 times the last five |
| Perf.PerformanceMonitor.constructor | utils/performance-monitor.ts:4 | no series recorded |
| Perf.PerformanceMonitor.RecordOperation | utils/performance-monitor.ts:15-26 | only that operation's series changes; it stays the window of its whole history, at most 50 long, ending with the new duration |
| Perf.PerformanceMonitor.GetStats | utils/performance-monitor.ts:62-64 | null for an unknown or empty operation; otherwise the statistics of its series |
| Perf.PerformanceMonitor.DetectBrowserOptimization | utils/performance-monitor.ts:96-98 | no verdict without at least 10 page-flip samples |
| Ui.NextTheme | stores/ui.ts:143-148 | toggling always changes the theme |
| Ui.ThemeCycle | stores/ui.ts:143-148 | three toggles visit light, dark and auto and come back |
| Ui.ParseTheme | stores/ui.ts:259-263 | a stored theme is accepted exactly when it is one of the three names, and is that theme |
| Ui.ClampSidebarWidth | stores/ui.ts:113 | the width stays in [200, 500]: unchanged inside the range, the nearest bound outside it |
| Ui.FlipTwice | stores/ui.ts:132-134 | flipping a flag twice restores the map, and a flip changes no other key |
| Ui.UiStore.constructor | stores/ui.ts:42-71 | the default settings, with every flag present; not loading, no error |
| Ui.UiStore.ActualSidebarWidth | stores/ui.ts:80-82 | 60 when collapsed, the stored width otherwise |
| Ui.UiStore.ToggleSidebar | stores/ui.ts:102-105 | flips the collapsed state |
| Ui.UiStore.SetSidebarCollapsed | stores/ui.ts:107-110 | sets the collapsed state |
| Ui.UiStore.SetSidebarWidth | stores/ui.ts:112-115 | the width becomes the clamped value |
| Ui.UiStore.OpenModal | stores/ui.ts:118-120 | only that modal opens |
| Ui.UiStore.CloseModal | stores/ui.ts:122-124 | only that modal closes |
| Ui.UiStore.CloseAllModals | stores/ui.ts:126-130 | the same modals, all closed, so no modal is open |
| Ui.UiStore.ToggleModal | stores/ui.ts:132-134 | only that modal's flag flips |
| Ui.UiStore.SetTheme | stores/ui.ts:137-141 | sets the theme |
| Ui.UiStore.ToggleTheme | stores/ui.ts:143-148 | the theme becomes the next one in light, dark, auto order |
| Ui.UiStore.SetLayoutOption | stores/ui.ts:151-157 | only that layout flag is set |
| Ui.UiStore.ToggleLayoutOption | stores/ui.ts:159-162 | only that layout flag flips |
| Ui.UiStore.SetGlobalLoading | stores/ui.ts:165-168 | sets the loading flag and message |
| Ui.UiStore.ShowLoading | stores/ui.ts:170-172 | loading, with the given message or `正在加载...` |
| Ui.UiStore.HideLoading | stores/ui.ts:174-176 | not loading, with an empty message |
| Ui.UiStore.SetGlobalError | stores/ui.ts:179-181 | sets the error; `hasError` then holds exactly for a non-empty message |
| Ui.UiStore.ClearGlobalError | stores/ui.ts:183-185 | no error afterwards |
| Ui.UiStore.SetPreference | stores/ui.ts:188-194 | only that preference is set |
| Ui.UiStore.TogglePreference | stores/ui.ts:196-199 | only that preference flips |
| Ui.UiStore.LoadSettings | stores/ui.ts:244-287 | a readable sidebar state replaces both fields unclamped; a stored theme applies only when it is valid; stored layout and preference flags override the current ones key by key; unreadable or missing entries change nothing |
| Ui.UiStore.ResetSettings | stores/ui.ts:290-320 | the settings return to their defaults, so no modal is open; loading and error state are untouched |
| System.DataStatusOf | stores/system.ts:65-73 | loading exactly before any counts; done exactly when a visual block exists; uninitialised exactly when counts exist with no visual block |
| System.HealthOf | stores/system.ts:76-83 | healthy exactly when both probes succeeded, a warning exactly when one did, an error exactly when neither did |
| System.HealthSymmetric | stores/system.ts:76-83 | the two probes weigh the same |
| System.SystemStore.constructor | stores/system.ts:41-61 | no counts, the two initial probe badges, not loading, no error, no notifications |
| System.SystemStore.AddNotification | stores/system.ts:182-188 | appends the notification under the given id, so there are notifications |
| System.SystemStore.RemoveNotification | stores/system.ts:196-201 | removes the first notification with that id; an unknown id changes nothing; nothing is added |
| System.AddThenRemove | stores/system.ts:182-201 | removing a freshly added notification by its id, as the auto-removal timer does, restores the list |
| System.SystemStore.ClearAllNotifications | stores/system.ts:203-205 | no notifications afterwards |
| System.SystemStore.SettleFetchStats | stores/system.ts:91-123 | success stores the block count with zero for the other counts and a green badge; failure keeps the counts, shows the red badge and records the message or the default text; loading ends either way |
| System.SystemStore.Reset | stores/system.ts:208-225 | every field returns to its initial value |

## Left out

- Network calls are not modelled. Their outcomes are parameters instead: the fetches of
  `loadPDFData`, `fetchStats` and `loadRegions`, and the POST of `createRegion`.
  `createRegion` yields the body it posts (`Annotation.ClientRequest`).
- Time is not modelled either. `Date.now()` and `new Date()` are the `id` and `now`
  parameters, and the database's insert time is a parameter too.
- Annotation.AnnotationStore.CreateRegion: the code reads the clock three times, for the
  id and for `createdAt` and `updatedAt` (stores/annotation.ts:165-170). The model takes
  one `now` for both times, so it cannot show them differing by a tick.
- Not modelled:
  - `performance.now`;
  - `getInstance` (a singleton accessor);
  - the console logging of `detectPerformanceAnomaly` and `printAllStats`;
  - `toFixed` formatting.
  These only read clocks or write logs.
- Local storage, the document and `matchMedia` are not modelled: `saveSidebarState`,
  `saveTheme`, `saveLayoutSettings`, `savePreferences`, `applyTheme`, and the
  `localStorage.removeItem` calls of `resetSettings`. `loadSettings` takes what storage
  held as parameters.
- Ui.UiStore.LoadSettings: a stored sidebar object is assumed to hold both fields, and
  stored layout or preference maps to hold only known keys. The code would copy an
  `undefined` field or an unknown key as it is.
- System.SystemStore.AddNotification: the id is a parameter, and the `setTimeout`
  auto-removal is not modelled. `System.AddThenRemove` states what the timer's later
  removal does.
- Three store actions of `stores/system.ts` are not modelled. `initializeDatabase` and
  `refreshStats` are network sequences. `fetchStats` is modelled only by the state it
  leaves (`SettleFetchStats`).
- `saveRegionToServer` and `deleteRegionFromServer` are not modelled: they are network
  calls whose errors are only logged.
- Server handlers outside the core are not part of this model: PUT, DELETE, per-page
  regions, upload, seed, debug and stats.
- Presentation-only getters are not modelled: `scalePercentage` (`Math.round`), the
  `pageInfo` text and the `mainContentStyle` CSS strings. `ActualSidebarWidth` carries
  the width that `mainContentStyle` uses.
- Floating point is modelled as exact `real` arithmetic. Zoom steps of 0.1 therefore add
  up exactly, and `NaN` is not modelled.
- Layout.RecordFields: layout boxes are modelled as four corner numbers. A layout `bbox`
  array with fewer than four entries is not modelled.
- Records do not carry three things: the `lines` and `originalBlock` fields (copies of
  the input block), and the spans' `img_path` and `score`.
- Pdf.PdfStore.LoadPdfData: whether a fetched value makes the parser throw (no `pdf_info`,
  `para_blocks` or `spans`, or a block without `bbox`) is given by the caller as a
  `Malformed` outcome with its message. It is not computed from the value.
- Database.PlanMemberships: a string `length` is read as a number only when it is decimal
  digits with surrounding white space. A sign, a fraction, an exponent, a hex prefix or
  `Infinity` is treated as `NaN`, although `Number` reads them.
- Json.Parse: JSON text is abstracted to the value it encodes (`StoredText`). The text
  format itself is not modelled.
- Schema.IntField: SQLite's type affinity is not modelled. A value of the wrong type is
  modelled as a rejected insert, and a numeric string is not coerced.
- The database's own failures are not modelled (lost connection, a failing query). In
  `ListRegions` and `ListVisualBlocks` they are the `outage` and `failing` parameters.
- `Promise.all` over the membership inserts and over the per-region queries is modelled
  as sequential. Each step is independent of the others, so the order does not change
  the outcome.
- Rows with equal sort keys: the listings return them in table order, because the model's
  sort is stable (`Sorting.SortStable`). SQLite does not promise any order for them.
- Aliasing is not modelled. `updateRegionAnnotation` mutates a region object that the
  caller may also hold. The model updates the stored region's value.
- JsText.TrimStart, JsText.TrimEnd and JsText.Trim: their own contracts bound only the
  length. What they keep and drop is stated in `TrimStartSpec`, `TrimEndSpec`,
  `TrimKeepsMiddle` and `TrimUnique`.

The code behaves as follows, and the model follows it:

- A failed save still clears the selection. `createRegion` clears the selection whatever
  the POST's outcome (stores/annotation.ts:185-190).
- There is no transaction around the region insert and its membership inserts
  (server/api/regions.post.ts:7-22). A failing membership leaves the region row and the
  other memberships stored (`Database.Db.PostRegion`).
- `region_blocks` has no key (server/database/schema.ts:28-31). The same membership can
  be stored twice (`Database.MembershipRowsOnePerElement`).
- The server stores the region's box as the client sent it. It does not recompute the box
  from the member blocks (server/api/regions.post.ts:10).
- `GET /api/visual-blocks` fails as a whole on one unreadable box
  (server/api/visual-blocks.get.ts:23-34). Only the region listing falls back to a zero
  rectangle.

## Findings

| source | as written | input that shows it | evidently intended | confidence | as-written member | corrected member |
|---|---|---|---|---|---|---|
| server/api/regions.post.ts:3 | The handler reads `rootBlockId` and `blockIds`. `createRegion` posts only `{name, annotation, blocks, bbox}` (stores/annotation.ts:178-183). The region insert therefore breaks the NOT NULL constraint on `root_block_id`, and the memberships are never read. | Any region the client creates, e.g. blocks `[3]`: the POST answers 500 and stores nothing. The client logs the error and has already cleared the selection. | The region row and one membership per selected block are stored, and the listing returns them. | not executed | RegionSave.ClientRequestRejected, RegionSave.CreateAndPost (with Annotation.ClientRequest) | Annotation.SaveRequest, RegionSave.SaveRequestStored, RegionSave.SavedRegionListed |
