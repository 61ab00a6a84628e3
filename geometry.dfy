/**
 * Rectangle arithmetic of the layout utilities (utils/pdf-parser.ts):
 * the corner-to-size conversion, the intersection test that drag selection
 * relies on, and the bounding box of several rectangles.
 * Coordinates are exact reals; the source only adds, subtracts and takes minima and maxima.
 */
module Geometry {

  /** A rectangle by origin and size, as the viewer and the store use it. */
  datatype Bbox = Bbox(x: real, y: real, width: real, height: real)
  {
    function Right(): real { x + width }
    function Bottom(): real { y + height }
  }

  /** A layout bounding box `[x1, y1, x2, y2]` as the parsed-layout JSON gives it. */
  datatype Corners = Corners(x1: real, y1: real, x2: real, y2: real)

  /** The rectangle every empty aggregate and every failed decode falls back to. */
  const ZeroBbox := Bbox(0.0, 0.0, 0.0, 0.0)

  /** `bboxArrayToObject`: keeps the top-left corner and turns the bottom-right corner into a size. */
  function BboxArrayToObject(c: Corners): (b: Bbox)
    ensures b.x == c.x1 && b.y == c.y1
    ensures b.Right() == c.x2 && b.Bottom() == c.y2
  {
    Bbox(c.x1, c.y1, c.x2 - c.x1, c.y2 - c.y1)
  }

  /** `isRectIntersect`: neither rectangle lies strictly to one side of the other. */
  predicate IsRectIntersect(a: Bbox, b: Bbox)
  {
    !(a.x + a.width < b.x || b.x + b.width < a.x || a.y + a.height < b.y || b.y + b.height < a.y)
  }

  predicate WellFormed(r: Bbox)
  {
    r.width >= 0.0 && r.height >= 0.0
  }

  /** The point lies in the closed rectangle, its edges included. */
  predicate InClosed(r: Bbox, px: real, py: real)
  {
    r.x <= px <= r.Right() && r.y <= py <= r.Bottom()
  }

  ghost predicate HaveCommonPoint(a: Bbox, b: Bbox)
  {
    exists px, py :: InClosed(a, px, py) && InClosed(b, px, py)
  }

  /**
   * For rectangles with non-negative size the test is exactly "the closed rectangles share
   * a point": rectangles that only touch along an edge or at a corner intersect.
   */
  lemma IntersectIffCommonPoint(a: Bbox, b: Bbox)
    requires WellFormed(a) && WellFormed(b)
    ensures IsRectIntersect(a, b) <==> HaveCommonPoint(a, b)
  {
    if IsRectIntersect(a, b) {
      var px := if a.x <= b.x then b.x else a.x;
      var py := if a.y <= b.y then b.y else a.y;
      assert InClosed(a, px, py) && InClosed(b, px, py);
    }
  }

  lemma IntersectSymmetric(a: Bbox, b: Bbox)
    ensures IsRectIntersect(a, b) == IsRectIntersect(b, a)
  {
  }

  /** A rectangle meets itself exactly when its size is non-negative, zero-size ones included. */
  lemma SelfIntersect(a: Bbox)
    ensures IsRectIntersect(a, a) <==> WellFormed(a)
  {
  }

  /** The boundary rule: sharing only the vertical edge `x = a.Right()` counts as intersecting. */
  lemma EdgeTouchIntersects(a: Bbox, gap: real)
    requires WellFormed(a)
    ensures IsRectIntersect(a, Bbox(a.Right(), a.y, 1.0, a.height))
    ensures gap > 0.0 ==> !IsRectIntersect(a, Bbox(a.Right() + gap, a.y, 1.0, a.height))
  {
  }

  function Min(a: real, b: real): real { if a <= b then a else b }
  function Max(a: real, b: real): real { if a >= b then a else b }

  /** The running extrema of `calculateBoundingBox`. */
  datatype Extent = Extent(minX: real, minY: real, maxX: real, maxY: real)

  function EdgesOf(r: Bbox): Extent
  {
    Extent(r.x, r.y, r.Right(), r.Bottom())
  }

  function Merge(e: Extent, r: Bbox): Extent
  {
    Extent(Min(e.minX, r.x), Min(e.minY, r.y), Max(e.maxX, r.Right()), Max(e.maxY, r.Bottom()))
  }

  /** The extrema after scanning the rectangles from the first to the last. */
  function Hull(rects: seq<Bbox>): Extent
    requires |rects| > 0
  {
    if |rects| == 1 then EdgesOf(rects[0])
    else Merge(Hull(rects[..|rects| - 1]), rects[|rects| - 1])
  }

  function ExtentToBbox(e: Extent): Bbox
  {
    Bbox(e.minX, e.minY, e.maxX - e.minX, e.maxY - e.minY)
  }

  /** The aggregate `calculateBoundingBox` computes: the zero rectangle for no input. */
  function BoundingBox(rects: seq<Bbox>): Bbox
  {
    if rects == [] then ZeroBbox else ExtentToBbox(Hull(rects))
  }

  predicate Contains(outer: Bbox, r: Bbox)
  {
    outer.x <= r.x && outer.y <= r.y && r.Right() <= outer.Right() && r.Bottom() <= outer.Bottom()
  }

  /** Every extremum of the hull bounds every input and is attained by some input. */
  lemma {:induction false} HullIsTight(rects: seq<Bbox>)
    requires |rects| > 0
    ensures forall k :: 0 <= k < |rects| ==>
      Hull(rects).minX <= rects[k].x && Hull(rects).minY <= rects[k].y &&
      rects[k].Right() <= Hull(rects).maxX && rects[k].Bottom() <= Hull(rects).maxY
    ensures exists k :: 0 <= k < |rects| && Hull(rects).minX == rects[k].x
    ensures exists k :: 0 <= k < |rects| && Hull(rects).minY == rects[k].y
    ensures exists k :: 0 <= k < |rects| && Hull(rects).maxX == rects[k].Right()
    ensures exists k :: 0 <= k < |rects| && Hull(rects).maxY == rects[k].Bottom()
  {
    var n := |rects|;
    if n > 1 {
      var init := rects[..n - 1];
      HullIsTight(init);
      assert forall k :: 0 <= k < n - 1 ==> init[k] == rects[k];
      var e := Hull(init);
      var ka :| 0 <= ka < n - 1 && e.minX == init[ka].x;
      var kb :| 0 <= kb < n - 1 && e.minY == init[kb].y;
      var kc :| 0 <= kc < n - 1 && e.maxX == init[kc].Right();
      var kd :| 0 <= kd < n - 1 && e.maxY == init[kd].Bottom();
      var last := n - 1;
      assert Hull(rects).minX == rects[if e.minX <= rects[last].x then ka else last].x;
      assert Hull(rects).minY == rects[if e.minY <= rects[last].y then kb else last].y;
      assert Hull(rects).maxX == rects[if e.maxX >= rects[last].Right() then kc else last].Right();
      assert Hull(rects).maxY == rects[if e.maxY >= rects[last].Bottom() then kd else last].Bottom();
    } else {
      assert Hull(rects).minX == rects[0].x;
    }
  }

  /** The bounding box contains every input rectangle. */
  lemma BoundingBoxContainsAll(rects: seq<Bbox>)
    ensures forall k :: 0 <= k < |rects| ==> Contains(BoundingBox(rects), rects[k])
  {
    if rects != [] {
      HullIsTight(rects);
    }
  }

  /**
   * The bounding box is the smallest such rectangle: each of its four edges is an edge of some
   * input, so every rectangle containing all inputs contains it.
   */
  lemma BoundingBoxMinimal(rects: seq<Bbox>, outer: Bbox)
    requires |rects| > 0
    requires forall k :: 0 <= k < |rects| ==> Contains(outer, rects[k])
    ensures Contains(outer, BoundingBox(rects))
    ensures exists k :: 0 <= k < |rects| && BoundingBox(rects).x == rects[k].x
    ensures exists k :: 0 <= k < |rects| && BoundingBox(rects).Right() == rects[k].Right()
    ensures exists k :: 0 <= k < |rects| && BoundingBox(rects).y == rects[k].y
    ensures exists k :: 0 <= k < |rects| && BoundingBox(rects).Bottom() == rects[k].Bottom()
  {
    HullIsTight(rects);
  }

  /** `calculateBoundingBox`: the loop over `rects[1..]` with running minima and maxima. */
  method CalculateBoundingBox(rects: seq<Bbox>) returns (r: Bbox)
    ensures r == BoundingBox(rects)
    ensures rects == [] ==> r == ZeroBbox
    ensures forall k :: 0 <= k < |rects| ==> Contains(r, rects[k])
  {
    BoundingBoxContainsAll(rects);
    if |rects| == 0 {
      return ZeroBbox;
    }
    var minX := rects[0].x;
    var minY := rects[0].y;
    var maxX := rects[0].x + rects[0].width;
    var maxY := rects[0].y + rects[0].height;
    var i := 1;
    while i < |rects|
      invariant 1 <= i <= |rects|
      invariant Extent(minX, minY, maxX, maxY) == Hull(rects[..i])
    {
      var rect := rects[i];
      assert rects[..i + 1][..i] == rects[..i];
      minX := Min(minX, rect.x);
      minY := Min(minY, rect.y);
      maxX := Max(maxX, rect.x + rect.width);
      maxY := Max(maxY, rect.y + rect.height);
      i := i + 1;
    }
    assert rects[..i] == rects;
    r := Bbox(minX, minY, maxX - minX, maxY - minY);
  }
}
