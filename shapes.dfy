/**
 * The shapes the user transforms. A point item holds one plane point and a
 * corner letter; a polygon item owns one point item per corner, labelled
 * 'A', 'B', ... in order, and keeps the closed ring of its corners.
 */
module Shapes {
  import opened Outcomes
  import opened Geometry
  import opened Transformations

  /** `ABC`: the corner letters. */
  const ABC: string := "ABCDEFGHIJKLMNOPQRSTUVWXYZ"

  /** The letters are the 26 consecutive characters from 'A'. */
  lemma AbcIsAlphabet()
    ensures |ABC| == 26
    ensures forall i :: 0 <= i < |ABC| ==> ABC[i] as int == 'A' as int + i
  {
  }

  function Min(a: nat, b: nat): nat { if a <= b then a else b }

  /** The closed ring of a polygon: its corners in order, then the first corner again. */
  function Ring(corners: seq<Point>): (r: seq<Point>)
    requires 0 < |corners|
    ensures |r| == |corners| + 1 && r[..|corners|] == corners
  {
    corners + [corners[0]]
  }

  /** The ring is closed: its last point is its first. */
  lemma RingClosed(corners: seq<Point>)
    requires 0 < |corners|
    ensures Ring(corners)[0] == Ring(corners)[|corners|] == corners[0]
  {
  }

  /** A transformation defines an image for every point of a list. */
  predicate DefinedOn(t: Transformation, ps: seq<Point>)
  {
    forall i :: 0 <= i < |ps| ==> Apply(t, ps[i]).Some?
  }

  /** The images of the points of a list, in order. */
  function TransformAll(t: Transformation, ps: seq<Point>): (r: seq<Point>)
    requires DefinedOn(t, ps)
    ensures |r| == |ps|
    ensures forall i :: 0 <= i < |ps| ==> Some(r[i]) == Apply(t, ps[i])
  {
    seq(|ps|, i requires 0 <= i < |ps| => Apply(t, ps[i]).value)
  }

  /** Transforming the corners and closing the ring is transforming the closed ring. */
  lemma RingTransform(t: Transformation, corners: seq<Point>)
    requires 0 < |corners| && DefinedOn(t, corners)
    ensures DefinedOn(t, Ring(corners))
    ensures Ring(TransformAll(t, corners)) == TransformAll(t, Ring(corners))
  {
    var ring := Ring(corners);
    assert forall i :: 0 <= i < |ring| ==> ring[i] == if i < |corners| then corners[i] else corners[0];
  }

  /** `PointItem`: a draggable point with its letter and the polygon that owns it, if any. */
  class PointItem {
    var point: Point
    const owner: PolygonItem?
    const text: char

    constructor(p: Point, owner: PolygonItem?, text: char)
      ensures point == p && this.owner == owner && this.text == text
    {
      point := p;
      this.owner := owner;
      this.text := text;
    }

    /** `move_to`. */
    method MoveTo(p: Point)
      modifies this
      ensures point == p
    {
      point := p;
    }

    /** `my_transform`: the point moves to its image. */
    method MyTransform(t: Transformation)
      requires Apply(t, point).Some?
      modifies this
      ensures Some(point) == Apply(t, old(point))
    {
      MoveTo(Apply(t, point).value);
    }
  }

  /** `PolygonItem`: the corner items, at most one per letter, and the closed ring through them. */
  class PolygonItem {
    var items: seq<PointItem>
    var polygon: seq<Point>

    /** There is a corner; the corners are distinct items owned by this polygon, lettered in order. */
    ghost predicate Valid()
      reads this
    {
      0 < |items| <= |ABC| &&
      (forall i, j :: 0 <= i < j < |items| ==> items[i] != items[j]) &&
      (forall i :: 0 <= i < |items| ==> items[i].owner == this && items[i].text == ABC[i])
    }

    /** The corner points, in order. */
    function Corners(): (r: seq<Point>)
      reads this, items
      ensures |r| == |items|
    {
      seq(|items|, i reads this, items requires 0 <= i < |items| => items[i].point)
    }

    /**
     * The constructor: one corner item per point while letters last (`zip`
     * stops at the shorter list), then the ring. Without a point the ring
     * cannot be closed.
     */
    constructor(points: seq<Point>)
      requires 0 < |points|
      ensures Valid()
      ensures |items| == Min(|points|, |ABC|)
      ensures Corners() == points[..|items|]
      ensures polygon == Ring(Corners())
      ensures forall i :: 0 <= i < |items| ==> fresh(items[i])
    {
      items := [];
      polygon := [];
      new;
      var n := Min(|points|, |ABC|);
      items := NewCorners(this, points, n);
      assert forall i :: 0 <= i < n ==> Corners()[i] == points[..n][i];
      polygon := Ring(Corners());
    }

    /**
     * `my_transform`: every corner moves to its image, once, and the ring is
     * rebuilt from the new corners; the corner items and their letters stay.
     */
    method MyTransform(t: Transformation)
      requires Valid() && DefinedOn(t, Corners())
      modifies this, items
      ensures Valid() && items == old(items)
      ensures Corners() == TransformAll(t, old(Corners()))
      ensures polygon == Ring(Corners())
    {
      var k := 0;
      while k < |items|
        invariant 0 <= k <= |items|
        invariant items == old(items)
        invariant forall i :: 0 <= i < k ==> Some(items[i].point) == Apply(t, old(items[i].point))
        invariant forall i :: k <= i < |items| ==> items[i].point == old(items[i].point)
      {
        var item := items[k];
        assert old(Corners())[k] == item.point;
        assert forall i :: 0 <= i < |items| && i != k ==> items[i] != item;
        item.MyTransform(t);
        k := k + 1;
      }
      ghost var image := TransformAll(t, old(Corners()));
      assert forall i :: 0 <= i < |items| ==> Corners()[i] == image[i];
      polygon := Ring(Corners());
    }
  }

  /**
   * The corner items of a new polygon: the `zip` of its points with the
   * letters, one fresh item per point, owned by the polygon.
   */
  method NewCorners(owner: PolygonItem, points: seq<Point>, n: nat) returns (items: seq<PointItem>)
    requires n <= |points| && n <= |ABC|
    ensures |items| == n
    ensures forall i :: 0 <= i < n ==> fresh(items[i])
    ensures forall i :: 0 <= i < n ==> items[i].point == points[i] && items[i].owner == owner && items[i].text == ABC[i]
    ensures forall i, j :: 0 <= i < j < n ==> items[i] != items[j]
  {
    items := [];
    var k := 0;
    while k < n
      invariant 0 <= k <= n && |items| == k
      invariant forall i :: 0 <= i < k ==> fresh(items[i])
      invariant forall i :: 0 <= i < k ==> items[i].point == points[i]
      invariant forall i :: 0 <= i < k ==> items[i].owner == owner && items[i].text == ABC[i]
      invariant forall i, j :: 0 <= i < j < k ==> items[i] != items[j]
    {
      var item := new PointItem(points[k], owner, ABC[k]);
      assert forall i :: 0 <= i < k ==> items[i] != item;
      items := items + [item];
      k := k + 1;
    }
  }

  /** `QRectF(p, q)`: the rectangle with top-left corner `p` and bottom-right corner `q`. */
  datatype Rect = Rect(topLeft: Point, bottomRight: Point)

  /**
   * The corners of `RectangleItem`: top-left, top-right, bottom-right,
   * bottom-left, so that each side is horizontal or vertical in turn.
   */
  function RectangleCorners(r: Rect): (c: seq<Point>)
    ensures |c| == 4 && c[0] == r.topLeft && c[2] == r.bottomRight
    ensures c[0].y == c[1].y && c[1].x == c[2].x && c[2].y == c[3].y && c[3].x == c[0].x
    ensures c[1] == Point(r.bottomRight.x, r.topLeft.y) && c[3] == Point(r.topLeft.x, r.bottomRight.y)
  {
    [r.topLeft, Point(r.bottomRight.x, r.topLeft.y), r.bottomRight, Point(r.topLeft.x, r.bottomRight.y)]
  }

  /** `RectangleItem(rect)`: the polygon item of the rectangle's four corners, lettered A to D. */
  method NewRectangleItem(r: Rect) returns (p: PolygonItem)
    ensures fresh(p) && p.Valid()
    ensures p.Corners() == RectangleCorners(r)
    ensures p.polygon == Ring(RectangleCorners(r))
  {
    p := new PolygonItem(RectangleCorners(r));
  }
}
