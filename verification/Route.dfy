/** The detour that an activity takes around the blackboard in the runtime graph
    (activityRoute in apps/web/src/features/runtime/components/TGA3RuntimeGraph.tsx), with coordinates as reals. */
module Route {

  datatype Point = Point(x: real, y: real)

  /** A box is given by its centre, as in the source. */
  datatype Box = Box(x: real, y: real, width: real, height: real)

  const MARGIN := 12.0

  predicate Inside(p: Point, box: Box) {
    && box.x - box.width / 2.0 < p.x < box.x + box.width / 2.0
    && box.y - box.height / 2.0 < p.y < box.y + box.height / 2.0
  }

  /** The height at which the detour leaves an end point: above the box or below it. */
  function Level(p: Point, box: Box): real {
    if p.y < box.y then box.y - box.height / 2.0 - MARGIN else box.y + box.height / 2.0 + MARGIN
  }

  function Side(from: Point, to: Point, box: Box): real {
    if (from.x + to.x) / 2.0 < box.x then box.x - box.width / 2.0 - MARGIN else box.x + box.width / 2.0 + MARGIN
  }

  function Detour(from: Point, to: Point, box: Box): seq<Point> {
    var side := Side(from, to, box);
    [from, Point(from.x, Level(from, box)), Point(side, Level(from, box)), Point(side, Level(to, box)), Point(to.x, Level(to, box)), to]
  }

  predicate Between(a: real, b: real, c: real) {
    a <= b <= c || c <= b <= a
  }

  /** The points of a segment that runs along one axis. */
  predicate On(q: Point, a: Point, b: Point) {
    (a.x == b.x || a.y == b.y) && Between(a.x, q.x, b.x) && Between(a.y, q.y, b.y)
  }

  ghost predicate SegmentAvoids(a: Point, b: Point, box: Box) {
    forall q :: On(q, a, b) ==> !Inside(q, box)
  }

  /** Every segment runs along an axis and has no point inside the box. */
  ghost predicate Avoids(points: seq<Point>, box: Box) {
    forall i :: 0 < i < |points| ==>
      && (points[i - 1].x == points[i].x || points[i - 1].y == points[i].y)
      && SegmentAvoids(points[i - 1], points[i], box)
  }

  lemma SegmentStaysOut(from: Point, to: Point, box: Box, i: nat, q: Point)
    requires box.width >= 0.0 && box.height >= 0.0 && !Inside(from, box) && !Inside(to, box)
    requires 0 < i < 6 && On(q, Detour(from, to, box)[i - 1], Detour(from, to, box)[i])
    ensures !Inside(q, box)
  {
    if i == 1 {
      assert q.x == from.x;
    } else if i == 3 {
      assert q.x == Side(from, to, box);
    } else if i == 5 {
      assert q.x == to.x;
    } else {
      assert q.y == Level(from, box) || q.y == Level(to, box);
    }
  }

  /** No part of the detour enters the blackboard if and only if neither of its end points lies inside it. */
  lemma DetourAvoidsIff(from: Point, to: Point, box: Box)
    requires box.width >= 0.0 && box.height >= 0.0
    ensures Avoids(Detour(from, to, box), box) <==> !Inside(from, box) && !Inside(to, box)
  {
    var points := Detour(from, to, box);
    if !Inside(from, box) && !Inside(to, box) {
      forall i | 0 < i < |points| ensures SegmentAvoids(points[i - 1], points[i], box) {
        forall q | On(q, points[i - 1], points[i]) ensures !Inside(q, box) {
          SegmentStaysOut(from, to, box, i, q);
        }
      }
    } else {
      assert On(from, points[0], points[1]) && On(to, points[4], points[5]);
    }
  }

  /** The detour leads from one end point to the other; in between it keeps the margin, on the side of the box that is nearer
      to the middle of the two. */
  lemma DetourKeepsMargin(from: Point, to: Point, box: Box)
    requires box.width >= 0.0 && box.height >= 0.0
    ensures var points := Detour(from, to, box);
      && |points| == 6 && points[0] == from && points[5] == to
      && points[1].x == from.x && points[4].x == to.x
      && (forall i :: 1 <= i < 5 ==> points[i].y == box.y - box.height / 2.0 - 12.0 || points[i].y == box.y + box.height / 2.0 + 12.0)
      && (points[1].y < box.y <==> from.y < box.y) && (points[4].y < box.y <==> to.y < box.y)
      && points[2].x == points[3].x
      && (points[2].x == box.x - box.width / 2.0 - 12.0 || points[2].x == box.x + box.width / 2.0 + 12.0)
      && (points[2].x < box.x <==> (from.x + to.x) / 2.0 < box.x)
  {
  }
}
