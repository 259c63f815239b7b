// components/tools/minigames/ColorWeave.tsx — three segments between six
// draggable points; the puzzle is solved when no two segments cross.
module ColorWeave {
  import opened Wrappers

  /** Coordinates are exact reals here (JavaScript numbers are doubles). */
  datatype Point = Point(id: int, x: real, y: real)
  datatype Line = Line(p1: Point, p2: Point)

  // ---------------------------------------------------------------- geometry

  /** The direction cross product the test divides by. */
  function Det(l1: Line, l2: Line): real
  {
    (l1.p2.x - l1.p1.x) * (l2.p2.y - l2.p1.y) - (l1.p2.y - l1.p1.y) * (l2.p2.x - l2.p1.x)
  }

  /** checkIntersection: no crossing for parallel or collinear segments;
      otherwise the two line parameters must both lie strictly inside (0, 1). */
  function CheckIntersection(l1: Line, l2: Line): bool
  {
    var det := Det(l1, l2);
    if det == 0.0 then false
    else
      var t := TParam(l1, l2);
      var u := UParam(l1, l2);
      t > 0.0 && t < 1.0 && u > 0.0 && u < 1.0
  }

  /** Where along the first segment the lines meet. */
  function TParam(l1: Line, l2: Line): real
    requires Det(l1, l2) != 0.0
  {
    var p1, p3, p4 := l1.p1, l2.p1, l2.p2;
    ((p3.x - p1.x) * (p4.y - p3.y) - (p3.y - p1.y) * (p4.x - p3.x)) / Det(l1, l2)
  }

  /** Where along the second segment the lines meet. */
  function UParam(l1: Line, l2: Line): real
    requires Det(l1, l2) != 0.0
  {
    var p1, p2, p3 := l1.p1, l1.p2, l2.p1;
    -((p2.x - p1.x) * (p3.y - p1.y) - (p2.y - p1.y) * (p3.x - p1.x)) / Det(l1, l2)
  }

  /** The point at parameter t of the first segment is the point at
      parameter u of the second. */
  predicate Meets(l1: Line, l2: Line, t: real, u: real)
  {
    l1.p1.x + t * (l1.p2.x - l1.p1.x) == l2.p1.x + u * (l2.p2.x - l2.p1.x)
    && l1.p1.y + t * (l1.p2.y - l1.p1.y) == l2.p1.y + u * (l2.p2.y - l2.p1.y)
  }

  /** With a non-zero cross product, the parameters the test computes are
      where the two lines meet. */
  lemma ParametersMeet(l1: Line, l2: Line)
    requires Det(l1, l2) != 0.0
    ensures Meets(l1, l2, TParam(l1, l2), UParam(l1, l2))
  {
    var p1, p2, p3, p4 := l1.p1, l1.p2, l2.p1, l2.p2;
    var dx1, dy1, dx2, dy2 := p2.x - p1.x, p2.y - p1.y, p4.x - p3.x, p4.y - p3.y;
    var ex, ey := p3.x - p1.x, p3.y - p1.y;
    var det := dx1 * dy2 - dy1 * dx2;
    var t := (ex * dy2 - ey * dx2) / det;
    var u := -(dx1 * ey - dy1 * ex) / det;
    assert t * det == ex * dy2 - ey * dx2;
    assert u * det == dy1 * ex - dx1 * ey;
    assert (t * dx1 - u * dx2) * det == ex * det by {
      calc {
        (t * dx1 - u * dx2) * det;
        (t * det) * dx1 - (u * det) * dx2;
        (ex * dy2 - ey * dx2) * dx1 - (dy1 * ex - dx1 * ey) * dx2;
        ex * det;
      }
    }
    assert (t * dy1 - u * dy2) * det == ey * det by {
      calc {
        (t * dy1 - u * dy2) * det;
        (t * det) * dy1 - (u * det) * dy2;
        (ex * dy2 - ey * dx2) * dy1 - (dy1 * ex - dx1 * ey) * dy2;
        ey * det;
      }
    }
    CancelNonZero(t * dx1 - u * dx2, ex, det);
    CancelNonZero(t * dy1 - u * dy2, ey, det);
  }

  lemma CancelNonZero(a: real, b: real, d: real)
    requires d != 0.0 && a * d == b * d
    ensures a == b
  {
    assert (a - b) * d == 0.0;
  }

  /** With a non-zero cross product, the lines meet at one pair of
      parameters only. */
  lemma MeetingUnique(l1: Line, l2: Line, t: real, u: real)
    requires Det(l1, l2) != 0.0 && Meets(l1, l2, t, u)
    ensures t == TParam(l1, l2) && u == UParam(l1, l2)
  {
    var p1, p2, p3, p4 := l1.p1, l1.p2, l2.p1, l2.p2;
    var dx1, dy1, dx2, dy2 := p2.x - p1.x, p2.y - p1.y, p4.x - p3.x, p4.y - p3.y;
    var ex, ey := p3.x - p1.x, p3.y - p1.y;
    var det := dx1 * dy2 - dy1 * dx2;
    assert t * dx1 == ex + u * dx2;
    assert t * dy1 == ey + u * dy2;
    assert t * det == ex * dy2 - ey * dx2 by {
      calc {
        t * det;
        (t * dx1) * dy2 - (t * dy1) * dx2;
        (ex + u * dx2) * dy2 - (ey + u * dy2) * dx2;
        ex * dy2 - ey * dx2;
      }
    }
    assert u * det == dy1 * ex - dx1 * ey by {
      calc {
        u * det;
        (u * dy2) * dx1 - (u * dx2) * dy1;
        (t * dy1 - ey) * dx1 - (t * dx1 - ex) * dy1;
        dy1 * ex - dx1 * ey;
      }
    }
    DivideBack(t, ex * dy2 - ey * dx2, det);
    DivideBack(u, dy1 * ex - dx1 * ey, det);
    assert -(dx1 * ey - dy1 * ex) == dy1 * ex - dx1 * ey;
  }

  lemma DivideBack(a: real, b: real, d: real)
    requires d != 0.0 && a * d == b
    ensures a == b / d
  {
    assert (b / d) * d == b;
    CancelNonZero(a, b / d, d);
  }

  /** The test reports a crossing exactly when the segments are not
      parallel and meet at a point strictly inside both; touching at an end
      point does not count. */
  lemma IntersectionMeaning(l1: Line, l2: Line)
    ensures CheckIntersection(l1, l2)
            <==> Det(l1, l2) != 0.0 && exists t, u :: 0.0 < t < 1.0 && 0.0 < u < 1.0 && Meets(l1, l2, t, u)
  {
    if Det(l1, l2) != 0.0 {
      ParametersMeet(l1, l2);
      forall t, u | 0.0 < t < 1.0 && 0.0 < u < 1.0 && Meets(l1, l2, t, u) ensures CheckIntersection(l1, l2) {
        MeetingUnique(l1, l2, t, u);
      }
    }
  }

  // ---------------------------------------------------------------- counting

  /** Pairs (i, j) with i < j < n that cross. */
  function CountRow(ls: seq<Line>, i: nat, n: nat): nat
    requires i < |ls| && n <= |ls|
  {
    if n <= i + 1 then 0
    else CountRow(ls, i, n - 1) + (if CheckIntersection(ls[i], ls[n - 1]) then 1 else 0)
  }

  /** Crossing pairs whose first line is among the first m. */
  function Count(ls: seq<Line>, m: nat): nat
    requires m <= |ls|
  {
    if m == 0 then 0 else Count(ls, m - 1) + CountRow(ls, m - 1, |ls|)
  }

  lemma {:induction false} CountRowBound(ls: seq<Line>, i: nat, n: nat)
    requires i < |ls| && n <= |ls|
    ensures CountRow(ls, i, n) <= if n <= i + 1 then 0 else n - i - 1
  {
    if n > i + 1 {
      CountRowBound(ls, i, n - 1);
    }
  }

  /** Each unordered pair is looked at once, so three lines have at most
      three crossings. */
  lemma CountOfThree(ls: seq<Line>)
    requires |ls| == 3
    ensures Count(ls, 3) <= 3
  {
    CountRowBound(ls, 0, 3);
    CountRowBound(ls, 1, 3);
    CountRowBound(ls, 2, 3);
    assert Count(ls, 1) == CountRow(ls, 0, 3);
    assert Count(ls, 2) == Count(ls, 1) + CountRow(ls, 1, 3);
  }

  /** No crossing at all: every pair is free. */
  lemma {:induction false} CountZero(ls: seq<Line>, m: nat)
    requires m <= |ls|
    ensures Count(ls, m) == 0 <==> forall i, j :: 0 <= i < m && i < j < |ls| ==> !CheckIntersection(ls[i], ls[j])
  {
    if m > 0 {
      CountZero(ls, m - 1);
      CountRowZero(ls, m - 1, |ls|);
    }
  }

  lemma {:induction false} CountRowZero(ls: seq<Line>, i: nat, n: nat)
    requires i < |ls| && n <= |ls|
    ensures CountRow(ls, i, n) == 0 <==> forall j :: i < j < n ==> !CheckIntersection(ls[i], ls[j])
  {
    if n > i + 1 {
      CountRowZero(ls, i, n - 1);
    }
  }

  // ---------------------------------------------------------------- the board

  const InitialPoints: seq<Point> := [
    Point(1, 100.0, 100.0), Point(2, 300.0, 300.0),
    Point(3, 100.0, 300.0), Point(4, 300.0, 100.0),
    Point(5, 50.0, 200.0), Point(6, 350.0, 200.0)]

  const InitialLines: seq<(int, int)> := [(1, 2), (3, 4), (5, 6)]

  /** `points.find(p => p.id === id)`. */
  function Find(points: seq<Point>, id: int): (r: Option<Point>)
    ensures r.Some? ==> r.value in points && r.value.id == id
    ensures r.None? ==> forall k :: 0 <= k < |points| ==> points[k].id != id
  {
    if points == [] then None
    else if points[0].id == id then Some(points[0])
    else Find(points[1..], id)
  }

  /** The six points keep their ids 1..6, in order. */
  predicate WellFormed(points: seq<Point>)
  {
    |points| == 6 && forall k :: 0 <= k < 6 ==> points[k].id == k + 1
  }

  lemma {:induction false} FindById(points: seq<Point>, id: int, k: nat)
    requires k < |points| && points[k].id == id
    requires forall j :: 0 <= j < k ==> points[j].id != id
    ensures Find(points, id) == Some(points[k])
    decreases k
  {
    if k > 0 {
      FindById(points[1..], id, k - 1);
    }
  }

  lemma FindWellFormed(points: seq<Point>, id: int)
    requires WellFormed(points) && 1 <= id <= 6
    ensures Find(points, id) == Some(points[id - 1])
  {
    FindById(points, id, id - 1);
  }

  /** The three segments drawn from the points. */
  function Lines(points: seq<Point>): (ls: seq<Line>)
    requires WellFormed(points)
    ensures |ls| == 3
    ensures forall k :: 0 <= k < 3 ==>
              ls[k] == Line(points[InitialLines[k].0 - 1], points[InitialLines[k].1 - 1])
  {
    seq(3, k requires 0 <= k < 3 =>
          FindWellFormed(points, InitialLines[k].0);
          FindWellFormed(points, InitialLines[k].1);
          Line(Find(points, InitialLines[k].0).value, Find(points, InitialLines[k].1).value))
  }

  /** The three segments of the first layout: two diagonals and a horizontal. */
  const Diagonal1 := Line(Point(1, 100.0, 100.0), Point(2, 300.0, 300.0))
  const Diagonal2 := Line(Point(3, 100.0, 300.0), Point(4, 300.0, 100.0))
  const Horizontal := Line(Point(5, 50.0, 200.0), Point(6, 350.0, 200.0))

  lemma InitialLinesAre()
    ensures WellFormed(InitialPoints)
    ensures Lines(InitialPoints)[0] == Diagonal1
    ensures Lines(InitialPoints)[1] == Diagonal2
    ensures Lines(InitialPoints)[2] == Horizontal
  {
  }

  /** The two diagonals cross at (200, 200). */
  lemma DiagonalsCross()
    ensures CheckIntersection(Diagonal1, Diagonal2)
  {
  }

  /** The horizontal crosses the first diagonal at (200, 200). */
  lemma HorizontalCrossesFirst()
    ensures CheckIntersection(Diagonal1, Horizontal)
  {
  }

  /** The horizontal crosses the second diagonal at (200, 200). */
  lemma HorizontalCrossesSecond()
    ensures CheckIntersection(Diagonal2, Horizontal)
  {
  }

  /** The first layout has every pair crossing at (200, 200), so it starts
      with three crossings and unsolved. */
  lemma InitialCountIsThree()
    ensures WellFormed(InitialPoints) && Count(Lines(InitialPoints), 3) == 3
  {
    InitialLinesAre();
    var ls := Lines(InitialPoints);
    DiagonalsCross();
    HorizontalCrossesFirst();
    HorizontalCrossesSecond();
    assert CheckIntersection(ls[0], ls[1]) && CheckIntersection(ls[0], ls[2]) && CheckIntersection(ls[1], ls[2]);
    assert CountRow(ls, 0, 2) == 1;
    assert CountRow(ls, 0, 3) == 2;
    assert CountRow(ls, 1, 3) == 1;
    assert CountRow(ls, 2, 3) == 0;
    assert Count(ls, 1) == 2;
    assert Count(ls, 2) == 3;
  }

  /** The dragged point moved to (x, y); the others stay. */
  function MovePoint(points: seq<Point>, id: int, x: real, y: real): (r: seq<Point>)
    ensures |r| == |points|
    ensures forall k :: 0 <= k < |r| ==> r[k] == if points[k].id == id then points[k].(x := x, y := y) else points[k]
  {
    seq(|points|, k requires 0 <= k < |points| => if points[k].id == id then points[k].(x := x, y := y) else points[k])
  }

  /** The count and the solved flag are the effect's results for the points,
      which keep their ids. */
  predicate Consistent(points: seq<Point>, intersections: nat, isSolved: bool)
  {
    WellFormed(points)
    && intersections == Count(Lines(points), 3)
    && isSolved == (intersections == 0)
  }

  lemma InitialConsistent()
    ensures Consistent(InitialPoints, 3, false)
  {
    InitialCountIsThree();
  }

  lemma ConsistentUnique(points: seq<Point>, n: nat, b: bool, n': nat, b': bool)
    requires Consistent(points, n, b) && Consistent(points, n', b')
    ensures n == n' && b == b'
  {
  }

  class Weave {
    var points: seq<Point>
    var intersections: nat
    var isSolved: bool
    var draggingPointId: Option<int>

    /** The points keep their ids; the count and the solved flag are the
        effect's results for the current points. */
    predicate Valid()
      reads this
    {
      Consistent(points, intersections, isSolved)
    }

    /** The first layout with a zero count, then the effect that runs on
        mounting: three crossings, unsolved. */
    constructor ()
      ensures Valid() && points == InitialPoints && intersections == 3 && !isSolved && draggingPointId == None
    {
      points := InitialPoints;
      intersections, isSolved := 0, false;
      draggingPointId := None;
      new;
      PointsChanged();
      InitialConsistent();
      ConsistentUnique(points, intersections, isSolved, 3, false);
    }

    /** The count effect: every pair of lines once, counting crossings. */
    method CountIntersections() returns (intersectionCount: nat)
      requires WellFormed(points)
      ensures intersectionCount == Count(Lines(points), 3)
    {
      var lines := Lines(points);
      intersectionCount := 0;
      var i := 0;
      while i < |lines|
        invariant 0 <= i <= |lines|
        invariant intersectionCount == Count(lines, i)
      {
        var j := i + 1;
        var before := intersectionCount;
        while j < |lines|
          invariant i + 1 <= j <= |lines|
          invariant intersectionCount == before + CountRow(lines, i, j)
        {
          if CheckIntersection(lines[i], lines[j]) {
            intersectionCount := intersectionCount + 1;
          }
          j := j + 1;
        }
        i := i + 1;
      }
    }

    /** The effect run after the points change. */
    method PointsChanged()
      requires WellFormed(points)
      modifies this
      ensures Valid()
      ensures points == old(points) && draggingPointId == old(draggingPointId)
    {
      var intersectionCount := CountIntersections();
      intersections := intersectionCount;
      isSolved := intersectionCount == 0;
    }

    /** handleMouseDown: grab a point unless solved. */
    method MouseDown(id: int)
      modifies this
      ensures draggingPointId == if old(isSolved) then old(draggingPointId) else Some(id)
      ensures points == old(points) && intersections == old(intersections) && isSolved == old(isSolved)
    {
      if isSolved {
        return;
      }
      draggingPointId := Some(id);
    }

    /** handleMouseMove at (x, y): only the grabbed point moves, then the
        count is redone; nothing happens with no point grabbed or once solved. */
    method MouseMove(x: real, y: real)
      requires Valid()
      modifies this
      ensures Valid()
      ensures old(draggingPointId).None? || old(isSolved) ==>
                points == old(points) && intersections == old(intersections) && isSolved == old(isSolved)
      ensures old(draggingPointId).Some? && !old(isSolved) ==>
                points == MovePoint(old(points), old(draggingPointId).value, x, y)
      ensures draggingPointId == old(draggingPointId)
    {
      if draggingPointId.None? || isSolved {
        return;
      }
      points := MovePoint(points, draggingPointId.value, x, y);
      PointsChanged();
    }

    /** handleMouseUp (also on leaving the board). */
    method MouseUp()
      modifies this
      ensures draggingPointId == None
      ensures points == old(points) && intersections == old(intersections) && isSolved == old(isSolved)
    {
      draggingPointId := None;
    }

    /** resetGame: the first layout again, unsolved with three crossings. */
    method Reset()
      modifies this
      ensures Valid() && points == InitialPoints && intersections == 3 && !isSolved
      ensures draggingPointId == old(draggingPointId)
    {
      points := InitialPoints;
      isSolved := false;
      PointsChanged();
      InitialConsistent();
      ConsistentUnique(points, intersections, isSolved, 3, false);
    }
  }

  /** Solved means that no two of the segments cross. */
  lemma SolvedMeansUntangled(w: Weave)
    requires w.Valid()
    ensures w.isSolved <==> forall i, j :: 0 <= i < j < 3 ==> !CheckIntersection(Lines(w.points)[i], Lines(w.points)[j])
  {
    CountZero(Lines(w.points), 3);
  }
}
