/**
 * The orbit trail drawn behind each star: a bounded history of points kept
 * twice, as a list and as a flat coordinate buffer of three entries per point
 * that the renderer draws from. Coordinates are exact reals here; the
 * buffer's single-precision rounding is not modelled.
 */
module Trail {
  import Modes

  /** A point or vector in scene units. */
  datatype Vec3 = Vec3(x: real, y: real, z: real)

  const Origin: Vec3 := Vec3(0.0, 0.0, 0.0)

  /** Capacity of a trail unless its creator says otherwise. */
  const DefaultMaxPoints: nat := 2500

  /** A new point closer than this to the last stored one is dropped. */
  const MinDistance: real := 0.1

  function DistSq(a: Vec3, b: Vec3): real {
    (a.x - b.x) * (a.x - b.x) + (a.y - b.y) * (a.y - b.y) + (a.z - b.z) * (a.z - b.z)
  }

  /** `a.distanceTo(b) < MinDistance`, compared on squares: both sides are non-negative. */
  predicate TooClose(a: Vec3, b: Vec3) {
    DistSq(a, b) < MinDistance * MinDistance
  }

  /** addPoint ignores p: the galaxy keeps no trails, and p is too near the last point. */
  predicate Rejects(trail: seq<Vec3>, p: Vec3, currentMode: string)
    requires 1 <= |trail|
  {
    currentMode == Modes.GalaxyName || TooClose(p, trail[|trail| - 1])
  }

  /** The last n elements of s, or all of s when it is shorter. */
  function LastN<T>(s: seq<T>, n: nat): (r: seq<T>)
    ensures |r| == if |s| <= n then |s| else n
    ensures forall i :: 0 <= i < |r| ==> r[i] == s[|s| - |r| + i]
  {
    if |s| <= n then s else s[|s| - n..]
  }

  /**
   * The point list after `addPoint(p)`. An accepted point is appended and,
   * once the trail holds maxPoints points, the oldest one is dropped: the
   * trail is the window of the last maxPoints points.
   */
  function NextTrail(trail: seq<Vec3>, p: Vec3, currentMode: string, maxPoints: nat): (r: seq<Vec3>)
    requires 1 <= |trail|
    ensures 1 <= |r|
    ensures Rejects(trail, p, currentMode) ==> r == trail
    ensures !Rejects(trail, p, currentMode) ==> r[|r| - 1] == p
    ensures |trail| <= maxPoints ==> |r| <= maxPoints
    ensures !Rejects(trail, p, currentMode) && |trail| < maxPoints ==> |r| == |trail| + 1 && r[..|trail|] == trail
    ensures !Rejects(trail, p, currentMode) && |trail| == maxPoints ==> |r| == maxPoints && r[..|r| - 1] == trail[1..]
  {
    if Rejects(trail, p, currentMode) then trail
    else if |trail| < maxPoints then trail + [p]
    else trail[1..] + [p]
  }

  /** An accepted point leaves the window of the last maxPoints points of trail + [p]. */
  lemma NextTrailWindow(trail: seq<Vec3>, p: Vec3, currentMode: string, maxPoints: nat)
    requires 1 <= |trail| <= maxPoints && !Rejects(trail, p, currentMode)
    ensures NextTrail(trail, p, currentMode, maxPoints) == LastN(trail + [p], maxPoints)
  {
  }

  /** The point list after offering the points of ps to addPoint, in order. */
  function Feed(trail: seq<Vec3>, ps: seq<Vec3>, currentMode: string, maxPoints: nat): (r: seq<Vec3>)
    requires 1 <= |trail|
    decreases |ps|
  {
    if ps == [] then trail
    else Feed(NextTrail(trail, ps[0], currentMode, maxPoints), ps[1..], currentMode, maxPoints)
  }

  /** From index `from` on, each point of s is at least MinDistance from its predecessor. */
  predicate Spaced(s: seq<Vec3>, from: nat) {
    forall i :: 1 <= i < |s| && from <= i ==> !TooClose(s[i], s[i - 1])
  }

  lemma LastNOfLongSuffix<T>(s: seq<T>, k: nat, n: nat)
    requires k <= |s|
    requires k == 0 || n <= |s| - k
    ensures LastN(s[k..], n) == LastN(s, n)
  {
  }

  /** Accepting p into a trail leaves a window that, followed by the rest of ps, is a suffix of trail + ps. */
  lemma WindowThenRest<T>(trail: seq<T>, ps: seq<T>, maxPoints: nat) returns (k: nat)
    requires 1 <= |trail| <= maxPoints && ps != []
    ensures k <= |trail| + 1 && (k == 0 || maxPoints <= |trail + ps| - k)
    ensures LastN(trail + [ps[0]], maxPoints) + ps[1..] == (trail + ps)[k..]
    ensures |LastN(trail + [ps[0]], maxPoints)| == |trail| + 1 - k
  {
    var all := trail + ps;
    var next := LastN(trail + [ps[0]], maxPoints);
    k := |trail| + 1 - |next|;
    assert trail + [ps[0]] == all[..|trail| + 1];
    assert next == all[k..|trail| + 1];
    assert all[k..] == all[k..|trail| + 1] + all[|trail| + 1..];
    assert all[|trail| + 1..] == ps[1..];
  }

  /** Spacing survives cutting a prefix off, with the start index shifted accordingly. */
  lemma SpacedSuffix(s: seq<Vec3>, k: nat, from: nat, later: nat)
    requires k <= |s| && Spaced(s, from) && from <= later + k
    ensures Spaced(s[k..], later)
  {
  }

  /**
   * Outside the galaxy, when every offered point keeps its distance from
   * the one before, the trail ends up holding exactly the last maxPoints
   * points of the whole history.
   */
  lemma {:induction false} FeedKeepsLastPoints(trail: seq<Vec3>, ps: seq<Vec3>, currentMode: string, maxPoints: nat)
    requires 1 <= |trail| <= maxPoints
    requires currentMode != Modes.GalaxyName
    requires Spaced(trail + ps, |trail|)
    ensures Feed(trail, ps, currentMode, maxPoints) == LastN(trail + ps, maxPoints)
    decreases |ps|
  {
    if ps == [] {
      assert trail + ps == trail;
    } else {
      var all := trail + ps;
      assert all[|trail|] == ps[0] && all[|trail| - 1] == trail[|trail| - 1];
      assert !Rejects(trail, ps[0], currentMode);
      var next := NextTrail(trail, ps[0], currentMode, maxPoints);
      NextTrailWindow(trail, ps[0], currentMode, maxPoints);
      var k := WindowThenRest(trail, ps, maxPoints);
      SpacedSuffix(all, k, |trail|, |next|);
      FeedKeepsLastPoints(next, ps[1..], currentMode, maxPoints);
      LastNOfLongSuffix(all, k, maxPoints);
    }
  }

  /** In the galaxy no trail ever changes, whatever points are offered. */
  lemma {:induction false} FeedGalaxyFrozen(trail: seq<Vec3>, ps: seq<Vec3>, maxPoints: nat)
    requires 1 <= |trail|
    ensures Feed(trail, ps, Modes.GalaxyName, maxPoints) == trail
    decreases |ps|
  {
    if ps != [] {
      FeedGalaxyFrozen(trail, ps[1..], maxPoints);
    }
  }

  /**
   * One trail: the point list, the flat coordinate buffer the renderer
   * reads (three entries per point), the index of the next free slot and
   * the count passed to the draw range.
   */
  class Line {
    const maxPoints: nat
    const positions: array<real>
    var points: seq<Vec3>
    var currentIndex: nat
    var drawCount: nat

    /** The coordinates the buffer holds for point k. */
    ghost function StoredAt(k: nat): Vec3
      reads positions
      requires 3 * k + 2 < positions.Length
    {
      Vec3(positions[3 * k], positions[3 * k + 1], positions[3 * k + 2])
    }

    /**
     * The buffer mirrors the list, the list is never empty and never
     * longer than maxPoints, and the index and draw count both equal
     * the number of points.
     */
    ghost predicate Valid()
      reads this, positions
    {
      1 <= maxPoints && positions.Length == 3 * maxPoints &&
      1 <= |points| <= maxPoints &&
      currentIndex == |points| && drawCount == currentIndex &&
      forall k :: 0 <= k < |points| ==> StoredAt(k) == points[k]
    }

    constructor (initialPosition: Vec3, maxPoints: nat := DefaultMaxPoints)
      requires 1 <= maxPoints
      ensures Valid() && fresh(positions)
      ensures this.maxPoints == maxPoints
      ensures points == [initialPosition] && currentIndex == 1 && drawCount == 1
      ensures forall j :: 3 <= j < positions.Length ==> positions[j] == 0.0
    {
      this.maxPoints := maxPoints;
      points := [initialPosition];
      var buffer := new real[3 * maxPoints](_ => 0.0);
      buffer[0], buffer[1], buffer[2] := initialPosition.x, initialPosition.y, initialPosition.z;
      positions := buffer;
      drawCount := 1;
      currentIndex := 1;
    }

    method AddPoint(point: Vec3, currentMode: string)
      requires Valid()
      modifies this, positions
      ensures Valid()
      ensures points == NextTrail(old(points), point, currentMode, maxPoints)
      ensures Rejects(old(points), point, currentMode) ==> unchanged(this) && unchanged(positions)
    {
      if currentMode == Modes.GalaxyName {
        return;
      }
      var lastPoint := points[|points| - 1];
      if TooClose(point, lastPoint) {
        return;
      }
      if |points| < maxPoints {
        Append(point);
      } else {
        ShiftIn(point);
      }
    }

    /** The filling branch of AddPoint: store point in the next free slot. */
    method Append(point: Vec3)
      requires Valid() && |points| < maxPoints
      modifies this, positions
      ensures Valid()
      ensures points == old(points) + [point]
    {
      points := points + [point];
      positions[currentIndex * 3] := point.x;
      positions[currentIndex * 3 + 1] := point.y;
      positions[currentIndex * 3 + 2] := point.z;
      currentIndex := currentIndex + 1;
      drawCount := currentIndex;
    }

    /** The full branch of AddPoint: drop the oldest point and shift the buffer left by one triple. */
    method ShiftIn(point: Vec3)
      requires Valid() && |points| == maxPoints
      modifies this, positions
      ensures Valid()
      ensures points == old(points)[1..] + [point]
    {
      ghost var before := points;
      ghost var buffer := positions[..];
      points := points[1..];
      points := points + [point];
      var i := 0;
      while i < maxPoints - 1
        modifies positions
        invariant 0 <= i <= maxPoints - 1
        invariant forall j :: 0 <= j < 3 * i ==> positions[j] == buffer[j + 3]
        invariant forall j :: 3 * i <= j < positions.Length ==> positions[j] == buffer[j]
      {
        positions[i * 3] := positions[(i + 1) * 3];
        positions[i * 3 + 1] := positions[(i + 1) * 3 + 1];
        positions[i * 3 + 2] := positions[(i + 1) * 3 + 2];
        i := i + 1;
      }
      positions[(maxPoints - 1) * 3] := point.x;
      positions[(maxPoints - 1) * 3 + 1] := point.y;
      positions[(maxPoints - 1) * 3 + 2] := point.z;
      forall k | 0 <= k < |points|
        ensures StoredAt(k) == points[k]
      {
        if k < maxPoints - 1 {
          assert old(StoredAt(k + 1)) == before[k + 1];
        }
      }
    }
  }
}
