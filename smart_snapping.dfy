/** Object snapping: a list of tracked objects, a cache of their snap points
    keyed by object id, the search for the nearest snap point within the
    snap strength, and the two sorted configuration lists (custom angles and
    measurement distances).

    Coordinates that may be `undefined` or `NaN` are `Num`; a snap point with
    a missing coordinate has a `NaN` distance and never attracts a point. */
module SmartSnapping {
  import opened Common

  datatype SnapType = Corner | EdgeCenter | Center | Edge | Endpoint | Midpoint

  datatype SnapPoint = SnapPoint(x: Num, y: Num, kind: SnapType)

  /** The `type` field of a tracked object: only three of them have snap points. */
  datatype ObjectKind = RectObject | CircleObject | LineObject | OtherObject(name: string)

  /** A tracked canvas object; `points` is a line's flat coordinate list. */
  datatype Tracked = Tracked(id: string, kind: ObjectKind, x: Num, y: Num, width: Num,
                             height: Num, radius: Num, points: seq<real>)

  datatype Point = Point(x: real, y: real)

  /** `points[i]`: `undefined` outside the list. */
  function Coord(ps: seq<real>, i: int): (r: Num)
    ensures r.Some? <==> 0 <= i < |ps|
  {
    if 0 <= i < |ps| then Some(ps[i]) else None
  }

  function Negate(a: Num): Num { if a.Some? then Some(-a.value) else None }

  /** The snap points of an object: a rectangle's four corners, four edge
      centres and centre; a circle's centre and the four ends of its axes; a
      line's two endpoints and their midpoint; nothing for any other type. */
  function SnapPoints(o: Tracked): (r: seq<SnapPoint>)
    ensures o.kind.RectObject? ==> (|r| == 9 && (forall i | 0 <= i < 4 :: r[i].kind == Corner)
      && (forall i | 4 <= i < 8 :: r[i].kind == EdgeCenter) && r[8].kind == Center)
    ensures o.kind.CircleObject? ==> |r| == 5 && r[0].kind == Center && forall i | 1 <= i < 5 :: r[i].kind == Edge
    ensures o.kind.LineObject? ==> |r| == 3 && r[0].kind == Endpoint && r[1].kind == Endpoint && r[2].kind == Midpoint
    ensures o.kind.OtherObject? ==> r == []
  {
    match o.kind
    case RectObject =>
      var right := Plus(o.x, o.width);
      var bottom := Plus(o.y, o.height);
      var midX := Plus(o.x, Half(o.width));
      var midY := Plus(o.y, Half(o.height));
      [SnapPoint(o.x, o.y, Corner), SnapPoint(right, o.y, Corner),
       SnapPoint(o.x, bottom, Corner), SnapPoint(right, bottom, Corner),
       SnapPoint(midX, o.y, EdgeCenter), SnapPoint(midX, bottom, EdgeCenter),
       SnapPoint(o.x, midY, EdgeCenter), SnapPoint(right, midY, EdgeCenter),
       SnapPoint(midX, midY, Center)]
    case CircleObject =>
      [SnapPoint(o.x, o.y, Center),
       SnapPoint(Plus(o.x, o.radius), o.y, Edge), SnapPoint(Plus(o.x, Negate(o.radius)), o.y, Edge),
       SnapPoint(o.x, Plus(o.y, o.radius), Edge), SnapPoint(o.x, Plus(o.y, Negate(o.radius)), Edge)]
    case LineObject =>
      var n := |o.points|;
      var x0 := Coord(o.points, 0);
      var y0 := Coord(o.points, 1);
      var x1 := Coord(o.points, n - 2);
      var y1 := Coord(o.points, n - 1);
      [SnapPoint(x0, y0, Endpoint), SnapPoint(x1, y1, Endpoint),
       SnapPoint(Half(Plus(x0, x1)), Half(Plus(y0, y1)), Midpoint)]
    case OtherObject(_) => []
  }

  /** Every snap point of a rectangle with a non-negative size lies on its
      closed box, and its centre point is the middle of the box. */
  lemma RectSnapPointsOnBox(o: Tracked, x: real, y: real, w: real, h: real)
    requires o.kind.RectObject?
    requires o.x == Some(x) && o.y == Some(y) && o.width == Some(w) && o.height == Some(h)
    requires w >= 0.0 && h >= 0.0
    ensures forall q | q in SnapPoints(o) ::
      q.x.Some? && q.y.Some? && x <= q.x.value <= x + w && y <= q.y.value <= y + h
    ensures SnapPoints(o)[8] == SnapPoint(Some(x + w / 2.0), Some(y + h / 2.0), Center)
  {
    var r := SnapPoints(o);
    var xs := [Some(x), Some(x + w), Some(x), Some(x + w), Some(x + w / 2.0), Some(x + w / 2.0),
               Some(x), Some(x + w), Some(x + w / 2.0)];
    var ys := [Some(y), Some(y), Some(y + h), Some(y + h), Some(y), Some(y + h),
               Some(y + h / 2.0), Some(y + h / 2.0), Some(y + h / 2.0)];
    assert forall i | 0 <= i < 9 :: r[i].x == xs[i] && r[i].y == ys[i];
    forall q | q in r ensures q.x.Some? && q.y.Some? && x <= q.x.value <= x + w && y <= q.y.value <= y + h {
      var i :| 0 <= i < |r| && r[i] == q;
    }
  }

  /** A circle's edge points lie exactly one radius from its centre. */
  lemma CircleEdgesOnCircle(o: Tracked, x: real, y: real, rad: real)
    requires o.kind.CircleObject?
    requires o.x == Some(x) && o.y == Some(y) && o.radius == Some(rad)
    ensures SnapPoints(o)[0] == SnapPoint(Some(x), Some(y), Center)
    ensures forall i | 1 <= i < 5 :: var q := SnapPoints(o)[i];
      q.x.Some? && q.y.Some? &&
      (q.x.value - x) * (q.x.value - x) + (q.y.value - y) * (q.y.value - y) == rad * rad
  {
  }

  /** A line's endpoints are its first and last coordinate pairs and the
      midpoint is halfway between them; a line with fewer than two
      coordinates has no usable snap point at all. */
  lemma LineSnapPointsLaws(o: Tracked)
    requires o.kind.LineObject?
    ensures var ps := o.points; var n := |ps|; var r := SnapPoints(o);
      (n >= 2 ==>
        r[0] == SnapPoint(Some(ps[0]), Some(ps[1]), Endpoint) &&
        r[1] == SnapPoint(Some(ps[n - 2]), Some(ps[n - 1]), Endpoint) &&
        r[2] == SnapPoint(Some((ps[0] + ps[n - 2]) / 2.0), Some((ps[1] + ps[n - 1]) / 2.0), Midpoint)) &&
      (n < 2 ==> forall q | q in r :: q.x.None? || q.y.None?)
  {
  }

  // ---------------------------------------------------------------- nearest

  function DistSq(q: SnapPoint, p: Point): real
    requires q.x.Some? && q.y.Some?
  {
    (q.x.value - p.x) * (q.x.value - p.x) + (q.y.value - p.y) * (q.y.value - p.y)
  }

  /** The snap point's distance is a number and its square is below `bound`. */
  predicate Hits(q: SnapPoint, p: Point, bound: real)
  {
    q.x.Some? && q.y.Some? && DistSq(q, p) < bound
  }

  /** The snap point's distance is a number and its square is at most `bound`. */
  predicate Reaches(q: SnapPoint, p: Point, bound: real)
  {
    q.x.Some? && q.y.Some? && DistSq(q, p) <= bound
  }

  /** The state of the search: the index of the closest candidate so far and
      the square of `minDistance`. */
  datatype Search = Search(index: Option<nat>, minSq: real)

  /** The search loop of `snapToObjectPoints` over a flat list of candidates:
      a candidate replaces the current one only when it is strictly closer,
      starting from the snap strength. Distances are compared squared, which
      `SquaredComparison` shows to be the same test. */
  function Scan(cands: seq<SnapPoint>, p: Point, strength: real): Search
  {
    if cands == [] then Search(None, strength * strength)
    else
      var st := Scan(cands[..|cands| - 1], p, strength);
      var c := cands[|cands| - 1];
      if strength > 0.0 && Hits(c, p, st.minSq) then Search(Some(|cands| - 1), DistSq(c, p)) else st
  }

  /** Comparing non-negative distances is comparing their squares. */
  lemma SquaredComparison(d: real, m: real)
    requires d >= 0.0 && m >= 0.0
    ensures d < m <==> d * d < m * m
  {
    BelowSquared(d, m);
  }

  /** The search finds the first of the candidates strictly inside the snap
      strength that are closest to the point: every earlier candidate is
      strictly farther, no later one is closer; and it finds nothing exactly
      when no candidate lies strictly inside the snap strength. */
  lemma {:induction false} ScanLaws(cands: seq<SnapPoint>, p: Point, strength: real)
    ensures var st := Scan(cands, p, strength);
      (st.index.None? ==> (st.minSq == strength * strength &&
        (strength <= 0.0 || forall k | 0 <= k < |cands| :: !Hits(cands[k], p, strength * strength)))) &&
      (st.index.Some? ==> (
        var i := st.index.value;
        strength > 0.0 && i < |cands| && Hits(cands[i], p, strength * strength) &&
        st.minSq == DistSq(cands[i], p) &&
        (forall k | 0 <= k < i :: !Reaches(cands[k], p, st.minSq)) &&
        (forall k | i < k < |cands| :: !Hits(cands[k], p, st.minSq))))
  {
    if cands != [] {
      var s := cands[..|cands| - 1];
      ScanLaws(s, p, strength);
      var st := Scan(s, p, strength);
      var c := cands[|cands| - 1];
      assert forall k | 0 <= k < |s| :: cands[k] == s[k];
      if strength > 0.0 && Hits(c, p, st.minSq) {
        var d := DistSq(c, p);
        forall k | 0 <= k < |s| ensures !Reaches(cands[k], p, d) {
          if st.index.Some? {
            var i := st.index.value;
            if k < i {
              assert !Reaches(s[k], p, st.minSq);
            } else if k > i {
              assert !Hits(s[k], p, st.minSq);
            }
          } else {
            assert !Hits(s[k], p, strength * strength);
          }
        }
      }
    }
  }

  /** What `snapToObjectPoints` returns for a list of candidates: the chosen
      snap point, or `None` when the point itself comes back. */
  function Nearest(cands: seq<SnapPoint>, p: Point, strength: real): (r: Option<SnapPoint>)
    ensures r.Some? <==> strength > 0.0 && exists k | 0 <= k < |cands| :: Hits(cands[k], p, strength * strength)
    ensures r.Some? ==> r.value in cands && Hits(r.value, p, strength * strength)
    ensures r.Some? ==> forall q | q in cands && q.x.Some? && q.y.Some? :: DistSq(r.value, p) <= DistSq(q, p)
  {
    ScanLaws(cands, p, strength);
    var st := Scan(cands, p, strength);
    if st.index.Some? then
      var i := st.index.value;
      assert forall q | q in cands && q.x.Some? && q.y.Some? :: DistSq(cands[i], p) <= DistSq(q, p) by {
        forall q | q in cands && q.x.Some? && q.y.Some? ensures DistSq(cands[i], p) <= DistSq(q, p) {
          var k :| 0 <= k < |cands| && cands[k] == q;
          if k < i {
            assert !Reaches(cands[k], p, st.minSq);
          } else if k > i {
            assert !Hits(cands[k], p, st.minSq);
          }
        }
      }
      Some(cands[i])
    else None
  }

  /** The snap points of every tracked object except the excluded one, in
      tracking order. */
  function Candidates(objs: seq<Tracked>, excludeId: Option<string>): (r: seq<SnapPoint>)
    ensures forall q | q in r :: exists o | o in objs :: Some(o.id) != excludeId && q in SnapPoints(o)
  {
    if objs == [] then []
    else
      var o := objs[|objs| - 1];
      var rest := Candidates(objs[..|objs| - 1], excludeId);
      rest + (if Some(o.id) == excludeId then [] else SnapPoints(o))
  }

  /** The ids whose snap points a scan over `objs` asks for, one step per
      object in tracking order. */
  function ScannedIds(objs: seq<Tracked>, excludeId: Option<string>): set<string>
  {
    if objs == [] then {}
    else
      var o := objs[|objs| - 1];
      ScannedIds(objs[..|objs| - 1], excludeId) + (if Some(o.id) == excludeId then {} else {o.id})
  }

  /** Those ids are the ids of the objects not excluded. */
  lemma {:induction false} ScannedIdsAre(objs: seq<Tracked>, excludeId: Option<string>)
    ensures ScannedIds(objs, excludeId) == set o | o in objs && Some(o.id) != excludeId :: o.id
  {
    if objs != [] {
      var rest := objs[..|objs| - 1];
      assert objs == rest + [objs[|objs| - 1]];
      ScannedIdsAre(rest, excludeId);
    }
  }

  predicate UniqueIds(objs: seq<Tracked>)
  {
    forall i, j :: 0 <= i < j < |objs| ==> objs[i].id != objs[j].id
  }

  function Ids(objs: seq<Tracked>): set<string>
  {
    set o | o in objs :: o.id
  }

  // ------------------------------------------------------- configuration lists

  /** `if (!s.includes(v)) { s.push(v); s.sort((a, b) => a - b) }` */
  function Added(s: seq<real>, v: real): (r: seq<real>)
    ensures v in r
    ensures forall x :: x in r <==> x in s || x == v
    ensures |r| == if v in s then |s| else |s| + 1
    ensures SortedAsc(s) ==> SortedAsc(r)
    ensures NoDup(s) ==> NoDup(r)
  {
    if v in s then s
    else
      var r := SortAsc(s + [v]);
      assert forall x :: x in r <==> x in multiset(s + [v]);
      AppendSortedNoDup(s, v, r);
      r
  }

  lemma AppendSortedNoDup(s: seq<real>, v: real, r: seq<real>)
    requires v !in s && multiset(r) == multiset(s + [v])
    ensures NoDup(s) ==> NoDup(r)
  {
    if NoDup(s) {
      assert NoDup(s + [v]);
      NoDupPermutation(s + [v], r);
    }
  }

  /** `const k = s.indexOf(v); if (k > -1) s.splice(k, 1)` on a configuration list. */
  function Removed(s: seq<real>, v: real): (r: seq<real>)
    ensures v !in s ==> r == s
    ensures NoDup(s) ==> v !in r && forall x :: x in r <==> x in s && x != v
    ensures SortedAsc(s) ==> SortedAsc(r)
  {
    RemoveFirstSortedAsc(s, v);
    RemoveFirst(s, v)
  }

  /** Strictly increasing: sorted and without repeats. */
  predicate Increasing(s: seq<real>)
  {
    SortedAsc(s) && NoDup(s)
  }

  /** Two strictly increasing lists with the same elements are the same list. */
  lemma {:induction false} IncreasingUnique(a: seq<real>, b: seq<real>)
    requires Increasing(a) && Increasing(b)
    requires forall x :: x in a <==> x in b
    ensures a == b
  {
    assert a != [] ==> b != [] by { if a != [] { assert a[0] in a; } }
    assert b != [] ==> a != [] by { if b != [] { assert b[0] in b; } }
    if a != [] {
      assert a[0] in b && b[0] in a;
      assert a[0] == b[0] by {
        var i :| 0 <= i < |b| && b[i] == a[0];
        var j :| 0 <= j < |a| && a[j] == b[0];
        assert b[0] <= b[i] && a[0] <= a[j];
      }
      var a', b' := a[1..], b[1..];
      assert Increasing(a') && Increasing(b');
      forall x ensures x in a' <==> x in b' {
        if x in a' {
          var k :| 0 <= k < |a'| && a'[k] == x;
          assert a[k + 1] == x && a[0] != x;
          assert x in b;
          var m :| 0 <= m < |b| && b[m] == x;
          assert m != 0;
          assert b'[m - 1] == x;
        }
        if x in b' {
          var k :| 0 <= k < |b'| && b'[k] == x;
          assert b[k + 1] == x && b[0] != x;
          assert x in a;
          var m :| 0 <= m < |a| && a[m] == x;
          assert m != 0;
          assert a'[m - 1] == x;
        }
      }
      IncreasingUnique(a', b');
      assert a == [a[0]] + a' && b == [b[0]] + b';
    }
  }

  /** Adding a value and removing it again restores an increasing list, and
      adding a value already present changes nothing. */
  lemma AddThenRemove(s: seq<real>, v: real)
    requires Increasing(s)
    ensures Removed(Added(s, v), v) == (if v in s then Removed(s, v) else s)
    ensures Added(Added(s, v), v) == Added(s, v)
  {
    if v !in s {
      var r := Removed(Added(s, v), v);
      IncreasingUnique(r, s);
    }
  }

  const InitialDistances: seq<real> := [0.5, 1.0, 2.0, 5.0, 10.0]
  const SnapStrength: real := 15.0

  /** The object snapper: its tracked objects, the snap-point cache and the
      configuration lists, as `useSmartSnapping` keeps them. */
  class Snapper {
    var snapEnabled: bool
    var snapToObjects: bool
    var snapStrength: real
    var tracked: seq<Tracked>
    var cache: map<string, seq<SnapPoint>>
    var customAngles: seq<real>
    var distances: seq<real>

    /** Tracked ids are unique, the cache holds only tracked ids and every
        cached entry is the snap points of the object it belongs to; both
        configuration lists are strictly increasing. */
    predicate Valid()
      reads this
    {
      UniqueIds(tracked) && cache.Keys <= Ids(tracked) &&
      (forall o | o in tracked && o.id in cache :: cache[o.id] == SnapPoints(o)) &&
      Increasing(customAngles) && Increasing(distances)
    }

    constructor()
      ensures Valid()
      ensures snapEnabled && snapToObjects && snapStrength == SnapStrength
      ensures tracked == [] && cache == map[]
      ensures customAngles == [] && distances == InitialDistances
    {
      snapEnabled := true;
      snapToObjects := true;
      snapStrength := SnapStrength;
      tracked := [];
      cache := map[];
      customAngles := [];
      distances := InitialDistances;
    }

    /** `trackObject`: appends the object unless one with its id is tracked. */
    method TrackObject(o: Tracked)
      modifies this
      ensures tracked == if o.id in Ids(old(tracked)) then old(tracked) else old(tracked) + [o]
      ensures cache == old(cache) && customAngles == old(customAngles) && distances == old(distances)
      ensures snapEnabled == old(snapEnabled) && snapToObjects == old(snapToObjects)
      ensures snapStrength == old(snapStrength)
      ensures old(Valid()) ==> Valid()
    {
      if o.id !in Ids(tracked) {
        ghost var ids := Ids(tracked);
        tracked := tracked + [o];
        assert Ids(tracked) == ids + {o.id};
      }
    }

    /** `untrackObject`: drops every object with the id and its cache entry. */
    method UntrackObject(id: string)
      modifies this
      ensures tracked == Filter(old(tracked), (t: Tracked) => t.id != id)
      ensures cache == old(cache) - {id}
      ensures id !in Ids(tracked)
      ensures customAngles == old(customAngles) && distances == old(distances)
      ensures snapEnabled == old(snapEnabled) && snapToObjects == old(snapToObjects)
      ensures snapStrength == old(snapStrength)
      ensures old(Valid()) ==> Valid()
    {
      ghost var prev := tracked;
      ghost var wasValid := Valid();
      var keep := (t: Tracked) => t.id != id;
      tracked := Filter(tracked, keep);
      cache := cache - {id};
      FilterMembers(prev, keep);
      if wasValid {
        FilterKeepsUnique(prev, keep);
        assert forall k | k in cache :: k in Ids(prev) && k != id;
        forall k | k in cache ensures k in Ids(tracked) {
          var o :| o in prev && o.id == k;
          assert o in tracked;
        }
      }
    }

    /** `updateTrackedObject`: replaces the first object with the same id and
        drops its cache entry; an untracked object changes nothing. */
    method UpdateTrackedObject(o: Tracked)
      modifies this
      ensures var k := FirstIndex(old(tracked), (t: Tracked) => t.id == o.id);
        if k < |old(tracked)| then tracked == old(tracked)[k := o] && cache == old(cache) - {o.id}
        else tracked == old(tracked) && cache == old(cache)
      ensures customAngles == old(customAngles) && distances == old(distances)
      ensures snapEnabled == old(snapEnabled) && snapToObjects == old(snapToObjects)
      ensures snapStrength == old(snapStrength)
      ensures old(Valid()) ==> Valid()
    {
      ghost var wasValid := Valid();
      var k := FirstIndex(tracked, (t: Tracked) => t.id == o.id);
      if k < |tracked| {
        ghost var prev := tracked;
        tracked := tracked[k := o];
        cache := cache - {o.id};
        if wasValid {
          ReplaceKeepsIds(prev, k, o);
          forall t | t in tracked && t.id in cache ensures cache[t.id] == SnapPoints(t) {
            var i :| 0 <= i < |tracked| && tracked[i] == t;
            assert i != k;
          }
        }
      }
    }

    /** `getObjectSnapPoints`: the cached snap points of the object's id, or
        its computed ones, which are then cached. For a tracked object of a
        valid snapper the answer is always its own snap points. */
    method GetObjectSnapPoints(o: Tracked) returns (r: seq<SnapPoint>)
      modifies this
      ensures r == if o.id in old(cache) then old(cache)[o.id] else SnapPoints(o)
      ensures cache == old(cache)[o.id := r]
      ensures cache.Keys == old(cache).Keys + {o.id}
      ensures tracked == old(tracked) && customAngles == old(customAngles) && distances == old(distances)
      ensures snapEnabled == old(snapEnabled) && snapToObjects == old(snapToObjects)
      ensures snapStrength == old(snapStrength)
      ensures old(Valid()) && o in tracked ==> r == SnapPoints(o) && Valid()
    {
      if o.id in cache {
        r := cache[o.id];
      } else {
        r := SnapPoints(o);
        cache := cache[o.id := r];
      }
    }

    /** `snapToObjectPoints`: the nearest snap point of the tracked objects
        other than `excludeId` strictly within the snap strength, the first
        one on a tie; `None` when the point itself comes back, which it always
        does while object snapping or snapping as a whole is switched off. */
    method SnapToObjectPoints(p: Point, excludeId: Option<string>) returns (r: Option<SnapPoint>)
      requires Valid()
      modifies this
      ensures r == if snapToObjects && snapEnabled then Nearest(Candidates(tracked, excludeId), p, snapStrength) else None
      ensures Valid()
      ensures tracked == old(tracked) && customAngles == old(customAngles) && distances == old(distances)
      ensures snapEnabled == old(snapEnabled) && snapToObjects == old(snapToObjects)
      ensures snapStrength == old(snapStrength)
      ensures snapToObjects && snapEnabled ==>
                cache.Keys == old(cache).Keys + set o | o in tracked && Some(o.id) != excludeId :: o.id
      ensures !(snapToObjects && snapEnabled) ==> cache == old(cache)
    {
      if !snapToObjects || !snapEnabled {
        return None;
      }
      var best: Option<SnapPoint> := None;
      var minSq := snapStrength * snapStrength;
      ghost var seen: seq<SnapPoint> := [];
      var i := 0;
      while i < |tracked|
        invariant 0 <= i <= |tracked|
        invariant Valid()
        invariant tracked == old(tracked) && customAngles == old(customAngles) && distances == old(distances)
        invariant snapEnabled == old(snapEnabled) && snapToObjects == old(snapToObjects)
        invariant snapStrength == old(snapStrength)
        invariant seen == Candidates(tracked[..i], excludeId)
        invariant minSq == Scan(seen, p, snapStrength).minSq
        invariant best == Found(seen, p, snapStrength)
        invariant cache.Keys == old(cache).Keys + ScannedIds(tracked[..i], excludeId)
      {
        var o := tracked[i];
        assert tracked[..i + 1][..i] == tracked[..i];
        if Some(o.id) != excludeId {
          var pts := GetObjectSnapPoints(o);
          best, minSq := ScanPoints(pts, p, snapStrength, best, minSq, seen);
          seen := seen + pts;
        }
        i := i + 1;
      }
      assert tracked[..i] == tracked;
      NearestIsFound(seen, p, snapStrength);
      ScannedIdsAre(tracked, excludeId);
      r := best;
    }

    /** `addCustomAngle`: adds the value unless present and keeps the list sorted. */
    method AddCustomAngle(angle: real)
      modifies this
      ensures customAngles == Added(old(customAngles), angle)
      ensures tracked == old(tracked) && cache == old(cache) && distances == old(distances)
      ensures snapEnabled == old(snapEnabled) && snapToObjects == old(snapToObjects)
      ensures snapStrength == old(snapStrength)
      ensures old(Valid()) ==> Valid()
    {
      customAngles := Added(customAngles, angle);
    }

    /** `removeCustomAngle`: drops the first occurrence of the value, if any. */
    method RemoveCustomAngle(angle: real)
      modifies this
      ensures customAngles == Removed(old(customAngles), angle)
      ensures tracked == old(tracked) && cache == old(cache) && distances == old(distances)
      ensures snapEnabled == old(snapEnabled) && snapToObjects == old(snapToObjects)
      ensures snapStrength == old(snapStrength)
      ensures old(Valid()) ==> Valid()
    {
      customAngles := Removed(customAngles, angle);
    }

    /** `addCustomMeasurement`: adds the value unless present and keeps the list sorted. */
    method AddCustomMeasurement(distance: real)
      modifies this
      ensures distances == Added(old(distances), distance)
      ensures tracked == old(tracked) && cache == old(cache) && customAngles == old(customAngles)
      ensures snapEnabled == old(snapEnabled) && snapToObjects == old(snapToObjects)
      ensures snapStrength == old(snapStrength)
      ensures old(Valid()) ==> Valid()
    {
      distances := Added(distances, distance);
    }

    /** `removeCustomMeasurement`: drops the first occurrence of the value, if any. */
    method RemoveCustomMeasurement(distance: real)
      modifies this
      ensures distances == Removed(old(distances), distance)
      ensures tracked == old(tracked) && cache == old(cache) && customAngles == old(customAngles)
      ensures snapEnabled == old(snapEnabled) && snapToObjects == old(snapToObjects)
      ensures snapStrength == old(snapStrength)
      ensures old(Valid()) ==> Valid()
    {
      distances := Removed(distances, distance);
    }
  }

  /** The inner loop of `snapToObjectPoints`: continues the search held in
      `best` and `minSq` over the snap points of one object. */
  method ScanPoints(pts: seq<SnapPoint>, p: Point, strength: real, best0: Option<SnapPoint>,
                    minSq0: real, ghost seen: seq<SnapPoint>)
    returns (best: Option<SnapPoint>, minSq: real)
    requires minSq0 == Scan(seen, p, strength).minSq && best0 == Found(seen, p, strength)
    ensures minSq == Scan(seen + pts, p, strength).minSq && best == Found(seen + pts, p, strength)
  {
    best, minSq := best0, minSq0;
    var j := 0;
    assert seen + pts[..0] == seen;
    while j < |pts|
      invariant 0 <= j <= |pts|
      invariant minSq == Scan(seen + pts[..j], p, strength).minSq
      invariant best == Found(seen + pts[..j], p, strength)
    {
      var q := pts[j];
      ghost var before := seen + pts[..j];
      assert (seen + pts[..j + 1])[..|before|] == before;
      assert (seen + pts[..j + 1])[|before|] == q;
      if strength > 0.0 && q.x.Some? && q.y.Some? && DistSq(q, p) < minSq {
        minSq := DistSq(q, p);
        best := Some(q);
      } else {
        FoundAfterMiss(before, q, p, strength);
      }
      j := j + 1;
    }
    assert pts[..|pts|] == pts;
  }

  /** The candidate the search holds, as a snap point. */
  function Found(cands: seq<SnapPoint>, p: Point, strength: real): Option<SnapPoint>
  {
    var st := Scan(cands, p, strength);
    if st.index.Some? && st.index.value < |cands| then Some(cands[st.index.value]) else None
  }

  /** A candidate that loses leaves the held snap point as it was. */
  lemma FoundAfterMiss(s: seq<SnapPoint>, q: SnapPoint, p: Point, strength: real)
    requires !(strength > 0.0 && Hits(q, p, Scan(s, p, strength).minSq))
    ensures Found(s + [q], p, strength) == Found(s, p, strength)
  {
    assert (s + [q])[..|s|] == s;
    ScanLaws(s, p, strength);
  }

  lemma NearestIsFound(cands: seq<SnapPoint>, p: Point, strength: real)
    ensures Nearest(cands, p, strength) == Found(cands, p, strength)
  {
    ScanLaws(cands, p, strength);
  }

  /** Replacing an object by one with the same id keeps the ids as they are. */
  lemma ReplaceKeepsIds(s: seq<Tracked>, k: nat, o: Tracked)
    requires k < |s| && s[k].id == o.id
    ensures Ids(s[k := o]) == Ids(s)
    ensures UniqueIds(s) ==> UniqueIds(s[k := o])
  {
    var r := s[k := o];
    assert forall i | 0 <= i < |s| :: r[i].id == s[i].id;
    forall x | x in Ids(s) ensures x in Ids(r) {
      var t :| t in s && t.id == x;
      var i :| 0 <= i < |s| && s[i] == t;
      assert r[i].id == x;
    }
    forall x | x in Ids(r) ensures x in Ids(s) {
      var t :| t in r && t.id == x;
      var i :| 0 <= i < |r| && r[i] == t;
      assert s[i].id == x;
    }
  }

  /** `Filter` keeps the ids of a list with unique ids unique. */
  lemma {:induction false} FilterKeepsUnique(s: seq<Tracked>, f: Tracked -> bool)
    requires UniqueIds(s)
    ensures UniqueIds(Filter(s, f))
  {
    if s != [] {
      var p := s[..|s| - 1];
      var x := s[|s| - 1];
      assert s == p + [x];
      assert UniqueIds(p);
      FilterKeepsUnique(p, f);
      FilterSnoc(p, x, f);
      FilterMembers(p, f);
      var r := Filter(s, f);
      if f(x) {
        forall i, j | 0 <= i < j < |r| ensures r[i].id != r[j].id {
          if j == |r| - 1 {
            assert r[i] in Filter(p, f);
            assert r[i] in p;
            var k :| 0 <= k < |p| && p[k] == r[i];
            assert s[k] == r[i];
          } else {
            assert r[i] == Filter(p, f)[i] && r[j] == Filter(p, f)[j];
          }
        }
      }
    }
  }
}
