/**
 * Distance from a point to a city boundary (the MKAD ring road around
 * Moscow, the KAD ring road around Saint Petersburg), in kilometres.
 * Geometry, the k-d tree and the Google Maps calls are parameters: a
 * polygon is known only through its inside test and the fraction of a
 * segment that lies outside it, the tree only through its query, the
 * provider only through the answers it gives.
 */
module Distance {
  import opened Wrappers
  import opened Numbers
  import opened DataClasses
  import opened Cache
  import opened GmapsCache

  /**
   * A boundary polygon. `present` is false for a missing or empty polygon,
   * which Python treats as false; `isInside` is strict (boundary points are
   * not inside); `partOutside` is the fraction of a segment outside it.
   */
  datatype Polygon = Polygon(
    present: bool,
    isInside: Coordinates -> bool,
    partOutside: (Coordinates, Coordinates) -> Num)

  /** One step of a driving route: where it starts and ends and its length in metres. */
  datatype Leg = Leg(start: Coordinates, end: Coordinates, distance: nat)

  /**
   * The two Google Maps calls the calculators make: the shortest driving
   * distance in metres from any of the origins to the destination, and the
   * steps of the driving route between two points. Their fallbacks on a
   * malformed response (0 and no steps) are among the answers they may give.
   */
  datatype DistanceApi = DistanceApi(
    distanceFromPoints: (seq<PointTuple>, PointTuple) -> int,
    drivingPath: (PointTuple, PointTuple) -> seq<Leg>)

  /** A k-d tree over the exit points: the indices of the `k` exits nearest to a point, nearest first. */
  datatype KDTree = KDTree(query: (PointTuple, nat) -> seq<nat>)

  /** How many exits the nearest-exits strategy asks the tree for. */
  const Neighbours: nat := 7

  /** The two ways of computing the raw distance in metres. */
  datatype Strategy =
    | NearestExits(api: DistanceApi, exits: seq<PointTuple>, tree: KDTree)
    | PolygonCenter(api: DistanceApi, center: Coordinates)

  /** A distance calculator: a boundary and a strategy. */
  datatype Calculator = Calculator(polygon: Polygon, strategy: Strategy)

  // ---------------------------------------------------------------------
  // The envelope: `get_distance`

  /** A point the calculator measures: there is a polygon and the point is not inside it. */
  predicate Outside(p: Polygon, c: Coordinates)
  {
    p.present && !p.isInside(c)
  }

  /**
   * Metres to kilometres: `round(raw / 1000)` for more than 1000 metres,
   * otherwise 1. The result is the nearest whole number of kilometres
   * (ties to even) and never less than 1.
   */
  function Kilometres(raw: Num): (km: int)
    ensures km >= 1
    ensures Value(raw) <= 1000.0 ==> km == 1
    ensures Value(raw) > 1000.0 ==>
      2.0 * (Value(raw) / 1000.0 - km as real) <= 1.0 && 2.0 * (km as real - Value(raw) / 1000.0) <= 1.0
    ensures Value(raw) > 1000.0 ==>
      (2.0 * (Value(raw) / 1000.0 - km as real) == 1.0 || 2.0 * (km as real - Value(raw) / 1000.0) == 1.0 ==> km % 2 == 0)
  {
    if Value(raw) > 1000.0 then RoundReal(Value(raw) / 1000.0) else 1
  }

  /** `get_distance(coordinates)`: 0 for a point not outside the polygon, else the raw distance in kilometres. */
  function Distance(calculator: Calculator, c: Coordinates): Result<int, Error>
  {
    if !Outside(calculator.polygon, c) then Success(0)
    else match RawDistance(calculator, c)
      case Failure(e) => Failure(e)
      case Success(m) => Success(Kilometres(m))
  }

  /**
   * `get_distance(coordinates)`; `calculated` tells whether
   * `calc_distance` ran. It runs exactly when the point is outside.
   */
  method GetDistance(calculator: Calculator, c: Coordinates) returns (r: Result<int, Error>, calculated: bool)
    ensures r == Distance(calculator, c)
    ensures calculated <==> Outside(calculator.polygon, c)
    ensures !Outside(calculator.polygon, c) ==> r == Success(0)
    ensures Outside(calculator.polygon, c) && r.Success? ==> r.value >= 1
  {
    if !calculator.polygon.present || calculator.polygon.isInside(c) {
      return Success(0), false;
    }
    var raw := CalcDistance(calculator, c);
    calculated := true;
    r := if raw.Success? then Success(Kilometres(raw.value)) else Failure(raw.error);
  }

  // ---------------------------------------------------------------------
  // The strategies: `calc_distance`

  /** The raw distance in metres from the point to the boundary. */
  function RawDistance(calculator: Calculator, c: Coordinates): Result<Num, Error>
  {
    match calculator.strategy
    case NearestExits(api, exits, tree) => NearestExitsDistance(api, exits, tree, c)
    case PolygonCenter(api, center) =>
      Success(PathDistance(calculator.polygon, api.drivingPath(AsTuple(center), AsTuple(c))))
  }

  /** `calc_distance(coordinates)`. */
  method CalcDistance(calculator: Calculator, c: Coordinates) returns (r: Result<Num, Error>)
    ensures r == RawDistance(calculator, c)
  {
    match calculator.strategy {
      case NearestExits(api, exits, tree) =>
        var origins := CollectOrigins(exits, tree.query(AsTuple(c), Neighbours));
        if origins.Failure? {
          return Failure(origins.error);
        }
        r := Success(AsFloat(Int(api.distanceFromPoints(origins.value, AsTuple(c)))));
      case PolygonCenter(api, center) =>
        var d := WalkPath(calculator.polygon, api.drivingPath(AsTuple(center), AsTuple(c)));
        r := Success(d);
    }
  }

  // Nearest exits

  /**
   * The exit points at the given indices, in order; indexing past the end
   * of the exit list raises `IndexError`.
   */
  function Origins(exits: seq<PointTuple>, idx: seq<nat>): (r: Result<seq<PointTuple>, Error>)
    ensures r.Failure? <==> exists i :: 0 <= i < |idx| && idx[i] >= |exits|
    ensures r.Failure? ==> r.error == IndexError
    ensures r.Success? ==> |r.value| == |idx| && forall i :: 0 <= i < |idx| ==> r.value[i] == exits[idx[i]]
  {
    if |idx| == 0 then Success([])
    else if idx[0] >= |exits| then Failure(IndexError)
    else match Origins(exits, idx[1..])
      case Failure(e) => Failure(e)
      case Success(rest) => Success([exits[idx[0]]] + rest)
  }

  /** The loop that collects `exits[index]` for every index the tree returned. */
  method CollectOrigins(exits: seq<PointTuple>, idx: seq<nat>) returns (r: Result<seq<PointTuple>, Error>)
    ensures r == Origins(exits, idx)
  {
    var nearest: seq<PointTuple> := [];
    var i := 0;
    while i < |idx|
      invariant 0 <= i <= |idx|
      invariant |nearest| == i
      invariant forall j :: 0 <= j < i ==> idx[j] < |exits| && nearest[j] == exits[idx[j]]
    {
      if idx[i] >= |exits| {
        return Failure(IndexError);
      }
      nearest := nearest + [exits[idx[i]]];
      i := i + 1;
    }
    r := Success(nearest);
    assert r.value == Origins(exits, idx).value;
  }

  /** Ask the tree for the nearest exits and the provider for the distance from them, as a float. */
  function NearestExitsDistance(api: DistanceApi, exits: seq<PointTuple>, tree: KDTree, c: Coordinates): Result<Num, Error>
  {
    match Origins(exits, tree.query(AsTuple(c), Neighbours))
    case Failure(e) => Failure(e)
    case Success(origins) => Success(AsFloat(Int(api.distanceFromPoints(origins, AsTuple(c)))))
  }

  /**
   * When the tree returns valid indices, the provider is asked for the
   * distance from exactly those exits, in query order, to the point itself,
   * and its answer is the raw distance, as a float.
   */
  lemma NearestExitsSendsOrigins(api: DistanceApi, exits: seq<PointTuple>, tree: KDTree, c: Coordinates)
    requires forall i :: 0 <= i < |tree.query(AsTuple(c), Neighbours)| ==> tree.query(AsTuple(c), Neighbours)[i] < |exits|
    ensures var idx := tree.query(AsTuple(c), Neighbours);
      var o := Origins(exits, idx);
      var r := NearestExitsDistance(api, exits, tree, c);
      o.Success? && |o.value| == |idx| && (forall i :: 0 <= i < |idx| ==> o.value[i] == exits[idx[i]])
      && r == Success(AsFloat(Int(api.distanceFromPoints(o.value, AsTuple(c)))))
      && IsFloat(r.value) && Value(r.value) == api.distanceFromPoints(o.value, AsTuple(c)) as real
  {
    var idx := tree.query(AsTuple(c), Neighbours);
    var o := Origins(exits, idx);
    assert o.Success?;
    assert Value(Int(api.distanceFromPoints(o.value, AsTuple(c)))) == api.distanceFromPoints(o.value, AsTuple(c)) as real;
  }

  // Polygon centre

  /** The total length of the legs, in metres. */
  function LegsTotal(legs: seq<Leg>): nat
  {
    if |legs| == 0 then 0 else LegsTotal(legs[..|legs| - 1]) + legs[|legs| - 1].distance
  }

  /** The index of the last leg that starts inside the polygon, if any. */
  function LastInside(p: Polygon, legs: seq<Leg>): (r: Option<nat>)
    ensures r.Some? ==> r.value < |legs| && p.isInside(legs[r.value].start)
    ensures r.Some? ==> forall k :: r.value < k < |legs| ==> !p.isInside(legs[k].start)
    ensures r.None? ==> forall k :: 0 <= k < |legs| ==> !p.isInside(legs[k].start)
  {
    if |legs| == 0 then None
    else if p.isInside(legs[|legs| - 1].start) then Some(|legs| - 1)
    else LastInside(p, legs[..|legs| - 1])
  }

  /**
   * The walk backwards from the destination: add the legs from `legs`'s
   * end to `acc`, the whole of a leg that starts outside, only the outside
   * part of the first one met that starts inside, and stop there.
   */
  function WalkBack(p: Polygon, legs: seq<Leg>, acc: Num): Num
    decreases |legs|
  {
    if |legs| == 0 then acc
    else
      var leg := legs[|legs| - 1];
      if p.isInside(leg.start) then Add(acc, OutsidePart(p, leg))
      else WalkBack(p, legs[..|legs| - 1], Add(acc, Int(leg.distance)))
  }

  /** The polygon-centre distance of a route: the walk from its end, starting from the integer 0. */
  function PathDistance(p: Polygon, legs: seq<Leg>): Num
  {
    WalkBack(p, legs, Int(0))
  }

  /** The loop of `calc_distance`: over the steps in reverse, breaking at the first start inside. */
  method WalkPath(p: Polygon, path: seq<Leg>) returns (d: Num)
    ensures d == PathDistance(p, path)
  {
    d := Int(0);
    var i := |path|;
    assert path[..i] == path;
    while i > 0
      invariant 0 <= i <= |path|
      invariant WalkBack(p, path[..i], d) == PathDistance(p, path)
    {
      var leg := path[i - 1];
      WalkBackStep(p, path, i, d);
      if p.isInside(leg.start) {
        d := Add(d, OutsidePart(p, leg));
        break;
      }
      d := Add(d, Int(leg.distance));
      i := i - 1;
    }
  }

  /** One step of the walk over the first `i` legs of a route. */
  lemma WalkBackStep(p: Polygon, path: seq<Leg>, i: nat, acc: Num)
    requires 0 < i <= |path|
    ensures var leg := path[i - 1];
      WalkBack(p, path[..i], acc)
      == if p.isInside(leg.start) then Add(acc, OutsidePart(p, leg))
         else WalkBack(p, path[..i - 1], Add(acc, Int(leg.distance)))
  {
    assert path[..i][..i - 1] == path[..i - 1];
  }

  /**
   * The reference value of a route: with no leg starting inside, the
   * total of all legs; otherwise the outside part of the last leg that
   * starts inside plus every leg after it.
   */
  function Reference(p: Polygon, legs: seq<Leg>): real
  {
    match LastInside(p, legs)
    case None => LegsTotal(legs) as real
    case Some(j) => Value(OutsidePart(p, legs[j])) + LegsTotal(legs[j + 1..]) as real
  }

  /** The fraction of a leg outside the polygon, as a number. */
  function Fraction(p: Polygon, leg: Leg): real
  {
    Value(p.partOutside(leg.start, leg.end))
  }

  /** The outside fraction of a leg that starts inside, times its length. */
  function OutsidePart(p: Polygon, leg: Leg): Num
  {
    Mul(p.partOutside(leg.start, leg.end), Int(leg.distance))
  }

  /** A fraction in [0, 1] of a leg is between nothing and the whole leg. */
  lemma OutsidePartBounds(p: Polygon, leg: Leg)
    requires 0.0 <= Fraction(p, leg) <= 1.0
    ensures 0.0 <= Value(OutsidePart(p, leg)) <= leg.distance as real
  {
    var f := p.partOutside(leg.start, leg.end);
    IntValue(leg.distance);
    ProductBound(Value(Mul(f, Int(leg.distance))), Value(f), Value(Int(leg.distance)), leg.distance as real);
  }

  /** Helper: a whole number has its own value. */
  lemma IntValue(n: int)
    ensures Value(Int(n)) == n as real
  {
    assert Pow10(0) == 1;
  }

  /** Helper: adding two whole numbers gives their sum. */
  lemma AddInts(a: int, b: int)
    ensures Add(Int(a), Int(b)) == Int(a + b)
  {
    assert Pow10(0) == 1;
  }

  /** Removing the last leg, which starts outside, takes its length off the reference value. */
  lemma {:induction false} ReferenceStep(p: Polygon, legs: seq<Leg>)
    requires |legs| > 0 && !p.isInside(legs[|legs| - 1].start)
    ensures Reference(p, legs) == Reference(p, legs[..|legs| - 1]) + legs[|legs| - 1].distance as real
  {
    var n := |legs| - 1;
    var init := legs[..n];
    assert LastInside(p, legs) == LastInside(p, init);
    match LastInside(p, init)
    case None =>
    case Some(j) =>
      var s := legs[j + 1..];
      assert s[..|s| - 1] == init[j + 1..];
      assert s[|s| - 1] == legs[n];
      assert init[j] == legs[j];
  }

  /** The walk adds the reference value of the legs to its starting value. */
  lemma {:induction false} WalkBackValue(p: Polygon, legs: seq<Leg>, acc: Num)
    ensures Value(WalkBack(p, legs, acc)) == Value(acc) + Reference(p, legs)
    decreases |legs|
  {
    if |legs| > 0 {
      var n := |legs| - 1;
      var leg := legs[n];
      IntValue(leg.distance);
      if p.isInside(leg.start) {
        assert legs[n + 1..] == [];
      } else {
        WalkBackValue(p, legs[..n], Add(acc, Int(leg.distance)));
        ReferenceStep(p, legs);
      }
    }
  }

  /** The polygon-centre distance has the reference value. */
  lemma PathDistanceValue(p: Polygon, legs: seq<Leg>)
    ensures Value(PathDistance(p, legs)) == Reference(p, legs)
  {
    WalkBackValue(p, legs, Int(0));
    IntValue(0);
  }

  /** With no leg starting inside, the walk adds every leg: an integer sum. */
  lemma {:induction false} WalkBackAllOutside(p: Polygon, legs: seq<Leg>, a: int)
    requires LastInside(p, legs).None?
    ensures WalkBack(p, legs, Int(a)) == Int(a + LegsTotal(legs))
    decreases |legs|
  {
    if |legs| > 0 {
      var n := |legs| - 1;
      AddInts(a, legs[n].distance);
      WalkBackAllOutside(p, legs[..n], a + legs[n].distance);
    }
  }

  /**
   * A route none of whose legs starts inside counts in full, as the
   * integer total of its legs; an empty route gives the integer 0.
   */
  lemma AllOutsideIsTotal(p: Polygon, legs: seq<Leg>)
    requires forall k :: 0 <= k < |legs| ==> !p.isInside(legs[k].start)
    ensures PathDistance(p, legs) == Int(LegsTotal(legs))
    ensures legs == [] ==> PathDistance(p, legs) == Int(0)
  {
    WalkBackAllOutside(p, legs, 0);
  }

  lemma {:induction false} WalkBackPrefix(p: Polygon, a: seq<Leg>, b: seq<Leg>, acc: Num)
    requires LastInside(p, b).Some?
    ensures WalkBack(p, a + b, acc) == WalkBack(p, b, acc)
    decreases |b|
  {
    var n := |b| - 1;
    assert (a + b)[|a + b| - 1] == b[n];
    if !p.isInside(b[n].start) {
      assert (a + b)[..|a + b| - 1] == a + b[..n];
      WalkBackPrefix(p, a, b[..n], Add(acc, Int(b[n].distance)));
    }
  }

  /** Once a later leg starts inside, the legs before it do not count. */
  lemma PrefixIgnored(p: Polygon, a: seq<Leg>, b: seq<Leg>)
    requires exists k :: 0 <= k < |b| && p.isInside(b[k].start)
    ensures PathDistance(p, a + b) == PathDistance(p, b)
  {
    var k :| 0 <= k < |b| && p.isInside(b[k].start);
    WalkBackPrefix(p, a, b, Int(0));
  }

  lemma {:induction false} LegsTotalAppend(a: seq<Leg>, b: seq<Leg>)
    ensures LegsTotal(a + b) == LegsTotal(a) + LegsTotal(b)
    decreases |b|
  {
    if |b| == 0 {
      assert a + b == a;
    } else {
      var n := |b| - 1;
      assert (a + b)[..|a + b| - 1] == a + b[..n];
      assert (a + b)[|a + b| - 1] == b[n];
      LegsTotalAppend(a, b[..n]);
    }
  }

  /** Helper: a fraction in [0, 1] of `d` lies in [0, d]. */
  lemma ProductBound(x: real, f: real, v: real, d: real)
    requires x == f * v && v == d && 0.0 <= f <= 1.0 && 0.0 <= d
    ensures 0.0 <= x <= d
  {
    NonNegativeProduct(f, d);
    NonNegativeProduct(1.0 - f, d);
    assert x == f * d;
    assert d - x == (1.0 - f) * d;
  }

  /** Helper: the product of two non-negative reals is non-negative. */
  lemma NonNegativeProduct(a: real, b: real)
    requires 0.0 <= a && 0.0 <= b
    ensures 0.0 <= a * b
  {
  }

  /**
   * When every outside fraction lies in [0, 1], the polygon-centre distance
   * lies between 0 and the total length of the route.
   */
  lemma PathDistanceBounds(p: Polygon, legs: seq<Leg>)
    requires forall i :: 0 <= i < |legs| ==> 0.0 <= Fraction(p, legs[i]) <= 1.0
    ensures 0.0 <= Value(PathDistance(p, legs)) <= LegsTotal(legs) as real
  {
    PathDistanceValue(p, legs);
    if LastInside(p, legs).Some? {
      var j := LastInside(p, legs).value;
      assert 0.0 <= Fraction(p, legs[j]) <= 1.0;
    }
    ReferenceBounds(p, legs);
  }

  lemma ReferenceAt(p: Polygon, legs: seq<Leg>, j: nat)
    requires LastInside(p, legs) == Some(j)
    ensures Reference(p, legs) == Value(OutsidePart(p, legs[j])) + LegsTotal(legs[j + 1..]) as real
  {
    assert LastInside(p, legs).value == j;
  }

  lemma ReferenceBounds(p: Polygon, legs: seq<Leg>)
    requires LastInside(p, legs).Some? ==> 0.0 <= Fraction(p, legs[LastInside(p, legs).value]) <= 1.0
    ensures 0.0 <= Reference(p, legs) <= LegsTotal(legs) as real
  {
    if LastInside(p, legs).Some? {
      var j := LastInside(p, legs).value;
      ReferenceAt(p, legs, j);
      OutsidePartBounds(p, legs[j]);
      LegsTotalSplit(legs, j);
      SumBound(Reference(p, legs), Value(OutsidePart(p, legs[j])), legs[j].distance as real,
               LegsTotal(legs[j + 1..]) as real, LegsTotal(legs) as real);
    }
  }

  /** A leg and the legs after it make up no more than the whole route. */
  lemma LegsTotalSplit(legs: seq<Leg>, j: nat)
    requires j < |legs|
    ensures legs[j].distance + LegsTotal(legs[j + 1..]) <= LegsTotal(legs)
  {
    assert legs == legs[..j + 1] + legs[j + 1..];
    LegsTotalAppend(legs[..j + 1], legs[j + 1..]);
    assert legs[..j + 1][..j] == legs[..j];
  }

  /** Helper: a part bounded by `d` plus the rest stays within the total. */
  lemma SumBound(r: real, part: real, d: real, rest: real, total: real)
    requires r == part + rest && 0.0 <= part <= d && 0.0 <= rest && d + rest <= total
    ensures 0.0 <= r <= total
  {
  }

  // ---------------------------------------------------------------------
  // The cached calculator: `CachedDistanceCalculator`

  /** `refresh_value`: the strategy's raw distance, written to the store as it is. */
  function RefreshOf(calculator: Calculator): Coordinates -> Result<Option<Num>, Error>
  {
    c => match RawDistance(calculator, c)
      case Failure(e) => Failure(e)
      case Success(m) => Success(Some(m))
  }

  /** The envelope applied to the cached value; comparing `None` with 1000 raises `TypeError`. */
  function KmOf(r: Result<Option<Num>, Error>): Result<int, Error>
  {
    match r
    case Failure(e) => Failure(e)
    case Success(None) => Failure(TypeError)
    case Success(Some(m)) => Success(Kilometres(m))
  }

  /**
   * A calculator whose `calc_distance` is `get` on a distance cache whose
   * refresh is the strategy's own computation.
   */
  class CachedDistanceCalculator {
    const calculator: Calculator
    const service: CacheableService<Coordinates, Num>

    ghost predicate Valid()
    {
      service.storageClass == DistanceStorage && service.refresh == RefreshOf(calculator)
    }

    constructor(store: KeyValueStore, calculator: Calculator)
      ensures Valid() && this.calculator == calculator && service.store == store
    {
      this.calculator := calculator;
      service := new CacheableService(store, DistanceStorage, RefreshOf(calculator));
    }

    /**
     * `get_distance(coordinates)`. A point not outside the polygon is 0
     * with no store access; otherwise the distance goes through the cache.
     */
    method GetDistance(c: Coordinates) returns (r: Result<int, Error>)
      requires Valid()
      modifies service.store
      ensures !Outside(calculator.polygon, c) ==>
        r == Success(0) && service.store.data == old(service.store.data) && service.store.calls == old(service.store.calls)
      ensures Outside(calculator.polygon, c) ==>
        var o := GetOutcome(DistanceStorage, RefreshOf(calculator), old(service.store.data), c);
        r == KmOf(o.result) && service.store.data == o.data && service.store.calls == old(service.store.calls) + o.calls
    {
      if !calculator.polygon.present || calculator.polygon.isInside(c) {
        return Success(0);
      }
      var v, _ := service.Get(c);
      r := KmOf(v);
    }
  }

  /**
   * A cache miss computes the distance once, writes it under the point's
   * distance key and answers exactly what the uncached calculator answers.
   */
  lemma CachedMissAgrees(calculator: Calculator, data: map<string, string>, c: Coordinates)
    requires Outside(calculator.polygon, c) && DistanceKey(c) !in data
    ensures var o := GetOutcome(DistanceStorage, RefreshOf(calculator), data, c);
      o.refreshed && KmOf(o.result) == Distance(calculator, c)
      && (RawDistance(calculator, c).Success? ==>
            o.data == data[DistanceKey(c) := Show(RawDistance(calculator, c).value)])
  {
  }

  /**
   * After a miss has stored a non-zero distance, the next `get_distance`
   * of the same point is a hit that answers what the uncached calculator
   * answers, with no further computation.
   */
  lemma CachedHitAgrees(calculator: Calculator, data: map<string, string>, c: Coordinates)
    requires Outside(calculator.polygon, c) && DistanceKey(c) !in data
    requires RawDistance(calculator, c).Success? && RawDistance(calculator, c).value.mantissa != 0
    ensures var o := GetOutcome(DistanceStorage, RefreshOf(calculator), data, c);
      var o2 := GetOutcome(DistanceStorage, RefreshOf(calculator), o.data, c);
      !o2.refreshed && KmOf(o2.result) == Distance(calculator, c) && o2.data == o.data
  {
    var m := RawDistance(calculator, c).value;
    var key := DistanceKey(c);
    var o := GetOutcome(DistanceStorage, RefreshOf(calculator), data, c);
    assert o.data == data[key := Show(m)];
    DistanceRoundTrip(m);
    ShowHasNoSeparator(m);
    assert ProbeOf(DistanceStorage, o.data, key) == Found(Some(AsFloat(m)));
    KilometresByValue(AsFloat(m), m);
  }

  /** Kilometres depend on the value alone, not on how the number is written. */
  lemma KilometresByValue(a: Num, b: Num)
    requires Value(a) == Value(b)
    ensures Kilometres(a) == Kilometres(b)
  {
  }

  // ---------------------------------------------------------------------
  // The two configured calculators

  /** `KAD_CENTER`: the centre of Saint Petersburg the KAD routes start from. */
  const KadCenter: Coordinates := Coordinates(Num(5995, 2), Num(30305, 3))

  /** `MkadDistanceCalculator`: nearest exits of the MKAD ring road with the prebuilt exit tree. */
  function MkadCalculator(polygon: Polygon, api: DistanceApi, tree: KDTree): (calculator: Calculator)
    ensures calculator.polygon == polygon && calculator.strategy.NearestExits?
    ensures calculator.strategy.exits == MkadExits && |calculator.strategy.exits| == 93
  {
    Calculator(polygon, NearestExits(api, MkadExits, tree))
  }

  /** `KadDistanceCalculator`: routes from the centre of Saint Petersburg to outside the KAD ring road. */
  function KadCalculator(polygon: Polygon, api: DistanceApi): (calculator: Calculator)
    ensures calculator.polygon == polygon && calculator.strategy == PolygonCenter(api, KadCenter)
    ensures IsFloat(calculator.strategy.center.latitude) && Value(calculator.strategy.center.latitude) == 59.95
    ensures IsFloat(calculator.strategy.center.longitude) && Value(calculator.strategy.center.longitude) == 30.305
  {
    Calculator(polygon, PolygonCenter(api, KadCenter))
  }

  // ---------------------------------------------------------------------
  // Worked examples

  /** 100590.1234 m is 101 km, 63 m is 1 km and a cached 12345.0 m is 12 km. */
  lemma KilometresExamples()
    ensures Kilometres(Num(1005901234, 4)) == 101
    ensures Kilometres(Int(63)) == 1
    ensures Kilometres(Num(123450, 1)) == 12
    ensures Kilometres(Int(12345)) == 12
  {
    assert Pow10(4) == 10000 && Pow10(1) == 10;
    IntValue(63);
    IntValue(12345);
  }

  lemma ShowLatitudeExample()
    ensures Show(Num(504254225, 7)) == "50.4254225"
  {
    assert Shift(504254225, 7) == 50;
    assert LowDigits(504, 1) == "4";
    assert LowDigits(5042, 2) == "42";
    assert LowDigits(50425, 3) == "425";
    assert LowDigits(504254, 4) == "4254";
    assert LowDigits(5042542, 5) == "42542";
    assert LowDigits(50425422, 6) == "425422";
    assert LowDigits(504254225, 7) == "4254225";
    assert NatStr(50) == "50";
  }

  lemma ShowLongitudeExample()
    ensures Show(Num(369020654, 7)) == "36.9020654"
  {
    assert Shift(369020654, 7) == 36;
    assert LowDigits(369, 1) == "9";
    assert LowDigits(3690, 2) == "90";
    assert LowDigits(36902, 3) == "902";
    assert LowDigits(369020, 4) == "9020";
    assert LowDigits(3690206, 5) == "90206";
    assert LowDigits(36902065, 6) == "902065";
    assert LowDigits(369020654, 7) == "9020654";
    assert NatStr(36) == "36";
  }

  /** The point of the cached examples, 50.4254225, 36.9020654, and its distance key. */
  lemma ExampleKey()
    ensures DistanceKey(Coordinates(Num(504254225, 7), Num(369020654, 7)))
      == "distance:" + "50.4254225" + "," + "36.9020654"
  {
    ShowLatitudeExample();
    ShowLongitudeExample();
  }

  lemma ShowExampleDistance()
    ensures Show(Int(12345)) == "12345"
  {
    assert NatStr(12) == "12";
    assert NatStr(123) == "123";
    assert NatStr(1234) == "1234";
    assert NatStr(12345) == "12345";
  }

  /** A cached `12345` is 12 km, read with one `get` and no computation. */
  lemma CachedHitExample(calculator: Calculator, c: Coordinates)
    requires Outside(calculator.polygon, c)
    ensures var o := GetOutcome(DistanceStorage, RefreshOf(calculator), map[DistanceKey(c) := "12345"], c);
      KmOf(o.result) == Success(12) && !o.refreshed && o.calls == [GetCall(DistanceKey(c))]
  {
    ShowExampleDistance();
    DistanceRoundTrip(Int(12345));
    assert AsFloat(Int(12345)) == Num(123450, 1);
    KilometresExamples();
  }

  /** On an empty store a computed 12345 m is written as `12345` for 30 days and answered as 12 km. */
  lemma CachedMissExample(calculator: Calculator, c: Coordinates)
    requires Outside(calculator.polygon, c) && RawDistance(calculator, c) == Success(Int(12345))
    ensures var o := GetOutcome(DistanceStorage, RefreshOf(calculator), map[], c);
      KmOf(o.result) == Success(12) && o.refreshed
      && o.calls == [GetCall(DistanceKey(c)), SetCall(DistanceKey(c), "12345", ExpireTime)]
  {
    ShowExampleDistance();
    KilometresExamples();
  }

  /** The point of the MKAD and cached-calculator tests. */
  const MkadTestPoint := Coordinates(Num(504254225, 7), Num(369020654, 7))

  /** `str` of the float 12345.0 is `12345.0`. */
  lemma ShowFloatDistance()
    ensures Show(Num(123450, 1)) == "12345.0"
  {
    assert Shift(123450, 1) == 12345;
    assert LowDigits(123450, 1) == "0";
    assert NatStr(12) == "12";
    assert NatStr(123) == "123";
    assert NatStr(1234) == "1234";
    assert NatStr(12345) == "12345";
  }

  /**
   * The cached half of the MKAD calculator test: for the test point outside
   * the polygon, a cached `12345` is 12 km after one `get` of its key, with
   * no computation.
   */
  lemma MkadHitExample(polygon: Polygon, api: DistanceApi, tree: KDTree)
    requires Outside(polygon, MkadTestPoint)
    ensures var key := "distance:" + "50.4254225" + "," + "36.9020654";
      var o := GetOutcome(DistanceStorage, RefreshOf(MkadCalculator(polygon, api, tree)), map[key := "12345"], MkadTestPoint);
      KmOf(o.result) == Success(12) && !o.refreshed && o.calls == [GetCall(key)]
  {
    ExampleKey();
    CachedHitExample(MkadCalculator(polygon, api, tree), MkadTestPoint);
  }

  /**
   * The computed half, through the real nearest-exits strategy: when the
   * tree's indices are valid and the provider answers 12345 m for the exits
   * they name, the strategy gives the float 12345.0, so a miss on an empty
   * store writes `12345.0` for 30 days and answers 12 km.
   */
  lemma MkadMissExample(polygon: Polygon, api: DistanceApi, tree: KDTree)
    requires Outside(polygon, MkadTestPoint)
    requires forall i :: 0 <= i < |tree.query(AsTuple(MkadTestPoint), Neighbours)| ==>
      tree.query(AsTuple(MkadTestPoint), Neighbours)[i] < |MkadExits|
    requires api.distanceFromPoints(Origins(MkadExits, tree.query(AsTuple(MkadTestPoint), Neighbours)).value,
      AsTuple(MkadTestPoint)) == 12345
    ensures var key := "distance:" + "50.4254225" + "," + "36.9020654";
      var o := GetOutcome(DistanceStorage, RefreshOf(MkadCalculator(polygon, api, tree)), map[], MkadTestPoint);
      KmOf(o.result) == Success(12) && o.refreshed && o.data == map[key := "12345.0"]
      && o.calls == [GetCall(key), SetCall(key, "12345.0", ExpireTime)]
  {
    var calculator := MkadCalculator(polygon, api, tree);
    NearestExitsSendsOrigins(api, MkadExits, tree, MkadTestPoint);
    assert AsFloat(Int(12345)) == Num(123450, 1);
    assert RawDistance(calculator, MkadTestPoint) == Success(Num(123450, 1));
    ShowFloatDistance();
    KilometresExamples();
    ExampleKey();
  }

  lemma ShowKadLatitudeExample()
    ensures Show(Num(59991988, 6)) == "59.991988"
  {
    assert Shift(59991988, 6) == 59;
    assert LowDigits(599, 1) == "9";
    assert LowDigits(5999, 2) == "99";
    assert LowDigits(59991, 3) == "991";
    assert LowDigits(599919, 4) == "9919";
    assert LowDigits(5999198, 5) == "99198";
    assert LowDigits(59991988, 6) == "991988";
    assert NatStr(59) == "59";
  }

  lemma ShowKadLongitudeExample()
    ensures Show(Num(29775469, 6)) == "29.775469"
  {
    assert Shift(29775469, 6) == 29;
    assert LowDigits(297, 1) == "7";
    assert LowDigits(2977, 2) == "77";
    assert LowDigits(29775, 3) == "775";
    assert LowDigits(297754, 4) == "7754";
    assert LowDigits(2977546, 5) == "77546";
    assert LowDigits(29775469, 6) == "775469";
    assert NatStr(29) == "29";
  }

  /** The point of the KAD test, 59.991988, 29.775469, and its distance key. */
  lemma KadExampleKey()
    ensures DistanceKey(Coordinates(Num(59991988, 6), Num(29775469, 6)))
      == "distance:" + "59.991988" + "," + "29.775469"
  {
    ShowKadLatitudeExample();
    ShowKadLongitudeExample();
  }

  /** The KAD calculator test: the same cached and computed cases for the
      point (59.991988, 29.775469) outside the KAD polygon. */
  lemma KadCalculatorExample(polygon: Polygon, api: DistanceApi)
    requires Outside(polygon, Coordinates(Num(59991988, 6), Num(29775469, 6)))
    requires RawDistance(KadCalculator(polygon, api), Coordinates(Num(59991988, 6), Num(29775469, 6))) == Success(Int(12345))
    ensures var c := Coordinates(Num(59991988, 6), Num(29775469, 6));
      var key := "distance:" + "59.991988" + "," + "29.775469";
      var hit := GetOutcome(DistanceStorage, RefreshOf(KadCalculator(polygon, api)), map[key := "12345"], c);
      var miss := GetOutcome(DistanceStorage, RefreshOf(KadCalculator(polygon, api)), map[], c);
      KmOf(hit.result) == Success(12) && !hit.refreshed && hit.calls == [GetCall(key)]
      && KmOf(miss.result) == Success(12) && miss.refreshed
      && miss.calls == [GetCall(key), SetCall(key, "12345", ExpireTime)]
  {
    var c := Coordinates(Num(59991988, 6), Num(29775469, 6));
    KadExampleKey();
    CachedHitExample(KadCalculator(polygon, api), c);
    CachedMissExample(KadCalculator(polygon, api), c);
  }

  /** `MKAD_EXITS_COORDINATES`: the 93 exits of the MKAD ring road, as written in the source. */
  const MkadExits: seq<PointTuple> := [
    (Num(5577682626803085, 14), Num(3784269989967345, 14)),
    (Num(5576903191638017, 14), Num(3784318651588698, 14)),
    (Num(5574392477931212, 14), Num(3784185519957153, 14)),
    (Num(5573052122580085, 14), Num(3784037898416108, 14)),
    (Num(5571863531207276, 14), Num(3783895012458452, 14)),
    (Num(55711831272333605, 15), Num(3783713368900962, 14)),
    (Num(55707901422046966, 15), Num(378350106548768, 13)),
    (Num(556869523798766, 13), Num(3783057993978087, 14)),
    (Num(5565692789667629, 14), Num(3783910426510268, 14)),
    (Num(55640528720308474, 15), Num(37819652386266085, 15)),
    (Num(55617789410062215, 15), Num(37782276430404394, 15)),
    (Num(5559175631830074, 14), Num(3772929474857808, 14)),
    (Num(5557581125568298, 14), Num(37687799514747375, 15)),
    (Num(5557272629492449, 14), Num(3765277241112271, 14)),
    (Num(5557605719591829, 14), Num(3759643530860042, 14)),
    (Num(5558106457666858, 14), Num(3757265144016032, 14)),
    (Num(5559150701569656, 14), Num(3752902190629794, 14)),
    (Num(5561120819157864, 14), Num(3749189413873337, 14)),
    (Num(55638972144200956, 15), Num(3745948542596951, 14)),
    (Num(5566189360804507, 14), Num(37432824164364256, 15)),
    (Num(5568278581583797, 14), Num(37416807425418966, 15)),
    (Num(55668026850906536, 15), Num(3742778473861195, 14)),
    (Num(5570188946767468, 14), Num(3739895204348993, 14)),
    (Num(55713602586285944, 15), Num(3738589295731531, 14)),
    (Num(5572348037785042, 14), Num(3738078139017449, 14)),
    (Num(5573175585229489, 14), Num(3737657178200628, 14)),
    (Num(5576508406345848, 14), Num(3736928736556715, 14)),
    (Num(5576996256764349, 14), Num(3736942982797446, 14)),
    (Num(55789736950483615, 15), Num(373728868615282, 13)),
    (Num(55808798087528174, 15), Num(37388344151047676, 15)),
    (Num(5583260998737753, 14), Num(3739560097816893, 14)),
    (Num(55851747102850375, 15), Num(3739376480087579, 14)),
    (Num(5587090570963696, 14), Num(3741209100527676, 14)),
    (Num(5587659696295345, 14), Num(3742839459978549, 14)),
    (Num(5588161130650381, 14), Num(37445221243317135, 15)),
    (Num(5588711708090231, 14), Num(37482644383447834, 15)),
    (Num(5589207427475143, 14), Num(3749649435563702, 14)),
    (Num(5590782224163112, 14), Num(3754371914983502, 14)),
    (Num(5590978840669936, 14), Num(3758858112800599, 14)),
    (Num(5589518876022445, 14), Num(3767325996719509, 14)),
    (Num(5582959228057486, 14), Num(3782861019557688, 14)),
    (Num(558822323534685, 13), Num(3772592724800108, 14)),
    (Num(558138082895938, 13), Num(3783884777073161, 14)),
    (Num(5575481214376632, 14), Num(3784267307758329, 14)),
    (Num(5570418787329251, 14), Num(378332852107992, 13)),
    (Num(55702989401989484, 15), Num(3783263932754, 11)),
    (Num(5565047653581307, 14), Num(3783493949978359, 14)),
    (Num(5564502320468091, 14), Num(3782690675054945, 14)),
    (Num(5562614603220174, 14), Num(37798215117726585, 15)),
    (Num(5559582667642601, 14), Num(3773945441049923, 14)),
    (Num(55587464115886156, 15), Num(3771946951925047, 14)),
    (Num(5558141301775248, 14), Num(3770325579370606, 14)),
    (Num(5557362538548569, 14), Num(3763521054231301, 14)),
    (Num(5557456040522403, 14), Num(37619314897938175, 15)),
    (Num(5558056831268785, 14), Num(37573856505131964, 15)),
    (Num(5558749528969654, 14), Num(375451094875984, 13)),
    (Num(55593784581287494, 15), Num(3751884952838902, 14)),
    (Num(5560589190143268, 14), Num(3749776326563821, 14)),
    (Num(5561577037337298, 14), Num(3748617693805733, 14)),
    (Num(5562588555827154, 14), Num(3747443845687327, 14)),
    (Num(5563159809915896, 14), Num(3746778063484318, 14)),
    (Num(5565207693603693, 14), Num(374436689941094, 13)),
    (Num(5565663799228618, 14), Num(3743816060545844, 14)),
    (Num(5566590855944432, 14), Num(3742912931533752, 14)),
    (Num(5568849971417, 11), Num(374141437197791, 13)),
    (Num(55707656747292155, 15), Num(3739082356976081, 14)),
    (Num(5570992858606593, 14), Num(3738822422159842, 14)),
    (Num(5575188787932283, 14), Num(37366333001041205, 15)),
    (Num(5579604144033229, 14), Num(3737852370112031, 14)),
    (Num(5581331234523823, 14), Num(3738954092451, 11)),
    (Num(5581568484607161, 14), Num(37390191395766784, 15)),
    (Num(5582131114715086, 14), Num(37391900629017584, 15)),
    (Num(55825072975139875, 15), Num(37393084859162826, 15)),
    (Num(55830495842317646, 15), Num(3739451898008863, 14)),
    (Num(558339338725267, 13), Num(3739594735722236, 14)),
    (Num(5585865656090271, 14), Num(37397073365517734, 15)),
    (Num(5586699779674642, 14), Num(3740492948497198, 14)),
    (Num(5587821893534327, 14), Num(3743308640028372, 14)),
    (Num(5588949415675149, 14), Num(3748972351315925, 14)),
    (Num(5590681458164319, 14), Num(3753369071576891, 14)),
    (Num(55910830265189425, 15), Num(3757059586873433, 14)),
    (Num(55911011046432726, 15), Num(37581529228009686, 15)),
    (Num(5589964948588706, 14), Num(37629701188337705, 15)),
    (Num(55895716922397085, 15), Num(3766346711671403, 14)),
    (Num(5589505379117015, 14), Num(3768453970149422, 14)),
    (Num(55894105661911894, 15), Num(37699083186567655, 15)),
    (Num(5589178148825972, 14), Num(3770718435431336, 14)),
    (Num(5587839320587734, 14), Num(37734177892950065, 15)),
    (Num(5582543390489343, 14), Num(3783464260085545, 14)),
    (Num(5581012946042399, 14), Num(3783951226232321, 14)),
    (Num(5580418173177062, 14), Num(3783998433110984, 14)),
    (Num(55802423269353746, 15), Num(37840209636667076, 15)),
    (Num(5590738403567146, 14), Num(375979956303702, 13))
  ]
}
