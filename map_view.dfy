/**
 * The journey map of src/components/MapView.tsx: the builder that turns a
 * record's `map` list into markers (`createMapPoints`), the counter of
 * revealed markers (`animationStep`), and the schedule on which the markers
 * appear while the route is drawn (`handlePathReady`).
 */
module MapView {
  import opened Wrappers

  /** The marker categories a map point may carry. */
  datatype Icon = Ship | Port | Factory | Destination | Store

  datatype Coords = Coords(lat: real, lng: real)

  datatype MapPoint = MapPoint(id: string, name: string, description: string, coords: Coords, icon: Icon)

  /** The `coords` field of an entry as it arrives: an array of some length, or anything else. */
  datatype RawCoords = CoordsNotArray | CoordsArray(values: seq<real>)

  /**
   * One element of the list handed to `createMapPoints`. `Falsy` stands for
   * `null`, `undefined` and every other value the filter's `item &&` rejects.
   */
  datatype RawItem = Falsy | Entry(id: string, name: string, description: string, coords: RawCoords)

  /** The argument of `createMapPoints`, which is typed `any`: an array of entries, or not an array. */
  datatype RawInput = InputNotArray | InputArray(items: seq<RawItem>)

  // ---------------------------------------------------------------------------
  // The identifier -> icon table
  // ---------------------------------------------------------------------------

  /** The identifiers `iconsMap` holds as its own keys. */
  const KnownIds: set<string> := {"catch", "port", "factory", "delivery", "destination", "user-location", "store"}

  /** The own entries of `iconsMap`. */
  function IconFor(id: string): (r: Option<Icon>)
    ensures r.Some? <==> id in KnownIds
  {
    if id == "catch" then Some(Ship)
    else if id == "port" then Some(Port)
    else if id == "factory" then Some(Factory)
    else if id == "delivery" || id == "destination" then Some(Destination)
    else if id == "user-location" || id == "store" then Some(Store)
    else None
  }

  lemma IconsMapEntries()
    ensures IconFor("catch") == Some(Ship)
    ensures IconFor("port") == Some(Port)
    ensures IconFor("factory") == Some(Factory)
    ensures IconFor("delivery") == Some(Destination) && IconFor("destination") == Some(Destination)
    ensures IconFor("user-location") == Some(Store) && IconFor("store") == Some(Store)
    ensures forall id :: id !in KnownIds ==> IconFor(id) == None
  {
  }

  // ---------------------------------------------------------------------------
  // createMapPoints
  // ---------------------------------------------------------------------------

  /** The filter of `createMapPoints`: a present entry, a 2-element `coords` array, a known id. */
  function Keep(item: RawItem): (keep: bool)
    ensures keep <==> item.Entry? && item.coords.CoordsArray? && |item.coords.values| == 2 && item.id in KnownIds
  {
    item.Entry? && item.coords.CoordsArray? && |item.coords.values| == 2 && IconFor(item.id).Some?
  }

  /** The `map` step of `createMapPoints` for an entry that passed the filter. */
  function ToPoint(item: RawItem): (p: MapPoint)
    requires Keep(item)
    ensures AsEntry(p) == item
    ensures IconFor(item.id) == Some(p.icon)
  {
    MapPoint(item.id, item.name, item.description,
             Coords(item.coords.values[0], item.coords.values[1]), IconFor(item.id).value)
  }

  /** `filter` followed by `map` over the entries of an array. */
  function Build(items: seq<RawItem>): (r: seq<MapPoint>)
    ensures |r| <= |items|
    ensures forall k :: 0 <= k < |r| ==> IconFor(r[k].id) == Some(r[k].icon)
  {
    if items == [] then []
    else
      var last := items[|items| - 1];
      Build(items[..|items| - 1]) + (if Keep(last) then [ToPoint(last)] else [])
  }

  /** `createMapPoints(productData)`. */
  function CreateMapPoints(input: RawInput): (r: seq<MapPoint>)
    ensures input.InputNotArray? ==> r == []
    ensures input.InputArray? ==> |r| <= |input.items|
    ensures forall k :: 0 <= k < |r| ==> IconFor(r[k].id) == Some(r[k].icon)
  {
    match input
    case InputNotArray => []
    case InputArray(items) => Build(items)
  }

  /**
   * The positions of the entries that pass the filter, in increasing order:
   * an independent description of which entries survive.
   */
  function KeptIndices(items: seq<RawItem>): (idx: seq<nat>)
    ensures forall k :: 0 <= k < |idx| ==> idx[k] < |items| && Keep(items[idx[k]])
    ensures forall k, l :: 0 <= k < l < |idx| ==> idx[k] < idx[l]
    ensures forall i :: 0 <= i < |items| && Keep(items[i]) ==> i in idx
  {
    if items == [] then []
    else
      var n := |items| - 1;
      KeptIndices(items[..n]) + (if Keep(items[n]) then [n] else [])
  }

  /** `p` is the point `createMapPoints` makes of entry `e`: its fields copied, and the table's icon. */
  predicate CopiedFrom(p: MapPoint, e: RawItem)
  {
    e.Entry? && p.id == e.id && p.name == e.name && p.description == e.description
    && e.coords == CoordsArray([p.coords.lat, p.coords.lng]) && IconFor(e.id) == Some(p.icon)
  }

  /**
   * The output of `createMapPoints` is exactly the surviving entries, in
   * input order, each copied field by field with the table's icon.
   */
  lemma {:induction false} BuildIsKeptSubsequence(items: seq<RawItem>)
    ensures |Build(items)| == |KeptIndices(items)|
    ensures forall k :: 0 <= k < |Build(items)| ==> CopiedFrom(Build(items)[k], items[KeptIndices(items)[k]])
  {
    if items != [] {
      var n := |items| - 1;
      var front := items[..n];
      BuildIsKeptSubsequence(front);
      var points, kept := Build(items), KeptIndices(items);
      var frontPoints, frontKept := Build(front), KeptIndices(front);
      assert points == frontPoints + (if Keep(items[n]) then [ToPoint(items[n])] else []);
      assert kept == frontKept + (if Keep(items[n]) then [n] else []);
      forall k | 0 <= k < |points| ensures CopiedFrom(points[k], items[kept[k]]) {
        if k < |frontPoints| {
          assert points[k] == frontPoints[k] && kept[k] == frontKept[k];
          assert front[frontKept[k]] == items[kept[k]];
        } else {
          assert points[k] == ToPoint(items[n]) && kept[k] == n;
        }
      }
    }
  }

  /** When every entry passes the filter, none is dropped. */
  lemma {:induction false} BuildAllKept(items: seq<RawItem>)
    requires forall k :: 0 <= k < |items| ==> Keep(items[k])
    ensures |Build(items)| == |items|
  {
    if items != [] {
      var front := items[..|items| - 1];
      assert forall k :: 0 <= k < |front| ==> front[k] == items[k];
      BuildAllKept(front);
    }
  }

  /** Appending one entry appends at most its own point. */
  lemma BuildAppend(items: seq<RawItem>, x: RawItem)
    ensures Build(items + [x]) == Build(items) + (if Keep(x) then [ToPoint(x)] else [])
  {
    assert (items + [x])[..|items|] == items;
  }

  /** An entry that carries a point's fields back, as `createMapPoints` would see its own output. */
  function AsEntry(p: MapPoint): RawItem
  {
    Entry(p.id, p.name, p.description, CoordsArray([p.coords.lat, p.coords.lng]))
  }

  function AsEntries(ps: seq<MapPoint>): (r: seq<RawItem>)
    ensures |r| == |ps| && forall k :: 0 <= k < |ps| ==> r[k] == AsEntry(ps[k])
  {
    seq(|ps|, k requires 0 <= k < |ps| => AsEntry(ps[k]))
  }

  lemma {:induction false} BuildOfOwnPoints(ps: seq<MapPoint>)
    requires forall k :: 0 <= k < |ps| ==> IconFor(ps[k].id) == Some(ps[k].icon)
    ensures Build(AsEntries(ps)) == ps
  {
    if ps != [] {
      var n := |ps| - 1;
      assert AsEntries(ps) == AsEntries(ps[..n]) + [AsEntry(ps[n])];
      BuildAppend(AsEntries(ps[..n]), AsEntry(ps[n]));
      BuildOfOwnPoints(ps[..n]);
      assert ps == ps[..n] + [ps[n]];
    }
  }

  /** Applying `createMapPoints` to its own output returns the same points. */
  lemma CreateMapPointsIdempotent(input: RawInput)
    ensures CreateMapPoints(InputArray(AsEntries(CreateMapPoints(input)))) == CreateMapPoints(input)
  {
    BuildOfOwnPoints(CreateMapPoints(input));
  }

  // ---------------------------------------------------------------------------
  // `iconsMap[item.id]` as JavaScript evaluates it
  // ---------------------------------------------------------------------------

  /** Members every object literal inherits from `Object.prototype`; all of them are truthy. */
  const PrototypeMembers: set<string> := {
    "constructor", "hasOwnProperty", "isPrototypeOf", "propertyIsEnumerable",
    "toLocaleString", "toString", "valueOf", "__proto__",
    "__defineGetter__", "__defineSetter__", "__lookupGetter__", "__lookupSetter__"
  }

  /** What a property read on the `iconsMap` object literal yields. */
  datatype Lookup = OwnIcon(icon: Icon) | InheritedMember(name: string) | Undefined

  function IconsMapLookup(id: string): (r: Lookup)
    ensures r.OwnIcon? <==> id in KnownIds
  {
    match IconFor(id)
    case Some(icon) => OwnIcon(icon)
    case None => if id in PrototypeMembers then InheritedMember(id) else Undefined
  }

  /** The filter exactly as written, where `iconsMap[item.id]` is tested for truthiness. */
  function KeepAsWritten(item: RawItem): (keep: bool)
    ensures keep <==> (Keep(item) || (item.Entry? && item.coords.CoordsArray? && |item.coords.values| == 2
                                      && item.id in PrototypeMembers))
  {
    item.Entry? && item.coords.CoordsArray? && |item.coords.values| == 2
    && !IconsMapLookup(item.id).Undefined?
  }

  /**
   * An entry whose id names an inherited member passes the filter as
   * written, and its point would carry that member as its `icon`, which is
   * none of the five categories.
   */
  lemma PrototypeIdPassesFilterAsWritten(id: string, lat: real, lng: real)
    requires id in PrototypeMembers
    ensures var e := Entry(id, "", "", CoordsArray([lat, lng]));
      KeepAsWritten(e) && !Keep(e) && IconsMapLookup(id) == InheritedMember(id)
  {
    assert id !in KnownIds;
  }

  /** The corrected filter, `Keep`, is the written one restricted to own keys of the table. */
  lemma KeepIsOwnKeyFilter(item: RawItem)
    ensures Keep(item) <==> KeepAsWritten(item) && IconsMapLookup(item.id).OwnIcon?
  {
  }

  // ---------------------------------------------------------------------------
  // The reveal counter `animationStep`
  // ---------------------------------------------------------------------------

  function Min(a: int, b: int): int { if a <= b then a else b }

  function Max(a: int, b: int): int { if a <= b then b else a }

  /** The timer callback for point `i`: `Math.min(points.length, Math.max(prev, i + 1))`. */
  function RevealStep(prev: nat, count: nat, i: nat): (next: nat)
    ensures next <= count
    ensures prev <= count ==> prev <= next
    ensures i < count ==> i < next
    ensures next == count || next == prev || next == i + 1
  {
    Min(count, Max(prev, i + 1))
  }

  /** The counter after the callbacks for the indices `fired`, in firing order. */
  function RevealAll(prev: nat, count: nat, fired: seq<nat>): nat
  {
    if fired == [] then prev
    else RevealStep(RevealAll(prev, count, fired[..|fired| - 1]), count, fired[|fired| - 1])
  }

  /** One more than the largest index in `fired`, or 0 when none fired. */
  function Reach(fired: seq<nat>): (r: nat)
    ensures forall k :: 0 <= k < |fired| ==> fired[k] < r
    ensures fired != [] ==> exists k :: 0 <= k < |fired| && r == fired[k] + 1
  {
    if fired == [] then 0
    else
      var front := fired[..|fired| - 1];
      assert forall k :: 0 <= k < |front| ==> front[k] == fired[k];
      Max(Reach(front), fired[|fired| - 1] + 1)
  }

  /**
   * Whatever order the callbacks fire in, the counter is the furthest index
   * reached, capped at the number of points.
   */
  lemma {:induction false} RevealAllClosedForm(prev: nat, count: nat, fired: seq<nat>)
    requires prev <= count
    ensures RevealAll(prev, count, fired) == Min(count, Max(prev, Reach(fired)))
  {
    if fired != [] {
      RevealAllClosedForm(prev, count, fired[..|fired| - 1]);
    }
  }

  /** The counter never decreases and never passes the number of points. */
  lemma RevealAllBounds(prev: nat, count: nat, fired: seq<nat>)
    requires prev <= count
    ensures prev <= RevealAll(prev, count, fired) <= count
    ensures forall k :: 0 <= k < |fired| && fired[k] < count ==> fired[k] < RevealAll(prev, count, fired)
  {
    RevealAllClosedForm(prev, count, fired);
  }

  /** Once the callback for the last point has fired, every point is revealed. */
  lemma LastRevealShowsAll(prev: nat, count: nat, fired: seq<nat>, k: nat)
    requires prev <= count && k < |fired| && fired[k] + 1 == count
    ensures RevealAll(prev, count, fired) == count
  {
    RevealAllClosedForm(prev, count, fired);
  }

  function Range(n: nat): (r: seq<nat>)
    ensures |r| == n && forall k :: 0 <= k < n ==> r[k] == k
  {
    seq(n, k requires 0 <= k < n => k)
  }

  /** Callbacks firing in index order reveal one more point each. */
  lemma RevealInIndexOrder(count: nat, k: nat)
    requires k <= count
    ensures RevealAll(0, count, Range(k)) == k
  {
    RevealAllClosedForm(0, count, Range(k));
    if k > 0 {
      var r := Reach(Range(k));
      assert Range(k)[k - 1] < r;
    }
  }

  /** The map modal's state: the points it was given, whether it is open, and `animationStep`. */
  class MarkerReveal {
    const points: seq<MapPoint>
    var isOpen: bool
    var animationStep: nat

    ghost predicate Valid()
      reads this
    {
      animationStep <= |points|
    }

    /** `useState(0)` when the modal mounts. */
    constructor (points: seq<MapPoint>, isOpen: bool)
      ensures Valid() && this.points == points && this.isOpen == isOpen && animationStep == 0
    {
      this.points := points;
      this.isOpen := isOpen;
      animationStep := 0;
    }

    /** A new `isOpen` prop; the effect on it resets the counter when the modal opens. */
    method SetOpen(open: bool)
      requires Valid()
      modifies this
      ensures Valid() && isOpen == open
      ensures animationStep == if open && !old(isOpen) then 0 else old(animationStep)
    {
      if open && !isOpen {
        animationStep := 0;
      }
      isOpen := open;
    }

    /** The timer callback scheduled for point `i`. */
    method OnRevealTimer(i: nat)
      requires Valid()
      modifies this
      ensures Valid() && isOpen == old(isOpen)
      ensures animationStep == RevealStep(old(animationStep), |points|, i)
      ensures old(animationStep) <= animationStep
      ensures i < |points| ==> i < animationStep
    {
      animationStep := Min(|points|, Max(animationStep, i + 1));
    }

    /** The markers drawn, `points.slice(0, animationStep)`; nothing while the modal is closed. */
    function Markers(): (shown: seq<MapPoint>)
      reads this
      requires Valid()
      ensures |shown| == if isOpen then animationStep else 0
      ensures shown == points[..|shown|]
    {
      if isOpen then points[..animationStep] else []
    }
  }

  // ---------------------------------------------------------------------------
  // The reveal schedule of `handlePathReady`
  // ---------------------------------------------------------------------------

  /** `totalAnimationTime`, in seconds. */
  const TotalAnimationTime: real := 3.0

  /** A ratio of the drawn route: a number, or NaN when `0 / 0` was computed. */
  datatype Ratio = Finite(value: real) | NaN

  /** The sum of `ds`, added up from the front as the loop does. */
  function Sum(ds: seq<real>): real
  {
    if ds == [] then 0.0 else Sum(ds[..|ds| - 1]) + ds[|ds| - 1]
  }

  /**
   * The length of each leg of the route, leg `k` running from point `k` to
   * point `k + 1`; `distance` stands for Leaflet's `distanceTo`.
   */
  function SegmentDistances(points: seq<MapPoint>, distance: (Coords, Coords) -> real): (ds: seq<real>)
    ensures |ds| == if points == [] then 0 else |points| - 1
  {
    if points == [] then []
    else seq(|points| - 1, k requires 0 <= k < |points| - 1 => distance(points[k].coords, points[k + 1].coords))
  }

  /** The share of the route drawn when point `i` should appear. */
  function ScheduledRatio(ds: seq<real>, i: nat): (r: Ratio)
    requires i <= |ds|
    ensures r.NaN? <==> i > 0 && Sum(ds) == 0.0
    ensures r.Finite? ==> r.value * Sum(ds) == Sum(ds[..i])
  {
    if i == 0 then
      assert ds[..0] == [];
      Finite(0.0)
    else if Sum(ds) == 0.0 then NaN
    else Finite(Sum(ds[..i]) / Sum(ds))
  }

  /** `ratio * totalAnimationTime * 1000` as the delay `setTimeout` uses, which reads NaN as 0. */
  function AppearTime(r: Ratio): (delay: real)
    ensures r.NaN? ==> delay == 0.0
    ensures r.Finite? && 0.0 <= r.value <= 1.0 ==> 0.0 <= delay <= TotalAnimationTime * 1000.0
  {
    match r
    case Finite(v) => v * TotalAnimationTime * 1000.0
    case NaN => 0.0
  }

  predicate NonNegative(ds: seq<real>)
  {
    forall k :: 0 <= k < |ds| ==> ds[k] >= 0.0
  }

  lemma {:induction false} SumPrefixMonotone(ds: seq<real>, i: nat, j: nat)
    requires NonNegative(ds) && i <= j <= |ds|
    ensures 0.0 <= Sum(ds[..i]) <= Sum(ds[..j])
  {
    if i < j {
      SumPrefixMonotone(ds, i, j - 1);
      assert ds[..j][..j - 1] == ds[..j - 1];
    } else if i > 0 {
      SumPrefixMonotone(ds, i - 1, i);
    }
  }

  lemma SumPrefixStep(ds: seq<real>, j: nat)
    requires 0 < j <= |ds|
    ensures Sum(ds[..j]) == Sum(ds[..j - 1]) + ds[j - 1]
  {
    assert ds[..j][..j - 1] == ds[..j - 1];
  }

  /**
   * With legs of non-negative length and a route of positive length, point 0
   * appears at ratio 0, ratios never decrease along the route, all lie in
   * 0..1, and the last point appears at ratio 1.
   */
  lemma ScheduleShape(ds: seq<real>)
    requires NonNegative(ds) && Sum(ds) > 0.0
    ensures ScheduledRatio(ds, 0) == Finite(0.0)
    ensures ScheduledRatio(ds, |ds|) == Finite(1.0)
    ensures forall i :: 0 <= i <= |ds| ==>
      ScheduledRatio(ds, i).Finite? && 0.0 <= ScheduledRatio(ds, i).value <= 1.0
    ensures forall i, j :: 0 <= i <= j <= |ds| ==>
      ScheduledRatio(ds, i).value <= ScheduledRatio(ds, j).value
  {
    forall i, j | 0 <= i <= j <= |ds|
      ensures ScheduledRatio(ds, i).Finite? && 0.0 <= ScheduledRatio(ds, i).value <= ScheduledRatio(ds, j).value <= 1.0
    {
      RatiosOrdered(ds, i, j);
    }
    var total := Sum(ds);
    assert ds[..|ds|] == ds;
    DivideSelf(total);
    assert ScheduledRatio(ds, |ds|) == Finite(total / total);
  }

  lemma DivideSelf(t: real)
    requires t > 0.0
    ensures t / t == 1.0
  {
  }

  /** One pair of points of a route of positive length: their ratios are ordered and within 0..1. */
  lemma RatiosOrdered(ds: seq<real>, i: nat, j: nat)
    requires NonNegative(ds) && Sum(ds) > 0.0 && i <= j <= |ds|
    ensures ScheduledRatio(ds, i).Finite? && ScheduledRatio(ds, j).Finite?
    ensures 0.0 <= ScheduledRatio(ds, i).value <= ScheduledRatio(ds, j).value <= 1.0
  {
    var total, a, b := Sum(ds), Sum(ds[..i]), Sum(ds[..j]);
    SumPrefixMonotone(ds, i, j);
    SumPrefixMonotone(ds, j, |ds|);
    assert ds[..|ds|] == ds;
    assert b <= total;
    assert ds[..0] == [];
    assert ScheduledRatio(ds, i) == Finite(a / total);
    assert ScheduledRatio(ds, j) == Finite(b / total);
    DivideOrdered(a, b, total);
  }

  lemma DivideOrdered(a: real, b: real, t: real)
    requires 0.0 <= a <= b <= t && t > 0.0
    ensures 0.0 <= a / t <= b / t <= 1.0
  {
    assert b / t <= t / t;
  }

  /**
   * A route of length zero (every point at the same place) gives NaN for
   * every point after the first, so every marker's timer fires at once.
   */
  lemma ZeroLengthRoute(ds: seq<real>, i: nat)
    requires NonNegative(ds) && Sum(ds) == 0.0 && 0 < i <= |ds|
    ensures ScheduledRatio(ds, i) == NaN && AppearTime(ScheduledRatio(ds, i)) == 0.0
  {
  }

  /** The first loop's step: the legs found so far, extended by the next one. */
  lemma SegmentDistancesStep(points: seq<MapPoint>, distance: (Coords, Coords) -> real, i: nat)
    requires 1 <= i < |points|
    ensures var ds := SegmentDistances(points, distance);
      ds[..i - 1] + [distance(points[i - 1].coords, points[i].coords)] == ds[..i]
  {
    var ds := SegmentDistances(points, distance);
    var d := distance(points[i - 1].coords, points[i].coords);
    assert ds[i - 1] == d;
    var grown, prefix := ds[..i - 1] + [d], ds[..i];
    assert |grown| == |prefix| == i;
    forall k | 0 <= k < i ensures grown[k] == prefix[k] {
      if k < i - 1 {
        assert grown[k] == ds[k];
      }
    }
  }

  lemma SegmentDistancesNonNegative(points: seq<MapPoint>, distance: (Coords, Coords) -> real)
    requires forall a, b :: distance(a, b) >= 0.0
    ensures NonNegative(SegmentDistances(points, distance))
  {
  }

  /**
   * The second loop's ratio for point `j > 0`, from the running sum `acc`
   * and the total: with non-negative legs a zero total leaves `acc` at 0,
   * so the division is the 0 / 0 that gives NaN.
   */
  lemma RatioFromRunningSum(ds: seq<real>, j: nat, acc: real, total: real)
    requires NonNegative(ds) && 0 < j <= |ds| && acc == Sum(ds[..j]) && total == Sum(ds)
    ensures total == 0.0 ==> acc == 0.0
    ensures ScheduledRatio(ds, j) == if total == 0.0 then NaN else Finite(acc / total)
  {
    SumPrefixMonotone(ds, j, |ds|);
    assert ds[..|ds|] == ds;
  }

  /** The `for` loop of `handlePathReady`: the length of every leg, and their total. */
  method LegLengths(points: seq<MapPoint>, distance: (Coords, Coords) -> real)
    returns (distances: seq<real>, totalDistance: real)
    ensures distances == SegmentDistances(points, distance)
    ensures totalDistance == Sum(distances)
  {
    ghost var ds := SegmentDistances(points, distance);
    distances := [];
    totalDistance := 0.0;
    var i := 1;
    while i < |points|
      invariant 1 <= i && (points != [] ==> i <= |points|) && i - 1 <= |ds|
      invariant distances == ds[..i - 1]
      invariant totalDistance == Sum(distances)
    {
      var d := distance(points[i - 1].coords, points[i].coords);
      SegmentDistancesStep(points, distance, i);
      SumPrefixStep(ds, i);
      distances := distances + [d];
      totalDistance := totalDistance + d;
      i := i + 1;
    }
    assert ds[..|ds|] == ds;
  }

  /**
   * The `forEach` of `handlePathReady` over `count` points: the running sum
   * of the legs before each point, divided by the total.
   */
  method RunningRatios(count: nat, distances: seq<real>, totalDistance: real) returns (ratios: seq<Ratio>)
    requires |distances| == if count == 0 then 0 else count - 1
    requires NonNegative(distances) && totalDistance == Sum(distances)
    ensures |ratios| == count
    ensures forall i :: 0 <= i < count ==> ratios[i] == ScheduledRatio(distances, i)
  {
    var accumulated := 0.0;
    ratios := [];
    var j := 0;
    while j < count
      invariant 0 <= j <= count
      invariant |ratios| == j
      invariant forall k :: 0 <= k < j ==> ratios[k] == ScheduledRatio(distances, k)
      invariant accumulated == Sum(distances[..if j == 0 then 0 else j - 1])
    {
      var ratio: Ratio;
      if j == 0 {
        ratio := Finite(0.0);
      } else {
        SumPrefixStep(distances, j);
        accumulated := accumulated + distances[j - 1];
        RatioFromRunningSum(distances, j, accumulated, totalDistance);
        ratio := if totalDistance == 0.0 then NaN else Finite(accumulated / totalDistance);
      }
      ratios := ratios + [ratio];
      j := j + 1;
    }
  }

  /** `handlePathReady`'s two loops, one after the other: the ratio at which each point appears. */
  method PathReadyRatios(points: seq<MapPoint>, distance: (Coords, Coords) -> real) returns (ratios: seq<Ratio>)
    requires forall a, b :: distance(a, b) >= 0.0
    ensures |ratios| == |points|
    ensures forall i :: 0 <= i < |points| ==> ratios[i] == ScheduledRatio(SegmentDistances(points, distance), i)
  {
    var distances, totalDistance := LegLengths(points, distance);
    SegmentDistancesNonNegative(points, distance);
    ratios := RunningRatios(|points|, distances, totalDistance);
  }
}
