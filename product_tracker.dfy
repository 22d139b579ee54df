/**
 * The product page of src/components/ProductTracker.tsx: the simulated
 * fetch, the effect that adds the viewer's own checkpoint to a copy of the
 * record, the derived step and point lists, and the choice between the
 * loading skeleton, the error message and the content.
 */
module ProductTracker {
  import opened Wrappers
  import MapView
  import Timeline

  datatype UserCoords = UserCoords(lat: real, lng: real)

  /**
   * The provenance record; `timeline` and `mapItems` (the record's `map`
   * field, a reserved word here) hold the raw lists the builders take.
   */
  datatype Product = Product(
    id: string, name: string, image: string, species: string, weight: string,
    batchNumber: string, catchDate: string, certifications: seq<string>, status: string,
    timeline: seq<Timeline.TimelineItem>, mapItems: seq<MapView.RawItem>)

  // The texts of the simulated record, named so that each long literal is stated once.
  const ProductName: string := "Premium Yellowfin Tuna"
  const ProductImage: string :=
    "https://media.istockphoto.com/id/477593889/photo/tuna-can.jpg?s=612x612&w=0&k=20&c=yfx_pHScEUA1WfcAXo7IWySPo3WlBN-PWFX4U-9SOJU="
  const Species: string := "Thunnus albacares"
  const CatchDate: string := "2025-08-01 00:00:00"
  const CatchTitle: string := "Caught in the Pacific Ocean"
  const CatchText: string := "Fresh tuna caught using sustainable fishing methods in international waters."
  const CatchPlace: string := "FAO 77, Pacific Ocean"
  const PortTitle: string := "Arrived at Port"
  const PortText: string := "Fish unloaded at port facility for initial processing and quality inspection."
  const Manta: string := "Manta, Ecuador"
  const FactoryTitle: string := "Packaged at Manta"
  const FactoryText: string := "Professional processing, packaging, and quality control in certified facility."
  const DeliveryTitle: string := "Arrived at Destination"
  const DeliveryText: string := "Product delivered to final destination ready for distribution."
  const Rotterdam: string := "Rotterdam, Netherlands"
  const CatchPointName: string := "Catch Location"
  const CatchPointText: string := "Yellowfin Tuna caught using sustainable methods."
  const PortPointName: string := "Port of Manta"
  const FactoryPointText: string := "Professional processing, packaging, and final quality control."
  const DeliveryPointName: string := "Port of Rotterdam"
  const DeliveryPointText: string := "Distributed to retailers."

  function MockTimeline(): seq<Timeline.TimelineItem>
  {
    [ Timeline.TimelineItem("catch", CatchTitle, CatchText, Some(CatchPlace), Timeline.DateText(CatchDate), true),
      Timeline.TimelineItem("port", PortTitle, PortText, Some(Manta), Timeline.DateText("2025-08-10 00:00:00"), true),
      Timeline.TimelineItem("factory", FactoryTitle, FactoryText, Some(Manta), Timeline.DateText("2025-08-20 00:00:00"), true),
      Timeline.TimelineItem("delivery", DeliveryTitle, DeliveryText, Some(Rotterdam), Timeline.DateText("2025-08-25 00:00:00"), true) ]
  }

  function MockMap(): seq<MapView.RawItem>
  {
    [ MapView.Entry("catch", CatchPointName, CatchPointText, MapView.CoordsArray([18.448853, -122.223553])),
      MapView.Entry("port", PortPointName, PortText, MapView.CoordsArray([-0.94083333, -80.72861111])),
      MapView.Entry("factory", "Altura S.A.", FactoryPointText, MapView.CoordsArray([-2.18613, -79.85817])),
      MapView.Entry("delivery", DeliveryPointName, DeliveryPointText, MapView.CoordsArray([51.885, 4.2867])) ]
  }

  /** The record the simulated fetch returns, before it is stamped with the requested id. */
  const MockRecord: Product := Product("", ProductName, ProductImage, Species, "150g", "BT-2024-0815",
    CatchDate, ["MSC Certified", "Dolphin Safe", "Fresh"], "Certified", MockTimeline(), MockMap())

  /** `fetchProductData(productId)` once its delay has elapsed: a fixed record carrying the requested id. */
  function FetchProductData(productId: string): (p: Product)
    ensures p.id == productId
    ensures p.(id := MockRecord.id) == MockRecord
  {
    MockRecord.(id := productId)
  }

  /** Every entry of the fetched `map` list becomes a marker. */
  lemma FetchedMapFullyKept(productId: string)
    ensures |MapView.CreateMapPoints(MapView.InputArray(FetchProductData(productId).mapItems))| == 4
  {
    var m := MockMap();
    assert FetchProductData(productId).mapItems == m;
    assert MapView.Keep(m[0]) by { assert MapView.IconFor("catch").Some?; }
    assert MapView.Keep(m[1]) by { assert MapView.IconFor("port").Some?; }
    assert MapView.Keep(m[2]) by { assert MapView.IconFor("factory").Some?; }
    assert MapView.Keep(m[3]) by { assert MapView.IconFor("delivery").Some?; }
    MapView.BuildAllKept(m);
  }

  // ---------------------------------------------------------------------------
  // The augmentation effect
  // ---------------------------------------------------------------------------

  const UserTitle: string := "Bought at Supermarket ABC"
  const UserDescription: string := "You viewed the product at Supermarket ABC."

  /** The checkpoint added to the timeline; `now` is the instant `new Date()` reads. */
  function UserTimelineEntry(now: int): (item: Timeline.TimelineItem)
    ensures item.id == "user-location" && item.status && item.date == Timeline.Instant(now)
    ensures item.location.Some?
  {
    Timeline.TimelineItem("user-location", UserTitle, UserDescription,
      Some("Munich, Germany"), Timeline.Instant(now), true)
  }

  /** The fixed place the added map entry points at, whatever the viewer's position. */
  const StoreCoords: MapView.Coords := MapView.Coords(48.13743, 11.57549)

  /**
   * The entry added to the map list. It passes the filter of
   * `createMapPoints` and becomes a store marker at `StoreCoords`.
   */
  function UserMapEntry(): (entry: MapView.RawItem)
    ensures entry.Entry? && entry.id == "user-location"
    ensures MapView.Keep(entry) && MapView.ToPoint(entry) == UserPoint
  {
    MapView.Entry("user-location", UserTitle, UserDescription,
                  MapView.CoordsArray([StoreCoords.lat, StoreCoords.lng]))
  }

  /** The record the augmentation effect derives from `base`. */
  function Augmented(base: Product, userCoords: Option<UserCoords>, now: int): (p: Product)
    ensures p.(timeline := base.timeline, mapItems := base.mapItems) == base
    ensures userCoords.None? ==> p == base
    ensures userCoords.Some? ==>
      && |p.timeline| == |base.timeline| + 1 && p.timeline[..|base.timeline|] == base.timeline
      && p.timeline[|base.timeline|] == UserTimelineEntry(now)
      && |p.mapItems| == |base.mapItems| + 1 && p.mapItems[..|base.mapItems|] == base.mapItems
      && p.mapItems[|base.mapItems|] == UserMapEntry()
  {
    if userCoords.None? then base
    else base.(timeline := base.timeline + [UserTimelineEntry(now)], mapItems := base.mapItems + [UserMapEntry()])
  }

  /** The viewer's actual position never reaches the record. */
  lemma AugmentedIgnoresPosition(base: Product, a: UserCoords, b: UserCoords, now: int)
    ensures Augmented(base, Some(a), now) == Augmented(base, Some(b), now)
  {
  }

  // ---------------------------------------------------------------------------
  // The memoised lists
  // ---------------------------------------------------------------------------

  function StepsOf(productData: Option<Product>): (steps: seq<Timeline.TimelineStep>)
    ensures productData.None? ==> steps == []
    ensures productData.Some? ==> |steps| == |productData.value.timeline|
  {
    match productData
    case None => []
    case Some(p) => Timeline.CreateTimelineSteps(p.timeline)
  }

  function PointsOf(productData: Option<Product>): (points: seq<MapView.MapPoint>)
    ensures productData.None? ==> points == []
    ensures productData.Some? ==> |points| <= |productData.value.mapItems|
  {
    match productData
    case None => []
    case Some(p) => MapView.CreateMapPoints(MapView.InputArray(p.mapItems))
  }

  /** The point the viewer's checkpoint becomes: the store icon at the fixed coordinates. */
  const UserPoint: MapView.MapPoint :=
    MapView.MapPoint("user-location", UserTitle, UserDescription, StoreCoords, MapView.Store)

  /** With the viewer's position, the map gets exactly one more point, a store, after the base ones. */
  lemma AugmentedPoints(base: Product, c: UserCoords, now: int)
    ensures PointsOf(Some(Augmented(base, Some(c), now))) == PointsOf(Some(base)) + [UserPoint]
  {
    assert MapView.Keep(UserMapEntry()) && MapView.ToPoint(UserMapEntry()) == UserPoint;
    MapView.BuildAppend(base.mapItems, UserMapEntry());
  }

  /** With the viewer's position, the timeline gets exactly one more step, after the base ones. */
  lemma AugmentedSteps(base: Product, c: UserCoords, now: int)
    ensures StepsOf(Some(Augmented(base, Some(c), now)))
         == StepsOf(Some(base)) + [Timeline.MakeStep(UserTimelineEntry(now), |base.timeline|)]
  {
    Timeline.CreateTimelineStepsAppend(base.timeline, UserTimelineEntry(now));
  }

  /** On the fetched record the viewer's step is the fifth, so it gets the store icon. */
  lemma FetchedUserStepIcon(productId: string, c: UserCoords, now: int)
    ensures var steps := StepsOf(Some(Augmented(FetchProductData(productId), Some(c), now)));
      |steps| == 5 && steps[4].id == "user-location" && steps[4].icon == Some(Timeline.StoreIcon)
  {
    AugmentedSteps(FetchProductData(productId), c, now);
  }

  // ---------------------------------------------------------------------------
  // The component's state
  // ---------------------------------------------------------------------------

  datatype Screen = Skeleton | ErrorMessage | Content(product: Product)

  class Tracker {
    var productId: string
    var userCoords: Option<UserCoords>
    var loading: bool
    var baseProductData: Option<Product>
    var productData: Option<Product>

    /** The initial state: loading, with no record yet. */
    constructor (productId: string, userCoords: Option<UserCoords>)
      ensures this.productId == productId && this.userCoords == userCoords
      ensures loading && baseProductData == None && productData == None
    {
      this.productId := productId;
      this.userCoords := userCoords;
      loading := true;
      baseProductData := None;
      productData := None;
    }

    /** The fetch effect starting for product `id`. */
    method StartFetch(id: string)
      modifies this
      ensures productId == id && loading
      ensures userCoords == old(userCoords) && baseProductData == old(baseProductData)
      ensures productData == old(productData)
    {
      productId := id;
      loading := true;
    }

    /** The fetch started for `requestedId` resolving; its `finally` clears `loading`. */
    method FetchResolved(requestedId: string)
      modifies this
      ensures baseProductData == Some(FetchProductData(requestedId)) && baseProductData.value.id == requestedId
      ensures !loading
      ensures productId == old(productId) && userCoords == old(userCoords) && productData == old(productData)
    {
      baseProductData := Some(FetchProductData(requestedId));
      loading := false;
    }

    /** The fetch rejecting: the error is logged, and `finally` clears `loading`. */
    method FetchRejected()
      modifies this
      ensures !loading
      ensures productId == old(productId) && userCoords == old(userCoords)
      ensures baseProductData == old(baseProductData) && productData == old(productData)
    {
      loading := false;
    }

    /** A new `userCoords` prop. */
    method SetUserCoords(c: Option<UserCoords>)
      modifies this
      ensures userCoords == c
      ensures productId == old(productId) && loading == old(loading)
      ensures baseProductData == old(baseProductData) && productData == old(productData)
    {
      userCoords := c;
    }

    /**
     * The augmentation effect: copy the base lists, push the viewer's
     * checkpoint when a position is known, and store the new record.
     */
    method RunAugmentation(now: int)
      modifies this
      ensures old(baseProductData).None? ==> productData == old(productData)
      ensures old(baseProductData).Some? ==>
        productData == Some(Augmented(old(baseProductData).value, old(userCoords), now))
      ensures productId == old(productId) && userCoords == old(userCoords)
      ensures loading == old(loading) && baseProductData == old(baseProductData)
    {
      if baseProductData.None? {
        return;
      }
      var base := baseProductData.value;
      var newTimeline := base.timeline;
      var newMap := base.mapItems;
      if userCoords.Some? {
        newTimeline := newTimeline + [UserTimelineEntry(now)];
        newMap := newMap + [UserMapEntry()];
      }
      productData := Some(base.(timeline := newTimeline, mapItems := newMap));
    }

    /** The loading skeleton first, then the error message when there is no record, then the content. */
    function View(): (screen: Screen)
      reads this
      ensures loading ==> screen == Skeleton
      ensures !loading && productData.None? ==> screen == ErrorMessage
      ensures !loading && productData.Some? ==> screen == Content(productData.value)
    {
      if loading then Skeleton
      else if productData.None? then ErrorMessage
      else Content(productData.value)
    }
  }
}
