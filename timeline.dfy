/**
 * The checkpoint list of src/components/Timeline.tsx: `createTimelineSteps`,
 * which turns a record's `timeline` into steps, and the per-row rules of the
 * `Timeline` component.
 */
module Timeline {
  import opened Wrappers

  /**
   * A date as the record carries it: a text such as "2025-08-01 00:00:00",
   * or the moment a `new Date()` was taken. Its rendering is not modelled.
   */
  datatype Date = DateText(text: string) | Instant(millis: int)

  /** One element of a record's `timeline`; `location` is optional. */
  datatype TimelineItem = TimelineItem(
    id: string, title: string, description: string,
    location: Option<string>, date: Date, status: bool)

  /** The five icons, in the order `createTimelineSteps` hands them out. */
  datatype StepIcon = ShipIcon | ShipWheelIcon | FactoryIcon | GlobeIcon | StoreIcon

  const Icons: seq<StepIcon> := [ShipIcon, ShipWheelIcon, FactoryIcon, GlobeIcon, StoreIcon]

  /** `icons[index]`, which is `undefined` past the fifth. */
  function IconAt(index: nat): Option<StepIcon>
  {
    if index < |Icons| then Some(Icons[index]) else None
  }

  datatype TimelineStep = TimelineStep(
    id: string, title: string, description: string,
    location: string, date: Date, status: bool, icon: Option<StepIcon>)

  /** The step built for `item` at position `index` of the list. */
  function MakeStep(item: TimelineItem, index: nat): (step: TimelineStep)
    ensures step.id == item.id && step.title == item.title && step.description == item.description
    ensures step.status == item.status && step.date == item.date
    ensures item.location.Some? ==> step.location == item.location.value
    ensures item.location.None? ==> step.location == ""
    ensures step.icon.Some? <==> index < 5
  {
    TimelineStep(item.id, item.title, item.description, item.location.GetOr(""),
                 item.date, item.status, IconAt(index))
  }

  /** `createTimelineSteps(productData)`: one step per item, in order. */
  function CreateTimelineSteps(items: seq<TimelineItem>): (steps: seq<TimelineStep>)
    ensures |steps| == |items|
    ensures forall i :: 0 <= i < |items| ==>
      && steps[i].id == items[i].id
      && steps[i].title == items[i].title
      && steps[i].description == items[i].description
      && steps[i].status == items[i].status
      && steps[i].date == items[i].date
      && steps[i].location == (if items[i].location.Some? then items[i].location.value else "")
  {
    seq(|items|, i requires 0 <= i < |items| => MakeStep(items[i], i))
  }

  /** Step `i` carries the `i`-th icon; from the sixth step on there is none. */
  lemma StepIcons(items: seq<TimelineItem>, i: nat)
    requires i < |items|
    ensures i < 5 ==> CreateTimelineSteps(items)[i].icon == Some(Icons[i])
    ensures i >= 5 ==> CreateTimelineSteps(items)[i].icon == None
  {
  }

  /** Appending an item appends its step, with the icon of its position; earlier steps stay as they were. */
  lemma CreateTimelineStepsAppend(items: seq<TimelineItem>, x: TimelineItem)
    ensures CreateTimelineSteps(items + [x]) == CreateTimelineSteps(items) + [MakeStep(x, |items|)]
  {
    var lhs, rhs := CreateTimelineSteps(items + [x]), CreateTimelineSteps(items) + [MakeStep(x, |items|)];
    assert |lhs| == |rhs|;
    forall i | 0 <= i < |lhs| ensures lhs[i] == rhs[i] {
      if i < |items| {
        assert (items + [x])[i] == items[i];
      }
    }
  }

  // ---------------------------------------------------------------------------
  // The rows the `Timeline` component draws
  // ---------------------------------------------------------------------------

  datatype Badge = Verified | Pending

  /**
   * What one row shows: the step's texts and icon, whether a connector line
   * runs down to the next row, the badge, and the date when it is shown.
   */
  datatype Row = Row(
    title: string, description: string, location: string, icon: Option<StepIcon>,
    connector: bool, badge: Badge, date: Option<Date>)

  /** The row for `step`, drawn at position `index` of `count` rows. */
  function RenderRow(step: TimelineStep, index: nat, count: nat): (row: Row)
    ensures row.connector <==> index + 1 < count
    ensures row.badge == Verified <==> step.status
    ensures row.date.Some? <==> step.status
    ensures row.date.Some? ==> row.date.value == step.date
  {
    Row(step.title, step.description, step.location, step.icon,
        index < count - 1,
        if step.status then Verified else Pending,
        if step.status then Some(step.date) else None)
  }

  /** `steps.map((step, index) => ...)` in `Timeline`. */
  function RenderTimeline(steps: seq<TimelineStep>): (rows: seq<Row>)
    ensures |rows| == |steps|
    ensures forall i :: 0 <= i < |steps| ==> (rows[i].connector <==> i != |steps| - 1)
    ensures forall i :: 0 <= i < |steps| ==> (rows[i].badge == Verified <==> steps[i].status)
    ensures forall i :: 0 <= i < |steps| ==> (rows[i].date.Some? <==> steps[i].status)
    ensures forall i :: 0 <= i < |steps| && rows[i].date.Some? ==> rows[i].date.value == steps[i].date
    ensures forall i :: 0 <= i < |steps| ==>
      rows[i].title == steps[i].title && rows[i].location == steps[i].location && rows[i].icon == steps[i].icon
  {
    seq(|steps|, i requires 0 <= i < |steps| => RenderRow(steps[i], i, |steps|))
  }

  function CountConnectorless(rows: seq<Row>): nat
  {
    if rows == [] then 0
    else CountConnectorless(rows[..|rows| - 1]) + (if rows[|rows| - 1].connector then 0 else 1)
  }

  lemma {:induction false} ConnectorlessAllConnected(rows: seq<Row>)
    requires forall i :: 0 <= i < |rows| ==> rows[i].connector
    ensures CountConnectorless(rows) == 0
  {
    if rows != [] {
      ConnectorlessAllConnected(rows[..|rows| - 1]);
    }
  }

  /** A non-empty timeline has exactly one row without a connector, the last one. */
  lemma OneRowWithoutConnector(steps: seq<TimelineStep>)
    requires steps != []
    ensures CountConnectorless(RenderTimeline(steps)) == 1
  {
    var rows := RenderTimeline(steps);
    var front := rows[..|rows| - 1];
    ConnectorlessAllConnected(front);
  }
}
