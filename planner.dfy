/** The trip-timeline synthesis of components/AIPlannerCard.tsx: from a
    suggested plan, the stops, the per-leg travel minutes and distances and the
    fixed meal and visit defaults, it builds the ordered Breakfast / Visit /
    Lunch / Travel / Dinner steps, labels each with the wall-clock time it
    begins, and computes the visit, meal and trip totals and a start-time
    recommendation. The component's travel effect, which turns routed legs into
    minutes and kilometres, is the class PlannerCard. */
module Planner {
  import opened Types
  import opened Clock
  import Osrm

  const DefaultVisitMinutes := 60
  /** Stands in for a leg whose routed minutes are not (yet) known. */
  const DefaultTravelMinutes := 45
  const BreakfastMinutes := 30
  const LunchMinutes := 45
  const DinnerMinutes := 60

  /** The localised texts the timeline uses. */
  datatype PlannerLabels = PlannerLabels(
    breakfastLabel: string,
    lunchLabel: string,
    dinnerLabel: string,
    mealLabel: string,
    visitLabel: string,
    travelLabel: string)

  datatype Icon = TravelIcon | VisitIcon | MealIcon

  /** A timeline step before it gets its time label. */
  datatype Step = Step(id: string, icon: Icon, title: string, subtitle: string, minutes: int, distanceKm: Option<real>)

  datatype TimedStep = TimedStep(step: Step, timeLabel: string)

  /** A stop of the plan's order with its display name and visit minutes. */
  datatype Stop = Stop(id: string, name: string, minutes: int)

  /** What the timeline is built from: the plan, the current stops (for names), and the travel
      state of the component (`travelMinutes`, `travelDistancesKm`). */
  datatype TimelineInput = TimelineInput(
    plan: OptimizedTrip,
    locations: seq<Location>,
    travelMinutes: seq<int>,
    travelDistancesKm: seq<real>,
    labels: PlannerLabels)

  // ---------------------------------------------------------------------------
  // Lookups: `new Map(pairs).get(key)`, where a later pair overwrites an earlier one

  /** The name of the last stop with the id, as `buildNameMap(locations).get(id)` finds it. */
  function LastName(locations: seq<Location>, id: string): (r: Option<string>)
    ensures r.None? <==> !HasId(locations, id)
    ensures r.Some? ==> exists k :: 0 <= k < |locations| && locations[k].id == id && locations[k].name == r.value
                                    && forall j :: k < j < |locations| ==> locations[j].id != id
  {
    if locations == [] then None
    else if locations[|locations| - 1].id == id then Some(locations[|locations| - 1].name)
    else
      var r := LastName(locations[..|locations| - 1], id);
      assert HasId(locations, id) ==> HasId(locations[..|locations| - 1], id);
      r
  }

  /** `nameMap.get(id) ?? id` */
  function NameOf(locations: seq<Location>, id: string): string
  {
    LastName(locations, id).GetOr(id)
  }

  /** The minutes of the last estimate for the id, as the plan's estimate map holds them. */
  function LastEstimate(estimates: seq<TimeEstimate>, id: string): (r: Option<int>)
    ensures r.None? <==> forall k :: 0 <= k < |estimates| ==> estimates[k].id != id
    ensures r.Some? ==> exists k :: 0 <= k < |estimates| && estimates[k] == TimeEstimate(id, r.value)
                                    && forall j :: k < j < |estimates| ==> estimates[j].id != id
  {
    if estimates == [] then None
    else if estimates[|estimates| - 1].id == id then Some(estimates[|estimates| - 1].minutes)
    else LastEstimate(estimates[..|estimates| - 1], id)
  }

  /** `timeMap.get(id) ?? DEFAULT_VISIT_MINUTES` */
  function VisitMinutes(plan: OptimizedTrip, id: string): int
  {
    LastEstimate(plan.timeEstimates, id).GetOr(DefaultVisitMinutes)
  }

  /** A stop's visit minutes are its estimate, the last one when the id is estimated more than
      once, and 60 when it has none. */
  lemma VisitMinutesLastEstimateWins(plan: OptimizedTrip, id: string)
    ensures (forall k :: 0 <= k < |plan.timeEstimates| ==> plan.timeEstimates[k].id != id)
            ==> VisitMinutes(plan, id) == DefaultVisitMinutes
    ensures forall k :: 0 <= k < |plan.timeEstimates| && plan.timeEstimates[k].id == id
                        && (forall j :: k < j < |plan.timeEstimates| ==> plan.timeEstimates[j].id != id)
                        ==> VisitMinutes(plan, id) == plan.timeEstimates[k].minutes
  {
    var estimates := plan.timeEstimates;
    var r := LastEstimate(estimates, id);
    if r.Some? {
      var i :| 0 <= i < |estimates| && estimates[i] == TimeEstimate(id, r.value)
               && forall j :: i < j < |estimates| ==> estimates[j].id != id;
      forall k | 0 <= k < |estimates| && estimates[k].id == id
                 && (forall j :: k < j < |estimates| ==> estimates[j].id != id)
        ensures VisitMinutes(plan, id) == estimates[k].minutes
      {
        assert estimates[i].id == id;
        assert i == k;
      }
    }
  }

  /** `result.order.map((id) => ({ id, name: nameMap.get(id) ?? id, minutes: ... }))` over the
      ids given. */
  function StopsOf(plan: OptimizedTrip, locations: seq<Location>, ids: seq<string>): (stops: seq<Stop>)
    ensures |stops| == |ids|
    ensures forall i :: 0 <= i < |ids| ==>
      stops[i] == Stop(ids[i], NameOf(locations, ids[i]), VisitMinutes(plan, ids[i]))
  {
    if ids == [] then []
    else StopsOf(plan, locations, ids[..|ids| - 1]) + [Stop(ids[|ids| - 1], NameOf(locations, ids[|ids| - 1]), VisitMinutes(plan, ids[|ids| - 1]))]
  }

  /** `orderedStops`: one stop per id of the plan's order. */
  function OrderedStops(plan: OptimizedTrip, locations: seq<Location>): (stops: seq<Stop>)
    ensures |stops| == |plan.order|
  {
    StopsOf(plan, locations, plan.order)
  }

  // ---------------------------------------------------------------------------
  // The steps

  /** `suggestion || strings.mealLabel`: the suggestion, or the generic meal label when the
      suggestion is the empty (falsy) text. */
  function MealSubtitle(suggestion: string, labels: PlannerLabels): (r: string)
    ensures r == suggestion <==> suggestion != "" || labels.mealLabel == ""
    ensures r != suggestion ==> r == labels.mealLabel
    ensures r == "" <==> suggestion == "" && labels.mealLabel == ""
  {
    if suggestion == "" then labels.mealLabel else suggestion
  }

  function BreakfastStep(input: TimelineInput): Step
  {
    Step("meal-breakfast", MealIcon, input.labels.breakfastLabel,
         MealSubtitle(input.plan.mealSuggestions.breakfast, input.labels), BreakfastMinutes, None)
  }

  function LunchStep(input: TimelineInput): Step
  {
    Step("meal-lunch", MealIcon, input.labels.lunchLabel,
         MealSubtitle(input.plan.mealSuggestions.lunch, input.labels), LunchMinutes, None)
  }

  function DinnerStep(input: TimelineInput): Step
  {
    Step("meal-dinner", MealIcon, input.labels.dinnerLabel,
         MealSubtitle(input.plan.mealSuggestions.dinner, input.labels), DinnerMinutes, None)
  }

  function VisitStep(stop: Stop, labels: PlannerLabels): Step
  {
    Step("visit-" + stop.id, VisitIcon, stop.name, labels.visitLabel, stop.minutes, None)
  }

  /** `travelMinutes[i] ?? DEFAULT_TRAVEL_MINUTES` */
  function TravelMinutesAt(travelMinutes: seq<int>, i: nat): int
  {
    if i < |travelMinutes| then travelMinutes[i] else DefaultTravelMinutes
  }

  /** `travelDistancesKm[i]`, absent past the end */
  function DistanceAt(distances: seq<real>, i: nat): Option<real>
  {
    if i < |distances| then Some(distances[i]) else None
  }

  /** The leg from stop `i` to stop `i + 1`. */
  function TravelStep(input: TimelineInput, stops: seq<Stop>, i: nat): Step
    requires i + 1 < |stops|
  {
    Step("travel-" + stops[i].id + "-" + stops[i + 1].id, TravelIcon, input.labels.travelLabel,
         stops[i].name + " → " + stops[i + 1].name,
         TravelMinutesAt(input.travelMinutes, i), DistanceAt(input.travelDistancesKm, i))
  }

  /** `Math.max(1, Math.floor(n / 2))`: lunch follows the visit of stop `LunchInsertIndex(n) - 1`. */
  function LunchInsertIndex(n: nat): (r: nat)
    ensures 1 <= r && (n >= 1 ==> r <= n)
  {
    if n / 2 > 1 then n / 2 else 1
  }

  /** The shape of the timeline before its steps are filled in: which kind of step comes where,
      and which stop a visit or a leg belongs to. */
  datatype Slot = BreakfastSlot | VisitSlot(stop: nat) | LunchSlot | TravelSlot(from: nat) | DinnerSlot

  /** The slot names a stop (or a leg between two stops) among `n`. */
  predicate Fits(n: nat, slot: Slot)
  {
    match slot
    case VisitSlot(i) => i < n
    case TravelSlot(i) => i + 1 < n
    case _ => true
  }

  predicate AllFit(n: nat, slots: seq<Slot>)
  {
    forall p :: 0 <= p < |slots| ==> Fits(n, slots[p])
  }

  /** What the `forEach` pushes for stop `i` of `n`: its visit, lunch when it is stop
      `lunchAt - 1`, and the leg to the next stop unless it is the last. */
  function BlockSlots(n: nat, lunchAt: nat, i: nat): (r: seq<Slot>)
    requires i < n
    ensures AllFit(n, r)
  {
    [VisitSlot(i)]
    + (if i == lunchAt - 1 then [LunchSlot] else [])
    + (if i < n - 1 then [TravelSlot(i)] else [])
  }

  /** The blocks of the first `k` of `n` stops. */
  function BlocksSlots(n: nat, lunchAt: nat, k: nat): (r: seq<Slot>)
    requires k <= n
    ensures AllFit(n, r)
  {
    if k == 0 then [] else BlocksSlots(n, lunchAt, k - 1) + BlockSlots(n, lunchAt, k - 1)
  }

  /** Breakfast, the blocks of all `n` stops with lunch after stop `lunchAt - 1`, dinner. */
  function TimelineSlots(n: nat, lunchAt: nat): (r: seq<Slot>)
    ensures AllFit(n, r)
  {
    [BreakfastSlot] + BlocksSlots(n, lunchAt, n) + [DinnerSlot]
  }

  /** The step that fills a slot. */
  function StepOf(input: TimelineInput, stops: seq<Stop>, slot: Slot): Step
    requires Fits(|stops|, slot)
  {
    match slot
    case BreakfastSlot => BreakfastStep(input)
    case VisitSlot(i) => VisitStep(stops[i], input.labels)
    case LunchSlot => LunchStep(input)
    case TravelSlot(i) => TravelStep(input, stops, i)
    case DinnerSlot => DinnerStep(input)
  }

  /** The steps filling a list of slots, one each, in order. */
  function Render(input: TimelineInput, stops: seq<Stop>, slots: seq<Slot>): (r: seq<Step>)
    requires AllFit(|stops|, slots)
    ensures |r| == |slots|
  {
    if slots == [] then []
    else Render(input, stops, slots[..|slots| - 1]) + [StepOf(input, stops, slots[|slots| - 1])]
  }

  /** The step at each position is the one its slot calls for. */
  lemma {:induction false} RenderAt(input: TimelineInput, stops: seq<Stop>, slots: seq<Slot>, p: nat)
    requires AllFit(|stops|, slots) && p < |slots|
    ensures Render(input, stops, slots)[p] == StepOf(input, stops, slots[p])
  {
    if p < |slots| - 1 {
      var init := slots[..|slots| - 1];
      assert AllFit(|stops|, init) by {
        assert forall q :: 0 <= q < |init| ==> init[q] == slots[q];
      }
      RenderAt(input, stops, init, p);
    }
  }

  /** Filling one more slot appends its step. */
  lemma RenderPush(input: TimelineInput, stops: seq<Stop>, slots: seq<Slot>, slot: Slot)
    requires AllFit(|stops|, slots) && Fits(|stops|, slot)
    ensures AllFit(|stops|, slots + [slot])
    ensures Render(input, stops, slots + [slot]) == Render(input, stops, slots) + [StepOf(input, stops, slot)]
  {
    assert (slots + [slot])[..|slots|] == slots;
  }

  /** The specification of the step list: breakfast, the blocks of all stops, dinner. */
  function TimelineSteps(input: TimelineInput): seq<Step>
  {
    var stops := OrderedStops(input.plan, input.locations);
    Render(input, stops, TimelineSlots(|stops|, LunchInsertIndex(|stops|)))
  }

  /** The slots after one turn of the `forEach` over stop `i`, pushed one by one. */
  function PushBlock(slots: seq<Slot>, n: nat, lunchAt: nat, i: nat): seq<Slot>
  {
    var withVisit := slots + [VisitSlot(i)];
    var withLunch := if i == lunchAt - 1 then withVisit + [LunchSlot] else withVisit;
    if i < n - 1 then withLunch + [TravelSlot(i)] else withLunch
  }

  /** A turn of the `forEach` appends the stop's block to breakfast and the earlier blocks. */
  lemma PushBlockAppends(n: nat, lunchAt: nat, i: nat)
    requires i < n
    ensures PushBlock([BreakfastSlot] + BlocksSlots(n, lunchAt, i), n, lunchAt, i)
            == [BreakfastSlot] + BlocksSlots(n, lunchAt, i + 1)
  {
    var slots, blocks := [BreakfastSlot], BlocksSlots(n, lunchAt, i);
    assert slots + (blocks + BlockSlots(n, lunchAt, i)) == (slots + blocks) + BlockSlots(n, lunchAt, i);
    var v, l, t := VisitSlot(i), LunchSlot, TravelSlot(i);
    if i == lunchAt - 1 && i < n - 1 {
      assert BlockSlots(n, lunchAt, i) == [v, l, t];
    } else if i == lunchAt - 1 {
      assert BlockSlots(n, lunchAt, i) == [v, l];
    } else if i < n - 1 {
      assert BlockSlots(n, lunchAt, i) == [v, t];
    }
  }

  /** Before the `forEach` the list holds breakfast alone. */
  lemma RenderStart(input: TimelineInput, stops: seq<Stop>, lunchAt: nat)
    ensures Render(input, stops, [BreakfastSlot] + BlocksSlots(|stops|, lunchAt, 0)) == [BreakfastStep(input)]
  {
    assert [BreakfastSlot] + BlocksSlots(|stops|, lunchAt, 0) == [BreakfastSlot];
    assert [BreakfastSlot][..0] == [];
  }

  /** After the `forEach` only dinner is missing. */
  lemma RenderFinish(input: TimelineInput, stops: seq<Stop>, lunchAt: nat)
    ensures var n := |stops|;
      Render(input, stops, TimelineSlots(n, lunchAt))
      == Render(input, stops, [BreakfastSlot] + BlocksSlots(n, lunchAt, n)) + [DinnerStep(input)]
  {
    RenderPush(input, stops, [BreakfastSlot] + BlocksSlots(|stops|, lunchAt, |stops|), DinnerSlot);
  }

  /** The steps one turn of the `forEach` pushes for stop `i`: its visit, lunch after the chosen
      stop, and the leg to the next stop unless it is the last. */
  function TurnSteps(input: TimelineInput, stops: seq<Stop>, lunchAt: nat, i: nat): seq<Step>
    requires i < |stops|
  {
    [VisitStep(stops[i], input.labels)]
    + (if i == lunchAt - 1 then [LunchStep(input)] else [])
    + (if i < |stops| - 1 then [TravelStep(input, stops, i)] else [])
  }

  /** Rendering distributes over joined slot lists. */
  lemma {:induction false} RenderAppend(input: TimelineInput, stops: seq<Stop>, a: seq<Slot>, b: seq<Slot>)
    requires AllFit(|stops|, a) && AllFit(|stops|, b)
    ensures AllFit(|stops|, a + b)
    ensures Render(input, stops, a + b) == Render(input, stops, a) + Render(input, stops, b)
  {
    forall p | 0 <= p < |a + b|
      ensures Fits(|stops|, (a + b)[p])
    {
      if p >= |a| {
        assert (a + b)[p] == b[p - |a|];
      }
    }
    if b == [] {
      assert a + b == a;
    } else {
      var init, last := b[..|b| - 1], b[|b| - 1];
      assert AllFit(|stops|, init) by {
        assert forall q :: 0 <= q < |init| ==> init[q] == b[q];
      }
      RenderAppend(input, stops, a, init);
      assert (a + b)[..|a + b| - 1] == a + init;
      assert (a + b)[|a + b| - 1] == last;
      var step := [StepOf(input, stops, last)];
      calc {
        Render(input, stops, a + b);
        Render(input, stops, a + init) + step;
        (Render(input, stops, a) + Render(input, stops, init)) + step;
        Render(input, stops, a) + (Render(input, stops, init) + step);
        Render(input, stops, a) + Render(input, stops, b);
      }
    }
  }

  /** A stop's block renders as the steps its turn pushes. */
  lemma RenderBlock(input: TimelineInput, stops: seq<Stop>, lunchAt: nat, i: nat)
    requires i < |stops|
    ensures Render(input, stops, BlockSlots(|stops|, lunchAt, i)) == TurnSteps(input, stops, lunchAt, i)
  {
    var n := |stops|;
    var v := [VisitSlot(i)];
    var l := if i == lunchAt - 1 then [LunchSlot] else [];
    var t := if i < n - 1 then [TravelSlot(i)] else [];
    assert BlockSlots(n, lunchAt, i) == v + l + t;
    RenderAppend(input, stops, v + l, t);
    RenderAppend(input, stops, v, l);
    assert [VisitSlot(i)][..0] == [];
    assert Render(input, stops, v) == [VisitStep(stops[i], input.labels)];
    if l != [] {
      assert [LunchSlot][..0] == [];
    }
    if t != [] {
      assert [TravelSlot(i)][..0] == [];
    }
  }

  /** A turn renders the stop's block after the earlier ones. */
  lemma RenderTurn(input: TimelineInput, stops: seq<Stop>, lunchAt: nat, i: nat)
    requires i < |stops|
    ensures Render(input, stops, [BreakfastSlot] + BlocksSlots(|stops|, lunchAt, i + 1))
            == Render(input, stops, [BreakfastSlot] + BlocksSlots(|stops|, lunchAt, i)) + TurnSteps(input, stops, lunchAt, i)
  {
    var n := |stops|;
    var head, blocks, block := [BreakfastSlot], BlocksSlots(n, lunchAt, i), BlockSlots(n, lunchAt, i);
    assert head + BlocksSlots(n, lunchAt, i + 1) == (head + blocks) + block;
    RenderAppend(input, stops, head + blocks, block);
    RenderBlock(input, stops, lunchAt, i);
  }

  /** One call of the `forEach` callback for stop `index`: it pushes the visit, then lunch after
      the chosen stop, then the leg to the next stop unless this is the last. */
  method PushStop(steps: seq<Step>, input: TimelineInput, orderedStops: seq<Stop>, lunchInsertIndex: nat, index: nat)
    returns (pushed: seq<Step>)
    requires index < |orderedStops|
    ensures pushed == steps + TurnSteps(input, orderedStops, lunchInsertIndex, index)
  {
    pushed := steps + [VisitStep(orderedStops[index], input.labels)];
    if index == lunchInsertIndex - 1 {
      pushed := pushed + [LunchStep(input)];
    }
    if index < |orderedStops| - 1 {
      pushed := pushed + [TravelStep(input, orderedStops, index)];
    }
  }

  /** The list after breakfast and the turns for the first `k` stops. */
  function Pushed(input: TimelineInput, stops: seq<Stop>, lunchAt: nat, k: nat): seq<Step>
    requires k <= |stops|
  {
    if k == 0 then [BreakfastStep(input)] else Pushed(input, stops, lunchAt, k - 1) + TurnSteps(input, stops, lunchAt, k - 1)
  }

  /** One more turn keeps the list equal to the rendering of the blocks so far. */
  lemma PushedStep(input: TimelineInput, stops: seq<Stop>, lunchAt: nat, k: nat)
    requires 1 <= k <= |stops|
    requires Pushed(input, stops, lunchAt, k - 1)
             == Render(input, stops, [BreakfastSlot] + BlocksSlots(|stops|, lunchAt, k - 1))
    ensures Pushed(input, stops, lunchAt, k) == Render(input, stops, [BreakfastSlot] + BlocksSlots(|stops|, lunchAt, k))
  {
    assert Pushed(input, stops, lunchAt, k) == Pushed(input, stops, lunchAt, k - 1) + TurnSteps(input, stops, lunchAt, k - 1);
    RenderTurn(input, stops, lunchAt, k - 1);
  }

  /** Breakfast and the first `k` turns are the rendering of breakfast and the first `k` blocks. */
  lemma {:induction false} PushedIsRendered(input: TimelineInput, stops: seq<Stop>, lunchAt: nat, k: nat)
    requires k <= |stops|
    ensures Pushed(input, stops, lunchAt, k) == Render(input, stops, [BreakfastSlot] + BlocksSlots(|stops|, lunchAt, k))
  {
    if k == 0 {
      RenderStart(input, stops, lunchAt);
    } else {
      PushedIsRendered(input, stops, lunchAt, k - 1);
      PushedStep(input, stops, lunchAt, k);
    }
  }

  /** The step list as the component assembles it from the ordered stops, pushing step by
      step. */
  method BuildSteps(input: TimelineInput, orderedStops: seq<Stop>) returns (steps: seq<Step>)
    ensures steps == Render(input, orderedStops, TimelineSlots(|orderedStops|, LunchInsertIndex(|orderedStops|)))
  {
    var n := |orderedStops|;
    var lunchInsertIndex := LunchInsertIndex(n);
    steps := [BreakfastStep(input)];
    var index := 0;
    while index < n
      invariant 0 <= index <= n
      invariant steps == Pushed(input, orderedStops, lunchInsertIndex, index)
    {
      steps := PushStop(steps, input, orderedStops, lunchInsertIndex, index);
      index := index + 1;
    }
    PushedIsRendered(input, orderedStops, lunchInsertIndex, n);
    RenderFinish(input, orderedStops, lunchInsertIndex);
    steps := steps + [DinnerStep(input)];
  }

  // ---------------------------------------------------------------------------
  // Where each step lands

  /** The number of legs among the first `k` of `n` stops' blocks. */
  function TravelsBefore(n: nat, k: nat): nat
  {
    if k == n && n > 0 then k - 1 else k
  }

  /** The length of the first `k` blocks; block `k` starts there. */
  function BlocksLength(n: nat, lunchAt: nat, k: nat): nat
  {
    k + TravelsBefore(n, k) + (if k >= lunchAt then 1 else 0)
  }

  lemma BlockSlotsLength(n: nat, lunchAt: nat, i: nat)
    requires 1 <= lunchAt && i < n
    ensures BlocksLength(n, lunchAt, i) + |BlockSlots(n, lunchAt, i)| == BlocksLength(n, lunchAt, i + 1)
  {
  }

  /** The first `k` blocks are `BlocksLength(n, lunchAt, k)` slots long. */
  lemma {:induction false} BlocksSlotsLength(n: nat, lunchAt: nat, k: nat)
    requires 1 <= lunchAt && k <= n
    ensures |BlocksSlots(n, lunchAt, k)| == BlocksLength(n, lunchAt, k)
  {
    if k > 0 {
      BlocksSlotsLength(n, lunchAt, k - 1);
      BlockSlotsLength(n, lunchAt, k - 1);
    }
  }

  /** Among the first `k` blocks, slot `j` of block `i` sits at `BlocksLength(n, lunchAt, i) + j`. */
  lemma {:induction false} BlockSlotAt(n: nat, lunchAt: nat, k: nat, i: nat, j: nat)
    requires 1 <= lunchAt && i < k <= n && j < |BlockSlots(n, lunchAt, i)|
    ensures BlocksLength(n, lunchAt, i) + j < |BlocksSlots(n, lunchAt, k)|
    ensures BlocksSlots(n, lunchAt, k)[BlocksLength(n, lunchAt, i) + j] == BlockSlots(n, lunchAt, i)[j]
  {
    var prefix, block := BlocksSlots(n, lunchAt, k - 1), BlockSlots(n, lunchAt, k - 1);
    BlocksSlotsLength(n, lunchAt, k - 1);
    BlockSlotsLength(n, lunchAt, k - 1);
    assert BlocksSlots(n, lunchAt, k) == prefix + block;
    var at := BlocksLength(n, lunchAt, i) + j;
    if i == k - 1 {
      assert at == |prefix| + j;
    } else {
      BlockSlotAt(n, lunchAt, k - 1, i, j);
      assert (prefix + block)[at] == prefix[at];
    }
  }

  /** The position of stop `i`'s visit in the timeline: each earlier stop took a visit and a
      leg, plus one for breakfast and one for lunch once lunch has passed. */
  function VisitPosition(lunchAt: nat, i: nat): nat
  {
    1 + 2 * i + (if i >= lunchAt then 1 else 0)
  }

  /** The position of the leg leaving stop `i`. */
  function TravelPosition(lunchAt: nat, i: nat): nat
  {
    VisitPosition(lunchAt, i) + 1 + (if i == lunchAt - 1 then 1 else 0)
  }

  lemma InBlock(n: nat, lunchAt: nat, i: nat, j: nat)
    requires 1 <= lunchAt && i < n && j < |BlockSlots(n, lunchAt, i)|
    ensures 1 + BlocksLength(n, lunchAt, i) + j < |TimelineSlots(n, lunchAt)|
    ensures TimelineSlots(n, lunchAt)[1 + BlocksLength(n, lunchAt, i) + j] == BlockSlots(n, lunchAt, i)[j]
  {
    var blocks := BlocksSlots(n, lunchAt, n);
    BlockSlotAt(n, lunchAt, n, i, j);
    var at := BlocksLength(n, lunchAt, i) + j;
    assert TimelineSlots(n, lunchAt)[1 + at] == blocks[at];
  }

  /** Breakfast first and dinner last, `2n + 2` slots in all (two with no stops). */
  lemma SlotEnds(n: nat, lunchAt: nat)
    requires 1 <= lunchAt && (n >= 1 ==> lunchAt <= n)
    ensures var slots := TimelineSlots(n, lunchAt);
      && |slots| == (if n == 0 then 2 else 2 * n + 2)
      && slots[0] == BreakfastSlot
      && slots[|slots| - 1] == DinnerSlot
  {
    BlocksSlotsLength(n, lunchAt, n);
  }

  /** Each stop's visit sits at its position. */
  lemma VisitSlotAt(n: nat, lunchAt: nat, i: nat)
    requires 1 <= lunchAt && i < n
    ensures VisitPosition(lunchAt, i) < |TimelineSlots(n, lunchAt)|
    ensures TimelineSlots(n, lunchAt)[VisitPosition(lunchAt, i)] == VisitSlot(i)
  {
    InBlock(n, lunchAt, i, 0);
  }

  /** The leg out of stop `i` sits right before the visit of stop `i + 1`. */
  lemma TravelSlotAt(n: nat, lunchAt: nat, i: nat)
    requires 1 <= lunchAt && i + 1 < n
    ensures TravelPosition(lunchAt, i) + 1 == VisitPosition(lunchAt, i + 1)
    ensures TravelPosition(lunchAt, i) < |TimelineSlots(n, lunchAt)|
    ensures TimelineSlots(n, lunchAt)[TravelPosition(lunchAt, i)] == TravelSlot(i)
  {
    InBlock(n, lunchAt, i, if i == lunchAt - 1 then 2 else 1);
  }

  /** Lunch sits right after the visit of stop `lunchAt - 1`. */
  lemma LunchSlotAt(n: nat, lunchAt: nat)
    requires 1 <= lunchAt <= n
    ensures VisitPosition(lunchAt, lunchAt - 1) + 1 == 2 * lunchAt < |TimelineSlots(n, lunchAt)|
    ensures TimelineSlots(n, lunchAt)[2 * lunchAt] == LunchSlot
  {
    InBlock(n, lunchAt, lunchAt - 1, 1);
  }

  /** Stop `i`'s visit step: its id, its name and its visit minutes. */
  lemma VisitStepAt(input: TimelineInput, i: nat)
    requires i < |input.plan.order|
    ensures var position := VisitPosition(LunchInsertIndex(|input.plan.order|), i);
      && position < |TimelineSteps(input)|
      && TimelineSteps(input)[position]
         == Step("visit-" + input.plan.order[i], VisitIcon, NameOf(input.locations, input.plan.order[i]),
                 input.labels.visitLabel, VisitMinutes(input.plan, input.plan.order[i]), None)
  {
    var n := |input.plan.order|;
    var lunchAt := LunchInsertIndex(n);
    VisitSlotAt(n, lunchAt, i);
    RenderAt(input, OrderedStops(input.plan, input.locations), TimelineSlots(n, lunchAt), VisitPosition(lunchAt, i));
  }

  /** The leg between stop `i` and stop `i + 1` comes right before stop `i + 1`'s visit and
      carries the routed minutes of leg `i` (45 when they are not known) and its distance. */
  lemma TravelStepAt(input: TimelineInput, i: nat)
    requires i + 1 < |input.plan.order|
    ensures var lunchAt := LunchInsertIndex(|input.plan.order|);
      var order := input.plan.order;
      && TravelPosition(lunchAt, i) + 1 == VisitPosition(lunchAt, i + 1)
      && VisitPosition(lunchAt, i + 1) < |TimelineSteps(input)|
      && var step := TimelineSteps(input)[TravelPosition(lunchAt, i)];
      && step.id == "travel-" + order[i] + "-" + order[i + 1]
      && step.icon == TravelIcon
      && step.minutes == (if i < |input.travelMinutes| then input.travelMinutes[i] else DefaultTravelMinutes)
      && step.distanceKm == (if i < |input.travelDistancesKm| then Some(input.travelDistancesKm[i]) else None)
  {
    var n := |input.plan.order|;
    var lunchAt := LunchInsertIndex(n);
    TravelSlotAt(n, lunchAt, i);
    VisitSlotAt(n, lunchAt, i + 1);
    RenderAt(input, OrderedStops(input.plan, input.locations), TimelineSlots(n, lunchAt), TravelPosition(lunchAt, i));
  }

  /** Lunch comes right after the visit of stop `max(1, n / 2) - 1`, and is followed by that
      stop's outgoing leg, or by dinner when there is a single stop. */
  lemma LunchPlacement(input: TimelineInput)
    requires |input.plan.order| >= 1
    ensures var n := |input.plan.order|;
      var lunchAt := LunchInsertIndex(n);
      var steps := TimelineSteps(input);
      && 2 * lunchAt + 1 < |steps|
      && steps[2 * lunchAt - 1].id == "visit-" + input.plan.order[lunchAt - 1]
      && steps[2 * lunchAt] == LunchStep(input)
      && (n >= 2 ==> steps[2 * lunchAt + 1].icon == TravelIcon
                     && steps[2 * lunchAt + 1].id == "travel-" + input.plan.order[lunchAt - 1] + "-" + input.plan.order[lunchAt])
      && (n == 1 ==> steps[2 * lunchAt + 1] == DinnerStep(input))
  {
    LunchStepAt(input);
    VisitBeforeLunch(input);
    if |input.plan.order| >= 2 {
      LegAfterLunch(input);
    } else {
      DinnerStepAt(input);
    }
  }

  /** The step right before lunch is the visit of the stop lunch follows. */
  lemma VisitBeforeLunch(input: TimelineInput)
    requires |input.plan.order| >= 1
    ensures var lunchAt := LunchInsertIndex(|input.plan.order|);
      && 2 * lunchAt - 1 < |TimelineSteps(input)|
      && TimelineSteps(input)[2 * lunchAt - 1].id == "visit-" + input.plan.order[lunchAt - 1]
  {
    var lunchAt := LunchInsertIndex(|input.plan.order|);
    assert VisitPosition(lunchAt, lunchAt - 1) == 2 * lunchAt - 1;
    VisitStepAt(input, lunchAt - 1);
  }

  /** With two or more stops, the step right after lunch is the leg out of the stop lunch follows. */
  lemma LegAfterLunch(input: TimelineInput)
    requires |input.plan.order| >= 2
    ensures var lunchAt := LunchInsertIndex(|input.plan.order|);
      var order := input.plan.order;
      && lunchAt < |order|
      && 2 * lunchAt + 1 < |TimelineSteps(input)|
      && TimelineSteps(input)[2 * lunchAt + 1].icon == TravelIcon
      && TimelineSteps(input)[2 * lunchAt + 1].id == "travel-" + order[lunchAt - 1] + "-" + order[lunchAt]
  {
    var lunchAt := LunchInsertIndex(|input.plan.order|);
    assert TravelPosition(lunchAt, lunchAt - 1) == 2 * lunchAt + 1;
    TravelStepAt(input, lunchAt - 1);
  }

  /** The lunch step fills the lunch slot. */
  lemma LunchStepAt(input: TimelineInput)
    requires |input.plan.order| >= 1
    ensures var lunchAt := LunchInsertIndex(|input.plan.order|);
      2 * lunchAt < |TimelineSteps(input)| && TimelineSteps(input)[2 * lunchAt] == LunchStep(input)
  {
    var n := |input.plan.order|;
    var lunchAt := LunchInsertIndex(n);
    LunchSlotAt(n, lunchAt);
    RenderAt(input, OrderedStops(input.plan, input.locations), TimelineSlots(n, lunchAt), 2 * lunchAt);
  }

  /** With a single stop, dinner comes right after lunch. */
  lemma DinnerStepAt(input: TimelineInput)
    requires |input.plan.order| == 1
    ensures |TimelineSteps(input)| == 4 && TimelineSteps(input)[3] == DinnerStep(input)
  {
    SlotEnds(1, 1);
    RenderAt(input, OrderedStops(input.plan, input.locations), TimelineSlots(1, 1), 3);
  }

  // ---------------------------------------------------------------------------
  // Counting the steps

  /** What can be counted over a list of steps: the steps with an icon, or their minutes. */
  datatype Measure = Count(icon: Icon) | Minutes(icon: Icon)

  /** A step counts under its own icon only. */
  function StepMeasure(m: Measure, step: Step): int
  {
    if step.icon != m.icon then 0 else if m.Count? then 1 else step.minutes
  }

  function Measured(m: Measure, steps: seq<Step>): int
  {
    if steps == [] then 0 else Measured(m, steps[..|steps| - 1]) + StepMeasure(m, steps[|steps| - 1])
  }

  /** The minutes of all steps. */
  function SumMinutes(steps: seq<Step>): int
  {
    if steps == [] then 0 else SumMinutes(steps[..|steps| - 1]) + steps[|steps| - 1].minutes
  }

  /** Every step is a visit, a leg or a meal, so the whole duration splits into the three. */
  lemma {:induction false} SumMinutesByKind(steps: seq<Step>)
    ensures SumMinutes(steps)
            == Measured(Minutes(VisitIcon), steps) + Measured(Minutes(TravelIcon), steps)
               + Measured(Minutes(MealIcon), steps)
  {
    if steps != [] {
      SumMinutesByKind(steps[..|steps| - 1]);
    }
  }

  /** The visit minutes of the ids given, summed as `totalVisitMinutes` sums them. */
  function VisitSum(plan: OptimizedTrip, ids: seq<string>): int
  {
    if ids == [] then 0 else VisitSum(plan, ids[..|ids| - 1]) + VisitMinutes(plan, ids[|ids| - 1])
  }

  /** `totalVisitMinutes` of a plan */
  function TotalVisitMinutes(plan: OptimizedTrip): int
  {
    VisitSum(plan, plan.order)
  }

  /** The minutes of the first `k` legs as the timeline shows them. */
  function TravelSum(travelMinutes: seq<int>, k: nat): int
  {
    if k == 0 then 0 else TravelSum(travelMinutes, k - 1) + TravelMinutesAt(travelMinutes, k - 1)
  }

  /** The visit minutes of the first `k` stops. */
  function StopsMinutes(stops: seq<Stop>, k: nat): int
    requires k <= |stops|
  {
    if k == 0 then 0 else StopsMinutes(stops, k - 1) + stops[k - 1].minutes
  }

  /** The ordered stops carry the plan's visit minutes. */
  lemma {:induction false} StopsMinutesAreVisitSum(plan: OptimizedTrip, locations: seq<Location>, k: nat)
    requires k <= |plan.order|
    ensures StopsMinutes(OrderedStops(plan, locations), k) == VisitSum(plan, plan.order[..k])
  {
    if k > 0 {
      StopsMinutesAreVisitSum(plan, locations, k - 1);
      assert plan.order[..k][..k - 1] == plan.order[..k - 1];
    }
  }

  /** The icon of the step a slot is filled with. */
  function SlotIcon(slot: Slot): Icon
  {
    match slot
    case VisitSlot(_) => VisitIcon
    case TravelSlot(_) => TravelIcon
    case _ => MealIcon
  }

  /** The minutes of the step a slot is filled with (a stop out of range, which no timeline
      holds, counts none). */
  function SlotMinutes(travelMinutes: seq<int>, stops: seq<Stop>, slot: Slot): int
  {
    match slot
    case BreakfastSlot => BreakfastMinutes
    case VisitSlot(i) => if i < |stops| then stops[i].minutes else 0
    case LunchSlot => LunchMinutes
    case TravelSlot(i) => TravelMinutesAt(travelMinutes, i)
    case DinnerSlot => DinnerMinutes
  }

  function SlotMeasure(m: Measure, travelMinutes: seq<int>, stops: seq<Stop>, slot: Slot): int
  {
    if SlotIcon(slot) != m.icon then 0 else if m.Count? then 1 else SlotMinutes(travelMinutes, stops, slot)
  }

  function SlotsMeasure(m: Measure, travelMinutes: seq<int>, stops: seq<Stop>, slots: seq<Slot>): int
  {
    if slots == [] then 0
    else SlotsMeasure(m, travelMinutes, stops, slots[..|slots| - 1])
         + SlotMeasure(m, travelMinutes, stops, slots[|slots| - 1])
  }

  /** The step filling a slot counts as the slot says. */
  lemma StepMeasureOfSlot(m: Measure, input: TimelineInput, stops: seq<Stop>, slot: Slot)
    requires Fits(|stops|, slot)
    ensures StepMeasure(m, StepOf(input, stops, slot)) == SlotMeasure(m, input.travelMinutes, stops, slot)
  {
  }

  /** The steps filling the slots count as the slots say. */
  lemma {:induction false} RenderMeasure(m: Measure, input: TimelineInput, stops: seq<Stop>, slots: seq<Slot>)
    requires AllFit(|stops|, slots)
    ensures Measured(m, Render(input, stops, slots)) == SlotsMeasure(m, input.travelMinutes, stops, slots)
  {
    if slots != [] {
      var init, last := slots[..|slots| - 1], slots[|slots| - 1];
      RenderMeasure(m, input, stops, init);
      StepMeasureOfSlot(m, input, stops, last);
      var r := Render(input, stops, slots);
      assert r[..|r| - 1] == Render(input, stops, init);
    }
  }

  /** Counting splits over concatenation. */
  lemma {:induction false} SlotsMeasureAppend(m: Measure, travelMinutes: seq<int>, stops: seq<Stop>, a: seq<Slot>, b: seq<Slot>)
    ensures SlotsMeasure(m, travelMinutes, stops, a + b)
            == SlotsMeasure(m, travelMinutes, stops, a) + SlotsMeasure(m, travelMinutes, stops, b)
  {
    if b == [] {
      assert a + b == a;
    } else {
      assert (a + b)[..|a + b| - 1] == a + b[..|b| - 1];
      SlotsMeasureAppend(m, travelMinutes, stops, a, b[..|b| - 1]);
    }
  }

  /** What stop `i`'s block should count: its visit, lunch when it is the chosen stop, and the
      leg out of it unless it is the last stop. */
  function BlockExpected(m: Measure, travelMinutes: seq<int>, stops: seq<Stop>, lunchAt: nat, i: nat): int
    requires i < |stops|
  {
    SlotMeasure(m, travelMinutes, stops, VisitSlot(i))
    + (if i == lunchAt - 1 then SlotMeasure(m, travelMinutes, stops, LunchSlot) else 0)
    + (if i < |stops| - 1 then SlotMeasure(m, travelMinutes, stops, TravelSlot(i)) else 0)
  }

  /** One stop's block counts as expected. */
  lemma BlockMeasure(m: Measure, travelMinutes: seq<int>, stops: seq<Stop>, lunchAt: nat, i: nat)
    requires i < |stops|
    ensures SlotsMeasure(m, travelMinutes, stops, BlockSlots(|stops|, lunchAt, i))
            == BlockExpected(m, travelMinutes, stops, lunchAt, i)
  {
    var block := BlockSlots(|stops|, lunchAt, i);
    var v, l, t := VisitSlot(i), LunchSlot, TravelSlot(i);
    assert [v][..0] == [];
    assert SlotsMeasure(m, travelMinutes, stops, [v]) == SlotMeasure(m, travelMinutes, stops, v);
    if i == lunchAt - 1 && i < |stops| - 1 {
      assert block == [v, l, t];
      assert [v, l, t][..2] == [v, l] && [v, l][..1] == [v];
    } else if i == lunchAt - 1 {
      assert block == [v, l];
      assert [v, l][..1] == [v];
    } else if i < |stops| - 1 {
      assert block == [v, t];
      assert [v, t][..1] == [v];
    } else {
      assert block == [v];
    }
  }

  /** What the first `k` of `n` stops' blocks hold when lunch follows stop `lunchAt - 1`: `k`
      visits with the stops' minutes, a leg out of each but the last stop, and lunch once its
      stop is among them. */
  function BlocksExpected(m: Measure, travelMinutes: seq<int>, stops: seq<Stop>, lunchAt: nat, k: nat): int
    requires k <= |stops|
  {
    var lunches := if k >= lunchAt then 1 else 0;
    var legs := TravelsBefore(|stops|, k);
    match m
    case Count(VisitIcon) => k
    case Count(TravelIcon) => legs
    case Count(MealIcon) => lunches
    case Minutes(VisitIcon) => StopsMinutes(stops, k)
    case Minutes(TravelIcon) => TravelSum(travelMinutes, legs)
    case Minutes(MealIcon) => if lunches == 1 then LunchMinutes else 0
  }

  /** Each block adds its visit, its lunch if any and its leg if any to the expected counts. */
  lemma BlocksExpectedStep(m: Measure, travelMinutes: seq<int>, stops: seq<Stop>, lunchAt: nat, k: nat)
    requires 1 <= lunchAt && 1 <= k <= |stops|
    ensures BlocksExpected(m, travelMinutes, stops, lunchAt, k)
            == BlocksExpected(m, travelMinutes, stops, lunchAt, k - 1)
               + BlockExpected(m, travelMinutes, stops, lunchAt, k - 1)
  {
  }

  lemma {:induction false} BlocksMeasure(m: Measure, travelMinutes: seq<int>, stops: seq<Stop>, lunchAt: nat, k: nat)
    requires 1 <= lunchAt && k <= |stops|
    ensures SlotsMeasure(m, travelMinutes, stops, BlocksSlots(|stops|, lunchAt, k))
            == BlocksExpected(m, travelMinutes, stops, lunchAt, k)
  {
    if k > 0 {
      var n := |stops|;
      BlocksMeasure(m, travelMinutes, stops, lunchAt, k - 1);
      SlotsMeasureAppend(m, travelMinutes, stops, BlocksSlots(n, lunchAt, k - 1), BlockSlots(n, lunchAt, k - 1));
      BlockMeasure(m, travelMinutes, stops, lunchAt, k - 1);
      BlocksExpectedStep(m, travelMinutes, stops, lunchAt, k);
    }
  }

  /** What a whole timeline of `n` stops holds: `n` visits with the stops' minutes, `n - 1`
      legs with the routed (or default) minutes, and the three meals, lunch only when there is
      a stop to have it after. */
  function TimelineExpected(m: Measure, travelMinutes: seq<int>, stops: seq<Stop>): int
  {
    var n := |stops|;
    var lunches := if n >= 1 then 1 else 0;
    match m
    case Count(VisitIcon) => n
    case Count(TravelIcon) => TravelsBefore(n, n)
    case Count(MealIcon) => 2 + lunches
    case Minutes(VisitIcon) => StopsMinutes(stops, n)
    case Minutes(TravelIcon) => TravelSum(travelMinutes, TravelsBefore(n, n))
    case Minutes(MealIcon) => BreakfastMinutes + DinnerMinutes + (if lunches == 1 then LunchMinutes else 0)
  }

  /** The counts of a whole timeline's slots, from those of its blocks. */
  lemma TimelineSlotsMeasure(m: Measure, travelMinutes: seq<int>, stops: seq<Stop>, lunchAt: nat)
    requires 1 <= lunchAt && (|stops| >= 1 ==> lunchAt <= |stops|)
    ensures SlotsMeasure(m, travelMinutes, stops, TimelineSlots(|stops|, lunchAt))
            == TimelineExpected(m, travelMinutes, stops)
  {
    var n := |stops|;
    BlocksMeasure(m, travelMinutes, stops, lunchAt, n);
    var b, d := [BreakfastSlot], [DinnerSlot];
    var blocks := BlocksSlots(n, lunchAt, n);
    SlotsMeasureAppend(m, travelMinutes, stops, b + blocks, d);
    SlotsMeasureAppend(m, travelMinutes, stops, b, blocks);
    assert b[..0] == [] && d[..0] == [];
  }

  /** The counts of the component's timeline. */
  lemma TimelineMeasure(m: Measure, input: TimelineInput)
    ensures Measured(m, TimelineSteps(input))
            == TimelineExpected(m, input.travelMinutes, OrderedStops(input.plan, input.locations))
  {
    var stops := OrderedStops(input.plan, input.locations);
    var lunchAt := LunchInsertIndex(|stops|);
    TimelineSlotsMeasure(m, input.travelMinutes, stops, lunchAt);
    RenderMeasure(m, input, stops, TimelineSlots(|stops|, lunchAt));
  }

  /** For `n >= 1` stops the timeline opens with breakfast and closes with dinner and holds
      exactly `n` visits, `n - 1` legs and three meals, `2n + 2` steps in all; with no stops it
      is breakfast and dinner alone. */
  lemma TimelineShape(input: TimelineInput)
    ensures var steps := TimelineSteps(input);
      var n := |input.plan.order|;
      && (n == 0 ==> steps == [BreakfastStep(input), DinnerStep(input)])
      && (n >= 1 ==>
            && |steps| == 2 * n + 2
            && steps[0] == BreakfastStep(input)
            && steps[|steps| - 1] == DinnerStep(input)
            && Measured(Count(VisitIcon), steps) == n
            && Measured(Count(TravelIcon), steps) == n - 1
            && Measured(Count(MealIcon), steps) == 3)
  {
    var stops := OrderedStops(input.plan, input.locations);
    var n := |stops|;
    var lunchAt := LunchInsertIndex(n);
    var slots := TimelineSlots(n, lunchAt);
    SlotEnds(n, lunchAt);
    RenderAt(input, stops, slots, 0);
    RenderAt(input, stops, slots, |slots| - 1);
    TimelineMeasure(Count(VisitIcon), input);
    TimelineMeasure(Count(TravelIcon), input);
    TimelineMeasure(Count(MealIcon), input);
  }

  /** The timeline lasts the three meals (135 minutes), the visits and the legs it shows. */
  lemma TimelineDuration(input: TimelineInput)
    requires |input.plan.order| >= 1
    ensures SumMinutes(TimelineSteps(input))
            == BreakfastMinutes + LunchMinutes + DinnerMinutes + TotalVisitMinutes(input.plan)
               + TravelSum(input.travelMinutes, |input.plan.order| - 1)
    ensures Measured(Minutes(VisitIcon), TimelineSteps(input)) == TotalVisitMinutes(input.plan)
  {
    TimelineMeasure(Minutes(VisitIcon), input);
    TimelineMeasure(Minutes(TravelIcon), input);
    TimelineMeasure(Minutes(MealIcon), input);
    SumMinutesByKind(TimelineSteps(input));
    StopsMinutesAreVisitSum(input.plan, input.locations, |input.plan.order|);
    assert input.plan.order[..|input.plan.order|] == input.plan.order;
  }

  // ---------------------------------------------------------------------------
  // Totals, clock base and start advice

  /** `totalMealMinutes`: the three meal durations, once there is a plan. */
  function TotalMealMinutes(result: Option<OptimizedTrip>): (r: Option<int>)
    ensures r == if result.Some? then Some(135) else None
  {
    if result.None? then None else Some(BreakfastMinutes + LunchMinutes + DinnerMinutes)
  }

  /** `totalTripMinutes`: unknown without a plan, while travel is loading or when the total
      travel time is unknown; otherwise travel + visits + meals. */
  function TotalTripMinutes(result: Option<OptimizedTrip>, isTravelLoading: bool, totalTravelMinutes: Option<int>): (r: Option<int>)
    ensures r.Some? <==> result.Some? && !isTravelLoading && totalTravelMinutes.Some?
    ensures r.Some? ==> r.value == totalTravelMinutes.value + TotalVisitMinutes(result.value) + 135
  {
    if result.None? then None
    else if isTravelLoading || totalTravelMinutes.None? then None
    else Some(totalTravelMinutes.value + TotalVisitMinutes(result.value) + TotalMealMinutes(result).value)
  }

  /** When the routed total equals the legs the timeline shows, the trip total is exactly how
      long the timeline runs. */
  lemma TripTotalIsTimelineLength(input: TimelineInput, totalTravel: int)
    requires |input.plan.order| >= 1
    requires totalTravel == TravelSum(input.travelMinutes, |input.plan.order| - 1)
    ensures TotalTripMinutes(Some(input.plan), false, Some(totalTravel)) == Some(SumMinutes(TimelineSteps(input)))
  {
    TimelineDuration(input);
  }

  /** `totalTripMinutes && totalTripMinutes > 480 ? 390 : 480`: start at 6:30 for a long day,
      else at 8:00 (a total of 0 is falsy, which the comparison excludes anyway). */
  function BaseStartMinutes(totalTrip: Option<int>): (r: int)
    ensures r == 390 <==> totalTrip.Some? && totalTrip.value > 480
    ensures r == 390 || r == 480
  {
    if totalTrip.Some? && totalTrip.value != 0 && totalTrip.value > 480 then 390 else 480
  }

  datatype StartAdvice = StartEarly | StartMorning

  /** `bestStartTime`: none while the total is unknown or zero, early for a day over 8 hours. */
  function BestStartTime(totalTrip: Option<int>): (r: Option<StartAdvice>)
    ensures r.None? <==> totalTrip.None? || totalTrip.value == 0
    ensures r == Some(StartEarly) <==> totalTrip.Some? && totalTrip.value > 480
  {
    if totalTrip.None? || totalTrip.value == 0 then None
    else if totalTrip.value > 480 then Some(StartEarly)
    else Some(StartMorning)
  }

  /** The advice and the clock agree: early advice exactly when the timeline starts at 6:30,
      and while travel is pending there is no advice and the day starts at 8:00. */
  lemma AdviceMatchesClock(result: Option<OptimizedTrip>, isTravelLoading: bool, totalTravelMinutes: Option<int>)
    ensures var total := TotalTripMinutes(result, isTravelLoading, totalTravelMinutes);
      && (BestStartTime(total) == Some(StartEarly) <==> BaseStartMinutes(total) == 390)
      && (isTravelLoading ==> total.None? && BestStartTime(total).None? && BaseStartMinutes(total) == 480)
  {
  }

  /** Labels every step with the clock at which it begins, advancing the clock by each step's
      minutes; `clockText` renders a minute of the day. */
  method AssignTimeLabels(steps: seq<Step>, base: int, clockText: int -> string) returns (timed: seq<TimedStep>)
    ensures |timed| == |steps|
    ensures forall k {:trigger timed[k]} :: 0 <= k < |steps| ==>
      timed[k] == TimedStep(steps[k], clockText(base + SumMinutes(steps[..k])))
  {
    var current := base;
    timed := [];
    var k := 0;
    while k < |steps|
      invariant 0 <= k <= |steps|
      invariant |timed| == k
      invariant current == base + SumMinutes(steps[..k])
      invariant forall j {:trigger timed[j]} :: 0 <= j < k ==>
        timed[j] == TimedStep(steps[j], clockText(base + SumMinutes(steps[..j])))
    {
      timed := timed + [TimedStep(steps[k], clockText(current))];
      current := current + steps[k].minutes;
      assert steps[..k + 1][..k] == steps[..k];
      k := k + 1;
    }
  }

  /** Each step labelled with the wall-clock time at which it begins, the clock starting at
      `base` and advancing by each step's minutes. */
  predicate LabelledFrom(timed: seq<TimedStep>, steps: seq<Step>, base: int)
  {
    && |timed| == |steps|
    && forall k {:trigger timed[k]} :: 0 <= k < |steps| ==>
         timed[k] == TimedStep(steps[k], ToTimeLabel(base + SumMinutes(steps[..k])))
  }

  /** `timelineSteps`: the steps, each labelled with the time it begins, counted from 6:30 for a
      known total over 8 hours and from 8:00 otherwise. */
  method Timeline(input: TimelineInput, totalTrip: Option<int>) returns (timed: seq<TimedStep>)
    ensures LabelledFrom(timed, TimelineSteps(input), BaseStartMinutes(totalTrip))
  {
    var steps := BuildSteps(input, OrderedStops(input.plan, input.locations));
    timed := AssignTimeLabels(steps, BaseStartMinutes(totalTrip), ToTimeLabel);
  }

  // ---------------------------------------------------------------------------
  // From routed legs to the timeline's travel figures

  /** `Math.round(x)`: the nearest integer, halves rounded up. */
  function RoundHalfUp(x: real): (r: int)
    ensures x - 0.5 < r as real <= x + 0.5
  {
    (x + 0.5).Floor
  }

  /** `Math.max(1, Math.round(seconds / 60))`: at least a minute; one minute exactly for less
      than a minute and a half, otherwise the nearest whole minute. */
  function LegMinutes(seconds: real): (r: int)
    ensures r >= 1
    ensures r == 1 <==> seconds < 90.0
    ensures r > 1 ==> (r as real) * 60.0 - 30.0 <= seconds < (r as real) * 60.0 + 30.0
  {
    var m := RoundHalfUp(seconds / 60.0);
    if m > 1 then m else 1
  }

  /** `Math.max(0.1, Math.round(meters / 100) / 10)`: kilometres to one decimal, at least 0.1;
      0.1 exactly for less than 150 metres, otherwise the nearest tenth of a kilometre. */
  function LegKm(meters: real): (r: real)
    ensures r >= 0.1
    ensures r == 0.1 <==> meters < 150.0
    ensures (r * 10.0).Floor as real == r * 10.0
    ensures r > 0.1 ==> r * 1000.0 - 50.0 <= meters < r * 1000.0 + 50.0
  {
    var km := RoundHalfUp(meters / 100.0) as real / 10.0;
    if km > 0.1 then km else 0.1
  }

  /** The travel state a routed answer produces. */
  datatype TravelFigures = TravelFigures(minutes: seq<int>, distancesKm: seq<real>, totalMinutes: int)

  function ConvertLegs(data: Osrm.RouteLegs): (r: TravelFigures)
    ensures |r.minutes| == |data.legDurationsWithBufferSeconds|
    ensures |r.distancesKm| == |data.legDistancesMeters|
    ensures forall i :: 0 <= i < |r.minutes| ==> r.minutes[i] == LegMinutes(data.legDurationsWithBufferSeconds[i])
    ensures forall i :: 0 <= i < |r.distancesKm| ==> r.distancesKm[i] == LegKm(data.legDistancesMeters[i])
    ensures r.totalMinutes == LegMinutes(data.totalDurationWithBufferSeconds)
  {
    TravelFigures(
      seq(|data.legDurationsWithBufferSeconds|, i requires 0 <= i < |data.legDurationsWithBufferSeconds| =>
        LegMinutes(data.legDurationsWithBufferSeconds[i])),
      seq(|data.legDistancesMeters|, i requires 0 <= i < |data.legDistancesMeters| =>
        LegKm(data.legDistancesMeters[i])),
      LegMinutes(data.totalDurationWithBufferSeconds))
  }

  function SumInts(xs: seq<int>): int
  {
    if xs == [] then 0 else xs[0] + SumInts(xs[1..])
  }

  /** The total travel time is rounded once from the summed seconds, not summed from the rounded
      legs: two 10-second legs (13 s buffered) show as a minute each but total one minute. */
  lemma TotalTravelIsNotSumOfLegs()
    ensures var figures := ConvertLegs(Osrm.LegsOf([Osrm.Leg(10.0, 0.0), Osrm.Leg(10.0, 0.0)]));
      && figures.minutes == [1, 1]
      && figures.totalMinutes == 1
      && figures.totalMinutes != SumInts(figures.minutes)
  {
    var data := Osrm.LegsOf([Osrm.Leg(10.0, 0.0), Osrm.Leg(10.0, 0.0)]);
    var buffered := data.legDurationsWithBufferSeconds;
    assert buffered[0] == 13.0 && buffered[1] == 13.0;
    assert Osrm.Sum(buffered) == buffered[0] + Osrm.Sum(buffered[1..]);
    assert Osrm.Sum(buffered[1..]) == buffered[1] + Osrm.Sum(buffered[2..]);
    assert data.totalDurationWithBufferSeconds == 26.0;
    var figures := ConvertLegs(data);
    assert figures.minutes == [1, 1];
    assert SumInts([1, 1]) == 1 + SumInts([1]);
    assert SumInts([1]) == 1 + SumInts([]);
  }

  /** `locations.find((loc) => loc.id === id)`: the first stop with the id. */
  function FindLocation(locations: seq<Location>, id: string): (r: Option<Location>)
    ensures r.None? <==> !HasId(locations, id)
    ensures r.Some? ==> exists k :: 0 <= k < |locations| && locations[k] == r.value && r.value.id == id
                                    && forall j :: 0 <= j < k ==> locations[j].id != id
  {
    if locations == [] then None
    else if locations[0].id == id then Some(locations[0])
    else
      var r := FindLocation(locations[1..], id);
      assert r.Some? ==> exists k :: 0 <= k < |locations| - 1 && locations[1..][k] == r.value
                                    && forall j :: 0 <= j < k ==> locations[1..][j].id != id;
      assert HasId(locations, id) ==> HasId(locations[1..], id);
      r
  }

  /** The ids of `order` that name a current stop, in order. */
  function KnownIds(order: seq<string>, locations: seq<Location>): seq<string>
  {
    if order == [] then []
    else (if HasId(locations, order[0]) then [order[0]] else []) + KnownIds(order[1..], locations)
  }

  /** `result.order.map((id) => locations.find(...)).filter(Boolean)`: the stops of the order,
      unknown ids dropped, each the first stop with its id. */
  function OrderedLocations(order: seq<string>, locations: seq<Location>): (r: seq<Location>)
    ensures |r| <= |order|
  {
    if order == [] then []
    else
      var rest := OrderedLocations(order[1..], locations);
      match FindLocation(locations, order[0])
      case None => rest
      case Some(l) => [l] + rest
  }

  /** The ordered stops are, one for one, the lookups of the known ids. */
  lemma {:induction false} OrderedLocationsFound(order: seq<string>, locations: seq<Location>)
    ensures var r := OrderedLocations(order, locations);
      var known := KnownIds(order, locations);
      && |r| == |known|
      && forall p :: 0 <= p < |r| ==> FindLocation(locations, known[p]) == Some(r[p])
  {
    if order != [] {
      var rest, knownRest := OrderedLocations(order[1..], locations), KnownIds(order[1..], locations);
      OrderedLocationsFound(order[1..], locations);
      var r, known := OrderedLocations(order, locations), KnownIds(order, locations);
      if HasId(locations, order[0]) {
        assert r == [FindLocation(locations, order[0]).value] + rest;
        assert known == [order[0]] + knownRest;
        forall p | 0 <= p < |r|
          ensures FindLocation(locations, known[p]) == Some(r[p])
        {
          if p > 0 {
            assert r[p] == rest[p - 1] && known[p] == knownRest[p - 1];
          }
        }
      } else {
        assert r == rest && known == knownRest;
      }
    }
  }

  /** Each ordered stop carries the id it was looked up by and is one of the current stops. */
  lemma OrderedLocationsIds(order: seq<string>, locations: seq<Location>)
    ensures Ids(OrderedLocations(order, locations)) == KnownIds(order, locations)
    ensures forall x :: x in OrderedLocations(order, locations) ==> x in locations
  {
    var r := OrderedLocations(order, locations);
    var known := KnownIds(order, locations);
    OrderedLocationsFound(order, locations);
    forall p | 0 <= p < |r|
      ensures r[p].id == known[p] && r[p] in locations
    {
      assert FindLocation(locations, known[p]) == Some(r[p]);
    }
  }

  /** Travel figures as a routed answer converts them: each leg at least a minute and at least
      0.1 km. */
  predicate RoutedFigures(travelMinutes: seq<int>, travelDistancesKm: seq<real>)
  {
    && (forall i :: 0 <= i < |travelMinutes| ==> travelMinutes[i] >= 1)
    && (forall i :: 0 <= i < |travelDistancesKm| ==> travelDistancesKm[i] >= 0.1)
  }

  /** With routed figures, every leg the timeline shows lasts at least a minute (the 45-minute
      default included) and, when its distance is shown, covers at least 0.1 km. */
  lemma LegsShownArePositive(input: TimelineInput)
    requires RoutedFigures(input.travelMinutes, input.travelDistancesKm)
    ensures forall p :: 0 <= p < |TimelineSteps(input)| && TimelineSteps(input)[p].icon == TravelIcon ==>
      && TimelineSteps(input)[p].minutes >= 1
      && (TimelineSteps(input)[p].distanceKm.Some? ==> TimelineSteps(input)[p].distanceKm.value >= 0.1)
  {
    var stops := OrderedStops(input.plan, input.locations);
    var slots := TimelineSlots(|stops|, LunchInsertIndex(|stops|));
    var steps := TimelineSteps(input);
    forall p | 0 <= p < |steps| && steps[p].icon == TravelIcon
      ensures steps[p].minutes >= 1
      ensures steps[p].distanceKm.Some? ==> steps[p].distanceKm.value >= 0.1
    {
      RenderAt(input, stops, slots, p);
    }
  }

  /** The component's state slots for the plan and its travel figures, and the travel effect
      that refreshes them. */
  class PlannerCard {
    var result: Option<OptimizedTrip>
    var travelMinutes: seq<int>
    var travelDistancesKm: seq<real>
    var totalTravelMinutes: Option<int>
    var isTravelLoading: bool

    /** The travel figures always come from one routed answer or are all absent. */
    ghost predicate Valid()
      reads this
    {
      && |travelMinutes| == |travelDistancesKm|
      && RoutedFigures(travelMinutes, travelDistancesKm)
      && (totalTravelMinutes.None? ==> travelMinutes == [])
      && (totalTravelMinutes.Some? ==> totalTravelMinutes.value >= 1 && |travelMinutes| >= 1)
    }

    constructor (initialPlan: Option<OptimizedTrip>)
      ensures Valid()
      ensures result == initialPlan
      ensures travelMinutes == [] && travelDistancesKm == [] && totalTravelMinutes.None? && !isTravelLoading
    {
      result := initialPlan;
      travelMinutes, travelDistancesKm := [], [];
      totalTravelMinutes := None;
      isTravelLoading := false;
    }

    /** `setResult`: a new initial plan, a generated plan, or `null` when the plan is cleared. */
    method SetResult(plan: Option<OptimizedTrip>)
      requires Valid()
      modifies this
      ensures Valid()
      ensures result == plan
      ensures travelMinutes == old(travelMinutes) && travelDistancesKm == old(travelDistancesKm)
      ensures totalTravelMinutes == old(totalTravelMinutes) && isTravelLoading == old(isTravelLoading)
    {
      result := plan;
    }

    /** The travel effect up to its request: nothing without a plan; with fewer than two known
      stops in the order the travel figures are cleared; otherwise travel starts loading and
      the ordered stops are returned for the routing request. */
    method StartTravel(locations: seq<Location>) returns (request: Option<seq<Location>>)
      requires Valid()
      modifies this
      ensures Valid()
      ensures result == old(result)
      ensures old(result).None? ==> request.None? && unchanged(this)
      ensures old(result).Some? ==>
        var ordered := OrderedLocations(old(result).value.order, locations);
        && (|ordered| < 2 ==> request.None? && travelMinutes == [] && travelDistancesKm == []
                              && totalTravelMinutes.None? && isTravelLoading == old(isTravelLoading))
        && (|ordered| >= 2 ==> request == Some(ordered) && isTravelLoading
                               && travelMinutes == old(travelMinutes) && travelDistancesKm == old(travelDistancesKm)
                               && totalTravelMinutes == old(totalTravelMinutes))
    {
      request := None;
      if result.None? {
        return;
      }
      var orderedLocations := OrderedLocations(result.value.order, locations);
      if |orderedLocations| < 2 {
        travelMinutes, travelDistancesKm := [], [];
        totalTravelMinutes := None;
        return;
      }
      isTravelLoading := true;
      request := Some(orderedLocations);
    }

    /** The travel effect once the routing service has answered for `ordered`: on failure the
      figures are cleared, otherwise they are the converted legs; loading ends either way. */
    method FinishTravel(ordered: seq<Location>, response: Osrm.Response<Osrm.LegsBody>)
      requires Valid()
      modifies this
      ensures Valid()
      ensures result == old(result) && !isTravelLoading
      ensures var data := Osrm.FetchLegDurations(ordered, response);
        && (data.None? ==> travelMinutes == [] && travelDistancesKm == [] && totalTravelMinutes.None?)
        && (data.Some? ==> var figures := ConvertLegs(data.value);
              && travelMinutes == figures.minutes
              && travelDistancesKm == figures.distancesKm
              && totalTravelMinutes == Some(figures.totalMinutes))
    {
      var data := Osrm.FetchLegDurations(ordered, response);
      if data.None? {
        travelMinutes, travelDistancesKm := [], [];
        totalTravelMinutes := None;
        isTravelLoading := false;
        return;
      }
      Osrm.LegDurationsAligned(ordered, response);
      var figures := ConvertLegs(data.value);
      travelMinutes := figures.minutes;
      travelDistancesKm := figures.distancesKm;
      totalTravelMinutes := Some(figures.totalMinutes);
      isTravelLoading := false;
    }

    /** `totalTripMinutes` of the current state. */
    function TotalTrip(): (r: Option<int>)
      reads this
      ensures isTravelLoading ==> r.None?
    {
      TotalTripMinutes(result, isTravelLoading, totalTravelMinutes)
    }

    /** `timelineSteps` of the current state: empty without a plan; every leg it shows lasts at
        least a minute and is at least 0.1 km long when its distance is shown. */
    method CurrentTimeline(locations: seq<Location>, labels: PlannerLabels) returns (timed: seq<TimedStep>)
      requires Valid()
      ensures result.None? ==> timed == []
      ensures result.Some? ==>
        LabelledFrom(timed, TimelineSteps(TimelineInput(result.value, locations, travelMinutes, travelDistancesKm, labels)),
                     BaseStartMinutes(TotalTrip()))
      ensures forall k :: 0 <= k < |timed| && timed[k].step.icon == TravelIcon ==>
        timed[k].step.minutes >= 1 && (timed[k].step.distanceKm.Some? ==> timed[k].step.distanceKm.value >= 0.1)
    {
      if result.None? {
        return [];
      }
      var input := TimelineInput(result.value, locations, travelMinutes, travelDistancesKm, labels);
      timed := Timeline(input, TotalTrip());
      LegsShownArePositive(input);
    }
  }
}
