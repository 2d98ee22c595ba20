/** The dashboard's own logic: the per-station KPI reduction, the selectors
    the page derives from its state, and the state the virtual-station and
    pin-location handlers update. */
module App {
  import opened JsValues
  import opened Records
  import opened VirtualStationSimulation

  /** One simulation run as the service returns it. */
  datatype Run = Run(kpis: Option<Kpis>, timeline: Option<seq<Station>>)

  /** A simulation response: the baseline run, the run with the tweaks
      applied, and the service's recommendation text. */
  datatype SimulationData = SimulationData(baseline: Option<Run>, scenario: Option<Run>, recommendation: Option<string>)

  /** `data?.baseline?.timeline` and its siblings. */
  function BaselineTimeline(data: Option<SimulationData>): Option<seq<Station>> {
    if data.Some? && data.value.baseline.Some? then data.value.baseline.value.timeline else None
  }

  function ScenarioTimeline(data: Option<SimulationData>): Option<seq<Station>> {
    if data.Some? && data.value.scenario.Some? then data.value.scenario.value.timeline else None
  }

  function BaselineKpis(data: Option<SimulationData>): Option<Kpis> {
    if data.Some? && data.value.baseline.Some? then data.value.baseline.value.kpis else None
  }

  function ScenarioKpis(data: Option<SimulationData>): Option<Kpis> {
    if data.Some? && data.value.scenario.Some? then data.value.scenario.value.kpis else None
  }

  /** The service's data contract: no counter of a run is negative. */
  predicate RunCountsNonNegative(run: Option<Run>) {
    run.Some? ==>
      && (run.value.kpis.Some? ==> run.value.kpis.value.CountsNonNegative())
      && (run.value.timeline.Some? ==> TimelineCountsNonNegative(run.value.timeline.value))
  }

  predicate DataCountsNonNegative(data: Option<SimulationData>) {
    data.Some? ==> RunCountsNonNegative(data.value.baseline) && RunCountsNonNegative(data.value.scenario)
  }

  // ---------------------------------------------------------------------
  // Per-station KPIs

  function SwapsOf(t: Station): real { t.swapsCompleted.Or(0.0) }
  function LostOf(t: Station): real { t.lostSwaps.Or(0.0) }
  function AvailabilityOf(t: Station): real { t.availableBatteries.Or(0.0) }

  /** `items.reduce((sum, curr) => sum + f(curr), 0)`: 0 for no items, the
      one term for a single item. */
  function SumBy(items: seq<Station>, f: Station -> real): (s: real)
    ensures |items| == 0 ==> s == 0.0
    ensures |items| == 1 ==> s == f(items[0])
    decreases |items|
  {
    if |items| == 0 then 0.0 else SumBy(items[..|items| - 1], f) + f(items[|items| - 1])
  }

  /** The sum of two runs of records is the sum of their sums. */
  lemma {:induction false} SumByAppend(a: seq<Station>, b: seq<Station>, f: Station -> real)
    ensures SumBy(a + b, f) == SumBy(a, f) + SumBy(b, f)
    decreases |b|
  {
    if |b| > 0 {
      var b' := b[..|b| - 1];
      assert (a + b)[..|a + b| - 1] == a + b';
      assert (a + b)[|a + b| - 1] == b[|b| - 1];
      SumByAppend(a, b', f);
    } else {
      assert a + b == a;
    }
  }

  lemma {:induction false} SumByNonNegative(items: seq<Station>, f: Station -> real)
    requires forall i :: 0 <= i < |items| ==> f(items[i]) >= 0.0
    ensures SumBy(items, f) >= 0.0
  {
    if |items| > 0 {
      SumByNonNegative(items[..|items| - 1], f);
    }
  }

  /** The records of one station. */
  function StationRecords(timeline: seq<Station>, stationId: string): (r: seq<Station>)
    ensures forall t :: t in r <==> t in timeline && t.stationId == stationId
    ensures forall t :: multiset(r)[t] == if t.stationId == stationId then multiset(timeline)[t] else 0
  {
    Filter(timeline, (t: Station) => t.stationId == stationId)
  }

  /** `new Set(items.map(i => i.iteration)).size || 1`: the number of
      simulated days the records cover. */
  function IterationCount(items: seq<Station>): (n: nat)
    ensures n >= 1
    ensures |items| > 0 ==> n == |set t | t in items :: t.iteration|
  {
    var days := set t | t in items :: t.iteration;
    assert |items| > 0 ==> items[0].iteration in days;
    if |days| == 0 then 1 else |days|
  }

  /** The served share of the attempts, as a percentage; with nothing served
      it is 100 when nothing was lost either, else 0. */
  function SuccessRate(dailySwaps: real, dailyLost: real): (rate: real)
    requires dailySwaps >= 0.0 && dailyLost >= 0.0
    ensures dailySwaps > 0.0 ==> rate * (dailySwaps + dailyLost) == dailySwaps * 100.0
    ensures dailySwaps == 0.0 ==> (rate == 100.0 <==> dailyLost == 0.0) && (rate == 0.0 <==> dailyLost > 0.0)
  {
    if dailySwaps > 0.0 then dailySwaps / (dailySwaps + dailyLost) * 100.0
    else if dailyLost == 0.0 then 100.0 else 0.0
  }

  /** `5 + lossRate * 25` minutes, the lost share of the attempts being the loss rate. */
  function WaitTime(dailySwaps: real, dailyLost: real): (w: real)
    requires dailySwaps >= 0.0 && dailyLost >= 0.0
    ensures dailySwaps + dailyLost > 0.0 ==> (w - 5.0) * (dailySwaps + dailyLost) == dailyLost * 25.0
    ensures dailySwaps + dailyLost == 0.0 ==> w == 5.0
  {
    var attempts := dailySwaps + dailyLost;
    var lossRate := if attempts > 0.0 then dailyLost / attempts else 0.0;
    5.0 + lossRate * 25.0
  }

  /** `getStationKpis`: the daily KPIs of one station, reduced from a timeline.
      Swaps and lost swaps are per-day averages over the distinct iterations;
      availability is the mean over all of the station's records. */
  function StationKpis(timeline: Option<seq<Station>>, stationId: Option<string>): (r: Option<Kpis>)
    requires timeline.Some? ==> TimelineCountsNonNegative(timeline.value)
    ensures r.None? <==> timeline.None? || !TruthyString(stationId) || |StationRecords(timeline.value, stationId.value)| == 0
    ensures r.Some? ==>
      var items := StationRecords(timeline.value, stationId.value);
      var dailySwaps := Average(SumBy(items, SwapsOf), IterationCount(items));
      var dailyLost := Average(SumBy(items, LostOf), IterationCount(items));
      && dailySwaps >= 0.0 && dailyLost >= 0.0
      && r.value == Kpis(Num(dailySwaps), Num(dailyLost), Num(SuccessRate(dailySwaps, dailyLost)),
                         Num(Average(SumBy(items, AvailabilityOf), |items|)), Num(Round1(WaitTime(dailySwaps, dailyLost))))
  {
    if timeline.None? || !TruthyString(stationId) then None
    else
      var items := StationRecords(timeline.value, stationId.value);
      if |items| == 0 then None
      else
        var iterations := IterationCount(items);
        assert forall i :: 0 <= i < |items| ==> items[i] in timeline.value;
        SumByNonNegative(items, SwapsOf);
        SumByNonNegative(items, LostOf);
        var dailySwaps := Average(SumBy(items, SwapsOf), iterations);
        var dailyLost := Average(SumBy(items, LostOf), iterations);
        Some(Kpis(Num(dailySwaps), Num(dailyLost), Num(SuccessRate(dailySwaps, dailyLost)),
                  Num(Average(SumBy(items, AvailabilityOf), |items|)), Num(Round1(WaitTime(dailySwaps, dailyLost)))))
  }

  /** `total / n`: a mean over `n` days or records. */
  function Average(total: real, n: nat): (a: real)
    requires n > 0
    ensures a * n as real == total
    ensures total >= 0.0 ==> a >= 0.0
  {
    total / n as real
  }

  /** The success rate is a percentage. */
  lemma SuccessRateBounds(dailySwaps: real, dailyLost: real)
    requires dailySwaps >= 0.0 && dailyLost >= 0.0
    ensures 0.0 <= SuccessRate(dailySwaps, dailyLost) <= 100.0
    ensures dailySwaps > 0.0 && dailyLost == 0.0 ==> SuccessRate(dailySwaps, dailyLost) == 100.0
  {
    if dailySwaps > 0.0 {
      ShareAtMostWhole(dailySwaps, dailyLost);
      if dailyLost == 0.0 {
        assert dailySwaps + dailyLost == dailySwaps;
        assert dailySwaps / dailySwaps == 1.0;
      }
    }
  }

  /** The wait estimate is the success rate read backwards: 30 minutes less a
      quarter minute per percentage point of success. */
  lemma WaitFromSuccess(dailySwaps: real, dailyLost: real)
    requires dailySwaps >= 0.0 && dailyLost >= 0.0
    ensures WaitTime(dailySwaps, dailyLost) == 30.0 - SuccessRate(dailySwaps, dailyLost) / 4.0
  {
    var attempts := dailySwaps + dailyLost;
    if dailySwaps > 0.0 {
      LostShare(dailySwaps, dailyLost);
      var q := dailySwaps / attempts;
      assert WaitTime(dailySwaps, dailyLost) == 5.0 + (1.0 - q) * 25.0;
      assert SuccessRate(dailySwaps, dailyLost) == q * 100.0;
    } else if dailyLost > 0.0 {
      assert attempts == dailyLost;
      assert dailyLost / dailyLost == 1.0;
    }
  }

  /** The lost and the served shares of the attempts make up the whole. */
  lemma LostShare(served: real, lost: real)
    requires served > 0.0 && lost >= 0.0
    ensures lost / (served + lost) == 1.0 - served / (served + lost)
  {
    var attempts := served + lost;
    DivideSum(served, lost, attempts);
    assert attempts / attempts == 1.0;
  }

  lemma DivideSum(x: real, y: real, d: real)
    requires d != 0.0
    ensures x / d + y / d == (x + y) / d
  {
  }

  /** The wait estimate lies between 5 and 30 minutes, before and after rounding. */
  lemma WaitBounds(dailySwaps: real, dailyLost: real)
    requires dailySwaps >= 0.0 && dailyLost >= 0.0
    ensures 5.0 <= WaitTime(dailySwaps, dailyLost) <= 30.0
    ensures 5.0 <= Round1(WaitTime(dailySwaps, dailyLost)) <= 30.0
  {
    WaitFromSuccess(dailySwaps, dailyLost);
    SuccessRateBounds(dailySwaps, dailyLost);
    var w := WaitTime(dailySwaps, dailyLost);
    Round1Monotonic(5.0, w);
    Round1Monotonic(w, 30.0);
    Round1OfTenths(50);
    Round1OfTenths(300);
    assert 50 as real / 10.0 == 5.0;
    assert 300 as real / 10.0 == 30.0;
  }

  /** Every KPI of a station reduced from a well-formed timeline is in range. */
  lemma StationKpisBounds(timeline: seq<Station>, stationId: string)
    requires TimelineCountsNonNegative(timeline)
    requires StationKpis(Some(timeline), Some(stationId)).Some?
    ensures
      var k := StationKpis(Some(timeline), Some(stationId)).value;
      && k.CountsNonNegative()
      && 0.0 <= k.successRate.v <= 100.0
      && 5.0 <= k.avgWaitTimeMins.v <= 30.0
      && WaitTime(k.totalSwaps.v, k.totalLostSwaps.v) == 30.0 - k.successRate.v / 4.0
  {
    var k := StationKpis(Some(timeline), Some(stationId)).value;
    SuccessRateBounds(k.totalSwaps.v, k.totalLostSwaps.v);
    WaitBounds(k.totalSwaps.v, k.totalLostSwaps.v);
    WaitFromSuccess(k.totalSwaps.v, k.totalLostSwaps.v);
  }

  const ExampleDay1: Station := Station("S1", Undefined, Undefined, Undefined, Some(12), Some(1), Num(10.0), Num(2.0), Num(5.0))
  const ExampleDay2: Station := Station("S1", Undefined, Undefined, Undefined, Some(12), Some(2), Num(14.0), Num(2.0), Num(7.0))
  const ExampleOther: Station := Station("S2", Undefined, Undefined, Undefined, Some(12), Some(1), Num(3.0), Num(9.0), Num(1.0))

  lemma ExampleRecords()
    ensures StationRecords([ExampleDay1, ExampleOther, ExampleDay2], "S1") == [ExampleDay1, ExampleDay2]
  {
    var timeline := [ExampleDay1, ExampleOther, ExampleDay2];
    var isS1 := (t: Station) => t.stationId == "S1";
    assert "S2" != "S1" by { assert "S2"[1] != "S1"[1]; }
    assert timeline[1..] == [ExampleOther, ExampleDay2];
    assert timeline[1..][1..] == [ExampleDay2];
    assert [ExampleDay2][1..] == [];
    assert Filter([ExampleDay2], isS1) == [ExampleDay2];
    assert Filter([ExampleOther, ExampleDay2], isS1) == [ExampleDay2];
  }

  lemma ExampleSums(f: Station -> real)
    ensures SumBy([ExampleDay1, ExampleDay2], f) == f(ExampleDay1) + f(ExampleDay2)
  {
    var items := [ExampleDay1, ExampleDay2];
    assert items[..1] == [ExampleDay1];
    assert [ExampleDay1][..0] == [];
    assert SumBy([ExampleDay1], f) == f(ExampleDay1);
  }

  /** Two days of one station, 10 and 14 swaps with 2 lost each day, beside
      another station's record: 12 swaps and 2 lost a day, 12/14 of the
      attempts served, an average of 6 batteries and an 8.6 minute wait. */
  lemma StationKpisExample()
    ensures StationKpis(Some([ExampleDay1, ExampleOther, ExampleDay2]), Some("S1"))
      == Some(Kpis(Num(12.0), Num(2.0), Num(12.0 / 14.0 * 100.0), Num(6.0), Num(8.6)))
  {
    ExampleRecords();
    ExampleDailyFigures();
  }

  /** The figures of the example station's two days. */
  lemma ExampleDailyFigures()
    ensures IterationCount([ExampleDay1, ExampleDay2]) == 2
    ensures Average(SumBy([ExampleDay1, ExampleDay2], SwapsOf), 2) == 12.0
    ensures Average(SumBy([ExampleDay1, ExampleDay2], LostOf), 2) == 2.0
    ensures Average(SumBy([ExampleDay1, ExampleDay2], AvailabilityOf), 2) == 6.0
    ensures SuccessRate(12.0, 2.0) == 12.0 / 14.0 * 100.0
    ensures Round1(WaitTime(12.0, 2.0)) == 8.6
  {
    var items := [ExampleDay1, ExampleDay2];
    assert (set t | t in items :: t.iteration) == {Some(1), Some(2)};
    ExampleSums(SwapsOf);
    ExampleSums(LostOf);
    ExampleSums(AvailabilityOf);
    assert WaitTime(12.0, 2.0) == 5.0 + 2.0 / 14.0 * 25.0;
    assert Round(WaitTime(12.0, 2.0) * 10.0) == 86;
  }

  // ---------------------------------------------------------------------
  // Selectors

  /** A roster entry as the map and the panels show it: its initial stock
      stands in for the available batteries. */
  function WithInitialStock(s: Station): (r: Station)
    ensures r.availableBatteries == s.initialStock
    ensures r.(availableBatteries := s.availableBatteries) == s
  {
    s.(availableBatteries := s.initialStock)
  }

  predicate AtNoon(t: Station) { t.hour == Some(12) }

  /** `x` is the first noon record of station `id` in `timeline`. */
  predicate FirstNoonRecord(timeline: seq<Station>, id: string, x: Station) {
    exists k :: 0 <= k < |timeline| && timeline[k] == x && AtNoon(x) && x.stationId == id
      && forall j :: 0 <= j < k ==> !(AtNoon(timeline[j]) && timeline[j].stationId == id)
  }

  /** `x` is the first roster entry of station `id`, shown with its initial stock. */
  predicate FirstRosterEntry(stations: seq<Station>, id: string, x: Station) {
    exists k :: 0 <= k < |stations| && stations[k].stationId == id && x == WithInitialStock(stations[k])
      && forall j :: 0 <= j < k ==> stations[j].stationId != id
  }

  /** `selectedStationData`: the selected station's noon record of the
      baseline run, else its roster entry, else nothing. */
  function SelectedStationData(selected: Option<string>, stations: seq<Station>, data: Option<SimulationData>): (r: Option<Station>)
    ensures !TruthyString(selected) ==> r.None?
    ensures TruthyString(selected) && BaselineTimeline(data).Some?
            && (exists t :: t in BaselineTimeline(data).value && AtNoon(t) && t.stationId == selected.value) ==>
      r.Some? && FirstNoonRecord(BaselineTimeline(data).value, selected.value, r.value)
    ensures TruthyString(selected)
            && (BaselineTimeline(data).None? || forall t :: t in BaselineTimeline(data).value && AtNoon(t) ==> t.stationId != selected.value) ==>
      (r.Some? <==> exists s :: s in stations && s.stationId == selected.value)
      && (r.Some? ==> FirstRosterEntry(stations, selected.value, r.value))
  {
    if !TruthyString(selected) then None
    else
      var isSelected := (s: Station) => s.stationId == selected.value;
      var fromTimeline :=
        if BaselineTimeline(data).Some? then
          FindAfterFilter(BaselineTimeline(data).value, AtNoon, isSelected);
          assert forall k :: 0 <= k < |BaselineTimeline(data).value| ==> BaselineTimeline(data).value[k] in BaselineTimeline(data).value;
          Find(Filter(BaselineTimeline(data).value, AtNoon), isSelected)
        else None;
      if fromTimeline.Some? then fromTimeline
      else
        var withStock := Find(stations, isSelected);
        if withStock.Some? then Some(WithInitialStock(withStock.value)) else None
  }

  /** The stations the map shows: the baseline's noon records once a run
      exists, else the roster with initial stock as availability. */
  function GetMapStations(data: Option<SimulationData>, stations: seq<Station>): (r: seq<Station>)
    ensures BaselineTimeline(data).Some? ==>
      forall t :: t in r <==> t in BaselineTimeline(data).value && AtNoon(t)
    ensures BaselineTimeline(data).Some? ==>
      forall t :: multiset(r)[t] == if AtNoon(t) then multiset(BaselineTimeline(data).value)[t] else 0
    ensures BaselineTimeline(data).Some? ==> r == Filter(BaselineTimeline(data).value, AtNoon)
    ensures BaselineTimeline(data).None? ==>
      |r| == |stations| && forall i :: 0 <= i < |r| ==> r[i] == WithInitialStock(stations[i])
  {
    if BaselineTimeline(data).Some? then Filter(BaselineTimeline(data).value, AtNoon)
    else seq(|stations|, i requires 0 <= i < |stations| => WithInitialStock(stations[i]))
  }

  datatype LabelPrefix = Total | StationLabel

  /** The KPI pair the cards compare, and the label in front of them. */
  datatype Displayed = Displayed(baseline: Option<Kpis>, scenario: Option<Kpis>, labelPrefix: LabelPrefix)

  /** `displayedKpis`: the network totals, or the selected station's own
      KPIs once some run holds records of it. */
  function DisplayedKpis(selected: Option<string>, data: Option<SimulationData>): (r: Displayed)
    requires DataCountsNonNegative(data)
    ensures
      var sb := StationKpis(BaselineTimeline(data), selected);
      var ss := StationKpis(ScenarioTimeline(data), selected);
      && (r.labelPrefix == StationLabel <==> TruthyString(selected) && (sb.Some? || ss.Some?))
      && (r.labelPrefix == Total ==> r.baseline == BaselineKpis(data) && r.scenario == ScenarioKpis(data))
      && (r.labelPrefix == StationLabel ==>
            && r.baseline == sb
            && r.scenario == (if ss.Some? then ss else sb)
            && r.scenario.Some?)
  {
    var global := Displayed(BaselineKpis(data), ScenarioKpis(data), Total);
    if !TruthyString(selected) then global
    else
      var stationBaseline := StationKpis(BaselineTimeline(data), selected);
      var stationScenario := StationKpis(ScenarioTimeline(data), selected);
      if stationBaseline.None? && stationScenario.None? then global
      else
        Displayed(
          if stationBaseline.Some? then stationBaseline else StationKpis(BaselineTimeline(data), selected),
          if stationScenario.Some? then stationScenario else stationBaseline,
          StationLabel)
  }

  /** `virtualStationInsight`: the insight, only while a virtual station is
      shown with its estimate. */
  function VirtualStationInsight(
    active: bool, impact: Option<Impact>, vs: Option<VirtualStation>, ownership: Option<Ownership>, fmt: Formatter
  ): (r: Option<string>)
    ensures r.Some? <==> active && impact.Some? && vs.Some?
    ensures r.Some? ==> r == InsightText(impact, vs, ownership, fmt)
  {
    if !active || impact.None? || vs.None? then None
    else InsightText(impact, vs, ownership, fmt)
  }

  /** The banner above the map: the virtual-station analysis, or the
      simulation's recommendation. */
  datatype Recommendation = Virtual(content: string) | FromSimulation(content: string)

  /** `getRecommendationContent`: the virtual insight wins over the
      simulation's recommendation; with neither there is no banner. */
  function GetRecommendationContent(active: bool, insight: Option<string>, data: Option<SimulationData>): (r: Option<Recommendation>)
    ensures active && TruthyString(insight) ==> r == Some(Virtual(insight.value))
    ensures !(active && TruthyString(insight)) && data.Some? && TruthyString(data.value.recommendation) ==>
      r == Some(FromSimulation(data.value.recommendation.value))
    ensures r.None? <==> !(active && TruthyString(insight)) && !(data.Some? && TruthyString(data.value.recommendation))
  {
    if active && TruthyString(insight) then Some(Virtual(insight.value))
    else if data.Some? && TruthyString(data.value.recommendation) then Some(FromSimulation(data.value.recommendation.value))
    else None
  }

  /** The KPIs a new virtual station is estimated against: the selected
      station's own (scenario first), else the scenario's, else the baseline's. */
  function CurrentKpis(selected: Option<string>, data: Option<SimulationData>): (r: Option<Kpis>)
    requires DataCountsNonNegative(data)
    ensures r.None? <==> (!TruthyString(selected) || (StationKpis(ScenarioTimeline(data), selected).None? && StationKpis(BaselineTimeline(data), selected).None?))
                         && ScenarioKpis(data).None? && BaselineKpis(data).None?
    ensures TruthyString(selected) && StationKpis(ScenarioTimeline(data), selected).Some? ==>
      r == StationKpis(ScenarioTimeline(data), selected)
    ensures TruthyString(selected) && StationKpis(ScenarioTimeline(data), selected).None? && StationKpis(BaselineTimeline(data), selected).Some? ==>
      r == StationKpis(BaselineTimeline(data), selected)
    ensures (!TruthyString(selected) || (StationKpis(ScenarioTimeline(data), selected).None? && StationKpis(BaselineTimeline(data), selected).None?)) ==>
      r == (if ScenarioKpis(data).Some? then ScenarioKpis(data) else BaselineKpis(data))
    ensures r.Some? ==> r.value.CountsNonNegative()
  {
    var stationKpis :=
      if TruthyString(selected) then
        var s := StationKpis(ScenarioTimeline(data), selected);
        if s.Some? then s else StationKpis(BaselineTimeline(data), selected)
      else None;
    if stationKpis.Some? then
      StationKpisBounds(if StationKpis(ScenarioTimeline(data), selected).Some? then ScenarioTimeline(data).value else BaselineTimeline(data).value, selected.value);
      stationKpis
    else if ScenarioKpis(data).Some? then ScenarioKpis(data)
    else BaselineKpis(data)
  }

  // ---------------------------------------------------------------------
  // Page state

  datatype Location = Location(lat: real, lon: real)

  /** The virtual-station part of the page state. */
  datatype VirtualView = VirtualView(station: Option<VirtualStation>, active: bool, impact: Option<Impact>, ownership: Option<Ownership>)
  {
    /** A virtual station is shown exactly when one exists, and an estimate
        exists only for an existing virtual station. */
    predicate Coherent() {
      (active <==> station.Some?) && (impact.Some? ==> station.Some?)
    }
  }

  /** What `handleAddVirtualStation` makes of the virtual-station state,
      given the position placed for the selected station and the current
      KPIs. Without a position nothing changes; without current KPIs the
      earlier estimate stays. */
  function AddedVirtualStation(
    v: VirtualView, placed: Option<VirtualStation>, current: Option<Kpis>, roster: seq<Station>, distance: Distance,
    absorptionDraw: real, offloadDraw: real, availabilityDraw: real
  ): (r: VirtualView)
    requires IsDraw(absorptionDraw) && IsDraw(offloadDraw) && IsDraw(availabilityDraw)
    requires current.Some? ==> current.value.CountsNonNegative()
    ensures v.Coherent() ==> r.Coherent()
    ensures placed.None? ==> r == v
    ensures placed.Some? ==> r.station == placed && r.active
    ensures placed.Some? ==> r.ownership == Some(CalculateOwnershipModel(placed, Some(roster), distance))
    ensures placed.Some? && current.Some? ==>
      r.impact.Some? && r.impact == CalculateVirtualStationImpact(current, placed, absorptionDraw, offloadDraw, availabilityDraw)
    ensures placed.Some? && current.None? ==> r.impact == v.impact
  {
    if placed.None? then v
    else
      var impact := if current.Some? then CalculateVirtualStationImpact(current, placed, absorptionDraw, offloadDraw, availabilityDraw) else v.impact;
      VirtualView(placed, true, impact, Some(CalculateOwnershipModel(placed, Some(roster), distance)))
  }

  /** The page's state fields that the virtual-station and pin-location
      handlers update. The geometry and the number formatting the page
      relies on are fixed when it is created. */
  class AppState {
    var data: Option<SimulationData>
    var stations: seq<Station>
    var selected: Option<string>
    var loading: bool
    var error: Option<string>
    var virtualStation: Option<VirtualStation>
    var isVirtualStationActive: bool
    var virtualStationImpact: Option<Impact>
    var ownershipModel: Option<Ownership>
    var isPinMode: bool
    var pinnedLocation: Option<Location>
    /** The analysis of a pinned location, as the service words it. */
    var locationAnalysis: Option<string>
    var recommendedLocation: Option<Location>

    const offset: Offset
    const distance: Distance
    const fmt: Formatter

    /** A virtual station is shown exactly when one exists, an estimate only
        for an existing virtual station, and pin results only in pin mode. */
    predicate Valid()
      reads this
    {
      && VirtualView(virtualStation, isVirtualStationActive, virtualStationImpact, ownershipModel).Coherent()
      && (!isPinMode ==> pinnedLocation.None? && locationAnalysis.None? && recommendedLocation.None?)
    }

    constructor(offset: Offset, distance: Distance, fmt: Formatter)
      ensures Valid()
      ensures data.None? && stations == [] && selected.None? && !loading && error.None?
      ensures virtualStation.None? && !isVirtualStationActive && virtualStationImpact.None? && ownershipModel.None?
      ensures !isPinMode && pinnedLocation.None? && locationAnalysis.None? && recommendedLocation.None?
      ensures this.offset == offset && this.distance == distance && this.fmt == fmt
    {
      data := None;
      stations := [];
      selected := None;
      loading := false;
      error := None;
      virtualStation := None;
      isVirtualStationActive := false;
      virtualStationImpact := None;
      ownershipModel := None;
      isPinMode := false;
      pinnedLocation := None;
      locationAnalysis := None;
      recommendedLocation := None;
      this.offset := offset;
      this.distance := distance;
      this.fmt := fmt;
    }

    /** The station data the virtual-station panel works on. */
    function SelectedStation(): Option<Station>
      reads this
    {
      SelectedStationData(selected, stations, data)
    }

    /** Where `AddVirtualStation` would place a virtual station with these draws. */
    function PlacedStation(angleDraw: real, distanceDraw: real): Option<VirtualStation>
      reads this
      requires IsDraw(angleDraw) && IsDraw(distanceDraw)
    {
      GenerateVirtualStationPosition(SelectedStation(), angleDraw, distanceDraw, offset)
    }

    /** The banner the page shows. */
    function Recommendation(): (r: Option<Recommendation>)
      reads this
      requires Valid()
      ensures (r.Some? && r.value.Virtual?) <==> isVirtualStationActive && virtualStationImpact.Some?
      ensures r.Some? && r.value.Virtual? ==> virtualStation.Some?
    {
      GetRecommendationContent(isVirtualStationActive,
        VirtualStationInsight(isVirtualStationActive, virtualStationImpact, virtualStation, ownershipModel, fmt), data)
    }

    /** `setSelected`: a station picked on the map. */
    method Select(id: Option<string>)
      modifies this
      requires Valid()
      ensures Valid()
      ensures selected == id
      ensures data == old(data) && stations == old(stations) && loading == old(loading) && error == old(error)
      ensures virtualStation == old(virtualStation) && isVirtualStationActive == old(isVirtualStationActive)
      ensures virtualStationImpact == old(virtualStationImpact) && ownershipModel == old(ownershipModel)
      ensures isPinMode == old(isPinMode) && pinnedLocation == old(pinnedLocation)
      ensures locationAnalysis == old(locationAnalysis) && recommendedLocation == old(recommendedLocation)
    {
      selected := id;
    }

    /** `setStations`: the roster the service delivered. */
    method ReceiveStations(roster: seq<Station>)
      modifies this
      requires Valid()
      ensures Valid()
      ensures stations == roster
      ensures data == old(data) && selected == old(selected) && loading == old(loading) && error == old(error)
      ensures virtualStation == old(virtualStation) && isVirtualStationActive == old(isVirtualStationActive)
      ensures virtualStationImpact == old(virtualStationImpact) && ownershipModel == old(ownershipModel)
      ensures isPinMode == old(isPinMode) && pinnedLocation == old(pinnedLocation)
      ensures locationAnalysis == old(locationAnalysis) && recommendedLocation == old(recommendedLocation)
    {
      stations := roster;
    }

    /** `setData`: a simulation response arrived. */
    method ReceiveSimulation(response: SimulationData)
      modifies this
      requires Valid()
      ensures Valid()
      ensures data == Some(response)
      ensures stations == old(stations) && selected == old(selected) && loading == old(loading) && error == old(error)
      ensures virtualStation == old(virtualStation) && isVirtualStationActive == old(isVirtualStationActive)
      ensures virtualStationImpact == old(virtualStationImpact) && ownershipModel == old(ownershipModel)
      ensures isPinMode == old(isPinMode) && pinnedLocation == old(pinnedLocation)
      ensures locationAnalysis == old(locationAnalysis) && recommendedLocation == old(recommendedLocation)
    {
      data := Some(response);
    }

    /** The virtual-station fields, read as one value. */
    function VirtualPart(): VirtualView
      reads this
    {
      VirtualView(virtualStation, isVirtualStationActive, virtualStationImpact, ownershipModel)
    }

    /** `handleAddVirtualStation`: places a virtual station next to the
        selected one and estimates its impact and ownership, as
        `AddedVirtualStation` states. */
    method AddVirtualStation(angleDraw: real, distanceDraw: real, absorptionDraw: real, offloadDraw: real, availabilityDraw: real)
      modifies this
      requires Valid() && DataCountsNonNegative(data)
      requires IsDraw(angleDraw) && IsDraw(distanceDraw)
      requires IsDraw(absorptionDraw) && IsDraw(offloadDraw) && IsDraw(availabilityDraw)
      ensures data == old(data) && stations == old(stations) && selected == old(selected)
      ensures loading == old(loading) && error == old(error)
      ensures isPinMode == old(isPinMode) && pinnedLocation == old(pinnedLocation)
      ensures locationAnalysis == old(locationAnalysis) && recommendedLocation == old(recommendedLocation)
      ensures VirtualPart() == AddedVirtualStation(old(VirtualPart()), old(PlacedStation(angleDraw, distanceDraw)),
                                 CurrentKpis(selected, data), stations, distance, absorptionDraw, offloadDraw, availabilityDraw)
      ensures Valid()
    {
      var placed := PlacedStation(angleDraw, distanceDraw);
      var next := AddedVirtualStation(VirtualPart(), placed, CurrentKpis(selected, data), stations, distance,
                                      absorptionDraw, offloadDraw, availabilityDraw);
      virtualStation := next.station;
      isVirtualStationActive := next.active;
      virtualStationImpact := next.impact;
      ownershipModel := next.ownership;
    }

    /** `handleRemoveVirtualStation`: drops the virtual station with its estimate and ownership advice. */
    method RemoveVirtualStation()
      modifies this
      requires Valid()
      ensures Valid()
      ensures virtualStation.None? && !isVirtualStationActive && virtualStationImpact.None? && ownershipModel.None?
      ensures data == old(data) && stations == old(stations) && selected == old(selected)
      ensures loading == old(loading) && error == old(error)
      ensures isPinMode == old(isPinMode) && pinnedLocation == old(pinnedLocation)
      ensures locationAnalysis == old(locationAnalysis) && recommendedLocation == old(recommendedLocation)
    {
      virtualStation := None;
      isVirtualStationActive := false;
      virtualStationImpact := None;
      ownershipModel := None;
    }

    /** The synchronous start of `handleSimulate`: loading, no error, and no
        virtual station or estimate. The ownership advice is kept. */
    method SimulateStart()
      modifies this
      requires Valid()
      ensures Valid()
      ensures loading && error.None?
      ensures virtualStation.None? && !isVirtualStationActive && virtualStationImpact.None?
      ensures ownershipModel == old(ownershipModel)
      ensures data == old(data) && stations == old(stations) && selected == old(selected)
      ensures isPinMode == old(isPinMode) && pinnedLocation == old(pinnedLocation)
      ensures locationAnalysis == old(locationAnalysis) && recommendedLocation == old(recommendedLocation)
    {
      loading := true;
      error := None;
      isVirtualStationActive := false;
      virtualStation := None;
      virtualStationImpact := None;
    }

    /** `handleTogglePinMode`: flips pin mode; leaving it clears the pin results. */
    method TogglePinMode()
      modifies this
      requires Valid()
      ensures Valid()
      ensures isPinMode == !old(isPinMode)
      ensures old(isPinMode) ==> pinnedLocation.None? && locationAnalysis.None? && recommendedLocation.None?
      ensures !old(isPinMode) ==>
        pinnedLocation == old(pinnedLocation) && locationAnalysis == old(locationAnalysis) && recommendedLocation == old(recommendedLocation)
      ensures data == old(data) && stations == old(stations) && selected == old(selected)
      ensures loading == old(loading) && error == old(error)
      ensures virtualStation == old(virtualStation) && isVirtualStationActive == old(isVirtualStationActive)
      ensures virtualStationImpact == old(virtualStationImpact) && ownershipModel == old(ownershipModel)
    {
      var wasPinMode := isPinMode;
      isPinMode := !wasPinMode;
      if wasPinMode {
        pinnedLocation := None;
        locationAnalysis := None;
        recommendedLocation := None;
      }
    }

    /** The synchronous part of `handleMapClick`: in pin mode the clicked
        point is pinned and earlier results are cleared; otherwise the click
        is ignored. */
    method MapClick(lat: real, lon: real)
      modifies this
      requires Valid()
      ensures Valid()
      ensures old(isPinMode) ==> pinnedLocation == Some(Location(lat, lon)) && locationAnalysis.None? && recommendedLocation.None?
      ensures !old(isPinMode) ==>
        pinnedLocation == old(pinnedLocation) && locationAnalysis == old(locationAnalysis) && recommendedLocation == old(recommendedLocation)
      ensures isPinMode == old(isPinMode)
      ensures data == old(data) && stations == old(stations) && selected == old(selected)
      ensures loading == old(loading) && error == old(error)
      ensures virtualStation == old(virtualStation) && isVirtualStationActive == old(isVirtualStationActive)
      ensures virtualStationImpact == old(virtualStationImpact) && ownershipModel == old(ownershipModel)
    {
      if !isPinMode {
        return;
      }
      pinnedLocation := Some(Location(lat, lon));
      locationAnalysis := None;
      recommendedLocation := None;
    }

    /** `handleClearPinAnalysis`: clears the pin results and leaves pin mode. */
    method ClearPinAnalysis()
      modifies this
      requires Valid()
      ensures Valid()
      ensures !isPinMode && pinnedLocation.None? && locationAnalysis.None? && recommendedLocation.None?
      ensures data == old(data) && stations == old(stations) && selected == old(selected)
      ensures loading == old(loading) && error == old(error)
      ensures virtualStation == old(virtualStation) && isVirtualStationActive == old(isVirtualStationActive)
      ensures virtualStationImpact == old(virtualStationImpact) && ownershipModel == old(ownershipModel)
    {
      pinnedLocation := None;
      locationAnalysis := None;
      recommendedLocation := None;
      isPinMode := false;
    }
  }
}
