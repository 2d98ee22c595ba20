/** The what-if engine for a proposed ("virtual") station: where to place it,
    what it would do to the KPIs, which ownership model suits it, and the
    insight text that summarises all three. */
module VirtualStationSimulation {
  import opened JsValues
  import opened Records

  const VirtualStationId: string := "VIRTUAL_STATION_001"
  const DefaultCapacity: nat := 15
  /** Average throughput of one battery slot per day. */
  const SwapsPerSlotPerDay: real := 3.5
  /** The catchment radius used to count neighbouring stations, in km. */
  const CatchmentKm: real := 2.0
  /** The number of neighbours from which the partner model is chosen. */
  const PopoThreshold: nat := 3

  /** A value of `Math.random()`. */
  predicate IsDraw(u: real) { 0.0 <= u < 1.0 }

  /** The small-distance offset of a point. Given the origin's latitude, the
      bearing as a fraction of a full turn and the distance in km, it returns
      the latitude and longitude deltas in degrees. The trigonometry behind it
      is not modelled. */
  type Offset = (real, real, real) -> (real, real)

  /** The haversine distance in km between (lat1, lon1) and (lat2, lon2),
      left abstract. */
  type Distance = (real, real, real, real) -> real

  /** A proposed station. `distanceKm` is the value of the two-decimal string
      the source stores; how it is printed is left to the formatter. */
  datatype VirtualStation = VirtualStation(
    stationId: string,
    lat: real,
    lon: real,
    isVirtual: bool,
    capacity: nat,
    parentStation: string,
    distanceKm: real)

  // ---------------------------------------------------------------------
  // Placement

  /** `Number.prototype.toFixed(2)`, read back as a number. */
  function ToFixed2(x: real): (r: real)
    ensures r * 100.0 == Round(x * 100.0) as real
    ensures x - 0.005 < r <= x + 0.005
  {
    RoundBounds(x * 100.0);
    Round(x * 100.0) as real / 100.0
  }

  /** Places a virtual station 0.8 to 1.8 km from the selected station, in
      the direction and at the distance given by two random draws. */
  function GenerateVirtualStationPosition(
    selected: Option<Station>, angleDraw: real, distanceDraw: real, offset: Offset
  ): (r: Option<VirtualStation>)
    requires IsDraw(angleDraw) && IsDraw(distanceDraw)
    ensures r.None? <==> selected.None? || selected.value.lat.IsFalsy() || selected.value.lon.IsFalsy()
    ensures r.Some? ==>
      && 0.8 <= r.value.distanceKm <= 1.8
      && r.value.distanceKm * 100.0 == Round(r.value.distanceKm * 100.0) as real
      && (0.8 + distanceDraw) - 0.005 < r.value.distanceKm <= (0.8 + distanceDraw) + 0.005
      && r.value.stationId == VirtualStationId
      && r.value.isVirtual
      && r.value.capacity == DefaultCapacity
      && r.value.parentStation == selected.value.stationId
    ensures r.Some? ==>
      var d := offset(selected.value.lat.v, angleDraw, 0.8 + distanceDraw);
      r.value.lat == selected.value.lat.v + d.0 && r.value.lon == selected.value.lon.v + d.1
  {
    if selected.None? || selected.value.lat.IsFalsy() || selected.value.lon.IsFalsy() then None
    else
      var s := selected.value;
      var distanceKm := 0.8 + distanceDraw * 1.0;
      var d := offset(s.lat.v, angleDraw, distanceKm);
      assert 80.0 <= distanceKm * 100.0 < 180.0;
      RoundMonotonic(80.0, distanceKm * 100.0);
      RoundMonotonic(distanceKm * 100.0, 180.0);
      RoundOfInt(80);
      RoundOfInt(180);
      var fixed := ToFixed2(distanceKm);
      assert fixed * 100.0 == Round(distanceKm * 100.0) as real;
      RoundOfInt(Round(distanceKm * 100.0));
      Some(VirtualStation(VirtualStationId, s.lat.v + d.0, s.lon.v + d.1, true, DefaultCapacity, s.stationId, fixed))
  }

  // ---------------------------------------------------------------------
  // Impact estimate

  /** The deltas the estimate reports against the current KPIs. */
  datatype ImprovementSummary = ImprovementSummary(
    lostSwapsReduction: real,
    swapsIncrease: int,
    successRateImprovement: real,
    waitTimeReduction: real)

  /** The estimated KPIs after the virtual station is added, with the figures
      the estimate was computed from. */
  datatype Impact = Impact(
    totalSwaps: real,
    totalLostSwaps: real,
    successRate: real,
    avgBatteryAvailability: real,
    avgWaitTimeMins: real,
    absorptionFactor: real,
    absorbedDemand: int,
    stationCapacity: nat,
    maxDailyCapacity: int,
    summary: ImprovementSummary)
  {
    /** The estimate read as a KPI record, as the KPI cards read it. */
    function AsKpis(): Kpis {
      Kpis(Num(totalSwaps), Num(totalLostSwaps), Num(successRate), Num(avgBatteryAvailability), Num(avgWaitTimeMins))
    }
  }

  /** `virtualStation.capacity || 15`. */
  function EffectiveCapacity(vs: VirtualStation): (c: nat)
    ensures c > 0
    ensures vs.capacity > 0 ==> c == vs.capacity
    ensures vs.capacity == 0 ==> c == DefaultCapacity
  {
    if vs.capacity == 0 then DefaultCapacity else vs.capacity
  }

  /** `currentKpis.avg_wait_time_mins || 15`: a missing or zero wait time counts as 15 minutes. */
  function CurrentWaitTime(k: Kpis): (w: real)
    ensures k.avgWaitTimeMins.IsFalsy() ==> w == 15.0
    ensures !k.avgWaitTimeMins.IsFalsy() ==> w == k.avgWaitTimeMins.v
  {
    k.avgWaitTimeMins.Or(15.0)
  }

  /** `Math.round(capacity * 3.5)`: the swaps a new station can serve per day. */
  function MaxDailyCapacity(capacity: nat): (m: int)
    ensures m >= 0
  {
    RoundMonotonic(0.0, capacity as real * SwapsPerSlotPerDay);
    RoundOfInt(0);
    Round(capacity as real * SwapsPerSlotPerDay)
  }

  /** The lost swaps the new station captures: the absorbed share of the lost
      swaps, rounded, capped by the station's daily throughput. */
  function AbsorbedDemand(lost: real, factor: real, maxDaily: int): (a: int)
    requires lost >= 0.0 && 0.80 <= factor < 0.95 && maxDaily >= 0
    ensures a == Min(Round(lost * factor), maxDaily)
    ensures 0 <= a <= maxDaily
    ensures a <= Round(lost * 0.95)
  {
    ProductNonNegative(lost, factor);
    ProductMonotonic(lost, factor, 0.95);
    RoundMonotonic(lost * factor, lost * 0.95);
    RoundMonotonic(0.0, lost * factor);
    RoundOfInt(0);
    Min(Round(lost * factor), maxDaily)
  }

  /** The share of the lost swaps the new station would capture: 80 to 95%. */
  function AbsorptionFactor(draw: real): (f: real)
    requires IsDraw(draw)
    ensures 0.80 <= f < 0.95
  {
    ProductNonNegative(draw, 0.15);
    ProductBelow(draw, 0.15);
    0.80 + draw * 0.15
  }

  /** The share of the current swaps the new station would take over: 15 to 25%. */
  function OffloadFactor(draw: real): (f: real)
    requires IsDraw(draw)
    ensures 0.15 <= f < 0.25
  {
    ProductNonNegative(draw, 0.10);
    ProductBelow(draw, 0.10);
    0.15 + draw * 0.10
  }

  /** The net-new swaps from offloading: 30% of the offloaded swaps, rounded. */
  function OffloadGrowth(total: real, offloadFactor: real): (g: int)
    requires total >= 0.0 && offloadFactor >= 0.0
    ensures g >= 0
    ensures total * offloadFactor * 0.3 - 0.65 < g as real <= total * offloadFactor * 0.3 + 0.65
  {
    RoundBounds(total * offloadFactor);
    RoundBounds(Round(total * offloadFactor) as real * 0.3);
    ProductNonNegative(total, offloadFactor);
    RoundMonotonic(0.0, total * offloadFactor);
    RoundMonotonic(0.0, Round(total * offloadFactor) as real * 0.3);
    RoundOfInt(0);
    Round(Round(total * offloadFactor) as real * 0.3)
  }

  /** `3.0 + Math.random() * 3.0 * (1 + capacity / 20)`. */
  function AvailabilityIncrement(capacity: nat, draw: real): (inc: real)
    requires IsDraw(draw)
    ensures 3.0 <= inc < 3.0 + 3.0 * (1.0 + capacity as real / 20.0)
  {
    var load := 1.0 + capacity as real / 20.0;
    ProductNonNegative(draw, 3.0 * load);
    ProductBelow(draw, 3.0 * load);
    assert draw * 3.0 * load == draw * (3.0 * load);
    3.0 + draw * 3.0 * load
  }

  /** The share of the wait time removed: 40% plus 40% of the share of lost
      swaps absorbed. */
  function WaitReductionFactor(lost: real, absorbed: int): (f: real)
    requires lost >= 0.0 && absorbed >= 0
    ensures lost > 0.0 ==> (f - 0.4) * lost == 0.4 * absorbed as real
    ensures lost == 0.0 ==> f == 0.4
    ensures f >= 0.4
    ensures absorbed as real <= lost ==> f <= 0.8
  {
    var ratio := if lost > 0.0 then absorbed as real / lost else 0.0;
    RatioBounds(absorbed as real, lost);
    0.4 + ratio * 0.4
  }

  /** Estimates the KPIs after adding `vs`. Three random draws give the share
      of lost demand absorbed (80 to 95%), the share of existing swaps
      offloaded (15 to 25%) and the availability gain. */
  function CalculateVirtualStationImpact(
    current: Option<Kpis>, vs: Option<VirtualStation>,
    absorptionDraw: real, offloadDraw: real, availabilityDraw: real
  ): (r: Option<Impact>)
    requires IsDraw(absorptionDraw) && IsDraw(offloadDraw) && IsDraw(availabilityDraw)
    requires current.Some? ==> current.value.CountsNonNegative()
    ensures r.None? <==> current.None? || vs.None?
  {
    if current.None? || vs.None? then None
    else
      var k := current.value;
      var currentLost := k.totalLostSwaps.Or(0.0);
      var currentTotal := k.totalSwaps.Or(0.0);
      var currentRate := k.successRate.Or(0.0);
      var currentAvailability := k.avgBatteryAvailability.Or(0.0);
      var currentWait := CurrentWaitTime(k);
      var capacity := EffectiveCapacity(vs.value);
      var maxDaily := MaxDailyCapacity(capacity);
      var absorptionFactor := AbsorptionFactor(absorptionDraw);
      var absorbed := AbsorbedDemand(currentLost, absorptionFactor, maxDaily);
      var offloadFactor := OffloadFactor(offloadDraw);
      var newLost := MaxReal(0.0, currentLost - absorbed as real);
      var added := absorbed + OffloadGrowth(currentTotal, offloadFactor);
      var newTotal := currentTotal + added as real;
      AttemptsStayPositive(currentTotal, currentLost, absorbed, added - absorbed);
      var newRate := NewSuccessRate(currentTotal, currentLost, newTotal, newLost, currentRate);
      var waitFactor := WaitReductionFactor(currentLost, absorbed);
      var newWait := NewWaitTime(currentWait, waitFactor);
      Some(Impact(
        newTotal, newLost, MinReal(100.0, newRate), currentAvailability + AvailabilityIncrement(capacity, availabilityDraw),
        Round1(newWait), absorptionFactor, absorbed, capacity, maxDaily,
        ImprovementSummary(currentLost - newLost, added, newRate - currentRate, currentWait - newWait)))
  }

  /** The absorbed demand: a rounded 80-95% share of the lost swaps (the
      share `AbsorbedDemand` states), capped by the daily throughput. */
  lemma ImpactAbsorption(k: Kpis, vs: VirtualStation, absorptionDraw: real, offloadDraw: real, availabilityDraw: real)
    requires IsDraw(absorptionDraw) && IsDraw(offloadDraw) && IsDraw(availabilityDraw)
    requires k.CountsNonNegative()
    ensures
      var i := CalculateVirtualStationImpact(Some(k), Some(vs), absorptionDraw, offloadDraw, availabilityDraw).value;
      var lost := k.totalLostSwaps.Or(0.0);
      && i.stationCapacity == EffectiveCapacity(vs)
      && i.maxDailyCapacity == Round(i.stationCapacity as real * SwapsPerSlotPerDay)
      && 0.80 <= i.absorptionFactor < 0.95
      && i.absorptionFactor == AbsorptionFactor(absorptionDraw)
      && i.absorbedDemand == AbsorbedDemand(lost, i.absorptionFactor, i.maxDailyCapacity)
      && 0 <= i.absorbedDemand <= i.maxDailyCapacity
      && i.absorbedDemand <= Round(lost * 0.95)
  {
    var lost := k.totalLostSwaps.Or(0.0);
    var i := CalculateVirtualStationImpact(Some(k), Some(vs), absorptionDraw, offloadDraw, availabilityDraw).value;
    assert i.absorbedDemand == AbsorbedDemand(lost, i.absorptionFactor, i.maxDailyCapacity);
  }

  /** Lost swaps: the absorbed demand is taken off the current count, which
      stops at 0; the reduction is the smaller of the two. */
  lemma ImpactLostSwaps(k: Kpis, vs: VirtualStation, absorptionDraw: real, offloadDraw: real, availabilityDraw: real)
    requires IsDraw(absorptionDraw) && IsDraw(offloadDraw) && IsDraw(availabilityDraw)
    requires k.CountsNonNegative()
    ensures
      var i := CalculateVirtualStationImpact(Some(k), Some(vs), absorptionDraw, offloadDraw, availabilityDraw).value;
      var lost := k.totalLostSwaps.Or(0.0);
      && 0.0 <= i.totalLostSwaps <= lost
      && i.summary.lostSwapsReduction == lost - i.totalLostSwaps
      && 0.0 <= i.summary.lostSwapsReduction <= i.absorbedDemand as real
      && (i.absorbedDemand as real >= lost ==> i.totalLostSwaps == 0.0)
      && i.totalLostSwaps == MaxReal(0.0, lost - i.absorbedDemand as real)
      && i.summary.lostSwapsReduction == MinReal(lost, i.absorbedDemand as real)
  {
  }

  /** Total swaps: the current ones plus the increase, which is the absorbed
      demand plus the offloading growth, 4.5% to 7.5% of the current swaps
      give or take the roundings. */
  lemma ImpactTotalSwaps(k: Kpis, vs: VirtualStation, absorptionDraw: real, offloadDraw: real, availabilityDraw: real)
    requires IsDraw(absorptionDraw) && IsDraw(offloadDraw) && IsDraw(availabilityDraw)
    requires k.CountsNonNegative()
    ensures
      var i := CalculateVirtualStationImpact(Some(k), Some(vs), absorptionDraw, offloadDraw, availabilityDraw).value;
      var total := k.totalSwaps.Or(0.0);
      && i.totalSwaps == total + i.summary.swapsIncrease as real
      && i.summary.swapsIncrease == i.absorbedDemand + OffloadGrowth(total, OffloadFactor(offloadDraw))
      && 0.045 * total - 0.65 < (i.summary.swapsIncrease - i.absorbedDemand) as real <= 0.075 * total + 0.65
      && i.summary.swapsIncrease >= i.absorbedDemand
      && i.totalSwaps >= total
  {
    var total := k.totalSwaps.Or(0.0);
    var i := CalculateVirtualStationImpact(Some(k), Some(vs), absorptionDraw, offloadDraw, availabilityDraw).value;
    var g := OffloadGrowth(total, OffloadFactor(offloadDraw));
    assert i.summary.swapsIncrease == i.absorbedDemand + g;
    OffloadShare(total, offloadDraw);
  }

  /** The offloading growth is 30% of a 15-25% share of the current swaps,
      give or take the two roundings. */
  lemma OffloadShare(total: real, offloadDraw: real)
    requires total >= 0.0 && IsDraw(offloadDraw)
    ensures 0.045 * total - 0.65 < OffloadGrowth(total, OffloadFactor(offloadDraw)) as real <= 0.075 * total + 0.65
  {
    var f := OffloadFactor(offloadDraw);
    var share := total * f;
    assert 0.15 <= f < 0.25;
    ProductMonotonic(total, f, 0.25);
    assert total * f <= total * 0.25;
    ProductMonotonic(total, 0.15, f);
    assert total * 0.15 <= total * f;
    var g := OffloadGrowth(total, f);
    assert share * 0.3 - 0.65 < g as real <= share * 0.3 + 0.65;
  }

  /** Availability: up by at least 3 and by less than 3 + 3 * (1 + capacity / 20). */
  lemma ImpactAvailability(k: Kpis, vs: VirtualStation, absorptionDraw: real, offloadDraw: real, availabilityDraw: real)
    requires IsDraw(absorptionDraw) && IsDraw(offloadDraw) && IsDraw(availabilityDraw)
    requires k.CountsNonNegative()
    ensures
      var i := CalculateVirtualStationImpact(Some(k), Some(vs), absorptionDraw, offloadDraw, availabilityDraw).value;
      var before := k.avgBatteryAvailability.Or(0.0);
      before + 3.0 <= i.avgBatteryAvailability < before + 3.0 + 3.0 * (1.0 + i.stationCapacity as real / 20.0)
  {
  }

  /** Wait time: the current wait cut by the factor the absorbed share of
      lost swaps gives; at least 3 minutes, at most 60% of the current one (or 3), reported to one decimal. */
  lemma ImpactWaitTime(k: Kpis, vs: VirtualStation, absorptionDraw: real, offloadDraw: real, availabilityDraw: real)
    requires IsDraw(absorptionDraw) && IsDraw(offloadDraw) && IsDraw(availabilityDraw)
    requires k.CountsNonNegative()
    ensures
      var i := CalculateVirtualStationImpact(Some(k), Some(vs), absorptionDraw, offloadDraw, availabilityDraw).value;
      var before := CurrentWaitTime(k);
      var after := before - i.summary.waitTimeReduction;
      && after == NewWaitTime(before, WaitReductionFactor(k.totalLostSwaps.Or(0.0), i.absorbedDemand))
      && after >= 3.0
      && (before >= 0.0 ==> after <= MaxReal(3.0, 0.6 * before))
      && (before >= 0.0 && i.absorbedDemand as real <= k.totalLostSwaps.Or(0.0) ==> after >= 0.2 * before)
      && i.avgWaitTimeMins >= 3.0
      && i.avgWaitTimeMins * 10.0 == Round(i.avgWaitTimeMins * 10.0) as real
      && after - 0.05 < i.avgWaitTimeMins <= after + 0.05
  {
    var lost := k.totalLostSwaps.Or(0.0);
    var before := CurrentWaitTime(k);
    var i := CalculateVirtualStationImpact(Some(k), Some(vs), absorptionDraw, offloadDraw, availabilityDraw).value;
    var factor := WaitReductionFactor(lost, i.absorbedDemand);
    var after := NewWaitTime(before, factor);
    if before >= 0.0 {
      NewWaitTimeUpper(before, factor);
      if i.absorbedDemand as real <= lost {
        NewWaitTimeLower(before, factor);
      }
    }
    assert i.absorbedDemand == AbsorbedDemand(lost, i.absorptionFactor, i.maxDailyCapacity);
    assert before - i.summary.waitTimeReduction == after;
    assert i.avgWaitTimeMins == Round1(after);
    Round1Bounds(after);
    Round1Monotonic(3.0, after);
    Round1OfTenths(30);
    assert 30 as real / 10.0 == 3.0;
    RoundOfInt(Round(after * 10.0));
  }

  /** The success rate of the new counts when there was demand before, else
      the current rate. */
  function NewSuccessRate(total: real, lost: real, newTotal: real, newLost: real, currentRate: real): (n: real)
    requires 0.0 <= total <= newTotal && 0.0 <= newLost <= lost
    requires total + lost > 0.0 ==> newTotal + newLost > 0.0
    ensures total + lost > 0.0 ==> n * (newTotal + newLost) == newTotal * 100.0
    ensures total + lost == 0.0 ==> n == currentRate
  {
    if total + lost > 0.0 then
      ShareMonotonic(total, lost, newTotal, newLost);
      newTotal / (newTotal + newLost) * 100.0
    else currentRate
  }

  /** `Math.max(3, wait * (1 - factor))`. */
  function NewWaitTime(wait: real, factor: real): (w: real)
    ensures w >= 3.0
  {
    MaxReal(3.0, wait * (1.0 - factor))
  }

  /** A cut of at least 40% leaves at most 60% of the current wait (or 3 minutes). */
  lemma NewWaitTimeUpper(wait: real, factor: real)
    requires wait >= 0.0 && factor >= 0.4
    ensures NewWaitTime(wait, factor) <= MaxReal(3.0, 0.6 * wait)
  {
    ProductMonotonic(wait, 1.0 - factor, 0.6);
  }

  /** The more of the lost swaps the station absorbs, the larger the cut. */
  lemma WaitReductionMonotonic(lost: real, a1: int, a2: int)
    requires lost >= 0.0 && 0 <= a1 <= a2
    ensures WaitReductionFactor(lost, a1) <= WaitReductionFactor(lost, a2)
  {
    if lost > 0.0 {
      var f1 := WaitReductionFactor(lost, a1);
      var f2 := WaitReductionFactor(lost, a2);
      assert (f2 - f1) * lost == 0.4 * (a2 - a1) as real;
      ProductSignPositive(f2 - f1, lost);
    }
  }

  /** Absorbing more lost demand never leaves a longer wait. */
  lemma WaitShorterWithMoreAbsorbed(wait: real, lost: real, a1: int, a2: int)
    requires wait >= 0.0 && lost >= 0.0 && 0 <= a1 <= a2
    ensures NewWaitTime(wait, WaitReductionFactor(lost, a2)) <= NewWaitTime(wait, WaitReductionFactor(lost, a1))
  {
    WaitReductionMonotonic(lost, a1, a2);
    ProductMonotonic(wait, 1.0 - WaitReductionFactor(lost, a2), 1.0 - WaitReductionFactor(lost, a1));
  }

  /** A cut of at most 80% keeps at least 20% of the current wait. */
  lemma NewWaitTimeLower(wait: real, factor: real)
    requires wait >= 0.0 && factor <= 0.8
    ensures NewWaitTime(wait, factor) >= 0.2 * wait
  {
    ProductMonotonic(wait, 0.2, 1.0 - factor);
  }

  /** The estimated success rate is capped at 100. With no current demand it
      is the current rate (capped); otherwise it is the served share of the
      new demand, which is never below the share the current counts give. */
  lemma {:induction false} ImpactSuccessRate(k: Kpis, vs: VirtualStation, absorptionDraw: real, offloadDraw: real, availabilityDraw: real)
    requires IsDraw(absorptionDraw) && IsDraw(offloadDraw) && IsDraw(availabilityDraw)
    requires k.CountsNonNegative()
    ensures
      var r := CalculateVirtualStationImpact(Some(k), Some(vs), absorptionDraw, offloadDraw, availabilityDraw).value;
      var total := k.totalSwaps.Or(0.0);
      var lost := k.totalLostSwaps.Or(0.0);
      && r.successRate <= 100.0
      && r.summary.successRateImprovement == (if total + lost > 0.0 then r.totalSwaps / (r.totalSwaps + r.totalLostSwaps) * 100.0 else k.successRate.Or(0.0)) - k.successRate.Or(0.0)
      && (total + lost == 0.0 ==> r.successRate == MinReal(100.0, k.successRate.Or(0.0)))
      && (total + lost > 0.0 ==>
            && r.totalSwaps + r.totalLostSwaps > 0.0
            && r.successRate == r.totalSwaps / (r.totalSwaps + r.totalLostSwaps) * 100.0
            && r.successRate >= total / (total + lost) * 100.0
            && (r.totalLostSwaps == 0.0 ==> r.successRate == 100.0))
  {
    var total := k.totalSwaps.Or(0.0);
    var lost := k.totalLostSwaps.Or(0.0);
    var rate := k.successRate.Or(0.0);
    var r := CalculateVirtualStationImpact(Some(k), Some(vs), absorptionDraw, offloadDraw, availabilityDraw).value;
    ImpactLostSwaps(k, vs, absorptionDraw, offloadDraw, availabilityDraw);
    ImpactTotalSwaps(k, vs, absorptionDraw, offloadDraw, availabilityDraw);
    var newRate := NewSuccessRate(total, lost, r.totalSwaps, r.totalLostSwaps, rate);
    assert r.successRate == MinReal(100.0, newRate);
    assert r.summary.successRateImprovement == newRate - rate;
    NewSuccessRateBounds(total, lost, r.totalSwaps, r.totalLostSwaps, rate);
  }

  /** With demand before, the new rate is the served share of the new counts,
      at most 100, at least the old share, and 100 once nothing is lost. */
  lemma NewSuccessRateBounds(total: real, lost: real, newTotal: real, newLost: real, currentRate: real)
    requires 0.0 <= total <= newTotal && 0.0 <= newLost <= lost
    requires total + lost > 0.0 ==> newTotal + newLost > 0.0
    ensures total + lost == 0.0 ==> NewSuccessRate(total, lost, newTotal, newLost, currentRate) == currentRate
    ensures total + lost > 0.0 ==>
      var n := NewSuccessRate(total, lost, newTotal, newLost, currentRate);
      && n == newTotal / (newTotal + newLost) * 100.0
      && n <= 100.0
      && n >= total / (total + lost) * 100.0
      && (newLost == 0.0 ==> n == 100.0)
  {
    if total + lost > 0.0 {
      ShareMonotonic(total, lost, newTotal, newLost);
      ShareAtMostWhole(newTotal, newLost);
      if newLost == 0.0 {
        assert newTotal + newLost == newTotal;
        assert newTotal / newTotal == 1.0;
      }
    }
  }

  /** Demand that existed stays demand after the virtual station is added. */
  lemma AttemptsStayPositive(total: real, lost: real, absorbed: int, extra: int)
    requires total >= 0.0 && lost >= 0.0 && absorbed >= 0 && extra >= 0
    ensures total + lost > 0.0 ==> (total + (absorbed + extra) as real) + MaxReal(0.0, lost - absorbed as real) > 0.0
  {
  }

  lemma ProductNonNegative(a: real, b: real)
    requires a >= 0.0 && b >= 0.0
    ensures a * b >= 0.0
  {
  }

  lemma ProductMonotonic(a: real, b: real, c: real)
    requires a >= 0.0 && b <= c
    ensures a * b <= a * c
  {
  }

  lemma ProductBelow(u: real, b: real)
    requires 0.0 <= u < 1.0 && b > 0.0
    ensures u * b < b
  {
  }

  lemma RatioBounds(a: real, b: real)
    requires a >= 0.0 && b >= 0.0
    ensures b > 0.0 ==> a / b >= 0.0
    ensures b > 0.0 && a <= b ==> a / b <= 1.0
  {
  }

  /** A factor of a non-negative product with a positive factor is not negative. */
  lemma ProductSignPositive(a: real, b: real)
    requires b > 0.0 && a * b >= 0.0
    ensures a >= 0.0
  {
  }

  /** A served share is at most the whole. */
  lemma ShareAtMostWhole(served: real, lost: real)
    requires served >= 0.0 && lost >= 0.0 && served + lost > 0.0
    ensures 0.0 <= served / (served + lost) <= 1.0
  {
  }

  /** Serving more and losing less never lowers the served share. */
  lemma ShareMonotonic(served: real, lost: real, served': real, lost': real)
    requires 0.0 <= served <= served' && 0.0 <= lost' <= lost
    requires served + lost > 0.0 && served' + lost' > 0.0
    ensures served / (served + lost) * 100.0 <= served' / (served' + lost') * 100.0
  {
    var d, d' := served + lost, served' + lost';
    ProductMonotonic(served, lost', lost);
    ProductMonotonic(lost, served, served');
    assert served * lost' <= served' * lost;
    assert served * d' == served * served' + served * lost';
    assert served' * d == served' * served + served' * lost;
    DivideCross(served, d, served', d');
  }

  lemma DivideCross(a: real, b: real, c: real, d: real)
    requires b > 0.0 && d > 0.0 && a * d <= c * b
    ensures a / b <= c / d
    ensures a / b * 100.0 <= c / d * 100.0
  {
    assert a / b == (a * d) / (b * d);
    assert c / d == (c * b) / (b * d);
  }

  // ---------------------------------------------------------------------
  // Ownership model

  /** Partner Owned Partner Operated, or Company Owned Company Operated. */
  datatype OwnershipModel = Popo | Coco
  {
    function Name(): string {
      match this
      case Popo => "POPO"
      case Coco => "COCO"
    }

    function FullName(): string {
      match this
      case Popo => PopoFullName
      case Coco => CocoFullName
    }
  }

  datatype Financials = Financials(estimatedSetupCost: string, revenueShare: string, breakeven: string)

  const PopoFullName: string := "Partner Owned Partner Operated"
  const CocoFullName: string := "Company Owned Company Operated"
  const NoDataText: string := "No existing stations data available - default to company ownership."
  const DenseText: string :=
    " existing stations within 2km radius. High-density area suitable for partner model - leverages local expertise and existing customer relationships."
  const GreenfieldText: string :=
    "Greenfield location with no existing stations nearby. Company ownership ensures brand standards in new market."
  const EmergingText: string :=
    " station(s) within 2km radius. Emerging market area - company ownership recommended to establish strong brand presence before partnering."
  const DefaultBenefits: seq<string> := ["Full control over operations", "Direct quality assurance", "Faster decision making"]
  const PopoBenefits: seq<string> := [
    "Lower capital investment for company", "Partner has local market knowledge", "Faster deployment timeline",
    "Shared operational risk", "Partner incentivized for performance"]
  const CocoBenefits: seq<string> := [
    "Full control over customer experience", "Higher long-term margins", "Direct data ownership",
    "Brand building in new area", "Flexibility in operations"]
  const PopoFinancials: Financials := Financials("₹3-5 Lakhs (partner bears)", "70% Partner / 30% Company", "6-9 months")
  const CocoFinancials: Financials := Financials("₹15-20 Lakhs", "100% Company", "12-18 months")

  /** Why a model is recommended; `ReasonText` gives the sentence shown. */
  datatype Reason = NoData | Dense(count: nat) | Greenfield | Emerging(count: nat)

  function ReasonText(reason: Reason, fmt: Formatter): (r: string)
    ensures reason.NoData? ==> r == NoDataText
    ensures reason.Greenfield? ==> r == GreenfieldText
    ensures reason.Dense? ==> r == fmt(reason.count as real, Plain) + DenseText
    ensures reason.Emerging? ==> r == "Only " + fmt(reason.count as real, Plain) + EmergingText
  {
    match reason
    case NoData => NoDataText
    case Dense(n) => fmt(n as real, Plain) + DenseText
    case Greenfield => GreenfieldText
    case Emerging(n) => "Only " + fmt(n as real, Plain) + EmergingText
  }

  /** An ownership recommendation. The count of neighbours and the financials
      are absent from the default recommendation given without data. */
  datatype Ownership = Ownership(
    model: OwnershipModel,
    nearbyStationCount: Option<nat>,
    reason: Reason,
    benefits: seq<string>,
    financials: Option<Financials>)

  /** A roster station counts as a neighbour when it has a (truthy) position
      within the catchment radius of the virtual station. */
  predicate IsNearby(vs: VirtualStation, st: Station, distance: Distance)
    ensures IsNearby(vs, st, distance) <==>
      st.lat.Num? && st.lat.v != 0.0 && st.lon.Num? && st.lon.v != 0.0
      && distance(vs.lat, vs.lon, st.lat.v, st.lon.v) <= 2.0
  {
    !st.lat.IsFalsy() && !st.lon.IsFalsy() && distance(vs.lat, vs.lon, st.lat.v, st.lon.v) <= CatchmentKm
  }

  function NearbyStations(vs: VirtualStation, stations: seq<Station>, distance: Distance): (r: seq<Station>)
    ensures |r| <= |stations|
    ensures forall st :: st in r <==> st in stations && IsNearby(vs, st, distance)
    ensures forall st :: multiset(r)[st] == if IsNearby(vs, st, distance) then multiset(stations)[st] else 0
  {
    Filter(stations, st => IsNearby(vs, st, distance))
  }

  /** Recommends the partner model where at least three stations lie within
      2 km, and company ownership otherwise or when there is no data. */
  function CalculateOwnershipModel(vs: Option<VirtualStation>, allStations: Option<seq<Station>>, distance: Distance): (r: Ownership)
    ensures r.nearbyStationCount.None? <==> vs.None? || allStations.None? || |allStations.value| == 0
    ensures r.nearbyStationCount.None? ==> r.model == Coco && r.reason == NoData && r.benefits == DefaultBenefits && r.financials.None?
    ensures r.nearbyStationCount.Some? ==>
      var n := r.nearbyStationCount.value;
      && n == |NearbyStations(vs.value, allStations.value, distance)|
      && (r.model == Popo <==> n >= PopoThreshold)
      && r.reason == (if n >= PopoThreshold then Dense(n) else if n == 0 then Greenfield else Emerging(n))
      && r.benefits == (if r.model == Popo then PopoBenefits else CocoBenefits)
      && r.financials == Some(if r.model == Popo then PopoFinancials else CocoFinancials)
  {
    if vs.None? || allStations.None? || |allStations.value| == 0 then
      Ownership(Coco, None, NoData,
        DefaultBenefits, None)
    else
      var nearbyCount := |NearbyStations(vs.value, allStations.value, distance)|;
      if nearbyCount >= PopoThreshold then
        Ownership(Popo, Some(nearbyCount), Dense(nearbyCount),
          PopoBenefits, Some(PopoFinancials))
      else
        Ownership(Coco, Some(nearbyCount), if nearbyCount == 0 then Greenfield else Emerging(nearbyCount),
          CocoBenefits, Some(CocoFinancials))
  }

  /** Adding a station to the roster never turns a partner recommendation into
      a company one. */
  lemma OwnershipMonotonic(vs: VirtualStation, stations: seq<Station>, extra: Station, distance: Distance)
    requires CalculateOwnershipModel(Some(vs), Some(stations), distance).model == Popo
    ensures CalculateOwnershipModel(Some(vs), Some(stations + [extra]), distance).model == Popo
  {
    var p := st => IsNearby(vs, st, distance);
    FilterConcat(stations, [extra], p);
    assert |NearbyStations(vs, stations + [extra], distance)| >= |NearbyStations(vs, stations, distance)|;
  }

  // ---------------------------------------------------------------------
  // Insight text

  /** `x || d` on a number that is always present. */
  function OrReal(x: real, d: real): real { if x == 0.0 then d else x }

  const HeadlineStart: string := "\U{1F4A1} AI Insight: A new station ("
  const HeadlineMiddle: string := " capacity, ~"
  const HeadlineEnd: string :=
    " swaps/day potential) provides significantly more capacity than adding chargers to existing stations."
  const ResultsHeading: string := "\U{1F4CA} Simulation Results:"
  const Bullet: string := "\U{2022} "
  const AbsorbedShareText: string := "% of unmet demand absorbed"
  const CapturedText: string := " additional swaps captured"
  const LostReducedText: string := "\U{2022} Lost swaps reduced by "
  const SuccessImprovedText: string := "\U{2022} Success rate improved by "
  const WaitReducedText: string := "\U{2022} Wait time reduced by "
  const OwnershipHeading: string := "\U{1F3E2} Ownership Recommendation: "
  const RecommendationStart: string := "\U{1F3AF} Recommendation: This location ("
  const RecommendationEnd: string := ") shows strong potential for a new station deployment."

  /** The simulation figures: a headline, a blank line, the results heading,
      five result bullets and a blank line. */
  function ResultLines(impact: Impact, fmt: Formatter): (r: seq<string>)
    ensures |r| == 9 && r[1] == "" && r[8] == ""
  {
    var factorPercent := Round(OrReal(impact.absorptionFactor, 0.85) * 100.0);
    [ HeadlineStart + fmt(impact.stationCapacity as real, Plain) + HeadlineMiddle
        + fmt(impact.maxDailyCapacity as real, Plain) + HeadlineEnd,
      "",
      ResultsHeading,
      Bullet + fmt(factorPercent as real, Plain) + AbsorbedShareText,
      Bullet + fmt(impact.absorbedDemand as real, Plain) + CapturedText,
      LostReducedText + fmt(OrReal(impact.summary.lostSwapsReduction, 0.0), Fixed(0)),
      SuccessImprovedText + fmt(OrReal(impact.summary.successRateImprovement, 0.0), Fixed(1)) + "%",
      WaitReducedText + fmt(OrReal(impact.summary.waitTimeReduction, 0.0), Fixed(1)) + " min",
      "" ]
  }

  /** The ownership block: the model, its full name, the reason and a blank line. */
  function OwnershipLines(o: Ownership, fmt: Formatter): (r: seq<string>)
    ensures |r| == 4 && r[3] == ""
  {
    [ OwnershipHeading + o.model.Name(),
      "   " + o.model.FullName(),
      "   " + ReasonText(o.reason, fmt),
      "" ]
  }

  /** The closing line naming the distance and the parent station. */
  function RecommendationLine(vs: VirtualStation, fmt: Formatter): (r: string)
    ensures var d := fmt(vs.distanceKm, Fixed(2));
      var at := |RecommendationStart| + |d| + |" km from "|;
      && |r| == at + |vs.parentStation| + |RecommendationEnd|
      && r[..|RecommendationStart|] == RecommendationStart
      && r[|RecommendationStart|..|RecommendationStart| + |d|] == d
      && r[at..at + |vs.parentStation|] == vs.parentStation
      && r[at + |vs.parentStation|..] == RecommendationEnd
  {
    RecommendationStart + fmt(vs.distanceKm, Fixed(2)) + " km from " + vs.parentStation + RecommendationEnd
  }

  /** The lines of the insight, in order. */
  function InsightLines(impact: Impact, vs: VirtualStation, ownership: Option<Ownership>, fmt: Formatter): (r: seq<string>)
    ensures |r| == (if ownership.Some? then 14 else 10)
    ensures r[..9] == ResultLines(impact, fmt)
    ensures ownership.Some? ==> r[9..13] == OwnershipLines(ownership.value, fmt)
    ensures r[|r| - 1] == RecommendationLine(vs, fmt)
  {
    ResultLines(impact, fmt) + (if ownership.Some? then OwnershipLines(ownership.value, fmt) else []) + [RecommendationLine(vs, fmt)]
  }

  /** The insight text: the lines joined with newlines, or nothing without
      an estimate and a station. */
  function InsightText(impact: Option<Impact>, vs: Option<VirtualStation>, ownership: Option<Ownership>, fmt: Formatter): (r: Option<string>)
    ensures r.None? <==> impact.None? || vs.None?
    ensures r.Some? ==> r.value == Join(InsightLines(impact.value, vs.value, ownership, fmt), "\n")
    ensures r.Some? ==> HeadlineStart <= r.value && r.value != ""
  {
    if impact.None? || vs.None? then None
    else
      var lines := InsightLines(impact.value, vs.value, ownership, fmt);
      var headline := lines[0];
      assert HeadlineStart <= headline;
      assert headline <= Join(lines, "\n");
      assert |HeadlineStart| > 0;
      Some(Join(lines, "\n"))
  }

  /** Builds the insight text line by line and joins the lines with newlines;
      there is no insight without an estimate and a station. */
  method GenerateVirtualStationInsight(
    impact: Option<Impact>, vs: Option<VirtualStation>, ownership: Option<Ownership>, fmt: Formatter
  ) returns (r: Option<string>)
    ensures r == InsightText(impact, vs, ownership, fmt)
  {
    if impact.None? || vs.None? {
      return None;
    }
    var insights := ResultLines(impact.value, fmt);
    if ownership.Some? {
      var o := ownership.value;
      insights := insights + [OwnershipHeading + o.model.Name()];
      insights := insights + ["   " + o.model.FullName()];
      insights := insights + ["   " + ReasonText(o.reason, fmt)];
      insights := insights + [""];
      assert insights == ResultLines(impact.value, fmt) + OwnershipLines(o, fmt);
    }
    var head := insights;
    assert head == ResultLines(impact.value, fmt) + (if ownership.Some? then OwnershipLines(ownership.value, fmt) else []);
    insights := insights + [RecommendationLine(vs.value, fmt)];
    assert insights == head + [RecommendationLine(vs.value, fmt)];
    r := Some(Join(insights, "\n"));
  }
}
