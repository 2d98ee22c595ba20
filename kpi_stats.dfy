/** The KPI cards: which value each card shows (scenario over baseline, the
    virtual-station estimate over both), the deltas and their colouring, the
    arrow of the virtual-station badge, and the capped progress bar. */
module KpiStats {
  import opened JsValues
  import opened Records
  import opened VirtualStationSimulation

  /** The four metrics the cards show, in display order. */
  datatype MetricKey = TotalSwaps | TotalLostSwaps | AvgBatteryAvailability | AvgWaitTimeMins

  /** `improveDirection`: whether a rise or a fall is the improvement. */
  datatype Direction = Up | Down

  datatype Metric = Metric(key: MetricKey, direction: Direction)

  const Metrics: seq<Metric> := [
    Metric(TotalSwaps, Up),
    Metric(TotalLostSwaps, Down),
    Metric(AvgBatteryAvailability, Up),
    Metric(AvgWaitTimeMins, Down)
  ]

  /** `record?.[key]`: a missing record reads as `undefined`. */
  function Field(k: Option<Kpis>, key: MetricKey): JsNum {
    match k
    case None => Undefined
    case Some(r) =>
      match key
      case TotalSwaps => r.totalSwaps
      case TotalLostSwaps => r.totalLostSwaps
      case AvgBatteryAvailability => r.avgBatteryAvailability
      case AvgWaitTimeMins => r.avgWaitTimeMins
  }

  /** `virtualStationImpact?.[key]`. */
  function ImpactField(impact: Option<Impact>, key: MetricKey): JsNum {
    match impact
    case None => Undefined
    case Some(i) => Field(Some(i.AsKpis()), key)
  }

  /** `scenario?.[key] ?? baseline?.[key]`. */
  function BaseValue(baseline: Option<Kpis>, scenario: Option<Kpis>, key: MetricKey): (r: JsNum)
    ensures !Field(scenario, key).IsNullish() ==> r == Field(scenario, key)
    ensures Field(scenario, key).IsNullish() ==> r == Field(baseline, key)
  {
    Field(scenario, key).Coalesce(Field(baseline, key))
  }

  /** `getEffectiveValue`: the scenario value, else the baseline value; while a
      virtual station is active its estimate takes precedence over both. */
  function GetEffectiveValue(baseline: Option<Kpis>, scenario: Option<Kpis>,
                             impact: Option<Impact>, active: bool, key: MetricKey): (r: JsNum)
    ensures active && impact.Some? ==> r == ImpactField(impact, key)
    ensures !(active && impact.Some?) && !Field(scenario, key).IsNullish() ==> r == Field(scenario, key)
    ensures !(active && impact.Some?) && Field(scenario, key).IsNullish() ==> r == Field(baseline, key)
    ensures r.IsNullish() <==>
      Field(scenario, key).IsNullish() && Field(baseline, key).IsNullish() && !(active && impact.Some?)
  {
    var base := BaseValue(baseline, scenario, key);
    if !active || impact.None? then base else ImpactField(impact, key).Coalesce(base)
  }

  /** `getDelta`: null when either value is falsy (0 included), else the
      scenario value minus the baseline value. */
  function GetDelta(baseline: Option<Kpis>, scenario: Option<Kpis>, key: MetricKey): (r: Option<real>)
    ensures r.None? <==> Field(baseline, key).IsFalsy() || Field(scenario, key).IsFalsy()
    ensures r.Some? ==> r.value == Field(scenario, key).v - Field(baseline, key).v
  {
    var b := Field(baseline, key);
    var s := Field(scenario, key);
    if b.IsFalsy() || s.IsFalsy() then None else Some(s.v - b.v)
  }

  /** Exchanging baseline and scenario negates the delta. */
  lemma DeltaAntisymmetric(baseline: Option<Kpis>, scenario: Option<Kpis>, key: MetricKey)
    ensures GetDelta(scenario, baseline, key).Some? == GetDelta(baseline, scenario, key).Some?
    ensures GetDelta(baseline, scenario, key).Some? ==>
      GetDelta(scenario, baseline, key).value == -GetDelta(baseline, scenario, key).value
  {
  }

  /** Whether a change of `delta` is an improvement for a metric of this direction. */
  function IsGood(direction: Direction, delta: real): bool {
    if direction == Down then delta < 0.0 else delta > 0.0
  }

  /** `${delta > 0 ? '+' : ''}${delta.toFixed(1)}`. */
  function DeltaText(delta: real, fmt: Formatter): string {
    (if delta > 0.0 then "+" else "") + fmt(delta, Fixed(1))
  }

  datatype Arrow = UpArrow | DownArrow

  /** The badge arrow: chosen from the improvement and the direction. */
  function ArrowOf(direction: Direction, good: bool): Arrow {
    if good then (if direction == Down then DownArrow else UpArrow)
    else (if direction == Down then UpArrow else DownArrow)
  }

  /** The badge shows the way the value moved, whatever the direction; an
      unchanged value is never an improvement and shows the worsening arrow. */
  lemma ArrowFollowsChange(direction: Direction, delta: real)
    ensures delta > 0.0 ==> ArrowOf(direction, IsGood(direction, delta)) == UpArrow
    ensures delta < 0.0 ==> ArrowOf(direction, IsGood(direction, delta)) == DownArrow
    ensures delta == 0.0 ==> !IsGood(direction, delta)
    ensures delta == 0.0 ==>
      ArrowOf(direction, IsGood(direction, delta)) == (if direction == Down then UpArrow else DownArrow)
  {
  }

  datatype VirtualDelta = VirtualDelta(value: real, isGood: bool, text: string, arrow: Arrow)

  /** `getVirtualDelta`: the change the virtual station's estimate makes to
      the value shown without it. Only an `undefined` value on either side
      withholds it; a `null` one counts as 0. */
  function GetVirtualDelta(baseline: Option<Kpis>, scenario: Option<Kpis>, impact: Option<Impact>,
                           active: bool, metric: Metric, fmt: Formatter): (r: Option<VirtualDelta>)
    ensures r.None? <==> !active || impact.None? || BaseValue(baseline, scenario, metric.key).Undefined?
    ensures r.Some? ==>
      r.value.value == ImpactField(impact, metric.key).v - BaseValue(baseline, scenario, metric.key).ToReal()
    ensures r.Some? ==> r.value.isGood == IsGood(metric.direction, r.value.value)
    ensures r.Some? ==> r.value.arrow == ArrowOf(metric.direction, r.value.isGood)
    ensures r.Some? ==> r.value.text == DeltaText(r.value.value, fmt)
  {
    if !active || impact.None? then None
    else
      var before := BaseValue(baseline, scenario, metric.key);
      if before.Undefined? then None
      else
        var after := ImpactField(impact, metric.key);
        if after.Undefined? then None
        else
          var delta := after.ToReal() - before.ToReal();
          var good := IsGood(metric.direction, delta);
          Some(VirtualDelta(delta, good, DeltaText(delta, fmt), ArrowOf(metric.direction, good)))
  }

  datatype Color = Green | Red | Gray

  datatype FormattedDelta = FormattedDelta(text: string, isGood: bool, color: Color)

  /** `formatDelta`: null for a null delta; otherwise a signed one-decimal text,
      with a fall counted as the improvement for lost swaps only. */
  function FormatDelta(delta: Option<real>, key: MetricKey, fmt: Formatter): (r: Option<FormattedDelta>)
    ensures r.None? <==> delta.None?
    ensures r.Some? ==> r.value.text == DeltaText(delta.value, fmt)
    ensures r.Some? ==> r.value.isGood == IsGood(if key == TotalLostSwaps then Down else Up, delta.value)
    ensures r.Some? ==> (r.value.color == Green <==> r.value.isGood)
    ensures r.Some? ==> (r.value.color == Gray <==> delta.value == 0.0)
    ensures r.Some? ==> (r.value.color == Red <==> !r.value.isGood && delta.value != 0.0)
  {
    match delta
    case None => None
    case Some(d) =>
      var good := if key == TotalLostSwaps then d < 0.0 else d > 0.0;
      Some(FormattedDelta(DeltaText(d, fmt), good, if good then Green else if d != 0.0 then Red else Gray))
  }

  /** The wait-time card is a falling-is-better metric for the badge, yet its
      scenario delta is coloured as if rising were better: a shorter wait
      shows red. */
  lemma WaitTimeDeltaColouredAsRising(delta: real, fmt: Formatter)
    requires delta < 0.0
    ensures Metrics[3] == Metric(AvgWaitTimeMins, Down) && IsGood(Metrics[3].direction, delta)
    ensures FormatDelta(Some(delta), AvgWaitTimeMins, fmt).value.color == Red
  {
  }

  /** The scale of each card's progress bar. */
  function MaxValue(key: MetricKey): (m: real)
    ensures m > 0.0
  {
    match key
    case TotalSwaps => 150.0
    case TotalLostSwaps => 50.0
    case AvgBatteryAvailability => 20.0
    case AvgWaitTimeMins => 30.0
  }

  /** `Math.min(100, ((value || 0) / maxValues[key]) * 100)`. */
  function Percentage(value: JsNum, key: MetricKey): (p: real)
    ensures p <= 100.0
    ensures p == 100.0 <==> value.Or(0.0) >= MaxValue(key)
    ensures value.Or(0.0) >= 0.0 ==> p >= 0.0
    ensures value.Or(0.0) < MaxValue(key) ==> p * MaxValue(key) == value.Or(0.0) * 100.0
  {
    var m := MaxValue(key);
    var x := value.Or(0.0);
    PercentScale(x, m);
    MinReal(100.0, (x / m) * 100.0)
  }

  lemma PercentScale(x: real, m: real)
    requires m > 0.0
    ensures (x / m) * 100.0 >= 100.0 <==> x >= m
    ensures x >= 0.0 ==> (x / m) * 100.0 >= 0.0
    ensures ((x / m) * 100.0) * m == x * 100.0
  {
    assert (x / m) * m == x;
  }

  /** A larger value never shortens the bar. */
  lemma PercentageMonotonic(x: JsNum, y: JsNum, key: MetricKey)
    requires x.Or(0.0) <= y.Or(0.0)
    ensures Percentage(x, key) <= Percentage(y, key)
  {
    var m := MaxValue(key);
    DivideMonotonic(x.Or(0.0), y.Or(0.0), m);
  }

  lemma DivideMonotonic(x: real, y: real, m: real)
    requires m > 0.0 && x <= y
    ensures (x / m) * 100.0 <= (y / m) * 100.0
  {
    assert y / m - x / m == (y - x) / m;
  }

  /** What one card shows. */
  datatype Card = Card(
    metric: Metric,
    value: JsNum,
    delta: Option<FormattedDelta>,
    virtualDelta: Option<VirtualDelta>,
    percentage: real)

  /** The card of one metric. */
  function CardOf(baseline: Option<Kpis>, scenario: Option<Kpis>, impact: Option<Impact>,
                  active: bool, metric: Metric, fmt: Formatter): (c: Card)
    ensures c.metric == metric
    ensures c.value == GetEffectiveValue(baseline, scenario, impact, active, metric.key)
    ensures c.delta == FormatDelta(GetDelta(baseline, scenario, metric.key), metric.key, fmt)
    ensures c.virtualDelta == GetVirtualDelta(baseline, scenario, impact, active, metric, fmt)
    ensures c.percentage == Percentage(c.value, metric.key) && c.percentage <= 100.0
  {
    var value := GetEffectiveValue(baseline, scenario, impact, active, metric.key);
    Card(metric, value,
         FormatDelta(GetDelta(baseline, scenario, metric.key), metric.key, fmt),
         GetVirtualDelta(baseline, scenario, impact, active, metric, fmt),
         Percentage(value, metric.key))
  }

  /** The component: loading skeletons (`None`) exactly when neither a baseline
      nor a scenario KPI set is given, else one card per metric in order. */
  function Render(baseline: Option<Kpis>, scenario: Option<Kpis>, impact: Option<Impact>,
                  active: bool, fmt: Formatter): (r: Option<seq<Card>>)
    ensures r.None? <==> baseline.None? && scenario.None?
    ensures r.Some? ==> |r.value| == |Metrics|
    ensures r.Some? ==> forall i :: 0 <= i < |Metrics| ==>
      r.value[i] == CardOf(baseline, scenario, impact, active, Metrics[i], fmt)
      && r.value[i].metric == Metrics[i]
      && r.value[i].value == GetEffectiveValue(baseline, scenario, impact, active, Metrics[i].key)
      && r.value[i].percentage <= 100.0
  {
    if baseline.None? && scenario.None? then None
    else Some(seq(|Metrics|, i requires 0 <= i < |Metrics| => CardOf(baseline, scenario, impact, active, Metrics[i], fmt)))
  }

  /** With a virtual station active every card shows its estimate, and the
      badge shows the change against the value shown without it. */
  lemma ActiveCardsShowEstimate(baseline: Option<Kpis>, scenario: Option<Kpis>, impact: Impact,
                                fmt: Formatter, i: nat)
    requires baseline.Some? || scenario.Some?
    requires i < |Metrics|
    ensures Render(baseline, scenario, Some(impact), true, fmt).Some?
    ensures Render(baseline, scenario, Some(impact), true, fmt).value[i].value.Num?
    ensures var card := Render(baseline, scenario, Some(impact), true, fmt).value[i];
      card.virtualDelta.Some? <==> !BaseValue(baseline, scenario, Metrics[i].key).Undefined?
  {
    var cards := Render(baseline, scenario, Some(impact), true, fmt).value;
    assert cards[i] == CardOf(baseline, scenario, Some(impact), true, Metrics[i], fmt);
  }
}
