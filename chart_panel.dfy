/** The hourly charts of the dashboard: timeline records grouped by hour of day
    (only the selected station's records counted when one is selected), the
    baseline and scenario rows paired by position, and the swap improvement. */
module ChartPanel {
  import opened JsValues
  import opened Records

  /** A record the grouping can add up: it has an hour, and no counter is
      missing (a `null` counter adds 0). */
  predicate ChartReady(t: Station) {
    t.hour.Some? && !t.swapsCompleted.Undefined? && !t.lostSwaps.Undefined?
    && !t.availableBatteries.Undefined?
  }

  predicate AllChartReady(data: seq<Station>) {
    forall t :: t in data ==> ChartReady(t)
  }

  /** `!selectedStation || item.station_id === selectedStation`. */
  predicate Contributes(t: Station, selected: Option<string>) {
    !TruthyString(selected) || t.stationId == selected.value
  }

  /** A record counted in the row of hour `h`. */
  predicate InBucket(t: Station, h: int, selected: Option<string>) {
    t.hour == Some(h) && Contributes(t, selected)
  }

  /** The records counted in the row of hour `h`, in input order. */
  function Bucket(data: seq<Station>, h: int, selected: Option<string>): (b: seq<Station>)
    ensures |b| <= |data|
    ensures forall t :: t in b <==> t in data && InBucket(t, h, selected)
    ensures forall t :: multiset(b)[t] == if InBucket(t, h, selected) then multiset(data)[t] else 0
  {
    if |data| == 0 then []
    else
      var b := Bucket(data[..|data| - 1], h, selected);
      assert data == data[..|data| - 1] + [data[|data| - 1]];
      assert forall t :: t in data <==> t in data[..|data| - 1] || t == data[|data| - 1];
      if InBucket(data[|data| - 1], h, selected) then b + [data[|data| - 1]] else b
  }

  /** One entry of the hourly dictionary: running sums and the number of
      records added. */
  datatype Acc = Acc(swaps: real, lost: real, available: real, count: nat)

  const EmptyAcc := Acc(0.0, 0.0, 0.0, 0)

  /** Adding one record to an entry (`null` adds 0; `undefined` counters are
      excluded by `ChartReady`). */
  function Add(a: Acc, t: Station): (r: Acc)
    ensures r.count == a.count + 1
    ensures r.swaps - a.swaps == t.swapsCompleted.Or(0.0)
    ensures r.lost - a.lost == t.lostSwaps.Or(0.0)
    ensures r.available - a.available == t.availableBatteries.Or(0.0)
  {
    Acc(a.swaps + t.swapsCompleted.Or(0.0), a.lost + t.lostSwaps.Or(0.0),
        a.available + t.availableBatteries.Or(0.0), a.count + 1)
  }

  /** The order in which two records are added does not matter. */
  lemma AddCommutes(a: Acc, t: Station, u: Station)
    ensures Add(Add(a, t), u) == Add(Add(a, u), t)
  {
  }

  /** The entry obtained by adding the records one after the other. */
  function Total(s: seq<Station>): (a: Acc)
    ensures a.count == |s|
  {
    if |s| == 0 then EmptyAcc else Add(Total(s[..|s| - 1]), s[|s| - 1])
  }

  /** A chart row; the label `${hour}:00` is kept as the hour itself, which
      `parseInt` of the label gives back. */
  datatype HourRow = HourRow(hour: int, swapsCompleted: int, lostSwaps: int, availableBatteries: int)

  /** The row an entry becomes: rounded sums of swaps and lost swaps, the
      rounded mean availability, and zeros for an entry nothing was added to. */
  function RowOf(h: int, a: Acc): (r: HourRow)
    ensures r.hour == h
    ensures a.count == 0 ==> r == HourRow(h, 0, 0, 0)
    ensures a.count > 0 ==> a.swaps - 0.5 < r.swapsCompleted as real <= a.swaps + 0.5
    ensures a.count > 0 ==> a.lost - 0.5 < r.lostSwaps as real <= a.lost + 0.5
    ensures a.count > 0 ==>
      a.available / a.count as real - 0.5 < r.availableBatteries as real <= a.available / a.count as real + 0.5
  {
    if a.count > 0 then
      RoundBounds(a.swaps);
      RoundBounds(a.lost);
      RoundBounds(a.available / a.count as real);
      HourRow(h, Round(a.swaps), Round(a.lost), Round(a.available / a.count as real))
    else HourRow(h, 0, 0, 0)
  }

  /** The row the chart shows for hour `h`. */
  function ExpectedRow(data: seq<Station>, h: int, selected: Option<string>): HourRow {
    RowOf(h, Total(Bucket(data, h, selected)))
  }

  predicate HasHour(data: seq<Station>, h: int) {
    exists k :: 0 <= k < |data| && data[k].hour == Some(h)
  }

  predicate StrictlyAscending(rows: seq<HourRow>) {
    forall j, k :: 0 <= j < k < |rows| ==> rows[j].hour < rows[k].hour
  }

  predicate DistinctHours(rows: seq<HourRow>) {
    forall j, k :: 0 <= j < k < |rows| ==> rows[j].hour != rows[k].hour
  }

  /** Inserting a row into rows sorted by hour. */
  function InsertByHour(x: HourRow, s: seq<HourRow>): (r: seq<HourRow>)
    requires StrictlyAscending(s)
    requires forall k :: 0 <= k < |s| ==> s[k].hour != x.hour
    ensures StrictlyAscending(r)
    ensures |r| == |s| + 1
    ensures forall y :: y in r <==> y == x || y in s
  {
    if |s| == 0 then [x]
    else if x.hour < s[0].hour then [x] + s
    else
      var rest := InsertByHour(x, s[1..]);
      assert forall y :: y in s <==> y == s[0] || y in s[1..];
      assert forall k :: 0 <= k < |rest| ==> rest[k].hour > s[0].hour by {
        assert forall k :: 0 <= k < |rest| ==> rest[k] in rest;
      }
      [s[0]] + rest
  }

  /** `.sort((a, b) => parseInt(a.hour) - parseInt(b.hour))` on rows whose
      hours are distinct, whose sorted order is therefore unique. */
  function SortByHour(rows: seq<HourRow>): (r: seq<HourRow>)
    requires DistinctHours(rows)
    ensures StrictlyAscending(r)
    ensures |r| == |rows|
    ensures forall y :: y in r <==> y in rows
  {
    if |rows| == 0 then []
    else
      var rest := SortByHour(rows[1..]);
      assert forall y :: y in rows <==> y == rows[0] || y in rows[1..];
      assert forall k :: 0 <= k < |rest| ==> rest[k] in rows[1..];
      InsertByHour(rows[0], rest)
  }

  /** Two row lists in strictly ascending hour order that hold the same rows
      are equal: the sorted rows do not depend on the order they came in. */
  lemma {:induction false} AscendingUnique(a: seq<HourRow>, b: seq<HourRow>)
    requires StrictlyAscending(a) && StrictlyAscending(b)
    requires |a| == |b| && forall y :: y in a <==> y in b
    ensures a == b
  {
    if |a| > 0 {
      assert a[0] in b;
      var i :| 0 <= i < |b| && b[i] == a[0];
      assert b[0] in a;
      var j :| 0 <= j < |a| && a[j] == b[0];
      assert a[0].hour <= a[j].hour;
      assert b[0].hour <= b[i].hour;
      assert i == 0;
      var a', b' := a[1..], b[1..];
      AscendingTail(a);
      AscendingTail(b);
      AscendingUnique(a', b');
      assert a == [a[0]] + a' && b == [b[0]] + b';
    }
  }

  /** The rows after the first of an ascending list are the others. */
  lemma AscendingTail(a: seq<HourRow>)
    requires StrictlyAscending(a) && |a| > 0
    ensures forall y :: y in a[1..] <==> y in a && y != a[0]
  {
    forall y | y in a[1..]
      ensures y != a[0]
    {
      var k :| 1 <= k < |a| && a[k] == y;
    }
  }

  lemma BucketStep(data: seq<Station>, i: nat, h: int, selected: Option<string>)
    requires i < |data|
    ensures Bucket(data[..i + 1], h, selected)
         == if InBucket(data[i], h, selected) then Bucket(data[..i], h, selected) + [data[i]]
            else Bucket(data[..i], h, selected)
  {
    assert data[..i + 1][..i] == data[..i];
  }

  /** No record counted, no record in the bucket. */
  lemma {:induction false} BucketEmpty(data: seq<Station>, h: int, selected: Option<string>)
    requires forall k :: 0 <= k < |data| ==> !InBucket(data[k], h, selected)
    ensures Bucket(data, h, selected) == []
  {
    if |data| > 0 {
      BucketEmpty(data[..|data| - 1], h, selected);
    }
  }

  lemma TotalStep(s: seq<Station>, t: Station)
    ensures Total(s + [t]) == Add(Total(s), t)
  {
    assert (s + [t])[..|s|] == s;
  }

  /** The keys of the dictionary are the hours of its insertion order. */
  ghost predicate OrderedKeys(hourly: map<int, Acc>, order: seq<int>) {
    (forall h :: h in hourly <==> h in order)
    && (forall j, k :: 0 <= j < k < |order| ==> order[j] != order[k])
  }

  /** The keys of the dictionary are the hours seen in `prefix`. */
  ghost predicate SeenKeys(prefix: seq<Station>, hourly: map<int, Acc>) {
    forall h :: h in hourly <==> HasHour(prefix, h)
  }

  /** Each entry sums the counted records of its hour in `prefix`. */
  ghost predicate SummedEntries(prefix: seq<Station>, hourly: map<int, Acc>, selected: Option<string>) {
    forall h :: h in hourly ==> hourly[h] == Total(Bucket(prefix, h, selected))
  }

  /** The dictionary `hourly` and its insertion order `order` after the
      records `prefix`: one entry per hour seen, holding the entry of that
      hour's counted records. */
  ghost predicate Grouped(prefix: seq<Station>, hourly: map<int, Acc>, order: seq<int>, selected: Option<string>) {
    OrderedKeys(hourly, order) && SeenKeys(prefix, hourly) && SummedEntries(prefix, hourly, selected)
  }

  /** The dictionary after one record: the entry of its hour is created if
      missing, then the record is added to it when it counts. */
  ghost function Recorded(hourly: map<int, Acc>, t: Station, selected: Option<string>): (r: map<int, Acc>)
    requires ChartReady(t)
    ensures forall h :: h in r <==> h in hourly || h == t.hour.value
    ensures forall h :: h in hourly && h != t.hour.value ==> r[h] == hourly[h]
    ensures var base := if t.hour.value in hourly then hourly[t.hour.value] else EmptyAcc;
            r[t.hour.value] == if Contributes(t, selected) then Add(base, t) else base
  {
    var hour := t.hour.value;
    var created := if hour in hourly then hourly else hourly[hour := EmptyAcc];
    if Contributes(t, selected) then created[hour := Add(created[hour], t)] else created
  }

  /** A new hour goes to the end of the insertion order. */
  lemma StepOrder(hourly: map<int, Acc>, order: seq<int>, t: Station, selected: Option<string>, order': seq<int>)
    requires ChartReady(t)
    requires OrderedKeys(hourly, order)
    requires order' == if t.hour.value in hourly then order else order + [t.hour.value]
    ensures OrderedKeys(Recorded(hourly, t, selected), order')
  {
    assert forall h :: h in order' <==> h in order || h == t.hour.value;
  }

  /** The hours of the dictionary after one more record are the hours seen. */
  lemma StepKeys(prefix: seq<Station>, t: Station, selected: Option<string>, hourly: map<int, Acc>)
    requires ChartReady(t)
    requires SeenKeys(prefix, hourly)
    ensures SeenKeys(prefix + [t], Recorded(hourly, t, selected))
  {
    var next := prefix + [t];
    assert forall h :: HasHour(next, h) <==> HasHour(prefix, h) || h == t.hour.value by {
      assert forall k :: 0 <= k < |prefix| ==> next[k] == prefix[k];
      assert next[|prefix|] == t;
    }
  }

  /** Every entry after one more record sums its hour's counted records. */
  lemma StepValues(prefix: seq<Station>, t: Station, selected: Option<string>, hourly: map<int, Acc>)
    requires ChartReady(t)
    requires SeenKeys(prefix, hourly) && SummedEntries(prefix, hourly, selected)
    ensures SummedEntries(prefix + [t], Recorded(hourly, t, selected), selected)
  {
    var hour := t.hour.value;
    var next := prefix + [t];
    var hourly' := Recorded(hourly, t, selected);
    assert next[..|prefix|] == prefix;
    forall h | h in hourly'
      ensures hourly'[h] == Total(Bucket(next, h, selected))
    {
      if h == hour {
        if hour !in hourly {
          BucketEmpty(prefix, hour, selected);
        }
        if Contributes(t, selected) {
          TotalStep(Bucket(prefix, hour, selected), t);
        }
      }
    }
  }

  /** One record handled by the loop keeps the dictionary grouped. */
  lemma GroupedStep(data: seq<Station>, i: nat, selected: Option<string>,
                    hourly: map<int, Acc>, order: seq<int>, hourly': map<int, Acc>, order': seq<int>)
    requires AllChartReady(data) && i < |data|
    requires Grouped(data[..i], hourly, order, selected)
    requires hourly' == Recorded(hourly, data[i], selected)
    requires order' == if data[i].hour.value in hourly then order else order + [data[i].hour.value]
    ensures Grouped(data[..i + 1], hourly', order', selected)
  {
    assert data[i] in data;
    assert data[..i + 1] == data[..i] + [data[i]];
    StepOrder(hourly, order, data[i], selected, order');
    StepKeys(data[..i], data[i], selected, hourly);
    StepValues(data[..i], data[i], selected, hourly);
  }

  /** `Object.values(hourlyMap).map(...)`: one row per entry of the
      dictionary, listed in the order the hours were first seen. JavaScript
      lists integer keys in ascending order instead; `AscendingUnique` shows
      the sort that follows makes the two orders give the same rows. */
  function Rows(hourly: map<int, Acc>, order: seq<int>): (r: seq<HourRow>)
    requires forall h :: h in order ==> h in hourly
    ensures |r| == |order|
    ensures forall k :: 0 <= k < |r| ==> r[k] == RowOf(order[k], hourly[order[k]])
  {
    seq(|order|, k requires 0 <= k < |order| => RowOf(order[k], hourly[order[k]]))
  }

  /** The rows of a grouped dictionary: one per hour seen, each the row
      expected for its hour. */
  lemma GroupedRows(data: seq<Station>, hourly: map<int, Acc>, order: seq<int>, selected: Option<string>)
    requires Grouped(data, hourly, order, selected)
    ensures DistinctHours(Rows(hourly, order))
    ensures forall h :: HasHour(data, h) <==> exists y :: y in Rows(hourly, order) && y.hour == h
    ensures forall y :: y in Rows(hourly, order) ==> y == ExpectedRow(data, y.hour, selected)
  {
    var values := Rows(hourly, order);
    forall h | HasHour(data, h)
      ensures exists y :: y in values && y.hour == h
    {
      var k :| 0 <= k < |order| && order[k] == h;
      assert values[k] in values;
    }
  }

  /** `processDataByHour`: a dictionary keyed by hour is filled record by
      record, then its values become rows sorted by hour. */
  method ProcessDataByHour(data: seq<Station>, selected: Option<string>) returns (rows: seq<HourRow>)
    requires AllChartReady(data)
    ensures StrictlyAscending(rows)
    ensures forall h :: HasHour(data, h) <==> exists y :: y in rows && y.hour == h
    ensures forall y :: y in rows ==> y == ExpectedRow(data, y.hour, selected)
  {
    var hourly: map<int, Acc> := map[];
    var order: seq<int> := [];
    var i := 0;
    while i < |data|
      invariant 0 <= i <= |data|
      invariant Grouped(data[..i], hourly, order, selected)
    {
      var item := data[i];
      assert item in data;
      var hour := item.hour.value;
      ghost var hourlyBefore, orderBefore := hourly, order;
      if hour !in hourly {
        hourly := hourly[hour := EmptyAcc];
        order := order + [hour];
      }
      if Contributes(item, selected) {
        hourly := hourly[hour := Add(hourly[hour], item)];
      }
      assert hourly == Recorded(hourlyBefore, item, selected);
      GroupedStep(data, i, selected, hourlyBefore, orderBefore, hourly, order);
      i := i + 1;
    }
    assert data[..i] == data;
    GroupedRows(data, hourly, order, selected);
    var values := Rows(hourly, order);
    rows := SortByHour(values);
  }

  /** When no station is selected every record of the hour is counted. */
  lemma {:induction false} UnselectedCountsAll(data: seq<Station>, h: int, selected: Option<string>)
    requires !TruthyString(selected)
    ensures Bucket(data, h, selected) == Bucket(data, h, None)
  {
    if |data| > 0 {
      UnselectedCountsAll(data[..|data| - 1], h, selected);
    }
  }

  /** When a station is selected a record of another station changes no row. */
  lemma OtherStationIgnored(data: seq<Station>, t: Station, h: int, selected: Option<string>)
    requires TruthyString(selected) && t.stationId != selected.value
    ensures Bucket(data + [t], h, selected) == Bucket(data, h, selected)
  {
    assert (data + [t])[..|data|] == data;
  }

  /** An hour seen only in records that are not counted gets a row of zeros. */
  lemma ZeroRow(data: seq<Station>, h: int, selected: Option<string>)
    requires forall k :: 0 <= k < |data| ==> !InBucket(data[k], h, selected)
    ensures ExpectedRow(data, h, selected) == HourRow(h, 0, 0, 0)
  {
    BucketEmpty(data, h, selected);
  }

  /** Sums of counters that are never negative are never negative. */
  lemma {:induction false} TotalNonNegative(s: seq<Station>)
    requires TimelineCountsNonNegative(s)
    ensures Total(s).swaps >= 0.0 && Total(s).lost >= 0.0
  {
    if |s| > 0 {
      var p := s[..|s| - 1];
      assert forall i :: 0 <= i < |p| ==> p[i] == s[i];
      TotalNonNegative(p);
      var t := s[|s| - 1];
      assert t in s;
      assert t.CountsNonNegative();
    }
  }

  /** Every row of a recorded timeline shows non-negative swap and lost counts. */
  lemma RowNonNegative(data: seq<Station>, h: int, selected: Option<string>)
    requires TimelineCountsNonNegative(data)
    ensures ExpectedRow(data, h, selected).swapsCompleted >= 0
    ensures ExpectedRow(data, h, selected).lostSwaps >= 0
  {
    var b := Bucket(data, h, selected);
    assert forall i :: 0 <= i < |b| ==> b[i] in data;
    TotalNonNegative(b);
  }

  /** One point of the comparison chart. */
  datatype ComparisonRow = ComparisonRow(
    hour: int,
    baselineSwaps: int, scenarioSwaps: int,
    baselineLost: int, scenarioLost: int,
    baselineBatteries: int, scenarioBatteries: int)

  /** `comparisonData`: baseline rows paired with the scenario row at the same
      position (not the same hour); a missing scenario row reads as zeros. */
  function ComparisonData(baseline: seq<HourRow>, scenario: seq<HourRow>): (r: seq<ComparisonRow>)
    ensures |r| == |baseline|
    ensures forall i :: 0 <= i < |r| ==>
      r[i].hour == baseline[i].hour
      && r[i].baselineSwaps == baseline[i].swapsCompleted
      && r[i].baselineLost == baseline[i].lostSwaps
      && r[i].baselineBatteries == baseline[i].availableBatteries
    ensures forall i :: 0 <= i < |r| && i < |scenario| ==>
      r[i].scenarioSwaps == scenario[i].swapsCompleted
      && r[i].scenarioLost == scenario[i].lostSwaps
      && r[i].scenarioBatteries == scenario[i].availableBatteries
    ensures forall i :: |scenario| <= i < |r| ==>
      r[i].scenarioSwaps == 0 && r[i].scenarioLost == 0 && r[i].scenarioBatteries == 0
  {
    seq(|baseline|, i requires 0 <= i < |baseline| =>
      var b := baseline[i];
      if i < |scenario| then
        ComparisonRow(b.hour, b.swapsCompleted, scenario[i].swapsCompleted, b.lostSwaps,
                      scenario[i].lostSwaps, b.availableBatteries, scenario[i].availableBatteries)
      else ComparisonRow(b.hour, b.swapsCompleted, 0, b.lostSwaps, 0, b.availableBatteries, 0))
  }

  /** No row reports a negative swap count. */
  predicate SwapsNonNegative(rows: seq<HourRow>) {
    forall k :: 0 <= k < |rows| ==> rows[k].swapsCompleted >= 0
  }

  /** `b` has as many rows as `a`, each serving at least the swaps of `a`'s row at the same position. */
  predicate SwapsDominated(a: seq<HourRow>, b: seq<HourRow>) {
    |a| == |b| && forall k :: 0 <= k < |a| ==> a[k].swapsCompleted <= b[k].swapsCompleted
  }

  /** `rows.reduce((sum, h) => sum + h.swaps_completed, 0)`. */
  function TotalSwaps(rows: seq<HourRow>): (t: int)
    ensures SwapsNonNegative(rows) ==> t >= 0
  {
    if |rows| == 0 then 0 else TotalSwaps(rows[..|rows| - 1]) + rows[|rows| - 1].swapsCompleted
  }

  /** Rows that serve at least as many swaps hour by hour add up to at least as many. */
  lemma {:induction false} TotalSwapsDominated(a: seq<HourRow>, b: seq<HourRow>)
    ensures SwapsDominated(a, b) ==> TotalSwaps(a) <= TotalSwaps(b)
  {
    if |a| > 0 && SwapsDominated(a, b) {
      TotalSwapsDominated(a[..|a| - 1], b[..|b| - 1]);
    }
  }

  /** `swapsImprovement`: the scenario's swaps less the baseline's. A scenario
      serving at least as many swaps at every position improves by at least 0,
      and identical runs by exactly 0. */
  function SwapsImprovement(baseline: seq<HourRow>, scenario: seq<HourRow>): (d: int)
    ensures SwapsDominated(baseline, scenario) ==> d >= 0
    ensures scenario == baseline ==> d == 0
  {
    TotalSwapsDominated(baseline, scenario);
    TotalSwaps(scenario) - TotalSwaps(baseline)
  }

  /** The swap gain the comparison chart shows, summed over its points. */
  function ComparisonGain(points: seq<ComparisonRow>): int {
    if |points| == 0 then 0
    else ComparisonGain(points[..|points| - 1])
         + points[|points| - 1].scenarioSwaps - points[|points| - 1].baselineSwaps
  }

  /** The `n`-th comparison point adds the scenario's swaps at that position
      (zero past its end) less the baseline's. */
  lemma ComparisonGainStep(baseline: seq<HourRow>, scenario: seq<HourRow>)
    requires |baseline| > 0
    ensures ComparisonGain(ComparisonData(baseline, scenario))
         == ComparisonGain(ComparisonData(baseline[..|baseline| - 1], scenario))
            + (if |baseline| - 1 < |scenario| then scenario[|baseline| - 1].swapsCompleted else 0)
            - baseline[|baseline| - 1].swapsCompleted
  {
    var n := |baseline|;
    var points := ComparisonData(baseline, scenario);
    assert points[..n - 1] == ComparisonData(baseline[..n - 1], scenario);
  }

  /** Taking one more scenario row adds its swaps, if there is one. */
  lemma TotalSwapsPrefixStep(scenario: seq<HourRow>, n: nat)
    requires n > 0
    ensures TotalSwaps(scenario[..Min(|scenario|, n)])
         == TotalSwaps(scenario[..Min(|scenario|, n - 1)])
            + (if n - 1 < |scenario| then scenario[n - 1].swapsCompleted else 0)
  {
    if n <= |scenario| {
      assert scenario[..n][..n - 1] == scenario[..n - 1];
    }
  }

  /** The comparison chart's gain counts the scenario rows up to the baseline's
      length only. */
  lemma {:induction false} ComparisonGainPrefix(baseline: seq<HourRow>, scenario: seq<HourRow>)
    ensures ComparisonGain(ComparisonData(baseline, scenario))
         == TotalSwaps(scenario[..Min(|scenario|, |baseline|)]) - TotalSwaps(baseline)
  {
    var n := |baseline|;
    if n > 0 {
      ComparisonGainStep(baseline, scenario);
      TotalSwapsPrefixStep(scenario, n);
      ComparisonGainPrefix(baseline[..n - 1], scenario);
    }
  }

  /** With as many scenario rows as baseline rows at most, the summary card's
      improvement is the gain the comparison chart shows. */
  lemma ImprovementMatchesChart(baseline: seq<HourRow>, scenario: seq<HourRow>)
    requires |scenario| <= |baseline|
    ensures SwapsImprovement(baseline, scenario) == ComparisonGain(ComparisonData(baseline, scenario))
  {
    ComparisonGainPrefix(baseline, scenario);
    assert scenario[..|scenario|] == scenario;
  }
}
