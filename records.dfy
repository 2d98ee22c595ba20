/** The records the dashboard receives from the simulation service. */
module Records {
  import opened JsValues

  /** A station as the client sees it. A roster entry carries an id, a
      position and an initial stock; a timeline record adds the hour of day,
      the iteration (simulated day) and that hour's counters. Any field but
      the id may be missing. */
  datatype Station = Station(
    stationId: string,
    lat: JsNum,
    lon: JsNum,
    initialStock: JsNum,
    hour: Option<int>,
    iteration: Option<int>,
    swapsCompleted: JsNum,
    lostSwaps: JsNum,
    availableBatteries: JsNum)
  {
    /** Swap counters are never negative (the service's data contract). */
    predicate CountsNonNegative() {
      swapsCompleted.Or(0.0) >= 0.0 && lostSwaps.Or(0.0) >= 0.0
    }
  }

  /** A KPI set: `{total_swaps, total_lost_swaps, success_rate,
      avg_battery_availability, avg_wait_time_mins}`; a field may be missing. */
  datatype Kpis = Kpis(
    totalSwaps: JsNum,
    totalLostSwaps: JsNum,
    successRate: JsNum,
    avgBatteryAvailability: JsNum,
    avgWaitTimeMins: JsNum)
  {
    /** Swap counts are never negative (the service's data contract). */
    predicate CountsNonNegative() {
      totalSwaps.Or(0.0) >= 0.0 && totalLostSwaps.Or(0.0) >= 0.0
    }
  }

  /** Every record of a timeline keeps the counter contract. */
  predicate TimelineCountsNonNegative(timeline: seq<Station>) {
    forall i :: 0 <= i < |timeline| ==> timeline[i].CountsNonNegative()
  }
}
