/** The derived reliability metrics engine of the asset service
    (`AssetService.calculateMetrics`): from an asset's maintenance history,
    ordered by date ascending, it accumulates uptime, downtime and the number of
    failures over consecutive pairs of records and derives MTBF, MTTR,
    availability and OEE against a fixed 720-hour planning horizon.

    Two behaviours are kept exactly as the service has them: only the type
    literal "corretiva" counts as a failure, and an interval that ends in a
    corrective record is added both to the uptime and to the downtime. */
module AssetMetrics {

  /** One maintenance record as the engine reads it: its date in epoch
      milliseconds and its type. */
  datatype Entry = Entry(dateMs: int, kind: string)

  /** The six metric fields written back onto the asset. */
  datatype Metrics = Metrics(
    mtbf: real,
    mttr: real,
    oee: real,
    availability: real,
    performance: real,
    quality: real)

  const Zero := Metrics(0.0, 0.0, 0.0, 0.0, 0.0, 0.0)

  /** 1000 * 60 * 60 */
  const MsPerHour: int := 3600000
  /** 24 * 30: a fixed 30-day horizon in hours. */
  const PlannedProductionHours: real := 720.0
  /** Simulated constants, not computed from data. */
  const Performance: real := 0.9
  const Quality: real := 0.95

  /** The only type the engine counts as a failure. */
  const FailureKind := "corretiva"

  predicate IsFailure(e: Entry) {
    e.kind == FailureKind
  }

  /** Dates never decrease along the history. */
  predicate Ascending(h: seq<Entry>) {
    forall j, k :: 0 <= j < k < |h| ==> h[j].dateMs <= h[k].dateMs
  }

  /** Duration of the interval that ends at record `k`. */
  function Gap(h: seq<Entry>, k: int): int
    requires 1 <= k < |h|
  {
    h[k].dateMs - h[k - 1].dateMs
  }

  // The three accumulators after the loop has visited records 1 .. i-1.

  function Uptime(h: seq<Entry>, i: int): int
    requires i <= |h|
    decreases i
  {
    if i <= 1 then 0 else Uptime(h, i - 1) + Gap(h, i - 1)
  }

  function Downtime(h: seq<Entry>, i: int): int
    requires i <= |h|
    decreases i
  {
    if i <= 1 then 0
    else Downtime(h, i - 1) + (if IsFailure(h[i - 1]) then Gap(h, i - 1) else 0)
  }

  function Failures(h: seq<Entry>, i: int): nat
    requires i <= |h|
    decreases i
  {
    if i <= 1 then 0
    else Failures(h, i - 1) + (if IsFailure(h[i - 1]) then 1 else 0)
  }

  /** The metrics derived from the three accumulators. */
  function Derive(totalUptime: int, totalDowntime: int, failureCount: nat): Metrics {
    var mtbf := if failureCount > 0 then totalUptime as real / (failureCount * MsPerHour) as real else 0.0;
    var mttr := if failureCount > 0 then totalDowntime as real / (failureCount * MsPerHour) as real else 0.0;
    var availability :=
      (PlannedProductionHours - totalDowntime as real / MsPerHour as real) / PlannedProductionHours;
    Metrics(mtbf, mttr, availability * Performance * Quality, availability, Performance, Quality)
  }

  /** What `calculateMetrics` returns for a history. */
  function MetricsOf(h: seq<Entry>): Metrics {
    if |h| < 2 then Zero
    else Derive(Uptime(h, |h|), Downtime(h, |h|), Failures(h, |h|))
  }

  /** The service's loop over consecutive pairs of records. */
  method CalculateMetrics(history: seq<Entry>) returns (m: Metrics)
    ensures m == MetricsOf(history)
  {
    if |history| < 2 {
      return Zero;
    }
    var totalUptime := 0;
    var totalDowntime := 0;
    var failureCount := 0;
    for i := 1 to |history|
      invariant totalUptime == Uptime(history, i)
      invariant totalDowntime == Downtime(history, i)
      invariant failureCount == Failures(history, i)
    {
      var current := history[i];
      var previous := history[i - 1];
      if current.kind == FailureKind {
        failureCount := failureCount + 1;
        var downtime := current.dateMs - previous.dateMs;
        totalDowntime := totalDowntime + downtime;
      }
      var uptime := current.dateMs - previous.dateMs;
      totalUptime := totalUptime + uptime;
    }
    var mtbf := if failureCount > 0 then totalUptime as real / (failureCount * MsPerHour) as real else 0.0;
    var mttr := if failureCount > 0 then totalDowntime as real / (failureCount * MsPerHour) as real else 0.0;
    var availability :=
      (PlannedProductionHours - totalDowntime as real / MsPerHour as real) / PlannedProductionHours;
    var oee := availability * Performance * Quality;
    m := Metrics(mtbf, mttr, oee, availability, Performance, Quality);
  }

  // ---------------------------------------------------------------------------
  // Properties of the engine

  /** With fewer than two records every metric is 0. */
  lemma FewerThanTwoRecords(h: seq<Entry>)
    requires |h| < 2
    ensures MetricsOf(h) == Metrics(0.0, 0.0, 0.0, 0.0, 0.0, 0.0)
  {
  }

  /** The consecutive differences telescope: the total uptime is the last
      visited date minus the first date. */
  lemma {:induction false} UptimeTelescopes(h: seq<Entry>, i: int)
    requires 1 <= i <= |h|
    ensures Uptime(h, i) == h[i - 1].dateMs - h[0].dateMs
  {
    if i > 1 {
      UptimeTelescopes(h, i - 1);
    }
  }

  /** The whole-history uptime is the span of the history. */
  lemma TotalUptimeIsSpan(h: seq<Entry>)
    requires |h| >= 1
    ensures Uptime(h, |h|) == h[|h| - 1].dateMs - h[0].dateMs
  {
    UptimeTelescopes(h, |h|);
  }

  /** At most one failure per visited interval. */
  lemma {:induction false} FailuresBound(h: seq<Entry>, i: int)
    requires 1 <= i <= |h|
    ensures Failures(h, i) <= i - 1
  {
    if i > 1 {
      FailuresBound(h, i - 1);
    }
  }

  /** With ascending dates, 0 <= downtime <= uptime at every step. */
  lemma {:induction false} DowntimeWithinUptime(h: seq<Entry>, i: int)
    requires Ascending(h)
    requires i <= |h|
    ensures 0 <= Downtime(h, i) <= Uptime(h, i)
  {
    if i > 1 {
      DowntimeWithinUptime(h, i - 1);
      assert 0 <= Gap(h, i - 1);
    }
  }

  /** Failure count by an independent definition: the records that are
      "corretiva", read front to back. */
  function CountFailures(s: seq<Entry>): nat {
    if s == [] then 0 else (if IsFailure(s[0]) then 1 else 0) + CountFailures(s[1..])
  }

  lemma {:induction false} CountFailuresAppend(s: seq<Entry>, e: Entry)
    ensures CountFailures(s + [e]) == CountFailures(s) + (if IsFailure(e) then 1 else 0)
  {
    if s != [] {
      assert (s + [e])[1..] == s[1..] + [e];
      CountFailuresAppend(s[1..], e);
    }
  }

  /** `failureCount` counts exactly the records at index 1 or later whose type
      is "corretiva": the first record never counts. */
  lemma {:induction false} FailuresAreCorretivaAfterFirst(h: seq<Entry>, i: int)
    requires 1 <= i <= |h|
    ensures Failures(h, i) == CountFailures(h[1..i])
  {
    if i > 1 {
      FailuresAreCorretivaAfterFirst(h, i - 1);
      assert h[1..i] == h[1..i - 1] + [h[i - 1]];
      CountFailuresAppend(h[1..i - 1], h[i - 1]);
    }
  }

  /** The English spelling "corrective" is not a failure to the engine. */
  lemma CorrectiveIsNotAFailure(dateMs: int)
    ensures !IsFailure(Entry(dateMs, "corrective"))
  {
    assert |"corrective"| != |FailureKind|;
  }

  /** The accumulators do not look at the type of the first record. */
  lemma {:induction false} AccumulatorsIgnoreFirstKind(h: seq<Entry>, g: seq<Entry>, i: int)
    requires |h| == |g| >= 1 && i <= |h|
    requires h[0].dateMs == g[0].dateMs
    requires forall k :: 1 <= k < |h| ==> h[k] == g[k]
    ensures Uptime(h, i) == Uptime(g, i)
    ensures Downtime(h, i) == Downtime(g, i)
    ensures Failures(h, i) == Failures(g, i)
  {
    if i > 1 {
      AccumulatorsIgnoreFirstKind(h, g, i - 1);
    }
  }

  /** Changing the type of the first record never changes the metrics. */
  lemma FirstRecordNeverCounts(h: seq<Entry>, kind: string)
    requires |h| >= 1
    ensures MetricsOf(h[0 := Entry(h[0].dateMs, kind)]) == MetricsOf(h)
  {
    var g := h[0 := Entry(h[0].dateMs, kind)];
    AccumulatorsIgnoreFirstKind(h, g, |h|);
  }

  lemma {:induction false} NoFailuresNoDowntime(h: seq<Entry>, i: int)
    requires i <= |h|
    requires forall k :: 1 <= k < |h| ==> !IsFailure(h[k])
    ensures Failures(h, i) == 0 && Downtime(h, i) == 0
  {
    if i > 1 {
      NoFailuresNoDowntime(h, i - 1);
    }
  }

  /** With two or more records and no "corretiva" after the first: MTBF and
      MTTR are 0, availability 1, performance 0.9, quality 0.95, OEE 0.855. */
  lemma NoFailureMetrics(h: seq<Entry>)
    requires |h| >= 2
    requires forall k :: 1 <= k < |h| ==> !IsFailure(h[k])
    ensures MetricsOf(h) == Metrics(0.0, 0.0, 0.855, 1.0, 0.9, 0.95)
  {
    NoFailuresNoDowntime(h, |h|);
  }

  lemma {:induction false} AllFailuresDowntimeIsUptime(h: seq<Entry>, i: int)
    requires i <= |h|
    requires forall k :: 1 <= k < |h| ==> IsFailure(h[k])
    ensures Downtime(h, i) == Uptime(h, i)
    ensures Failures(h, i) == (if i <= 1 then 0 else i - 1)
  {
    if i > 1 {
      AllFailuresDowntimeIsUptime(h, i - 1);
    }
  }

  /** When every interval ends in a "corretiva" record, uptime and downtime
      coincide, so MTBF equals MTTR. */
  lemma AllFailuresMtbfIsMttr(h: seq<Entry>)
    requires |h| >= 2
    requires forall k :: 1 <= k < |h| ==> IsFailure(h[k])
    ensures MetricsOf(h).mtbf == MetricsOf(h).mttr
    ensures MetricsOf(h).mtbf == (h[|h| - 1].dateMs - h[0].dateMs) as real / ((|h| - 1) * MsPerHour) as real
  {
    AllFailuresDowntimeIsUptime(h, |h|);
    UptimeTelescopes(h, |h|);
  }

  lemma DivideMonotone(a: real, b: real, d: real)
    requires 0.0 <= a <= b && d > 0.0
    ensures 0.0 <= a / d <= b / d
  {
    assert b / d - a / d == (b - a) / d;
  }

  /** With ascending dates, 0 <= MTTR <= MTBF, availability is at most 1 and
      OEE at most 0.855. */
  lemma AscendingBounds(h: seq<Entry>)
    requires Ascending(h)
    ensures 0.0 <= MetricsOf(h).mttr <= MetricsOf(h).mtbf
    ensures MetricsOf(h).availability <= 1.0
    ensures MetricsOf(h).oee <= 0.855
  {
    if |h| >= 2 {
      DowntimeWithinUptime(h, |h|);
      var up, down, f := Uptime(h, |h|), Downtime(h, |h|), Failures(h, |h|);
      if f > 0 {
        DivideMonotone(down as real, up as real, (f * MsPerHour) as real);
      }
    }
  }

  /** Records on day 0 and day 5, the second one "corretiva": MTBF = MTTR =
      120 h and availability = 600 / 720. */
  lemma FiveDayExample()
    ensures var m := MetricsOf([Entry(0, "preventiva"), Entry(5 * 24 * MsPerHour, "corretiva")]);
      && m.mtbf == 120.0 && m.mttr == 120.0
      && m.availability == 600.0 / 720.0
      && m.oee == (600.0 / 720.0) * 0.9 * 0.95
  {
    var h := [Entry(0, "preventiva"), Entry(5 * 24 * MsPerHour, "corretiva")];
    assert Uptime(h, 2) == 432000000 && Downtime(h, 2) == 432000000 && Failures(h, 2) == 1;
  }
}
