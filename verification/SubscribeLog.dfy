/** The log of a subscribe run: what is reported on every tick, and when the count shown to the
    user starts again from zero. */
module SubscribeLog {
  import opened Optional

  /** What a tick sees: the true total, when the last message came, and the time of the tick. */
  datatype Tick = Tick(received: nat, lastMessageAt: Option<int>, now: int)

  /** The line "received sofar messages so far, rate msg/sec". */
  datatype Line = Line(sofar: int, rate: int)

  datatype Report = Report(line: Option<Line>, shouldReset: bool)

  predicate Stale(tick: Tick, resetAfter: int) {
    tick.lastMessageAt.Some? && tick.now - tick.lastMessageAt.value > resetAfter
  }

  function BuildRateReport(previousCount: int, currentCount: int, tick: Tick, resetAfter: int): Report {
    if currentCount == 0 then Report(None, false)
    else
      var line := Line(currentCount, currentCount - previousCount);
      Report(Some(line), Stale(tick, resetAfter))
  }

  /** The total at the last reset among the first n ticks; what is shown counts from there. */
  function Baseline(ticks: seq<Tick>, reports: seq<Report>, n: nat): nat
    requires n <= |ticks| && n <= |reports|
  {
    if n == 0 then 0
    else if reports[n - 1].shouldReset then ticks[n - 1].received
    else Baseline(ticks, reports, n - 1)
  }

  /** The total one tick earlier. */
  function Before(ticks: seq<Tick>, k: nat): nat
    requires k <= |ticks|
  {
    if k == 0 then 0 else ticks[k - 1].received
  }

  /** What tick k should report: nothing while nothing is new since the last reset, otherwise
      the messages since then and the growth since the previous tick; and a reset if on top of
      that the last message is too long ago. */
  ghost predicate ReportedAsPromised(ticks: seq<Tick>, reports: seq<Report>, resetAfter: int, k: nat)
    requires k < |ticks| && k < |reports|
  {
    var sinceReset := ticks[k].received - Baseline(ticks, reports, k);
    && reports[k].line ==
         (if sinceReset == 0 then None else Some(Line(sinceReset, ticks[k].received - Before(ticks, k))))
    && (reports[k].shouldReset <==>
          && sinceReset != 0 && ticks[k].lastMessageAt.Some?
          && ticks[k].now > ticks[k].lastMessageAt.value + resetAfter)
  }

  /** The loop of runSubscribeLog, up to the tick before the run is done. */
  method RunSubscribeLog(ticks: seq<Tick>, resetAfter: int) returns (reports: seq<Report>)
    ensures |reports| == |ticks|
    ensures forall k :: 0 <= k < |ticks| ==> ReportedAsPromised(ticks, reports, resetAfter, k)
  {
    var baseline := 0;
    var previousCount := 0;
    reports := [];
    for k := 0 to |ticks|
      invariant |reports| == k
      invariant baseline == Baseline(ticks, reports, k)
      invariant previousCount == Before(ticks, k) - baseline
      invariant forall j :: 0 <= j < k ==> ReportedAsPromised(ticks, reports, resetAfter, j)
    {
      var currentCount := ticks[k].received - baseline;
      var report := BuildRateReport(previousCount, currentCount, ticks[k], resetAfter);
      ghost var earlier := reports;
      reports := reports + [report];
      if report.shouldReset {
        baseline := ticks[k].received;
        currentCount := 0;
      }
      previousCount := currentCount;
      PromiseKept(ticks, earlier, reports, resetAfter);
    }
  }

  lemma {:induction false} BaselineOfPrefix(ticks: seq<Tick>, reports: seq<Report>, longer: seq<Report>, n: nat)
    requires n <= |ticks| && n <= |reports| && reports <= longer
    ensures Baseline(ticks, longer, n) == Baseline(ticks, reports, n)
  {
    if n > 0 {
      BaselineOfPrefix(ticks, reports, longer, n - 1);
    }
  }

  lemma PromiseKept(ticks: seq<Tick>, reports: seq<Report>, longer: seq<Report>, resetAfter: int)
    requires |reports| < |ticks| && reports <= longer
    requires forall j :: 0 <= j < |reports| ==> ReportedAsPromised(ticks, reports, resetAfter, j)
    ensures forall j :: 0 <= j < |reports| ==> ReportedAsPromised(ticks, longer, resetAfter, j)
    ensures Baseline(ticks, longer, |reports|) == Baseline(ticks, reports, |reports|)
  {
    BaselineOfPrefix(ticks, reports, longer, |reports|);
    forall j | 0 <= j < |reports| ensures ReportedAsPromised(ticks, longer, resetAfter, j) {
      assert ReportedAsPromised(ticks, reports, resetAfter, j);
      BaselineOfPrefix(ticks, reports, longer, j);
    }
  }

  // ----- what the reports add up to

  predicate NeverDecreasing(ticks: seq<Tick>) {
    forall j, k :: 0 <= j <= k < |ticks| ==> ticks[j].received <= ticks[k].received
  }

  function LoggedRate(r: Report): int { if r.line.Some? then r.line.value.rate else 0 }

  function LoggedRates(reports: seq<Report>): int {
    if reports == [] then 0 else LoggedRates(reports[..|reports| - 1]) + LoggedRate(reports[|reports| - 1])
  }

  lemma {:induction false} BaselineIsEarlier(ticks: seq<Tick>, reports: seq<Report>, n: nat, k: nat)
    requires n <= k < |ticks| == |reports| && NeverDecreasing(ticks)
    ensures Baseline(ticks, reports, n) <= Before(ticks, n) <= ticks[k].received
  {
    if n > 0 {
      BaselineIsEarlier(ticks, reports, n - 1, k);
    }
  }

  /** A tick that logs nothing has seen nothing new. */
  lemma RateIsGrowth(ticks: seq<Tick>, reports: seq<Report>, resetAfter: int, k: nat)
    requires k < |ticks| == |reports| && NeverDecreasing(ticks) && ReportedAsPromised(ticks, reports, resetAfter, k)
    ensures LoggedRate(reports[k]) == ticks[k].received - Before(ticks, k) >= 0
  {
    BaselineIsEarlier(ticks, reports, k, k);
  }

  lemma {:induction false} RatesUpTo(ticks: seq<Tick>, reports: seq<Report>, resetAfter: int, n: nat)
    requires n <= |ticks| == |reports| && NeverDecreasing(ticks)
    requires forall k :: 0 <= k < |ticks| ==> ReportedAsPromised(ticks, reports, resetAfter, k)
    ensures LoggedRates(reports[..n]) == Before(ticks, n)
  {
    hide ReportedAsPromised;
    if n > 0 {
      RatesUpTo(ticks, reports, resetAfter, n - 1);
      RateIsGrowth(ticks, reports, resetAfter, n - 1);
      assert reports[..n][..n - 1] == reports[..n - 1];
    }
  }

  /** Whatever resets there were on the way, the rates logged are not negative and add up to the
      total at the last tick. */
  lemma RatesAddUp(ticks: seq<Tick>, reports: seq<Report>, resetAfter: int)
    requires |ticks| == |reports| && NeverDecreasing(ticks)
    requires forall k :: 0 <= k < |ticks| ==> ReportedAsPromised(ticks, reports, resetAfter, k)
    ensures forall k :: 0 <= k < |reports| ==> LoggedRate(reports[k]) >= 0
    ensures LoggedRates(reports) == Before(ticks, |ticks|)
  {
    forall k | 0 <= k < |reports| ensures LoggedRate(reports[k]) >= 0 {
      RateIsGrowth(ticks, reports, resetAfter, k);
    }
    RatesUpTo(ticks, reports, resetAfter, |ticks|);
    assert reports[..|ticks|] == reports;
  }

  lemma {:induction false} BaselineSince(ticks: seq<Tick>, reports: seq<Report>, j: nat, k: nat)
    requires j < k <= |ticks| == |reports| && NeverDecreasing(ticks) && reports[j].shouldReset
    ensures ticks[j].received <= Baseline(ticks, reports, k)
  {
    if !reports[k - 1].shouldReset {
      BaselineSince(ticks, reports, j, k - 1);
    }
  }

  /** Between two resets at least one message has arrived, and a reset follows a line that says
      how many; so the count is never reset while it shows nothing. */
  lemma ResetNeedsNewMessage(ticks: seq<Tick>, reports: seq<Report>, resetAfter: int, j: nat, k: nat)
    requires j < k < |ticks| == |reports| && NeverDecreasing(ticks)
    requires forall n :: 0 <= n < |ticks| ==> ReportedAsPromised(ticks, reports, resetAfter, n)
    requires reports[j].shouldReset && reports[k].shouldReset
    ensures ticks[k].received > ticks[j].received
    ensures reports[k].line.Some? && 0 < reports[k].line.value.sofar <= ticks[k].received - ticks[j].received
  {
    assert ReportedAsPromised(ticks, reports, resetAfter, k);
    BaselineSince(ticks, reports, j, k);
    BaselineIsEarlier(ticks, reports, k, k);
  }
}
