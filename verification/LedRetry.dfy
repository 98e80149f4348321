/** Light-bar output with a retry countdown: after somebody else wrote to the device, the report is sent
    again and again until the countdown has run out. One call of the pipeline is one step. */
module LedRetry {
  const LED_TIMEOUT_US := 20000
  const LED_FAST_TIMEOUT_US := 5000
  const RETRY_TIMEOUT_US := 100000
  const INTERVENTION_RETRIES := 10

  /** The LED half of a slot and of its worker; times are in microseconds. */
  datatype Led = Led(dirty: bool, isStatic: bool, retries: nat, lastRetry: int, lastLed: int)

  /** What can happen to it: the worker looks at it, a client or an effect asks for an update, somebody
      else wrote to the device, or the mode changes. */
  datatype Event =
    | Tick(now: int)
    | Request
    | Intervention(now: int, reapply: bool)
    | SetStatic(on: bool)

  /** The pipeline is entered for a dirty slot, and sends when its current interval is over. */
  predicate Due(s: Led, now: int) {
    if s.retries > 0 then now - s.lastRetry >= RETRY_TIMEOUT_US
    else now - s.lastLed >= if s.isStatic then LED_TIMEOUT_US else LED_FAST_TIMEOUT_US
  }

  predicate Sends(s: Led, e: Event) {
    e.Tick? && s.dirty && Due(s, e.now)
  }

  function Next(s: Led, e: Event): Led {
    match e
    case Tick(now) =>
      if !Sends(s, e) then s
      else if s.retries > 0 then s.(lastRetry := now, retries := s.retries - 1)
      else s.(lastLed := now, dirty := false)
    case Request => s.(dirty := true)
    case Intervention(now, reapply) =>
      if reapply && s.isStatic then s.(retries := INTERVENTION_RETRIES, lastRetry := now, dirty := true) else s
    case SetStatic(on) => s.(isStatic := on)
  }

  // ----- the pipeline in place ------------------------------------------------------------------

  class LedPipeline {
    var ledDirty: bool
    var ledStatic: bool
    var externalRetryCount: nat
    var lastExternalRetry: int
    var lastLedOut: int
    var reports: nat

    function View(): Led
      reads this
    {
      Led(ledDirty, ledStatic, externalRetryCount, lastExternalRetry, lastLedOut)
    }

    constructor (now: int)
      ensures View() == Led(false, false, 0, 0, now) && reports == 0
    {
      ledDirty, ledStatic, externalRetryCount, lastExternalRetry, lastLedOut, reports := false, false, 0, 0, now, 0;
    }

    /** The call in the worker's loop and `led_process_pipeline`. */
    method Process(now: int) returns (sent: bool)
      modifies this
      ensures sent == Sends(old(View()), Tick(now))
      ensures View() == Next(old(View()), Tick(now))
      ensures reports == old(reports) + if sent then 1 else 0
    {
      if !ledDirty { return false; }
      var retryCount, last := externalRetryCount, lastLedOut;
      var timeout: int;
      if retryCount > 0 {
        timeout := RETRY_TIMEOUT_US;
        last := lastExternalRetry;
      } else {
        timeout := if ledStatic then LED_TIMEOUT_US else LED_FAST_TIMEOUT_US;
      }
      var elapsed := now - last;
      if elapsed < timeout { return false; }
      reports := reports + 1;
      if retryCount > 0 {
        lastExternalRetry := now;
        if externalRetryCount > 0 {
          externalRetryCount := externalRetryCount - 1;
        }
      } else {
        lastLedOut := now;
        ledDirty := false;
      }
      sent := true;
    }

    /** The part of the worker's loop that notices a write of somebody else. */
    method Intervene(now: int, reapply: bool)
      modifies this
      ensures View() == Next(old(View()), Intervention(now, reapply))
      ensures reports == old(reports)
    {
      if reapply && ledStatic {
        externalRetryCount := INTERVENTION_RETRIES;
        lastExternalRetry := now;
        ledDirty := true;
      }
    }
  }

  // ----- whole runs -----------------------------------------------------------------------------

  /** The state after the first `n` events, and the reports sent by them. */
  function At(s: Led, es: seq<Event>, n: nat): Led
    requires n <= |es|
  {
    if n == 0 then s else Next(At(s, es, n - 1), es[n - 1])
  }

  function Reports(s: Led, es: seq<Event>, n: nat): nat
    requires n <= |es|
  {
    if n == 0 then 0 else Reports(s, es, n - 1) + if Sends(At(s, es, n - 1), es[n - 1]) then 1 else 0
  }

  predicate Undisturbed(es: seq<Event>) {
    forall i | 0 <= i < |es| :: !es[i].Intervention?
  }

  /** A countdown is never left behind: while retries are due the slot is dirty. */
  lemma {:induction false} RetriesKeepDirty(s: Led, es: seq<Event>, n: nat)
    requires n <= |es| && (s.retries > 0 ==> s.dirty)
    ensures At(s, es, n).retries > 0 ==> At(s, es, n).dirty
  {
    if n > 0 { RetriesKeepDirty(s, es, n - 1); }
  }

  /** Without a new intervention, whatever requests and mode changes arrive: up to the `k`-th report the
      countdown is exactly the reports still to come, and the slot stays dirty. */
  lemma {:induction false} CountsDown(s: Led, es: seq<Event>, n: nat)
    requires n <= |es| && Undisturbed(es) && s.dirty && Reports(s, es, n) <= s.retries
    ensures At(s, es, n).retries == s.retries - Reports(s, es, n) && At(s, es, n).dirty
  {
    if n > 0 { CountsDown(s, es, n - 1); }
  }

  /** The report after that is the last: it leaves the slot clean, with no retries. */
  lemma LastReportCleans(s: Led, es: seq<Event>, n: nat)
    requires n < |es| && Undisturbed(es) && s.dirty
    requires Reports(s, es, n) == s.retries && Sends(At(s, es, n), es[n])
    ensures Reports(s, es, n + 1) == s.retries + 1
    ensures !At(s, es, n + 1).dirty && At(s, es, n + 1).retries == 0
  {
    CountsDown(s, es, n);
  }

  /** A clean slot without retries sends nothing until somebody asks. */
  lemma {:induction false} CleanIsQuiet(s: Led, es: seq<Event>, n: nat)
    requires n <= |es| && Undisturbed(es) && !s.dirty && s.retries == 0
    requires forall i | 0 <= i < |es| :: !es[i].Request?
    ensures Reports(s, es, n) == 0 && !At(s, es, n).dirty && At(s, es, n).retries == 0
  {
    if n > 0 { CleanIsQuiet(s, es, n - 1); }
  }

  /** A countdown of `k` makes exactly `k + 1` reports: without interventions and requests no run sends
      more, and a run that sends its last one ends clean. */
  lemma {:induction false} ExactlyOneMore(s: Led, es: seq<Event>, n: nat)
    requires n <= |es| && Undisturbed(es) && s.dirty
    requires forall i | 0 <= i < |es| :: !es[i].Request?
    ensures Reports(s, es, n) <= s.retries + 1
    ensures Reports(s, es, n) == s.retries + 1 <==> !At(s, es, n).dirty
    ensures Reports(s, es, n) == s.retries + 1 ==> At(s, es, n).retries == 0
  {
    if n > 0 {
      ExactlyOneMore(s, es, n - 1);
      if Reports(s, es, n - 1) <= s.retries { CountsDown(s, es, n - 1); }
    }
  }

  /** A look sends a retry at least 100 ms after the last one. */
  lemma RetryIsSent(s: Led, now: int)
    requires s.dirty && s.retries > 0
    ensures Sends(s, Tick(now)) <==> now >= s.lastRetry + RETRY_TIMEOUT_US
  {
  }

  /** Event `i` is a retry that is not the last one, or an intervention that starts a countdown. */
  predicate Waits(s: Led, es: seq<Event>, i: nat)
    requires i < |es|
  {
    var t, e := At(s, es, i), es[i];
    && ((Sends(t, e) && t.retries > 1) || (e.Intervention? && e.reapply && t.isStatic))
  }

  /** Event `m` is a look at least 100 ms after event `i`. */
  predicate Late(es: seq<Event>, i: nat, m: nat)
    requires i < |es| && m < |es| && (es[i].Tick? || es[i].Intervention?)
  {
    es[m].Tick? && es[m].now - es[i].now >= 100000
  }

  /** As long as nothing is sent, the countdown waits for its next retry. */
  lemma {:induction false} WaitsOn(s: Led, es: seq<Event>, i: nat, n: nat)
    requires i < n <= |es| && Waits(s, es, i) && (At(s, es, i).retries > 0 ==> At(s, es, i).dirty)
    requires forall m | i < m < n :: !es[m].Intervention? && !Sends(At(s, es, m), es[m])
    ensures var t := At(s, es, n); t.dirty && t.retries > 0 && t.lastRetry == es[i].now
  {
    if i + 1 < n { WaitsOn(s, es, i, n - 1); }
  }

  lemma {:induction false} NothingBefore(s: Led, es: seq<Event>, i: nat, n: nat)
    requires i < n <= |es| && Waits(s, es, i) && (At(s, es, i).retries > 0 ==> At(s, es, i).dirty)
    requires forall m | i < m < n :: !es[m].Intervention? && !Late(es, i, m)
    ensures forall m | i < m < n :: !Sends(At(s, es, m), es[m])
  {
    if i + 1 < n {
      NothingBefore(s, es, i, n - 1);
      WaitsOn(s, es, i, n - 1);
      if es[n - 1].Tick? { RetryIsSent(At(s, es, n - 1), es[n - 1].now); }
    }
  }

  /** Over every run, whatever requests and mode changes arrive: after a retry, or the intervention, the next
      retry is sent by the first look at least 100 ms later, and by no other event. */
  lemma NextRetryExactly(s: Led, es: seq<Event>, i: nat, j: nat)
    requires i < j < |es| && (s.retries > 0 ==> s.dirty) && Waits(s, es, i)
    requires forall m | i < m < |es| :: !es[m].Intervention?
    ensures (Sends(At(s, es, j), es[j]) && forall m | i < m < j :: !Sends(At(s, es, m), es[m]))
            <==> (Late(es, i, j) && forall m | i < m < j :: !Late(es, i, m))
  {
    RetriesKeepDirty(s, es, i);
    if forall m | i < m < j :: !Late(es, i, m) {
      NothingBefore(s, es, i, j);
      WaitsOn(s, es, i, j);
    } else if forall m | i < m < j :: !Sends(At(s, es, m), es[m]) {
      var m :| i < m < j && Late(es, i, m);
      WaitsOn(s, es, i, m);
      assert Sends(At(s, es, m), es[m]);
    }
  }

  lemma {:induction false} LastRetryHolds(s: Led, es: seq<Event>, i: nat, n: nat)
    requires i < n <= |es| && Undisturbed(es)
    requires Sends(At(s, es, i), es[i]) && At(s, es, i).retries > 0
    ensures At(s, es, n).lastRetry >= es[i].now
  {
    if i + 1 < n { LastRetryHolds(s, es, i, n - 1); }
  }

  /** Retries are at least 100 ms apart, however often the worker looks. */
  lemma RetriesAreApart(s: Led, es: seq<Event>, i: nat, j: nat)
    requires i < j < |es| && Undisturbed(es)
    requires Sends(At(s, es, i), es[i]) && At(s, es, i).retries > 0
    requires Sends(At(s, es, j), es[j]) && At(s, es, j).retries > 0
    ensures es[j].now - es[i].now >= 100000
  {
    LastRetryHolds(s, es, i, j);
  }

  // ----- ordinary reports -----------------------------------------------------------------------

  /** The mode after the first `n` events: what was set last. */
  function Mode(s: Led, es: seq<Event>, n: nat): bool
    requires n <= |es|
  {
    if n == 0 then s.isStatic else if es[n - 1].SetStatic? then es[n - 1].on else Mode(s, es, n - 1)
  }

  /** The time of the latest report among the first `n` events that was no retry. */
  function LastOrdinary(s: Led, es: seq<Event>, n: nat): int
    requires n <= |es|
  {
    if n == 0 then s.lastLed
    else if Sends(At(s, es, n - 1), es[n - 1]) && At(s, es, n - 1).retries == 0 then es[n - 1].now
    else LastOrdinary(s, es, n - 1)
  }

  lemma {:induction false} TracksOrdinary(s: Led, es: seq<Event>, n: nat)
    requires n <= |es|
    ensures At(s, es, n).isStatic == Mode(s, es, n) && At(s, es, n).lastLed == LastOrdinary(s, es, n)
  {
    if n > 0 { TracksOrdinary(s, es, n - 1); }
  }

  /** Over every run: a dirty slot without retries is reported by a look at least 20 ms after its last ordinary
      report in static mode, 5 ms in effect mode, and by no other event; the report leaves it clean. */
  lemma OrdinaryExactly(s: Led, es: seq<Event>, n: nat)
    requires n < |es| && At(s, es, n).dirty && At(s, es, n).retries == 0
    ensures Sends(At(s, es, n), es[n]) <==>
            es[n].Tick? && es[n].now - LastOrdinary(s, es, n) >= if Mode(s, es, n) then 20000 else 5000
    ensures Sends(At(s, es, n), es[n]) ==> !At(s, es, n + 1).dirty && At(s, es, n + 1).retries == 0
  {
    TracksOrdinary(s, es, n);
  }

  /** A slot that is not dirty sends nothing, and only a request or an intervention makes it dirty. */
  lemma CleanUntilAsked(s: Led, es: seq<Event>, n: nat)
    requires n < |es| && !At(s, es, n).dirty
    ensures !Sends(At(s, es, n), es[n])
    ensures At(s, es, n + 1).dirty <==>
            es[n].Request? || (es[n].Intervention? && es[n].reapply && Mode(s, es, n))
  {
    TracksOrdinary(s, es, n);
  }

  /** An intervention, in static mode and with reapply on, starts a countdown that sends eleven reports
      before the slot is clean again, whatever countdown was running. */
  lemma InterventionRestarts(s: Led, now: int, es: seq<Event>, n: nat)
    requires s.isStatic && n <= |es| && Undisturbed(es)
    requires forall i | 0 <= i < |es| :: !es[i].Request?
    ensures var t := Next(s, Intervention(now, true)); !At(t, es, n).dirty ==> Reports(t, es, n) == 11
  {
    ExactlyOneMore(Next(s, Intervention(now, true)), es, n);
  }

  /** Looks of a run, each at least 100 ms after the one before and the first as long after `since`. */
  predicate Spaced(es: seq<Event>, looks: seq<nat>, since: int) {
    && (forall a | 0 <= a < |looks| :: looks[a] < |es| && es[looks[a]].Tick?)
    && (forall a, b | 0 <= a < b < |looks| :: looks[a] < looks[b])
    && (looks != [] ==> es[looks[0]].now - since >= RETRY_TIMEOUT_US)
    && (forall a, b | 0 <= a < b < |looks| :: es[looks[b]].now - es[looks[a]].now >= RETRY_TIMEOUT_US)
  }

  predicate Monotone(es: seq<Event>) {
    forall i, j | 0 <= i < j < |es| && es[i].Tick? && es[j].Tick? :: es[i].now <= es[j].now
  }

  lemma {:induction false} MoreReports(s: Led, es: seq<Event>, m: nat, n: nat)
    requires m <= n <= |es|
    ensures Reports(s, es, m) <= Reports(s, es, n)
  {
    if m < n { MoreReports(s, es, m, n - 1); }
  }

  /** While nothing more is sent, the times stay. */
  lemma {:induction false} TimesStay(s: Led, es: seq<Event>, m: nat, n: nat)
    requires m <= n <= |es| && Undisturbed(es) && Reports(s, es, m) == Reports(s, es, n)
    ensures At(s, es, n).lastRetry == At(s, es, m).lastRetry && At(s, es, n).lastLed == At(s, es, m).lastLed
  {
    if m < n {
      MoreReports(s, es, m, n - 1);
      TimesStay(s, es, m, n - 1);
    }
  }

  /** No report is later than the latest look. */
  lemma {:induction false} TimesBefore(s: Led, es: seq<Event>, n: nat, time: int)
    requires n <= |es| && Undisturbed(es) && s.lastRetry <= time && s.lastLed <= time
    requires forall i | 0 <= i < n && es[i].Tick? :: es[i].now <= time
    ensures At(s, es, n).lastRetry <= time && At(s, es, n).lastLed <= time
  {
    if n > 0 { TimesBefore(s, es, n - 1, time); }
  }

  /** By the `k`-th of such looks at least `k` reports are out, or all of them. */
  lemma {:induction false} ReportsKeepUp(s: Led, es: seq<Event>, looks: seq<nat>, since: int, k: nat)
    requires Undisturbed(es) && Monotone(es) && Spaced(es, looks, since) && k < |looks|
    requires s.dirty && s.lastRetry <= since && s.lastLed <= since
    ensures Reports(s, es, looks[k] + 1) > k || Reports(s, es, looks[k] + 1) > s.retries
  {
    var n, m := looks[k], if k == 0 then 0 else looks[k - 1] + 1;
    var time := if k == 0 then since else es[looks[k - 1]].now;
    if k > 0 { ReportsKeepUp(s, es, looks, since, k - 1); }
    MoreReports(s, es, m, n);
    if Reports(s, es, n) == Reports(s, es, m) <= s.retries {
      TimesStay(s, es, m, n);
      if k > 0 {
        SpacedAfter(es, looks, since, k);
        assert es[n].now - es[looks[k - 1]].now >= RETRY_TIMEOUT_US;
      }
      TimesBefore(s, es, m, time);
      CountsDown(s, es, n);
      assert Sends(At(s, es, n), es[n]);
    }
  }

  lemma SpacedAfter(es: seq<Event>, looks: seq<nat>, since: int, k: nat)
    requires Monotone(es) && Spaced(es, looks, since) && 0 < k < |looks|
    ensures es[looks[k - 1]].now >= since
    ensures forall i | 0 <= i < looks[k - 1] + 1 && es[i].Tick? :: es[i].now <= es[looks[k - 1]].now
  {
    if k > 1 { assert es[looks[k - 1]].now - es[looks[0]].now >= RETRY_TIMEOUT_US; }
  }

  /** After an intervention in static mode with reapply on, eleven looks 100 ms apart are enough, whatever else
      is looked at and whatever modes are set: exactly eleven reports are sent and the slot is clean. */
  lemma InterventionEnds(s: Led, now: int, es: seq<Event>, looks: seq<nat>)
    requires s.isStatic && s.lastLed <= now && Undisturbed(es) && Monotone(es)
    requires forall i | 0 <= i < |es| :: !es[i].Request?
    requires Spaced(es, looks, now) && |looks| == 11
    ensures var t := Next(s, Intervention(now, true));
      Reports(t, es, |es|) == 11 && !At(t, es, |es|).dirty && At(t, es, |es|).retries == 0
  {
    var t := Next(s, Intervention(now, true));
    ReportsKeepUp(t, es, looks, now, 10);
    MoreReports(t, es, looks[10] + 1, |es|);
    ExactlyOneMore(t, es, |es|);
  }
}
