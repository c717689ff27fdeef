/** The alert rule of `JobAggregatorService.checkAlerts`: when an active
    alert matches a newly added job, its counter goes up by one and its
    `lastTriggered` is stamped. */
module AlertRules {
  import opened Wrappers
  import opened Seqs
  import opened Text
  import opened JobTypes

  /** `text.toLowerCase().includes(kw.toLowerCase())` */
  predicate MentionsIn(text: string, kw: string) {
    Contains(ToLower(text), ToLower(kw))
  }

  /** Some keyword occurs, case-insensitively, in the title, company or description. */
  predicate KeywordsMatch(a: Alert, j: Job) {
    exists k :: 0 <= k < |a.keywords| &&
      (MentionsIn(j.title, a.keywords[k]) || MentionsIn(j.company, a.keywords[k]) || MentionsIn(j.description, a.keywords[k]))
  }

  /** `!alert.locations?.length || alert.locations.some(...)` */
  predicate LocationsMatch(a: Alert, j: Job) {
    a.locations.None? || |a.locations.value| == 0 ||
    exists k :: 0 <= k < |a.locations.value| && MentionsIn(j.location, a.locations.value[k])
  }

  /** `!alert.workTypes?.length || alert.workTypes.includes(job.workType)` */
  predicate WorkTypesMatch(a: Alert, j: Job) {
    a.workTypes.None? || |a.workTypes.value| == 0 || j.workType in a.workTypes.value
  }

  /** `!alert.salaryMin || (job.salaryMin || 0) >= alert.salaryMin` */
  predicate SalaryMatch(a: Alert, j: Job) {
    a.salaryMin.None? || a.salaryMin.value == 0 || SalaryOrZero(j) >= a.salaryMin.value
  }

  predicate AlertMatches(a: Alert, j: Job) {
    KeywordsMatch(a, j) && LocationsMatch(a, j) && WorkTypesMatch(a, j) && SalaryMatch(a, j)
  }

  /** The alert fires for the job. */
  predicate Fires(a: Alert, j: Job) {
    a.active && AlertMatches(a, j)
  }

  /** The effect of one firing: stamp and count. */
  function Triggered(a: Alert, now: int): (r: Alert)
    ensures r.triggeredCount == a.triggeredCount + 1
    ensures r.lastTriggered == Some(now)
    ensures r.(triggeredCount := a.triggeredCount, lastTriggered := a.lastTriggered) == a
  {
    a.(lastTriggered := Some(now), triggeredCount := a.triggeredCount + 1)
  }

  /** One alert after the job has been checked against it. */
  function Evaluate(a: Alert, j: Job, now: int): Alert {
    if Fires(a, j) then Triggered(a, now) else a
  }

  /** The alert list after `checkAlerts(job)`: position by position, a
      firing alert is counted and stamped, every other alert is untouched. */
  function AlertsAfter(alerts: seq<Alert>, j: Job, now: int): (r: seq<Alert>)
    ensures |r| == |alerts|
  {
    seq(|alerts|, i requires 0 <= i < |alerts| => Evaluate(alerts[i], j, now))
  }

  /** Position by position, a firing alert is counted and stamped and
      every other alert is untouched; nothing but the counter and the
      stamp ever changes. */
  lemma AlertsAfterSpec(alerts: seq<Alert>, j: Job, now: int)
    ensures var r := AlertsAfter(alerts, j, now);
      && (forall i :: 0 <= i < |alerts| && Fires(alerts[i], j) ==>
            r[i].triggeredCount == alerts[i].triggeredCount + 1 && r[i].lastTriggered == Some(now))
      && (forall i :: 0 <= i < |alerts| && !Fires(alerts[i], j) ==> r[i] == alerts[i])
      && (forall i :: 0 <= i < |alerts| ==>
            r[i].(triggeredCount := alerts[i].triggeredCount, lastTriggered := alerts[i].lastTriggered) == alerts[i])
  {
  }

  /** The alerts that fired, in list order, as they are after firing: the
      payloads of the `alert-triggered` events. */
  function FiredAlerts(alerts: seq<Alert>, j: Job, now: int): (r: seq<Alert>)
    ensures |r| <= |alerts|
    decreases |alerts|
  {
    if alerts == [] then []
    else
      var last := alerts[|alerts| - 1];
      FiredAlerts(alerts[..|alerts| - 1], j, now) + (if Fires(last, j) then [Triggered(last, now)] else [])
  }

  /** Counters never go down, and go up by at most one per added job. */
  lemma CountersOnlyGrow(alerts: seq<Alert>, j: Job, now: int)
    ensures forall i :: 0 <= i < |alerts| ==>
      alerts[i].triggeredCount <= AlertsAfter(alerts, j, now)[i].triggeredCount <= alerts[i].triggeredCount + 1
  {
  }

  /** `Fires` against a fixed job, as a predicate on alerts. */
  function FiresOn(j: Job): (p: Alert -> bool)
    ensures forall a :: p(a) == Fires(a, j)
  {
    a => Fires(a, j)
  }

  /** There is one `alert-triggered` event per firing alert. */
  lemma {:induction false} FiredAlertsCount(alerts: seq<Alert>, j: Job, now: int)
    ensures |FiredAlerts(alerts, j, now)| == |Positions(alerts, FiresOn(j))|
    decreases |alerts|
  {
    if alerts != [] {
      var n := |alerts| - 1;
      var init, last := alerts[..n], alerts[n];
      FiredAlertsCount(init, j, now);
      PositionsSnocCount(init, last, FiresOn(j));
      assert init + [last] == alerts;
    }
  }

  /** Each event payload is a firing alert of the list, as stamped. */
  lemma {:induction false} FiredAlertsFromList(alerts: seq<Alert>, j: Job, now: int)
    ensures forall f :: f in FiredAlerts(alerts, j, now) ==>
      exists i :: 0 <= i < |alerts| && Fires(alerts[i], j) && f == Triggered(alerts[i], now)
    decreases |alerts|
  {
    if alerts != [] {
      var n := |alerts| - 1;
      FiredAlertsFromList(alerts[..n], j, now);
      assert forall i :: 0 <= i < n ==> alerts[..n][i] == alerts[i];
    }
  }

  /** An alert with no keywords never fires. */
  lemma EmptyKeywordsNeverFire(a: Alert, j: Job)
    requires a.keywords == []
    ensures !Fires(a, j)
  {
  }

  /** An inactive alert never fires. */
  lemma InactiveNeverFires(a: Alert, j: Job)
    requires !a.active
    ensures Evaluate(a, j, 0) == a && !Fires(a, j)
  {
  }

  /** The `sources` filter of an alert is never consulted. */
  lemma SourcesIgnored(a: Alert, j: Job, sources: Option<seq<JobSource>>)
    ensures Fires(a.(sources := sources), j) == Fires(a, j)
  {
    var b := a.(sources := sources);
    assert b.keywords == a.keywords && b.locations == a.locations;
  }

  /** Keywords are OR-ed: adding keywords never stops an alert from firing. */
  lemma MoreKeywordsStillFire(a: Alert, j: Job, extra: seq<string>)
    requires Fires(a, j)
    ensures Fires(a.(keywords := a.keywords + extra), j)
  {
    var b := a.(keywords := a.keywords + extra);
    var k :| 0 <= k < |a.keywords| &&
      (MentionsIn(j.title, a.keywords[k]) || MentionsIn(j.company, a.keywords[k]) || MentionsIn(j.description, a.keywords[k]));
    assert b.keywords[k] == a.keywords[k];
  }

  /** An active alert whose only keyword occurs verbatim in the job's title,
      company or description, and which sets no other constraint, fires. */
  lemma SoleKeywordFires(a: Alert, j: Job, kw: string)
    requires a.active && a.keywords == [kw]
    requires a.locations.None? && a.workTypes.None? && a.salaryMin.None?
    requires Contains(j.title, kw) || Contains(j.company, kw) || Contains(j.description, kw)
    ensures Fires(a, j)
  {
    if Contains(j.title, kw) {
      ContainsLowered(j.title, kw);
    } else if Contains(j.company, kw) {
      ContainsLowered(j.company, kw);
    } else {
      ContainsLowered(j.description, kw);
    }
    assert a.keywords[0] == kw;
  }

  /** Lower-casing both sides keeps an occurrence. */
  lemma ContainsLowered(s: string, t: string)
    requires Contains(s, t)
    ensures Contains(ToLower(s), ToLower(t))
  {
    var i :| 0 <= i <= |s| - |t| && OccursAt(s, t, i);
    assert ToLower(s)[i..i + |t|] == ToLower(t);
    assert OccursAt(ToLower(s), ToLower(t), i);
  }
}
