/** `JobAggregatorService`: the in-memory store of jobs, companies,
    connections and alerts, its event registry and its storage snapshot.
    Clock readings, generated ids and random draws are parameters. */
module JobAggregator {
  import opened Wrappers
  import opened Seqs
  import opened Text
  import opened JobTypes
  import opened JobSearch
  import opened AlertRules
  import opened Patches

  const JobsUpdatedEvent := "jobs-updated"
  const ConnectionsUpdatedEvent := "connections-updated"
  const AlertsUpdatedEvent := "alerts-updated"
  const AlertTriggeredEvent := "alert-triggered"

  /** What an event hands to its callback. */
  datatype Payload =
    | JobList(jobs: seq<Job>)
    | ConnectionList(connections: seq<Connection>)
    | AlertList(alerts: seq<Alert>)
    | AlertFired(alert: Alert, job: Job)

  /** One call of a registered callback (callbacks are named by number). */
  datatype Delivery = Delivery(listener: nat, event: string, payload: Payload)

  /** The four storage keys; `None` is a key that holds nothing. */
  datatype Snapshot = Snapshot(
    jobs: Option<seq<Job>>,
    companies: Option<seq<Company>>,
    connections: Option<seq<Connection>>,
    alerts: Option<seq<Alert>>)

  const NothingStored := Snapshot(None, None, None, None)

  /** `emit(event, data)`: the one callback registered for the event, if any, is called once. */
  function Emitted(listeners: map<string, nat>, event: string, payload: Payload): (r: seq<Delivery>)
    ensures |r| == if event in listeners then 1 else 0
    ensures forall d :: d in r ==> d.event == event && d.payload == payload && d.listener == listeners[event]
  {
    if event in listeners then [Delivery(listeners[event], event, payload)] else []
  }

  /** The `alert-triggered` deliveries for the fired alerts, in order. */
  function AlertEvents(listeners: map<string, nat>, fired: seq<Alert>, job: Job): (r: seq<Delivery>)
    ensures |r| == if AlertTriggeredEvent in listeners then |fired| else 0
    ensures forall d :: d in r ==> d.event == AlertTriggeredEvent && d.payload.AlertFired? && d.payload.job == job
    decreases |fired|
  {
    if fired == [] then []
    else
      AlertEvents(listeners, fired[..|fired| - 1], job)
        + Emitted(listeners, AlertTriggeredEvent, AlertFired(fired[|fired| - 1], job))
  }

  lemma AlertEventsStep(listeners: map<string, nat>, fired: seq<Alert>, a: Alert, job: Job)
    ensures AlertEvents(listeners, fired + [a], job)
            == AlertEvents(listeners, fired, job) + Emitted(listeners, AlertTriggeredEvent, AlertFired(a, job))
  {
    assert (fired + [a])[..|fired|] == fired;
  }

  /** One iteration of `checkAlerts` extends the processed prefix by one alert. */
  lemma CheckStep(before: seq<Alert>, cur: seq<Alert>, i: nat, job: Job, now: int)
    requires i < |before| && cur == AlertsAfter(before[..i], job, now) + before[i..]
    ensures cur[i] == before[i]
    ensures cur[i := Evaluate(before[i], job, now)] == AlertsAfter(before[..i + 1], job, now) + before[i + 1..]
  {
    var a := AlertsAfter(before[..i], job, now);
    var b := AlertsAfter(before[..i + 1], job, now);
    assert |a| == i;
    assert cur[i] == before[i..][0];
    assert forall k :: 0 <= k < i ==> b[k] == a[k];
  }

  lemma FiredAlertsStep(alerts: seq<Alert>, i: nat, job: Job, now: int)
    requires i < |alerts|
    ensures FiredAlerts(alerts[..i + 1], job, now)
            == FiredAlerts(alerts[..i], job, now) + (if Fires(alerts[i], job) then [Triggered(alerts[i], now)] else [])
  {
    assert alerts[..i + 1][..i] == alerts[..i];
  }

  lemma AppendAssoc<T>(a: seq<T>, b: seq<T>, c: seq<T>)
    ensures a + b + c == a + (b + c)
  {
  }

  /** One iteration of `checkAlerts` adds the event of one more alert, if it fires. */
  lemma DeliveriesStep(listeners: map<string, nat>, alerts: seq<Alert>, i: nat, job: Job, now: int)
    requires i < |alerts|
    ensures AlertEvents(listeners, FiredAlerts(alerts[..i + 1], job, now), job)
            == AlertEvents(listeners, FiredAlerts(alerts[..i], job, now), job)
               + (if Fires(alerts[i], job)
                  then Emitted(listeners, AlertTriggeredEvent, AlertFired(Triggered(alerts[i], now), job))
                  else [])
  {
    FiredAlertsStep(alerts, i, job, now);
    var fired := FiredAlerts(alerts[..i], job, now);
    if Fires(alerts[i], job) {
      AlertEventsStep(listeners, fired, Triggered(alerts[i], now), job);
    } else {
      assert fired + [] == fired;
    }
  }

  /** Each event of `checkAlerts` carries a firing alert of the list, after its bump. */
  lemma {:induction false} AlertEventsFromFiringAlerts(listeners: map<string, nat>, alerts: seq<Alert>, job: Job, now: int)
    ensures var events := AlertEvents(listeners, FiredAlerts(alerts, job, now), job);
            (|events| == if AlertTriggeredEvent in listeners then |Positions(alerts, FiresOn(job))| else 0)
            && forall d :: d in events ==>
                 exists i :: 0 <= i < |alerts| && Fires(alerts[i], job) && d.payload.alert == Triggered(alerts[i], now)
  {
    FiredAlertsCount(alerts, job, now);
    FiredAlertsFromList(alerts, job, now);
    AlertEventsPayloads(listeners, FiredAlerts(alerts, job, now), job);
  }

  lemma {:induction false} AlertEventsPayloads(listeners: map<string, nat>, fired: seq<Alert>, job: Job)
    ensures forall d :: d in AlertEvents(listeners, fired, job) ==> d.payload.alert in fired
    decreases |fired|
  {
    if fired != [] {
      var n := |fired| - 1;
      AlertEventsPayloads(listeners, fired[..n], job);
      assert forall a :: a in fired[..n] ==> a in fired;
    }
  }

  /** The company map and its insertion order agree: every key is listed
      once, and each company is stored under its own id. */
  ghost predicate CompaniesValid(m: map<string, Company>, order: seq<string>) {
    (forall k :: k in m <==> k in order)
    && (forall i, j :: 0 <= i < j < |order| ==> order[i] != order[j])
    && (forall k :: k in m ==> m[k].id == k)
  }

  /** `[...companies.values()]`: the companies in insertion order. */
  function CompanyValues(m: map<string, Company>, order: seq<string>): (r: seq<Company>)
    requires forall k :: k in order ==> k in m
    ensures |r| == |order|
    ensures forall i :: 0 <= i < |order| ==> r[i] == m[order[i]]
  {
    seq(|order|, i requires 0 <= i < |order| => m[order[i]])
  }

  /** `companies.set(c.id, c)`: a new key goes last, an existing key keeps its place. */
  function SetCompany(m: map<string, Company>, order: seq<string>, c: Company): (r: (map<string, Company>, seq<string>))
    requires CompaniesValid(m, order)
    ensures CompaniesValid(r.0, r.1)
    ensures r.0 == m[c.id := c]
  {
    if c.id in m then (m[c.id := c], order) else (m[c.id := c], order + [c.id])
  }

  /** `arr.forEach(c => companies.set(c.id, c))` from an empty map. */
  function LoadCompanies(list: seq<Company>): (r: (map<string, Company>, seq<string>))
    ensures CompaniesValid(r.0, r.1)
    ensures forall k :: k in r.0 <==> exists i :: 0 <= i < |list| && list[i].id == k
    decreases |list|
  {
    if list == [] then (map[], [])
    else
      var prev := LoadCompanies(list[..|list| - 1]);
      assert forall i :: 0 <= i < |list| - 1 ==> list[..|list| - 1][i] == list[i];
      SetCompany(prev.0, prev.1, list[|list| - 1])
  }

  /** Loading what was saved gives back the same map in the same order. */
  lemma LoadAfterSave(m: map<string, Company>, order: seq<string>)
    requires CompaniesValid(m, order)
    ensures LoadCompanies(CompanyValues(m, order)) == (m, order)
  {
    var vals := CompanyValues(m, order);
    LoadPrefix(m, order, |order|);
    assert order[..|order|] == order;
    assert vals[..|order|] == vals;
    RestrictAll(m, order);
  }

  /** Restricting the map to the keys of a valid order keeps all of it. */
  lemma RestrictAll(m: map<string, Company>, order: seq<string>)
    requires CompaniesValid(m, order)
    ensures (map k | k in m && k in order :: m[k]) == m
  {
  }

  lemma {:induction false} LoadPrefix(m: map<string, Company>, order: seq<string>, n: nat)
    requires CompaniesValid(m, order) && n <= |order|
    ensures LoadCompanies(CompanyValues(m, order)[..n]) == (map k | k in m && k in order[..n] :: m[k], order[..n])
    decreases n
  {
    if n == 0 {
      assert order[..0] == [];
    } else {
      LoadPrefix(m, order, n - 1);
      LoadStep(CompanyValues(m, order), n);
      SetNewKey(m, order, n);
    }
  }

  /** Setting the `n`-th saved company on the first `n - 1` appends its key. */
  lemma SetNewKey(m: map<string, Company>, order: seq<string>, n: nat)
    requires CompaniesValid(m, order) && 0 < n <= |order|
    ensures CompaniesValid(map k | k in m && k in order[..n - 1] :: m[k], order[..n - 1])
    ensures SetCompany(map k | k in m && k in order[..n - 1] :: m[k], order[..n - 1], m[order[n - 1]])
            == (map k | k in m && k in order[..n] :: m[k], order[..n])
  {
    RestrictValid(m, order, n - 1);
    NewKeyAppended(m, order, n);
  }

  /** Restricting a valid store to a prefix of its order keeps it valid. */
  lemma RestrictValid(m: map<string, Company>, order: seq<string>, i: nat)
    requires CompaniesValid(m, order) && i <= |order|
    ensures CompaniesValid(map k | k in m && k in order[..i] :: m[k], order[..i])
  {
    var r := map k | k in m && k in order[..i] :: m[k];
    forall k | k in order[..i]
      ensures k in r
    {
      var j :| 0 <= j < i && order[..i][j] == k;
      assert order[j] == k;
    }
  }

  /** The `n`-th saved key is new to the first `n - 1`, names its own
      company, and extends both the restricted map and the order. */
  lemma NewKeyAppended(m: map<string, Company>, order: seq<string>, n: nat)
    requires CompaniesValid(m, order) && 0 < n <= |order|
    ensures m[order[n - 1]].id == order[n - 1]
    ensures order[n - 1] !in (map k | k in m && k in order[..n - 1] :: m[k])
    ensures order[..n - 1] + [order[n - 1]] == order[..n]
    ensures (map k | k in m && k in order[..n - 1] :: m[k])[order[n - 1] := m[order[n - 1]]]
            == map k | k in m && k in order[..n] :: m[k]
  {
    NotInPrefix(order, n - 1);
    TakeSnoc(order, n);
    RestrictStep(m, order, n);
  }

  /** In a list without repeats, an entry is not among the ones before it. */
  lemma NotInPrefix(order: seq<string>, i: nat)
    requires i < |order| && forall p, q :: 0 <= p < q < |order| ==> order[p] != order[q]
    ensures order[i] !in order[..i]
  {
    forall j | 0 <= j < i
      ensures order[..i][j] != order[i]
    {
      assert order[..i][j] == order[j];
    }
  }

  /** Loading a prefix one longer is one more `set`. */
  lemma LoadStep(list: seq<Company>, n: nat)
    requires 0 < n <= |list|
    ensures var prev := LoadCompanies(list[..n - 1]);
            LoadCompanies(list[..n]) == SetCompany(prev.0, prev.1, list[n - 1])
  {
    assert list[..n][..n - 1] == list[..n - 1];
  }

  lemma TakeSnoc(s: seq<string>, n: nat)
    requires 0 < n <= |s|
    ensures s[..n - 1] + [s[n - 1]] == s[..n]
  {
  }

  lemma RestrictStep(m: map<string, Company>, order: seq<string>, n: nat)
    requires CompaniesValid(m, order) && 0 < n <= |order|
    ensures (map k | k in m && k in order[..n - 1] :: m[k])[order[n - 1] := m[order[n - 1]]]
            == map k | k in m && k in order[..n] :: m[k]
  {
    assert order[..n] == order[..n - 1] + [order[n - 1]];
  }

  /** The position of the first element with the given id (`findIndex`/`find`). */
  function JobHasId(id: string): Job -> bool {
    (j: Job) => j.id == id
  }

  function JobIndex(jobs: seq<Job>, id: string): (r: Option<nat>)
    ensures r.Some? ==> r.value < |jobs| && jobs[r.value].id == id
    ensures r.Some? ==> forall k :: 0 <= k < r.value ==> jobs[k].id != id
    ensures r.None? <==> forall k :: 0 <= k < |jobs| ==> jobs[k].id != id
  {
    FindFirst(jobs, JobHasId(id))
  }

  function ConnectionIndex(cs: seq<Connection>, id: string): (r: Option<nat>)
    ensures r.Some? ==> r.value < |cs| && cs[r.value].id == id
    ensures r.Some? ==> forall k :: 0 <= k < r.value ==> cs[k].id != id
    ensures r.None? <==> forall k :: 0 <= k < |cs| ==> cs[k].id != id
  {
    FindFirst(cs, (c: Connection) => c.id == id)
  }

  function AlertIndex(alerts: seq<Alert>, id: string): (r: Option<nat>)
    ensures r.Some? ==> r.value < |alerts| && alerts[r.value].id == id
    ensures r.Some? ==> forall k :: 0 <= k < r.value ==> alerts[k].id != id
    ensures r.None? <==> forall k :: 0 <= k < |alerts| ==> alerts[k].id != id
  {
    FindFirst(alerts, (a: Alert) => a.id == id)
  }

  /** The callbacks of `deleteJob`/`deleteAlert` and `getJobsByStatus`. */
  function JobLacksId(id: string): Job -> bool {
    (j: Job) => j.id != id
  }

  function AlertLacksId(id: string): Alert -> bool {
    (a: Alert) => a.id != id
  }

  function JobHasStatus(status: JobStatus): Job -> bool {
    (j: Job) => j.status == status
  }

  /** `!job.appliedAt`: never stamped (or stamped with 0). */
  predicate NotApplied(j: Job) {
    j.appliedAt.None? || j.appliedAt.value == 0
  }

  /** The job after `updateJobStatus(id, status, note)`, with `now` for
      `Date.now()` and `stamp` for the ISO time of the note. */
  function StatusUpdated(j: Job, status: JobStatus, note: Option<string>, now: int, stamp: string): (r: Job)
    ensures r.status == status && r.updatedAt == now
    ensures status == Applied && NotApplied(j) ==> r.appliedAt == Some(now)
    ensures !(status == Applied && NotApplied(j)) ==> r.appliedAt == j.appliedAt
    ensures TruthyText(note) ==> r.notes == j.notes + ["[" + stamp + "] " + note.value]
    ensures !TruthyText(note) ==> r.notes == j.notes
    ensures r.(status := j.status, updatedAt := j.updatedAt, appliedAt := j.appliedAt, notes := j.notes) == j
  {
    var j1 := j.(status := status, updatedAt := now);
    var j2 := if status == Applied && NotApplied(j) then j1.(appliedAt := Some(now)) else j1;
    if TruthyText(note) then j2.(notes := j.notes + ["[" + stamp + "] " + note.value]) else j2
  }

  /** `appliedAt` is stamped once: any later status change, to `applied` or
      not, keeps the first (non-zero) stamp. */
  lemma AppliedAtStampedOnce(j: Job, later: JobStatus, n1: Option<string>, n2: Option<string>,
                             t1: int, t2: int, s1: string, s2: string)
    requires t1 != 0
    ensures var once := StatusUpdated(j, Applied, n1, t1, s1);
            var twice := StatusUpdated(once, later, n2, t2, s2);
            once.appliedAt.Some? && twice.appliedAt == once.appliedAt
  {
  }

  /** Every note ever supplied stays, and the newest is last. */
  lemma NotesOnlyGrow(j: Job, status: JobStatus, note: string, now: int, stamp: string)
    requires note != ""
    ensures var r := StatusUpdated(j, status, Some(note), now, stamp);
            |r.notes| == |j.notes| + 1 && r.notes[..|j.notes|] == j.notes
            && r.notes[|j.notes|] == "[" + stamp + "] " + note
  {
  }

  /** `domainParts[0] || 'Company'`: the first dot-separated label, or "Company" when it is empty. */
  function DomainLabel(domain: string): (r: string)
    ensures r != ""
    ensures r == "Company" || (|r| <= |domain| && r == domain[..|r|] && '.' !in r)
    ensures domain != "" && domain[0] != '.' ==>
      |r| <= |domain| && r == domain[..|r|] && (|r| == |domain| || domain[|r|] == '.')
  {
    var first := Split(domain, c => c == '.')[0];
    SplitFirst(domain, c => c == '.');
    assert forall i :: 0 <= i < |first| ==> first[i] != '.';
    if first == "" then "Company" else first
  }

  const NewCompanyHeadquarters := "San Francisco, CA"

  /** The entry `fetchCompanyInfo(domain)` creates on a miss, with `r1`, `r2`,
      `r3` for the three `Math.random()` draws. */
  function NewCompany(domain: string, r1: real, r2: real, r3: real): (c: Company)
    requires 0.0 <= r1 < 1.0 && 0.0 <= r2 < 1.0 && 0.0 <= r3 < 1.0
    ensures c.id == domain && c.domain == Some(domain)
    ensures c.name == Capitalize(DomainLabel(domain))
    ensures c.website == Some("https://" + domain)
    ensures c.glassdoorRating.Some? && 4.0 <= c.glassdoorRating.value < 5.0
    ensures c.glassdoorReviews.Some? && 0 <= c.glassdoorReviews.value < 5000
    ensures c.linkedinFollowers.Some? && 0 <= c.linkedinFollowers.value < 100000
    ensures c.benefits.Some? && "Health Insurance" in c.benefits.value
  {
    Company(
      id := domain,
      name := Capitalize(DomainLabel(domain)),
      domain := Some(domain),
      logoUrl := None,
      description := None,
      industry := Some("Technology"),
      size := Some("100-500"),
      founded := None,
      headquarters := Some(NewCompanyHeadquarters),
      website := Some("https://" + domain),
      glassdoorRating := Some(4.0 + r1),
      glassdoorReviews := Some((r2 * 5000.0).Floor),
      linkedinFollowers := Some((r3 * 100000.0).Floor),
      funding := None,
      ceo := None,
      competitors := None,
      recentNews := None,
      culture := Some(NewCompanyCulture),
      benefits := Some(NewCompanyBenefits))
  }

  const NewCompanyCulture := ["Fast-paced", "Innovation-focused", "Remote-friendly"]
  const NewCompanyBenefits := ["Health Insurance", "401k", "Stock Options", "Unlimited PTO"]

  /** A domain such as "stripe.com" is named after its first label. */
  lemma DomainLabelFirst(first: string, rest: string)
    requires first != "" && '.' !in first
    ensures DomainLabel(first + "." + rest) == first
  {
    var d := first + "." + rest;
    var r := DomainLabel(d);
    assert d[0] == first[0] && d[|first|] == '.';
    assert forall k :: 0 <= k < |first| ==> d[k] == first[k];
    assert '.' !in r;
    assert |r| == |first|;
    assert r == d[..|first|] == first;
  }

  /** A domain that is empty or starts with a dot, such as ".io", is named "Company". */
  lemma DomainLabelMissing(d: string)
    requires d == "" || d[0] == '.'
    ensures DomainLabel(d) == "Company"
  {
    if d != "" {
      assert Split(d, c => c == '.')[0] == "";
    }
  }

  /** Sources with a connector; every other source yields no postings. */
  predicate HasConnector(source: JobSource) {
    source == LinkedIn || source == Indeed || source == RemoteOk
  }

  class JobAggregatorService {
    var jobs: seq<Job>
    var companies: map<string, Company>
    var companyOrder: seq<string>
    var connections: seq<Connection>
    var alerts: seq<Alert>
    var listeners: map<string, nat>
    /** Every callback call so far, oldest first. */
    var delivered: seq<Delivery>
    /** What the storage keys hold. */
    var stored: Snapshot

    ghost predicate Valid()
      reads this`companies, this`companyOrder
    {
      CompaniesValid(companies, companyOrder)
    }

    /** What `saveData` writes. */
    function Saved(): (s: Snapshot)
      reads this`jobs, this`companies, this`companyOrder, this`connections, this`alerts
      requires Valid()
      ensures s.jobs == Some(jobs) && s.connections == Some(connections) && s.alerts == Some(alerts)
      ensures s.companies.Some? && |s.companies.value| == |companyOrder|
    {
      Snapshot(Some(jobs), Some(CompanyValues(companies, companyOrder)), Some(connections), Some(alerts))
    }

    /** `new JobAggregatorService()` followed by `loadData()`: each key that
        holds something replaces the empty collection. */
    constructor (storage: Snapshot)
      ensures Valid()
      ensures jobs == storage.jobs.GetOr([])
      ensures (companies, companyOrder) == LoadCompanies(storage.companies.GetOr([]))
      ensures connections == storage.connections.GetOr([])
      ensures alerts == storage.alerts.GetOr([])
      ensures listeners == map[] && delivered == [] && stored == storage
    {
      var m: map<string, Company> := map[];
      var order: seq<string> := [];
      if storage.companies.Some? {
        var list := storage.companies.value;
        var i := 0;
        while i < |list|
          invariant 0 <= i <= |list|
          invariant (m, order) == LoadCompanies(list[..i])
        {
          LoadStep(list, i + 1);
          var c := list[i];
          if c.id !in m {
            order := order + [c.id];
          }
          m := m[c.id := c];
          i := i + 1;
        }
        assert list[..i] == list;
      }
      jobs := storage.jobs.GetOr([]);
      companies := m;
      companyOrder := order;
      connections := storage.connections.GetOr([]);
      alerts := storage.alerts.GetOr([]);
      listeners := map[];
      delivered := [];
      stored := storage;
    }

    /** `resetForTest`: empty collections, all four keys removed; callbacks stay. */
    method ResetForTest()
      modifies this`jobs, this`companies, this`companyOrder, this`connections, this`alerts, this`stored
      ensures Valid()
      ensures jobs == [] && companies == map[] && companyOrder == [] && connections == [] && alerts == []
      ensures stored == NothingStored
    {
      jobs, companies, companyOrder, connections, alerts := [], map[], [], [], [];
      stored := NothingStored;
    }

    method SaveData()
      requires Valid()
      modifies this`stored
      ensures stored == Saved()
    {
      stored := Saved();
    }

    /** `subscribe(event, cb)`: one slot per event; a later subscription replaces the earlier one. */
    method Subscribe(event: string, callback: nat)
      modifies this`listeners
      ensures listeners == old(listeners)[event := callback]
    {
      listeners := listeners[event := callback];
    }

    method Emit(event: string, payload: Payload)
      modifies this`delivered
      ensures delivered == old(delivered) + Emitted(listeners, event, payload)
    {
      if event in listeners {
        delivered := delivered + [Delivery(listeners[event], event, payload)];
      }
    }

    /** `getJobs` hands out the stored list itself. */
    method GetJobs() returns (r: seq<Job>)
      ensures r == jobs
    {
      r := jobs;
    }

    /** `getConnections()`: the stored list. */
    method GetConnections() returns (r: seq<Connection>)
      ensures r == connections
    {
      r := connections;
    }

    /** `getAlerts()`: the stored list. */
    method GetAlerts() returns (r: seq<Alert>)
      ensures r == alerts
    {
      r := alerts;
    }

    /** `getJob(id)`: the first job with that id, absent when there is none. */
    method GetJob(id: string) returns (r: Option<Job>)
      ensures r.Some? ==> r.value in jobs && r.value.id == id
      ensures r.Some? ==> exists i :: 0 <= i < |jobs| && jobs[i] == r.value && forall k :: 0 <= k < i ==> jobs[k].id != id
      ensures r.None? <==> forall k :: 0 <= k < |jobs| ==> jobs[k].id != id
    {
      match JobIndex(jobs, id)
      case None => r := None;
      case Some(i) => r := Some(jobs[i]);
    }

    /** `getJobsByStatus(status)`: the jobs with that status, in list order. */
    method GetJobsByStatus(status: JobStatus) returns (r: seq<Job>)
      ensures forall j :: j in r <==> j in jobs && j.status == status
      ensures IsSubseq(r, jobs)
      ensures forall j :: multiset(r)[j] == if j.status == status then multiset(jobs)[j] else 0
    {
      r := Filter(jobs, JobHasStatus(status));
      FilterIsSubseq(jobs, JobHasStatus(status));
    }

    /** `searchJobs(query)`: the filters narrow a copy of the list one after
        another, then the page is sliced; the stored list is not touched. */
    method SearchJobs(q: JobSearchQuery) returns (r: seq<Job>)
      ensures r == Search(jobs, q)
      ensures IsSubseq(r, jobs)
      ensures forall j :: j in r ==> j in jobs && SatisfiesQuery(j, q)
      ensures PageSize(q) > 0 ==> |r| <= PageSize(q)
    {
      var results := KeywordStage(jobs, q);
      results := LocationStage(results, q);
      results := WorkTypeStage(results, q);
      results := SourceStage(results, q);
      results := SalaryStage(results, q);
      var start := (PageNumber(q) - 1) * PageSize(q);
      r := JsSlice(results, start, start + PageSize(q));
      SearchSound(jobs, q);
    }

    /** `checkAlerts(job)`: every active alert that matches is bumped and
        stamped and announced, in list order; nothing is saved. */
    method CheckAlerts(job: Job, now: int)
      modifies this`alerts, this`delivered
      ensures alerts == AlertsAfter(old(alerts), job, now)
      ensures delivered == old(delivered) + AlertEvents(listeners, FiredAlerts(old(alerts), job, now), job)
    {
      ghost var before := alerts;
      var i := 0;
      while i < |alerts|
        invariant 0 <= i <= |before| == |alerts|
        invariant alerts == AlertsAfter(before[..i], job, now) + before[i..]
        invariant delivered == old(delivered) + AlertEvents(listeners, FiredAlerts(before[..i], job, now), job)
      {
        CheckAt(i, job, now, before, old(delivered));
        i := i + 1;
      }
      assert before[..i] == before;
      assert before[i..] == [];
    }

    /** One pass of the `checkAlerts` loop, on the alert at position `i`:
        the processed prefix of the original list `before` grows by one
        alert, and its event (if it fires) follows the earlier ones. */
    method CheckAt(i: nat, job: Job, now: int, ghost before: seq<Alert>, ghost start: seq<Delivery>)
      requires i < |before| == |alerts|
      requires alerts == AlertsAfter(before[..i], job, now) + before[i..]
      requires delivered == start + AlertEvents(listeners, FiredAlerts(before[..i], job, now), job)
      modifies this`alerts, this`delivered
      ensures |alerts| == |before|
      ensures alerts == AlertsAfter(before[..i + 1], job, now) + before[i + 1..]
      ensures delivered == start + AlertEvents(listeners, FiredAlerts(before[..i + 1], job, now), job)
    {
      CheckStep(before, alerts, i, job, now);
      DeliveriesStep(listeners, before, i, job, now);
      ghost var events := AlertEvents(listeners, FiredAlerts(before[..i], job, now), job);
      ghost var after := AlertsAfter(before[..i + 1], job, now) + before[i + 1..];
      ghost var next := AlertEvents(listeners, FiredAlerts(before[..i + 1], job, now), job);
      if Fires(alerts[i], job) {
        alerts := alerts[i := Triggered(alerts[i], now)];
        assert alerts == after;
        ghost var event := Emitted(listeners, AlertTriggeredEvent, AlertFired(Triggered(before[i], now), job));
        Emit(AlertTriggeredEvent, AlertFired(alerts[i], job));
        assert next == events + event;
        AppendAssoc(start, events, event);
      } else {
        assert alerts[i := Evaluate(before[i], job, now)] == alerts == after;
        assert next == events + [] == events;
      }
    }

    /** `addJob(job)`: the new job, with a fresh id, no notes or interviews
        and both stamps `now`, goes first; the list is saved and announced;
        then the alerts are checked against that job alone. The bumped
        counters are not saved by this call. */
    method AddJob(input: Job, id: string, now: int) returns (newJob: Job)
      requires Valid()
      modifies this`jobs, this`alerts, this`stored, this`delivered
      ensures newJob == input.(id := id, notes := [], interviews := [], createdAt := now, updatedAt := now)
      ensures jobs == [newJob] + old(jobs)
      ensures stored == Snapshot(Some(jobs), Some(CompanyValues(companies, companyOrder)), Some(connections), Some(old(alerts)))
      ensures alerts == AlertsAfter(old(alerts), newJob, now)
      ensures delivered == old(delivered) + Emitted(listeners, JobsUpdatedEvent, JobList(jobs))
                           + AlertEvents(listeners, FiredAlerts(old(alerts), newJob, now), newJob)
    {
      newJob := input.(id := id, notes := [], interviews := [], createdAt := now, updatedAt := now);
      jobs := [newJob] + jobs;
      SaveData();
      Emit(JobsUpdatedEvent, JobList(jobs));
      CheckAlerts(newJob, now);
    }

    /** `addJobs(batch)`: the batch goes in front as given (no deduplication,
        no alert check), then the list is saved and announced. */
    method AddJobs(batch: seq<Job>)
      requires Valid()
      modifies this`jobs, this`stored, this`delivered
      ensures jobs == batch + old(jobs)
      ensures stored == Saved()
      ensures delivered == old(delivered) + Emitted(listeners, JobsUpdatedEvent, JobList(jobs))
    {
      jobs := batch + jobs;
      SaveData();
      Emit(JobsUpdatedEvent, JobList(jobs));
    }

    /** `updateJob(id, updates)`: only the first job with the id takes the
        patch and the stamp; an unknown id changes and announces nothing. */
    method UpdateJob(id: string, patch: JobPatch, now: int)
      requires Valid()
      modifies this`jobs, this`stored, this`delivered
      ensures JobIndex(old(jobs), id).None? ==>
        jobs == old(jobs) && stored == old(stored) && delivered == old(delivered)
      ensures JobIndex(old(jobs), id).Some? ==>
        var i := JobIndex(old(jobs), id).value;
        jobs == old(jobs)[i := ApplyJobPatch(old(jobs)[i], patch, now)]
        && stored == Saved()
        && delivered == old(delivered) + Emitted(listeners, JobsUpdatedEvent, JobList(jobs))
    {
      match JobIndex(jobs, id)
      case None =>
      case Some(i) =>
        jobs := jobs[i := ApplyJobPatch(jobs[i], patch, now)];
        SaveData();
        Emit(JobsUpdatedEvent, JobList(jobs));
    }

    /** `updateJobStatus(id, status, note)`: the first job with the id moves
        to the status; an unknown id changes and announces nothing. */
    method UpdateJobStatus(id: string, status: JobStatus, note: Option<string>, now: int, stamp: string)
      requires Valid()
      modifies this`jobs, this`stored, this`delivered
      ensures JobIndex(old(jobs), id).None? ==>
        jobs == old(jobs) && stored == old(stored) && delivered == old(delivered)
      ensures JobIndex(old(jobs), id).Some? ==>
        var i := JobIndex(old(jobs), id).value;
        jobs == old(jobs)[i := StatusUpdated(old(jobs)[i], status, note, now, stamp)]
        && stored == Saved()
        && delivered == old(delivered) + Emitted(listeners, JobsUpdatedEvent, JobList(jobs))
    {
      match JobIndex(jobs, id)
      case None =>
      case Some(i) =>
        jobs := jobs[i := StatusUpdated(jobs[i], status, note, now, stamp)];
        SaveData();
        Emit(JobsUpdatedEvent, JobList(jobs));
    }

    /** `deleteJob(id)`: every job with the id goes, the others stay in
        order; saved and announced even when nothing was removed. */
    method DeleteJob(id: string)
      requires Valid()
      modifies this`jobs, this`stored, this`delivered
      ensures forall j :: j in jobs <==> j in old(jobs) && j.id != id
      ensures IsSubseq(jobs, old(jobs))
      ensures forall j: Job :: j.id != id ==> multiset(jobs)[j] == multiset(old(jobs))[j]
      ensures stored == Saved()
      ensures delivered == old(delivered) + Emitted(listeners, JobsUpdatedEvent, JobList(jobs))
    {
      FilterIsSubseq(jobs, JobLacksId(id));
      jobs := Filter(jobs, JobLacksId(id));
      SaveData();
      Emit(JobsUpdatedEvent, JobList(jobs));
    }

    /** `fetchFromSource(source)`: a source with a connector adds its
        postings (given here as `postings`) in front and returns them; any
        other source returns nothing and changes nothing. */
    method FetchFromSource(source: JobSource, postings: seq<Job>) returns (r: seq<Job>)
      requires Valid()
      modifies this`jobs, this`stored, this`delivered
      ensures HasConnector(source) ==> r == postings && jobs == postings + old(jobs) && stored == Saved()
      ensures HasConnector(source) ==> delivered == old(delivered) + Emitted(listeners, JobsUpdatedEvent, JobList(jobs))
      ensures !HasConnector(source) ==> r == [] && jobs == old(jobs) && stored == old(stored) && delivered == old(delivered)
    {
      if HasConnector(source) {
        AddJobs(postings);
        r := postings;
      } else {
        r := [];
      }
    }

    /** `getCompanies()`: the companies in insertion order. */
    method GetCompanies() returns (r: seq<Company>)
      requires Valid()
      ensures r == CompanyValues(companies, companyOrder)
      ensures |r| == |companyOrder| == |companies|
      ensures forall c :: c in r <==> exists k :: k in companies && companies[k] == c
    {
      r := CompanyValues(companies, companyOrder);
      OrderCoversMap(companies, companyOrder);
      forall c ensures c in r <==> exists k :: k in companies && companies[k] == c {
        if c in r {
          var i :| 0 <= i < |r| && r[i] == c;
          assert companies[companyOrder[i]] == c;
        }
        if exists k :: k in companies && companies[k] == c {
          var k :| k in companies && companies[k] == c;
          var i :| 0 <= i < |companyOrder| && companyOrder[i] == k;
          assert r[i] == c;
        }
      }
    }

    method GetCompany(id: string) returns (r: Option<Company>)
      ensures r.Some? <==> id in companies
      ensures r.Some? ==> r.value == companies[id]
    {
      r := if id in companies then Some(companies[id]) else None;
    }

    /** `fetchCompanyInfo(domain)`: a cached entry is returned unchanged and
        nothing is written; a miss creates, stores and saves a new entry
        under the domain, so the next call returns that same entry. */
    method FetchCompanyInfo(domain: string, r1: real, r2: real, r3: real) returns (c: Company)
      requires Valid()
      requires 0.0 <= r1 < 1.0 && 0.0 <= r2 < 1.0 && 0.0 <= r3 < 1.0
      modifies this`companies, this`companyOrder, this`stored
      ensures Valid()
      ensures domain in companies && companies[domain] == c
      ensures domain in old(companies) ==>
        c == old(companies)[domain] && companies == old(companies) && companyOrder == old(companyOrder)
        && stored == old(stored)
      ensures domain !in old(companies) ==>
        c == NewCompany(domain, r1, r2, r3) && companies == old(companies)[domain := c]
        && companyOrder == old(companyOrder) + [domain] && stored == Saved()
    {
      if domain in companies {
        c := companies[domain];
      } else {
        c := NewCompany(domain, r1, r2, r3);
        companies := companies[domain := c];
        companyOrder := companyOrder + [domain];
        SaveData();
      }
    }

    /** `addConnection(conn)`: appended with a fresh id, saved and announced. */
    method AddConnection(input: Connection, id: string) returns (newConn: Connection)
      requires Valid()
      modifies this`connections, this`stored, this`delivered
      ensures newConn == input.(id := id)
      ensures connections == old(connections) + [newConn]
      ensures stored == Saved()
      ensures delivered == old(delivered) + Emitted(listeners, ConnectionsUpdatedEvent, ConnectionList(connections))
    {
      newConn := input.(id := id);
      connections := connections + [newConn];
      SaveData();
      Emit(ConnectionsUpdatedEvent, ConnectionList(connections));
    }

    /** `updateConnection(id, updates)`: merges into the first connection with the id only. */
    method UpdateConnection(id: string, patch: ConnectionPatch)
      requires Valid()
      modifies this`connections, this`stored, this`delivered
      ensures ConnectionIndex(old(connections), id).None? ==>
        connections == old(connections) && stored == old(stored) && delivered == old(delivered)
      ensures ConnectionIndex(old(connections), id).Some? ==>
        var i := ConnectionIndex(old(connections), id).value;
        connections == old(connections)[i := ApplyConnectionPatch(old(connections)[i], patch)]
        && stored == Saved()
        && delivered == old(delivered) + Emitted(listeners, ConnectionsUpdatedEvent, ConnectionList(connections))
    {
      match ConnectionIndex(connections, id)
      case None =>
      case Some(i) =>
        connections := connections[i := ApplyConnectionPatch(connections[i], patch)];
        SaveData();
        Emit(ConnectionsUpdatedEvent, ConnectionList(connections));
    }

    /** `createAlert(alert)`: appended with a fresh id, `createdAt = now`
        and a zero counter, saved and announced. */
    method CreateAlert(input: Alert, id: string, now: int) returns (newAlert: Alert)
      requires Valid()
      modifies this`alerts, this`stored, this`delivered
      ensures newAlert == input.(id := id, createdAt := now, triggeredCount := 0)
      ensures alerts == old(alerts) + [newAlert]
      ensures stored == Saved()
      ensures delivered == old(delivered) + Emitted(listeners, AlertsUpdatedEvent, AlertList(alerts))
    {
      newAlert := input.(id := id, createdAt := now, triggeredCount := 0);
      alerts := alerts + [newAlert];
      SaveData();
      Emit(AlertsUpdatedEvent, AlertList(alerts));
    }

    /** `updateAlert(id, updates)`: merges into the first alert with the id only. */
    method UpdateAlert(id: string, patch: AlertPatch)
      requires Valid()
      modifies this`alerts, this`stored, this`delivered
      ensures AlertIndex(old(alerts), id).None? ==>
        alerts == old(alerts) && stored == old(stored) && delivered == old(delivered)
      ensures AlertIndex(old(alerts), id).Some? ==>
        var i := AlertIndex(old(alerts), id).value;
        alerts == old(alerts)[i := ApplyAlertPatch(old(alerts)[i], patch)]
        && stored == Saved()
        && delivered == old(delivered) + Emitted(listeners, AlertsUpdatedEvent, AlertList(alerts))
    {
      match AlertIndex(alerts, id)
      case None =>
      case Some(i) =>
        alerts := alerts[i := ApplyAlertPatch(alerts[i], patch)];
        SaveData();
        Emit(AlertsUpdatedEvent, AlertList(alerts));
    }

    /** `deleteAlert(id)`: every alert with the id goes, the others stay in order. */
    method DeleteAlert(id: string)
      requires Valid()
      modifies this`alerts, this`stored, this`delivered
      ensures forall a :: a in alerts <==> a in old(alerts) && a.id != id
      ensures IsSubseq(alerts, old(alerts))
      ensures forall a: Alert :: a.id != id ==> multiset(alerts)[a] == multiset(old(alerts))[a]
      ensures stored == Saved()
      ensures delivered == old(delivered) + Emitted(listeners, AlertsUpdatedEvent, AlertList(alerts))
    {
      FilterIsSubseq(alerts, AlertLacksId(id));
      alerts := Filter(alerts, AlertLacksId(id));
      SaveData();
      Emit(AlertsUpdatedEvent, AlertList(alerts));
    }
  }

  /** A valid order lists each key of the map exactly once. */
  lemma OrderCoversMap(m: map<string, Company>, order: seq<string>)
    requires CompaniesValid(m, order)
    ensures |order| == |m|
  {
    var keys := set i | 0 <= i < |order| :: order[i];
    assert keys == m.Keys;
    DistinctCard(order);
  }

  lemma {:induction false} DistinctCard(s: seq<string>)
    requires forall i, j :: 0 <= i < j < |s| ==> s[i] != s[j]
    ensures |set i | 0 <= i < |s| :: s[i]| == |s|
    decreases |s|
  {
    if s != [] {
      var n := |s| - 1;
      DistinctCard(s[..n]);
      var before := set i | 0 <= i < n :: s[..n][i];
      assert before == set i | 0 <= i < n :: s[i];
      assert (set i | 0 <= i < |s| :: s[i]) == before + {s[n]};
      assert s[n] !in before;
    }
  }

  /** Reloading what the service saved restores its four collections. */
  lemma ReloadRestores(jobs: seq<Job>, m: map<string, Company>, order: seq<string>,
                       connections: seq<Connection>, alerts: seq<Alert>)
    requires CompaniesValid(m, order)
    ensures var s := Snapshot(Some(jobs), Some(CompanyValues(m, order)), Some(connections), Some(alerts));
            s.jobs.GetOr([]) == jobs && LoadCompanies(s.companies.GetOr([])) == (m, order)
            && s.connections.GetOr([]) == connections && s.alerts.GetOr([]) == alerts
  {
    LoadAfterSave(m, order);
  }
}
