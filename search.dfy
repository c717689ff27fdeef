/** The job search of `JobAggregatorService.searchJobs`: a chain of filters
    over a copy of the job list, then an offset slice for the page. */
module JobSearch {
  import opened Wrappers
  import opened Seqs
  import opened Text
  import opened JobTypes

  /** A string option that JavaScript treats as true: present and non-empty. */
  predicate TruthyText(s: Option<string>) {
    s.Some? && s.value != ""
  }

  /** A number option that JavaScript treats as true: present and non-zero. */
  predicate TruthyNumber(n: Option<int>) {
    n.Some? && n.value != 0
  }

  /** `kw` (already lower-cased) occurs in the lower-cased title, company or description. */
  predicate KeywordHit(j: Job, kw: string) {
    Contains(ToLower(j.title), kw) || Contains(ToLower(j.company), kw) || Contains(ToLower(j.description), kw)
  }

  predicate LocationHit(j: Job, loc: string) {
    Contains(ToLower(j.location), loc)
  }

  /** The five filters of the query, each true when the query omits it. */
  predicate KeywordOk(j: Job, q: JobSearchQuery) {
    TruthyText(q.keywords) ==> KeywordHit(j, ToLower(q.keywords.value))
  }

  predicate LocationOk(j: Job, q: JobSearchQuery) {
    TruthyText(q.location) ==> LocationHit(j, ToLower(q.location.value))
  }

  predicate WorkTypeOk(j: Job, q: JobSearchQuery) {
    q.workType.Some? ==> j.workType == q.workType.value
  }

  predicate SourceOk(j: Job, q: JobSearchQuery) {
    q.source.Some? ==> j.source == q.source.value
  }

  predicate SalaryOk(j: Job, q: JobSearchQuery) {
    TruthyNumber(q.salaryMin) ==> SalaryOrZero(j) >= q.salaryMin.value
  }

  /** The job passes every filter the query supplies. */
  predicate SatisfiesQuery(j: Job, q: JobSearchQuery) {
    KeywordOk(j, q) && LocationOk(j, q) && WorkTypeOk(j, q) && SourceOk(j, q) && SalaryOk(j, q)
  }

  /** The callbacks handed to `results.filter` by each stage. */
  function KeywordFilter(kw: string): Job -> bool {
    j => KeywordHit(j, kw)
  }

  function LocationFilter(loc: string): Job -> bool {
    j => LocationHit(j, loc)
  }

  function WorkTypeFilter(w: WorkType): Job -> bool {
    (j: Job) => j.workType == w
  }

  function SourceFilter(src: JobSource): Job -> bool {
    (j: Job) => j.source == src
  }

  function SalaryFilter(floor: int): Job -> bool {
    j => SalaryOrZero(j) >= floor
  }

  /** `if (query.keywords) results = results.filter(...)`. */
  function KeywordStage(jobs: seq<Job>, q: JobSearchQuery): (r: seq<Job>)
    ensures IsSubseq(r, jobs)
    ensures forall j :: multiset(r)[j] == if KeywordOk(j, q) then multiset(jobs)[j] else 0
  {
    if TruthyText(q.keywords) then
      FilterIsSubseq(jobs, KeywordFilter(ToLower(q.keywords.value)));
      Filter(jobs, KeywordFilter(ToLower(q.keywords.value)))
    else
      SubseqRefl(jobs);
      jobs
  }

  function LocationStage(jobs: seq<Job>, q: JobSearchQuery): (r: seq<Job>)
    ensures IsSubseq(r, jobs)
    ensures forall j :: multiset(r)[j] == if LocationOk(j, q) then multiset(jobs)[j] else 0
  {
    if TruthyText(q.location) then
      FilterIsSubseq(jobs, LocationFilter(ToLower(q.location.value)));
      Filter(jobs, LocationFilter(ToLower(q.location.value)))
    else
      SubseqRefl(jobs);
      jobs
  }

  function WorkTypeStage(jobs: seq<Job>, q: JobSearchQuery): (r: seq<Job>)
    ensures IsSubseq(r, jobs)
    ensures forall j :: multiset(r)[j] == if WorkTypeOk(j, q) then multiset(jobs)[j] else 0
  {
    if q.workType.Some? then
      FilterIsSubseq(jobs, WorkTypeFilter(q.workType.value));
      Filter(jobs, WorkTypeFilter(q.workType.value))
    else
      SubseqRefl(jobs);
      jobs
  }

  function SourceStage(jobs: seq<Job>, q: JobSearchQuery): (r: seq<Job>)
    ensures IsSubseq(r, jobs)
    ensures forall j :: multiset(r)[j] == if SourceOk(j, q) then multiset(jobs)[j] else 0
  {
    if q.source.Some? then
      FilterIsSubseq(jobs, SourceFilter(q.source.value));
      Filter(jobs, SourceFilter(q.source.value))
    else
      SubseqRefl(jobs);
      jobs
  }

  function SalaryStage(jobs: seq<Job>, q: JobSearchQuery): (r: seq<Job>)
    ensures IsSubseq(r, jobs)
    ensures forall j :: multiset(r)[j] == if SalaryOk(j, q) then multiset(jobs)[j] else 0
  {
    if TruthyNumber(q.salaryMin) then
      FilterIsSubseq(jobs, SalaryFilter(q.salaryMin.value));
      Filter(jobs, SalaryFilter(q.salaryMin.value))
    else
      SubseqRefl(jobs);
      jobs
  }

  /** `query.page || 1`. */
  function PageNumber(q: JobSearchQuery): int {
    if TruthyNumber(q.page) then q.page.value else 1
  }

  /** `query.limit || 20`. */
  function PageSize(q: JobSearchQuery): int {
    if TruthyNumber(q.limit) then q.limit.value else 20
  }

  /** `results.slice(start, start + limit)` with `start = (page - 1) * limit`. */
  function Paginate(results: seq<Job>, q: JobSearchQuery): seq<Job> {
    var l := PageSize(q);
    var start := (PageNumber(q) - 1) * l;
    JsSlice(results, start, start + l)
  }

  /** The filters of `searchJobs`, applied in the source's order. */
  function FilterChain(jobs: seq<Job>, q: JobSearchQuery): seq<Job> {
    SalaryStage(SourceStage(WorkTypeStage(LocationStage(KeywordStage(jobs, q), q), q), q), q)
  }

  /** Every job that survives the filter chain is a job of the list that
      satisfies the query, every such job survives, with its multiplicity,
      and the original order is kept. */
  lemma FilterChainSpec(jobs: seq<Job>, q: JobSearchQuery)
    ensures forall j :: multiset(FilterChain(jobs, q))[j] == if SatisfiesQuery(j, q) then multiset(jobs)[j] else 0
    ensures forall j :: j in FilterChain(jobs, q) <==> j in jobs && SatisfiesQuery(j, q)
    ensures IsSubseq(FilterChain(jobs, q), jobs)
  {
    var r1 := KeywordStage(jobs, q);
    var r2 := LocationStage(r1, q);
    var r3 := WorkTypeStage(r2, q);
    var r4 := SourceStage(r3, q);
    var r5 := SalaryStage(r4, q);
    SubseqTrans(r2, r1, jobs);
    SubseqTrans(r3, r2, jobs);
    SubseqTrans(r4, r3, jobs);
    SubseqTrans(r5, r4, jobs);
    forall j ensures j in r5 <==> j in jobs && SatisfiesQuery(j, q) {
      assert j in r5 <==> multiset(r5)[j] > 0;
      assert j in jobs <==> multiset(jobs)[j] > 0;
    }
  }

  /** The whole search: filter chain, then the page. */
  function Search(jobs: seq<Job>, q: JobSearchQuery): seq<Job> {
    Paginate(FilterChain(jobs, q), q)
  }

  /** A search returns jobs of the list, in their original order, each
      satisfying every supplied filter, and never more than a positive page size. */
  lemma SearchSound(jobs: seq<Job>, q: JobSearchQuery)
    ensures IsSubseq(Search(jobs, q), jobs)
    ensures forall j :: j in Search(jobs, q) ==> j in jobs && SatisfiesQuery(j, q)
    ensures PageSize(q) > 0 ==> |Search(jobs, q)| <= PageSize(q)
  {
    var f := FilterChain(jobs, q);
    var l := PageSize(q);
    var start := (PageNumber(q) - 1) * l;
    var page := JsSlice(f, start, start + l);
    assert Search(jobs, q) == page;
    FilterChainSpec(jobs, q);
    JsSliceWindow(f, start, l);
    SubseqTrans(page, f, jobs);
  }

  /** With a positive page and page size the result is the window
      `filtered[(p-1)*l .. (p-1)*l + l]`, cut at the end of the list. */
  lemma SearchPage(jobs: seq<Job>, q: JobSearchQuery)
    requires PageNumber(q) >= 1 && PageSize(q) >= 1
    ensures (PageNumber(q) - 1) * PageSize(q) >= 0
    ensures var f := FilterChain(jobs, q);
            var start := (PageNumber(q) - 1) * PageSize(q);
            var lo := if start < |f| then start else |f|;
            var hi := if start + PageSize(q) < |f| then start + PageSize(q) else |f|;
            Search(jobs, q) == f[lo..hi]
  {
    var f := FilterChain(jobs, q);
    var p, l := PageNumber(q), PageSize(q);
    var start := (p - 1) * l;
    MulNonNegative(p - 1, l);
    assert SliceIndex(|f|, start) == if start < |f| then start else |f|;
    assert SliceIndex(|f|, start + l) == if start + l < |f| then start + l else |f|;
  }

  lemma MulNonNegative(a: int, b: int)
    requires a >= 0 && b >= 0
    ensures a * b >= 0
  {
  }

  /** The empty query returns the first twenty jobs. */
  lemma EmptyQueryFirstPage(jobs: seq<Job>)
    ensures Search(jobs, EmptyQuery) == jobs[..if |jobs| < 20 then |jobs| else 20]
  {
  }
}
