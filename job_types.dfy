/** The records and enumerations the job-tracking services share.
    Timestamps are integers (milliseconds since the epoch), salaries are
    integers, ratings and scores are reals. An optional property (`x?: T`)
    is an `Option<T>`. */
module JobTypes {
  import opened Wrappers

  /** Position in the application pipeline; the type imposes no transition order. */
  datatype JobStatus =
    | New | Viewed | Applied | PhoneScreen | Technical | Onsite
    | Offer | Accepted | Rejected | Withdrawn

  datatype WorkType = Remote | Hybrid | Onsite | Unknown

  datatype JobSource =
    | LinkedIn | Indeed | RemoteOk | Glassdoor | Greenhouse | Lever | CompanyWebsite | Manual

  const AllStatuses: seq<JobStatus> :=
    [New, Viewed, Applied, PhoneScreen, Technical, JobStatus.Onsite, Offer, Accepted, Rejected, Withdrawn]
  const AllWorkTypes: seq<WorkType> := [Remote, Hybrid, WorkType.Onsite, Unknown]
  const AllSources: seq<JobSource> :=
    [LinkedIn, Indeed, RemoteOk, Glassdoor, Greenhouse, Lever, CompanyWebsite, Manual]

  /** Every status is one of the ten listed, each listed once. */
  lemma StatusesEnumerated(s: JobStatus)
    ensures s in AllStatuses
    ensures |AllStatuses| == 10
    ensures forall i, j :: 0 <= i < j < |AllStatuses| ==> AllStatuses[i] != AllStatuses[j]
  {
  }

  /** Four work types and eight sources, each listed once. */
  lemma WorkTypesAndSourcesEnumerated(w: WorkType, src: JobSource)
    ensures w in AllWorkTypes && |AllWorkTypes| == 4
    ensures forall i, j :: 0 <= i < j < |AllWorkTypes| ==> AllWorkTypes[i] != AllWorkTypes[j]
    ensures src in AllSources && |AllSources| == 8
    ensures forall i, j :: 0 <= i < j < |AllSources| ==> AllSources[i] != AllSources[j]
  {
  }

  datatype InterviewKind =
    | PhoneScreenRound | TechnicalRound | Behavioral | Culture | Coding | SystemDesign | Final | Other

  datatype InterviewStatus = Scheduled | Completed | Cancelled | NoShow

  datatype Interview = Interview(
    id: string,
    jobId: string,
    kind: InterviewKind,
    status: InterviewStatus,
    scheduledAt: Option<int>,
    completedAt: Option<int>,
    duration: Option<int>,
    interviewers: seq<string>,
    notes: string,
    feedback: Option<string>,
    rating: Option<real>)

  /** One tracked posting. `requirements`, `notes` and `interviews` are always
      present; `niceToHave`, the salary bounds and `appliedAt` are optional. */
  datatype Job = Job(
    id: string,
    externalId: Option<string>,
    title: string,
    company: string,
    companyId: Option<string>,
    location: string,
    workType: WorkType,
    description: string,
    requirements: seq<string>,
    niceToHave: Option<seq<string>>,
    salaryMin: Option<int>,
    salaryMax: Option<int>,
    salaryCurrency: Option<string>,
    postedAt: int,
    expiresAt: Option<int>,
    source: JobSource,
    sourceUrl: string,
    applyUrl: Option<string>,
    logoUrl: Option<string>,
    status: JobStatus,
    matchScore: Option<real>,
    riskScore: Option<real>,
    appliedAt: Option<int>,
    notes: seq<string>,
    interviews: seq<Interview>,
    createdAt: int,
    updatedAt: int)

  /** `job.salaryMin || 0`: a missing (or zero) salary reads as 0. */
  function SalaryOrZero(j: Job): int {
    j.salaryMin.GetOr(0)
  }

  datatype CompanyNews = CompanyNews(title: string, url: string, date: int, source: string)

  datatype Company = Company(
    id: string,
    name: string,
    domain: Option<string>,
    logoUrl: Option<string>,
    description: Option<string>,
    industry: Option<string>,
    size: Option<string>,
    founded: Option<int>,
    headquarters: Option<string>,
    website: Option<string>,
    glassdoorRating: Option<real>,
    glassdoorReviews: Option<int>,
    linkedinFollowers: Option<int>,
    funding: Option<string>,
    ceo: Option<string>,
    competitors: Option<seq<string>>,
    recentNews: Option<seq<CompanyNews>>,
    culture: Option<seq<string>>,
    benefits: Option<seq<string>>)

  datatype Degree = First | Second | Third

  /** A professional contact: the degree is mandatory, the employer optional. */
  datatype Connection = Connection(
    id: string,
    name: string,
    headline: Option<string>,
    company: Option<string>,
    title: Option<string>,
    linkedinUrl: Option<string>,
    connectionDegree: Degree,
    connectedAt: Option<int>,
    notes: string,
    canRefer: bool)

  /** A standing watch rule. `keywords`, `active` and `triggeredCount` are
      always present; the filters and `lastTriggered` are optional. */
  datatype Alert = Alert(
    id: string,
    keywords: seq<string>,
    locations: Option<seq<string>>,
    workTypes: Option<seq<WorkType>>,
    salaryMin: Option<int>,
    sources: Option<seq<JobSource>>,
    notifyEmail: bool,
    notifyPush: bool,
    active: bool,
    createdAt: int,
    lastTriggered: Option<int>,
    triggeredCount: int)

  /** Every field of a search query is optional. */
  datatype JobSearchQuery = JobSearchQuery(
    keywords: Option<string>,
    location: Option<string>,
    workType: Option<WorkType>,
    salaryMin: Option<int>,
    experienceLevel: Option<string>,
    company: Option<string>,
    source: Option<JobSource>,
    page: Option<int>,
    limit: Option<int>)

  const EmptyQuery := JobSearchQuery(None, None, None, None, None, None, None, None, None)
}
