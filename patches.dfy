/** Object-spread merge patches: `{ ...record, ...updates }` with `updates`
    a `Partial<Record>`. A required field of the patch is `Option<T>` (the key
    is absent or carries a value); an optional field is `Option<Option<T>>`,
    because a patch may also set it to `undefined` explicitly. */
module Patches {
  import opened Wrappers
  import opened JobTypes

  /** The patch equivalent to spreading `p` and then `q`: `q` wins. */
  function Over<T>(p: Option<T>, q: Option<T>): Option<T> {
    if q.Some? then q else p
  }

  datatype JobPatch = JobPatch(
    id: Option<string>,
    externalId: Option<Option<string>>,
    title: Option<string>,
    company: Option<string>,
    companyId: Option<Option<string>>,
    location: Option<string>,
    workType: Option<WorkType>,
    description: Option<string>,
    requirements: Option<seq<string>>,
    niceToHave: Option<Option<seq<string>>>,
    salaryMin: Option<Option<int>>,
    salaryMax: Option<Option<int>>,
    salaryCurrency: Option<Option<string>>,
    postedAt: Option<int>,
    expiresAt: Option<Option<int>>,
    source: Option<JobSource>,
    sourceUrl: Option<string>,
    applyUrl: Option<Option<string>>,
    logoUrl: Option<Option<string>>,
    status: Option<JobStatus>,
    matchScore: Option<Option<real>>,
    riskScore: Option<Option<real>>,
    appliedAt: Option<Option<int>>,
    notes: Option<seq<string>>,
    interviews: Option<seq<Interview>>,
    createdAt: Option<int>)

  const NoJobChanges := JobPatch(None, None, None, None, None, None, None, None, None, None, None, None, None,
                                 None, None, None, None, None, None, None, None, None, None, None, None, None)

  /** `{ ...job, ...updates, updatedAt: now }` (`updateJob`): every supplied
      field replaces the job's, `updatedAt` is always the clock reading. */
  function ApplyJobPatch(j: Job, p: JobPatch, now: int): (r: Job)
    ensures r.updatedAt == now
  {
    Job(p.id.GetOr(j.id), p.externalId.GetOr(j.externalId), p.title.GetOr(j.title), p.company.GetOr(j.company),
        p.companyId.GetOr(j.companyId), p.location.GetOr(j.location), p.workType.GetOr(j.workType),
        p.description.GetOr(j.description), p.requirements.GetOr(j.requirements), p.niceToHave.GetOr(j.niceToHave),
        p.salaryMin.GetOr(j.salaryMin), p.salaryMax.GetOr(j.salaryMax), p.salaryCurrency.GetOr(j.salaryCurrency),
        p.postedAt.GetOr(j.postedAt), p.expiresAt.GetOr(j.expiresAt), p.source.GetOr(j.source),
        p.sourceUrl.GetOr(j.sourceUrl), p.applyUrl.GetOr(j.applyUrl), p.logoUrl.GetOr(j.logoUrl),
        p.status.GetOr(j.status), p.matchScore.GetOr(j.matchScore), p.riskScore.GetOr(j.riskScore),
        p.appliedAt.GetOr(j.appliedAt), p.notes.GetOr(j.notes), p.interviews.GetOr(j.interviews),
        p.createdAt.GetOr(j.createdAt), now)
  }

  /** Spreading `p` then `q` as one patch. */
  function ThenJobPatch(p: JobPatch, q: JobPatch): JobPatch {
    JobPatch(Over(p.id, q.id), Over(p.externalId, q.externalId), Over(p.title, q.title), Over(p.company, q.company),
             Over(p.companyId, q.companyId), Over(p.location, q.location), Over(p.workType, q.workType),
             Over(p.description, q.description), Over(p.requirements, q.requirements), Over(p.niceToHave, q.niceToHave),
             Over(p.salaryMin, q.salaryMin), Over(p.salaryMax, q.salaryMax), Over(p.salaryCurrency, q.salaryCurrency),
             Over(p.postedAt, q.postedAt), Over(p.expiresAt, q.expiresAt), Over(p.source, q.source),
             Over(p.sourceUrl, q.sourceUrl), Over(p.applyUrl, q.applyUrl), Over(p.logoUrl, q.logoUrl),
             Over(p.status, q.status), Over(p.matchScore, q.matchScore), Over(p.riskScore, q.riskScore),
             Over(p.appliedAt, q.appliedAt), Over(p.notes, q.notes), Over(p.interviews, q.interviews),
             Over(p.createdAt, q.createdAt))
  }

  /** Each field the patch supplies replaces the job's; each it leaves out keeps its value. */
  lemma JobPatchMerges(j: Job, p: JobPatch, now: int)
    ensures var r := ApplyJobPatch(j, p, now);
            && (p.id.Some? ==> r.id == p.id.value) && (p.id.None? ==> r.id == j.id)
            && (p.externalId.Some? ==> r.externalId == p.externalId.value)
            && (p.externalId.None? ==> r.externalId == j.externalId)
            && (p.title.Some? ==> r.title == p.title.value) && (p.title.None? ==> r.title == j.title)
            && (p.company.Some? ==> r.company == p.company.value) && (p.company.None? ==> r.company == j.company)
            && (p.companyId.Some? ==> r.companyId == p.companyId.value)
            && (p.companyId.None? ==> r.companyId == j.companyId)
            && (p.location.Some? ==> r.location == p.location.value) && (p.location.None? ==> r.location == j.location)
            && (p.workType.Some? ==> r.workType == p.workType.value) && (p.workType.None? ==> r.workType == j.workType)
            && (p.description.Some? ==> r.description == p.description.value)
            && (p.description.None? ==> r.description == j.description)
            && (p.requirements.Some? ==> r.requirements == p.requirements.value)
            && (p.requirements.None? ==> r.requirements == j.requirements)
            && (p.niceToHave.Some? ==> r.niceToHave == p.niceToHave.value)
            && (p.niceToHave.None? ==> r.niceToHave == j.niceToHave)
            && (p.salaryMin.Some? ==> r.salaryMin == p.salaryMin.value)
            && (p.salaryMin.None? ==> r.salaryMin == j.salaryMin)
            && (p.salaryMax.Some? ==> r.salaryMax == p.salaryMax.value)
            && (p.salaryMax.None? ==> r.salaryMax == j.salaryMax)
            && (p.salaryCurrency.Some? ==> r.salaryCurrency == p.salaryCurrency.value)
            && (p.salaryCurrency.None? ==> r.salaryCurrency == j.salaryCurrency)
            && (p.postedAt.Some? ==> r.postedAt == p.postedAt.value) && (p.postedAt.None? ==> r.postedAt == j.postedAt)
            && (p.expiresAt.Some? ==> r.expiresAt == p.expiresAt.value)
            && (p.expiresAt.None? ==> r.expiresAt == j.expiresAt)
            && (p.source.Some? ==> r.source == p.source.value) && (p.source.None? ==> r.source == j.source)
            && (p.sourceUrl.Some? ==> r.sourceUrl == p.sourceUrl.value)
            && (p.sourceUrl.None? ==> r.sourceUrl == j.sourceUrl)
            && (p.applyUrl.Some? ==> r.applyUrl == p.applyUrl.value) && (p.applyUrl.None? ==> r.applyUrl == j.applyUrl)
            && (p.logoUrl.Some? ==> r.logoUrl == p.logoUrl.value) && (p.logoUrl.None? ==> r.logoUrl == j.logoUrl)
            && (p.status.Some? ==> r.status == p.status.value) && (p.status.None? ==> r.status == j.status)
            && (p.matchScore.Some? ==> r.matchScore == p.matchScore.value)
            && (p.matchScore.None? ==> r.matchScore == j.matchScore)
            && (p.riskScore.Some? ==> r.riskScore == p.riskScore.value)
            && (p.riskScore.None? ==> r.riskScore == j.riskScore)
            && (p.appliedAt.Some? ==> r.appliedAt == p.appliedAt.value)
            && (p.appliedAt.None? ==> r.appliedAt == j.appliedAt)
            && (p.notes.Some? ==> r.notes == p.notes.value) && (p.notes.None? ==> r.notes == j.notes)
            && (p.interviews.Some? ==> r.interviews == p.interviews.value)
            && (p.interviews.None? ==> r.interviews == j.interviews)
            && (p.createdAt.Some? ==> r.createdAt == p.createdAt.value)
            && (p.createdAt.None? ==> r.createdAt == j.createdAt)
  {
  }

  /** An empty patch only re-stamps `updatedAt`. */
  lemma EmptyJobPatch(j: Job, now: int)
    ensures ApplyJobPatch(j, NoJobChanges, now) == j.(updatedAt := now)
  {
  }

  /** Two successive updates equal one update with the merged patch. */
  lemma JobPatchesCompose(j: Job, p: JobPatch, q: JobPatch, t1: int, t2: int)
    ensures ApplyJobPatch(ApplyJobPatch(j, p, t1), q, t2) == ApplyJobPatch(j, ThenJobPatch(p, q), t2)
  {
  }

  /** Re-applying the same patch at the same instant changes nothing more. */
  lemma JobPatchIdempotent(j: Job, p: JobPatch, now: int)
    ensures ApplyJobPatch(ApplyJobPatch(j, p, now), p, now) == ApplyJobPatch(j, p, now)
  {
  }

  datatype ConnectionPatch = ConnectionPatch(
    id: Option<string>,
    name: Option<string>,
    headline: Option<Option<string>>,
    company: Option<Option<string>>,
    title: Option<Option<string>>,
    linkedinUrl: Option<Option<string>>,
    connectionDegree: Option<Degree>,
    connectedAt: Option<Option<int>>,
    notes: Option<string>,
    canRefer: Option<bool>)

  /** `{ ...connection, ...updates }` (`updateConnection`). */
  function ApplyConnectionPatch(c: Connection, p: ConnectionPatch): (r: Connection)
    ensures p == ConnectionPatch(None, None, None, None, None, None, None, None, None, None) ==> r == c
  {
    Connection(p.id.GetOr(c.id), p.name.GetOr(c.name), p.headline.GetOr(c.headline), p.company.GetOr(c.company),
               p.title.GetOr(c.title), p.linkedinUrl.GetOr(c.linkedinUrl), p.connectionDegree.GetOr(c.connectionDegree),
               p.connectedAt.GetOr(c.connectedAt), p.notes.GetOr(c.notes), p.canRefer.GetOr(c.canRefer))
  }

  /** Each field the patch supplies replaces the connection's; each it leaves out keeps its value. */
  lemma ConnectionPatchMerges(c: Connection, p: ConnectionPatch)
    ensures var r := ApplyConnectionPatch(c, p);
            && (p.id.Some? ==> r.id == p.id.value) && (p.id.None? ==> r.id == c.id)
            && (p.name.Some? ==> r.name == p.name.value) && (p.name.None? ==> r.name == c.name)
            && (p.headline.Some? ==> r.headline == p.headline.value) && (p.headline.None? ==> r.headline == c.headline)
            && (p.company.Some? ==> r.company == p.company.value) && (p.company.None? ==> r.company == c.company)
            && (p.title.Some? ==> r.title == p.title.value) && (p.title.None? ==> r.title == c.title)
            && (p.linkedinUrl.Some? ==> r.linkedinUrl == p.linkedinUrl.value)
            && (p.linkedinUrl.None? ==> r.linkedinUrl == c.linkedinUrl)
            && (p.connectionDegree.Some? ==> r.connectionDegree == p.connectionDegree.value)
            && (p.connectionDegree.None? ==> r.connectionDegree == c.connectionDegree)
            && (p.connectedAt.Some? ==> r.connectedAt == p.connectedAt.value)
            && (p.connectedAt.None? ==> r.connectedAt == c.connectedAt)
            && (p.notes.Some? ==> r.notes == p.notes.value) && (p.notes.None? ==> r.notes == c.notes)
            && (p.canRefer.Some? ==> r.canRefer == p.canRefer.value) && (p.canRefer.None? ==> r.canRefer == c.canRefer)
  {
  }

  /** Spreading `p` then `q` as one patch. */
  function ThenConnectionPatch(p: ConnectionPatch, q: ConnectionPatch): ConnectionPatch {
    ConnectionPatch(Over(p.id, q.id), Over(p.name, q.name), Over(p.headline, q.headline), Over(p.company, q.company),
                    Over(p.title, q.title), Over(p.linkedinUrl, q.linkedinUrl),
                    Over(p.connectionDegree, q.connectionDegree), Over(p.connectedAt, q.connectedAt),
                    Over(p.notes, q.notes), Over(p.canRefer, q.canRefer))
  }

  /** Two successive updates equal one update with the merged patch. */
  lemma ConnectionPatchesCompose(c: Connection, p: ConnectionPatch, q: ConnectionPatch)
    ensures ApplyConnectionPatch(ApplyConnectionPatch(c, p), q) == ApplyConnectionPatch(c, ThenConnectionPatch(p, q))
  {
  }

  lemma ConnectionPatchIdempotent(c: Connection, p: ConnectionPatch)
    ensures ApplyConnectionPatch(ApplyConnectionPatch(c, p), p) == ApplyConnectionPatch(c, p)
  {
  }

  datatype AlertPatch = AlertPatch(
    id: Option<string>,
    keywords: Option<seq<string>>,
    locations: Option<Option<seq<string>>>,
    workTypes: Option<Option<seq<WorkType>>>,
    salaryMin: Option<Option<int>>,
    sources: Option<Option<seq<JobSource>>>,
    notifyEmail: Option<bool>,
    notifyPush: Option<bool>,
    active: Option<bool>,
    createdAt: Option<int>,
    lastTriggered: Option<Option<int>>,
    triggeredCount: Option<int>)

  /** `{ ...alert, ...updates }` (`updateAlert`): the counter is whatever the
      patch says, so an update may also reset or lower it. */
  function ApplyAlertPatch(a: Alert, p: AlertPatch): (r: Alert)
    ensures p.triggeredCount.None? ==> r.triggeredCount == a.triggeredCount
    ensures p == AlertPatch(None, None, None, None, None, None, None, None, None, None, None, None) ==> r == a
  {
    Alert(p.id.GetOr(a.id), p.keywords.GetOr(a.keywords), p.locations.GetOr(a.locations),
          p.workTypes.GetOr(a.workTypes), p.salaryMin.GetOr(a.salaryMin), p.sources.GetOr(a.sources),
          p.notifyEmail.GetOr(a.notifyEmail), p.notifyPush.GetOr(a.notifyPush), p.active.GetOr(a.active),
          p.createdAt.GetOr(a.createdAt), p.lastTriggered.GetOr(a.lastTriggered), p.triggeredCount.GetOr(a.triggeredCount))
  }

  /** Each field the patch supplies replaces the alert's; each it leaves out keeps its value. */
  lemma AlertPatchMerges(a: Alert, p: AlertPatch)
    ensures var r := ApplyAlertPatch(a, p);
            && (p.id.Some? ==> r.id == p.id.value) && (p.id.None? ==> r.id == a.id)
            && (p.keywords.Some? ==> r.keywords == p.keywords.value) && (p.keywords.None? ==> r.keywords == a.keywords)
            && (p.locations.Some? ==> r.locations == p.locations.value)
            && (p.locations.None? ==> r.locations == a.locations)
            && (p.workTypes.Some? ==> r.workTypes == p.workTypes.value)
            && (p.workTypes.None? ==> r.workTypes == a.workTypes)
            && (p.salaryMin.Some? ==> r.salaryMin == p.salaryMin.value)
            && (p.salaryMin.None? ==> r.salaryMin == a.salaryMin)
            && (p.sources.Some? ==> r.sources == p.sources.value) && (p.sources.None? ==> r.sources == a.sources)
            && (p.notifyEmail.Some? ==> r.notifyEmail == p.notifyEmail.value)
            && (p.notifyEmail.None? ==> r.notifyEmail == a.notifyEmail)
            && (p.notifyPush.Some? ==> r.notifyPush == p.notifyPush.value)
            && (p.notifyPush.None? ==> r.notifyPush == a.notifyPush)
            && (p.active.Some? ==> r.active == p.active.value) && (p.active.None? ==> r.active == a.active)
            && (p.createdAt.Some? ==> r.createdAt == p.createdAt.value)
            && (p.createdAt.None? ==> r.createdAt == a.createdAt)
            && (p.lastTriggered.Some? ==> r.lastTriggered == p.lastTriggered.value)
            && (p.lastTriggered.None? ==> r.lastTriggered == a.lastTriggered)
            && (p.triggeredCount.Some? ==> r.triggeredCount == p.triggeredCount.value)
            && (p.triggeredCount.None? ==> r.triggeredCount == a.triggeredCount)
  {
  }

  /** Spreading `p` then `q` as one patch. */
  function ThenAlertPatch(p: AlertPatch, q: AlertPatch): AlertPatch {
    AlertPatch(Over(p.id, q.id), Over(p.keywords, q.keywords), Over(p.locations, q.locations),
               Over(p.workTypes, q.workTypes), Over(p.salaryMin, q.salaryMin), Over(p.sources, q.sources),
               Over(p.notifyEmail, q.notifyEmail), Over(p.notifyPush, q.notifyPush), Over(p.active, q.active),
               Over(p.createdAt, q.createdAt), Over(p.lastTriggered, q.lastTriggered),
               Over(p.triggeredCount, q.triggeredCount))
  }

  /** Two successive updates equal one update with the merged patch. */
  lemma AlertPatchesCompose(a: Alert, p: AlertPatch, q: AlertPatch)
    ensures ApplyAlertPatch(ApplyAlertPatch(a, p), q) == ApplyAlertPatch(a, ThenAlertPatch(p, q))
  {
  }

  lemma AlertPatchIdempotent(a: Alert, p: AlertPatch)
    ensures ApplyAlertPatch(ApplyAlertPatch(a, p), p) == ApplyAlertPatch(a, p)
  {
  }
}
