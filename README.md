# Job tracker services in Dafny

This project models the service layer of a browser job-tracking
application. It covers four pieces:

- The shared records: jobs, companies, connections, alerts and search
  queries.
- `JobAggregatorService`: the in-memory store of jobs, companies,
  connections and alerts. It handles search, alert matching,
  persistence snapshots and change events.
- `AIMatchingService`: scores a job against the user's profile (skills,
  experience, optional embedding similarity). It also judges how well a
  company fits and ranks the connections to ask for a referral.
- `ProfileService`: the user's profile, its listeners and its stored copy.

Each service is a `class` whose fields are the source object's fields,
and its methods change them in place. The scoring logic is made of pure
functions in the source, and here it is functions plus lemmas. The
exceptions are the source's loops (`calculateSkillMatch`,
`simpleKeywordMatch`, `cosineSimilarity`, `findReferralConnections`,
`checkAlerts`, the profile's `notify`), which are methods with loop
invariants. Each is proved equal to a specification function.

Outside influences become parameters:

- Clock readings (`Date.now()`) and generated ids.
- `Math.random()` draws, each in `[0, 1)`.
- Postings a connector would fetch.
- The outcome of loading the embedding model, and the vectors it would
  produce.
- Whether a local model may be used at all.

Storage is a snapshot value: what each `localStorage` key holds. Event
callbacks are named by number, and every call is appended to a log
field, so "who was called with what, in which order" is part of the
state.

Modules, one file each:

- `Wrappers`, `Seqs`, `Text`: `Option`, order-keeping filters and
  subsequences, and JavaScript string helpers. The helpers cover ASCII
  `toLowerCase`, `includes`, `split`, `join`, `slice` and `toFixed(1)`.
- `JobTypes`: the records and enumerations (`job-types.ts`).
- `JobSearch`, `AlertRules`, `Patches`: the `searchJobs` filter chain,
  the `checkAlerts` rule, and object-spread updates.
- `JobAggregator`: `JobAggregatorService` (`job-aggregator.ts`).
- `JobScoring`, `CompanyFit`, `AIMatching`: `AIMatchingService`
  (`ai-matching.ts`).
- `Profile`: `ProfileService` (`profile.ts`).

Behaviours of the code a reader may not expect:

- With one listed position, the requirements `["5+ years React",
  "TypeScript"]` give an experience score of 0.8, not 0.4. "TypeScript"
  carries no years pattern, so it passes, and `some` is satisfied
  (`JobScoring.ExperienceScenario`).
- The summary band is computed from the skill score, not the overall
  score (`JobScoring.SummaryIgnoresSemantic`).
- A connection with no company on record is rated 1.0, as a colleague:
  `companyLower.includes('')` holds (`CompanyFit.NoCompanyIsColleague`).
- An alert's `sources` filter is never consulted
  (`AlertRules.SourcesIgnored`).
- `addJob` saves before it checks the alerts, so the bumped counters
  reach storage only with the next save (`JobAggregator.JobAggregatorService.AddJob`).

## Model

| member | source | states |
|---|---|---|
| JobTypes.StatusesEnumerated | src/services/job-types.ts:2 | every job status is one of exactly ten distinct values |
| JobTypes.WorkTypesAndSourcesEnumerated | src/services/job-types.ts:3-4 | four distinct work types and eight distinct sources, nothing else |
| JobSearch.FilterChainSpec | src/services/job-aggregator.ts:85-111 | the filters keep exactly the jobs that satisfy every supplied criterion, each as often as it occurs, in original order; a missing or empty criterion filters nothing |
| JobSearch.Search | src/services/job-aggregator.ts:84-115 | the search is the filter chain followed by the page slice; its meaning is given by the lemmas below |
| JobSearch.SearchSound | src/services/job-aggregator.ts:84-115 | a search returns an order-preserving subsequence of the stored jobs, each satisfying the query, and at most one page (when the page size is positive) |
| JobSearch.SearchPage | src/services/job-aggregator.ts:113-114 | with page p >= 1 and size l >= 1 the result is the filtered list from (p-1)*l to (p-1)*l+l, cut at its end |
| JobSearch.EmptyQueryFirstPage | src/services/job-aggregator.ts:113-114 | the empty query returns the first twenty jobs |
| JobAggregator.JobAggregatorService.SearchJobs | src/services/job-aggregator.ts:84-115 | the filter stages and the page slice compute the specified search; the result is a subsequence of the stored jobs, all matching, at most one page |
| AlertRules.Fires | src/services/job-aggregator.ts:435-450 | an alert fires when it is active and its keyword, location, work-type and salary conditions all hold |
| AlertRules.Triggered | src/services/job-aggregator.ts:451-454 | a firing bumps the counter by one, stamps `lastTriggered` with the clock, and changes nothing else |
| AlertRules.AlertsAfter | src/services/job-aggregator.ts:434-457 | the alert list after a check has one entry per alert, each evaluated against the job |
| AlertRules.AlertsAfterSpec | src/services/job-aggregator.ts:434-457 | position by position, each firing alert is bumped and stamped and every other alert is unchanged |
| AlertRules.CountersOnlyGrow | src/services/job-aggregator.ts:451-454 | checking a job raises each counter by zero or one, never lowers it |
| AlertRules.FiredAlerts | src/services/job-aggregator.ts:451-455 | the payloads of the `alert-triggered` events: the firing alerts after their bump, in list order, never more than the alerts |
| AlertRules.FiredAlertsCount | src/services/job-aggregator.ts:451-455 | one `alert-triggered` payload per firing alert |
| AlertRules.FiredAlertsFromList | src/services/job-aggregator.ts:451-455 | each payload is a firing alert of the list, after its bump |
| AlertRules.EmptyKeywordsNeverFire | src/services/job-aggregator.ts:436-440 | an alert with no keywords never fires (`some` over nothing is false) |
| AlertRules.InactiveNeverFires | src/services/job-aggregator.ts:435 | an inactive alert never fires and is left unchanged |
| AlertRules.SourcesIgnored | src/services/job-aggregator.ts:434-451 | changing an alert's `sources` never changes whether it fires |
| AlertRules.MoreKeywordsStillFire | src/services/job-aggregator.ts:436-440 | keywords are alternatives: adding keywords never stops an alert from firing |
| AlertRules.SoleKeywordFires | src/services/job-aggregator.ts:436-451 | an active alert whose only keyword occurs in the title, company or description, with no other filter, fires (case-insensitively) |
| AlertRules.ContainsLowered | src/services/job-aggregator.ts:437-439 | an occurrence survives lower-casing both strings |
| Patches.ApplyJobPatch | src/services/job-aggregator.ts:290 | an updated job is always stamped with the clock reading; the field-wise merge is stated by `JobPatchMerges` |
| Patches.JobPatchMerges | src/services/job-aggregator.ts:290 | each of the 26 fields the patch supplies replaces the job's value, and each it leaves out keeps it |
| Patches.EmptyJobPatch | src/services/job-aggregator.ts:290 | an empty patch only re-stamps `updatedAt` |
| Patches.JobPatchesCompose | src/services/job-aggregator.ts:287-294 | two successive updates equal one update with the merged patch |
| Patches.JobPatchIdempotent | src/services/job-aggregator.ts:287-294 | re-applying a patch at the same instant changes nothing more |
| Patches.ApplyConnectionPatch | src/services/job-aggregator.ts:396 | an empty patch leaves the connection unchanged; the field-wise merge is stated by `ConnectionPatchMerges` |
| Patches.ConnectionPatchMerges | src/services/job-aggregator.ts:396 | each of the ten fields the patch supplies replaces the connection's value, and each it leaves out keeps it |
| Patches.ConnectionPatchesCompose | src/services/job-aggregator.ts:393-400 | two successive connection updates equal one update with the merged patch |
| Patches.ConnectionPatchIdempotent | src/services/job-aggregator.ts:393-400 | re-applying a connection patch changes nothing more |
| Patches.ApplyAlertPatch | src/services/job-aggregator.ts:422 | without a counter key the counter is kept; an empty patch changes nothing; the field-wise merge is stated by `AlertPatchMerges` |
| Patches.AlertPatchMerges | src/services/job-aggregator.ts:422 | each of the twelve fields the patch supplies replaces the alert's value, and each it leaves out keeps it |
| Patches.AlertPatchesCompose | src/services/job-aggregator.ts:419-426 | two successive alert updates equal one update with the merged patch |
| Patches.AlertPatchIdempotent | src/services/job-aggregator.ts:419-426 | re-applying an alert patch changes nothing more |
| JobAggregator.Emitted | src/services/job-aggregator.ts:67-70 | an event calls the one callback registered for it once, with the payload, or nothing |
| JobAggregator.AlertEvents | src/services/job-aggregator.ts:454 | one delivery per fired alert when a callback is registered, none otherwise |
| JobAggregator.AlertEventsFromFiringAlerts | src/services/job-aggregator.ts:434-457 | the `alert-triggered` events of a check are one per firing alert, and each carries a firing alert after its bump |
| JobAggregator.CompanyValues | src/services/job-aggregator.ts:58 | the saved company list is the map's values in insertion order |
| JobAggregator.SetCompany | src/services/job-aggregator.ts:46 | `Map.set` keeps the map and its insertion order consistent, appending only new keys |
| JobAggregator.LoadCompanies | src/services/job-aggregator.ts:43-47 | loading keys the map by id, in a consistent order, holding exactly the ids of the list |
| JobAggregator.LoadPrefix | src/services/job-aggregator.ts:43-47 | loading the first n saved companies gives the store cut down to the first n keys, in the same order |
| JobAggregator.LoadAfterSave | src/services/job-aggregator.ts:43-47 | loading the saved company list gives back the same map and order |
| JobAggregator.ReloadRestores | src/services/job-aggregator.ts:39-61 | reloading a saved snapshot restores jobs, companies, connections and alerts |
| JobAggregator.OrderCoversMap | src/services/job-aggregator.ts:343-345 | the insertion order lists each company key exactly once |
| JobAggregator.JobIndex | src/services/job-aggregator.ts:76-78 | `find`/`findIndex`: the first position with the id, or none exactly when no job has it |
| JobAggregator.ConnectionIndex | src/services/job-aggregator.ts:394 | the first connection with the id, or none exactly when no connection has it |
| JobAggregator.AlertIndex | src/services/job-aggregator.ts:420 | the first alert with the id, or none exactly when no alert has it |
| JobAggregator.StatusUpdated | src/services/job-aggregator.ts:296-306 | new status and stamp; `appliedAt` set only on a first move to applied; a non-empty note appended with its time stamp; nothing else changes |
| JobAggregator.AppliedAtStampedOnce | src/services/job-aggregator.ts:301-303 | once stamped, `appliedAt` survives every later status change |
| JobAggregator.NotesOnlyGrow | src/services/job-aggregator.ts:304-306 | a note is appended after all earlier notes |
| JobAggregator.DomainLabel | src/services/job-aggregator.ts:356-357 | the first dot-separated label of the domain, or "Company" when it is empty; never empty |
| JobAggregator.NewCompany | src/services/job-aggregator.ts:358-371 | a new company is keyed by its domain, named after its capitalised label, rated in [4, 5) with reviews and followers in range, and lists health insurance |
| JobAggregator.DomainLabelFirst | src/services/job-aggregator.ts:356-360 | a domain such as "stripe.com" is named after its first label, whatever follows the first dot |
| JobAggregator.DomainLabelMissing | src/services/job-aggregator.ts:356-357 | an empty domain or one starting with a dot (".io") is named "Company" |
| JobAggregator.JobAggregatorService.constructor | src/services/job-aggregator.ts:24-54 | each storage key that holds a list replaces the empty collection; companies are keyed by id |
| JobAggregator.JobAggregatorService.Saved | src/services/job-aggregator.ts:56-61 | the saved snapshot holds all four collections |
| JobAggregator.JobAggregatorService.ResetForTest | src/services/job-aggregator.ts:28-37 | all collections emptied and every key removed; callbacks stay |
| JobAggregator.JobAggregatorService.SaveData | src/services/job-aggregator.ts:56-61 | storage holds the current snapshot |
| JobAggregator.JobAggregatorService.Subscribe | src/services/job-aggregator.ts:63-65 | one callback per event; a later subscription replaces the earlier one |
| JobAggregator.JobAggregatorService.Emit | src/services/job-aggregator.ts:67-70 | the delivery log grows by the registered callback's call, if any |
| JobAggregator.JobAggregatorService.GetJobs | src/services/job-aggregator.ts:72-74 | returns the stored list |
| JobAggregator.JobAggregatorService.GetConnections | src/services/job-aggregator.ts:378-380 | returns the stored list |
| JobAggregator.JobAggregatorService.GetAlerts | src/services/job-aggregator.ts:402-404 | returns the stored list |
| JobAggregator.JobAggregatorService.GetJob | src/services/job-aggregator.ts:76-78 | the first job with the id, absent exactly when none has it |
| JobAggregator.JobAggregatorService.GetJobsByStatus | src/services/job-aggregator.ts:80-82 | exactly the jobs with the status, with their multiplicities, in list order |
| JobAggregator.JobAggregatorService.CheckAlerts | src/services/job-aggregator.ts:434-457 | the loop bumps each firing alert and emits one event per firing alert, in list order |
| JobAggregator.JobAggregatorService.CheckAt | src/services/job-aggregator.ts:435-455 | one step of the check: the alert at the position is evaluated and, when it fires, one event is delivered, so the invariant of the loop moves one position on |
| JobAggregator.JobAggregatorService.AddJob | src/services/job-aggregator.ts:265-279 | the new job (fresh id, no notes or interviews, both stamps `now`) goes first; the list is saved with the alerts as they were; one jobs event, then the alert check |
| JobAggregator.JobAggregatorService.AddJobs | src/services/job-aggregator.ts:281-285 | the batch goes in front as given, saved and announced |
| JobAggregator.JobAggregatorService.UpdateJob | src/services/job-aggregator.ts:287-294 | only the first job with the id is patched and stamped; an unknown id changes, saves and announces nothing |
| JobAggregator.JobAggregatorService.UpdateJobStatus | src/services/job-aggregator.ts:296-310 | the first job with the id takes the new status; an unknown id changes nothing |
| JobAggregator.JobAggregatorService.DeleteJob | src/services/job-aggregator.ts:312-316 | every job with the id goes, the others stay with their multiplicities and order; always saved and announced |
| JobAggregator.JobAggregatorService.FetchFromSource | src/services/job-aggregator.ts:117-130 | a source with a connector adds and returns its postings; any other source returns nothing and changes nothing |
| JobAggregator.JobAggregatorService.GetCompanies | src/services/job-aggregator.ts:343-345 | the stored companies in insertion order, one entry each |
| JobAggregator.JobAggregatorService.GetCompany | src/services/job-aggregator.ts:347-349 | the company stored under the id, absent exactly when there is none |
| JobAggregator.JobAggregatorService.FetchCompanyInfo | src/services/job-aggregator.ts:351-376 | a cached company is returned and nothing is written; a miss stores and saves a new entry under the domain, appended to the order |
| JobAggregator.JobAggregatorService.AddConnection | src/services/job-aggregator.ts:382-391 | appended with the fresh id, saved and announced |
| JobAggregator.JobAggregatorService.UpdateConnection | src/services/job-aggregator.ts:393-400 | only the first connection with the id is patched; an unknown id changes nothing |
| JobAggregator.JobAggregatorService.CreateAlert | src/services/job-aggregator.ts:406-417 | appended with fresh id, creation stamp and zero counter, saved and announced |
| JobAggregator.JobAggregatorService.UpdateAlert | src/services/job-aggregator.ts:419-426 | only the first alert with the id is patched; an unknown id changes nothing |
| JobAggregator.JobAggregatorService.DeleteAlert | src/services/job-aggregator.ts:428-432 | every alert with the id goes, the others stay in order with their multiplicities; saved and announced |
| JobScoring.AtMostOne | src/services/ai-matching.ts:178 | `Math.min(1, x)`: at most 1, at most x, and one of the two |
| JobScoring.LowerAll | src/services/ai-matching.ts:150 | each skill lower-cased, position by position |
| JobScoring.Credit | src/services/ai-matching.ts:159-174 | one requirement earns between 0 and 1.5 |
| JobScoring.TotalCredit | src/services/ai-matching.ts:159-175 | the total credit is between 0 and 1.5 per requirement |
| JobScoring.MaxPossible | src/services/ai-matching.ts:177 | the denominator is the requirement count plus 11 (22 catalogue keywords at 0.5) |
| JobScoring.SkillMatch | src/services/ai-matching.ts:147-179 | the skill score is in [0, 1]; 0.8 without requirements; otherwise the capped ratio of credit to the maximum |
| JobScoring.CalculateSkillMatch | src/services/ai-matching.ts:147-179 | the nested loop with its early `break` computes the specified skill score |
| JobScoring.SkillMatchBelowOne | src/services/ai-matching.ts:177-178 | with 1 to 21 requirements the cap never applies and the score is below 1 |
| JobScoring.NoSkillsNoCredit | src/services/ai-matching.ts:159-178 | an empty skill list scores 0 on any non-empty requirement list |
| JobScoring.DigitRun | src/services/ai-matching.ts:185 | the maximal run of digits `\d+` from a position |
| JobScoring.SpaceRun | src/services/ai-matching.ts:185 | the maximal run of white space `\s*` from a position |
| JobScoring.YearsAt | src/services/ai-matching.ts:185 | a match of `(\d+)\+\s*years?` starts with a digit |
| JobScoring.FindYearsLeftmost | src/services/ai-matching.ts:185 | the regex search reports the leftmost match, and none exactly when there is none |
| JobScoring.ExperienceOk | src/services/ai-matching.ts:184-192 | the `some` callback: no years pattern passes; otherwise two years per listed position must cover the years asked |
| JobScoring.ExperienceMatch | src/services/ai-matching.ts:181-195 | 0.5 exactly when no experience; 0.8 exactly when some requirement has no years pattern or asks for at most two years per position; 0.4 otherwise |
| JobScoring.ExperienceNoRequirements | src/services/ai-matching.ts:184-194 | a non-empty history against no requirements scores 0.4 |
| JobScoring.ExperienceMonotone | src/services/ai-matching.ts:184-194 | more listed positions never lower the score |
| JobScoring.YearsInReact | src/services/ai-matching.ts:185-187 | "5+ years React" asks for five years |
| JobScoring.NoYearsInTypeScript | src/services/ai-matching.ts:185 | "TypeScript" has no years pattern |
| JobScoring.ExperienceScenario | src/services/ai-matching.ts:181-195 | one position scores 0.8 against ["5+ years React", "TypeScript"] and 0.4 against ["5+ years React"]; three positions score 0.8 |
| JobScoring.MissingSkills | src/services/ai-matching.ts:197-208 | exactly the requirements and nice-to-haves no skill covers, in their order |
| JobScoring.MissingSkillsCounts | src/services/ai-matching.ts:199-207 | duplicates are kept: an uncovered entry appears as often as in the two lists |
| JobScoring.NoSkillsAllMissing | src/services/ai-matching.ts:197-208 | with no skills everything is missing |
| JobScoring.ListedSkillNotMissing | src/services/ai-matching.ts:201-206 | an entry listed verbatim among the skills is never missing |
| JobScoring.KeywordFor | src/services/ai-matching.ts:212-222 | the table's rewrite of the lower-cased skill, or the skill itself |
| JobScoring.SuggestedKeywords | src/services/ai-matching.ts:210-224 | one keyword per missing skill, for the first five only |
| JobScoring.KeywordExamples | src/services/ai-matching.ts:212-222 | lookups ignore case; an unknown skill stays as it is |
| JobScoring.BandOf | src/services/ai-matching.ts:226-239 | the band of `Math.round(score * 100)` against 80, 60 and 40 |
| JobScoring.MatchSummary | src/services/ai-matching.ts:226-239 | one fixed text per band; the excellent one names the job title and company, the good one the first missing skills |
| JobScoring.BandThresholds | src/services/ai-matching.ts:226-239 | rounding to percent makes the bands the intervals cut at 0.795, 0.595 and 0.395 |
| JobScoring.NoRequirementsExcellent | src/services/ai-matching.ts:148 | a job without requirements is always an excellent match |
| JobScoring.FewRequirementsNeverExcellent | src/services/ai-matching.ts:177-178 | with 1 to 12 requirements the skill score stays below the excellent band |
| JobScoring.GoodSummaryListsThree | src/services/ai-matching.ts:232 | for every list, the good-match text joins its first three missing skills (all of them when fewer) with commas |
| JobScoring.MatchFor | src/services/ai-matching.ts:105-145 | the match record: skill, experience and semantic scores, the capped 40/30/30 overall score, the missing skills, their keywords and the summary from the skill score |
| JobScoring.SummaryIgnoresSemantic | src/services/ai-matching.ts:133 | the summary depends on the skill score only, never the semantic score |
| JobScoring.OverallScoreWeighted | src/services/ai-matching.ts:131-137 | for a semantic score in [0, 1] the overall score is the uncapped weighted sum, in [0, 1] |
| JobScoring.NoModelScoreCap | src/services/ai-matching.ts:119-137 | without a semantic score the overall score is at most 0.64 |
| Text.SplitRuns | src/services/ai-matching.ts:287 | every piece of the text between separators is among the pieces of the split |
| Text.SplitPieces | src/services/ai-matching.ts:287 | conversely, every piece of the split is a piece of the text between separators |
| Text.SplitJoin | src/services/job-aggregator.ts:356 | splitting at one character and joining with it gives the text back |
| CompanyFit.Tokens | src/services/ai-matching.ts:287-288 | the word set holds exactly the white-space-free words of the text longer than three characters: nothing else, and every such word |
| CompanyFit.CompanyKeywords | src/services/ai-matching.ts:242-246 | industry, culture and benefits, each lower-cased, missing ones as empty text, joined with spaces |
| CompanyFit.ProfileKeywords | src/services/ai-matching.ts:248-251 | the skills then the employers, joined with spaces and lower-cased |
| CompanyFit.AtLeastOne | src/services/ai-matching.ts:295 | `Math.max(1, n)`: at least 1 and at least n, and equal to one of them |
| CompanyFit.Overlap | src/services/ai-matching.ts:286-296 | the keyword overlap is in [0, 1] |
| CompanyFit.CountShared | src/services/ai-matching.ts:290-293 | the counting loop counts the words the two sets share |
| CompanyFit.SimpleKeywordMatch | src/services/ai-matching.ts:286-296 | the method computes the specified overlap |
| CompanyFit.NoProfileWordsNoOverlap | src/services/ai-matching.ts:288-295 | no long words on the profile side: overlap 0 |
| CompanyFit.SelfOverlap | src/services/ai-matching.ts:286-296 | a text with a long word overlaps itself fully |
| CompanyFit.RatingPro | src/services/ai-matching.ts:259-260 | the rating adds at most one pro |
| CompanyFit.Pros | src/services/ai-matching.ts:259-271 | at most three pros |
| CompanyFit.Cons | src/services/ai-matching.ts:261-263 | at most one con |
| CompanyFit.InterviewLikelihood | src/services/ai-matching.ts:273 | the likelihood is in [0.3, 0.7] |
| CompanyFit.ProsAndCons | src/services/ai-matching.ts:256-271 | the conditional pushes build exactly the specified pros and cons |
| CompanyFit.AnalyzeCompanyFit | src/services/ai-matching.ts:241-284 | alignment is the overlap of company and profile keywords, in [0, 1]; pros, cons, no red flags, likelihood and notes as specified |
| CompanyFit.RatingProOrCon | src/services/ai-matching.ts:259-263 | a rating is a pro or a con, never both; missing, zero or in [3, 4) it is neither |
| CompanyFit.HealthInsuranceIsPro | src/services/ai-matching.ts:265-267 | health insurance among the benefits always gives the health pro |
| CompanyFit.LikelihoodMonotone | src/services/ai-matching.ts:273 | better alignment never lowers the likelihood |
| CompanyFit.CompanyNotes | src/services/ai-matching.ts:298-305 | strong notes list the pros, moderate ones the pros and any cons, limited ones neither |
| CompanyFit.NotesUseConsOnlyWhenModerate | src/services/ai-matching.ts:298-305 | cons matter only in the moderate band; the weak band ignores both lists |
| CompanyFit.SameEmployer | src/services/ai-matching.ts:314-315 | either lower-cased company name contains the other; a missing company is the empty name |
| CompanyFit.Relevance | src/services/ai-matching.ts:312-321 | 1.0 exactly for a colleague, 0.6 for other first-degree, 0.3 for other second-degree, 0 otherwise |
| CompanyFit.ScoreConnection | src/services/ai-matching.ts:312-321 | the if-chain computes the specified relevance |
| CompanyFit.NoCompanyIsColleague | src/services/ai-matching.ts:314-316 | a connection without a company is always rated 1.0 |
| CompanyFit.ReferralMessage | src/services/ai-matching.ts:338-347 | the message is one of the three templates |
| CompanyFit.MessageNamesBoth | src/services/ai-matching.ts:339-344 | every template names the addressee and the company |
| CompanyFit.SuggestionFor | src/services/ai-matching.ts:324-331 | a suggestion carries the connection's id and referral flag, the company name and the connection's relevance |
| CompanyFit.Candidates | src/services/ai-matching.ts:311-333 | the collected suggestions are graded 1.0, 0.6 or 0.3 and name the company |
| CompanyFit.CandidatesNext | src/services/ai-matching.ts:311-332 | one loop step appends a suggestion exactly when the next connection has positive relevance |
| CompanyFit.CandidateListed | src/services/ai-matching.ts:323-332 | every connection of positive relevance is suggested |
| CompanyFit.ByRelevance | src/services/ai-matching.ts:335 | the stable descending sort on the three grades: the 1.0, 0.6 and 0.3 suggestions, each group in list order |
| CompanyFit.ByRelevanceSorted | src/services/ai-matching.ts:335 | the sort orders by descending relevance |
| CompanyFit.ByRelevancePermutation | src/services/ai-matching.ts:335 | on graded suggestions the sort is a permutation |
| CompanyFit.ByRelevanceStable | src/services/ai-matching.ts:335 | suggestions of equal relevance keep their order |
| CompanyFit.ByRelevanceMembers | src/services/ai-matching.ts:335 | the sort adds nothing |
| CompanyFit.FindReferralConnections | src/services/ai-matching.ts:307-336 | the loop collects the candidates; the result is the first five after the sort, all of positive relevance and naming the company |
| CompanyFit.TopFive | src/services/ai-matching.ts:335 | at most five suggestions, each of positive relevance |
| CompanyFit.TopBucketFirst | src/services/ai-matching.ts:335 | when some suggestion has relevance 1.0, the sorted list starts with one of relevance 1.0 |
| CompanyFit.ColleagueFirst | src/services/ai-matching.ts:314-335 | when a connection works at the company, the first suggestion is a colleague's |
| AIMatching.CosineOf | src/services/ai-matching.ts:87-103 | zero exactly when the lengths differ or are zero |
| AIMatching.DotSymmetric | src/services/ai-matching.ts:94-99 | the dot product is symmetric |
| AIMatching.NormNonNegative | src/services/ai-matching.ts:98-99 | squared norms are never negative |
| AIMatching.CosineSymmetric | src/services/ai-matching.ts:87-103 | swapping the vectors swaps the norms and keeps the dot product |
| AIMatching.SelfCosine | src/services/ai-matching.ts:87-103 | against itself, a vector's dot product equals both squared norms |
| AIMatching.JobText | src/services/ai-matching.ts:116 | title, description and requirements joined with spaces |
| AIMatching.ProfileText | src/services/ai-matching.ts:117 | about, skills, then each role with its company, joined with spaces |
| AIMatching.AIMatchingService.constructor | src/services/ai-matching.ts:38-50 | no model, not initialised, usable exactly when a local model may be used |
| AIMatching.AIMatchingService.Initialize | src/services/ai-matching.ts:52-64 | no-op when initialised or disabled; a load success installs the model; a failure disables it for good |
| AIMatching.AIMatchingService.GetJobEmbedding | src/services/ai-matching.ts:66-85 | empty without a model; the model's vector on success; a failed inference unloads and disables the model |
| AIMatching.AIMatchingService.CosineSimilarity | src/services/ai-matching.ts:87-103 | the loop accumulates exactly the dot product and the two squared norms |
| AIMatching.AIMatchingService.AnalyzeJobMatch | src/services/ai-matching.ts:105-145 | the result is the specified record, with semantic score 0 when no model becomes available, else the cosine of the two embeddings; usability never comes back |
| AIMatching.AssembleMatch | src/services/ai-matching.ts:113-145 | the skill, experience, missing-skill, keyword, weighted-score and summary steps build the specified match record |
| AIMatching.AIMatchingService.SemanticScore | src/services/ai-matching.ts:120-126 | the semantic score is the cosine of the two embeddings |
| AIMatching.EmbeddingFailureScoresZero | src/services/ai-matching.ts:121-125 | a failed embedding makes the semantic score 0 |
| Profile.ApplyProfilePatch | src/services/profile.ts:57 | an empty patch leaves the profile unchanged |
| Profile.Updated | src/services/profile.ts:100-103 | each supplied field (name, headline, location, about, skills, LinkedIn URL, experience) replaces the old value, each absent one keeps it, and the profile is always marked configured |
| Profile.UpdateAlwaysConfigures | src/services/profile.ts:101 | `isConfigured: false` cannot unset the flag, and a repeated update changes nothing more |
| Profile.UpdateKeepsOthers | src/services/profile.ts:101 | fields the patch leaves out keep their values |
| Profile.Fetched | src/services/profile.ts:68-95 | the demo URL gives the fixed demo profile; any other URL replaces name, headline, URL and skills only; both mark the profile configured |
| Profile.DemoFetchIgnoresOldProfile | src/services/profile.ts:71-84 | the demo profile does not depend on the previous one |
| Profile.Loaded | src/services/profile.ts:52-62 | a missing or unparsable stored profile leaves the empty profile |
| Profile.LoadAfterSave | src/services/profile.ts:52-66 | loading what was saved gives back the saved profile |
| Profile.CallsFor | src/services/profile.ts:47-48 | every listener in order, each with the current profile |
| Profile.ProfileService.constructor | src/services/profile.ts:17-33 | starts from the empty profile laid under the stored fields, no listeners, nothing called or saved |
| Profile.ProfileService.GetProfile | src/services/profile.ts:35-37 | returns the current profile |
| Profile.ProfileService.Subscribe | src/services/profile.ts:39-41 | the listener is registered last and called once at once |
| Profile.ProfileService.Unsubscribe | src/services/profile.ts:42-44 | every registration of that listener goes; the others stay in order with their counts |
| Profile.ProfileService.Notify | src/services/profile.ts:47-50 | each listener is called with the profile, in order, then it is saved |
| Profile.ProfileService.UpdateProfile | src/services/profile.ts:100-103 | the updated profile is set, announced and saved |
| Profile.ProfileService.ResetProfile | src/services/profile.ts:105-117 | the empty profile is set, announced and saved |
| Profile.ProfileService.FetchLinkedInProfile | src/services/profile.ts:68-98 | the fetched profile is set, announced, saved and returned |

## Left out

- Storage is a snapshot value. `localStorage` access, `JSON.stringify` and `JSON.parse` are not modelled, nor what an aggregator load does with a key that does not parse (there the source throws).
- The connectors (`fetchLinkedInJobs`, `fetchIndeedJobs`, `fetchRemoteOkJobs`) are not part of this model. `FetchFromSource` takes the postings a connector would add.
- `refreshAllSources`, `startPolling` and `stopPolling` are left out: timers and concurrent fetches.
- `getMarketStats` and `getSalaryData` return fixed mock data unrelated to the stored state, so they are left out.
- `generateCoverLetterTailoring`, `getCompanyExcitement` and `getModelStatus` are left out. They only format text or report status.
- `generateId`, `Date.now()`, `new Date().toISOString()` and `Math.random()` become parameters.
- Whether a local model may be used (browser and not a test run) becomes a constructor parameter.
- The embedding pipeline, its loading and its inference become parameters.
- AIMatching.CosineValue: the final `dot / (sqrt(normA) * sqrt(normB))` is the parameter `ratio`. Floating-point square roots are not modelled, so the bound of the cosine to [-1, 1] is not stated. The NaN that a zero norm gives is not stated either.
- AIMatching.AIMatchingService.AnalyzeJobMatch: the two embeddings are computed one after the other rather than side by side. The scores are the same either way (`EmbeddingFailureScoresZero`).
- AIMatching.AIMatchingService.AnalyzeJobMatch: the profile is a parameter, not the live `profileService` object, and the unused `_profileText` argument is dropped.
- `a[i] || 0` in `cosineSimilarity` treats NaN components as 0. Vectors here are reals, so that case does not arise.
- Text.ToLower: letter case is mapped for ASCII letters only. String lengths count characters, not UTF-16 code units.
- Text.UpperChar and Text.Capitalize: upper-casing is ASCII-only too, so the company made for "éditions.fr" is named "éditions", where `charAt(0).toUpperCase()` gives "Éditions".
- JobScoring.KeywordFor: keys inherited from `Object.prototype` (such as `"constructor"`) would return a function in the source. The table here holds the eight listed keys only.
- Numbers are unbounded integers and exact reals. Floating-point rounding of scores is not modelled.
- Listener callbacks are numbered records. A callback that re-enters the service while it runs is not modelled.
- Returned lists are values. The source hands out its own arrays and objects, so later changes would show through them; aliasing is not modelled.
- Id uniqueness is not assumed. Lookups use the first match and deletes remove every match, as in the source.
- `JobAggregator.JobAggregatorService.AddJob`: the bumped alert counters from the alert check are not saved by that call.
- JobAggregator.JobAggregatorService.AddJob: `createdAt` and `updatedAt` share one clock reading. The source reads the clock twice, so the two may differ.
- JobAggregator.JobAggregatorService.CheckAlerts: every firing alert's `lastTriggered` is stamped with the same instant `now` that `AddJob` also gives the new job's `createdAt` and `updatedAt`. The source reads the clock again for each firing alert, so the stamps may differ from one another and from the job's.
- JobAggregator.StatusUpdated: `updatedAt` and a first `appliedAt` share one clock reading. The source reads the clock twice, so the two may differ.
- Patches.ApplyJobPatch: a required field of a patch is either absent or a value. `Partial<T>` also lets a patch set a required key to `undefined`; that case is not modelled here, nor in `ApplyConnectionPatch`, `ApplyAlertPatch` and `Profile.ApplyProfilePatch`.
