/** The deterministic job/profile scores of `AIMatchingService`: skill
    overlap, the experience heuristic, missing skills, suggested keywords,
    the summary band and the overall score. Scores are exact reals. */
module JobScoring {
  import opened Wrappers
  import opened Seqs
  import opened Text
  import opened JobTypes
  import opened Profile

  /** `Math.min(1, x)`. */
  function AtMostOne(x: real): (r: real)
    ensures r <= 1.0 && r <= x
    ensures r == x || r == 1.0
  {
    if x < 1.0 then x else 1.0
  }

  // ---------------------------------------------------------------- skill match

  /** The 22 catalogue keywords, in the order they are tried. */
  const SkillCatalog: seq<string> := [
    "javascript", "typescript", "react", "node", "python", "java", "aws", "docker",
    "kubernetes", "sql", "postgresql", "mongodb", "git", "ci/cd", "agile", "scrum",
    "machine learning", "ai", "tensorflow", "pytorch", "data science", "linux"]

  /** `userSkills.map(s => s.toLowerCase())`. */
  function LowerAll(skills: seq<string>): (r: seq<string>)
    ensures |r| == |skills|
    ensures forall i :: 0 <= i < |skills| ==> r[i] == ToLower(skills[i])
  {
    seq(|skills|, i requires 0 <= i < |skills| => ToLower(skills[i]))
  }

  /** A skill and a (lower-cased) requirement match when either contains the other, ignoring case. */
  predicate Covers(skill: string, reqLower: string) {
    Contains(reqLower, ToLower(skill)) || Contains(ToLower(skill), reqLower)
  }

  /** `normalizedUserSkills.some(skill => ...)` */
  predicate HasSkill(norm: seq<string>, reqLower: string) {
    exists i :: 0 <= i < |norm| && Covers(norm[i], reqLower)
  }

  /** The catalogue keyword occurs in the requirement and in some skill. */
  predicate SharedKeyword(norm: seq<string>, reqLower: string, kw: string) {
    Contains(reqLower, kw) && exists i :: 0 <= i < |norm| && Contains(norm[i], kw)
  }

  predicate CatalogHit(norm: seq<string>, reqLower: string) {
    exists k :: 0 <= k < |SkillCatalog| && SharedKeyword(norm, reqLower, SkillCatalog[k])
  }

  /** What one requirement earns: 1 for a skill match, plus 0.5 for the first shared catalogue keyword. */
  function Credit(norm: seq<string>, req: string): (c: real)
    ensures 0.0 <= c <= 1.5
  {
    (if HasSkill(norm, ToLower(req)) then 1.0 else 0.0) + (if CatalogHit(norm, ToLower(req)) then 0.5 else 0.0)
  }

  function TotalCredit(norm: seq<string>, reqs: seq<string>): (c: real)
    ensures 0.0 <= c <= 1.5 * |reqs| as real
    decreases |reqs|
  {
    if reqs == [] then 0.0
    else TotalCredit(norm, reqs[..|reqs| - 1]) + Credit(norm, reqs[|reqs| - 1])
  }

  /** `jobRequirements.length + skillKeywords.length * 0.5` */
  function MaxPossible(n: nat): (m: real)
    ensures m == n as real + 11.0
  {
    assert |SkillCatalog| == 22;
    n as real + |SkillCatalog| as real * 0.5
  }

  /** `calculateSkillMatch(userSkills, jobRequirements)` */
  function SkillMatch(skills: seq<string>, reqs: seq<string>): (r: real)
    ensures 0.0 <= r <= 1.0
    ensures reqs == [] ==> r == 0.8
    ensures reqs != [] ==> r == AtMostOne(TotalCredit(LowerAll(skills), reqs) / MaxPossible(|reqs|))
  {
    if reqs == [] then 0.8 else AtMostOne(TotalCredit(LowerAll(skills), reqs) / MaxPossible(|reqs|))
  }

  /** The loop of `calculateSkillMatch`: for each requirement, the skill
      match, then the catalogue scan that stops at the first shared keyword. */
  method CalculateSkillMatch(userSkills: seq<string>, jobRequirements: seq<string>) returns (r: real)
    ensures r == SkillMatch(userSkills, jobRequirements)
  {
    if |jobRequirements| == 0 {
      return 0.8;
    }
    var norm := LowerAll(userSkills);
    var matchCount := 0.0;
    var i := 0;
    while i < |jobRequirements|
      invariant 0 <= i <= |jobRequirements|
      invariant matchCount == TotalCredit(norm, jobRequirements[..i])
    {
      var reqLower := ToLower(jobRequirements[i]);
      if HasSkill(norm, reqLower) {
        matchCount := matchCount + 1.0;
      }
      var afterSkill := matchCount;
      var k := 0;
      while k < |SkillCatalog|
        invariant 0 <= k <= |SkillCatalog|
        invariant matchCount == afterSkill
        invariant forall k' :: 0 <= k' < k ==> !SharedKeyword(norm, reqLower, SkillCatalog[k'])
      {
        if Contains(reqLower, SkillCatalog[k]) && exists s :: 0 <= s < |norm| && Contains(norm[s], SkillCatalog[k]) {
          matchCount := matchCount + 0.5;
          break;
        }
        k := k + 1;
      }
      assert matchCount == afterSkill + (if CatalogHit(norm, reqLower) then 0.5 else 0.0);
      assert jobRequirements[..i + 1][..i] == jobRequirements[..i];
      i := i + 1;
    }
    assert jobRequirements[..i] == jobRequirements;
    r := AtMostOne(matchCount / MaxPossible(|jobRequirements|));
  }

  /** With 1 to 21 requirements the cap of 1 never applies: the score is
      the credit over `n + 11`, hence below 1. */
  lemma SkillMatchBelowOne(skills: seq<string>, reqs: seq<string>)
    requires 1 <= |reqs| <= 21
    ensures SkillMatch(skills, reqs) == TotalCredit(LowerAll(skills), reqs) / MaxPossible(|reqs|)
    ensures SkillMatch(skills, reqs) < 1.0
  {
    var d := MaxPossible(|reqs|);
    var c := TotalCredit(LowerAll(skills), reqs);
    CreditBelowMax(c, |reqs|);
    UncappedRatio(c, d);
    assert SkillMatch(skills, reqs) == AtMostOne(c / d);
  }

  lemma CreditBelowMax(c: real, n: nat)
    requires 1 <= n <= 21 && c <= 1.5 * n as real
    ensures c < MaxPossible(n)
  {
  }

  lemma UncappedRatio(c: real, d: real)
    requires c < d && d > 0.0
    ensures AtMostOne(c / d) == c / d && c / d < 1.0
  {
    DivBelow(c, d);
  }
  lemma DivBelow(c: real, d: real)
    requires d > 0.0 && c < d
    ensures c / d < 1.0
  {
  }

  /** No profile skills: no credit at all. */
  lemma NoSkillsNoCredit(reqs: seq<string>)
    requires reqs != []
    ensures SkillMatch([], reqs) == 0.0
  {
    NoSkillsTotal(reqs);
  }

  lemma {:induction false} NoSkillsTotal(reqs: seq<string>)
    ensures TotalCredit([], reqs) == 0.0
    decreases |reqs|
  {
    if reqs != [] {
      NoSkillsTotal(reqs[..|reqs| - 1]);
    }
  }

  // ---------------------------------------------------------------- experience

  /** Length of the run of decimal digits starting at `i`. */
  function DigitRun(s: string, i: nat): (n: nat)
    requires i <= |s|
    ensures i + n <= |s|
    ensures forall k :: i <= k < i + n ==> IsDigit(s[k])
    ensures i + n < |s| ==> !IsDigit(s[i + n])
    decreases |s| - i
  {
    if i < |s| && IsDigit(s[i]) then 1 + DigitRun(s, i + 1) else 0
  }

  /** Length of the run of white space (`\s`) starting at `i`. */
  function SpaceRun(s: string, i: nat): (n: nat)
    requires i <= |s|
    ensures i + n <= |s|
    ensures forall k :: i <= k < i + n ==> IsSpace(s[k])
    ensures i + n < |s| ==> !IsSpace(s[i + n])
    decreases |s| - i
  {
    if i < |s| && IsSpace(s[i]) then 1 + SpaceRun(s, i + 1) else 0
  }

  /** "year" in any letter case at position `j`. */
  predicate YearWordAt(s: string, j: nat) {
    j + 4 <= |s| && ToLower(s[j..j + 4]) == "year"
  }

  /** `(\d+)\+\s*years?` matched at position `i`, with the number it
      captures. Greedy runs need no backtracking here: a shorter digit run
      is followed by a digit, not `+`, and a shorter space run by a space,
      not `y`. */
  function YearsAt(s: string, i: nat): (r: Option<nat>)
    requires i <= |s|
    ensures r.Some? ==> i < |s| && IsDigit(s[i])
  {
    var d := DigitRun(s, i);
    if d > 0 && i + d < |s| && s[i + d] == '+' && YearWordAt(s, i + d + 1 + SpaceRun(s, i + d + 1)) then
      Some(DigitsValue(s[i..i + d]))
    else None
  }

  /** The match at `k`, and none past the end of `s`. */
  function YearsMatches(s: string): nat -> Option<nat> {
    (k: nat) => if k <= |s| then YearsAt(s, k) else None
  }

  /** The first position at or after `i` where the pattern matches. */
  function FindYears(s: string, i: nat): Option<nat>
    requires i <= |s|
  {
    FirstSome(YearsMatches(s), i, |s|)
  }

  /** The search reports the leftmost match, and none only when there is none. */
  lemma FindYearsLeftmost(s: string, i: nat)
    requires i <= |s|
    ensures FindYears(s, i).None? <==> forall k :: i <= k <= |s| ==> YearsAt(s, k).None?
    ensures FindYears(s, i).Some? ==>
      exists k :: i <= k <= |s| && YearsAt(s, k) == FindYears(s, i) && forall k' :: i <= k' < k ==> YearsAt(s, k').None?
  {
    var f := YearsMatches(s);
    FirstSomeNone(f, i, |s|);
    FirstSomeLeast(f, i, |s|);
    assert forall k :: i <= k <= |s| ==> f(k) == YearsAt(s, k);
  }

  /** `req.match(/(\d+)\+\s*years?/i)` and `parseInt` of the capture. */
  function RequiredYears(req: string): Option<nat> {
    FindYears(req, 0)
  }

  /** The `some` callback: a requirement without a years pattern passes;
      one with it passes when two years per listed position cover it. */
  predicate ExperienceOk(req: string, positions: nat) {
    match RequiredYears(req)
    case None => true
    case Some(n) => positions * 2 >= n
  }

  /** `calculateExperienceMatch(experience, jobRequirements)` */
  function ExperienceMatch(experience: seq<Experience>, reqs: seq<string>): (r: real)
    ensures 0.4 <= r <= 0.8
    ensures r == 0.5 <==> |experience| == 0
    ensures r == 0.8 <==> |experience| > 0 && exists i :: 0 <= i < |reqs| && ExperienceOk(reqs[i], |experience|)
    ensures r == 0.4 <==> |experience| > 0 && forall i :: 0 <= i < |reqs| ==> !ExperienceOk(reqs[i], |experience|)
  {
    if |experience| == 0 then 0.5
    else if exists i :: 0 <= i < |reqs| && ExperienceOk(reqs[i], |experience|) then 0.8
    else 0.4
  }

  /** A non-empty history with no requirements scores 0.4: `some` over nothing is false. */
  lemma ExperienceNoRequirements(experience: seq<Experience>)
    requires experience != []
    ensures ExperienceMatch(experience, []) == 0.4
  {
  }

  /** More listed positions never lower the experience score. */
  lemma ExperienceMonotone(e1: seq<Experience>, e2: seq<Experience>, reqs: seq<string>)
    requires 1 <= |e1| <= |e2|
    ensures ExperienceMatch(e1, reqs) <= ExperienceMatch(e2, reqs)
  {
    if ExperienceMatch(e1, reqs) == 0.8 {
      var i :| 0 <= i < |reqs| && ExperienceOk(reqs[i], |e1|);
      assert ExperienceOk(reqs[i], |e2|);
    }
  }

  /** "5+ years React" asks for five years. */
  lemma YearsInReact()
    ensures RequiredYears("5+ years React") == Some(5)
  {
    var s := "5+ years React";
    assert DigitRun(s, 0) == 1 by {
      assert DigitRun(s, 1) == 0;
    }
    assert SpaceRun(s, 2) == 1 by {
      assert SpaceRun(s, 3) == 0;
    }
    assert YearWordAt(s, 3) by {
      assert s[3..7] == "year";
      assert ToLower("year") == "year";
    }
    assert DigitsValue(s[0..1]) == 5 by {
      assert s[0..1] == "5";
      assert "5"[..0] == [];
    }
    assert YearsAt(s, 0) == Some(5);
    assert YearsMatches(s)(0) == Some(5);
  }

  /** "TypeScript" carries no years pattern. */
  lemma NoYearsInTypeScript()
    ensures RequiredYears("TypeScript") == None
  {
    var s := "TypeScript";
    forall k | 0 <= k <= |s|
      ensures YearsAt(s, k).None?
    {
      if k < |s| {
        assert !IsDigit(s[k]);
      }
    }
    FindYearsLeftmost(s, 0);
  }

  /** One listed position against ["5+ years React", "TypeScript"] scores
      0.8: the requirement without a years pattern satisfies `some`. The
      years requirement alone scores 0.4, and three positions satisfy it. */
  lemma ExperienceScenario(e: Experience, f: Experience, g: Experience)
    ensures ExperienceMatch([e], ["5+ years React", "TypeScript"]) == 0.8
    ensures ExperienceMatch([e], ["5+ years React"]) == 0.4
    ensures ExperienceMatch([e, f, g], ["5+ years React"]) == 0.8
  {
    YearsInReact();
    NoYearsInTypeScript();
    assert ExperienceOk(["5+ years React", "TypeScript"][1], 1);
    assert !ExperienceOk(["5+ years React"][0], 1);
    assert ExperienceOk(["5+ years React"][0], 3);
  }

  // ---------------------------------------------------------------- missing skills and keywords

  /** The `filter` callback of `findMissingSkills`. */
  function Uncovered(norm: seq<string>): string -> bool {
    req => !HasSkill(norm, ToLower(req))
  }

  /** `findMissingSkills(skills, requirements, niceToHave)`: the entries of
      both lists, in order and with duplicates, that no skill matches. */
  function MissingSkills(skills: seq<string>, reqs: seq<string>, nice: seq<string>): (r: seq<string>)
    ensures IsSubseq(r, reqs + nice)
    ensures forall x :: x in r <==> x in reqs + nice && !HasSkill(LowerAll(skills), ToLower(x))
  {
    FilterIsSubseq(reqs + nice, Uncovered(LowerAll(skills)));
    Filter(reqs + nice, Uncovered(LowerAll(skills)))
  }

  /** Duplicates are kept: an uncovered entry is listed as often as it occurs in the two lists. */
  lemma MissingSkillsCounts(skills: seq<string>, reqs: seq<string>, nice: seq<string>, x: string)
    ensures multiset(MissingSkills(skills, reqs, nice))[x] ==
            if HasSkill(LowerAll(skills), ToLower(x)) then 0 else multiset(reqs + nice)[x]
  {
  }

  /** With no skills, everything is missing. */
  lemma NoSkillsAllMissing(reqs: seq<string>, nice: seq<string>)
    ensures MissingSkills([], reqs, nice) == reqs + nice
  {
    FilterAll(reqs + nice, Uncovered(LowerAll([])));
  }

  /** A requirement listed verbatim among the skills is never missing. */
  lemma ListedSkillNotMissing(skills: seq<string>, reqs: seq<string>, nice: seq<string>, x: string)
    requires x in skills
    ensures x !in MissingSkills(skills, reqs, nice)
  {
    var i :| 0 <= i < |skills| && skills[i] == x;
    ToLowerIdempotent(x);
    ContainsSelf(ToLower(x));
    assert Covers(LowerAll(skills)[i], ToLower(x));
  }

  /** The eight rewrites of `generateSuggestedKeywords`, keyed by lower-cased skill. */
  const KeywordTable: map<string, string> := map[
    "react" := "React.js", "typescript" := "TypeScript", "node" := "Node.js",
    "aws" := "Amazon Web Services", "docker" := "Docker containers", "kubernetes" := "K8s",
    "machine learning" := "ML", "sql" := "SQL databases"]

  /** `commonKeywords[skill.toLowerCase()] || skill` */
  function KeywordFor(skill: string): (r: string)
    ensures ToLower(skill) in KeywordTable ==> r == KeywordTable[ToLower(skill)]
    ensures ToLower(skill) !in KeywordTable ==> r == skill
  {
    if ToLower(skill) in KeywordTable then KeywordTable[ToLower(skill)] else skill
  }

  /** `missingSkills.slice(0, 5).map(...)`: one keyword per missing skill, at most five. */
  function SuggestedKeywords(missing: seq<string>): (r: seq<string>)
    ensures |r| == if |missing| < 5 then |missing| else 5
    ensures forall i :: 0 <= i < |r| ==> r[i] == KeywordFor(missing[i])
  {
    var top := JsSlice(missing, 0, 5);
    seq(|top|, i requires 0 <= i < |top| => KeywordFor(top[i]))
  }

  /** "React", "REACT" and "react" all become "React.js"; "GraphQL" stays. */
  lemma KeywordExamples()
    ensures KeywordFor("React") == "React.js" && KeywordFor("REACT") == "React.js"
    ensures KeywordFor("GraphQL") == "GraphQL"
  {
    assert ToLower("React") == "react";
    assert ToLower("REACT") == "react";
    assert ToLower("GraphQL") == "graphql";
  }

  // ---------------------------------------------------------------- summary and overall score

  datatype Band = Excellent | Good | Moderate | Stretch

  /** `Math.round(x)`: halves go up. */
  function Round(x: real): int {
    (x + 0.5).Floor
  }

  /** The band of `Math.round(matchScore * 100)` against 80, 60 and 40. */
  function BandOf(score: real): Band {
    var p := Round(score * 100.0);
    if p >= 80 then Excellent else if p >= 60 then Good else if p >= 40 then Moderate else Stretch
  }

  /** The bands are the score intervals cut at 0.795, 0.595 and 0.395. */
  lemma BandThresholds(score: real)
    ensures BandOf(score) == Excellent <==> score >= 0.795
    ensures BandOf(score) == Good <==> 0.595 <= score < 0.795
    ensures BandOf(score) == Moderate <==> 0.395 <= score < 0.595
    ensures BandOf(score) == Stretch <==> score < 0.395
  {
    FloorAtLeast(score * 100.0 + 0.5, 80);
    FloorAtLeast(score * 100.0 + 0.5, 60);
    FloorAtLeast(score * 100.0 + 0.5, 40);
  }

  lemma FloorAtLeast(x: real, n: int)
    ensures x.Floor >= n <==> x >= n as real
  {
  }

  /** Requirement-free jobs (skill score 0.8) are always an excellent match. */
  lemma NoRequirementsExcellent(skills: seq<string>)
    ensures BandOf(SkillMatch(skills, [])) == Excellent
  {
    BandThresholds(0.8);
  }

  /** With 1 to 12 requirements the catalogue bonus cannot lift the skill
      score to 0.795, so the summary is never "Excellent match". */
  lemma FewRequirementsNeverExcellent(skills: seq<string>, reqs: seq<string>)
    requires 1 <= |reqs| <= 12
    ensures SkillMatch(skills, reqs) < 0.795
    ensures BandOf(SkillMatch(skills, reqs)) != Excellent
  {
    SkillMatchBelowOne(skills, reqs);
    var n := |reqs| as real;
    var c := TotalCredit(LowerAll(skills), reqs);
    var d := MaxPossible(|reqs|);
    assert c <= 1.5 * n;
    assert 1.5 * n < 0.795 * d;
    DivBelowFactor(c, d, 0.795);
    BandThresholds(SkillMatch(skills, reqs));
  }

  lemma DivBelowFactor(c: real, d: real, f: real)
    requires d > 0.0 && c < f * d
    ensures c / d < f
  {
  }

  /** `missingSkills.slice(0, 3).join(', ')` */
  function TopMissing(missing: seq<string>): string {
    Join(JsSlice(missing, 0, 3), ", ")
  }

  /** `generateMatchSummary(job, matchScore, missingSkills)` */
  function MatchSummary(job: Job, score: real, missing: seq<string>): string
  {
    match BandOf(score)
    case Excellent => "Excellent match! You're well-qualified for the " + job.title + " role at " + job.company + "."
    case Good => "Good match. Consider highlighting: " + TopMissing(missing) + "."
    case Moderate => "Moderate match. The role requires skills you may need to develop."
    case Stretch => "This role may be a stretch. Consider similar positions or upskilling."
  }

  /** The "good match" text names the first three missing skills, or all of
      them when there are fewer, separated by commas. */
  lemma GoodSummaryListsThree(missing: seq<string>)
    ensures var n := if |missing| < 3 then |missing| else 3;
            TopMissing(missing) == Join(missing[..n], ", ")
    ensures |missing| >= 3 ==> TopMissing(missing) == missing[0] + ", " + missing[1] + ", " + missing[2]
  {
    var n := if |missing| < 3 then |missing| else 3;
    assert JsSlice(missing, 0, 3) == missing[..n];
    if |missing| >= 3 {
      var t := missing[..3];
      assert t[1..][1..] == [missing[2]];
      assert Join(t[1..], ", ") == missing[1] + ", " + missing[2];
      assert Join(t, ", ") == missing[0] + ", " + (missing[1] + ", " + missing[2]);
    }
  }

  datatype MatchResult = MatchResult(
    jobId: string,
    overallScore: real,
    skillMatch: real,
    experienceMatch: real,
    cultureMatch: real,
    missingSkills: seq<string>,
    suggestedKeywords: seq<string>,
    summary: string)

  /** The 40/30/30 weighting of skill, experience and semantic scores. */
  function Weighted(skill: real, experience: real, semantic: real): real {
    0.4 * skill + 0.3 * experience + 0.3 * semantic
  }

  /** The result `analyzeJobMatch` assembles for a job and a profile, given
      the semantic score (0 when no model is loaded). */

  function MatchFor(job: Job, profile: UserProfile, semantic: real): MatchResult {
    var skill := SkillMatch(profile.skills, job.requirements);
    var experience := ExperienceMatch(profile.experience, job.requirements);
    var missing := MissingSkills(profile.skills, job.requirements, job.niceToHave.GetOr([]));
    MatchResult(job.id, AtMostOne(Weighted(skill, experience, semantic)), skill, experience, semantic,
                missing, SuggestedKeywords(missing), MatchSummary(job, skill, missing))
  }

  /** The summary text follows the skill score alone: the semantic score,
      and with it the overall score, never changes it. */
  lemma SummaryIgnoresSemantic(job: Job, profile: UserProfile, s1: real, s2: real)
    ensures MatchFor(job, profile, s1).summary == MatchFor(job, profile, s2).summary
  {
  }

  /** For a semantic score in [0, 1] the cap never applies: the overall
      score is the 40/30/30 weighted sum, and it lies in [0, 1]. */
  lemma OverallScoreWeighted(job: Job, profile: UserProfile, semantic: real)
    requires 0.0 <= semantic <= 1.0
    ensures var r := MatchFor(job, profile, semantic);
            r.overallScore == 0.4 * r.skillMatch + 0.3 * r.experienceMatch + 0.3 * semantic
            && 0.0 <= r.overallScore <= 1.0
  {
  }

  /** Without a semantic score the overall score is at most 0.64. */
  lemma NoModelScoreCap(job: Job, profile: UserProfile)
    ensures MatchFor(job, profile, 0.0).overallScore <= 0.64
  {
  }
}
