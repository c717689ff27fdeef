/** Company fit and referral suggestions of `AIMatchingService`: keyword
    overlap between a company and a profile, the pros and cons it lists,
    and the connections worth asking for a referral, best first. */
module CompanyFit {
  import opened Wrappers
  import opened Seqs
  import opened Text
  import opened JobTypes
  import opened Profile
  import opened JobScoring

  // ---------------------------------------------------------------- keyword overlap

  /** `new Set(text.split(/\s+/).filter(w => w.length > 3))`. Splitting at
      every white-space character yields the same non-empty words as
      splitting at runs of it, and the length filter drops the empty ones. */
  function Tokens(text: string): (r: set<string>)
    ensures forall w :: w in r ==> |w| > 3 && forall i :: 0 <= i < |w| ==> !IsSpace(w[i])
    ensures forall i, j :: MaximalRun(text, IsSpace, i, j) && j - i > 3 ==> text[i..j] in r
    ensures forall w :: w in r ==> exists i, j :: MaximalRun(text, IsSpace, i, j) && text[i..j] == w
  {
    SplitRuns(text, IsSpace);
    SplitPieces(text, IsSpace);
    SplitPiecesFree(text, IsSpace);
    set w | w in Split(text, IsSpace) && |w| > 3
  }

  /** `Math.max(1, n)` */
  function AtLeastOne(n: nat): (r: nat)
    ensures r >= 1 && r >= n
    ensures r == 1 || r == n
  {
    if n > 1 then n else 1
  }

  /** The share of the second text's words that also occur in the first. */
  function Overlap(text1: string, text2: string): (r: real)
    ensures 0.0 <= r <= 1.0
  {
    var w1 := Tokens(text1);
    var w2 := Tokens(text2);
    NonNegativeRatio(|w2 * w1|, AtLeastOne(|w2|));
    AtMostOne(|w2 * w1| as real / AtLeastOne(|w2|) as real)
  }

  lemma NonNegativeRatio(a: nat, b: nat)
    requires b >= 1
    ensures a as real / b as real >= 0.0
  {
  }

  /** The counting loop of `simpleKeywordMatch`: one pass over the second
      set, counting the words the first set also has. */
  method CountShared(words1: set<string>, words2: set<string>) returns (matches: nat)
    ensures matches == |words2 * words1|
  {
    matches := 0;
    var remaining := words2;
    while remaining != {}
      invariant remaining <= words2
      invariant matches == |(words2 - remaining) * words1|
      decreases |remaining|
    {
      var word :| word in remaining;
      CountStep(words1, words2, remaining, word);
      if word in words1 {
        matches := matches + 1;
      }
      remaining := remaining - {word};
    }
    assert words2 - remaining == words2;
  }

  /** Visiting one more word adds it to the shared words exactly when the first set has it. */
  lemma CountStep(words1: set<string>, words2: set<string>, remaining: set<string>, word: string)
    requires remaining <= words2 && word in remaining
    ensures |(words2 - (remaining - {word})) * words1|
         == |(words2 - remaining) * words1| + (if word in words1 then 1 else 0)
  {
    var before := (words2 - remaining) * words1;
    assert word !in before;
    if word in words1 {
      assert (words2 - (remaining - {word})) * words1 == before + {word};
    } else {
      assert (words2 - (remaining - {word})) * words1 == before;
    }
  }

  /** `simpleKeywordMatch(text1, text2)` */
  method SimpleKeywordMatch(text1: string, text2: string) returns (r: real)
    ensures r == Overlap(text1, text2)
  {
    var words1 := Tokens(text1);
    var words2 := Tokens(text2);
    var matches := CountShared(words1, words2);
    r := AtMostOne(matches as real / AtLeastOne(|words2|) as real);
  }

  /** No words of more than three letters on the profile side: no overlap. */
  lemma NoProfileWordsNoOverlap(text1: string, text2: string)
    requires Tokens(text2) == {}
    ensures Overlap(text1, text2) == 0.0
  {
  }

  /** A text with at least one long word fully overlaps itself. */
  lemma SelfOverlap(text: string)
    requires Tokens(text) != {}
    ensures Overlap(text, text) == 1.0
  {
    var w := Tokens(text);
    assert w * w == w;
    assert AtLeastOne(|w|) == |w|;
    SelfRatio(|w|);
  }

  lemma SelfRatio(n: nat)
    requires n >= 1
    ensures n as real / n as real == 1.0
  {
  }

  /** The company side: industry, culture and benefits, lower-cased. */
  function CompanyKeywords(c: Company): string {
    Join([ToLower(c.industry.GetOr("")), ToLower(Join(c.culture.GetOr([]), " ")),
          ToLower(Join(c.benefits.GetOr([]), " "))], " ")
  }

  /** The profile side: the skills, then the employers, lower-cased. */
  function ProfileKeywords(skills: seq<string>, experience: seq<Experience>): string {
    ToLower(Join(skills + seq(|experience|, i requires 0 <= i < |experience| => experience[i].company), " "))
  }

  // ---------------------------------------------------------------- the analysis

  /** A number in a boolean position: present and not zero. */
  predicate TruthyRating(x: Option<real>) {
    x.Some? && x.value != 0.0
  }

  function RatingPro(c: Company): (r: seq<string>)
    ensures |r| <= 1
  {
    if TruthyRating(c.glassdoorRating) && c.glassdoorRating.value >= 4.0 then
      [StrongRating + Fixed1(c.glassdoorRating.value) + ")"]
    else []
  }

  const StrongRating := "Strong Glassdoor rating ("
  const LowerRating := "Lower Glassdoor rating ("
  const HealthInsurance := "Health Insurance"
  const HealthPro := "Health benefits"
  const GrowthPro := "Mid-size company - good growth potential"

  /** The pros in the order they are pushed. */
  function Pros(c: Company): (r: seq<string>)
    ensures |r| <= 3
  {
    RatingPro(c)
    + (if c.benefits.Some? && HealthInsurance in c.benefits.value then [HealthPro] else [])
    + (if c.size == Some("100-500") || c.size == Some("500-1000") then [GrowthPro] else [])
  }

  function Cons(c: Company): (r: seq<string>)
    ensures |r| <= 1
  {
    if TruthyRating(c.glassdoorRating) && !(c.glassdoorRating.value >= 4.0) && c.glassdoorRating.value < 3.0 then
      [LowerRating + Fixed1(c.glassdoorRating.value) + ")"]
    else []
  }

  /** `alignment > 0.5 ? 0.7 : alignment > 0.3 ? 0.5 : 0.3` */
  function InterviewLikelihood(alignment: real): (r: real)
    ensures 0.3 <= r <= 0.7
  {
    if alignment > 0.5 then 0.7 else if alignment > 0.3 then 0.5 else 0.3
  }

  const StrongNotes := "Strong alignment. "
  const ModerateNotes := "Moderate alignment. "
  const ConsiderNotes := " Consider: "
  const LimitedNotes := "Limited alignment based on your profile."

  /** `generateCompanyNotes(alignment, pros, cons)` */
  function CompanyNotes(alignment: real, pros: seq<string>, cons: seq<string>): string {
    if alignment > 0.7 then StrongNotes + Join(pros, ". ")
    else if alignment > 0.4 then
      ModerateNotes + Join(pros, ". ") + (if |cons| > 0 then ConsiderNotes + Join(cons, ", ") else "")
    else LimitedNotes
  }

  datatype CompanyAnalysis = CompanyAnalysis(
    companyId: string,
    alignment: real,
    pros: seq<string>,
    cons: seq<string>,
    redFlags: seq<string>,
    interviewLikelihood: real,
    notes: string)

  /** `analyzeCompanyFit(company, profile)` */
  method AnalyzeCompanyFit(company: Company, skills: seq<string>, experience: seq<Experience>)
    returns (r: CompanyAnalysis)
    ensures r.companyId == company.id
    ensures r.alignment == Overlap(CompanyKeywords(company), ProfileKeywords(skills, experience))
    ensures 0.0 <= r.alignment <= 1.0
    ensures r.pros == Pros(company) && r.cons == Cons(company) && r.redFlags == []
    ensures r.interviewLikelihood == InterviewLikelihood(r.alignment)
    ensures r.notes == CompanyNotes(r.alignment, r.pros, r.cons)
  {
    var pros, cons := ProsAndCons(company);
    var alignment := SimpleKeywordMatch(CompanyKeywords(company), ProfileKeywords(skills, experience));
    r := CompanyAnalysis(company.id, alignment, pros, cons, [],
                         InterviewLikelihood(alignment), CompanyNotes(alignment, pros, cons));
  }

  /** The pushes of `analyzeCompanyFit` onto its `pros` and `cons` lists. */
  method ProsAndCons(company: Company) returns (pros: seq<string>, cons: seq<string>)
    ensures pros == Pros(company) && cons == Cons(company)
  {
    pros, cons := [], [];
    var rating := company.glassdoorRating;
    if TruthyRating(rating) && rating.value >= 4.0 {
      pros := pros + [StrongRating + Fixed1(rating.value) + ")"];
    } else if TruthyRating(rating) && rating.value < 3.0 {
      cons := cons + [LowerRating + Fixed1(rating.value) + ")"];
    }
    assert pros == RatingPro(company) && cons == Cons(company);
    var health := if company.benefits.Some? && HealthInsurance in company.benefits.value then [HealthPro] else [];
    if company.benefits.Some? && HealthInsurance in company.benefits.value {
      pros := pros + [HealthPro];
    }
    assert pros == RatingPro(company) + health;
    if company.size == Some("100-500") || company.size == Some("500-1000") {
      pros := pros + [GrowthPro];
    }
  }

  /** A rating is a pro or a con, never both; a missing or zero rating is neither. */
  lemma RatingProOrCon(c: Company)
    ensures !(|RatingPro(c)| == 1 && |Cons(c)| == 1)
    ensures !TruthyRating(c.glassdoorRating) ==> RatingPro(c) == [] && Cons(c) == []
    ensures TruthyRating(c.glassdoorRating) && 3.0 <= c.glassdoorRating.value < 4.0 ==> RatingPro(c) == [] && Cons(c) == []
  {
  }

  /** Health insurance among the benefits always yields the health pro. */
  lemma HealthInsuranceIsPro(c: Company)
    requires c.benefits.Some? && HealthInsurance in c.benefits.value
    ensures HealthPro in Pros(c)
  {
    assert Pros(c)[|RatingPro(c)|] == HealthPro;
  }

  /** Better alignment never lowers the interview likelihood. */
  lemma LikelihoodMonotone(a: real, b: real)
    requires a <= b
    ensures InterviewLikelihood(a) <= InterviewLikelihood(b)
  {
  }

  /** Cons appear only in the moderate band; the weak band mentions neither list. */
  lemma NotesUseConsOnlyWhenModerate(a: real, pros: seq<string>, cons1: seq<string>, cons2: seq<string>, pros2: seq<string>)
    ensures !(0.4 < a <= 0.7) ==> CompanyNotes(a, pros, cons1) == CompanyNotes(a, pros, cons2)
    ensures a <= 0.4 ==> CompanyNotes(a, pros, cons1) == CompanyNotes(a, pros2, cons2)
  {
  }

  // ---------------------------------------------------------------- referrals

  datatype ReferralSuggestion = ReferralSuggestion(
    connectionId: string,
    connectionName: string,
    company: string,
    relevance: real,
    message: string,
    canRefer: bool)

  /** Either name contains the other, ignoring case. A connection without a
      company counts, as the company name contains the empty string. */
  predicate SameEmployer(conn: Connection, companyLower: string) {
    (conn.company.Some? && Contains(ToLower(conn.company.value), companyLower))
    || Contains(companyLower, ToLower(conn.company.GetOr("")))
  }

  /** 1.0 for a colleague at the company, 0.6 for another first-degree
      contact, 0.3 for a second-degree one, 0 otherwise. */
  function Relevance(conn: Connection, companyLower: string): (r: real)
    ensures r == 1.0 <==> SameEmployer(conn, companyLower)
    ensures r == 0.6 <==> !SameEmployer(conn, companyLower) && conn.connectionDegree == First
    ensures r == 0.3 <==> !SameEmployer(conn, companyLower) && conn.connectionDegree == Second
    ensures r == 0.0 <==> !SameEmployer(conn, companyLower) && conn.connectionDegree == Third
  {
    if SameEmployer(conn, companyLower) then 1.0
    else match conn.connectionDegree
      case First => 0.6
      case Second => 0.3
      case Third => 0.0
  }

  /** A connection with no company on record is always rated a colleague. */
  lemma NoCompanyIsColleague(conn: Connection, companyName: string)
    requires conn.company.None?
    ensures Relevance(conn, ToLower(companyName)) == 1.0
  {
    assert ToLower("") == "";
    ContainsEmpty(ToLower(companyName));
  }

  /** The three message templates, addressed to `name`, about `companyName`. */
  const CultureAsk := ". Would you be open to a quick chat about the company culture?"
  const NoticedAt := ", I noticed you're connected at "
  const LearnAt := ", I'd love to learn more about your experience at "
  const FewQuestions := ". Mind if I ask a few questions?"
  const SawAt := ", saw you're at "
  const ReferAsk := ". Any chance you'd be comfortable referring me for a role there?"

  function Templates(name: string, companyName: string): seq<string> {
    ["Hi " + name + NoticedAt + companyName + CultureAsk,
     name + LearnAt + companyName + FewQuestions,
     "Hey " + name + SawAt + companyName + ReferAsk]
  }

  /** `conn.name || 'there'` */
  function Addressee(conn: Connection): string {
    if conn.name == "" then "there" else conn.name
  }

  /** `generateReferralMessage(conn, companyName)`, with `draw` standing for
      `Math.random()`: template `floor(draw * 3)`. */
  function ReferralMessage(conn: Connection, companyName: string, draw: real): (r: string)
    requires 0.0 <= draw < 1.0
    ensures r in Templates(Addressee(conn), companyName)
  {
    var idx := (draw * 3.0).Floor;
    Templates(Addressee(conn), companyName)[idx]
  }

  /** Whichever template is drawn, it names the addressee and the company. */
  lemma MessageNamesBoth(conn: Connection, companyName: string, draw: real)
    requires 0.0 <= draw < 1.0
    ensures Contains(ReferralMessage(conn, companyName, draw), Addressee(conn))
    ensures Contains(ReferralMessage(conn, companyName, draw), companyName)
  {
    var n := Addressee(conn);
    var m := ReferralMessage(conn, companyName, draw);
    ContainsSelf(n);
    ContainsSelf(companyName);
    if m == Templates(n, companyName)[0] {
      Mentions3("Hi ", n, NoticedAt, companyName, CultureAsk);
    } else if m == Templates(n, companyName)[1] {
      Mentions3("", n, LearnAt, companyName, FewQuestions);
      assert "" + n == n;
    } else {
      Mentions3("Hey ", n, SawAt, companyName, ReferAsk);
    }
  }

  /** `a + x + b + y + c` contains `x` and `y`. */
  lemma Mentions3(a: string, x: string, b: string, y: string, c: string)
    ensures Contains(a + x + b + y + c, x) && Contains(a + x + b + y + c, y)
  {
    ContainsSelf(x);
    ContainsSelf(y);
    ContainsInRight(a, x, x);
    ContainsInLeft(a + x, b + y + c, x);
    assert a + x + (b + y + c) == a + x + b + y + c;
    ContainsInRight(a + x + b, y, y);
    ContainsInLeft(a + x + b + y, c, y);
  }

  /** Every draw is a valid `Math.random()` result. */
  predicate ValidDraws(draws: seq<real>) {
    forall i :: 0 <= i < |draws| ==> 0.0 <= draws[i] < 1.0
  }

  function SuggestionFor(conn: Connection, company: Company, draw: real): (r: ReferralSuggestion)
    requires 0.0 <= draw < 1.0
    ensures r.connectionId == conn.id && r.company == company.name && r.canRefer == conn.canRefer
    ensures r.relevance == Relevance(conn, ToLower(company.name))
  {
    ReferralSuggestion(conn.id, conn.name, company.name, Relevance(conn, ToLower(company.name)),
                       ReferralMessage(conn, company.name, draw), conn.canRefer)
  }

  /** Relevance 1.0, 0.6 or 0.3. */
  predicate Graded(s: ReferralSuggestion) {
    s.relevance == 1.0 || s.relevance == 0.6 || s.relevance == 0.3
  }

  /** The suggestions the loop collects, in connection order: one for every
      connection of positive relevance. */
  function Candidates(company: Company, conns: seq<Connection>, draws: seq<real>): (r: seq<ReferralSuggestion>)
    requires |draws| == |conns| && ValidDraws(draws)
    ensures |r| <= |conns|
    ensures forall s :: s in r ==> Graded(s) && s.company == company.name
    decreases |conns|
  {
    if conns == [] then []
    else
      var n := |conns| - 1;
      Candidates(company, conns[..n], draws[..n])
      + (if Relevance(conns[n], ToLower(company.name)) > 0.0 then [SuggestionFor(conns[n], company, draws[n])] else [])
  }

  /** The loop's step: the candidates of one more connection. */
  lemma CandidatesStep(company: Company, conns: seq<Connection>, draws: seq<real>, i: nat)
    requires |draws| == |conns| && ValidDraws(draws) && i < |conns|
    ensures Candidates(company, conns[..i + 1], draws[..i + 1])
         == Candidates(company, conns[..i], draws[..i])
            + (if Relevance(conns[i], ToLower(company.name)) > 0.0 then [SuggestionFor(conns[i], company, draws[i])] else [])
  {
    assert conns[..i + 1][..i] == conns[..i];
    assert draws[..i + 1][..i] == draws[..i];
  }

  /** The loop body: appending the scored connection's suggestion, when
      its relevance is positive, yields the candidates of one more connection. */
  lemma CandidatesNext(company: Company, conns: seq<Connection>, draws: seq<real>, i: nat,
                       before: seq<ReferralSuggestion>, after: seq<ReferralSuggestion>)
    requires |draws| == |conns| && ValidDraws(draws) && i < |conns|
    requires before == Candidates(company, conns[..i], draws[..i])
    requires var conn := conns[i];
             var relevance := Relevance(conn, ToLower(company.name));
             after == if relevance > 0.0 then
               before + [ReferralSuggestion(conn.id, conn.name, company.name, relevance,
                                            ReferralMessage(conn, company.name, draws[i]), conn.canRefer)]
             else before
    ensures after == Candidates(company, conns[..i + 1], draws[..i + 1])
  {
    CandidatesStep(company, conns, draws, i);
  }

  /** Every connection of positive relevance is among the candidates. */
  lemma {:induction false} CandidateListed(company: Company, conns: seq<Connection>, draws: seq<real>, k: nat)
    requires |draws| == |conns| && ValidDraws(draws) && k < |conns|
    requires Relevance(conns[k], ToLower(company.name)) > 0.0
    ensures SuggestionFor(conns[k], company, draws[k]) in Candidates(company, conns, draws)
    decreases |conns|
  {
    var n := |conns| - 1;
    var x := SuggestionFor(conns[k], company, draws[k]);
    var init := Candidates(company, conns[..n], draws[..n]);
    var tail := if Relevance(conns[n], ToLower(company.name)) > 0.0 then [SuggestionFor(conns[n], company, draws[n])] else [];
    assert Candidates(company, conns, draws) == init + tail;
    if k < n {
      CandidateListed(company, conns[..n], draws[..n], k);
      assert conns[..n][k] == conns[k] && draws[..n][k] == draws[k];
      assert x in init;
    } else {
      assert tail == [x];
    }
  }

  function HasRelevance(v: real): ReferralSuggestion -> bool {
    (s: ReferralSuggestion) => s.relevance == v
  }

  /** `suggestions.sort((a, b) => b.relevance - a.relevance)`: a stable
      sort on three grades is the grades' buckets in descending order. */
  function ByRelevance(s: seq<ReferralSuggestion>): (r: seq<ReferralSuggestion>)
    ensures |r| <= 3 * |s|
  {
    Filter(s, HasRelevance(1.0)) + Filter(s, HasRelevance(0.6)) + Filter(s, HasRelevance(0.3))
  }

  /** The sort orders by descending relevance. */
  lemma ByRelevanceSorted(s: seq<ReferralSuggestion>)
    ensures forall i, j :: 0 <= i < j < |ByRelevance(s)| ==> ByRelevance(s)[i].relevance >= ByRelevance(s)[j].relevance
  {
    var b1 := Filter(s, HasRelevance(1.0));
    var b2 := Filter(s, HasRelevance(0.6));
    var b3 := Filter(s, HasRelevance(0.3));
    var r := ByRelevance(s);
    forall i | 0 <= i < |r|
      ensures (i < |b1| ==> r[i].relevance == 1.0)
      ensures (|b1| <= i < |b1| + |b2| ==> r[i].relevance == 0.6)
      ensures (|b1| + |b2| <= i ==> r[i].relevance == 0.3)
    {
      if i < |b1| {
        assert r[i] == b1[i];
        assert b1[i] in b1;
      } else if i < |b1| + |b2| {
        assert r[i] == b2[i - |b1|];
        assert b2[i - |b1|] in b2;
      } else {
        assert r[i] == b3[i - |b1| - |b2|];
        assert b3[i - |b1| - |b2|] in b3;
      }
    }
  }

  /** On graded suggestions the sort is a permutation. */
  lemma ByRelevancePermutation(s: seq<ReferralSuggestion>)
    requires forall x :: x in s ==> Graded(x)
    ensures multiset(ByRelevance(s)) == multiset(s)
  {
    var r := ByRelevance(s);
    forall x
      ensures multiset(r)[x] == multiset(s)[x]
    {
      if x !in s {
        assert multiset(s)[x] == 0;
      }
    }
  }

  /** The sort is stable: suggestions of equal relevance keep their order. */
  lemma ByRelevanceStable(s: seq<ReferralSuggestion>, v: real)
    requires v == 1.0 || v == 0.6 || v == 0.3
    ensures Filter(ByRelevance(s), HasRelevance(v)) == Filter(s, HasRelevance(v))
  {
    var p := HasRelevance(v);
    var b1 := Filter(s, HasRelevance(1.0));
    var b2 := Filter(s, HasRelevance(0.6));
    var b3 := Filter(s, HasRelevance(0.3));
    FilterAppend(b1 + b2, b3, p);
    FilterAppend(b1, b2, p);
    assert Filter(ByRelevance(s), p) == Filter(b1, p) + Filter(b2, p) + Filter(b3, p);
    BucketFilter(s, 1.0, v);
    BucketFilter(s, 0.6, v);
    BucketFilter(s, 0.3, v);
    if v == 1.0 {
      assert Filter(ByRelevance(s), p) == b1 + [] + [];
    } else if v == 0.6 {
      assert Filter(ByRelevance(s), p) == [] + b2 + [];
    } else {
      assert Filter(ByRelevance(s), p) == [] + [] + b3;
    }
  }

  /** Filtering one bucket by a grade keeps the whole bucket or nothing. */
  lemma BucketFilter(s: seq<ReferralSuggestion>, w: real, v: real)
    ensures Filter(Filter(s, HasRelevance(w)), HasRelevance(v)) == if w == v then Filter(s, HasRelevance(w)) else []
  {
    var b := Filter(s, HasRelevance(w));
    if w == v {
      assert forall i :: 0 <= i < |b| ==> b[i] in b;
      FilterAll(b, HasRelevance(v));
    } else {
      assert forall i :: 0 <= i < |b| ==> b[i] in b;
      FilterNone(b, HasRelevance(v));
    }
  }

  /** The scoring at the head of the loop of `findReferralConnections`. */
  method ScoreConnection(conn: Connection, companyLower: string) returns (relevance: real)
    ensures relevance == Relevance(conn, companyLower)
  {
    relevance := 0.0;
    if SameEmployer(conn, companyLower) {
      relevance := 1.0;
    } else if conn.connectionDegree == First {
      relevance := 0.6;
    } else if conn.connectionDegree == Second {
      relevance := 0.3;
    }
  }

  /** `findReferralConnections(company, connections)`: score each
      connection, keep those of positive relevance, sort, keep five. */
  method FindReferralConnections(company: Company, connections: seq<Connection>, draws: seq<real>)
    returns (r: seq<ReferralSuggestion>)
    requires |draws| == |connections| && ValidDraws(draws)
    ensures r == JsSlice(ByRelevance(Candidates(company, connections, draws)), 0, 5)
    ensures |r| <= 5
    ensures forall x :: x in r ==> x.relevance > 0.0 && x.company == company.name
  {
    var suggestions: seq<ReferralSuggestion> := [];
    var companyLower := ToLower(company.name);
    var i := 0;
    while i < |connections|
      invariant 0 <= i <= |connections|
      invariant suggestions == Candidates(company, connections[..i], draws[..i])
    {
      var conn := connections[i];
      ghost var before := suggestions;
      var relevance := ScoreConnection(conn, companyLower);
      if relevance > 0.0 {
        var suggestion := ReferralSuggestion(conn.id, conn.name, company.name, relevance,
                                             ReferralMessage(conn, company.name, draws[i]), conn.canRefer);
        suggestions := suggestions + [suggestion];
      }
      CandidatesNext(company, connections, draws, i, before, suggestions);
      i := i + 1;
    }
    assert connections[..i] == connections && draws[..i] == draws;
    var sorted := ByRelevance(suggestions);
    r := JsSlice(sorted, 0, 5);
    TopFive(company, connections, draws);
  }

  /** At most five suggestions come back, each of positive relevance. */
  lemma TopFive(company: Company, conns: seq<Connection>, draws: seq<real>)
    requires |draws| == |conns| && ValidDraws(draws)
    ensures var r := JsSlice(ByRelevance(Candidates(company, conns, draws)), 0, 5);
            |r| <= 5 && forall x :: x in r ==> x.relevance > 0.0 && x.company == company.name
  {
    var c := Candidates(company, conns, draws);
    var sorted := ByRelevance(c);
    var r := JsSlice(sorted, 0, 5);
    JsSliceWidth(sorted, 0, 5);
    JsSliceIsSubseq(sorted, 0, 5);
    SubseqMembers(r, sorted);
    ByRelevanceMembers(c);
    forall x | x in r
      ensures x.relevance > 0.0 && x.company == company.name
    {
      assert x in sorted;
      assert x in c;
    }
  }

  /** The sort adds nothing. */
  lemma ByRelevanceMembers(s: seq<ReferralSuggestion>)
    ensures forall x :: x in ByRelevance(s) ==> x in s
  {
    var b1 := Filter(s, HasRelevance(1.0));
    var b2 := Filter(s, HasRelevance(0.6));
    var b3 := Filter(s, HasRelevance(0.3));
    forall x | x in ByRelevance(s)
      ensures x in s
    {
      assert x in b1 + b2 + b3;
      if x in b1 {
      } else if x in b2 {
      } else {
        assert x in b3;
      }
    }
  }

  /** When a connection works at the company, the first suggestion is a colleague's. */
  lemma ColleagueFirst(company: Company, conns: seq<Connection>, draws: seq<real>, k: nat)
    requires |draws| == |conns| && ValidDraws(draws) && k < |conns|
    requires SameEmployer(conns[k], ToLower(company.name))
    ensures var r := JsSlice(ByRelevance(Candidates(company, conns, draws)), 0, 5);
            r != [] && r[0].relevance == 1.0
  {
    var c := Candidates(company, conns, draws);
    CandidateListed(company, conns, draws, k);
    var x := SuggestionFor(conns[k], company, draws[k]);
    TopBucketFirst(c, x);
    JsSliceHead(ByRelevance(c), 5);
  }

  /** A suggestion of relevance 1.0 puts the top bucket first. */
  lemma TopBucketFirst(s: seq<ReferralSuggestion>, x: ReferralSuggestion)
    requires x in s && x.relevance == 1.0
    ensures ByRelevance(s) != [] && ByRelevance(s)[0].relevance == 1.0
  {
    var b1 := Filter(s, HasRelevance(1.0));
    assert x in b1;
    assert ByRelevance(s)[0] == b1[0];
    assert b1[0] in b1;
  }
}
