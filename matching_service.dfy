/** `AIMatchingService`'s state: the embedding model it loads lazily, the
    flag that disables it for good after a failure, and the job analysis
    that falls back to a semantic score of 0 without a model. The model
    itself is outside the model: loading it and running it become
    parameters (`load`, `inference`), and the floating-point division by
    the square roots of the norms becomes the parameter `ratio`. */
module AIMatching {
  import opened Wrappers
  import opened Text
  import opened JobTypes
  import opened Profile
  import opened JobScoring

  // ---------------------------------------------------------------- cosine similarity

  /** Sum of the products of corresponding components. */
  function Dot(a: seq<real>, b: seq<real>): real
    requires |a| == |b|
    decreases |a|
  {
    if a == [] then 0.0
    else Dot(a[..|a| - 1], b[..|b| - 1]) + a[|a| - 1] * b[|b| - 1]
  }

  /** What `cosineSimilarity` computes before its final division: 0 for
      vectors of different or zero length, otherwise the dot product and
      the two squared norms. */
  datatype Cosine = Zero | Sums(dot: real, normA: real, normB: real)

  function CosineOf(a: seq<real>, b: seq<real>): (r: Cosine)
    ensures r.Zero? <==> |a| != |b| || |a| == 0
  {
    if |a| != |b| || |a| == 0 then Zero else Sums(Dot(a, b), Dot(a, a), Dot(b, b))
  }

  /** The score a `Cosine` stands for, with `ratio(dot, na, nb)` for
      `dot / (Math.sqrt(na) * Math.sqrt(nb))`. */
  function CosineValue(c: Cosine, ratio: (real, real, real) -> real): real {
    match c
    case Zero => 0.0
    case Sums(d, na, nb) => ratio(d, na, nb)
  }

  lemma {:induction false} DotSymmetric(a: seq<real>, b: seq<real>)
    requires |a| == |b|
    ensures Dot(a, b) == Dot(b, a)
    decreases |a|
  {
    if a != [] {
      DotSymmetric(a[..|a| - 1], b[..|b| - 1]);
    }
  }

  lemma {:induction false} NormNonNegative(a: seq<real>)
    ensures Dot(a, a) >= 0.0
    decreases |a|
  {
    if a != [] {
      NormNonNegative(a[..|a| - 1]);
      SquareNonNegative(a[|a| - 1]);
    }
  }

  lemma SquareNonNegative(x: real)
    ensures x * x >= 0.0
  {
  }

  /** Swapping the vectors swaps the norms and keeps the dot product. */
  lemma CosineSymmetric(a: seq<real>, b: seq<real>)
    ensures CosineOf(a, b).Zero? == CosineOf(b, a).Zero?
    ensures CosineOf(a, b).Sums? ==>
      CosineOf(b, a) == Sums(CosineOf(a, b).dot, CosineOf(a, b).normB, CosineOf(a, b).normA)
  {
    if |a| == |b| {
      DotSymmetric(a, b);
    }
  }

  /** A vector against itself: the dot product is the (shared) squared norm. */
  lemma SelfCosine(a: seq<real>)
    requires a != []
    ensures CosineOf(a, a) == Sums(Dot(a, a), Dot(a, a), Dot(a, a))
  {
  }

  // ---------------------------------------------------------------- the service

  class AIMatchingService {
    /** The loaded feature extractor, named by a handle; `None` for `null`. */
    var extractor: Option<nat>
    var isInitialized: bool
    /** Whether loading may still be tried; once false it stays false. */
    var modelUsable: bool

    /** A model is present exactly when the service counts as initialised,
        and only while it is usable. */
    ghost predicate Valid()
      reads this
    {
      (isInitialized <==> extractor.Some?) && (extractor.Some? ==> modelUsable)
    }

    /** `canUseLocal` stands for `canUseLocalModel()`: a browser outside a test run. */
    constructor (canUseLocal: bool)
      ensures Valid()
      ensures extractor == None && !isInitialized && modelUsable == canUseLocal
    {
      extractor := None;
      isInitialized := false;
      modelUsable := canUseLocal;
    }

    /** The model is there, or loading it (with outcome `load`) succeeds. */
    ghost predicate ReadyAfterLoad(load: Option<nat>)
      reads this
    {
      extractor.Some? || (modelUsable && load.Some?)
    }

    /** `initialize()`, with `load` the outcome of loading the pipeline
        (`None` when it throws). */
    method Initialize(load: Option<nat>)
      requires Valid()
      modifies this
      ensures Valid()
      ensures old(isInitialized) || !old(modelUsable) ==>
        extractor == old(extractor) && isInitialized == old(isInitialized) && modelUsable == old(modelUsable)
      ensures !old(isInitialized) && old(modelUsable) && load.Some? ==>
        extractor == load && isInitialized && modelUsable
      ensures !old(isInitialized) && old(modelUsable) && load.None? ==>
        extractor == None && !isInitialized && !modelUsable
      ensures extractor.Some? <==> old(ReadyAfterLoad(load))
    {
      if isInitialized || !modelUsable {
        return;
      }
      if load.Some? {
        extractor := load;
        isInitialized := true;
      } else {
        modelUsable := false;
      }
    }

    /** `getJobEmbedding(text)`: `inference` is what the model yields for
        `text` (`None` when it throws). A failure unloads the model and
        disables it. */
    method GetJobEmbedding(text: string, load: Option<nat>, inference: Option<seq<real>>) returns (r: seq<real>)
      requires Valid()
      modifies this
      ensures Valid()
      ensures modelUsable ==> old(modelUsable)
      ensures !old(ReadyAfterLoad(load)) ==> r == [] && extractor == None
      ensures old(ReadyAfterLoad(load)) && inference.Some? ==> r == inference.value && extractor.Some?
      ensures old(ReadyAfterLoad(load)) && inference.None? ==>
        r == [] && extractor == None && !isInitialized && !modelUsable
    {
      if extractor.None? {
        Initialize(load);
      }
      if extractor.None? {
        return [];
      }
      if inference.Some? {
        r := inference.value;
      } else {
        extractor := None;
        isInitialized := false;
        modelUsable := false;
        r := [];
      }
    }

    /** `cosineSimilarity(a, b)`: the loop accumulating the three sums. */
    method CosineSimilarity(a: seq<real>, b: seq<real>) returns (r: Cosine)
      ensures r == CosineOf(a, b)
    {
      if |a| != |b| || |a| == 0 {
        return Zero;
      }
      var dotProduct, normA, normB := 0.0, 0.0, 0.0;
      var i := 0;
      while i < |a|
        invariant 0 <= i <= |a|
        invariant dotProduct == Dot(a[..i], b[..i])
        invariant normA == Dot(a[..i], a[..i]) && normB == Dot(b[..i], b[..i])
      {
        assert a[..i + 1][..i] == a[..i] && b[..i + 1][..i] == b[..i];
        dotProduct := dotProduct + a[i] * b[i];
        normA := normA + a[i] * a[i];
        normB := normB + b[i] * b[i];
        i := i + 1;
      }
      assert a[..i] == a && b[..i] == b;
      r := Sums(dotProduct, normA, normB);
    }

    /** `analyzeJobMatch(job, profileText)` for `profile`: load the model if
        possible, compare the embeddings of the job text and the profile
        text when a model is there, and combine with the deterministic
        scores. */
    method AnalyzeJobMatch(job: Job, profile: UserProfile, load: Option<nat>,
                           jobInference: Option<seq<real>>, profileInference: Option<seq<real>>,
                           ratio: (real, real, real) -> real) returns (r: MatchResult)
      requires Valid()
      modifies this
      ensures Valid()
      ensures modelUsable ==> old(modelUsable)
      ensures !old(ReadyAfterLoad(load)) ==> r == MatchFor(job, profile, 0.0)
      ensures old(ReadyAfterLoad(load)) ==>
        r == MatchFor(job, profile,
                      CosineValue(CosineOf(jobInference.GetOr([]), profileInference.GetOr([])), ratio))
    {
      Initialize(load);
      var semanticScore := 0.0;
      if extractor.Some? {
        semanticScore := SemanticScore(job, profile, load, jobInference, profileInference, ratio);
      }
      r := AssembleMatch(job, profile, semanticScore);
    }

    /** The `if (this.extractor)` branch of `analyzeJobMatch`: both
        embeddings, then their cosine. */
    method SemanticScore(job: Job, profile: UserProfile, load: Option<nat>,
                         jobInference: Option<seq<real>>, profileInference: Option<seq<real>>,
                         ratio: (real, real, real) -> real) returns (score: real)
      requires Valid() && extractor.Some?
      modifies this
      ensures Valid()
      ensures modelUsable ==> old(modelUsable)
      ensures score == CosineValue(CosineOf(jobInference.GetOr([]), profileInference.GetOr([])), ratio)
    {
      var jobEmb := GetJobEmbedding(JobText(job), load, jobInference);
      var profEmb := GetJobEmbedding(ProfileText(profile), load, profileInference);
      var c := CosineSimilarity(jobEmb, profEmb);
      EmbeddingFailureScoresZero(jobInference, profileInference, ratio);
      score := CosineValue(c, ratio);
    }
  }

  /** The deterministic part of `analyzeJobMatch`: the skill and
      experience scores, the missing skills and keywords, the weighted
      score and the summary, around the given semantic score. */
  method AssembleMatch(job: Job, profile: UserProfile, semanticScore: real) returns (r: MatchResult)
    ensures r == MatchFor(job, profile, semanticScore)
  {
    var skills := profile.skills;
    var requirements := job.requirements;
    var niceToHave := job.niceToHave.GetOr([]);
    var skillMatch := CalculateSkillMatch(skills, requirements);
    var experienceMatch := ExperienceMatch(profile.experience, requirements);
    var missingSkills := MissingSkills(skills, requirements, niceToHave);
    var suggestedKeywords := SuggestedKeywords(missingSkills);
    var overallScore := Weighted(skillMatch, experienceMatch, semanticScore);
    var summary := MatchSummary(job, skillMatch, missingSkills);
    r := MatchResult(job.id, AtMostOne(overallScore), skillMatch, experienceMatch, semanticScore,
                     missingSkills, suggestedKeywords, summary);
  }

  /** When either embedding fails its empty vector makes the cosine 0, so
      running the two inferences one after the other or side by side gives
      the same score. */
  lemma EmbeddingFailureScoresZero(jobInference: Option<seq<real>>, profileInference: Option<seq<real>>,
                                   ratio: (real, real, real) -> real)
    ensures jobInference.None? || profileInference.None? ==>
      CosineValue(CosineOf(jobInference.GetOr([]), profileInference.GetOr([])), ratio) == 0.0
  {
  }

  /** `${job.title} ${job.description} ${jobRequirements.join(' ')}` */
  function JobText(job: Job): string {
    job.title + " " + job.description + " " + Join(job.requirements, " ")
  }

  /** `${profile.about} ${skills.join(' ')} ${roles and companies}` */
  function ProfileText(p: UserProfile): string {
    p.about + " " + Join(p.skills, " ") + " "
    + Join(seq(|p.experience|, i requires 0 <= i < |p.experience| => p.experience[i].role + " " + p.experience[i].company), " ")
  }
}
