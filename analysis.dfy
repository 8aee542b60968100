/** The analysis generator, `generateAnalysis`: independent rule checks that
    append to three lists in a fixed order, after which each list is cut to
    its cap (4 strengths, 3 improvements, 4 suggestions). */
module Analysis {
  import opened Common
  import opened Text
  import opened Records
  import opened Scoring

  datatype Strength =
    | DetailedEducation | SkillRange | TechnicalSkills | DetailedExperience
    | QuantifiedAchievements | LinkedInProfile | ExcellentQuality
  {
    function Text(): string
    {
      match this
      case DetailedEducation => "Detailed education background"
      case SkillRange => "Good range of skills listed"
      case TechnicalSkills => "Good technical skill representation"
      case DetailedExperience => "Detailed work experience section"
      case QuantifiedAchievements => "Includes quantifiable achievements"
      case LinkedInProfile => "Includes LinkedIn profile"
      case ExcellentQuality => "Excellent overall resume quality"
    }
  }

  datatype Improvement =
    | EducationDetail | MoreSkills | ExperienceDetail | QuantifyAchievements | OverallCompleteness
  {
    function Text(): string
    {
      match this
      case EducationDetail => "Consider providing more details about your education"
      case MoreSkills => "Consider listing more skills"
      case ExperienceDetail => "Your work experience section could be more detailed"
      case QuantifyAchievements => "Add quantifiable achievements to your experience"
      case OverallCompleteness => "Overall resume completeness needs improvement"
    }
  }

  datatype Suggestion =
    | DegreeDetails | TechnicalAndSoftSkills | MoreTechnicalSkills | AchievementsAndResponsibilities
    | UseNumbers | AddLinkedIn | ProfessionalTemplate
  {
    function Text(): string
    {
      match this
      case DegreeDetails => "Include your degree, major, university name, and graduation date"
      case TechnicalAndSoftSkills => "Add both technical and soft skills relevant to your field"
      case MoreTechnicalSkills => "Include more technical skills if relevant to your field"
      case AchievementsAndResponsibilities =>
        "Include specific achievements and responsibilities in your work experience"
      case UseNumbers => "Use numbers to showcase your impact (e.g., \"Increased sales by 20%\")"
      case AddLinkedIn => "Add your LinkedIn profile to enhance your online presence"
      case ProfessionalTemplate => "Consider using a professional resume template"
    }
  }

  datatype Feedback = Feedback(
    strengths: seq<Strength>,
    improvements: seq<Improvement>,
    suggestions: seq<Suggestion>)
  {
    /** Appending the findings of a later rule. */
    function Then(next: Feedback): Feedback
    {
      Feedback(strengths + next.strengths, improvements + next.improvements,
               suggestions + next.suggestions)
    }
  }

  const NoFeedback := Feedback([], [], [])

  const MaxStrengths := 4
  const MaxImprovements := 3
  const MaxSuggestions := 4

  /** The keywords a skill token is matched against, case-insensitively, as substrings. */
  const TechKeywords: seq<string> := ["programming", "javascript", "python", "java", "c++", "sql",
                                      "html", "css", "react", "node", "database", "aws", "cloud"]

  /** `skills.split(',').map(s => s.trim())`. */
  function SkillTokens(skills: string): (tokens: seq<string>)
    ensures |tokens| == SkillsCount(skills)
  {
    var parts := Split(skills, ',');
    seq(|parts|, i requires 0 <= i < |parts| => Trim(parts[i]))
  }

  /** A token is technical when its lower-cased form includes some keyword. */
  predicate IsTechSkill(token: string)
  {
    exists k | 0 <= k < |TechKeywords| :: Includes(ToLower(token), TechKeywords[k])
  }

  /** The keyword test is case-insensitive: a token and its upper-cased form are equally technical. */
  lemma TechSkillIgnoresCase(token: string)
    ensures IsTechSkill(ToUpper(token)) <==> IsTechSkill(token)
  {
    LowerIgnoresCase(token);
  }

  /** `skillsArr.filter(isTech).length`: each token counts once, however many keywords it matches. */
  function TechSkillCount(tokens: seq<string>): (n: nat)
    ensures n <= |tokens|
  {
    if tokens == [] then 0
    else (if IsTechSkill(tokens[0]) then 1 else 0) + TechSkillCount(tokens[1..])
  }

  /** The count is per token: counting two lists of tokens together adds their counts. */
  lemma {:induction false} TechSkillCountAppend(a: seq<string>, b: seq<string>)
    ensures TechSkillCount(a + b) == TechSkillCount(a) + TechSkillCount(b)
  {
    if a == [] {
      assert a + b == b;
    } else {
      assert (a + b)[0] == a[0] && (a + b)[1..] == a[1..] + b;
      TechSkillCountAppend(a[1..], b);
    }
  }

  function EducationRule(education: Option<string>): Feedback
  {
    if !Truthy(education) then NoFeedback
    else if |education.value| > 100 then Feedback([DetailedEducation], [], [])
    else Feedback([], [EducationDetail], [DegreeDetails])
  }

  function SkillRangeRule(skills: Option<string>): Feedback
  {
    if !Truthy(skills) then NoFeedback
    else if |SkillTokens(skills.value)| > 5 then Feedback([SkillRange], [], [])
    else Feedback([], [MoreSkills], [TechnicalAndSoftSkills])
  }

  function TechSkillsRule(skills: Option<string>): Feedback
  {
    if !Truthy(skills) then NoFeedback
    else if TechSkillCount(SkillTokens(skills.value)) > 2 then Feedback([TechnicalSkills], [], [])
    else Feedback([], [], [MoreTechnicalSkills])
  }

  function ExperienceRule(experience: Option<string>): Feedback
  {
    if !Truthy(experience) then NoFeedback
    else if |experience.value| > 200 then Feedback([DetailedExperience], [], [])
    else Feedback([], [ExperienceDetail], [AchievementsAndResponsibilities])
  }

  function NumbersRule(experience: Option<string>): Feedback
  {
    if !Truthy(experience) then NoFeedback
    else if HasDigit(experience.value) then Feedback([QuantifiedAchievements], [], [])
    else Feedback([], [QuantifyAchievements], [UseNumbers])
  }

  function LinkedInRule(linkedin: Option<string>): Feedback
  {
    if Truthy(linkedin) then Feedback([LinkedInProfile], [], [])
    else Feedback([], [], [AddLinkedIn])
  }

  function ScoreRule(score: int): Feedback
  {
    if score < 70 then Feedback([], [OverallCompleteness], [ProfessionalTemplate])
    else if score > 90 then Feedback([ExcellentQuality], [], [])
    else NoFeedback
  }

  /** The three lists before truncation, built in rule order. */
  function AllFeedback(s: Submission, score: int): Feedback
  {
    EducationRule(s.education)
      .Then(SkillRangeRule(s.skills))
      .Then(TechSkillsRule(s.skills))
      .Then(ExperienceRule(s.experience))
      .Then(NumbersRule(s.experience))
      .Then(LinkedInRule(s.linkedin))
      .Then(ScoreRule(score))
  }

  /** `list.slice(0, n)`. */
  function Take<T>(list: seq<T>, n: nat): (r: seq<T>)
    ensures |r| == Min(|list|, n)
    ensures r == list[..|r|]
  {
    if |list| <= n then list else list[..n]
  }

  /** `generateAnalysis(submission, score)`. */
  function GenerateAnalysis(s: Submission, score: int): (r: Feedback)
    ensures |r.strengths| <= MaxStrengths
    ensures |r.improvements| <= MaxImprovements
    ensures |r.suggestions| <= MaxSuggestions
  {
    var all := AllFeedback(s, score);
    Feedback(Take(all.strengths, MaxStrengths), Take(all.improvements, MaxImprovements),
             Take(all.suggestions, MaxSuggestions))
  }

  /** Each returned list is the first min(length, cap) items of the list built in rule order,
      so earlier rules win the places under the cap. */
  lemma TruncationKeepsRuleOrder(s: Submission, score: int)
    ensures var all, r := AllFeedback(s, score), GenerateAnalysis(s, score);
      && r.strengths == all.strengths[..Min(|all.strengths|, MaxStrengths)]
      && r.improvements == all.improvements[..Min(|all.improvements|, MaxImprovements)]
      && r.suggestions == all.suggestions[..Min(|all.suggestions|, MaxSuggestions)]
  {
  }

  // An independent statement of the rules: for each message, the condition under
  // which it is produced, and the messages listed in the order the rules run.

  // Each order is written as a chain of one-message lists, the shape in which the
  // proofs below extend a filtered prefix one message at a time.
  const StrengthOrder: seq<Strength> := [DetailedEducation] + [SkillRange] + [TechnicalSkills]
    + [DetailedExperience] + [QuantifiedAchievements] + [LinkedInProfile] + [ExcellentQuality]
  const ImprovementOrder: seq<Improvement> := [EducationDetail] + [MoreSkills] + [ExperienceDetail]
    + [QuantifyAchievements] + [OverallCompleteness]
  const SuggestionOrder: seq<Suggestion> := [DegreeDetails] + [TechnicalAndSoftSkills] + [MoreTechnicalSkills]
    + [AchievementsAndResponsibilities] + [UseNumbers] + [AddLinkedIn] + [ProfessionalTemplate]

  predicate StrengthEarned(m: Strength, s: Submission, score: int)
  {
    match m
    case DetailedEducation => Truthy(s.education) && |s.education.value| > 100
    case SkillRange => Truthy(s.skills) && SkillsCount(s.skills.value) > 5
    case TechnicalSkills => Truthy(s.skills) && TechSkillCount(SkillTokens(s.skills.value)) > 2
    case DetailedExperience => Truthy(s.experience) && |s.experience.value| > 200
    case QuantifiedAchievements => Truthy(s.experience) && HasDigit(s.experience.value)
    case LinkedInProfile => Truthy(s.linkedin)
    case ExcellentQuality => score > 90
  }

  predicate ImprovementNeeded(m: Improvement, s: Submission, score: int)
  {
    match m
    case EducationDetail => Truthy(s.education) && |s.education.value| <= 100
    case MoreSkills => Truthy(s.skills) && SkillsCount(s.skills.value) <= 5
    case ExperienceDetail => Truthy(s.experience) && |s.experience.value| <= 200
    case QuantifyAchievements => Truthy(s.experience) && !HasDigit(s.experience.value)
    case OverallCompleteness => score < 70
  }

  predicate SuggestionMade(m: Suggestion, s: Submission, score: int)
  {
    match m
    case DegreeDetails => Truthy(s.education) && |s.education.value| <= 100
    case TechnicalAndSoftSkills => Truthy(s.skills) && SkillsCount(s.skills.value) <= 5
    case MoreTechnicalSkills => Truthy(s.skills) && TechSkillCount(SkillTokens(s.skills.value)) <= 2
    case AchievementsAndResponsibilities => Truthy(s.experience) && |s.experience.value| <= 200
    case UseNumbers => Truthy(s.experience) && !HasDigit(s.experience.value)
    case AddLinkedIn => !Truthy(s.linkedin)
    case ProfessionalTemplate => score < 70
  }

  /** `[m]` when `b` holds, otherwise nothing: one message's place in a filtered list. */
  function Keep<T>(m: T, b: bool): seq<T>
  {
    if b then [m] else []
  }

  function EarnedStrengths(ms: seq<Strength>, s: Submission, score: int): seq<Strength>
  {
    if ms == [] then []
    else Keep(ms[0], StrengthEarned(ms[0], s, score)) + EarnedStrengths(ms[1..], s, score)
  }

  function NeededImprovements(ms: seq<Improvement>, s: Submission, score: int): seq<Improvement>
  {
    if ms == [] then []
    else Keep(ms[0], ImprovementNeeded(ms[0], s, score)) + NeededImprovements(ms[1..], s, score)
  }

  function MadeSuggestions(ms: seq<Suggestion>, s: Submission, score: int): seq<Suggestion>
  {
    if ms == [] then []
    else Keep(ms[0], SuggestionMade(ms[0], s, score)) + MadeSuggestions(ms[1..], s, score)
  }

  lemma {:induction false} EarnedStrengthsAppend(a: seq<Strength>, b: seq<Strength>, s: Submission, score: int)
    ensures EarnedStrengths(a + b, s, score) == EarnedStrengths(a, s, score) + EarnedStrengths(b, s, score)
  {
    if a != [] {
      assert (a + b)[0] == a[0] && (a + b)[1..] == a[1..] + b;
      EarnedStrengthsAppend(a[1..], b, s, score);
      var x, y, z := Keep(a[0], StrengthEarned(a[0], s, score)), EarnedStrengths(a[1..], s, score),
        EarnedStrengths(b, s, score);
      assert x + (y + z) == (x + y) + z;
    } else {
      assert a + b == b;
    }
  }

  lemma {:induction false} NeededImprovementsAppend(a: seq<Improvement>, b: seq<Improvement>, s: Submission, score: int)
    ensures NeededImprovements(a + b, s, score) == NeededImprovements(a, s, score) + NeededImprovements(b, s, score)
  {
    if a != [] {
      assert (a + b)[0] == a[0] && (a + b)[1..] == a[1..] + b;
      NeededImprovementsAppend(a[1..], b, s, score);
      var x, y, z := Keep(a[0], ImprovementNeeded(a[0], s, score)), NeededImprovements(a[1..], s, score),
        NeededImprovements(b, s, score);
      assert x + (y + z) == (x + y) + z;
    } else {
      assert a + b == b;
    }
  }

  lemma {:induction false} MadeSuggestionsAppend(a: seq<Suggestion>, b: seq<Suggestion>, s: Submission, score: int)
    ensures MadeSuggestions(a + b, s, score) == MadeSuggestions(a, s, score) + MadeSuggestions(b, s, score)
  {
    if a != [] {
      assert (a + b)[0] == a[0] && (a + b)[1..] == a[1..] + b;
      MadeSuggestionsAppend(a[1..], b, s, score);
      var x, y, z := Keep(a[0], SuggestionMade(a[0], s, score)), MadeSuggestions(a[1..], s, score),
        MadeSuggestions(b, s, score);
      assert x + (y + z) == (x + y) + z;
    } else {
      assert a + b == b;
    }
  }

  /** Filtering a list extended by one message extends the filtered list by that message's place. */
  lemma EarnedStrengthsSnoc(p: seq<Strength>, m: Strength, s: Submission, score: int)
    ensures EarnedStrengths(p + [m], s, score) == EarnedStrengths(p, s, score) + Keep(m, StrengthEarned(m, s, score))
  {
    EarnedStrengthsAppend(p, [m], s, score);
    assert [m][1..] == [];
  }

  lemma NeededImprovementsSnoc(p: seq<Improvement>, m: Improvement, s: Submission, score: int)
    ensures NeededImprovements(p + [m], s, score)
         == NeededImprovements(p, s, score) + Keep(m, ImprovementNeeded(m, s, score))
  {
    NeededImprovementsAppend(p, [m], s, score);
    assert [m][1..] == [];
  }

  lemma MadeSuggestionsSnoc(p: seq<Suggestion>, m: Suggestion, s: Submission, score: int)
    ensures MadeSuggestions(p + [m], s, score) == MadeSuggestions(p, s, score) + Keep(m, SuggestionMade(m, s, score))
  {
    MadeSuggestionsAppend(p, [m], s, score);
    assert [m][1..] == [];
  }

  /** Each rule contributes, to each list, exactly the messages of its own whose conditions hold. */
  lemma RulesKeepStrengths(s: Submission, score: int)
    ensures EducationRule(s.education).strengths == Keep(DetailedEducation, StrengthEarned(DetailedEducation, s, score))
    ensures SkillRangeRule(s.skills).strengths == Keep(SkillRange, StrengthEarned(SkillRange, s, score))
    ensures TechSkillsRule(s.skills).strengths == Keep(TechnicalSkills, StrengthEarned(TechnicalSkills, s, score))
    ensures ExperienceRule(s.experience).strengths == Keep(DetailedExperience, StrengthEarned(DetailedExperience, s, score))
    ensures NumbersRule(s.experience).strengths
         == Keep(QuantifiedAchievements, StrengthEarned(QuantifiedAchievements, s, score))
    ensures LinkedInRule(s.linkedin).strengths == Keep(LinkedInProfile, StrengthEarned(LinkedInProfile, s, score))
    ensures ScoreRule(score).strengths == Keep(ExcellentQuality, StrengthEarned(ExcellentQuality, s, score))
  {
  }

  lemma RulesKeepImprovements(s: Submission, score: int)
    ensures EducationRule(s.education).improvements == Keep(EducationDetail, ImprovementNeeded(EducationDetail, s, score))
    ensures SkillRangeRule(s.skills).improvements == Keep(MoreSkills, ImprovementNeeded(MoreSkills, s, score))
    ensures TechSkillsRule(s.skills).improvements == []
    ensures ExperienceRule(s.experience).improvements
         == Keep(ExperienceDetail, ImprovementNeeded(ExperienceDetail, s, score))
    ensures NumbersRule(s.experience).improvements
         == Keep(QuantifyAchievements, ImprovementNeeded(QuantifyAchievements, s, score))
    ensures LinkedInRule(s.linkedin).improvements == []
    ensures ScoreRule(score).improvements == Keep(OverallCompleteness, ImprovementNeeded(OverallCompleteness, s, score))
  {
  }

  lemma RulesKeepSuggestions(s: Submission, score: int)
    ensures EducationRule(s.education).suggestions == Keep(DegreeDetails, SuggestionMade(DegreeDetails, s, score))
    ensures SkillRangeRule(s.skills).suggestions
         == Keep(TechnicalAndSoftSkills, SuggestionMade(TechnicalAndSoftSkills, s, score))
    ensures TechSkillsRule(s.skills).suggestions == Keep(MoreTechnicalSkills, SuggestionMade(MoreTechnicalSkills, s, score))
    ensures ExperienceRule(s.experience).suggestions
         == Keep(AchievementsAndResponsibilities, SuggestionMade(AchievementsAndResponsibilities, s, score))
    ensures NumbersRule(s.experience).suggestions == Keep(UseNumbers, SuggestionMade(UseNumbers, s, score))
    ensures LinkedInRule(s.linkedin).suggestions == Keep(AddLinkedIn, SuggestionMade(AddLinkedIn, s, score))
    ensures ScoreRule(score).suggestions == Keep(ProfessionalTemplate, SuggestionMade(ProfessionalTemplate, s, score))
  {
  }

  /** The strengths are exactly the earned ones, in rule order. */
  lemma StrengthsMatchRules(s: Submission, score: int)
    ensures AllFeedback(s, score).strengths == EarnedStrengths(StrengthOrder, s, score)
  {
    RulesKeepStrengths(s, score);
    var a := [DetailedEducation];
    assert EarnedStrengths(a, s, score) == Keep(DetailedEducation, StrengthEarned(DetailedEducation, s, score)) by {
      EarnedStrengthsSnoc([], DetailedEducation, s, score);
      assert [] + a == a;
    }
    EarnedStrengthsSnoc(a, SkillRange, s, score);
    EarnedStrengthsSnoc(a + [SkillRange], TechnicalSkills, s, score);
    EarnedStrengthsSnoc(a + [SkillRange] + [TechnicalSkills], DetailedExperience, s, score);
    EarnedStrengthsSnoc(a + [SkillRange] + [TechnicalSkills] + [DetailedExperience], QuantifiedAchievements, s, score);
    EarnedStrengthsSnoc(a + [SkillRange] + [TechnicalSkills] + [DetailedExperience] + [QuantifiedAchievements],
                        LinkedInProfile, s, score);
    EarnedStrengthsSnoc(a + [SkillRange] + [TechnicalSkills] + [DetailedExperience] + [QuantifiedAchievements]
                        + [LinkedInProfile], ExcellentQuality, s, score);
  }

  /** The two rules that never add an improvement drop out of the improvements list. */
  lemma ImprovementsFromFiveRules(s: Submission, score: int)
    ensures AllFeedback(s, score).improvements
         == EducationRule(s.education).improvements + SkillRangeRule(s.skills).improvements
          + ExperienceRule(s.experience).improvements + NumbersRule(s.experience).improvements
          + ScoreRule(score).improvements
  {
    var x := EducationRule(s.education).improvements + SkillRangeRule(s.skills).improvements;
    assert TechSkillsRule(s.skills).improvements == [];
    assert x + [] == x;
    var y := x + ExperienceRule(s.experience).improvements + NumbersRule(s.experience).improvements;
    assert LinkedInRule(s.linkedin).improvements == [];
    assert y + [] == y;
  }

  /** The improvements are exactly the needed ones, in rule order. */
  lemma ImprovementsMatchRules(s: Submission, score: int)
    ensures AllFeedback(s, score).improvements == NeededImprovements(ImprovementOrder, s, score)
  {
    RulesKeepImprovements(s, score);
    ImprovementsFromFiveRules(s, score);
    var k0 := Keep(EducationDetail, ImprovementNeeded(EducationDetail, s, score));
    var a := [EducationDetail];
    assert NeededImprovements(a, s, score) == k0 by {
      NeededImprovementsSnoc([], EducationDetail, s, score);
      assert [] + a == a;
    }
    NeededImprovementsSnoc(a, MoreSkills, s, score);
    NeededImprovementsSnoc(a + [MoreSkills], ExperienceDetail, s, score);
    NeededImprovementsSnoc(a + [MoreSkills] + [ExperienceDetail], QuantifyAchievements, s, score);
    NeededImprovementsSnoc(a + [MoreSkills] + [ExperienceDetail] + [QuantifyAchievements], OverallCompleteness, s, score);
  }

  /** The suggestions are exactly the ones made, in rule order. */
  lemma SuggestionsMatchRules(s: Submission, score: int)
    ensures AllFeedback(s, score).suggestions == MadeSuggestions(SuggestionOrder, s, score)
  {
    RulesKeepSuggestions(s, score);
    var a := [DegreeDetails];
    assert MadeSuggestions(a, s, score) == Keep(DegreeDetails, SuggestionMade(DegreeDetails, s, score)) by {
      MadeSuggestionsSnoc([], DegreeDetails, s, score);
      assert [] + a == a;
    }
    MadeSuggestionsSnoc(a, TechnicalAndSoftSkills, s, score);
    MadeSuggestionsSnoc(a + [TechnicalAndSoftSkills], MoreTechnicalSkills, s, score);
    MadeSuggestionsSnoc(a + [TechnicalAndSoftSkills] + [MoreTechnicalSkills], AchievementsAndResponsibilities, s, score);
    MadeSuggestionsSnoc(a + [TechnicalAndSoftSkills] + [MoreTechnicalSkills] + [AchievementsAndResponsibilities],
                        UseNumbers, s, score);
    MadeSuggestionsSnoc(a + [TechnicalAndSoftSkills] + [MoreTechnicalSkills] + [AchievementsAndResponsibilities]
                        + [UseNumbers], AddLinkedIn, s, score);
    MadeSuggestionsSnoc(a + [TechnicalAndSoftSkills] + [MoreTechnicalSkills] + [AchievementsAndResponsibilities]
                        + [UseNumbers] + [AddLinkedIn], ProfessionalTemplate, s, score);
  }

  lemma {:induction false} EarnedStrengthsMembers(ms: seq<Strength>, s: Submission, score: int, m: Strength)
    ensures m in EarnedStrengths(ms, s, score) <==> m in ms && StrengthEarned(m, s, score)
  {
    if ms != [] {
      EarnedStrengthsMembers(ms[1..], s, score, m);
      assert m in ms <==> m == ms[0] || m in ms[1..];
    }
  }

  lemma {:induction false} NeededImprovementsMembers(ms: seq<Improvement>, s: Submission, score: int, m: Improvement)
    ensures m in NeededImprovements(ms, s, score) <==> m in ms && ImprovementNeeded(m, s, score)
  {
    if ms != [] {
      NeededImprovementsMembers(ms[1..], s, score, m);
      assert m in ms <==> m == ms[0] || m in ms[1..];
    }
  }

  lemma {:induction false} MadeSuggestionsMembers(ms: seq<Suggestion>, s: Submission, score: int, m: Suggestion)
    ensures m in MadeSuggestions(ms, s, score) <==> m in ms && SuggestionMade(m, s, score)
  {
    if ms != [] {
      MadeSuggestionsMembers(ms[1..], s, score, m);
      assert m in ms <==> m == ms[0] || m in ms[1..];
    }
  }

  lemma {:induction false} EarnedStrengthsLength(ms: seq<Strength>, s: Submission, score: int)
    ensures |EarnedStrengths(ms, s, score)| <= |ms|
  {
    if ms != [] {
      EarnedStrengthsLength(ms[1..], s, score);
    }
  }

  lemma {:induction false} NeededImprovementsLength(ms: seq<Improvement>, s: Submission, score: int)
    ensures |NeededImprovements(ms, s, score)| <= |ms|
  {
    if ms != [] {
      NeededImprovementsLength(ms[1..], s, score);
    }
  }

  lemma {:induction false} MadeSuggestionsLength(ms: seq<Suggestion>, s: Submission, score: int)
    ensures |MadeSuggestions(ms, s, score)| <= |ms|
  {
    if ms != [] {
      MadeSuggestionsLength(ms[1..], s, score);
    }
  }

  /** Before truncation each list holds at most one message per rule that can add to it:
      7 strengths, 5 improvements and 7 suggestions. */
  lemma FeedbackSizes(s: Submission, score: int)
    ensures |AllFeedback(s, score).strengths| <= 7
    ensures |AllFeedback(s, score).improvements| <= 5
    ensures |AllFeedback(s, score).suggestions| <= 7
  {
    StrengthsMatchRules(s, score);
    EarnedStrengthsLength(StrengthOrder, s, score);
    ImprovementsMatchRules(s, score);
    NeededImprovementsLength(ImprovementOrder, s, score);
    SuggestionsMatchRules(s, score);
    MadeSuggestionsLength(SuggestionOrder, s, score);
  }

  lemma StrengthMembership(s: Submission, score: int)
    ensures forall m: Strength :: m in AllFeedback(s, score).strengths <==> StrengthEarned(m, s, score)
  {
    StrengthsMatchRules(s, score);
    forall m: Strength ensures m in AllFeedback(s, score).strengths <==> StrengthEarned(m, s, score) {
      EarnedStrengthsMembers(StrengthOrder, s, score, m);
    }
  }

  lemma ImprovementMembership(s: Submission, score: int)
    ensures forall m: Improvement :: m in AllFeedback(s, score).improvements <==> ImprovementNeeded(m, s, score)
  {
    ImprovementsMatchRules(s, score);
    forall m: Improvement ensures m in AllFeedback(s, score).improvements <==> ImprovementNeeded(m, s, score) {
      NeededImprovementsMembers(ImprovementOrder, s, score, m);
    }
  }

  lemma SuggestionMembership(s: Submission, score: int)
    ensures forall m: Suggestion :: m in AllFeedback(s, score).suggestions <==> SuggestionMade(m, s, score)
  {
    SuggestionsMatchRules(s, score);
    forall m: Suggestion ensures m in AllFeedback(s, score).suggestions <==> SuggestionMade(m, s, score) {
      MadeSuggestionsMembers(SuggestionOrder, s, score, m);
    }
  }

  /** Before truncation, each message is produced exactly when its rule's condition holds. */
  lemma FeedbackMembership(s: Submission, score: int)
    ensures forall m: Strength :: m in AllFeedback(s, score).strengths <==> StrengthEarned(m, s, score)
    ensures forall m: Improvement :: m in AllFeedback(s, score).improvements <==> ImprovementNeeded(m, s, score)
    ensures forall m: Suggestion :: m in AllFeedback(s, score).suggestions <==> SuggestionMade(m, s, score)
  {
    StrengthMembership(s, score);
    ImprovementMembership(s, score);
    SuggestionMembership(s, score);
  }

  /** The score rule: below 70 adds the completeness improvement and the template suggestion,
      above 90 adds the excellence strength, and 70 to 90 adds nothing. */
  lemma ScoreBands(s: Submission, score: int)
    ensures OverallCompleteness in AllFeedback(s, score).improvements <==> score < 70
    ensures ProfessionalTemplate in AllFeedback(s, score).suggestions <==> score < 70
    ensures ExcellentQuality in AllFeedback(s, score).strengths <==> score > 90
  {
    FeedbackMembership(s, score);
  }

  /** Exactly one of the LinkedIn strength and the LinkedIn suggestion is produced. */
  lemma LinkedInExactlyOnce(s: Submission, score: int)
    ensures LinkedInProfile in AllFeedback(s, score).strengths <==> Truthy(s.linkedin)
    ensures AddLinkedIn in AllFeedback(s, score).suggestions <==> !Truthy(s.linkedin)
  {
    FeedbackMembership(s, score);
  }

  /** When the analyze endpoint finds no ranking entry for a submission, it scores the stored
      submission itself, at most 90, so with that score the excellence strength never appears. */
  lemma ComputedScoreNeverExcellent(s: Submission)
    ensures ExcellentQuality !in AllFeedback(s, SubmissionScore(s)).strengths
  {
    StoredSubmissionGetsNoFileBonus(s, s.resumeFile);
    ScoreBands(s, SubmissionScore(s));
  }

  /** A submission with only name, email and phone, whatever score it is analysed with:
      the excellence strength and the completeness improvement depend on the score alone,
      the LinkedIn suggestion is always made, and the template suggestion follows the score. */
  lemma RequiredFieldsOnlyAnalysis(s: Submission, score: int)
    requires s.name != [] && s.email != [] && s.phone != []
    requires !Truthy(s.education) && !Truthy(s.skills) && !Truthy(s.experience) && !Truthy(s.linkedin)
    ensures AllFeedback(s, score) == Feedback(Keep(ExcellentQuality, score > 90), Keep(OverallCompleteness, score < 70),
                                              [AddLinkedIn] + Keep(ProfessionalTemplate, score < 70))
    ensures GenerateAnalysis(s, score) == AllFeedback(s, score)
  {
    var rest := ScoreRule(score);
    assert AllFeedback(s, score) == NoFeedback.Then(NoFeedback).Then(NoFeedback).Then(NoFeedback)
      .Then(NoFeedback).Then(Feedback([], [], [AddLinkedIn])).Then(rest);
    assert rest == Feedback(Keep(ExcellentQuality, score > 90), Keep(OverallCompleteness, score < 70),
                            Keep(ProfessionalTemplate, score < 70));
  }

  /** "javascript" contains both "javascript" and "java", yet counts as one technical skill. */
  lemma TokenCountsOnce()
    ensures Includes(ToLower("javascript"), TechKeywords[1]) && Includes(ToLower("javascript"), TechKeywords[3])
    ensures TechSkillCount(["javascript"]) == 1
  {
    var js := "javascript";
    assert ToLower(js) == js;
    assert StartsWith(js, TechKeywords[1]);
    assert StartsWith(js, TechKeywords[3]);
    assert IsTechSkill(js);
    assert ["javascript"][1..] == [];
  }
}
