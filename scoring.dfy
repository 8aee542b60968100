/** The scoring engine, `calculateResumeScore`: a point count over field
    presence, string lengths and comma-separated token counts, capped at 100. */
module Scoring {
  import opened Common
  import opened Text
  import opened Records

  /** The properties of the object `calculateResumeScore` reads. The function
      asks for `resumePath`, a property no stored submission has. */
  datatype ScoredObject = ScoredObject(
    name: Option<string>,
    email: Option<string>,
    phone: Option<string>,
    education: Option<string>,
    skills: Option<string>,
    experience: Option<string>,
    linkedin: Option<string>,
    resumePath: Option<string>)

  /** The view of a stored submission: it carries `resumeFile`, so `resumePath` is absent. */
  function FieldsOf(s: Submission): (o: ScoredObject)
    ensures o.resumePath == None
    ensures Truthy(o.name) <==> s.name != []
    ensures Truthy(o.email) <==> s.email != []
    ensures Truthy(o.phone) <==> s.phone != []
    ensures o.education == s.education && o.skills == s.skills
    ensures o.experience == s.experience && o.linkedin == s.linkedin
  {
    ScoredObject(Some(s.name), Some(s.email), Some(s.phone), s.education, s.skills,
                 s.experience, s.linkedin, None)
  }

  /** +5 for a present name, email or phone. */
  function PresencePoints(field: Option<string>): nat
  {
    if Truthy(field) then 5 else 0
  }

  /** Education by length: >200 gives 20, >100 gives 15, >50 gives 10, otherwise 5. */
  function EducationPoints(education: Option<string>): nat
  {
    if !Truthy(education) then 0
    else
      var n := |education.value|;
      if n > 200 then 20 else if n > 100 then 15 else if n > 50 then 10 else 5
  }

  /** The `split(',').length` of the skills field. */
  function SkillsCount(skills: string): nat
  {
    |Split(skills, ',')|
  }

  /** Skills by token count: >10 gives 20, >5 gives 15, otherwise 10. */
  function SkillsPoints(skills: Option<string>): nat
  {
    if !Truthy(skills) then 0
    else
      var n := SkillsCount(skills.value);
      if n > 10 then 20 else if n > 5 then 15 else 10
  }

  /** Experience by length: >300 gives 25, >150 gives 20, >50 gives 10, otherwise 5. */
  function ExperiencePoints(experience: Option<string>): nat
  {
    if !Truthy(experience) then 0
    else
      var n := |experience.value|;
      if n > 300 then 25 else if n > 150 then 20 else if n > 50 then 10 else 5
  }

  /** +10 for a present LinkedIn profile or resume path. */
  function BonusPoints(field: Option<string>): nat
  {
    if Truthy(field) then 10 else 0
  }

  /** The sum before `Math.min(score, 100)`. */
  function RawScore(o: ScoredObject): nat
  {
    PresencePoints(o.name) + PresencePoints(o.email) + PresencePoints(o.phone)
    + EducationPoints(o.education) + SkillsPoints(o.skills) + ExperiencePoints(o.experience)
    + BonusPoints(o.linkedin) + BonusPoints(o.resumePath)
  }

  /** `calculateResumeScore(submission)`. */
  function CalculateResumeScore(o: ScoredObject): (score: int)
    ensures 0 <= score <= 100
  {
    Min(RawScore(o), 100)
  }

  /** The score of a stored submission, as `/api/analyze` computes it. */
  function SubmissionScore(s: Submission): (score: int)
    ensures 0 <= score <= 90
  {
    CalculateResumeScore(FieldsOf(s))
  }

  /** The terms add up to at most 15+20+20+25+10+10 = 100, so the cap never changes the sum. */
  lemma CapNeverBinds(o: ScoredObject)
    ensures RawScore(o) <= 100
    ensures CalculateResumeScore(o) == RawScore(o)
  {
  }

  /** The length and count buckets use strict `>`: a length of exactly 50, 100 or 200
      (150 or 300 for experience) and a count of exactly 5 or 10 stay in the lower bucket. */
  lemma BucketBoundariesAreStrict(text: string)
    ensures |text| == 50 ==> EducationPoints(Some(text)) == 5 && ExperiencePoints(Some(text)) == 5
    ensures |text| == 51 ==> EducationPoints(Some(text)) == 10 && ExperiencePoints(Some(text)) == 10
    ensures |text| == 100 ==> EducationPoints(Some(text)) == 10
    ensures |text| == 101 ==> EducationPoints(Some(text)) == 15
    ensures |text| == 200 ==> EducationPoints(Some(text)) == 15
    ensures |text| == 201 ==> EducationPoints(Some(text)) == 20
    ensures |text| == 150 ==> ExperiencePoints(Some(text)) == 10
    ensures |text| == 151 ==> ExperiencePoints(Some(text)) == 20
    ensures |text| == 300 ==> ExperiencePoints(Some(text)) == 20
    ensures |text| == 301 ==> ExperiencePoints(Some(text)) == 25
    ensures text != [] && Occurrences(text, ',') == 4 ==> SkillsPoints(Some(text)) == 10
    ensures Occurrences(text, ',') == 5 ==> SkillsPoints(Some(text)) == 15
    ensures Occurrences(text, ',') == 9 ==> SkillsPoints(Some(text)) == 15
    ensures Occurrences(text, ',') == 10 ==> SkillsPoints(Some(text)) == 20
  {
    SplitCount(text, ',');
  }

  /** Empty tokens count: "a,,b" is three skills. */
  lemma EmptySkillTokensCount()
    ensures SkillsCount("a,,b") == 3
  {
    SplitCount("a,,b", ',');
    assert "a,,b"[1..] == ",,b";
    assert ",,b"[1..] == ",b";
    assert ",b"[1..] == "b";
  }

  /** `g` is present wherever `f` is. */
  predicate PresentWhere(f: Option<string>, g: Option<string>)
  {
    Truthy(f) ==> Truthy(g)
  }

  /** `g` is present wherever `f` is, and at least as long. */
  predicate LongerWhere(f: Option<string>, g: Option<string>)
  {
    Truthy(f) ==> Truthy(g) && |f.value| <= |g.value|
  }

  /** `g` is present wherever `f` is, with at least as many commas. */
  predicate MoreTokensWhere(f: Option<string>, g: Option<string>)
  {
    Truthy(f) ==> Truthy(g) && Occurrences(f.value, ',') <= Occurrences(g.value, ',')
  }

  /** `g` has every field `f` has, at least as long and with at least as many skill tokens. */
  predicate Dominates(f: ScoredObject, g: ScoredObject)
  {
    && PresentWhere(f.name, g.name) && PresentWhere(f.email, g.email) && PresentWhere(f.phone, g.phone)
    && LongerWhere(f.education, g.education) && MoreTokensWhere(f.skills, g.skills)
    && LongerWhere(f.experience, g.experience)
    && PresentWhere(f.linkedin, g.linkedin) && PresentWhere(f.resumePath, g.resumePath)
  }

  lemma SkillsPointsMonotone(f: Option<string>, g: Option<string>)
    requires MoreTokensWhere(f, g)
    ensures SkillsPoints(f) <= SkillsPoints(g)
  {
    if Truthy(f) {
      SplitCount(f.value, ',');
      SplitCount(g.value, ',');
    }
  }

  /** Adding a field, lengthening a text or listing more skills never lowers the score. */
  lemma ScoreIsMonotone(f: ScoredObject, g: ScoredObject)
    requires Dominates(f, g)
    ensures CalculateResumeScore(f) <= CalculateResumeScore(g)
  {
    SkillsPointsMonotone(f.skills, g.skills);
    assert EducationPoints(f.education) <= EducationPoints(g.education);
    assert ExperiencePoints(f.experience) <= ExperiencePoints(g.experience);
    CapNeverBinds(f);
    CapNeverBinds(g);
  }

  /** The resume-file bonus is never awarded to a stored submission: the score does not
      depend on `resumeFile`, and it is at most 90. */
  lemma StoredSubmissionGetsNoFileBonus(s: Submission, file: Option<string>)
    ensures BonusPoints(FieldsOf(s).resumePath) == 0
    ensures SubmissionScore(s.(resumeFile := file)) == SubmissionScore(s)
    ensures SubmissionScore(s) <= 90
  {
  }

  /** A submission with only the three required fields scores 15. */
  lemma RequiredFieldsOnlyScore(s: Submission)
    requires s.name != [] && s.email != [] && s.phone != []
    requires !Truthy(s.education) && !Truthy(s.skills) && !Truthy(s.experience) && !Truthy(s.linkedin)
    ensures SubmissionScore(s) == 15
  {
  }
}
