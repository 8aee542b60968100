# Resume scoring backend — verified model

This project models the server side of a resume submission and review service
(`it107/backend/server.js`). A candidate submits a form, and the server keeps three
collections in a JSON document store:

- the submissions;
- a status record per submission, advanced by timers through
  Received → Processing → Reviewed → Completed;
- a ranking entry per submission.

The server:

- scores a submission from the presence and length of its fields;
- builds strengths, improvements and suggestions from rules over those fields and the score;
- ranks a submission among all ranking entries by score and reports its percentile;
- sorts the stored rankings for the leaderboard;
- acknowledges an export request in one of five formats.

Modules:

- `Common` — `Option`, `Result` and the error cases, and JavaScript truthiness of a
  string field (present and non-empty).
- `Text` — the string operations the rules use: `split(',')` (which keeps empty tokens),
  `trim()`, ASCII `toLowerCase()`/`toUpperCase()`, `includes`, and `/\d+/`.
- `Records` — submissions, statuses, status records, ranking entries, and the store's
  `find({id})` lookup (first match).
- `Scoring` — `calculateResumeScore`.
- `Analysis` — `generateAnalysis`. Each message is a constructor whose `Text()` is the exact
  string the server sends. Next to the rule-by-rule function it has an independent
  reference definition: for every message, the condition under which it is produced.
- `Ranking` — the two sorts (lodash `sortBy` then `reverse()`, and `Array.prototype.sort`
  with `b.score - a.score`), `findIndex`, and the percentile.
- `DocumentStore` — the `Store` class. It holds `submissions`, `statuses` and `rankings` as
  fields, and has one method per handler that changes them: submit, status update,
  status read, rankings, analyze. The format check is a function of the store.

Inputs the server draws itself are parameters of the model:

- the generated id;
- the current time;
- the random placeholder score in [60, 100];
- the uploaded file name.

The three timer callbacks are calls to `UpdateSubmissionStatus`, which `AdvanceSchedule`
and `ScheduledAdvancesMoveForward` put in order.

The strict `>` tests, the rounding of the percentile and the field names the score reads
have these consequences:

- An education text of exactly 100 characters earns 10 points, not 15, because the test
  is a strict `> 100` (server.js:184).
- A percentile is not always in [1, 100]. The position formula gives 0 to the last of
  more than 200 entries (`PercentileCanBeZero`). The model proves it is in [0, 100],
  and at least 1 when there are at most 200 entries.
- The score adds its file bonus when the object has `resumePath`. A stored submission
  has `resumeFile` instead (server.js:114, 210), so a score computed from a stored
  submission never includes that bonus and is at most 90. The model keeps that behaviour:
  `FieldsOf` maps a submission to what the score reads, with no `resumePath`.
- `/api/analyze` computes that score only when the submission has no ranking entry
  (server.js:370-383). Submitting always stores a ranking entry with the placeholder
  score, so in a store built by the handlers from an empty database every submission
  has a status record and a ranking entry (`Store.Complete`), and the analyze reply
  carries the placeholder score. The computed score is used only for a store loaded
  from an existing `db.json` whose submissions lack ranking entries.

## Model

| member | source | states |
|---|---|---|
| Text.SplitCount | it107/backend/server.js:191 | `split(',')` yields one more token than the string has commas, empty tokens included |
| Text.JoinSplit | it107/backend/server.js:191 | splitting loses nothing: joining the tokens with the separator gives back the original string |
| Text.SplitTokensHaveNoSeparator | it107/backend/server.js:439 | no token produced by the split contains the separator |
| Text.Split | it107/backend/server.js:191 | `split(',')` returns at least one token, even for the empty string |
| Text.LeadingBlanks | it107/backend/server.js:439 | the count covers exactly the whitespace run at the start: all counted characters are whitespace and the next one is not |
| Text.TrailingStart | it107/backend/server.js:439 | everything from the returned index on is whitespace, and the character before it is not |
| Text.Trim | it107/backend/server.js:439 | the result is a contiguous slice of the input, everything outside it is whitespace, and it neither starts nor ends with whitespace |
| Text.ToLower | it107/backend/server.js:450 | same length; each upper-case ASCII letter becomes the lower-case letter at the same place in the alphabet, and every other character is unchanged |
| Text.ToUpper | it107/backend/server.js:552 | same length; each lower-case ASCII letter becomes the upper-case letter at the same place in the alphabet, and every other character is unchanged |
| Text.LowerIgnoresCase | it107/backend/server.js:450 | lower-casing an upper-cased string gives the same result as lower-casing the string itself |
| Text.ToUpperToLower | it107/backend/server.js:552 | for a string without lower-case ASCII letters, lower-casing then upper-casing gives back the string |
| Text.DigitRunExists | it107/backend/server.js:470 | `/\d+/` matches exactly when some non-empty run of the string consists of digits |
| Text.IncludesAt | it107/backend/server.js:450 | `includes` holds exactly when the keyword occurs at some position of the string |
| Records.FindSubmission | it107/backend/server.js:269-271 | the lookup finds a submission iff one has the id; it returns the first such submission, which is in the store |
| Records.FindRanking | it107/backend/server.js:365-367 | the lookup finds an entry iff one has the id; it returns the first such entry, which is stored |
| Records.HasSubmissionAppend | it107/backend/server.js:119 | after a push the ids present are the old ones plus the new submission's |
| Scoring.FieldsOf | it107/backend/server.js:105-116 | the scored view of a stored submission has no `resumePath`; its name, email and phone are truthy iff non-empty, and the optional fields are passed through |
| Scoring.SubmissionScore | it107/backend/server.js:371 | the score `/api/analyze` computes for a stored submission lies in 0..90 |
| Scoring.EmptySkillTokensCount | it107/backend/server.js:191 | empty tokens count as skills: "a,,b" has three |
| Scoring.SkillsPointsMonotone | it107/backend/server.js:190-195 | more comma-separated tokens never give fewer skill points |
| Scoring.CalculateResumeScore | it107/backend/server.js:170-216 | the score is capped to the range 0..100 |
| Scoring.CapNeverBinds | it107/backend/server.js:173-213 | the field points sum to at most 5+5+5+20+20+25+10+10 = 100, so the cap never changes the score |
| Scoring.BucketBoundariesAreStrict | it107/backend/server.js:181-204 | a length of exactly 50/100/200 (50/150/300 for experience) and 5/10 skills stay in the lower bucket, one more moves up |
| Scoring.ScoreIsMonotone | it107/backend/server.js:170-216 | adding a field, lengthening a text or adding skills never lowers the score |
| Scoring.StoredSubmissionGetsNoFileBonus | it107/backend/server.js:209-210 | a stored submission never earns the file bonus, its score does not depend on the uploaded file, and it is at most 90 |
| Scoring.RequiredFieldsOnlyScore | it107/backend/server.js:176-178 | a submission with only name, email and phone scores 15 |
| Analysis.SkillTokens | it107/backend/server.js:439 | the trimmed tokens are as many as the skills the score counts |
| Analysis.TechSkillIgnoresCase | it107/backend/server.js:448-451 | the keyword test ignores case: a token is technical iff its upper-cased form is |
| Analysis.TechSkillCount | it107/backend/server.js:448-453 | the technical skills are at most the tokens |
| Analysis.TechSkillCountAppend | it107/backend/server.js:448-451 | the filter counts per token: the count over two token lists together is the sum of their counts |
| Analysis.Take | it107/backend/server.js:495-497 | `slice(0, n)` returns the first min(length, n) items |
| Analysis.FeedbackSizes | it107/backend/server.js:427-492 | before truncation at most 7 strengths, 5 improvements and 7 suggestions: one per rule that can add to each list |
| Analysis.GenerateAnalysis | it107/backend/server.js:494-498 | at most 4 strengths, 3 improvements and 4 suggestions |
| Analysis.TruncationKeepsRuleOrder | it107/backend/server.js:494-498 | each list is the first min(length, cap) messages in the order the rules produced them |
| Analysis.RulesKeepStrengths | it107/backend/server.js:428-492 | each rule adds to the strengths exactly its own strength, and only when that strength's condition holds |
| Analysis.RulesKeepImprovements | it107/backend/server.js:428-492 | each rule adds to the improvements exactly its own improvement when its condition holds; the technical-skills and LinkedIn rules add none |
| Analysis.RulesKeepSuggestions | it107/backend/server.js:428-492 | each rule adds to the suggestions exactly its own suggestion, and only when that suggestion's condition holds |
| Analysis.StrengthsMatchRules | it107/backend/server.js:428-492 | before truncation the strengths are exactly the earned strengths of the reference definition, in rule order |
| Analysis.ImprovementsMatchRules | it107/backend/server.js:428-492 | before truncation the improvements are exactly the needed improvements of the reference definition, in rule order |
| Analysis.SuggestionsMatchRules | it107/backend/server.js:428-492 | before truncation the suggestions are exactly the suggestions the reference definition makes, in rule order |
| Analysis.EarnedStrengthsMembers | it107/backend/server.js:428-492 | a strength is in the reference list iff it is listed and its condition holds |
| Analysis.NeededImprovementsMembers | it107/backend/server.js:428-492 | an improvement is in the reference list iff it is listed and its condition holds |
| Analysis.MadeSuggestionsMembers | it107/backend/server.js:428-492 | a suggestion is in the reference list iff it is listed and its condition holds |
| Analysis.StrengthMembership | it107/backend/server.js:428-492 | a strength is produced iff its condition holds |
| Analysis.ImprovementMembership | it107/backend/server.js:428-492 | an improvement is produced iff its condition holds |
| Analysis.SuggestionMembership | it107/backend/server.js:428-492 | a suggestion is produced iff its condition holds |
| Analysis.FeedbackMembership | it107/backend/server.js:428-492 | every message is produced iff its rule's condition holds |
| Analysis.ScoreBands | it107/backend/server.js:487-492 | completeness improvement and template suggestion iff score < 70; excellence strength iff score > 90 |
| Analysis.LinkedInExactlyOnce | it107/backend/server.js:480-484 | the LinkedIn strength iff a LinkedIn field is present, the LinkedIn suggestion iff not |
| Analysis.ComputedScoreNeverExcellent | it107/backend/server.js:490-491 | with the score the analyze endpoint computes for an unranked submission, the excellence strength never appears |
| Analysis.RequiredFieldsOnlyAnalysis | it107/backend/server.js:421-499 | for a required-fields-only submission and any score: the excellence strength iff the score is above 90, the completeness improvement iff below 70, always the LinkedIn suggestion, then the template suggestion iff below 70; nothing is truncated |
| Analysis.TokenCountsOnce | it107/backend/server.js:448-451 | a token matching two keywords ("javascript", "java") counts once as a technical skill |
| Ranking.InsertAscending | it107/backend/server.js:387 | inserting places the entry among the others without losing or duplicating any |
| Ranking.InsertAscendingSorted | it107/backend/server.js:387 | inserting into an ascending list keeps it ascending |
| Ranking.InsertDescending | it107/backend/server.js:332 | inserting places the entry among the others without losing or duplicating any |
| Ranking.InsertDescendingSorted | it107/backend/server.js:332 | inserting into a descending list keeps it descending |
| Ranking.InsertAscendingKeepsTies | it107/backend/server.js:387 | the inserted entry goes in front of the entries that tie with it, and each tie group is otherwise unchanged |
| Ranking.InsertDescendingKeepsTies | it107/backend/server.js:332 | the inserted entry goes in front of the entries that tie with it, and each tie group is otherwise unchanged |
| Ranking.SortByScore | it107/backend/server.js:387 | the result is in ascending score order and is a permutation of the entries |
| Ranking.SortDescending | it107/backend/server.js:332 | the result is in descending score order and is a permutation of the entries |
| Ranking.SortByScoreIsStable | it107/backend/server.js:387 | entries with equal scores keep their stored order |
| Ranking.SortDescendingIsStable | it107/backend/server.js:332 | entries with equal scores keep their stored order |
| Ranking.AnalysisOrder | it107/backend/server.js:386-389 | the sorted order holds as many entries as the store |
| Ranking.ReverseAt | it107/backend/server.js:388 | `reverse()` puts the k-th entry from the end at place k |
| Ranking.AnalysisOrderIsDescending | it107/backend/server.js:386-389 | the sort-then-reverse order is descending by score and a permutation of the entries |
| Ranking.AnalysisOrderReversesTies | it107/backend/server.js:386-389 | in the analysis order, entries with equal scores appear in the reverse of their stored order |
| Ranking.ReverseMultiset | it107/backend/server.js:388 | reversing keeps the same entries |
| Ranking.IndexOfId | it107/backend/server.js:392 | -1 iff no entry has the id; otherwise the first index holding it |
| Ranking.HasRankingPermutation | it107/backend/server.js:386-392 | sorting neither adds nor loses an id |
| Ranking.Percentile | it107/backend/server.js:393-394 | 50 when not found; otherwise in 0..100 and equal to 100·(n−p)/n rounded half up |
| Ranking.ReportedPosition | it107/backend/server.js:405 | a found index is reported 1-based; not found is reported as 1 |
| Ranking.TopIsHundredth | it107/backend/server.js:393-394 | the first place is at the 100th percentile |
| Ranking.PercentileIsMonotone | it107/backend/server.js:393-394 | a lower place never has a higher percentile |
| Ranking.LastPercentile | it107/backend/server.js:393-394 | the last of n places gets 100/n rounded half up |
| Ranking.PercentileAtLeastOne | it107/backend/server.js:393-394 | with at most 200 entries a found entry's percentile is at least 1 |
| Ranking.PercentileCanBeZero | it107/backend/server.js:393-394 | the last of 301 entries is at the 0th percentile |
| Ranking.UniqueTopIsFirst | it107/backend/server.js:386-392 | an entry that outscores all others is found at position 0 |
| DocumentStore.NewSubmission | it107/backend/server.js:105-116 | the stored submission carries the new id, the form's name, the uploaded file name and the submission time |
| DocumentStore.UpdatedStatuses | it107/backend/server.js:67-88 | an unknown id changes nothing; otherwise only that record's status and time change, its history and every other record are kept |
| DocumentStore.GetOrCreateStatus | it107/backend/server.js:281-306 | the returned record is stored under the id; existing records are kept; a new one is Received with a one-entry history |
| DocumentStore.GetOrCreateIsIdempotent | it107/backend/server.js:281-306 | a second status read returns the first read's record and writes nothing |
| DocumentStore.ScheduledAdvancesMoveForward | it107/backend/server.js:149-159 | the three timed advances run in order, move a Received record one stage each, end at Completed and keep its history |
| DocumentStore.WithRanking | it107/backend/server.js:364-383 | afterwards the id is ranked; an existing entry leaves the list unchanged, otherwise the new entry is appended |
| DocumentStore.WithRankingIsIdempotent | it107/backend/server.js:364-383 | a second analysis adds no second ranking entry |
| DocumentStore.AnalysisReport | it107/backend/server.js:385-410 | the reply names the submission, counts every ranking entry, carries the score of the first entry with the id, and the analysis for that score |
| DocumentStore.TrackedIsRanked | it107/backend/server.js:364-371 | in a store where every submission has its entries, a found submission is already ranked, so the lazy insert does not run |
| DocumentStore.TrackedAppendRanking | it107/backend/server.js:119-139 | another ranking entry keeps every submission ranked |
| DocumentStore.AnalysisReportStanding | it107/backend/server.js:385-406 | once ranked, the reported position is the first place of the id in the analysis order (never the fallback), the total is the entry count, and the percentile is in 0..100, 100 at the top and at least 1 up to 200 entries |
| DocumentStore.Store.constructor | it107/backend/server.js:26-27 | the store starts with no submissions, statuses or rankings, and so every submission has its status and ranking |
| DocumentStore.Store.Submit | it107/backend/server.js:91-139 | a form missing name, email or phone is rejected and changes nothing; otherwise the submission, a Received status and the placeholder ranking are stored; every status and ranking still belongs to a submission, and every submission keeps a status and a ranking |
| DocumentStore.Store.UpdateSubmissionStatus | it107/backend/server.js:67-88 | the statuses become `UpdatedStatuses` of the old ones, and both store invariants are kept |
| DocumentStore.Store.GetStatus | it107/backend/server.js:264-307 | not found for an unknown submission, with nothing written; otherwise get-or-create of its status; both store invariants are kept |
| DocumentStore.Store.Rankings | it107/backend/server.js:318-345 | the stored rankings are replaced by their stable descending sort, which is returned; both store invariants are kept |
| DocumentStore.Store.Analyze | it107/backend/server.js:348-418 | not found for an unknown submission; otherwise the computed-score entry is added when none exists, and the reply is the report (`AnalysisReport`) of the first stored entry with the id; in a store where every submission has its entries, the rankings are left unchanged |
| DocumentStore.Store.Format | it107/backend/server.js:522-563 | not found takes precedence; otherwise invalid iff the format is not pdf, docx, txt, json or html; on success the reply echoes the format and id |

## Left out

- Rendering and routing are left out: the frontend, the Express routing, CORS and body
  parsing, the HTTP status codes and the JSON envelope (`success`, `message`). The outcome
  of each handler is modelled as a `Result` with the error cases `MissingFields`,
  `NotFound` and `InvalidFormat`.
- Persistence is left out: the file-backed database (`write()`), the start-up migration
  of old data, the multer upload to disk (its PDF-only filter and 5 MB limit, which fail
  the request before the handler runs) and the static file route. The store is modelled
  as in-memory fields.
- The `try`/`catch` paths that answer 500 are left out. The model throws nothing
  because every form field is a string in it.
- Form fields are modelled as optional strings (`SubmitForm`, `Submission`). The JSON and
  URL-encoded body parsers (server.js:63-64) let `/api/submit` store any JSON value in a
  field. A truthy `skills` that is not a string makes `split` throw (server.js:191, 439),
  so `/api/analyze` answers 500. A non-string `education` or `experience` is scored through
  its `.length`: an array's element count, or, for a number or an object, undefined,
  which falls in the lowest bucket. Neither case is modelled.
- `GET /api/submissions`, `GET /api/submissions/:id` and `POST /api/feedback` are left
  out. They read or log data and change nothing.
- Time, id generation and randomness are parameters, not modelled. The model does not
  capture uniqueness of generated ids. A repeated id is looked up by first match, as
  `find` does.
- The timers are left out as timers. Their three callbacks are explicit
  `UpdateSubmissionStatus` calls; the 30/60/90-second delays fix only their order.
- Ranking.Percentile: the result is computed in exact integer arithmetic
  (round-half-up of 100·(n−p)/n). It does not model floating-point error at an exact half.
- Scoring.EducationPoints, Scoring.ExperiencePoints, Analysis.EducationRule and
  Analysis.ExperienceRule compare the length of a text in characters (Unicode scalar
  values). JavaScript's `.length` counts UTF-16 code units, so a text with characters
  outside the Basic Multilingual Plane is longer there (server.js:182-184, 199-203, 429, 462).
- Text.ToLower and Text.ToUpper map ASCII letters only. Other letters are left
  unchanged rather than case-mapped as JavaScript does.
- Text.IsWhitespace follows the ECMAScript whitespace set. It is not tied to any
  particular Unicode version's space separators.
