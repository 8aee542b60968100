/** The document store and the request handlers that change it: submitting a
    resume, advancing a status, reading a status (created on first read),
    listing the rankings (sorted in place), analysing a submission (ranked on
    first analysis) and requesting an export format. */
module DocumentStore {
  import opened Common
  import opened Text
  import opened Records
  import opened Scoring
  import opened Analysis
  import opened Ranking

  /** The multipart form fields of `/api/submit`; any of them may be missing. */
  datatype SubmitForm = SubmitForm(
    name: Option<string>,
    email: Option<string>,
    phone: Option<string>,
    education: Option<string>,
    skills: Option<string>,
    experience: Option<string>,
    linkedin: Option<string>)

  /** name, email and phone must all be present and non-empty. */
  predicate HasRequiredFields(form: SubmitForm)
  {
    Truthy(form.name) && Truthy(form.email) && Truthy(form.phone)
  }

  /** The stored submission: the form's fields as given, the upload's file name, the time. */
  function NewSubmission(form: SubmitForm, id: Id, file: Option<string>, now: Timestamp): (s: Submission)
    requires HasRequiredFields(form)
    ensures s.id == id && s.name == form.name.value && s.resumeFile == file && s.date == now
  {
    Submission(id, form.name.value, form.email.value, form.phone.value, form.education,
               form.skills, form.experience, form.linkedin, file, now)
  }

  /** `updateSubmissionStatus`: rewrites the status and time of an existing record,
      keeping its other fields; does nothing for an unknown id. */
  function UpdatedStatuses(statuses: map<Id, StatusRecord>, id: Id, newStatus: Status, now: Timestamp)
    : (r: map<Id, StatusRecord>)
    ensures id !in statuses ==> r == statuses
    ensures r.Keys == statuses.Keys
    ensures id in statuses ==>
      r[id].status == newStatus && r[id].lastUpdated == now && r[id].history == statuses[id].history
    ensures forall k | k in statuses && k != id :: r[k] == statuses[k]
  {
    if id in statuses then statuses[id := statuses[id].(status := newStatus, lastUpdated := now)]
    else statuses
  }

  /** The record a status read creates: Received, with a one-entry history. */
  function DefaultStatus(now: Timestamp): StatusRecord
  {
    StatusRecord(Received, now, Some([HistoryEntry(Received, now)]))
  }

  /** Get-or-create of a status record: the existing record unchanged, or the default
      record, inserted. */
  function GetOrCreateStatus(statuses: map<Id, StatusRecord>, id: Id, now: Timestamp)
    : (r: (map<Id, StatusRecord>, StatusRecord))
    ensures id in r.0 && r.0[id] == r.1
    ensures r.0.Keys == statuses.Keys + {id}
    ensures forall k | k in statuses :: r.0[k] == statuses[k]
    ensures id !in statuses ==> r.1.status == Received && r.1.history == Some([HistoryEntry(Received, now)])
  {
    if id in statuses then (statuses, statuses[id])
    else (statuses[id := DefaultStatus(now)], DefaultStatus(now))
  }

  /** Reading a status twice writes at most once: the second read returns the first
      read's record and leaves the store as the first read left it. */
  lemma GetOrCreateIsIdempotent(statuses: map<Id, StatusRecord>, id: Id, t1: Timestamp, t2: Timestamp)
    ensures var first := GetOrCreateStatus(statuses, id, t1);
      GetOrCreateStatus(first.0, id, t2) == first
  {
  }

  /** The delays (in milliseconds after submission) and targets of the three status advances. */
  const AdvanceSchedule: seq<(nat, Status)> := [(30000, Processing), (60000, Reviewed), (90000, Completed)]

  /** Run in the order of their delays, the scheduled advances move a fresh record
      one stage forward each time, end at Completed and keep its history. */
  lemma ScheduledAdvancesMoveForward(statuses: map<Id, StatusRecord>, id: Id, t1: Timestamp, t2: Timestamp, t3: Timestamp)
    requires id in statuses && statuses[id].status == Received
    ensures var m1 := UpdatedStatuses(statuses, id, AdvanceSchedule[0].1, t1);
      var m2 := UpdatedStatuses(m1, id, AdvanceSchedule[1].1, t2);
      var m3 := UpdatedStatuses(m2, id, AdvanceSchedule[2].1, t3);
      && Stage(m1[id].status) == Stage(statuses[id].status) + 1
      && Stage(m2[id].status) == Stage(m1[id].status) + 1
      && Stage(m3[id].status) == Stage(m2[id].status) + 1
      && m3[id].status == Completed
      && m3[id].history == statuses[id].history
  {
  }

  /** The lazy insert of `/api/analyze`: adds `entry` only when no entry has the id. */
  function WithRanking(rankings: seq<RankingEntry>, id: Id, entry: RankingEntry): (r: seq<RankingEntry>)
    requires entry.id == id
    ensures HasRanking(r, id)
    ensures HasRanking(rankings, id) ==> r == rankings
    ensures !HasRanking(rankings, id) ==> r == rankings + [entry]
  {
    if FindRanking(rankings, id).Some? then rankings
    else
      assert (rankings + [entry])[|rankings|].id == id;
      rankings + [entry]
  }

  /** A second analysis of the same id adds no second entry. */
  lemma WithRankingIsIdempotent(rankings: seq<RankingEntry>, id: Id, e1: RankingEntry, e2: RankingEntry)
    requires e1.id == id && e2.id == id
    ensures WithRanking(WithRanking(rankings, id, e1), id, e2) == WithRanking(rankings, id, e1)
  {
  }

  /** The data `/api/analyze` returns. */
  datatype AnalyzeReply = AnalyzeReply(
    id: Id,
    score: int,
    percentile: int,
    position: int,
    totalResumes: nat,
    feedback: Feedback,
    analyzedAt: Timestamp)

  /** The reply for `sub` once the rankings hold an entry for it: the score of the first
      stored entry with its id, its standing in the `sortBy('score').reverse()` order,
      and the analysis for that score. */
  function AnalysisReport(rankings: seq<RankingEntry>, sub: Submission, now: Timestamp): (r: AnalyzeReply)
    requires HasRanking(rankings, sub.id)
    ensures r.id == sub.id && r.totalResumes == |rankings| && r.analyzedAt == now
    ensures exists i | 0 <= i < |rankings| ::
      && rankings[i].id == sub.id && rankings[i].score == r.score
      && forall j | 0 <= j < i :: rankings[j].id != sub.id
    ensures r.feedback == GenerateAnalysis(sub, r.score)
  {
    var info := FindRanking(rankings, sub.id).value;
    var order := AnalysisOrder(rankings);
    AnalysisOrderIsDescending(rankings);
    var position := IndexOfId(order, sub.id);
    AnalyzeReply(sub.id, info.score, Percentile(position, |order|), ReportedPosition(position), |order|,
                 GenerateAnalysis(sub, info.score), now)
  }

  /** Once ranked, the submission is always found in the sorted order: the reported position
      is its 1-based place among all entries, none before it shares its id, and the percentile
      is the rounded 100 (n - p) / n of that place (never the 50 fallback): 100 for the first
      place and at least 1 while there are at most 200 entries. */
  lemma AnalysisReportStanding(rankings: seq<RankingEntry>, sub: Submission, now: Timestamp)
    requires HasRanking(rankings, sub.id)
    ensures var r, order := AnalysisReport(rankings, sub, now), AnalysisOrder(rankings);
      && r.totalResumes == |rankings| == |order|
      && 1 <= r.position <= r.totalResumes
      && order[r.position - 1].id == sub.id
      && (forall j | 0 <= j < r.position - 1 :: order[j].id != sub.id)
      && r.percentile == Percentile(r.position - 1, |order|)
      && 0 <= r.percentile <= 100
      && (r.position == 1 ==> r.percentile == 100)
      && (|order| <= 200 ==> r.percentile >= 1)
  {
    var order := AnalysisOrder(rankings);
    AnalysisOrderIsDescending(rankings);
    HasRankingPermutation(rankings, order, sub.id);
    var p := IndexOfId(order, sub.id);
    var n := |order|;
    assert |multiset(order)| == n && |multiset(rankings)| == |rankings|;
    var r := AnalysisReport(rankings, sub, now);
    assert p >= 0;
    assert r.position - 1 == p && r.totalResumes == n;
    var pc := Percentile(p, n);
    assert r.percentile == pc;
    if p == 0 {
      TopIsHundredth(n);
    }
    if n <= 200 {
      PercentileAtLeastOne(p, n);
    }
  }

  /** Every status record and every ranking entry belongs to a submission. */
  ghost predicate Owned(subs: seq<Submission>, statuses: map<Id, StatusRecord>, rankings: seq<RankingEntry>)
  {
    && (forall id | id in statuses :: HasSubmission(subs, id))
    && (forall i | 0 <= i < |rankings| :: HasSubmission(subs, rankings[i].id))
  }

  /** A ranking entry for a stored submission keeps every entry owned. */
  lemma OwnedAppendRanking(subs: seq<Submission>, statuses: map<Id, StatusRecord>, rankings: seq<RankingEntry>,
                           e: RankingEntry)
    requires Owned(subs, statuses, rankings) && HasSubmission(subs, e.id)
    ensures Owned(subs, statuses, rankings + [e])
  {
    forall i | 0 <= i < |rankings| + 1 ensures HasSubmission(subs, (rankings + [e])[i].id) {
      if i < |rankings| {
        assert (rankings + [e])[i] == rankings[i];
      }
    }
  }

  /** Every submission has a status record and a ranking entry. Submitting creates both,
      and no handler removes either, so a store that starts empty keeps this; the lazy
      ranking of `/api/analyze` only acts on a store where it fails. */
  ghost predicate Tracked(subs: seq<Submission>, statuses: map<Id, StatusRecord>, rankings: seq<RankingEntry>)
  {
    forall i | 0 <= i < |subs| :: subs[i].id in statuses && HasRanking(rankings, subs[i].id)
  }

  lemma TrackedIsRanked(subs: seq<Submission>, statuses: map<Id, StatusRecord>, rankings: seq<RankingEntry>, id: Id)
    requires Tracked(subs, statuses, rankings) && HasSubmission(subs, id)
    ensures HasRanking(rankings, id)
  {
    var i :| 0 <= i < |subs| && subs[i].id == id;
  }

  /** Another ranking entry keeps every submission ranked. */
  lemma TrackedAppendRanking(subs: seq<Submission>, statuses: map<Id, StatusRecord>, rankings: seq<RankingEntry>,
                             e: RankingEntry)
    requires Tracked(subs, statuses, rankings)
    ensures Tracked(subs, statuses, rankings + [e])
  {
    forall i | 0 <= i < |subs| ensures HasRanking(rankings + [e], subs[i].id) {
      HasRankingAppend(rankings, e, subs[i].id);
    }
  }

  const ValidFormats: seq<string> := ["pdf", "docx", "txt", "json", "html"]

  /** The acknowledgement `/api/format/:id/:format` returns. */
  datatype FormatReply = FormatReply(message: string, format: string, resumeId: Id)

  class Store {
    var submissions: seq<Submission>
    var statuses: map<Id, StatusRecord>
    var rankings: seq<RankingEntry>

    /** Every status record and every ranking entry belongs to a stored submission. */
    ghost predicate Valid()
      reads this
    {
      Owned(submissions, statuses, rankings)
    }

    /** Every stored submission has a status record and a ranking entry. */
    ghost predicate Complete()
      reads this
    {
      Tracked(submissions, statuses, rankings)
    }

    /** `db.defaults({ submissions: [], statuses: {}, rankings: [] })`. */
    constructor ()
      ensures Valid() && Complete()
      ensures submissions == [] && statuses == map[] && rankings == []
    {
      submissions, statuses, rankings := [], map[], [];
    }

    /** `POST /api/submit`: rejects a form without name, email or phone; otherwise stores
        the submission, a Received status and a ranking entry with the placeholder score
        (drawn by the server in [60, 100]), and returns the new id. */
    method Submit(form: SubmitForm, id: Id, file: Option<string>, now: Timestamp, placeholder: int)
      returns (r: Result<Id>)
      requires Valid()
      requires 60 <= placeholder <= 100
      modifies this
      ensures Valid()
      ensures old(Complete()) ==> Complete()
      ensures !HasRequiredFields(form) ==> r == Err(MissingFields) && unchanged(this)
      ensures HasRequiredFields(form) ==>
        && r == Ok(id)
        && submissions == old(submissions) + [NewSubmission(form, id, file, now)]
        && statuses == old(statuses)[id := StatusRecord(Received, now, None)]
        && rankings == old(rankings) + [RankingEntry(id, form.name.value, placeholder, now)]
    {
      if !HasRequiredFields(form) {
        return Err(MissingFields);
      }
      var sub := NewSubmission(form, id, file, now);
      forall k | k in statuses ensures HasSubmission(submissions + [sub], k) {
        HasSubmissionAppend(submissions, sub, k);
      }
      forall i | 0 <= i < |rankings| ensures HasSubmission(submissions + [sub], rankings[i].id) {
        HasSubmissionAppend(submissions, sub, rankings[i].id);
      }
      HasSubmissionAppend(submissions, sub, id);
      var entry := RankingEntry(id, sub.name, placeholder, sub.date);
      if Complete() {
        TrackedAppendRanking(submissions, statuses, rankings, entry);
      }
      HasRankingAppend(rankings, entry, id);
      submissions := submissions + [sub];
      statuses := statuses[id := StatusRecord(Received, now, None)];
      rankings := rankings + [entry];
      r := Ok(id);
    }

    /** `updateSubmissionStatus(id, newStatus)`, as each scheduled advance calls it. */
    method UpdateSubmissionStatus(id: Id, newStatus: Status, now: Timestamp)
      requires Valid()
      modifies this`statuses
      ensures Valid()
      ensures old(Complete()) ==> Complete()
      ensures statuses == UpdatedStatuses(old(statuses), id, newStatus, now)
    {
      if id in statuses {
        var record := statuses[id];
        statuses := statuses[id := record.(status := newStatus, lastUpdated := now)];
      }
    }

    /** `GET /api/status/:id`: not found for an unknown submission; otherwise the status
        record, created and stored on first read. */
    method GetStatus(id: Id, now: Timestamp) returns (r: Result<StatusRecord>)
      requires Valid()
      modifies this`statuses
      ensures Valid()
      ensures old(Complete()) ==> Complete()
      ensures !HasSubmission(submissions, id) ==> r == Err(NotFound) && statuses == old(statuses)
      ensures HasSubmission(submissions, id) ==>
        && statuses == GetOrCreateStatus(old(statuses), id, now).0
        && r == Ok(GetOrCreateStatus(old(statuses), id, now).1)
    {
      if FindSubmission(submissions, id).None? {
        return Err(NotFound);
      }
      if id in statuses {
        return Ok(statuses[id]);
      }
      var record := DefaultStatus(now);
      statuses := statuses[id := record];
      r := Ok(record);
    }

    /** `GET /api/rankings`: sorts the stored rankings in place, highest score first
        (ties keep their stored order), and returns them. */
    method Rankings() returns (r: seq<RankingEntry>)
      requires Valid()
      modifies this`rankings
      ensures Valid()
      ensures old(Complete()) ==> Complete()
      ensures rankings == SortDescending(old(rankings))
      ensures r == rankings
    {
      if |rankings| == 0 {
        return [];
      }
      var sorted := SortDescending(rankings);
      forall i | 0 <= i < |sorted| ensures HasSubmission(submissions, sorted[i].id) {
        assert sorted[i] in multiset(rankings);
        var j :| 0 <= j < |rankings| && rankings[j] == sorted[i];
      }
      forall i | 0 <= i < |submissions| ensures HasRanking(sorted, submissions[i].id) <==> HasRanking(rankings, submissions[i].id) {
        HasRankingPermutation(rankings, sorted, submissions[i].id);
      }
      rankings := sorted;
      r := rankings;
    }

    /** `GET /api/analyze/:id`: not found for an unknown submission; otherwise ranks the
        submission with its computed score if it has no ranking entry yet, and reports
        its score, standing and analysis. */
    method Analyze(id: Id, now: Timestamp) returns (r: Result<AnalyzeReply>)
      requires Valid()
      modifies this`rankings
      ensures Valid()
      ensures old(Complete()) ==> Complete() && rankings == old(rankings)
      ensures !HasSubmission(submissions, id) ==> r == Err(NotFound) && rankings == old(rankings)
      ensures HasSubmission(submissions, id) ==>
        var sub := FindSubmission(submissions, id).value;
        && rankings == WithRanking(old(rankings), id, RankingEntry(id, sub.name, SubmissionScore(sub), now))
        && HasRanking(rankings, id)
        && r == Ok(AnalysisReport(rankings, sub, now))
    {
      var found := FindSubmission(submissions, id);
      if found.None? {
        return Err(NotFound);
      }
      var sub := found.value;
      if Complete() {
        TrackedIsRanked(submissions, statuses, rankings, id);
      }
      var rankInfo := FindRanking(rankings, id);
      if rankInfo.None? {
        var entry := RankingEntry(id, sub.name, SubmissionScore(sub), now);
        HasRankingAppend(rankings, entry, id);
        OwnedAppendRanking(submissions, statuses, rankings, entry);
        rankings := rankings + [entry];
      }
      r := Ok(AnalysisReport(rankings, sub, now));
    }

    /** `GET /api/format/:id/:format`: not found for an unknown submission, then invalid
        for a format outside pdf, docx, txt, json and html; otherwise the acknowledgement. */
    function Format(id: Id, format: string): (r: Result<FormatReply>)
      reads this
      ensures !HasSubmission(submissions, id) ==> r == Err(NotFound)
      ensures HasSubmission(submissions, id) && format !in ValidFormats ==> r == Err(InvalidFormat)
      ensures r.Ok? <==> HasSubmission(submissions, id) && format in ValidFormats
      ensures r.Ok? ==> r.value.format == format && r.value.resumeId == id
    {
      if FindSubmission(submissions, id).None? then Err(NotFound)
      else if format !in ValidFormats then Err(InvalidFormat)
      else Ok(FormatReply("Resume successfully generated in " + ToUpper(format) + " format. Download started.",
                          format, id))
    }
  }
}
