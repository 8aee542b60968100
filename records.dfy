/** The three collections of the document store and their element types:
    submissions, status records keyed by submission id, and ranking entries. */
module Records {
  import opened Common

  /** A stored submission as `/api/submit` builds it. The optional fields keep
      whatever the form carried (absent, or a possibly empty string);
      `resumeFile` is the uploaded file's stored name, or null. */
  datatype Submission = Submission(
    id: Id,
    name: string,
    email: string,
    phone: string,
    education: Option<string>,
    skills: Option<string>,
    experience: Option<string>,
    linkedin: Option<string>,
    resumeFile: Option<string>,
    date: Timestamp)

  /** The review stages, in the order the scheduled advances visit them. */
  datatype Status = Received | Processing | Reviewed | Completed

  /** Position of a stage in the forward sequence. */
  function Stage(s: Status): nat
  {
    match s
    case Received => 0
    case Processing => 1
    case Reviewed => 2
    case Completed => 3
  }

  datatype HistoryEntry = HistoryEntry(status: Status, timestamp: Timestamp)

  /** `history` is present only on records created lazily by a status read. */
  datatype StatusRecord = StatusRecord(
    status: Status,
    lastUpdated: Timestamp,
    history: Option<seq<HistoryEntry>>)

  datatype RankingEntry = RankingEntry(id: Id, name: string, score: int, date: Timestamp)

  predicate HasSubmission(subs: seq<Submission>, id: Id)
  {
    exists i | 0 <= i < |subs| :: subs[i].id == id
  }

  /** lowdb's `find({id})`: the first submission with that id, if any. */
  function FindSubmission(subs: seq<Submission>, id: Id): (r: Option<Submission>)
    ensures r.Some? <==> HasSubmission(subs, id)
    ensures r.Some? ==> r.value.id == id && r.value in subs
    ensures r.Some? ==> exists i | 0 <= i < |subs| :: subs[i] == r.value && forall j | 0 <= j < i :: subs[j].id != id
  {
    if subs == [] then None
    else if subs[0].id == id then Some(subs[0])
    else
      var r := FindSubmission(subs[1..], id);
      assert HasSubmission(subs[1..], id) ==> HasSubmission(subs, id) by {
        if HasSubmission(subs[1..], id) {
          var k :| 0 <= k < |subs[1..]| && subs[1..][k].id == id;
          assert subs[k + 1].id == id;
        }
      }
      assert r.Some? ==> exists i | 0 <= i < |subs| :: subs[i] == r.value && forall j | 0 <= j < i :: subs[j].id != id by {
        if r.Some? {
          var k :| 0 <= k < |subs[1..]| && subs[1..][k] == r.value && forall j | 0 <= j < k :: subs[1..][j].id != id;
          assert subs[k + 1] == r.value;
          assert forall j | 0 <= j < k + 1 :: subs[j].id != id by {
            forall j | 0 <= j < k + 1 ensures subs[j].id != id {
              if j > 0 { assert subs[j] == subs[1..][j - 1]; }
            }
          }
        }
      }
      r
  }

  /** Appending a submission keeps every id already present. */
  lemma HasSubmissionAppend(subs: seq<Submission>, s: Submission, id: Id)
    ensures HasSubmission(subs + [s], id) <==> HasSubmission(subs, id) || s.id == id
  {
    if HasSubmission(subs, id) {
      var k :| 0 <= k < |subs| && subs[k].id == id;
      assert (subs + [s])[k].id == id;
    }
    if s.id == id {
      assert (subs + [s])[|subs|].id == id;
    }
  }

  predicate HasRanking(rankings: seq<RankingEntry>, id: Id)
  {
    exists i | 0 <= i < |rankings| :: rankings[i].id == id
  }

  /** lowdb's `find({id})` on the rankings: the first entry with that id, if any. */
  function FindRanking(rankings: seq<RankingEntry>, id: Id): (r: Option<RankingEntry>)
    ensures r.Some? <==> HasRanking(rankings, id)
    ensures r.Some? ==> r.value.id == id && r.value in rankings
    ensures r.Some? ==>
      exists i | 0 <= i < |rankings| :: rankings[i] == r.value && forall j | 0 <= j < i :: rankings[j].id != id
  {
    if rankings == [] then None
    else if rankings[0].id == id then Some(rankings[0])
    else
      var r := FindRanking(rankings[1..], id);
      assert HasRanking(rankings[1..], id) ==> HasRanking(rankings, id) by {
        if HasRanking(rankings[1..], id) {
          var k :| 0 <= k < |rankings[1..]| && rankings[1..][k].id == id;
          assert rankings[k + 1].id == id;
        }
      }
      assert r.Some? ==>
        exists i | 0 <= i < |rankings| :: rankings[i] == r.value && forall j | 0 <= j < i :: rankings[j].id != id
      by {
        if r.Some? {
          var k :| 0 <= k < |rankings[1..]| && rankings[1..][k] == r.value
            && forall j | 0 <= j < k :: rankings[1..][j].id != id;
          assert rankings[k + 1] == r.value;
          assert forall j | 0 <= j < k + 1 :: rankings[j].id != id by {
            forall j | 0 <= j < k + 1 ensures rankings[j].id != id {
              if j > 0 { assert rankings[j] == rankings[1..][j - 1]; }
            }
          }
        }
      }
      r
  }

  lemma HasRankingAppend(rankings: seq<RankingEntry>, e: RankingEntry, id: Id)
    ensures HasRanking(rankings + [e], id) <==> HasRanking(rankings, id) || e.id == id
  {
    if HasRanking(rankings, id) {
      var k :| 0 <= k < |rankings| && rankings[k].id == id;
      assert (rankings + [e])[k].id == id;
    }
    if e.id == id {
      assert (rankings + [e])[|rankings|].id == id;
    }
  }
}
