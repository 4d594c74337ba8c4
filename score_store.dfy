/** The scores table, seen abstractly as an append-only sequence of records.
    The storage engine, the auto-assigned id and the creation timestamp are
    not modelled. */
module ScoreStore {

  datatype ScoreRecord = ScoreRecord(username: string, score: int)

  /** The position of the best record: no record scores higher, and every
      earlier record scores strictly lower (ties go to the earliest record). */
  function BestIndex(rs: seq<ScoreRecord>): (k: nat)
    requires |rs| > 0
    ensures k < |rs|
    ensures forall j :: 0 <= j < |rs| ==> rs[j].score <= rs[k].score
    ensures forall j :: 0 <= j < k ==> rs[j].score < rs[k].score
  {
    if |rs| == 1 then 0
    else
      var k := BestIndex(rs[..|rs| - 1]);
      if rs[|rs| - 1].score > rs[k].score then |rs| - 1 else k
  }

  /** get_highest_score: the (score, username) of a record with the highest
      score, or (0, "Anonymous") when the table is empty. */
  function HighestScore(rs: seq<ScoreRecord>): (h: (int, string))
    ensures rs == [] ==> h == (0, "Anonymous")
    ensures rs != [] ==> ScoreRecord(h.1, h.0) in rs
    ensures forall j :: 0 <= j < |rs| ==> rs[j].score <= h.0
  {
    if rs == [] then (0, "Anonymous")
    else
      var best := rs[BestIndex(rs)];
      (best.score, best.username)
  }

  /** Saving a record changes the highest score exactly when the table was
      empty or the new score beats the old highest one. */
  lemma HighestAfterSave(rs: seq<ScoreRecord>, r: ScoreRecord)
    ensures HighestScore(rs + [r]) ==
      if rs == [] || r.score > HighestScore(rs).0 then (r.score, r.username)
      else HighestScore(rs)
  {
  }

  /** The table itself; records are only ever appended. */
  class ScoreTable {
    var records: seq<ScoreRecord>

    constructor ()
      ensures records == []
    {
      records := [];
    }

    /** save_score: appends exactly one record and keeps the others. */
    method SaveScore(username: string, score: int)
      modifies this
      ensures records == old(records) + [ScoreRecord(username, score)]
    {
      records := records + [ScoreRecord(username, score)];
    }

    /** get_highest_score, read from the current table. */
    method GetHighestScore() returns (score: int, username: string)
      ensures records == [] ==> score == 0 && username == "Anonymous"
      ensures records != [] ==> ScoreRecord(username, score) in records
      ensures forall j :: 0 <= j < |records| ==> records[j].score <= score
      ensures (score, username) == HighestScore(records)
    {
      var h := HighestScore(records);
      score, username := h.0, h.1;
    }
  }
}
