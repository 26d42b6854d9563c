/** The "daily_summaries" cache of linebot/api/db/daily_summary.go: one summary per user, day
    and skill, keyed by the three joined with '_'. The write's clock reading is the parameter
    `now`. */
module DailySummary {
  import opened Wrappers

  datatype Summary = Summary(summary: string, lastCount: int, date: string, skill: string, updatedAt: string)

  /** A stored document, which may fail to decode (DataTo). */
  datatype SummaryDoc = Decodable(entry: Summary) | Undecodable

  /** fmt.Sprintf("%s_%s_%s", userID, date, skill). */
  function DocId(userId: string, date: string, skill: string): (id: string)
    ensures |id| == |userId| + |date| + |skill| + 2
    ensures id[..|userId|] == userId && id[|userId|] == '_'
    ensures id[|userId| + 1..|userId| + 1 + |date|] == date && id[|userId| + 1 + |date|] == '_'
    ensures id[|userId| + |date| + 2..] == skill
  {
    userId + "_" + date + "_" + skill
  }

  predicate NoUnderscore(s: string) {
    forall i :: 0 <= i < |s| ==> s[i] != '_'
  }

  /** When neither the user ID nor the date contains '_' (as for LINE user IDs and
      "2006-01-02" dates) the key determines the triple, so distinct triples never share an
      entry. Without that condition ("a_b", "c") and ("a", "b_c") collide. */
  lemma DocIdInjective(u1: string, d1: string, s1: string, u2: string, d2: string, s2: string)
    requires NoUnderscore(u1) && NoUnderscore(u2) && NoUnderscore(d1) && NoUnderscore(d2)
    requires DocId(u1, d1, s1) == DocId(u2, d2, s2)
    ensures u1 == u2 && d1 == d2 && s1 == s2
  {
    var id := DocId(u1, d1, s1);
    FirstUnderscore(u1, id[|u1| + 1..], id);
    FirstUnderscore(u2, id[|u2| + 1..], id);
    assert |u1| == |u2|;
    var rest := id[|u1| + 1..];
    assert rest == d1 + "_" + s1 && rest == d2 + "_" + s2;
    FirstUnderscore(d1, s1, rest);
    FirstUnderscore(d2, s2, rest);
  }

  /** Lets the first '_' of `a + "_" + b` sit only at |a|. */
  lemma FirstUnderscore(a: string, b: string, s: string)
    requires NoUnderscore(a) && s == a + "_" + b
    ensures |a| < |s| && s[|a|] == '_' && NoUnderscore(s[..|a|]) && s[..|a|] == a && s[|a| + 1..] == b
  {
  }

  lemma DocIdCollision()
    ensures DocId("a_b", "c", "d") == DocId("a", "b_c", "d")
  {
  }

  /** What GetDailySummary returns: None for a missing entry, an error when the request fails
      or the entry does not decode. */
  function Cached(docs: map<string, SummaryDoc>, unavailable: set<string>, id: string): (r: Result<Option<Summary>, string>)
    ensures r.Err? <==> id in unavailable || (id in docs && docs[id].Undecodable?)
    ensures r == Ok(None) <==> id !in unavailable && id !in docs
    ensures r.Ok? && r.value.Some? ==> id in docs && docs[id] == Decodable(r.value.value)
  {
    if id in unavailable then Err("error getting daily summary")
    else if id !in docs then Ok(None)
    else if docs[id].Undecodable? then Err("error decoding daily summary")
    else Ok(Some(docs[id].entry))
  }

  class SummaryStore {
    var docs: map<string, SummaryDoc>
    /** Document IDs on which every request fails, standing for any Firestore error. */
    const unavailable: set<string>

    constructor (docs: map<string, SummaryDoc>, unavailable: set<string>)
      ensures this.docs == docs && this.unavailable == unavailable
    {
      this.docs := docs;
      this.unavailable := unavailable;
    }

    method GetDailySummary(userId: string, date: string, skill: string) returns (r: Result<Option<Summary>, string>)
      ensures r == Cached(docs, unavailable, DocId(userId, date, skill))
    {
      var id := userId + "_" + date + "_" + skill;
      if id in unavailable {
        return Err("error getting daily summary");
      }
      if id !in docs {
        return Ok(None);
      }
      match docs[id]
      case Undecodable => r := Err("error decoding daily summary");
      case Decodable(ds) => r := Ok(Some(ds));
    }

    /** Overwrites the whole entry; a later Get of the same triple returns exactly it, and the
        entries of other triples (with '_'-free user IDs and dates) are unchanged. */
    method SetDailySummary(userId: string, date: string, skill: string, summary: string, lastCount: int,
                           now: string) returns (err: Option<string>)
      modifies this
      ensures err.None? <==> DocId(userId, date, skill) !in unavailable
      ensures docs == if err.Some? then old(docs)
                      else old(docs)[DocId(userId, date, skill) := Decodable(Summary(summary, lastCount, date, skill, now))]
      ensures err.None? ==>
                Cached(docs, unavailable, DocId(userId, date, skill)) == Ok(Some(Summary(summary, lastCount, date, skill, now)))
      ensures forall u, d, s | NoUnderscore(u) && NoUnderscore(d) && NoUnderscore(userId) && NoUnderscore(date)
                                && (u, d, s) != (userId, date, skill) ::
                Cached(docs, unavailable, DocId(u, d, s)) == old(Cached(docs, unavailable, DocId(u, d, s)))
    {
      var id := userId + "_" + date + "_" + skill;
      if id in unavailable {
        return Some("error setting daily summary");
      }
      docs := docs[id := Decodable(Summary(summary, lastCount, date, skill, now))];
      err := None;
      forall u, d, s | NoUnderscore(u) && NoUnderscore(d) && NoUnderscore(userId) && NoUnderscore(date)
                       && (u, d, s) != (userId, date, skill)
        ensures DocId(u, d, s) != id
      {
        if DocId(u, d, s) == id {
          DocIdInjective(u, d, s, userId, date, skill);
        }
      }
    }
  }
}
