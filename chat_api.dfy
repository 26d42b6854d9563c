/** The HTTP endpoints of linebot/main.go that serve the LIFF pages: the chat history with
    its skill filter, the cached daily summary, the user lookup and the two statistics
    endpoints. A handler's JSON reply is a `Response`; the current date and clock reading are
    the parameters `today` and `now`, and the summarizer (an OpenAI call) is the oracle
    answer `summarized`. */
module ChatApi {
  import opened Wrappers
  import CH = ChatHistory
  import DS = DailySummary
  import S = Stats
  import U = Users

  datatype Body =
    | Failure(error: string)
    | Messages(data: seq<CH.ChatMessage>)
    | Summary(summary: string, cached: bool)
    | StatsBody(stats: map<string, S.Stats>)
    | UserBody(user: U.UserData)

  datatype Response = Response(status: int, body: Body)

  // ---------------------------------------------------------------------------------------
  // Text normalisation

  /** unicode.IsSpace: the ASCII spaces, NEL, NBSP and the other White_Space code points. */
  predicate IsSpace(c: char) {
    c == '\t' || c == '\n' || c == '\U{000B}' || c == '\U{000C}' || c == '\r' || c == ' '
    || c == '\U{0085}' || c == '\U{00A0}' || c == '\U{1680}' || ('\U{2000}' <= c <= '\U{200A}')
    || c == '\U{2028}' || c == '\U{2029}' || c == '\U{202F}' || c == '\U{205F}' || c == '\U{3000}'
  }

  /** `s` without its leading white space. */
  function TrimLeft(s: string): (r: string)
    ensures |r| <= |s| && r == s[|s| - |r|..]
    ensures forall k :: 0 <= k < |s| - |r| ==> IsSpace(s[k])
    ensures |r| > 0 ==> !IsSpace(r[0])
    decreases |s|
  {
    if |s| > 0 && IsSpace(s[0]) then TrimLeft(s[1..]) else s
  }

  /** `s` without its trailing white space. */
  function TrimRight(s: string): (r: string)
    ensures |r| <= |s| && r == s[..|r|]
    ensures forall k :: |r| <= k < |s| ==> IsSpace(s[k])
    ensures |r| > 0 ==> !IsSpace(r[|r| - 1])
    decreases |s|
  {
    if |s| > 0 && IsSpace(s[|s| - 1]) then TrimRight(s[..|s| - 1]) else s
  }

  /** strings.TrimSpace. */
  function TrimSpace(s: string): string {
    TrimRight(TrimLeft(s))
  }

  /** The run TrimSpace keeps neither starts nor ends with white space. */
  lemma TrimSpaceEnds(s: string)
    ensures |TrimSpace(s)| > 0 ==> !IsSpace(TrimSpace(s)[0]) && !IsSpace(TrimSpace(s)[|TrimSpace(s)| - 1])
  {
    var l := TrimLeft(s);
    var r := TrimRight(l);
    if |r| > 0 {
      assert r[0] == l[0];
    }
  }

  /** A string is blank after trimming exactly when it is made of white space only. */
  lemma BlankIffAllSpace(s: string)
    ensures TrimSpace(s) == "" <==> forall k :: 0 <= k < |s| ==> IsSpace(s[k])
  {
    var l := TrimLeft(s);
    if |l| > 0 {
      assert l[0] == s[|s| - |l|];
    }
  }

  lemma TrimSpaceIdempotent(s: string)
    ensures TrimSpace(TrimSpace(s)) == TrimSpace(s)
  {
    var r := TrimSpace(s);
    TrimSpaceEnds(s);
    if |r| > 0 {
      assert TrimLeft(r) == r;
      assert TrimRight(r) == r;
    }
  }

  function LowerChar(c: char): char {
    if 'A' <= c <= 'Z' then (c as int - 'A' as int + 'a' as int) as char else c
  }

  /** strings.ToLower on the ASCII letters. */
  function ToLower(s: string): string
    decreases |s|
  {
    if |s| == 0 then "" else ToLower(s[..|s| - 1]) + [LowerChar(s[|s| - 1])]
  }

  /** ToLower keeps the length, leaves every character that is not an upper-case letter
      where it was, and leaves no upper-case letter. */
  lemma {:induction false} ToLowerSpec(s: string)
    ensures |ToLower(s)| == |s|
    ensures forall i :: 0 <= i < |s| ==> !('A' <= ToLower(s)[i] <= 'Z')
    ensures forall i :: 0 <= i < |s| && !('A' <= s[i] <= 'Z') ==> ToLower(s)[i] == s[i]
    decreases |s|
  {
    if |s| > 0 {
      var init := s[..|s| - 1];
      ToLowerSpec(init);
      assert forall i :: 0 <= i < |init| ==> init[i] == s[i];
      assert ToLower(s)[..|s| - 1] == ToLower(init);
    }
  }

  /** So lower-casing twice changes nothing. */
  lemma ToLowerIdempotent(s: string)
    ensures ToLower(ToLower(s)) == ToLower(s)
  {
    var t := ToLower(s);
    ToLowerSpec(s);
    ToLowerSpec(t);
    assert forall i :: 0 <= i < |t| ==> ToLower(t)[i] == t[i];
  }

  /** How every handler reads a skill: trimmed, then lower-cased. */
  function Normalize(q: string): string {
    ToLower(TrimSpace(q))
  }

  /** A skill that is not blank stays non-empty once normalised, so the summarize handler's
      `skillLower == ""` branch is never taken. */
  lemma NormalizedNonBlank(q: string)
    requires TrimSpace(q) != ""
    ensures Normalize(q) != ""
  {
    ToLowerSpec(TrimSpace(q));
  }

  // ---------------------------------------------------------------------------------------
  // The skill filter

  predicate Matches(m: CH.ChatMessage, skill: string) {
    ToLower(m.skill) == skill
  }

  /** The messages whose lower-cased skill is `skill`, in history order. */
  function Filtered(ms: seq<CH.ChatMessage>, skill: string): seq<CH.ChatMessage>
    decreases |ms|
  {
    if |ms| == 0 then []
    else Filtered(ms[..|ms| - 1], skill) + (if Matches(ms[|ms| - 1], skill) then [ms[|ms| - 1]] else [])
  }

  /** Every kept message matches and comes from the history, and every matching message of
      the history is kept. */
  lemma {:induction false} FilteredSpec(ms: seq<CH.ChatMessage>, skill: string)
    ensures forall i :: 0 <= i < |Filtered(ms, skill)| ==>
              Matches(Filtered(ms, skill)[i], skill) && Filtered(ms, skill)[i] in ms
    ensures forall i :: 0 <= i < |ms| && Matches(ms[i], skill) ==> ms[i] in Filtered(ms, skill)
    decreases |ms|
  {
    if |ms| > 0 {
      var init := ms[..|ms| - 1];
      FilteredSpec(init, skill);
      assert forall i :: 0 <= i < |init| ==> init[i] == ms[i];
      var f := Filtered(ms, skill);
      assert forall i :: 0 <= i < |Filtered(init, skill)| ==> f[i] == Filtered(init, skill)[i];
    }
  }

  /** Filtering distributes over concatenation: kept messages stay in history order. */
  lemma {:induction false} FilteredConcat(a: seq<CH.ChatMessage>, b: seq<CH.ChatMessage>, skill: string)
    ensures Filtered(a + b, skill) == Filtered(a, skill) + Filtered(b, skill)
    decreases |b|
  {
    if |b| == 0 {
      assert a + b == a;
    } else {
      var b' := b[..|b| - 1];
      assert (a + b)[..|a + b| - 1] == a + b';
      FilteredConcat(a, b', skill);
    }
  }

  /** The history handler's loop. */
  method FilterBySkill(ms: seq<CH.ChatMessage>, skill: string) returns (filtered: seq<CH.ChatMessage>)
    ensures filtered == Filtered(ms, skill)
  {
    filtered := [];
    var i := 0;
    while i < |ms|
      invariant 0 <= i <= |ms|
      invariant filtered == Filtered(ms[..i], skill)
    {
      assert ms[..i + 1][..i] == ms[..i];
      if ToLower(ms[i].skill) == skill {
        filtered := filtered + [ms[i]];
      }
      i := i + 1;
    }
    assert ms[..i] == ms;
  }

  /** The summarize handler's loop: it counts exactly the messages the filter keeps. */
  method CountBySkill(ms: seq<CH.ChatMessage>, skill: string) returns (count: int)
    ensures count == |Filtered(ms, skill)|
  {
    count := 0;
    var i := 0;
    while i < |ms|
      invariant 0 <= i <= |ms|
      invariant count == |Filtered(ms[..i], skill)|
    {
      assert ms[..i + 1][..i] == ms[..i];
      if ToLower(ms[i].skill) == skill {
        count := count + 1;
      }
      i := i + 1;
    }
    assert ms[..i] == ms;
  }

  // ---------------------------------------------------------------------------------------
  // GET /api/chat/history

  /** A missing user_id is refused; a failed read is a server error; otherwise the whole
      history, or with a non-blank skill only the messages of that skill. */
  method GetHistory(histories: CH.ChatHistoryStore, userId: string, skillQuery: string) returns (resp: Response)
    ensures userId == "" ==> resp == Response(400, Failure("missing user_id"))
    ensures userId != "" ==>
              var h := CH.Read(histories.docs, histories.unavailable, userId);
              var skill := Normalize(skillQuery);
              (h.Err? ==> resp == Response(500, Failure("failed to fetch chat history"))) &&
              (h.Ok? && skill == "" ==> resp == Response(200, Messages(h.value.messages))) &&
              (h.Ok? && skill != "" ==> resp == Response(200, Messages(Filtered(h.value.messages, skill))))
  {
    if userId == "" {
      return Response(400, Failure("missing user_id"));
    }
    var skill := ToLower(TrimSpace(skillQuery));
    var history := histories.GetChatHistory(userId);
    if history.Err? {
      return Response(500, Failure("failed to fetch chat history"));
    }
    var messages := history.value.messages;
    if skill != "" {
      var filtered := FilterBySkill(messages, skill);
      return Response(200, Messages(filtered));
    }
    resp := Response(200, Messages(messages));
  }

  // ---------------------------------------------------------------------------------------
  // POST /api/chat/summarize

  datatype SummarizeRequest = SummarizeRequest(content: string, userId: string, skill: string)

  /** The body binds (None when it is not valid JSON) and has non-blank content, user ID and
      skill. */
  predicate ValidRequest(req: Option<SummarizeRequest>) {
    req.Some? && TrimSpace(req.value.content) != "" && TrimSpace(req.value.userId) != ""
    && TrimSpace(req.value.skill) != ""
  }

  /** The cached entry may be served: it was read, exists, was made for the present number of
      messages and is not blank. */
  predicate CacheHit(cached: Result<Option<DS.Summary>, string>, count: int) {
    cached.Ok? && cached.value.Some? && cached.value.value.lastCount == count
    && TrimSpace(cached.value.value.summary) != ""
  }

  /** The summarize handler. `consulted` says whether the summarizer was called. A cache hit
      answers from the cache without calling it; a summarizer failure is a bad gateway and
      writes nothing; a fresh summary is stored under today's key with the present message
      count, and a failed store still answers with the summary. */
  method Summarize(histories: CH.ChatHistoryStore, summaries: DS.SummaryStore, req: Option<SummarizeRequest>,
                   today: string, now: string, summarized: Result<string, string>)
    returns (resp: Response, consulted: bool)
    modifies summaries
    ensures !ValidRequest(req) ==>
              resp == Response(400, Failure("invalid body")) && !consulted && summaries.docs == old(summaries.docs)
    ensures ValidRequest(req) && CH.Read(histories.docs, histories.unavailable, req.value.userId).Err? ==>
              resp == Response(500, Failure("failed to fetch chat history")) && !consulted
              && summaries.docs == old(summaries.docs)
    ensures ValidRequest(req) && CH.Read(histories.docs, histories.unavailable, req.value.userId).Ok? ==>
              SummarizedAs(old(summaries.docs), summaries, req.value,
                           CH.Read(histories.docs, histories.unavailable, req.value.userId).value.messages,
                           today, now, summarized, resp, consulted)
  {
    consulted := false;
    if req.None? || TrimSpace(req.value.content) == "" || TrimSpace(req.value.userId) == ""
       || TrimSpace(req.value.skill) == "" {
      return Response(400, Failure("invalid body")), false;
    }
    var r := req.value;
    var history := histories.GetChatHistory(r.userId);
    if history.Err? {
      return Response(500, Failure("failed to fetch chat history")), false;
    }
    resp, consulted := SummarizeMessages(summaries, r, history.value.messages, today, now, summarized);
  }

  /** The outcome of the summarize handler once the history of a valid request has been read:
      a cache hit answers from the cache without the summarizer; otherwise a summarizer
      failure is a bad gateway and a summary is stored (unless the store refuses) and
      returned. */
  ghost predicate SummarizedAs(before: map<string, DS.SummaryDoc>, summaries: DS.SummaryStore, r: SummarizeRequest,
                               messages: seq<CH.ChatMessage>, today: string, now: string,
                               summarized: Result<string, string>, resp: Response, consulted: bool)
    reads summaries
  {
    var skill := Normalize(r.skill);
    var count := |Filtered(messages, skill)|;
    var id := DS.DocId(r.userId, today, skill);
    var cached := DS.Cached(before, summaries.unavailable, id);
    (CacheHit(cached, count) ==>
       resp == Response(200, Summary(cached.value.value.summary, true)) && !consulted
       && summaries.docs == before) &&
    (!CacheHit(cached, count) ==> consulted) &&
    (!CacheHit(cached, count) && summarized.Err? ==>
       resp == Response(502, Failure("failed to summarize")) && summaries.docs == before) &&
    (!CacheHit(cached, count) && summarized.Ok? ==>
       resp == Response(200, Summary(summarized.value, false)) &&
       summaries.docs == if id in summaries.unavailable then before
                         else before[id := DS.Decodable(DS.Summary(summarized.value, count, today, skill, now))])
  }

  /** The cache lookup, the summarizer call and the store of its result. */
  method SummarizeMessages(summaries: DS.SummaryStore, r: SummarizeRequest, messages: seq<CH.ChatMessage>,
                           today: string, now: string, summarized: Result<string, string>)
    returns (resp: Response, consulted: bool)
    requires ValidRequest(Some(r))
    modifies summaries
    ensures SummarizedAs(old(summaries.docs), summaries, r, messages, today, now, summarized, resp, consulted)
  {
    var skillLower := ToLower(TrimSpace(r.skill));
    var currentCount := 0;
    if skillLower == "" {
      NormalizedNonBlank(r.skill);
      assert false;
    } else {
      currentCount := CountBySkill(messages, skillLower);
    }
    var cached := summaries.GetDailySummary(r.userId, today, skillLower);
    if cached.Ok? && cached.value.Some? && cached.value.value.lastCount == currentCount
       && TrimSpace(cached.value.value.summary) != "" {
      return Response(200, Summary(cached.value.value.summary, true)), false;
    }
    consulted := true;
    if summarized.Err? {
      return Response(502, Failure("failed to summarize")), true;
    }
    var sum := summarized.value;
    var storeErr := summaries.SetDailySummary(r.userId, today, skillLower, sum, currentCount, now);
    resp := Response(200, Summary(sum, false));
  }

  /** Once a non-blank summary has been stored, the same request on the same day with no new
      messages of that skill is answered from the cache. */
  lemma RepeatedRequestHits(docs: map<string, DS.SummaryDoc>, unavailable: set<string>, id: string,
                            sum: string, count: int, today: string, skill: string, now: string)
    requires id !in unavailable
    ensures var after := docs[id := DS.Decodable(DS.Summary(sum, count, today, skill, now))];
            CacheHit(DS.Cached(after, unavailable, id), count) <==> TrimSpace(sum) != ""
    ensures var after := docs[id := DS.Decodable(DS.Summary(sum, count, today, skill, now))];
            DS.Cached(after, unavailable, id).Ok? && DS.Cached(after, unavailable, id).value.Some? &&
            DS.Cached(after, unavailable, id).value.value.summary == sum
  {
  }

  /** A new message of the skill makes the stored count stale, so the next request misses. */
  lemma NewMessageMisses(cached: Result<Option<DS.Summary>, string>, count: int)
    requires CacheHit(cached, count)
    ensures !CacheHit(cached, count + 1)
  {
  }

  // ---------------------------------------------------------------------------------------
  // GET /api/db/user and the statistics endpoints

  method GetUser(users: U.UserStore, userId: string) returns (resp: Response)
    ensures userId == "" ==> resp == Response(400, Failure("missing user_id"))
    ensures userId != "" && (userId !in users.docs || userId in users.unavailable) ==>
              resp == Response(404, Failure("user not found"))
    ensures userId != "" && userId in users.docs && userId !in users.unavailable ==>
              resp == Response(200, UserBody(users.docs[userId]))
  {
    if userId == "" {
      return Response(400, Failure("missing user_id"));
    }
    var user := users.GetUserData(userId);
    if user.Err? {
      return Response(404, Failure("user not found"));
    }
    resp := Response(200, UserBody(user.value));
  }

  /** A computed statistics result as the handlers send it: errors are bad requests. */
  function Answer(r: Result<map<string, S.Stats>, string>): (resp: Response)
    ensures resp.status == 200 <==> r.Ok?
    ensures r.Ok? ==> resp.body == StatsBody(r.value)
    ensures r.Err? ==> resp == Response(400, Failure(r.error))
  {
    if r.Ok? then Response(200, StatsBody(r.value)) else Response(400, Failure(r.error))
  }

  /** GET /api/db/stats/users/:id. `order` is the order Go visits the portfolio's works in. */
  method GetUserStats(users: U.UserStore, id: string, skillQuery: string, order: seq<string>) returns (resp: Response)
    requires id in users.docs && U.GetSkillPortfolio(users.docs[id].portfolio, Normalize(skillQuery)).Some? ==>
               S.IsEnumeration(order, U.GetSkillPortfolio(users.docs[id].portfolio, Normalize(skillQuery)).value.Keys)
    ensures id == "" || Normalize(skillQuery) == "" ==> resp == Response(400, Failure("missing id or skill"))
    ensures id != "" && Normalize(skillQuery) != "" && (id !in users.docs || id in users.unavailable) ==>
              resp.status == 400
    ensures id != "" && Normalize(skillQuery) != "" && id in users.docs && id !in users.unavailable ==>
              var p := U.GetSkillPortfolio(users.docs[id].portfolio, Normalize(skillQuery));
              (p.None? ==> resp == Response(400, Failure(S.SkillError))) &&
              (p.Some? ==> resp == Answer(S.StatsByDate(S.Entries(p.value, order))))
  {
    var skill := ToLower(TrimSpace(skillQuery));
    if id == "" || skill == "" {
      return Response(400, Failure("missing id or skill"));
    }
    var stats := S.GetUserSkillStats(users, id, skill, order);
    resp := Answer(stats);
  }

  /** GET /api/db/stats/class. `scanned` and `orders` are the scan the iterator yields. */
  method GetClassStats(users: U.UserStore, skillQuery: string, scanned: seq<string>,
                       orders: map<string, seq<string>>) returns (resp: Response)
    requires S.ClassOrders(users.docs, users.unavailable, Normalize(skillQuery), scanned, orders)
    ensures Normalize(skillQuery) == "" ==> resp == Response(400, Failure("missing skill"))
    ensures Normalize(skillQuery) != "" ==>
              resp == Answer(S.StatsByDate(S.ClassEntries(users.docs, users.unavailable, Normalize(skillQuery),
                                                          scanned, orders)))
  {
    var skill := ToLower(TrimSpace(skillQuery));
    if skill == "" {
      return Response(400, Failure("missing skill"));
    }
    var stats := S.GetClassSkillStats(users, skill, scanned, orders);
    resp := Answer(stats);
  }
}
