/** The "chat_history" collection of linebot/api/db/chat_history.go: one document per user
    holding every user/assistant exchange in order. The transaction's clock reading is the
    parameter `now`, kept as the text of the timestamp. */
module ChatHistory {
  import opened Wrappers

  datatype ChatMessage = ChatMessage(
    role: string,
    text: string,
    skill: string,
    conversationId: string,
    timestamp: string)

  datatype History = History(userId: string, messages: seq<ChatMessage>)

  /** A stored document, which may fail to decode into a History (DataTo). */
  datatype HistoryDoc = Decodable(history: History) | Undecodable

  /** The empty history a missing or undecodable document is replaced by. */
  function Fresh(userId: string): (h: History)
    ensures h.userId == userId && h.messages == []
  {
    History(userId, [])
  }

  /** The history the append transaction starts from: the decoded document, or a fresh one
      when the document is missing or does not decode (its messages are then lost). */
  function Loaded(docs: map<string, HistoryDoc>, userId: string): (h: History)
    ensures userId in docs && docs[userId].Decodable? ==> h == docs[userId].history
    ensures userId !in docs || docs[userId].Undecodable? ==> h == Fresh(userId)
  {
    if userId in docs && docs[userId].Decodable? then docs[userId].history else Fresh(userId)
  }

  /** The user's message, then the assistant's, sharing skill, conversation and timestamp. */
  function Exchange(skill: string, conversationId: string, userText: string, assistantText: string,
                    now: string): seq<ChatMessage>
  {
    [ChatMessage("user", userText, skill, conversationId, now),
     ChatMessage("assistant", assistantText, skill, conversationId, now)]
  }

  /** `h` with one exchange appended: the old messages are an unchanged prefix and exactly two
      messages follow, the user's first. */
  function WithExchange(h: History, skill: string, conversationId: string, userText: string,
                        assistantText: string, now: string): (r: History)
    ensures r.userId == h.userId
    ensures |r.messages| == |h.messages| + 2
    ensures r.messages[..|h.messages|] == h.messages
    ensures r.messages[|h.messages|] == ChatMessage("user", userText, skill, conversationId, now)
    ensures r.messages[|h.messages| + 1] == ChatMessage("assistant", assistantText, skill, conversationId, now)
  {
    History(h.userId, h.messages + Exchange(skill, conversationId, userText, assistantText, now))
  }

  /** What GetChatHistory returns: an empty history for a missing document, an error when the
      request fails or the document does not decode. */
  function Read(docs: map<string, HistoryDoc>, unavailable: set<string>, userId: string): (r: Result<History, string>)
    ensures r.Err? <==> userId in unavailable || (userId in docs && docs[userId].Undecodable?)
    ensures r.Ok? && userId !in docs ==> r.value == Fresh(userId)
    ensures r.Ok? && userId in docs ==> r.value == docs[userId].history
  {
    if userId in unavailable then Err("error getting chat history")
    else if userId !in docs then Ok(Fresh(userId))
    else if docs[userId].Undecodable? then Err("error decoding chat history")
    else Ok(docs[userId].history)
  }

  /** After an append, a read returns the earlier readable history plus the new exchange, and
      a history that did not decode is replaced by the exchange alone. */
  lemma ReadAfterAppend(docs: map<string, HistoryDoc>, unavailable: set<string>, userId: string,
                        skill: string, conversationId: string, userText: string, assistantText: string,
                        now: string)
    requires userId !in unavailable
    ensures var after := docs[userId := Decodable(WithExchange(Loaded(docs, userId), skill, conversationId,
                                                               userText, assistantText, now))];
            var r := Read(after, unavailable, userId);
            r.Ok? &&
            (Read(docs, unavailable, userId).Ok? ==>
               r.value.messages == Read(docs, unavailable, userId).value.messages
                                   + Exchange(skill, conversationId, userText, assistantText, now)) &&
            (Read(docs, unavailable, userId).Err? ==>
               r.value == History(userId, Exchange(skill, conversationId, userText, assistantText, now)))
  {
  }

  class ChatHistoryStore {
    var docs: map<string, HistoryDoc>
    /** Documents on which every request fails (a read error other than NotFound, or a failed
        write), standing for any Firestore error. */
    const unavailable: set<string>

    constructor (docs: map<string, HistoryDoc>, unavailable: set<string>)
      ensures this.docs == docs && this.unavailable == unavailable
    {
      this.docs := docs;
      this.unavailable := unavailable;
    }

    /** Appends one exchange to the user's history; a failed request writes nothing. */
    method AppendChatExchange(userId: string, skill: string, conversationId: string, userText: string,
                              assistantText: string, now: string) returns (err: Option<string>)
      modifies this
      ensures err.None? <==> userId !in unavailable
      ensures docs == if userId in unavailable then old(docs)
                      else old(docs)[userId := Decodable(WithExchange(Loaded(old(docs), userId), skill,
                                                                      conversationId, userText, assistantText, now))]
    {
      if userId in unavailable {
        return Some("error getting chat history");
      }
      var history: History;
      if userId !in docs {
        history := History(userId, []);
      } else if docs[userId].Undecodable? {
        history := History(userId, []);
      } else {
        history := docs[userId].history;
      }
      history := history.(messages := history.messages + [
        ChatMessage("user", userText, skill, conversationId, now),
        ChatMessage("assistant", assistantText, skill, conversationId, now)]);
      docs := docs[userId := Decodable(history)];
      err := None;
    }

    method GetChatHistory(userId: string) returns (r: Result<History, string>)
      ensures r == Read(docs, unavailable, userId)
    {
      if userId in unavailable {
        return Err("error getting chat history");
      }
      if userId !in docs {
        return Ok(History(userId, []));
      }
      match docs[userId]
      case Undecodable => r := Err("error decoding chat history");
      case Decodable(h) => r := Ok(h);
    }
  }
}
