/** Emotion analysis of a piece of feedback with the chat model, logged in the
    database and indexed in the RAG store (app/services/emotion_service.py).
    The chat-completion call is the value `completion`, json.loads is the
    collaborator `jsonLoads` (None where it raises JSONDecodeError), and the
    two failures that the store and the session can suffer are the flags
    `ragFails` and `commitFails`. */
module EmotionService {
  import opened Values
  import opened Text

  /** What `client.chat.completions.create(...)` gives: the message content,
      an OpenAIError, or any other exception on the way to the content. */
  datatype Completion = Reply(content: string) | OpenAIFailure | OtherFailure

  /** How far the analysis got before anything is stored. */
  datatype Analysis =
    | Labelled(emotion: Json, reason: Json)
    | OpenAIFailed
    | Crashed

  /** The dict analyze_emotion returns. */
  datatype EmotionResult = EmotionResult(emotion: Json, reason: Json)

  const NeutralEmotion := JStr("중립")
  const DefaultReason := JStr("분석 완료")
  const ParseFailedReason := JStr("GPT 응답 파싱 실패")
  const OpenAIFailedResult := EmotionResult(JStr("오류"), JStr("OpenAI 호출 실패"))
  const ServerErrorResult := EmotionResult(JStr("오류"), JStr("서버 내부 오류"))

  /** `parsed.get(k1) or parsed.get(k2) or fallback`: the first truthy value. */
  function FirstTruthy(parsed: map<string, Json>, k1: string, k2: string, fallback: Json): (r: Json)
    ensures Truthy(Get(parsed, k1)) ==> r == parsed[k1]
    ensures !Truthy(Get(parsed, k1)) && Truthy(Get(parsed, k2)) ==> r == parsed[k2]
    ensures !Truthy(Get(parsed, k1)) && !Truthy(Get(parsed, k2)) ==> r == fallback
    ensures Truthy(fallback) ==> Truthy(r)
  {
    Or(Or(Get(parsed, k1), Get(parsed, k2)), fallback)
  }

  /** The JSON step: a reply that is not JSON is labelled neutral with the
      parse-failure reason; JSON that is not an object has no `.get`, and the
      AttributeError is an unexpected exception. */
  function ParseAnalysis(analysis: string, jsonLoads: string -> Option<Json>): (r: Analysis)
    ensures !r.OpenAIFailed?
    ensures jsonLoads(analysis).None? ==> r == Labelled(NeutralEmotion, ParseFailedReason)
    ensures r.Crashed? <==> jsonLoads(analysis).Some? && !jsonLoads(analysis).value.JObj?
    ensures jsonLoads(analysis).Some? && jsonLoads(analysis).value.JObj? ==>
      var m := jsonLoads(analysis).value.fields;
      r == Labelled(FirstTruthy(m, "emotion", "감정", NeutralEmotion),
                    FirstTruthy(m, "reason", "이유", DefaultReason))
    ensures r.Labelled? ==> Truthy(r.emotion) && Truthy(r.reason)
  {
    match jsonLoads(analysis)
    case None => Labelled(NeutralEmotion, ParseFailedReason)
    case Some(JObj(m)) =>
      Labelled(FirstTruthy(m, "emotion", "감정", NeutralEmotion),
               FirstTruthy(m, "reason", "이유", DefaultReason))
    case Some(_) => Crashed
  }

  /** Steps 1 and 2: the completion, its stripped content, and the JSON step. */
  function Analyse(completion: Completion, jsonLoads: string -> Option<Json>): (r: Analysis)
    ensures r.OpenAIFailed? <==> completion.OpenAIFailure?
    ensures completion.OtherFailure? ==> r.Crashed?
    ensures completion.Reply? ==> r == ParseAnalysis(Strip(completion.content), jsonLoads)
  {
    match completion
    case OpenAIFailure => OpenAIFailed
    case OtherFailure => Crashed
    case Reply(content) => ParseAnalysis(Strip(content), jsonLoads)
  }

  /** What the caller receives for an analysis, once the commit has been tried. */
  function AnalyzeResult(a: Analysis, commitFails: bool): (r: EmotionResult)
    ensures a.Labelled? && !commitFails ==> r == EmotionResult(a.emotion, a.reason)
    ensures a.OpenAIFailed? ==> r == OpenAIFailedResult
    ensures (a.Crashed? || (a.Labelled? && commitFails)) ==> r == ServerErrorResult
    ensures a.Labelled? ==> (Truthy(a.emotion) && Truthy(a.reason) ==> Truthy(r.emotion) && Truthy(r.reason))
  {
    match a
    case Labelled(emotion, reason) =>
      if commitFails then ServerErrorResult else EmotionResult(emotion, reason)
    case OpenAIFailed => OpenAIFailedResult
    case Crashed => ServerErrorResult
  }

  /** EmotionLog(user_id=…, text=…, emotion=…, reason=…). */
  datatype LogEntry = LogEntry(userId: int, text: string, emotion: Json, reason: Json)

  /** A document handed to the vector store with its metadata. */
  datatype RagDocument = RagDocument(text: string, metadata: map<string, Json>)

  function Metadata(userId: int, emotion: Json, reason: Json): (m: map<string, Json>)
    ensures m.Keys == {"user_id", "emotion", "reason"}
    ensures m["user_id"] == JNum(userId) && m["emotion"] == emotion && m["reason"] == reason
  {
    map["user_id" := JNum(userId), "emotion" := emotion, "reason" := reason]
  }

  /** The database session: what has been added and not yet committed, what
      has been committed, and whether the session is closed. */
  class EmotionSession {
    var pending: seq<LogEntry>
    var committed: seq<LogEntry>
    var closed: bool

    constructor ()
      ensures pending == [] && committed == [] && !closed
    {
      pending := [];
      committed := [];
      closed := false;
    }

    /** db.add */
    method Add(entry: LogEntry)
      modifies this`pending
      ensures pending == old(pending) + [entry]
    {
      pending := pending + [entry];
    }

    /** db.commit; a failing commit raises and leaves the session as it was. */
    method Commit(fails: bool) returns (ok: bool)
      modifies this`pending, this`committed
      ensures ok == !fails
      ensures ok ==> committed == old(committed) + old(pending) && pending == []
      ensures !ok ==> committed == old(committed) && pending == old(pending)
    {
      if fails {
        return false;
      }
      committed := committed + pending;
      pending := [];
      ok := true;
    }

    /** db.rollback: what was added since the last commit is dropped. */
    method Rollback()
      modifies this`pending
      ensures pending == []
    {
      pending := [];
    }

    /** db.close: the session ends, and an open transaction with it. */
    method Close()
      modifies this`pending, this`closed
      ensures closed && pending == []
    {
      pending := [];
      closed := true;
    }
  }

  /** The vector store behind rag_service. add_document catches every error
      itself and reports it as False. Splitting the text into chunks is left
      to the library; here a document is one entry. */
  class RagStore {
    var docs: seq<RagDocument>

    constructor ()
      ensures docs == []
    {
      docs := [];
    }

    method AddDocument(text: string, metadata: map<string, Json>, fails: bool) returns (added: bool)
      modifies this
      ensures added == !fails
      ensures docs == old(docs) + (if added then [RagDocument(text, metadata)] else [])
    {
      if fails {
        return false;
      }
      docs := docs + [RagDocument(text, metadata)];
      added := true;
    }
  }

  /** The steps after a successful analysis: add the log, index the text
      (its result is not looked at), commit, and roll back if the commit
      raises. */
  method StoreAnalysis(db: EmotionSession, rag: RagStore, entry: LogEntry, ragFails: bool, commitFails: bool)
    returns (committed: bool)
    modifies db, rag
    ensures committed == !commitFails
    ensures db.pending == [] && db.closed == old(db.closed)
    ensures db.committed == (if committed then old(db.committed) + old(db.pending) + [entry] else old(db.committed))
    ensures rag.docs == old(rag.docs) +
      (if ragFails then [] else [RagDocument(entry.text, Metadata(entry.userId, entry.emotion, entry.reason))])
  {
    db.Add(entry);
    var _ := rag.AddDocument(entry.text, Metadata(entry.userId, entry.emotion, entry.reason), ragFails);
    committed := db.Commit(commitFails);
    if !committed {
      db.Rollback();
    }
  }

  /** analyze_emotion: ask, parse, add the log, index the text, commit; on an
      error roll back and answer with the matching fixed result; close the
      session on every path. */
  method AnalyzeEmotion(db: EmotionSession, rag: RagStore, userId: int, text: string,
                        completion: Completion, jsonLoads: string -> Option<Json>,
                        ragFails: bool, commitFails: bool)
    returns (r: EmotionResult)
    modifies db, rag
    ensures r == AnalyzeResult(Analyse(completion, jsonLoads), commitFails)
    ensures db.closed && db.pending == []
    ensures var a := Analyse(completion, jsonLoads);
      db.committed ==
        (if a.Labelled? && !commitFails
         then old(db.committed) + old(db.pending) + [LogEntry(userId, text, a.emotion, a.reason)]
         else old(db.committed))
    ensures var a := Analyse(completion, jsonLoads);
      rag.docs ==
        (if a.Labelled? && !ragFails
         then old(rag.docs) + [RagDocument(text, Metadata(userId, a.emotion, a.reason))]
         else old(rag.docs))
  {
    var a := Analyse(completion, jsonLoads);
    if a.Labelled? {
      var ok := StoreAnalysis(db, rag, LogEntry(userId, text, a.emotion, a.reason), ragFails, commitFails);
      r := if ok then EmotionResult(a.emotion, a.reason) else ServerErrorResult;
    } else {
      db.Rollback();
      r := if a.OpenAIFailed? then OpenAIFailedResult else ServerErrorResult;
    }
    db.Close();
  }

  /** The caller always receives a truthy emotion and a truthy reason. */
  lemma ResultIsNeverEmpty(completion: Completion, jsonLoads: string -> Option<Json>, commitFails: bool)
    ensures var r := AnalyzeResult(Analyse(completion, jsonLoads), commitFails);
      Truthy(r.emotion) && Truthy(r.reason)
  {
  }

  /** A reply that is not JSON is still logged and committed, as neutral with
      the parse-failure reason. */
  lemma UnparsableReplyIsStoredAsNeutral(content: string, jsonLoads: string -> Option<Json>)
    requires jsonLoads(Strip(content)).None?
    ensures Analyse(Reply(content), jsonLoads) == Labelled(NeutralEmotion, ParseFailedReason)
    ensures AnalyzeResult(Analyse(Reply(content), jsonLoads), false)
            == EmotionResult(NeutralEmotion, ParseFailedReason)
  {
  }

  /** The English keys win over the Korean ones, but only when truthy. */
  lemma KoreanKeysAreFallbacks(content: string, jsonLoads: string -> Option<Json>, m: map<string, Json>)
    requires jsonLoads(Strip(content)) == Some(JObj(m))
    requires !Truthy(Get(m, "emotion")) && Truthy(Get(m, "감정"))
    requires !Truthy(Get(m, "reason")) && Truthy(Get(m, "이유"))
    ensures Analyse(Reply(content), jsonLoads) == Labelled(m["감정"], m["이유"])
  {
  }

  /** A failing OpenAI call gives its fixed result whatever the parser and
      the database would have done. */
  lemma OpenAIFailureStoresNothing(j1: string -> Option<Json>, j2: string -> Option<Json>, c1: bool, c2: bool)
    ensures AnalyzeResult(Analyse(OpenAIFailure, j1), c1) == AnalyzeResult(Analyse(OpenAIFailure, j2), c2)
            == OpenAIFailedResult
    ensures !Analyse(OpenAIFailure, j1).Labelled?
  {
  }
}
