/** ChatAPI.process_message (app/api/chat_api.py): emotion, similar cases and
    a composed reply, with every failure turned into one fixed answer. The
    emotion service and the vector search are the collaborators `analyze`
    and `search` (None where they raise); the reply is the ResponseGenerator
    the API holds, with its GPT call `refine`. */
module ChatApi {
  import opened Values
  import opened Text
  import opened ResponseGeneration

  /** What the emotion service gives: a dict, or a bare label. */
  datatype EmotionAnswer = AsDict(fields: map<string, string>) | AsText(name: string)

  /** The three keys every answer of process_message carries. */
  datatype ChatReply = ChatReply(emotion: string, similarCases: seq<Doc>, response: string)

  const TopK := 3
  const EmptyInputAnswer := ChatReply("none", [], "메시지를 입력해주세요 😊")
  const ErrorAnswer := ChatReply("error", [], "⚠️ 대화를 처리하는 중 오류가 발생했습니다. 잠시 후 다시 시도해주세요.")

  /** A dict answer gives `get("emotion", "중립")`; a bare name is used as it is. */
  function EmotionOf(answer: EmotionAnswer): (e: string)
    ensures answer.AsText? ==> e == answer.name
    ensures answer.AsDict? && "emotion" in answer.fields ==> e == answer.fields["emotion"]
    ensures answer.AsDict? && "emotion" !in answer.fields ==> e == "중립"
  {
    match answer
    case AsDict(fields) => if "emotion" in fields then fields["emotion"] else "중립"
    case AsText(name) => name
  }

  /** process_message. */
  function ProcessMessage(text: string, generator: ResponseGenerator,
                          analyze: string -> Option<EmotionAnswer>,
                          search: (string, nat) -> Option<seq<Doc>>,
                          refine: string -> Option<string>): (r: ChatReply)
    reads generator
    ensures IsBlank(text) ==> r == EmptyInputAnswer
    ensures !IsBlank(text) && (analyze(text).None? || search(text, TopK).None?) ==> r == ErrorAnswer
    ensures !IsBlank(text) && analyze(text).Some? && search(text, TopK).Some? ==>
      var emotion := EmotionOf(analyze(text).value);
      var cases := search(text, TopK).value;
      r == ChatReply(emotion, cases, generator.Compose(text, emotion, Some(cases), refine))
  {
    if IsBlank(text) then EmptyInputAnswer
    else
      match analyze(text)
      case None => ErrorAnswer
      case Some(answer) =>
        var emotion := EmotionOf(answer);
        match search(text, TopK)
        case None => ErrorAnswer
        case Some(cases) => ChatReply(emotion, cases, generator.Compose(text, emotion, Some(cases), refine))
  }

  /** Blank input is answered without calling any collaborator. */
  lemma BlankInputSkipsCollaborators(text: string, g: ResponseGenerator,
                                     a1: string -> Option<EmotionAnswer>, a2: string -> Option<EmotionAnswer>,
                                     s1: (string, nat) -> Option<seq<Doc>>, s2: (string, nat) -> Option<seq<Doc>>,
                                     f1: string -> Option<string>, f2: string -> Option<string>)
    requires IsBlank(text)
    ensures ProcessMessage(text, g, a1, s1, f1) == ProcessMessage(text, g, a2, s2, f2) == EmptyInputAnswer
  {
  }

  /** The cases returned are the ones the reply was composed from, and the
      reply is the generator's; with GPT off, the rule-based reply. */
  lemma ReplyUsesReturnedCases(text: string, g: ResponseGenerator, analyze: string -> Option<EmotionAnswer>,
                               search: (string, nat) -> Option<seq<Doc>>, refine: string -> Option<string>)
    requires !IsBlank(text) && analyze(text).Some? && search(text, TopK).Some?
    requires !g.useGpt
    ensures var r := ProcessMessage(text, g, analyze, search, refine);
      && r.similarCases == search(text, TopK).value
      && r.response == BaseResponse(r.emotion, Some(r.similarCases))
      && QuotedCase(r.response[|Tone(r.emotion)|..]) ==
           (if HasQuotableCase(Some(r.similarCases)) then Some(r.similarCases[0]["text"]) else None)
  {
    var r := ProcessMessage(text, g, analyze, search, refine);
    SummaryQuotesFirstCase(Some(r.similarCases));
  }

  /** Only a real answer carries cases: the blank and the error answers have none. */
  lemma CasesOnlyFromSearch(text: string, g: ResponseGenerator, analyze: string -> Option<EmotionAnswer>,
                            search: (string, nat) -> Option<seq<Doc>>, refine: string -> Option<string>)
    requires ProcessMessage(text, g, analyze, search, refine).similarCases != []
    ensures !IsBlank(text) && search(text, TopK).Some?
    ensures ProcessMessage(text, g, analyze, search, refine).similarCases == search(text, TopK).value
  {
  }
}
