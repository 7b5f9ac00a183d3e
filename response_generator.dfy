/** The rule-based reply with optional GPT polishing
    (app/services/response_generator.py). A retrieved case is a dict from
    field names to strings; `cases` is None or a list of them. The GPT call
    is the collaborator `refine`, which gives None where it raises. Whether
    OPENAI_API_KEY is set is the constructor's `apiKey`. */
module ResponseGeneration {
  import opened Values

  const PositiveTone := "진심으로 감사드립니다. 고객님의 소중한 의견은 큰 힘이 됩니다. "
  const NegativeTone := "불편을 드려 정말 죄송합니다. 더 나은 서비스를 위해 개선하겠습니다. "
  const NeutralTone := "의견을 남겨주셔서 감사합니다. 참고하여 서비스 품질을 높이겠습니다. "
  const DefaultTone := "의견을 남겨주셔서 감사합니다. "

  const QuotePrefix := "유사한 사례로 '"
  const QuoteSuffix := "' 이(가) 있었습니다."
  const NoCasesSummary := "유사한 고객 사례는 아직 없습니다."

  /** The tone table, keyed by the English labels only. */
  function Tone(emotion: string): (r: string)
    ensures emotion == "positive" ==> r == PositiveTone
    ensures emotion == "negative" ==> r == NegativeTone
    ensures emotion == "neutral" ==> r == NeutralTone
    ensures emotion != "positive" && emotion != "negative" && emotion != "neutral" ==> r == DefaultTone
  {
    if emotion == "positive" then PositiveTone
    else if emotion == "negative" then NegativeTone
    else if emotion == "neutral" then NeutralTone
    else DefaultTone
  }

  /** `cases and isinstance(cases, list) and "text" in cases[0]`. */
  predicate HasQuotableCase(cases: Option<seq<Doc>>)
  {
    cases.Some? && cases.value != [] && "text" in cases.value[0]
  }

  /** The sentence about similar cases: the first case's text, quoted, or the
      fixed no-cases sentence. */
  function Summary(cases: Option<seq<Doc>>): (r: string)
    ensures HasQuotableCase(cases) ==> r == QuotePrefix + cases.value[0]["text"] + QuoteSuffix
    ensures !HasQuotableCase(cases) ==> r == NoCasesSummary
  {
    if HasQuotableCase(cases) then QuotePrefix + cases.value[0]["text"] + QuoteSuffix
    else NoCasesSummary
  }

  /** Reads the quoted case back out of a summary sentence. */
  function QuotedCase(summary: string): Option<string>
  {
    if |summary| >= |QuotePrefix| + |QuoteSuffix|
       && summary[..|QuotePrefix|] == QuotePrefix
       && summary[|summary| - |QuoteSuffix|..] == QuoteSuffix
    then Some(summary[|QuotePrefix|..|summary| - |QuoteSuffix|])
    else None
  }

  /** The summary quotes the first case exactly when there is one to quote,
      and the quoted text is that case's text, verbatim. */
  lemma SummaryQuotesFirstCase(cases: Option<seq<Doc>>)
    ensures QuotedCase(Summary(cases)) ==
      (if HasQuotableCase(cases) then Some(cases.value[0]["text"]) else None)
  {
    if HasQuotableCase(cases) {
      var t := cases.value[0]["text"];
      var s := QuotePrefix + t + QuoteSuffix;
      assert s[..|QuotePrefix|] == QuotePrefix;
      assert s[|s| - |QuoteSuffix|..] == QuoteSuffix;
      assert s[|QuotePrefix|..|s| - |QuoteSuffix|] == t;
    } else {
      assert |NoCasesSummary| < |QuotePrefix| + |QuoteSuffix|;
    }
  }

  /** _base_response: tone followed by the summary. */
  function BaseResponse(emotion: string, cases: Option<seq<Doc>>): (r: string)
    ensures |r| >= |Tone(emotion)|
    ensures r[..|Tone(emotion)|] == Tone(emotion)
    ensures r[|Tone(emotion)|..] == Summary(cases)
  {
    Tone(emotion) + Summary(cases)
  }

  /** A label the table does not know, such as the Korean 긍정, gets the
      default tone. */
  lemma KoreanLabelsGetDefaultTone(cases: Option<seq<Doc>>)
    ensures BaseResponse("긍정", cases) == DefaultTone + Summary(cases)
    ensures BaseResponse("부정", cases) == DefaultTone + Summary(cases)
    ensures BaseResponse("중립", cases) == DefaultTone + Summary(cases)
  {
  }

  /** The reply generator; its one field says whether GPT polishing is on. */
  class ResponseGenerator {
    var useGpt: bool

    /** __init__: a missing or empty API key turns polishing off. */
    constructor (useGpt: bool, apiKey: Option<string>)
      ensures this.useGpt <==> useGpt && apiKey.Some? && apiKey.value != ""
    {
      this.useGpt := useGpt;
      if apiKey.None? || apiKey.value == "" {
        this.useGpt := false;
      }
    }

    /** compose: the base response, replaced by GPT's version when polishing
        is on and the call succeeds. The text argument is not used. */
    function Compose(text: string, emotion: string, cases: Option<seq<Doc>>,
                     refine: string -> Option<string>): (r: string)
      reads this
      ensures !useGpt ==> r == BaseResponse(emotion, cases)
      ensures useGpt && refine(BaseResponse(emotion, cases)).Some? ==>
        r == refine(BaseResponse(emotion, cases)).value
      ensures useGpt && refine(BaseResponse(emotion, cases)).None? ==> r == BaseResponse(emotion, cases)
    {
      var baseText := BaseResponse(emotion, cases);
      if useGpt then
        match refine(baseText)
        case Some(refined) => refined
        case None => baseText
      else baseText
    }
  }

  /** Without polishing the reply does not depend on the GPT call or on the
      text, and a failing GPT call cannot be told from polishing being off. */
  lemma ComposeFallsBackToBase(g: ResponseGenerator, t1: string, t2: string, emotion: string,
                               cases: Option<seq<Doc>>, f1: string -> Option<string>,
                               f2: string -> Option<string>)
    requires !g.useGpt || f1(BaseResponse(emotion, cases)).None?
    ensures g.Compose(t1, emotion, cases, f1) == BaseResponse(emotion, cases)
    ensures !g.useGpt ==> g.Compose(t1, emotion, cases, f1) == g.Compose(t2, emotion, cases, f2)
  {
  }
}
