/** The prompt for the KoBART reply model (app/services/response_service_kobart.py).
    Generation itself is the collaborator `generate`. Reading `c["text"]`
    from a case without that key raises KeyError, the Err side here. */
module KoBartResponse {
  import opened Values
  import opened Text

  const FeedbackLabel := "고객 피드백: "
  const ContextLabel := "유사 피드백 참고: "
  const GuidanceLabel := "답변 지침: "
  const AnswerLine := "AI 응답:"

  /** cases[:3] */
  function FirstCases(cases: seq<Doc>): (r: seq<Doc>)
    ensures |r| <= 3 && |r| <= |cases| && r == cases[..|r|]
    ensures |cases| <= 3 ==> r == cases
  {
    if |cases| <= 3 then cases else cases[..3]
  }

  /** The "text" field of every case, in order; all of them must have one. */
  function Texts(cases: seq<Doc>): seq<string>
    requires forall i :: 0 <= i < |cases| ==> "text" in cases[i]
  {
    seq(|cases|, i requires 0 <= i < |cases| => cases[i]["text"])
  }

  /** The context line: "" without cases, otherwise the texts of the first
      three cases joined by one space. */
  function Context(cases: Option<seq<Doc>>): (r: Result<string, string>)
    ensures (cases.None? || cases.value == []) ==> r == Ok("")
    ensures r.Err? <==>
      cases.Some? && exists i :: 0 <= i < |FirstCases(cases.value)| && "text" !in FirstCases(cases.value)[i]
    ensures r.Err? ==> r.error == "text"
    ensures r.Ok? && cases.Some? && cases.value != [] ==> r.value == Join(" ", Texts(FirstCases(cases.value)))
  {
    if cases.None? || cases.value == [] then Ok("")
    else
      var firsts := FirstCases(cases.value);
      if forall i :: 0 <= i < |firsts| ==> "text" in firsts[i] then Ok(Join(" ", Texts(firsts)))
      else Err("text")
  }

  /** The context reads back as the case texts when none of them holds a space. */
  lemma ContextSplitsIntoCaseTexts(cases: seq<Doc>)
    requires cases != []
    requires forall i :: 0 <= i < |FirstCases(cases)| ==> "text" in FirstCases(cases)[i]
    requires forall i :: 0 <= i < |FirstCases(cases)| ==> ' ' !in FirstCases(cases)[i]["text"]
    ensures Context(Some(cases)).Ok?
    ensures Split(Context(Some(cases)).value, ' ') == Texts(FirstCases(cases))
  {
    var texts := Texts(FirstCases(cases));
    assert forall i :: 0 <= i < |texts| ==> ' ' !in texts[i];
    SplitJoin(texts, ' ');
  }

  /** The guidance table, keyed by the English labels, with a default. */
  function Guidance(emotion: string): (r: string)
    ensures emotion == "positive" ==> r == "감사한 마음으로 답변하세요."
    ensures emotion == "negative" ==> r == "사과와 공감이 담긴 답변을 하세요."
    ensures emotion == "neutral" ==> r == "공손하고 객관적인 어조로 답변하세요."
    ensures emotion != "positive" && emotion != "negative" && emotion != "neutral" ==> r == "공손하게 답변하세요."
    ensures '\n' !in r
  {
    if emotion == "positive" then "감사한 마음으로 답변하세요."
    else if emotion == "negative" then "사과와 공감이 담긴 답변을 하세요."
    else if emotion == "neutral" then "공손하고 객관적인 어조로 답변하세요."
    else "공손하게 답변하세요."
  }

  /** _build_prompt */
  function BuildPrompt(text: string, emotion: string, context: string): string
  {
    FeedbackLabel + text + "\n" + ContextLabel + context + "\n" + GuidanceLabel + Guidance(emotion) + "\n" + AnswerLine
  }

  lemma JoinFour(sep: string, a: string, b: string, c: string, d: string)
    ensures Join(sep, [a, b, c, d]) == a + sep + b + sep + c + sep + d
  {
    assert [a, b, c, d][1..] == [b, c, d] && [b, c, d][1..] == [c, d] && [c, d][1..] == [d];
    assert Join(sep, [c, d]) == c + sep + d;
    assert Join(sep, [b, c, d]) == b + sep + (c + sep + d);
  }

  /** The four lines of the prompt. */
  function PromptLineSeq(text: string, emotion: string, context: string): seq<string>
  {
    [FeedbackLabel + text, ContextLabel + context, GuidanceLabel + Guidance(emotion), AnswerLine]
  }

  lemma PromptIsJoin(text: string, emotion: string, context: string)
    ensures Join("\n", PromptLineSeq(text, emotion, context)) == BuildPrompt(text, emotion, context)
  {
    JoinFour("\n", FeedbackLabel + text, ContextLabel + context, GuidanceLabel + Guidance(emotion), AnswerLine);
  }

  lemma LabelsAreSingleLines()
    ensures '\n' !in FeedbackLabel && '\n' !in ContextLabel && '\n' !in GuidanceLabel && '\n' !in AnswerLine
  {
  }

  /** The prompt is the four labelled lines, in order, when neither the
      feedback nor the context has a line break of its own. */
  lemma PromptLines(text: string, emotion: string, context: string)
    requires '\n' !in text && '\n' !in context
    ensures Split(BuildPrompt(text, emotion, context), '\n') ==
      [FeedbackLabel + text, ContextLabel + context, GuidanceLabel + Guidance(emotion), AnswerLine]
  {
    var lines := PromptLineSeq(text, emotion, context);
    PromptIsJoin(text, emotion, context);
    LabelsAreSingleLines();
    assert forall i :: 0 <= i < |lines| ==> '\n' !in lines[i];
    SplitJoin(lines, '\n');
  }

  /** The feedback and the context stand in the prompt verbatim, right after
      their labels. */
  lemma PromptQuotesVerbatim(text: string, emotion: string, context: string)
    ensures var p := BuildPrompt(text, emotion, context);
      var k := |FeedbackLabel| + |text| + 1 + |ContextLabel|;
      && |p| >= k + |context|
      && p[|FeedbackLabel|..|FeedbackLabel| + |text|] == text
      && p[k..k + |context|] == context
  {
    var p := BuildPrompt(text, emotion, context);
    var rest := context + "\n" + GuidanceLabel + Guidance(emotion) + "\n" + AnswerLine;
    assert p == FeedbackLabel + text + "\n" + ContextLabel + rest;
  }

  /** compose: the context, the prompt, then the model's answer. */
  function Compose(text: string, emotion: string, cases: Option<seq<Doc>>, generate: string -> string)
    : (r: Result<string, string>)
    ensures r.Err? <==> Context(cases).Err?
    ensures r.Ok? ==> r.value == generate(BuildPrompt(text, emotion, Context(cases).value))
  {
    match Context(cases)
    case Err(key) => Err(key)
    case Ok(context) => Ok(generate(BuildPrompt(text, emotion, context)))
  }

  /** Without cases the model is asked with an empty context line. */
  lemma NoCasesEmptyContext(text: string, emotion: string, generate: string -> string)
    ensures Compose(text, emotion, None, generate) == Ok(generate(BuildPrompt(text, emotion, "")))
    ensures Compose(text, emotion, Some([]), generate) == Ok(generate(BuildPrompt(text, emotion, "")))
  {
  }
}
