/** The rule-based chatbot reply (app/services/chatbot_service.py): emotion
    from the classifier, up to three similar feedbacks from the vector
    search, de-duplicated, and a reply assembled from a tone table and a
    short digest of the feedbacks. The classifier and the search are the
    collaborators `classify` and `search`; each gives None where it raises. */
module ChatbotService {
  import opened Values
  import opened Text

  const EmptyInputReply := "메시지를 입력해주세요 😊"
  const FailureReply := "현재 응답을 생성할 수 없습니다. 잠시 후 다시 시도해주세요 🙏"
  const AttachmentHeader := "\n\n📎 참고된 유사 피드백:\n"
  const DigestSeparator := " / "
  const DigestLimit := 200
  const TopK := 3

  const PositiveTone := "감사합니다 😊 고객님의 좋은 의견이 큰 힘이 됩니다."
  const NegativeTone := "불편을 드려 죄송합니다 🙏 개선을 위해 최선을 다하겠습니다."
  const NeutralTone := "소중한 의견 감사합니다. 더 나은 서비스를 준비하겠습니다."

  /** `doc.get("text", "")` */
  function DocText(doc: Doc): string
  {
    if "text" in doc then doc["text"] else ""
  }

  function DocTexts(docs: seq<Doc>): (r: seq<string>)
    ensures |r| == |docs| && forall i :: 0 <= i < |docs| ==> r[i] == DocText(docs[i])
  {
    seq(|docs|, i requires 0 <= i < |docs| => DocText(docs[i]))
  }

  /** The raw texts the loop keeps: each non-empty text, once, where it first
      occurs. */
  predicate AllEmpty(texts: seq<string>)
  {
    forall i :: 0 <= i < |texts| ==> texts[i] == ""
  }

  function FirstOccurrences(texts: seq<string>): (r: seq<string>)
    ensures r == [] <==> AllEmpty(texts)
  {
    if texts == [] then []
    else
      var kept := FirstOccurrences(texts[..|texts| - 1]);
      var t := texts[|texts| - 1];
      if t != "" && t !in kept then kept + [t] else kept
  }

  /** A text is kept exactly when it is non-empty and occurs in the input. */
  lemma {:induction false} FirstOccurrencesMembers(texts: seq<string>)
    ensures forall t :: t in FirstOccurrences(texts) <==> t in texts && t != ""
  {
    if texts != [] {
      var init := texts[..|texts| - 1];
      FirstOccurrencesMembers(init);
      assert texts == init + [texts[|texts| - 1]];
    }
  }

  predicate Distinct(s: seq<string>)
  {
    forall i, j :: 0 <= i < j < |s| ==> s[i] != s[j]
  }

  /** No text is kept twice, and the empty text never. */
  lemma {:induction false} FirstOccurrencesDistinct(texts: seq<string>)
    ensures Distinct(FirstOccurrences(texts))
    ensures "" !in FirstOccurrences(texts)
  {
    if texts != [] {
      var init := texts[..|texts| - 1];
      FirstOccurrencesDistinct(init);
      var kept := FirstOccurrences(init);
      var t := texts[|texts| - 1];
      if t != "" && t !in kept {
        var r := kept + [t];
        forall i, j | 0 <= i < j < |r|
          ensures r[i] != r[j]
        {
          assert r[i] == kept[i] && kept[i] in kept;
          if j < |kept| {
            assert r[j] == kept[j];
          } else {
            assert r[j] == t;
          }
        }
      }
    }
  }

  /** There are never more kept texts than retrieved documents. */
  lemma {:induction false} FirstOccurrencesShorter(texts: seq<string>)
    ensures |FirstOccurrences(texts)| <= |texts|
  {
    if texts != [] {
      FirstOccurrencesShorter(texts[..|texts| - 1]);
    }
  }

  /** One more document adds its text at the end exactly when that text is
      non-empty and new, so the kept texts come in first-occurrence order. */
  lemma FirstOccurrencesExtend(texts: seq<string>, t: string)
    ensures FirstOccurrences(texts + [t]) ==
      FirstOccurrences(texts) + (if t != "" && t !in texts then [t] else [])
  {
    assert (texts + [t])[..|texts|] == texts;
    FirstOccurrencesMembers(texts);
  }

  function StripAll(texts: seq<string>): (r: seq<string>)
    ensures |r| == |texts| && forall i :: 0 <= i < |texts| ==> r[i] == Strip(texts[i])
  {
    seq(|texts|, i requires 0 <= i < |texts| => Strip(texts[i]))
  }

  /** context_texts: the kept texts, stripped. The de-duplication looks at the
      text as retrieved, so " a" and "a" are both kept, as "a" twice. */
  function ContextTexts(docs: seq<Doc>): (r: seq<string>)
    ensures |r| <= |docs|
    ensures r == [] <==> forall i :: 0 <= i < |docs| ==> DocText(docs[i]) == ""
  {
    FirstOccurrencesShorter(DocTexts(docs));
    StripAll(FirstOccurrences(DocTexts(docs)))
  }

  lemma KeepsTwoDistinct(t1: string, t2: string)
    requires t1 != "" && t2 != "" && t1 != t2
    ensures FirstOccurrences([t1, t2]) == [t1, t2]
  {
    FirstOccurrencesExtend([], t1);
    assert [] + [t1] == [t1];
    FirstOccurrencesExtend([t1], t2);
    assert [t1] + [t2] == [t1, t2];
  }

  lemma TwoDocTexts(t1: string, t2: string)
    ensures DocTexts([map["text" := t1], map["text" := t2]]) == [t1, t2]
  {
  }

  lemma StripTwo(t1: string, t2: string)
    ensures StripAll([t1, t2]) == [Strip(t1), Strip(t2)]
  {
  }

  lemma DedupKeyIsRawText(t1: string, t2: string)
    requires t1 != "" && t2 != "" && t1 != t2
    ensures ContextTexts([map["text" := t1], map["text" := t2]]) == [Strip(t1), Strip(t2)]
  {
    TwoDocTexts(t1, t2);
    KeepsTwoDistinct(t1, t2);
    StripTwo(t1, t2);
  }

  /** The tone table is keyed by the Korean labels; any other label gets the
      neutral entry. */
  function ToneFor(emotion: string): (r: string)
    ensures emotion == "긍정" ==> r == PositiveTone
    ensures emotion == "부정" ==> r == NegativeTone
    ensures r == NeutralTone <==> emotion != "긍정" && emotion != "부정"
  {
    if emotion == "긍정" then PositiveTone
    else if emotion == "부정" then NegativeTone
    else NeutralTone
  }

  const ResultPrefix := "감정 분석 결과: **"
  const ResultSuffix := "**\n\n"

  /** The header names the emotion verbatim, in bold, and ends with its tone. */
  function Header(emotion: string): (r: string)
    ensures |r| == |ResultPrefix| + |emotion| + |ResultSuffix| + |ToneFor(emotion)|
    ensures r[|ResultPrefix|..|ResultPrefix| + |emotion|] == emotion
    ensures r[|r| - |ToneFor(emotion)|..] == ToneFor(emotion)
  {
    ResultPrefix + emotion + ResultSuffix + ToneFor(emotion)
  }

  /** context_texts[:3] */
  function FirstThree(context: seq<string>): (r: seq<string>)
    ensures |r| <= 3 && |r| <= |context| && r == context[..|r|]
    ensures |context| <= 3 ==> r == context
    ensures |context| >= 3 ==> |r| == 3
  {
    if |context| <= 3 then context else context[..3]
  }

  /** The digest: the first three context entries joined by " / ", cut to
      200 characters; the whole join when it fits, else its first 200. */
  function Digest(context: seq<string>): (r: string)
    ensures var joined := Join(DigestSeparator, FirstThree(context));
      && |r| <= DigestLimit && |r| <= |joined|
      && r == joined[..|r|]
      && (|joined| <= DigestLimit ==> r == joined)
      && (|joined| > DigestLimit ==> |r| == DigestLimit)
  {
    Take(Join(DigestSeparator, FirstThree(context)), DigestLimit)
  }

  /** Entries after the third never reach the digest. */
  lemma DigestIgnoresLaterEntries(context: seq<string>, later: seq<string>)
    requires |context| >= 3
    ensures Digest(context + later) == Digest(context)
  {
    assert (context + later)[..3] == context[..3];
  }

  /** The reply: header, then the digest when there is context. */
  function Reply(emotion: string, context: seq<string>): (r: string)
    ensures context == [] ==> r == Header(emotion)
    ensures context != [] ==> r == Header(emotion) + AttachmentHeader + Digest(context) + "..."
    ensures |r| <= |Header(emotion)| + |AttachmentHeader| + DigestLimit + 3
    ensures |r| >= |Header(emotion)| && r[..|Header(emotion)|] == Header(emotion)
  {
    if context == [] then Header(emotion)
    else Header(emotion) + AttachmentHeader + Digest(context) + "..."
  }

  /** `emotion_result.get("emotion", "중립")` */
  function EmotionLabel(result: map<string, string>): string
  {
    if "emotion" in result then result["emotion"] else "중립"
  }

  /** chatbot_response, as a function of the input and the collaborators. */
  function ChatbotReply(userText: string, classify: string -> Option<map<string, string>>,
                        search: (string, nat) -> Option<seq<Doc>>): (r: string)
    ensures IsBlank(userText) ==> r == EmptyInputReply
    ensures !IsBlank(userText) && (classify(userText).None? || search(userText, TopK).None?) ==> r == FailureReply
    ensures !IsBlank(userText) && classify(userText).Some? && search(userText, TopK).Some? ==>
      r == Reply(EmotionLabel(classify(userText).value), ContextTexts(search(userText, TopK).value))
  {
    if IsBlank(userText) then EmptyInputReply
    else
      match classify(userText)
      case None => FailureReply
      case Some(result) =>
        var emotion := EmotionLabel(result);
        match search(userText, TopK)
        case None => FailureReply
        case Some(docs) => Reply(emotion, ContextTexts(docs))
  }

  lemma StripAllAppend(texts: seq<string>, t: string)
    ensures StripAll(texts + [t]) == StripAll(texts) + [Strip(t)]
  {
  }

  /** One pass of the loop body on the de-duplication function: the text is
      appended exactly when it is non-empty and not yet kept. */
  lemma CollectStep(texts: seq<string>, i: nat)
    requires i < |texts|
    ensures var kept := FirstOccurrences(texts[..i]);
      FirstOccurrences(texts[..i + 1]) == kept + (if texts[i] != "" && texts[i] !in kept then [texts[i]] else [])
  {
    assert texts[..i + 1] == texts[..i] + [texts[i]];
    FirstOccurrencesExtend(texts[..i], texts[i]);
    FirstOccurrencesMembers(texts[..i]);
  }

  /** The de-duplication loop: a list of stripped texts and a set of the raw
      texts already seen. */
  method CollectContext(docs: seq<Doc>) returns (contextTexts: seq<string>)
    ensures contextTexts == ContextTexts(docs)
  {
    ghost var texts := DocTexts(docs);
    ghost var kept: seq<string> := [];
    contextTexts := [];
    var seen: set<string> := {};
    var i := 0;
    while i < |docs|
      invariant 0 <= i <= |docs|
      invariant kept == FirstOccurrences(texts[..i])
      invariant contextTexts == StripAll(kept)
      invariant forall t :: t in seen <==> t in kept
    {
      var text := DocText(docs[i]);
      CollectStep(texts, i);
      if text !in seen && text != "" {
        StripAllAppend(kept, text);
        kept := kept + [text];
        contextTexts := contextTexts + [Strip(text)];
        seen := seen + {text};
      }
      i := i + 1;
    }
    assert texts[..|docs|] == texts;
  }

  /** chatbot_response. */
  method ChatbotResponse(userText: string, classify: string -> Option<map<string, string>>,
                         search: (string, nat) -> Option<seq<Doc>>)
    returns (response: string)
    ensures response == ChatbotReply(userText, classify, search)
  {
    if IsBlank(userText) {
      return EmptyInputReply;
    }
    var result := classify(userText);
    if result.None? {
      return FailureReply;
    }
    var emotion := EmotionLabel(result.value);
    var related := search(userText, TopK);
    if related.None? {
      return FailureReply;
    }
    var contextTexts := CollectContext(related.value);
    response := Header(emotion);
    if contextTexts != [] {
      response := response + AttachmentHeader + Digest(contextTexts) + "...";
    }
  }

  /** Blank input is answered without calling the classifier or the search. */
  lemma BlankInputSkipsCollaborators(userText: string,
                                      c1: string -> Option<map<string, string>>,
                                      c2: string -> Option<map<string, string>>,
                                      s1: (string, nat) -> Option<seq<Doc>>,
                                      s2: (string, nat) -> Option<seq<Doc>>)
    requires IsBlank(userText)
    ensures ChatbotReply(userText, c1, s1) == ChatbotReply(userText, c2, s2) == EmptyInputReply
  {
  }

  /** A failing classifier or search gives the fixed apology. */
  lemma FailureGivesApology(userText: string, classify: string -> Option<map<string, string>>,
                            search: (string, nat) -> Option<seq<Doc>>)
    requires !IsBlank(userText)
    requires classify(userText).None? || search(userText, TopK).None?
    ensures ChatbotReply(userText, classify, search) == FailureReply
  {
  }

  /** Otherwise the reply opens with the emotion and its tone, and the
      number of context entries is at most the number of documents. */
  lemma ReplyShape(userText: string, classify: string -> Option<map<string, string>>,
                   search: (string, nat) -> Option<seq<Doc>>)
    requires !IsBlank(userText) && classify(userText).Some? && search(userText, TopK).Some?
    ensures var emotion := EmotionLabel(classify(userText).value);
      var r := ChatbotReply(userText, classify, search);
      && |ContextTexts(search(userText, TopK).value)| <= |search(userText, TopK).value|
      && |r| >= |Header(emotion)|
      && r[..|Header(emotion)|] == Header(emotion)
  {
    FirstOccurrencesShorter(DocTexts(search(userText, TopK).value));
    var emotion := EmotionLabel(classify(userText).value);
    var r := Reply(emotion, ContextTexts(search(userText, TopK).value));
    assert ChatbotReply(userText, classify, search) == r;
  }

  /** An emotion outside the table, including a missing one, gets the 중립 tone. */
  lemma UnknownEmotionGetsNeutralTone(emotion: string)
    requires emotion != "긍정" && emotion != "부정"
    ensures Header(emotion) == "감정 분석 결과: **" + emotion + "**\n\n" + NeutralTone
  {
  }
}
