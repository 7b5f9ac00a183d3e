/** Sentiment of a text with the local Korean BERT classifier
    (app/services/local_emotion_model.py). Whether the model and tokenizer
    loaded at import time is the flag `modelLoaded`; tokenising and the
    argmax over the logits are the collaborator `infer`, which gives the
    predicted class index or the message of the exception it raised. */
module LocalEmotionModel {
  import opened Values
  import opened Text

  const ModelPath := "WhitePeak/bert-base-cased-Korean-sentiment"

  /** LABELS, by class index. */
  const Labels: seq<string> := ["부정", "중립", "긍정"]

  datatype Inference = Predicted(index: int) | InferenceFailed(message: string)

  datatype LocalResult = LocalResult(emotion: string, reason: string)

  const BlankResult := LocalResult("중립", "입력이 비어있습니다.")
  const NotLoadedResult := LocalResult("중립", "모델이 로드되지 않았습니다.")
  const PredictedReason := "Hugging Face 모델(" + ModelPath + ") 예측 결과"
  const IndexErrorMessage := "list index out of range"

  function ErrorReason(message: string): string
  {
    "분석 중 오류 발생: " + message
  }

  /** LABELS[i] with Python's indexing: -1 is the last label, and an index
      outside -3..2 raises IndexError. */
  function LabelAt(i: int): (r: Option<string>)
    ensures r.Some? <==> -|Labels| <= i < |Labels|
    ensures 0 <= i < |Labels| ==> r == Some(Labels[i])
    ensures r.Some? ==> r.value in Labels
  {
    if 0 <= i < |Labels| then Some(Labels[i])
    else if -|Labels| <= i < 0 then Some(Labels[|Labels| + i])
    else None
  }

  /** analyze_emotion_local. */
  function AnalyzeEmotionLocal(text: string, modelLoaded: bool, infer: string -> Inference)
    : (r: LocalResult)
    ensures IsBlank(text) ==> r == BlankResult
    ensures !IsBlank(text) && !modelLoaded ==> r == NotLoadedResult
    ensures r.emotion in Labels
    ensures !IsBlank(text) && modelLoaded ==>
      match infer(text)
      case Predicted(i) =>
        if -3 <= i < 3 then r.reason == PredictedReason
        else r == LocalResult("중립", ErrorReason(IndexErrorMessage))
      case InferenceFailed(message) => r == LocalResult("중립", ErrorReason(message))
  {
    if IsBlank(text) then BlankResult
    else if !modelLoaded then NotLoadedResult
    else
      match infer(text)
      case InferenceFailed(message) => LocalResult("중립", ErrorReason(message))
      case Predicted(i) =>
        (match LabelAt(i)
         case Some(name) => LocalResult(name, PredictedReason)
         case None => LocalResult("중립", ErrorReason(IndexErrorMessage)))
  }

  /** The three classes the classifier predicts map to 부정, 중립 and 긍정. */
  lemma ClassIndexToLabel(text: string, infer: string -> Inference)
    requires !IsBlank(text)
    ensures infer(text) == Predicted(0) ==> AnalyzeEmotionLocal(text, true, infer).emotion == "부정"
    ensures infer(text) == Predicted(1) ==> AnalyzeEmotionLocal(text, true, infer).emotion == "중립"
    ensures infer(text) == Predicted(2) ==> AnalyzeEmotionLocal(text, true, infer).emotion == "긍정"
  {
  }

  /** The guards answer before the model is consulted: blank input and a
      missing model give their fixed results whatever inference would say. */
  lemma GuardsIgnoreInference(text: string, loaded: bool, f: string -> Inference, g: string -> Inference)
    requires IsBlank(text) || !loaded
    ensures AnalyzeEmotionLocal(text, loaded, f) == AnalyzeEmotionLocal(text, loaded, g)
  {
  }

  /** Only a successful prediction gives an emotion other than 중립. */
  lemma NonNeutralMeansPredicted(text: string, loaded: bool, infer: string -> Inference)
    requires AnalyzeEmotionLocal(text, loaded, infer).emotion != "중립"
    ensures !IsBlank(text) && loaded && infer(text).Predicted?
    ensures AnalyzeEmotionLocal(text, loaded, infer).reason == PredictedReason
  {
  }
}
