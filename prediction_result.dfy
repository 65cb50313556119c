/** components/prediction-result.tsx: the card that reports an evaluation:
    its title, description and colour, the rounded confidence and its bar
    colour, the feedback text, the optional statistics boxes and the buttons. */
module PredictionResult {
  import opened Types
  import Api

  /** What `getEvaluationDetails` returns, without the icon. */
  datatype Details = Details(title: string, description: string, colour: string)

  function EvaluationDetails(evaluation: string): (d: Details)
    ensures evaluation == Correct ==> d == Details("¡Correcto!", "Has realizado la seña correctamente.", "bg-green-500")
    ensures evaluation == Doubtful ==> d == Details("Casi correcto", "La seña es reconocible pero puede mejorar.", "bg-amber-500")
    ensures evaluation == Incorrect ==> d == Details("Incorrecto", "La seña no ha sido reconocida correctamente.", "bg-red-500")
    ensures evaluation !in {Correct, Doubtful, Incorrect} ==>
      d == Details("Resultado", "Evaluación de la seña realizada.", "bg-primary")
  {
    if evaluation == Correct then Details("¡Correcto!", "Has realizado la seña correctamente.", "bg-green-500")
    else if evaluation == Doubtful then Details("Casi correcto", "La seña es reconocible pero puede mejorar.", "bg-amber-500")
    else if evaluation == Incorrect then Details("Incorrecto", "La seña no ha sido reconocida correctamente.", "bg-red-500")
    else Details("Resultado", "Evaluación de la seña realizada.", "bg-primary")
  }

  /** The border colour: the class name without its "bg-" prefix. */
  function BorderColour(d: Details): (c: string)
    ensures "bg-" <= d.colour ==> "bg-" + c == d.colour
    ensures !("bg-" <= d.colour) ==> c == d.colour
  {
    if "bg-" <= d.colour then d.colour[3..] else d.colour
  }

  /** `Math.round(result.confidence)`. */
  function ConfidencePercent(confidence: real): (p: int)
    ensures confidence - 0.5 < p as real <= confidence + 0.5
  {
    Round(confidence)
  }

  datatype BarColour = Green | Amber | Red

  /** The bar colour: above 80 green, above 50 amber, otherwise red. */
  function ConfidenceColour(percent: int): (c: BarColour)
    ensures c == Green <==> percent > 80
    ensures c == Amber <==> 50 < percent <= 80
    ensures c == Red <==> percent <= 50
  {
    if percent > 80 then Green else if percent > 50 then Amber else Red
  }

  /** The colour never gets worse as the confidence grows. */
  lemma ColourMonotone(a: int, b: int)
    requires a <= b
    ensures ConfidenceColour(a) == Green ==> ConfidenceColour(b) == Green
    ensures ConfidenceColour(b) == Red ==> ConfidenceColour(a) == Red
  {
  }

  /** `result.retroalimentacion || result.observation`: the feedback box shows
      the backend's feedback when it is truthy, else the observation, and is
      absent when both are empty. */
  function Feedback(r: PredictionResponse): (f: Option<string>)
    ensures r.retroalimentacion.Some? && r.retroalimentacion.value != "" ==> f == r.retroalimentacion
    ensures !(r.retroalimentacion.Some? && r.retroalimentacion.value != "") ==>
      f == (if r.observation != "" then Some(r.observation) else None)
    ensures f.Some? ==> f.value != ""
  {
    if r.retroalimentacion.Some? && r.retroalimentacion.value != "" then r.retroalimentacion
    else if r.observation != "" then Some(r.observation)
    else None
  }

  /** A statistics box: its caption and the rounded percentage. */
  datatype StatBox = StatBox(caption: string, percent: int)

  /** The statistics grid: a box per defined value, in order; no grid when
      both are undefined. */
  function StatBoxes(r: PredictionResponse): (boxes: seq<StatBox>)
    ensures |boxes| == (if r.successRate.Some? then 1 else 0) + (if r.averageConfidence.Some? then 1 else 0)
    ensures r.successRate.Some? ==> boxes[0] == StatBox("Tasa de éxito", Round(r.successRate.value))
    ensures r.averageConfidence.Some? ==> boxes[|boxes| - 1] == StatBox("Confianza media", Round(r.averageConfidence.value))
  {
    (if r.successRate.Some? then [StatBox("Tasa de éxito", Round(r.successRate.value))] else [])
    + (if r.averageConfidence.Some? then [StatBox("Confianza media", Round(r.averageConfidence.value))] else [])
  }

  /** The footer buttons, in order; "Continuar practicando" is always there. */
  function Buttons(hasRepeat: bool, hasNextLesson: bool): (b: seq<string>)
    ensures |b| == 1 + (if hasRepeat then 1 else 0) + (if hasNextLesson then 1 else 0)
    ensures b[|b| - 1] == "Continuar practicando"
    ensures hasRepeat <==> "Repetir" in b
    ensures hasNextLesson <==> "Siguiente lección" in b
  {
    (if hasRepeat then ["Repetir"] else []) + (if hasNextLesson then ["Siguiente lección"] else [])
    + ["Continuar practicando"]
  }

  /** The whole card; nothing is rendered without a result. */
  datatype Card = Card(
    details: Details,
    expected: string,
    detected: string,
    confidence: int,
    bar: BarColour,
    feedback: Option<string>,
    stats: seq<StatBox>,
    buttons: seq<string>)

  function View(result: Option<PredictionResponse>, expectedLabel: string,
                hasRepeat: bool, hasNextLesson: bool): (c: Option<Card>)
    ensures c.None? <==> result.None?
    ensures c.Some? ==> c.value.expected == expectedLabel && c.value.detected == result.value.predictedLabel
    ensures c.Some? ==> c.value.bar == ConfidenceColour(c.value.confidence)
    ensures c.Some? ==> c.value.confidence == ConfidencePercent(result.value.confidence)
    ensures c.Some? ==> c.value.details == EvaluationDetails(result.value.evaluation)
    ensures c.Some? ==> c.value.feedback == Feedback(result.value) && c.value.stats == StatBoxes(result.value)
    ensures c.Some? ==> c.value.buttons == Buttons(hasRepeat, hasNextLesson)
  {
    if result.None? then None
    else
      var r := result.value;
      var percent := ConfidencePercent(r.confidence);
      Some(Card(EvaluationDetails(r.evaluation), expectedLabel, r.predictedLabel, percent,
                ConfidenceColour(percent), Feedback(r), StatBoxes(r), Buttons(hasRepeat, hasNextLesson)))
  }

  /** The built-in fallback answer gives its confidence and average confidence
      as fractions below 1, so the card shows them as 0 % or 1 % and the bar
      is always red, whatever the evaluation. */
  lemma FallbackShownAsFraction(expected: string, d: Api.PredictDraws)
    requires Api.ValidPredictDraws(d)
    ensures 0 <= ConfidencePercent(Api.PredictFallback(expected, d).confidence) <= 1
    ensures ConfidenceColour(ConfidencePercent(Api.PredictFallback(expected, d).confidence)) == Red
    ensures Round(Api.PredictFallback(expected, d).averageConfidence.value) == 1
  {
  }
}
