/** Reading the inference service's answer: the predicted label is
    `response.data.predictions[0].values[0][0]` and the probability vector is
    `response.data.predictions[0].values[0][1]`, whose first and second elements are the AI and
    human probabilities. Any of these accesses can throw, which ends the prediction with a
    server error; `Extract` makes that an explicit `None`. */
module Upstream {
  import opened Options
  import opened JsValues

  /** The accesses `.predictions[0].values[0]` that lead to the first result row. */
  const RowPath: seq<Key> := [Prop("predictions"), Index(0), Prop("values"), Index(0)]

  /** The predicted and the two probabilities, as whatever JavaScript values the service sent. */
  datatype Prediction = Prediction(predicted: JsValue, aiProbability: JsValue, humanProbability: JsValue)

  function Extract(data: JsValue): (r: Option<Prediction>) {
    var row := Path(data, RowPath);
    if row.TypeError? then None
    else
      var predicted, probabilities := Get(row.v, Index(0)), Get(row.v, Index(1));
      if predicted.TypeError? || probabilities.TypeError? then None
      else
        var ai, human := Get(probabilities.v, Index(0)), Get(probabilities.v, Index(1));
        if ai.TypeError? || human.TypeError? then None
        else Some(Prediction(predicted.v, ai.v, human.v))
  }

  /** `Extract` succeeds exactly when none of the four access expressions of the handler
      throws, each evaluated on its own from `data`, and then it holds their values. */
  lemma ExtractEvaluatesAccesses(data: JsValue)
    ensures var predicted := Path(data, RowPath + [Index(0)]);
            var probabilities := Path(data, RowPath + [Index(1)]);
            var ai := Path(data, RowPath + [Index(1), Index(0)]);
            var human := Path(data, RowPath + [Index(1), Index(1)]);
      && (Extract(data).Some? <==> predicted.Value? && probabilities.Value? && ai.Value? && human.Value?)
      && (Extract(data).Some? ==>
            Extract(data).value == Prediction(predicted.v, ai.v, human.v))
  {
    PathAppend(data, RowPath, [Index(0)]);
    PathAppend(data, RowPath, [Index(1)]);
    PathAppend(data, RowPath, [Index(1), Index(0)]);
    PathAppend(data, RowPath, [Index(1), Index(1)]);
    match Path(data, RowPath) {
      case TypeError =>
      case Value(row) =>
        PathAppend(row, [Index(1)], [Index(0)]);
        PathAppend(row, [Index(1)], [Index(1)]);
    }
  }

  /** The answer of the inference service for one input row: a prediction whose first row
      holds the predicted and the probability vector. */
  function Answer(predicted: JsValue, ai: JsValue, human: JsValue): (data: JsValue) {
    Obj(map["predictions" := Arr([Obj(map["values" := Arr([Arr([predicted, Arr([ai, human])])])])])])
  }

  /** A well-formed answer gives back exactly the predicted and probabilities it carries. */
  lemma ExtractAnswer(predicted: JsValue, ai: JsValue, human: JsValue)
    ensures Extract(Answer(predicted, ai, human)) == Some(Prediction(predicted, ai, human))
  {
  }

  /** An answer that is not a JSON object has no `predictions`, so `[0]` throws. */
  lemma ExtractNeedsObject(data: JsValue)
    requires !data.Obj?
    ensures Extract(data) == None
  {
  }

  /** An answer without predictions, or with an empty prediction list, fails. */
  lemma ExtractNeedsPrediction(data: JsValue)
    requires data.Obj?
    requires "predictions" !in data.props || data.props["predictions"] == Arr([])
    ensures Extract(data) == None
  {
  }

  /** A first result row with fewer than two cells has no probability vector, so indexing it
      throws, whatever else the answer holds. */
  lemma ExtractNeedsProbabilities(data: JsValue)
    requires Path(data, RowPath).Value? && Path(data, RowPath).v.Arr?
    requires |Path(data, RowPath).v.items| < 2
    ensures Extract(data) == None
  {
  }
}
