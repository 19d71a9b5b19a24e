/** The two relay handlers as pure functions of their inputs. The configuration read at start-up
    is an explicit immutable value; the network is replaced by the upstream reply, a parameter.
    A handler returns the outbound requests it issues together with the response it sends, so
    that "no upstream request is made" and "exactly one request is made" are statements about
    its result. */
module Relay {
  import opened Options
  import opened JsString
  import opened Runs
  import opened TextStats
  import opened JsValues
  import opened Upstream

  /** The configuration loaded once at start-up: the API key, the inference service's URL and
      the token service's URL. */
  datatype Config = Config(apiKey: string, inferenceUrl: string, tokenUrl: string)

  datatype Header = Header(name: string, value: string)

  /** A cell of the tabular payload: a JSON number or a JSON string. */
  datatype Cell = Int(n: int) | Text(s: string)

  /** One table of the inference payload: column names and rows of cells. */
  datatype InputData = InputData(fields: seq<string>, values: seq<seq<Cell>>)

  /** The inference payload `{input_data: [...]}`. */
  datatype Payload = Payload(inputData: seq<InputData>)

  datatype Body = Json(payload: Payload) | Form(text: string)

  /** A request the relay sends upstream; `timeoutMs` is `None` when none is configured. */
  datatype Outbound = Outbound(url: string, headers: seq<Header>, body: Body, timeoutMs: Option<nat>)

  /** What an upstream call gives back: the parsed body of a successful answer, or a failure (an
      error status, a network error or the timeout), whose details the model does not keep. */
  datatype Reply = Replied(data: JsValue) | Failed

  datatype Overall = Overall(
    isAI: bool,
    aiProbability: JsValue,
    humanProbability: JsValue,
    confidence: Option<real>,
    classification: string)

  datatype Statistics = Statistics(
    totalSentences: nat,
    analyzedSentences: nat,
    aiSentences: nat,
    humanSentences: nat)

  datatype TextInfo = TextInfo(originalLength: nat, wordCount: nat, sentenceCount: nat)

  /** The JSON object returned by a successful prediction. */
  datatype PredictionResult = PredictionResult(overall: Overall, statistics: Statistics, textInfo: TextInfo)

  datatype ResponseBody =
    | Forwarded(data: JsValue)
    | Analysis(result: PredictionResult)
    | Error(message: string)

  datatype Response = Response(status: nat, body: ResponseBody)

  /** The requests a handler sent upstream, in order, and the response it gave its client. */
  datatype Exchange = Exchange(sent: seq<Outbound>, response: Response)

  // ---------------------------------------------------------------------------------------
  // Token issuance

  /** The request body of the token route; `apikey` is optional. */
  datatype TokenRequest = TokenRequest(apikey: Option<string>)

  const GrantPrefix: string := "grant_type=urn:ibm:params:oauth:grant-type:apikey&apikey="

  /** `req.body.apikey || IBM_API_KEY`: the caller's key unless it is absent or empty. */
  function SelectApiKey(requested: Option<string>, configured: string): (key: string)
    ensures key == configured || (requested.Some? && key == requested.value)
    ensures requested.Some? && requested.value != "" ==> key == requested.value
    ensures key == configured <== requested.None? || requested.value == ""
    ensures key != "" <== configured != ""
  {
    if Truthy(requested) then requested.value else configured
  }

  /** The form-encoded token request body; the key is interpolated as it is, not encoded. */
  function TokenBody(key: string): (body: string) {
    GrantPrefix + key
  }

  /** The key carried by a token request body, read back from after the grant prefix. */
  function BodyApiKey(body: string): (key: Option<string>) {
    if |GrantPrefix| <= |body| && body[..|GrantPrefix|] == GrantPrefix
    then Some(body[|GrantPrefix|..]) else None
  }

  /** The body carries exactly the key it was built from, so distinct keys give distinct
      bodies. */
  lemma TokenBodyRoundTrip(key: string)
    ensures BodyApiKey(TokenBody(key)) == Some(key)
  {
    assert TokenBody(key)[..|GrantPrefix|] == GrantPrefix;
    assert TokenBody(key)[|GrantPrefix|..] == key;
  }

  function TokenCall(config: Config, key: string): (call: Outbound) {
    Outbound(
      config.tokenUrl,
      [Header("Content-Type", "application/x-www-form-urlencoded"), Header("Accept", "application/json")],
      Form(TokenBody(key)),
      None)
  }

  /** `POST /api/token`: one request to the token service, whose answer is forwarded verbatim
      on success; any failure gives a 500 response. */
  function HandleToken(config: Config, request: TokenRequest, reply: Reply): (x: Exchange)
    ensures |x.sent| == 1 && x.sent[0].url == config.tokenUrl && x.sent[0].timeoutMs == None
    ensures x.sent[0].body.Form?
    ensures BodyApiKey(x.sent[0].body.text) == Some(SelectApiKey(request.apikey, config.apiKey))
    ensures LookupHeader(x.sent[0].headers, "Content-Type") == Some("application/x-www-form-urlencoded")
    ensures reply.Replied? ==> x.response == Response(200, Forwarded(reply.data))
    ensures reply.Failed? ==> x.response == Response(500, Error("Token generation failed"))
  {
    var key := SelectApiKey(request.apikey, config.apiKey);
    TokenBodyRoundTrip(key);
    var call := TokenCall(config, key);
    match reply
    case Replied(data) => Exchange([call], Response(200, Forwarded(data)))
    case Failed => Exchange([call], Response(500, Error("Token generation failed")))
  }

  // ---------------------------------------------------------------------------------------
  // Prediction: request construction

  /** The request body of the prediction route. */
  datatype PredictRequest = PredictRequest(token: Option<string>, text: Option<string>)

  const PayloadFields: seq<string> := ["sr.no", "text", "source", "label_name"]

  const PredictTimeoutMs: nat := 30000

  /** The payload carrying `text` in a single table of one row. */
  function BuildPayload(text: string): (p: Payload)
    ensures |p.inputData| == 1
    ensures p.inputData[0].fields == PayloadFields
    ensures |p.inputData[0].values| == 1 && |p.inputData[0].values[0]| == |PayloadFields|
  {
    Payload([InputData(PayloadFields, [[Int(1), Text(text), Text("user"), Text("unknown")]])])
  }

  /** The position of the first occurrence of `x` in `xs`. */
  function IndexOf(xs: seq<string>, x: string): (r: Option<nat>)
    ensures r.Some? ==> r.value < |xs| && xs[r.value] == x && x !in xs[..r.value]
    ensures r.None? ==> x !in xs
  {
    if xs == [] then None
    else if xs[0] == x then Some(0)
    else match IndexOf(xs[1..], x)
      case None => None
      case Some(i) => Some(i + 1)
  }

  /** The cell of column `field` in row `row` of a table, as a reader of the table finds it. */
  function Column(table: InputData, row: nat, field: string): (cell: Option<Cell>) {
    match IndexOf(table.fields, field)
    case None => None
    case Some(c) =>
      if row < |table.values| && c < |table.values[row]| then Some(table.values[row][c]) else None
  }

  /** Read by column name, the single row holds the serial number 1, the caller's text
      unchanged, the source `"user"` and the label `"unknown"`. */
  lemma PayloadRow(text: string)
    ensures var table := BuildPayload(text).inputData[0];
      && Column(table, 0, "sr.no") == Some(Int(1))
      && Column(table, 0, "text") == Some(Text(text))
      && Column(table, 0, "source") == Some(Text("user"))
      && Column(table, 0, "label_name") == Some(Text("unknown"))
  {
  }

  /** The first header named `name`. */
  function LookupHeader(headers: seq<Header>, name: string): (r: Option<string>)
    ensures r.Some? ==> Header(name, r.value) in headers
    ensures r.None? ==> forall h :: h in headers ==> h.name != name
  {
    if headers == [] then None
    else if headers[0].name == name then Some(headers[0].value)
    else LookupHeader(headers[1..], name)
  }

  const BearerPrefix: string := "Bearer "

  /** The `Authorization` header value for `token`. */
  function Bearer(token: string): (value: string) {
    BearerPrefix + token
  }

  /** The token of a bearer header value. */
  function BearerToken(value: string): (token: Option<string>) {
    if |BearerPrefix| <= |value| && value[..|BearerPrefix|] == BearerPrefix
    then Some(value[|BearerPrefix|..]) else None
  }

  lemma BearerRoundTrip(token: string)
    ensures BearerToken(Bearer(token)) == Some(token)
  {
    assert Bearer(token)[..|BearerPrefix|] == BearerPrefix;
    assert Bearer(token)[|BearerPrefix|..] == token;
  }

  function PredictCall(config: Config, token: string, text: string): (call: Outbound)
    ensures LookupHeader(call.headers, "Authorization") == Some(Bearer(token))
    ensures BearerToken(LookupHeader(call.headers, "Authorization").value) == Some(token)
  {
    BearerRoundTrip(token);
    Outbound(
      config.inferenceUrl,
      [Header("Authorization", Bearer(token)), Header("Content-Type", "application/json"),
       Header("Accept", "application/json")],
      Json(BuildPayload(text)),
      Some(PredictTimeoutMs))
  }

  // ---------------------------------------------------------------------------------------
  // Prediction: the result

  /** `prediction === 0`: label 0 means AI-generated, any other value human-written. */
  predicate IsAI(predicted: JsValue) {
    IsZero(predicted)
  }

  function Classification(isAI: bool): (c: string)
    ensures c == "AI Generated" <==> isAI
    ensures c == "Human Written" <==> !isAI
  {
    if isAI then "AI Generated" else "Human Written"
  }

  function Abs(x: real): (r: real) {
    if x < 0.0 then -x else x
  }

  /** `Math.abs(aiProbability - 0.5) * 2` over the reals: the distance of the AI probability
      from the decision boundary 0.5, scaled to the unit interval. `None` stands for `NaN`. It is
      defined when the subtraction's conversion of the probability does not throw. */
  function Confidence(aiProbability: JsValue): (c: Option<real>)
    requires !ConversionThrows(aiProbability)
    ensures c.None? <==> ToNumber(aiProbability).None?
    ensures c.Some? ==> 0.0 <= c.value
    ensures c.Some? ==> (c.value == 0.0 <==> ToNumber(aiProbability).value == 0.5)
    ensures c.Some? && 0.0 <= ToNumber(aiProbability).value <= 1.0 ==> c.value <= 1.0
    ensures c.Some? && ToNumber(aiProbability).value in {0.0, 1.0} ==> c.value == 1.0
  {
    match ToNumber(aiProbability)
    case None => None
    case Some(p) => Some(Abs(p - 0.5) * 2.0)
  }

  /** A probability and its complement are equally far from the boundary. */
  lemma ConfidenceSymmetric(p: real)
    ensures Confidence(Num(p)) == Confidence(Num(1.0 - p))
  {
  }

  /** The result object built from the extracted prediction and the caller's text. */
  function Analyse(text: string, prediction: Prediction): (r: PredictionResult)
    requires !ConversionThrows(prediction.aiProbability)
    ensures r.overall.isAI <==> prediction.predicted == Num(0.0)
    ensures r.overall.classification == "AI Generated" <==> r.overall.isAI
    ensures r.overall.classification == "Human Written" <==> !r.overall.isAI
    ensures r.overall.aiProbability == prediction.aiProbability
    ensures r.overall.humanProbability == prediction.humanProbability
    ensures r.overall.confidence == Confidence(prediction.aiProbability)
    ensures r.statistics.analyzedSentences == 1
    ensures r.statistics.aiSentences + r.statistics.humanSentences == 1
    ensures r.statistics.aiSentences == 1 <==> r.overall.isAI
    ensures r.statistics.totalSentences == r.textInfo.sentenceCount
    ensures r.textInfo.originalLength == |text|
    ensures r.textInfo.wordCount == RunCount(text, NonSpace) <= |text|
    ensures r.textInfo.sentenceCount == RunCount(Without(text, Space), NonTerminator)
    ensures r.textInfo.sentenceCount <= RunCount(text, Terminator) + 1
  {
    WordCountIsRunCount(text);
    WordCountBounds(text);
    SentenceCountIsRunCount(text);
    SentenceCountBounds(text);
    var isAI := IsAI(prediction.predicted);
    PredictionResult(
      Overall(
        isAI,
        prediction.aiProbability,
        prediction.humanProbability,
        Confidence(prediction.aiProbability),
        Classification(isAI)),
      Statistics(
        SentenceCount(text),
        1,
        if isAI then 1 else 0,
        if isAI then 0 else 1),
      TextInfo(|text|, WordCount(text), SentenceCount(text)))
  }

  // ---------------------------------------------------------------------------------------
  // Prediction: the handler

  const RequiredMessage: string := "Token and text are required"

  /** The answer yields a prediction, and the confidence computation does not throw on its AI
      probability: exactly the answers the handler analyses. */
  predicate Analysable(data: JsValue) {
    Extract(data).Some? && !ConversionThrows(Extract(data).value.aiProbability)
  }

  /** `POST /api/predict`. A request without a token or a text (absent or empty) is refused
      with 400 before anything is sent. Otherwise exactly one request goes to the inference
      service, with the bearer header, the one-row payload and the 30-second timeout; the
      answer is analysed (200), or, if the call failed, the answer lacks the expected shape or
      its AI probability cannot be converted to a number, the prediction fails with 500. */
  function HandlePredict(config: Config, request: PredictRequest, reply: Reply): (x: Exchange)
    ensures x.sent == [] <==> !Truthy(request.token) || !Truthy(request.text)
    ensures x.sent == [] ==> x.response == Response(400, Error(RequiredMessage))
    ensures x.sent != [] ==>
      && |x.sent| == 1
      && x.sent[0].url == config.inferenceUrl
      && LookupHeader(x.sent[0].headers, "Authorization") == Some(Bearer(request.token.value))
      && x.sent[0].body == Json(BuildPayload(request.text.value))
      && x.sent[0].timeoutMs == Some(PredictTimeoutMs)
    ensures x.response.status == 200 <==> x.sent != [] && reply.Replied? && Analysable(reply.data)
    ensures x.response.status == 200 ==>
      x.response.body == Analysis(Analyse(request.text.value, Extract(reply.data).value))
    ensures x.response.status == 500 <==> x.sent != [] && (reply.Failed? || !Analysable(reply.data))
    ensures x.response.status == 500 ==> x.response.body == Error("Prediction failed")
  {
    if !Truthy(request.token) || !Truthy(request.text) then
      Exchange([], Response(400, Error(RequiredMessage)))
    else
      var text := request.text.value;
      var call := PredictCall(config, request.token.value, text);
      var failed := Response(500, Error("Prediction failed"));
      match reply
      case Failed => Exchange([call], failed)
      case Replied(data) =>
        match Extract(data)
        case None => Exchange([call], failed)
        case Some(prediction) =>
          if ConversionThrows(prediction.aiProbability) then Exchange([call], failed)
          else Exchange([call], Response(200, Analysis(Analyse(text, prediction))))
  }

  /** An AI probability that is an object with its own `toString` makes the subtraction of the
      confidence computation throw, so the prediction fails although the answer has the
      expected shape. */
  lemma PredictFailsOnUnconvertibleProbability(config: Config, token: string, text: string)
    requires token != "" && text != ""
    ensures var x := HandlePredict(config, PredictRequest(Some(token), Some(text)),
                                   Replied(Answer(Num(0.0), Obj(map["toString" := Num(1.0)]), Num(0.1))));
      && |x.sent| == 1
      && x.response == Response(500, Error("Prediction failed"))
  {
    ExtractAnswer(Num(0.0), Obj(map["toString" := Num(1.0)]), Num(0.1));
    assert !Analysable(Answer(Num(0.0), Obj(map["toString" := Num(1.0)]), Num(0.1)));
  }

  /** A refused request does not depend on the upstream reply: nothing was asked of it. */
  lemma RefusedIgnoresReply(config: Config, request: PredictRequest, r1: Reply, r2: Reply)
    requires !Truthy(request.token) || !Truthy(request.text)
    ensures HandlePredict(config, request, r1) == HandlePredict(config, request, r2)
  {
  }

  /** Label 0 with probabilities [0.9, 0.1]: "AI Generated", AI probability 0.9, confidence 0.8. */
  lemma PredictsAIGenerated(config: Config, token: string, text: string)
    requires token != "" && text != ""
    ensures var x := HandlePredict(config, PredictRequest(Some(token), Some(text)),
                                   Replied(Answer(Num(0.0), Num(0.9), Num(0.1))));
      && x.response.status == 200
      && x.response.body.result.overall.classification == "AI Generated"
      && x.response.body.result.overall.aiProbability == Num(0.9)
      && x.response.body.result.overall.confidence == Some(0.8)
  {
    ExtractAnswer(Num(0.0), Num(0.9), Num(0.1));
    assert Analysable(Answer(Num(0.0), Num(0.9), Num(0.1)));
  }

  /** Label 1 with probabilities [0.3, 0.7]: "Human Written", confidence 0.4. */
  lemma PredictsHumanWritten(config: Config, token: string, text: string)
    requires token != "" && text != ""
    ensures var x := HandlePredict(config, PredictRequest(Some(token), Some(text)),
                                   Replied(Answer(Num(1.0), Num(0.3), Num(0.7))));
      && x.response.status == 200
      && x.response.body.result.overall.classification == "Human Written"
      && x.response.body.result.overall.confidence == Some(0.4)
      && x.response.body.result.statistics.humanSentences == 1
  {
    ExtractAnswer(Num(1.0), Num(0.3), Num(0.7));
    assert Analysable(Answer(Num(1.0), Num(0.3), Num(0.7)));
  }
}
