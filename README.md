# AI-detector relay, modelled in Dafny

The relay is a small Express server with two routes that stand between a browser client and
two upstream services:

- `POST /api/token` exchanges an API key for an access token at the token service. The key is
  the caller's `apikey` when it is given and non-empty, and the configured key otherwise. The
  service's answer is forwarded unchanged, and any failure becomes a 500 response.
- `POST /api/predict` takes a `token` and a `text` and refuses the request with 400 when either
  is missing or empty. Otherwise it sends the text to the inference service as a one-row
  table, authorised with the bearer token. It reads the predicted label and the two
  probabilities from the answer and replies with a result object: the classification, a
  confidence, sentence counters, and word and sentence counts of the text. If the call fails,
  the answer lacks the expected shape, or converting the AI probability to a number throws,
  the reply is a 500 response.

The model is purely functional. Each handler is a function of the configuration, the request
and the upstream reply (a parameter standing in for the network). It returns an `Exchange`: the
requests the handler sends upstream, in order, and the response it gives its client.

The modules follow the program's structure:

- `JsString` models the JavaScript string operations the handler uses. `Split` is
  `split(/X+/)` on a class of separator characters, written out exactly, including the empty
  leading and trailing pieces. `Trim` is `trim`. `IsSpace` enumerates the characters of `\s`:
  the ECMAScript WhiteSpace and LineTerminator characters.
- `Runs` counts maximal runs of a character class. `RunCount` is the reference: the positions
  where a run begins. The automaton `Scan` connects it to `split`.
- `TextStats` computes `wordCount` and `sentenceCount` as the source writes them
  (`split`-`filter`-`length`). It then proves them equal to run counts.
- `JsValues` models parsed JSON values and property access. Access throws a `TypeError` on
  `undefined` and `null`. It also covers strict comparison with `0`, `Number()` and truthiness.
- `Upstream` reads the answer of the inference service. Here the chain of accesses that can
  throw becomes an explicit `Option`.
- `Relay` holds the configuration, the token request, the payload, the headers, the result
  object and both handlers.

## Model

| member | source | states |
|---|---|---|
| JsString.Split | proxy-server.js:129 | `split` on runs of a separator class gives at least one piece, and no piece contains a separator |
| JsString.SplitKeepsContent | proxy-server.js:129 | the pieces of `split`, joined back together, are the text with its separators removed: nothing but separators is dropped, and order is kept |
| JsString.Trim | proxy-server.js:121 | `trim` is empty exactly when the string is all white space; otherwise it starts and ends with a character that is not white space |
| JsString.TrimIsSlice | proxy-server.js:121 | `trim` is a contiguous part of the string, and only white space lies before and after it |
| Runs.ScanIsRunCount | proxy-server.js:129-131 | the left-to-right run-counting automaton counts exactly the positions where a maximal run begins |
| Runs.RunCountZero | proxy-server.js:129-131 | a string has no run of a class exactly when none of its characters is in the class |
| TextStats.Words | proxy-server.js:129 | every word kept by the filter is non-empty and holds no white space |
| TextStats.Sentences | proxy-server.js:121-122 | every sentence kept by the filter holds no terminator and at least one character that is not white space |
| TextStats.PieceCount | proxy-server.js:121 | `split` gives one piece more than there are separator runs |
| TextStats.WordsKeepText | proxy-server.js:129 | the words, joined together, are the text with all white space removed |
| TextStats.WordCountIsRunCount | proxy-server.js:129 | `wordCount` is the number of maximal runs of characters that are not white space |
| TextStats.WordCountBounds | proxy-server.js:129 | `wordCount` never exceeds the text's length, and it is 0 exactly when the text is all white space |
| TextStats.SentenceCountIsRunCount | proxy-server.js:130-131 | `sentenceCount` is the number of maximal runs of non-terminators in the text with its white space removed |
| TextStats.SentenceCountBounds | proxy-server.js:130-131 | `sentenceCount` is 0 exactly when the text is made of white space and terminators only, and it is at most one more than the number of terminator runs |
| JsValues.DecimalRoundTrip | proxy-server.js:104-107 | the property name of an array index, read back as a decimal number, is that index, and it has no leading zero |
| JsValues.Get | proxy-server.js:104-107 | one access throws exactly on `undefined` and `null`; an array index in range gives the element, and a present property gives its value |
| JsValues.Path | proxy-server.js:104-107 | an access chain throws when its first step throws |
| JsValues.PathThrowsAtStep | proxy-server.js:104-107 | an access chain throws when any one of its steps throws on the value the steps before it gave |
| JsValues.PathAppend | proxy-server.js:104-105 | evaluating a chain in two parts, the second part starting from the value of the first, is evaluating the whole chain |
| Upstream.ExtractEvaluatesAccesses | proxy-server.js:104-107 | extraction succeeds exactly when none of the four access expressions `predictions[0].values[0][0]`, `…[0][1]`, `…[1][0]`, `…[1][1]` throws, and it then yields the label and the two probabilities |
| Upstream.ExtractAnswer | proxy-server.js:104-107 | a well-formed answer gives back exactly the label and the two probabilities it carries |
| Upstream.ExtractNeedsObject | proxy-server.js:104 | an answer that is not an object fails |
| Upstream.ExtractNeedsPrediction | proxy-server.js:104 | an answer without predictions, or with an empty prediction list, fails |
| Upstream.ExtractNeedsProbabilities | proxy-server.js:105-106 | any answer whose first result row is an array of fewer than two cells, which therefore has no probability vector, fails |
| Relay.SelectApiKey | proxy-server.js:45 | the key is the caller's key when present and non-empty, and the configured key otherwise; it is never empty when the configured key is not |
| Relay.TokenBodyRoundTrip | proxy-server.js:49 | the token form body is the grant prefix followed by the key, unencoded, so the key reads back from it exactly |
| Relay.HandleToken | proxy-server.js:40-70 | exactly one form-encoded request goes to the token service, carrying the selected key; a reply is forwarded with 200, and a failure gives 500 "Token generation failed" |
| Relay.BuildPayload | proxy-server.js:86-93 | the payload has one table with exactly the four fixed fields, and exactly one row as wide as the fields |
| Relay.PayloadRow | proxy-server.js:89-90 | read by column name, the row holds 1, the caller's text unchanged, "user" and "unknown" |
| Relay.BearerRoundTrip | proxy-server.js:97 | the Authorization value is `"Bearer "` followed by the token, and the token reads back from it exactly |
| Relay.PredictCall | proxy-server.js:95-102 | the inference request's Authorization header is the bearer form of the caller's token |
| Relay.Classification | proxy-server.js:118 | the label is "AI Generated" exactly when `isAI`, and "Human Written" exactly when not |
| JsValues.ToNumber | proxy-server.js:110 | for a value whose conversion does not throw (not an object with its own `toString`, or an array holding one at any depth, which `ConversionThrows` names): a number is itself, `null` is 0, a boolean is 0 or 1, and `undefined` and an object are NaN |
| Relay.Confidence | proxy-server.js:110 | over the reals, for a probability whose conversion does not throw, confidence is NaN exactly when the probability converts to NaN; otherwise it is non-negative, it is 0 exactly at probability 0.5, it is 1 at probabilities 0 and 1, and it is at most 1 for a probability in [0, 1] |
| Relay.ConfidenceSymmetric | proxy-server.js:110 | a probability and its complement have the same confidence |
| Relay.Analyse | proxy-server.js:109-133 | `isAI` holds exactly when the label is the number 0, and the classification follows it; the probabilities are passed through; the confidence is `Confidence` of the AI probability; `analyzedSentences` is 1; `aiSentences + humanSentences` is 1, with `aiSentences` 1 exactly when `isAI`; `totalSentences` equals `sentenceCount`; `originalLength` is the text's length; the word and sentence counts are the run counts, within their bounds |
| Relay.HandlePredict | proxy-server.js:73-154 | nothing is sent exactly when the token or the text is missing or empty, and then the reply is 400 "Token and text are required"; otherwise exactly one request goes to the inference service, carrying the bearer header, the one-row payload of the caller's text and the 30000 ms timeout; the reply is 200 with the analysis exactly when the call returned an answer of the expected shape whose AI probability converts without throwing, and 500 "Prediction failed" exactly when it did not |
| Relay.PredictFailsOnUnconvertibleProbability | proxy-server.js:110-152 | an answer of the expected shape whose AI probability is an object with its own `toString` makes the handler fail with 500 "Prediction failed" after sending its one request |
| Relay.RefusedIgnoresReply | proxy-server.js:79-81 | a refused request does not depend on anything upstream |
| Relay.PredictsAIGenerated | proxy-server.js:104-133 | label 0 with probabilities [0.9, 0.1] gives "AI Generated", AI probability 0.9 and confidence 0.8 |
| Relay.PredictsHumanWritten | proxy-server.js:104-133 | label 1 with probabilities [0.3, 0.7] gives "Human Written", confidence 0.4 and one human sentence |

## Left out

- The HTTP stack is not modelled: Express routing, CORS, JSON body parsing, `res.status`/`res.json` and the axios calls. An upstream call is a parameter whose outcome is either the parsed answer or an abstract failure.
- Start-up is not modelled: reading the environment, the exit on missing configuration and the listening port. The configuration is an immutable value given to each handler.
- Logging is not modelled, including the `toFixed(1)` percentage in the log line, because it has no effect on the responses.
- The health check route is not modelled: it reads the clock and holds no logic.
- The `details` and `status` fields of the 500 bodies are not modelled, because they come from axios error objects the model does not see. Only the `error` message is.
- Request fields are modelled as absent or strings. A non-string `token`, `text` or `apikey` (a number, an array) is not modelled.
- Relay.Confidence: it is stated over mathematical reals, not IEEE doubles. `-0`, infinities and rounding are not modelled, and neither is the JSON serialisation of `NaN` as `null`.
- JsValues.ToNumber: strings and arrays whose conversion does not throw yield `None` (NaN) instead of the number JavaScript would parse from them (for example `"0.9"`, `[0.9]`, or `[]`, which is 0). This changes only the `confidence` value, never the status. The conversions that throw are modelled by `ConversionThrows`.
- Relay.HandlePredict: for an answer whose first result row is a string made of one character outside the Basic Multilingual Plane, such as `{"predictions":[{"values":["😀"]}]}`, the model answers 500 where the source answers 200. In JavaScript, `values[0][1]` is the string's second UTF-16 code unit, so no access throws. In the model the string has one character, so `values[0][1]` is `undefined` and the next index throws. This follows from the `JsValues.Get` line above.
- Relay.Analyse: `originalLength` counts characters, whereas `text.length` counts UTF-16 code units. The two differ for characters outside the Basic Multilingual Plane.
- JsValues.Get: inherited properties are not modelled. Properties from the prototype chain, such as `constructor` on objects or `length` on arrays and strings, read as `undefined`; the handler reads none of them. Named properties of arrays and strings read as `undefined`. The only such name the handler reads is `values`. On an array, JavaScript gives the built-in iterator method, `values[0]` on that method is `undefined`, and the access after it throws. The model gives `undefined` for `values` itself, so the access right after it throws: one step earlier, with the same outcome. Strings are indexed by Unicode character, not by UTF-16 code unit as in JavaScript, because a Dafny `char` cannot hold a lone surrogate half.
- Numbers are idealised as reals, so the strict test `=== 0` on the label is equality with the real 0.
- JsString.IsSpace: it enumerates the ECMAScript WhiteSpace and LineTerminator code points. Whether another Unicode "Space_Separator" character is included depends on the engine's Unicode version, which is not modelled.
