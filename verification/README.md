# Drawing classifier client: prediction pipeline and fallback policy

A Dafny model of the prediction side of the drawing app "Shiksha". The user draws on a
canvas, and the app sends the drawing to a Gradio space that classifies it. The model covers:

- **`makePrediction`** (`src/services/predictionService.js`):
  - strips the data-URL header from the image;
  - calls the space's submit endpoint, then reads the result endpoint's event stream
    chunk by chunk until an `event: complete` line is followed by an accepted `data: `
    payload;
  - formats, filters, stably sorts and truncates the predictions to the top `topK`;
  - maps every failure, in a fixed priority order, to a user message.
- **`makeMockPrediction`**: the offline substitute. Five fixed labels with jittered,
  clamped confidences, sorted.
- **The `App` component's state machine** (`src/App.js`): `handlePrediction` and
  `handleRetry` over `predictions`, `isLoading`, `error` and `apiAvailable`, plus the
  mount-time connection probe that sets `apiAvailable`.

Modules, one per file:

| module | file | what it holds |
|---|---|---|
| `Wrappers` | `wrappers.dfy` | `Option`, `Result` |
| `Text` | `text.dfy` | `startsWith`, `includes`, `split`, `indexOf`, and number-to-string |
| `Js` | `js.dfy` | decoded JSON values, thrown errors, property reads (including the `TypeError` on `null`), truthiness |
| `ImageData` | `image_data.dfy` | `processImageData` |
| `Ranking` | `ranking.dfy` | the `{label, confidence}` entry, the stable descending sort, and the `Ranked` shape of a shown result |
| `Normalize` | `normalize.dfy` | format / filter / sort / slice, and the "No valid predictions" error |
| `EventStream` | `event_stream.dfy` | the line scan (`FindCompleteEvent`) and the chunk loop (`ReadChunks`), each proved equal to a specification function |
| `ErrorClassification` | `error_classification.dfy` | the catch block of `makePrediction` |
| `MockPrediction` | `mock_prediction.dfy` | `makeMockPrediction` |
| `PredictionService` | `prediction_service.dfy` | `makePrediction` as a function of the two endpoints' responses |
| `App` | `app.dfy` | class `App`, with the four state fields and the handlers as methods |

The network is a `Server` value with two functions:

- `submit` maps the request body to a response;
- `poll` maps an event id to a response whose body is a `Stream` (decoded chunks, then
  either the end or a read error).

`JSON.parse` is the parameter `parse`. The mock's `Math.random()` draws are the
parameter `draws`. The ghost counter `remoteCalls` records how often `handlePrediction`
called `makePrediction`.

## Model

| member | source | states |
|---|---|---|
| `ImageData.ProcessImageData` | src/services/predictionService.js:15-21 | Input not starting with "data:image/" comes back unchanged. For a data URL, the result is `undefined` exactly when there is no comma. The payload never contains a comma. |
| `ImageData.PayloadBetweenCommas` | src/services/predictionService.js:17-18 | For a data URL with a comma, the payload is the text between the first comma and the next comma (or the end). |
| `ImageData.DataUrlRoundTrip` | src/services/predictionService.js:15-21 | Processing `header + "," + payload` gives the payload back, for a comma-free "data:image/" header and a comma-free payload. |
| `ImageData.PngExample` | src/services/predictionService.js:15-21 | "data:image/png;base64,XYZ" yields "XYZ". |
| `ImageData.ReprocessPayload` | src/services/predictionService.js:15-21 | Processing a payload without ':' a second time leaves it unchanged. |
| `Text.StartsWithIffPrefix` | src/services/predictionService.js:17 | `startsWith` holds exactly when the prefix is a prefix of the string as a sequence. |
| `Text.Split` | src/services/predictionService.js:99 | `split` gives at least one piece, no piece contains the separator, and there is exactly one piece when the separator is absent. |
| `Text.SplitSecond` | src/services/predictionService.js:18 | `split(',')[1]` is the text between the first separator and the next one. |
| `Text.JoinSplit` | src/services/predictionService.js:99 | `split('\n')` loses nothing: joining the lines with '\n' gives the text back. |
| `Text.IndexOf` | src/services/predictionService.js:103 | `indexOf` gives -1 exactly when the line is absent; otherwise the position of its first occurrence. |
| `Text.ContainsIffOccurs` | src/services/predictionService.js:157-161 | `includes` holds exactly when the text occurs at some position. |
| `Js.Read` | src/services/predictionService.js:62 | A property read throws exactly on `null`. It is defined exactly for a present key of an object, and then it is that field. |
| `EventStream.Accept` | src/services/predictionService.js:111-112 | A payload is accepted exactly when it is a non-empty array whose first element has a truthy `success` and a truthy `predictions`. The result is that `predictions`. |
| `EventStream.PayloadAt` | src/services/predictionService.js:101-119 | A line yields a payload only if it is an `event: complete` line, and the payload is truthy. |
| `EventStream.ScanLinesNoneIff` | src/services/predictionService.js:100-121 | The scan finds nothing exactly when no line yields a payload. |
| `EventStream.ScanLinesFirst` | src/services/predictionService.js:100-121 | A found payload is that of the first line yielding one: the scan stops at the first accepted payload, and unparseable data lines are skipped. |
| `EventStream.AcceptedFollowsCompleteEvent` | src/services/predictionService.js:101-112 | A payload is only ever taken from an `event: complete` line that is immediately followed by a `data: ` line. That line's text after the 6-character prefix parses to an accepted value. |
| `EventStream.CompleteEventIsFound` | src/services/predictionService.js:101-114 | Conversely, the first copy of an `event: complete` line followed by an accepted `data: ` line yields that payload, so the scan finds something. |
| `EventStream.RepeatedCompleteLineReadsFirstCopy` | src/services/predictionService.js:103 | Through `indexOf`, a repeated `event: complete` line reads the data line after its first copy. |
| `EventStream.FindCompleteEvent` | src/services/predictionService.js:100-121 | The `for` loop over the lines, with its `break`, computes the scan specification `ScanLines`. |
| `EventStream.ScanReceived` | src/services/predictionService.js:99-121 | Splitting the received text and running the line loop computes `ScanText`, the scan step of the read loop. |
| `EventStream.ReadChunks` | src/services/predictionService.js:91-124 | The `while (true)` read loop computes `ReadFrom`: it appends each chunk, scans the whole received text, and stops at the first payload found. Otherwise it ends as the stream does. |
| `EventStream.ReadPredictions` | src/services/predictionService.js:91-124 | Reading the body with the line scan computes `ReadBody`. |
| `EventStream.ReadBodyFirstScan` | src/services/predictionService.js:91-124 | The read finds a payload exactly when the scan after some chunk does, and it is the payload of the first such scan. A read finding none ends with the stream's end or its read error. |
| `EventStream.FoundIsTruthy` | src/services/predictionService.js:123 | A found payload is truthy, so `if (predictions) break` is taken. |
| `Ranking.Insert` | src/services/predictionService.js:142 | Inserting into a sorted list keeps it sorted and adds exactly the new entry. |
| `Ranking.SortByConfidence` | src/services/predictionService.js:142 | The sort orders by non-increasing confidence and is a permutation of its input. |
| `Ranking.SortIsStable` | src/services/predictionService.js:142 | Entries with equal confidence keep their input order. |
| `Ranking.SortedWithSameTiesAreEqual` | src/services/predictionService.js:142 | A sorted list that keeps ties in input order is unique, so this sort agrees with any stable sort using the comparator `b.confidence - a.confidence`. |
| `Normalize.Format` | src/services/predictionService.js:132-137 | The label is `category` if truthy, else `label` if truthy, else "Unknown". The confidence is the value if it is a number, else 0. Exactly a `null` entry throws, with the `TypeError` of reading `category`. |
| `Normalize.KeptIff` | src/services/predictionService.js:132-141 | An entry survives the filter exactly when its chosen label (category first, then label) is truthy and not "Unknown". |
| `Normalize.FormatAll` | src/services/predictionService.js:132-137 | The map formats the entries position by position. It throws exactly when some entry is `null`. |
| `Normalize.KeepValid` | src/services/predictionService.js:141 | Every kept entry has a valid label, and every valid entry of the input is kept (a sub-multiset of the input). |
| `Normalize.KeepValidCounts` | src/services/predictionService.js:141 | The filter keeps every valid entry exactly as often as it occurs in the input and drops every other entry. |
| `Normalize.Take` | src/services/predictionService.js:143 | `slice(0, topK)` is a prefix of length `min(topK, length)`. |
| `Normalize.TopValid` | src/services/predictionService.js:140-143 | The sorted, truncated valid entries are `Ranked`: sorted, at most `topK` long, every label valid, of length `min(topK, #valid)`. |
| `Normalize.Normalize` | src/services/predictionService.js:140-149 | The error "No valid predictions received from API" is raised exactly when no valid entry exists; the `TypeError` when an entry is `null`. Otherwise the result is `Ranked`, non-empty, and `min(topK, #valid)` long. |
| `Normalize.NormalizeKeepsInputEntries` | src/services/predictionService.js:140-143 | The result is a sub-multiset of the formatted entries. |
| `Normalize.NormalizeDropsOnlyLowerEntries` | src/services/predictionService.js:140-143 | Every valid entry dropped by the truncation has confidence no higher than every kept entry. |
| `Normalize.NormalizeIsStable` | src/services/predictionService.js:140-143 | For every confidence, the kept entries with that confidence are a prefix of the valid entries with that confidence, in input order. |
| `ErrorClassification.KindOf` | src/services/predictionService.js:157-165 | The four rules apply in priority order: AbortError or "timeout"; then "Failed to fetch" or "network"; then "Invalid response" or "No valid predictions"; then everything else. |
| `ErrorClassification.Classify` | src/services/predictionService.js:156-165 | The result is the timeout message, the connectivity message, the unchanged message, or "Prediction failed: " followed by the message (or "Unknown error" when empty), according to the rule that applies. |
| `ErrorClassification.ClassifiedIsUserMessage` | src/services/predictionService.js:156-165 | Every message the catch block throws is one of those four kinds. |
| `ErrorClassification.FormatErrorsPassThrough` | src/services/predictionService.js:161-162 | The service's own "Invalid response format from Gradio API" and "No valid predictions received from API" are re-thrown unchanged. |
| `ErrorClassification.MissingEventIdMessage` | src/services/predictionService.js:163-164 | "Failed to get event_id from Gradio API" becomes "Prediction failed: Failed to get event_id from Gradio API". |
| `MockPrediction.Clamp` | src/services/predictionService.js:212 | The clamp lies in [0.01, 0.99] and leaves values already in range unchanged. |
| `MockPrediction.Jitter` | src/services/predictionService.js:212 | A draw in [0, 1) gives a jitter in [-0.1, 0.1). |
| `MockPrediction.Jittered` | src/services/predictionService.js:210-212 | The map gives five entries: entry k is catalogue entry k with its own jitter, clamped. |
| `MockPrediction.MakeMockPrediction` | src/services/predictionService.js:201-213 | The result is sorted by non-increasing confidence and is a permutation of the jittered catalogue. |
| `MockPrediction.LabelsDistinct` | src/services/predictionService.js:201-207 | The five catalogue labels are pairwise distinct. |
| `MockPrediction.MockEntries` | src/services/predictionService.js:201-213 | There are exactly 5 entries. Each is a catalogue entry with confidence clamp(base + j) for some j in [-0.1, 0.1). |
| `MockPrediction.MockConfidencesInRange` | src/services/predictionService.js:212 | Every confidence lies in [0.01, 0.99]. |
| `MockPrediction.MockHasEveryLabel` | src/services/predictionService.js:201-213 | Each of cat, dog, bird, fish and house appears. |
| `MockPrediction.MockLabelsDistinct` | src/services/predictionService.js:201-213 | No label appears twice. |
| `MockPrediction.MockIsRanked` | src/services/predictionService.js:201-213 | The mock result has the `Ranked` shape for `topK` = 5. |
| `PredictionService.StatusError` | src/services/predictionService.js:55 | The error for a non-`ok` response is a plain `Error` whose message starts with the endpoint's label and " (", and ends with the status text. |
| `PredictionService.FromPredictions` | src/services/predictionService.js:126-149 | Anything but an array is an invalid response format. An array is normalised: a `Ranked`, non-empty list, or the "No valid predictions" error, or the `TypeError` of a `null` entry. |
| `PredictionService.Attempt` | src/services/predictionService.js:34-151 | Whenever the `try` body returns, its result is `Ranked` and non-empty. |
| `PredictionService.MakePrediction` | src/services/predictionService.js:29-167 | `makePrediction` returns a `Ranked`, non-empty list, or throws one of the four user messages. |
| `PredictionService.SuccessNeedsFullExchange` | src/services/predictionService.js:43-151 | Success requires the whole exchange: submit `ok` with a truthy `event_id`, result call `ok`, stream yields an array, normalising it succeeds. The result is that normalisation. |
| `PredictionService.FullExchangeSucceeds` | src/services/predictionService.js:43-151 | Conversely, such an exchange yields exactly the normalised predictions. |
| `PredictionService.MissingEventIdReported` | src/services/predictionService.js:62-64 | A submit response without `event_id` ends in "Prediction failed: Failed to get event_id from Gradio API". |
| `PredictionService.NoResultReportedAsInvalidFormat` | src/services/predictionService.js:126-129 | A stream with no accepted payload, or with a payload that is not an array, ends in "Invalid response format from Gradio API". |
| `PredictionService.NoValidPredictionsReported` | src/services/predictionService.js:147-149 | An array with no valid entry ends in "No valid predictions received from API". |
| `PredictionService.AbortedSubmitReportedAsTimeout` | src/services/predictionService.js:157-158 | A submit call that throws an error named "AbortError" ends in the timeout message. |
| `App.App.constructor` | src/App.js:8-11 | The initial state: no predictions, not loading, no error, `apiAvailable` null. |
| `App.App.CheckApiConnection` | src/App.js:14-18 | The mount probe writes its answer to `apiAvailable` and nothing else. |
| `App.App.BeginPrediction` | src/App.js:28-29 | `isLoading` becomes true and `error` null; nothing else changes. |
| `App.App.CompletePrediction` | src/App.js:31-54 | If `apiAvailable` is false: the mock result, and no remote call. Otherwise one remote call: on success its result is shown and `apiAvailable` is kept; on failure the mock result is shown and `apiAvailable` becomes false. `isLoading` ends false and `error` is untouched. |
| `App.App.HandlePrediction` | src/App.js:27-55 | The branches of `CompletePrediction`, plus `error` is null and `isLoading` false on exit. `apiAvailable` is never set to true, so once false it stays false. The shown list is always sorted with valid labels. |
| `App.App.HandleRetry` | src/App.js:57-60 | `error` becomes null and `predictions` empty; `isLoading` and `apiAvailable` are unchanged. |

## Left out

- **Network I/O.** `fetch`, `AbortSignal.timeout`, the request URLs and headers, and the
  `testApiConnection` HEAD probe (src/services/predictionService.js:173-190) are not
  modelled. The two endpoints are the functions of a `Server` value. The probe's answer
  is the argument of `App.App.CheckApiConnection`.
- **Response without a body.** A `Response` always carries a body. An `ok` result
  response with a `null` body (a 204, say) cannot be expressed. In the source,
  `resultResponse.body.getReader()` then throws a `TypeError`, which ends in
  "Prediction failed: ...".
- **Abort errors.** Which error the platform throws when `AbortSignal.timeout` fires
  is not modelled. The thrown error is an input, with its name and message, so the
  model does not decide whether such an abort matches the timeout rule of the catch
  block. `PredictionService.AbortedSubmitReportedAsTimeout` covers only an error named
  "AbortError".
- **Chunk decoding.** `TextDecoder` is not modelled, including multibyte characters split
  across chunks. A stream is its sequence of already decoded chunks.
- **JSON parsing.** `JSON.parse` and `response.json()` are not modelled. They are the
  parameter `parse` and the submit response's `Parsed` body.
- **Numbers.** JSON numbers are reals. `NaN` and infinities are not modelled, so the sort
  comparator is always consistent.
- **`topK`.** Reading `topK` from the environment (`parseInt(...) || 5`) is not modelled.
  It is a parameter, and every member that uses it requires it to be positive.
- **Mock arithmetic.** The mock's `pred.confidence + (Math.random() - 0.5) * 0.2` is
  double-precision arithmetic in the source and exact real arithmetic in the model.
  Rounding can make two jittered confidences equal, or unequal, where the reals do
  not, which changes how ties are ordered.
- **Timers and randomness.** The `setTimeout` delay of the mock is not modelled.
  `Math.random()` is the `draws` parameter.
- **React.** Batched and asynchronous state updates are not modelled, nor the race
  between the mount probe and a prediction. Each setter is an immediate field
  assignment, and `handlePrediction` reads the current `apiAvailable`.
- **Unreachable outer catch.** The outer catch of `handlePrediction` (src/App.js:49-51)
  is never reached in the model, because the mock cannot throw. Hence
  `App.App.HandlePrediction` proves `error` is null on exit rather than modelling that
  branch.
- **Logging and presentation.** Console logging, the display components, and the
  percentage formatting of the mock's 0–1 confidences are not modelled.
- **`ErrorClassification.Classify`.** For a format error it gives the re-thrown message,
  not the error object. Only the message is ever read by the caller.
- **`EventStream.ReadChunks`.** It takes the scan step as a parameter. `ReadPredictions`
  instantiates it with the line scan that `EventStream.ScanReceived` is proved to compute.
  The loop therefore uses the scan's specification rather than calling the method.
- **`PredictionService.StatusError`.** Its status-code text uses a decimal rendering
  (`Text.NatToString`) whose digits are not related back to the number.
