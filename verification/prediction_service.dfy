/**
 * `makePrediction`: submit the processed drawing, read the event stream for the result,
 * normalise the predictions, and map every failure to a user message. The network is not
 * modelled: the prediction space is a `Server` whose two endpoints are given as
 * functions from request to response, and `JSON.parse` is the parameter `parse`.
 */
module PredictionService {
  import opened Wrappers
  import opened Text
  import opened Js
  import opened ImageData
  import opened Ranking
  import opened Normalize
  import opened EventStream
  import opened ErrorClassification

  const MissingEventId: string := "Failed to get event_id from Gradio API"
  const InvalidResponse: string := "Invalid response format from Gradio API"

  /** The body `{data: [processedImageData, topK, word]}` of the submit call. */
  datatype Request = Request(image: Option<string>, topK: nat, word: string)

  /** What `await fetch(...)` gives: a thrown error (network failure, timeout) or a response. */
  datatype Response<B> =
    | Threw(err: JsError)
    | Responded(ok: bool, status: nat, statusText: string, body: B)

  /**
   * The prediction space: the submit call, whose body `json()` decodes, and the result
   * call for an event id, whose body is an event stream.
   */
  datatype Server = Server(submit: Request -> Response<Parsed>, poll: Json -> Response<Stream>)

  /** The message of a non-`ok` response, `"<endpoint> (<status>): <statusText>"`. */
  function StatusError(endpoint: string, status: nat, statusText: string): (e: JsError)
    ensures e.name == "Error"
    ensures StartsWith(e.message, endpoint + " (")
    ensures |statusText| <= |e.message| && e.message[|e.message| - |statusText|..] == statusText
  {
    var code := NatToString(status);
    var message := endpoint + " (" + code + "): " + statusText;
    assert message[..|endpoint + " ("|] == endpoint + " (";
    assert message[|message| - |statusText|..] == statusText;
    Error(message)
  }

  /**
   * The checks after the read loop: anything but an array is an invalid response format;
   * an array is normalised, which yields a ranked list or throws.
   */
  function FromPredictions(predictions: Json, topK: nat): (r: Result<seq<Prediction>, JsError>)
    requires topK > 0
    ensures !predictions.JArr? ==> r == Err(Error(InvalidResponse))
    ensures r.Ok? ==> Ranked(r.value, topK) && |r.value| >= 1
    ensures predictions.JArr? && r.Err? ==>
              r.error == Error(NoValidPredictions) || r.error == NullRead("category")
  {
    if predictions.JArr? then Normalize.Normalize(predictions.items, topK) else Err(Error(InvalidResponse))
  }

  /** The body of the `try` block: the predictions, or the error it throws. */
  function Attempt(imageData: string, word: string, topK: nat, server: Server, parse: string -> Parsed)
    : (r: Result<seq<Prediction>, JsError>)
    requires topK > 0
    ensures r.Ok? ==> Ranked(r.value, topK) && |r.value| >= 1
  {
    match server.submit(Request(ProcessImageData(imageData), topK, word))
    case Threw(e) => Err(e)
    case Responded(ok, status, statusText, body) =>
      if !ok then Err(StatusError("API Call Error", status, statusText))
      else
        match body
        case Unparseable(e) => Err(e)
        case Parsed(callResult) =>
          match Read(callResult, "event_id")
          case Err(e) => Err(e)
          case Ok(eventId) =>
            if !IsTruthy(eventId) then Err(Error(MissingEventId))
            else
              match server.poll(eventId.value)
              case Threw(e) => Err(e)
              case Responded(ok, status, statusText, stream) =>
                if !ok then Err(StatusError("API Result Error", status, statusText))
                else
                  match ReadBody(stream, parse)
                  case ReadFailed(e) => Err(e)
                  case Ended => Err(Error(InvalidResponse))
                  case Found(predictions) => FromPredictions(predictions, topK)
  }

  /**
   * `makePrediction`: the normalised predictions, or the message of the error the catch
   * block throws.
   */
  function MakePrediction(imageData: string, word: string, topK: nat, server: Server, parse: string -> Parsed)
    : (r: Result<seq<Prediction>, string>)
    requires topK > 0
    ensures r.Ok? ==> Ranked(r.value, topK) && |r.value| >= 1
    ensures r.Err? ==> IsUserMessage(r.error)
  {
    match Attempt(imageData, word, topK, server, parse)
    case Ok(predictions) => Ok(predictions)
    case Err(e) =>
      ClassifiedIsUserMessage(e);
      Err(Classify(e))
  }

  /**
   * A prediction succeeds only through the whole exchange: the submit call carries the
   * processed image, answers `ok` with a truthy `event_id`, the result call for that id
   * answers `ok`, its stream yields an array, and normalising that array succeeds.
   */
  lemma SuccessNeedsFullExchange(imageData: string, word: string, topK: nat, server: Server, parse: string -> Parsed)
    requires topK > 0 && MakePrediction(imageData, word, topK, server, parse).Ok?
    ensures exists callResult, eventId, status, statusText, stream, items ::
              server.submit(Request(ProcessImageData(imageData), topK, word)) == Responded(true, status, statusText, Parsed(callResult)) &&
              Read(callResult, "event_id") == Ok(Some(eventId)) && Truthy(eventId) &&
              server.poll(eventId).Responded? && server.poll(eventId).ok && server.poll(eventId).body == stream &&
              ReadBody(stream, parse) == Found(JArr(items)) &&
              Normalize.Normalize(items, topK) == Ok(MakePrediction(imageData, word, topK, server, parse).value)
  {
    var Responded(_, status, statusText, Parsed(callResult)) := server.submit(Request(ProcessImageData(imageData), topK, word));
    var Ok(Some(eventId)) := Read(callResult, "event_id");
    var stream := server.poll(eventId).body;
    var Found(JArr(items)) := ReadBody(stream, parse);
  }

  /** Conversely, such an exchange yields exactly the normalised predictions. */
  lemma FullExchangeSucceeds(imageData: string, word: string, topK: nat, server: Server, parse: string -> Parsed,
                             callResult: Json, eventId: Json, stream: Stream, items: seq<Json>)
    requires topK > 0
    requires server.submit(Request(ProcessImageData(imageData), topK, word)).Responded?
    requires server.submit(Request(ProcessImageData(imageData), topK, word)).ok
    requires server.submit(Request(ProcessImageData(imageData), topK, word)).body == Parsed(callResult)
    requires Read(callResult, "event_id") == Ok(Some(eventId)) && Truthy(eventId)
    requires server.poll(eventId).Responded? && server.poll(eventId).ok && server.poll(eventId).body == stream
    requires ReadBody(stream, parse) == Found(JArr(items)) && Normalize.Normalize(items, topK).Ok?
    ensures MakePrediction(imageData, word, topK, server, parse) == Ok(Normalize.Normalize(items, topK).value)
  {
  }

  /** A submit response without a truthy `event_id` is reported as a failure to get one. */
  lemma MissingEventIdReported(imageData: string, word: string, topK: nat, server: Server, parse: string -> Parsed)
    requires topK > 0
    requires server.submit(Request(ProcessImageData(imageData), topK, word)).Responded?
    requires server.submit(Request(ProcessImageData(imageData), topK, word)).ok
    requires server.submit(Request(ProcessImageData(imageData), topK, word)).body.Parsed?
    requires Read(server.submit(Request(ProcessImageData(imageData), topK, word)).body.value, "event_id") == Ok(None)
    ensures MakePrediction(imageData, word, topK, server, parse) == Err(FailurePrefix + MissingEventId)
  {
    assert Attempt(imageData, word, topK, server, parse) == Err(Error(MissingEventId));
    MissingEventIdMessage(MissingEventId);
  }

  /**
   * A stream that ends without an accepted `event: complete` payload, or whose payload is
   * not an array, is reported as an invalid response format, unchanged by the catch block.
   */
  lemma NoResultReportedAsInvalidFormat(imageData: string, word: string, topK: nat, server: Server, parse: string -> Parsed,
                                        eventId: Json, stream: Stream)
    requires topK > 0
    requires server.submit(Request(ProcessImageData(imageData), topK, word)).Responded?
    requires server.submit(Request(ProcessImageData(imageData), topK, word)).ok
    requires server.submit(Request(ProcessImageData(imageData), topK, word)).body.Parsed?
    requires Read(server.submit(Request(ProcessImageData(imageData), topK, word)).body.value, "event_id") == Ok(Some(eventId))
    requires Truthy(eventId)
    requires server.poll(eventId).Responded? && server.poll(eventId).ok && server.poll(eventId).body == stream
    requires ReadBody(stream, parse) == Ended || (ReadBody(stream, parse).Found? && !ReadBody(stream, parse).predictions.JArr?)
    ensures MakePrediction(imageData, word, topK, server, parse) == Err(InvalidResponse)
  {
    assert Attempt(imageData, word, topK, server, parse) == Err(Error(InvalidResponse));
    FormatErrorsPassThrough(InvalidResponse);
  }

  /** An array of entries none of which has a valid label is reported unchanged as such. */
  lemma NoValidPredictionsReported(imageData: string, word: string, topK: nat, server: Server, parse: string -> Parsed,
                                   eventId: Json, stream: Stream, items: seq<Json>)
    requires topK > 0
    requires server.submit(Request(ProcessImageData(imageData), topK, word)).Responded?
    requires server.submit(Request(ProcessImageData(imageData), topK, word)).ok
    requires server.submit(Request(ProcessImageData(imageData), topK, word)).body.Parsed?
    requires Read(server.submit(Request(ProcessImageData(imageData), topK, word)).body.value, "event_id") == Ok(Some(eventId))
    requires Truthy(eventId)
    requires server.poll(eventId).Responded? && server.poll(eventId).ok && server.poll(eventId).body == stream
    requires ReadBody(stream, parse) == Found(JArr(items)) && JNull !in items && Candidates(items) == []
    ensures MakePrediction(imageData, word, topK, server, parse) == Err(NoValidPredictions)
  {
    assert Normalize.Normalize(items, topK) == Err(Error(NoValidPredictions));
    assert Attempt(imageData, word, topK, server, parse) == Err(Error(NoValidPredictions));
    FormatErrorsPassThrough(NoValidPredictions);
  }

  /** A submit call that throws an error named "AbortError" is reported as a timeout. */
  lemma AbortedSubmitReportedAsTimeout(imageData: string, word: string, topK: nat, server: Server, parse: string -> Parsed)
    requires topK > 0
    requires server.submit(Request(ProcessImageData(imageData), topK, word)).Threw?
    requires server.submit(Request(ProcessImageData(imageData), topK, word)).err.name == "AbortError"
    ensures MakePrediction(imageData, word, topK, server, parse) == Err(TimeoutMessage)
  {
  }
}
