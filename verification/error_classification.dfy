/**
 * The catch block of `makePrediction`: every error raised while predicting is mapped,
 * in a fixed priority order, to the message of the error it re-throws.
 */
module ErrorClassification {
  import opened Text
  import opened Js

  const TimeoutMessage: string := "Request timeout - please try again"
  const ConnectivityMessage: string :=
    "Unable to connect to prediction service. Please check your internet connection."
  const FailurePrefix: string := "Prediction failed: "

  datatype Kind = Timeout | Connectivity | Format | Other

  /** `error.name === 'AbortError' || error.message.includes('timeout')` */
  predicate IsTimeout(e: JsError) {
    e.name == "AbortError" || Contains(e.message, "timeout")
  }

  /** `error.message.includes('Failed to fetch') || error.message.includes('network')` */
  predicate IsConnectivity(e: JsError) {
    Contains(e.message, "Failed to fetch") || Contains(e.message, "network")
  }

  /** `error.message.includes('Invalid response') || error.message.includes('No valid predictions')` */
  predicate IsFormat(e: JsError) {
    Contains(e.message, "Invalid response") || Contains(e.message, "No valid predictions")
  }

  /** The first rule of the catch block that applies to `e`. */
  function KindOf(e: JsError): (k: Kind)
    ensures k == Timeout <==> IsTimeout(e)
    ensures k == Connectivity <==> !IsTimeout(e) && IsConnectivity(e)
    ensures k == Format <==> !IsTimeout(e) && !IsConnectivity(e) && IsFormat(e)
    ensures k == Other <==> !IsTimeout(e) && !IsConnectivity(e) && !IsFormat(e)
  {
    if IsTimeout(e) then Timeout
    else if IsConnectivity(e) then Connectivity
    else if IsFormat(e) then Format
    else Other
  }

  /** The message of the error the catch block throws for `e`. */
  function Classify(e: JsError): (m: string)
    ensures m != ""
    ensures KindOf(e) == Timeout ==> m == TimeoutMessage
    ensures KindOf(e) == Connectivity ==> m == ConnectivityMessage
    ensures KindOf(e) == Format ==> m == e.message
    ensures KindOf(e) == Other ==> StartsWith(m, FailurePrefix)
    ensures KindOf(e) == Other && e.message != "" ==> m == FailurePrefix + e.message
    ensures KindOf(e) == Other && e.message == "" ==> m == FailurePrefix + "Unknown error"
  {
    match KindOf(e)
    case Timeout => TimeoutMessage
    case Connectivity => ConnectivityMessage
    case Format =>
      e.message
    case Other => FailurePrefix + (if e.message == "" then "Unknown error" else e.message)
  }

  /** Every message the catch block produces is one of the four kinds the UI may show. */
  predicate IsUserMessage(m: string) {
    m == TimeoutMessage || m == ConnectivityMessage ||
    Contains(m, "Invalid response") || Contains(m, "No valid predictions") ||
    StartsWith(m, FailurePrefix)
  }

  lemma ClassifiedIsUserMessage(e: JsError)
    ensures IsUserMessage(Classify(e))
  {
  }

  /** A message without any of the code units of `t` does not contain `t`. */
  lemma LacksChar(s: string, t: string, k: nat)
    requires k < |t| && t[k] !in s
    ensures !Contains(s, t)
  {
    if Contains(s, t) {
      ContainsOnlyItsChars(s, t, k);
    }
  }

  /** A message without 'u', 'w' and 'F' matches neither the timeout nor the connectivity rule. */
  lemma NeitherTimeoutNorConnectivity(m: string)
    requires forall i :: 0 <= i < |m| ==> m[i] != 'u' && m[i] != 'w' && m[i] != 'F'
    ensures !IsTimeout(Error(m)) && !IsConnectivity(Error(m))
  {
    LacksChar(m, "timeout", 5);
    LacksChar(m, "network", 3);
    LacksChar(m, "Failed to fetch", 0);
  }

  /** A message without 'u', 'w', 'h' and 's' falls through to the last rule. */
  lemma FallsThrough(m: string)
    requires forall i :: 0 <= i < |m| ==> m[i] != 'u' && m[i] != 'w' && m[i] != 'h' && m[i] != 's'
    ensures KindOf(Error(m)) == Other
  {
    LacksChar(m, "timeout", 5);
    LacksChar(m, "network", 3);
    LacksChar(m, "Failed to fetch", 14);
    LacksChar(m, "Invalid response", 10);
    LacksChar(m, "No valid predictions", 19);
  }

  /** The format errors the service raises itself are re-thrown unchanged. */
  lemma FormatErrorsPassThrough(m: string)
    requires m == "Invalid response format from Gradio API" || m == "No valid predictions received from API"
    ensures Classify(Error(m)) == m
  {
    FormatErrorKind(m);
  }

  lemma FormatErrorKind(m: string)
    requires m == "Invalid response format from Gradio API" || m == "No valid predictions received from API"
    ensures KindOf(Error(m)) == Format
  {
    if m == "Invalid response format from Gradio API" {
      InvalidResponseKind(m);
    } else {
      NoValidPredictionsKind(m);
    }
  }

  lemma InvalidResponseKind(m: string)
    requires m == "Invalid response format from Gradio API"
    ensures KindOf(Error(m)) == Format
  {
    InvalidResponseLacks(m, 'u');
    InvalidResponseLacks(m, 'w');
    InvalidResponseLacks(m, 'F');
    NeitherTimeoutNorConnectivity(m);
    assert StartsWith(m, "Invalid response");
  }

  /** The invalid-format message holds none of 'u', 'w' and 'F'. */
  lemma InvalidResponseLacks(m: string, ch: char)
    requires m == "Invalid response format from Gradio API"
    requires ch == 'u' || ch == 'w' || ch == 'F'
    ensures forall i :: 0 <= i < |m| ==> m[i] != ch
  {
  }

  lemma NoValidPredictionsKind(m: string)
    requires m == "No valid predictions received from API"
    ensures KindOf(Error(m)) == Format
  {
    NoValidPredictionsLacks(m, 'u');
    NoValidPredictionsLacks(m, 'w');
    NoValidPredictionsLacks(m, 'F');
    NeitherTimeoutNorConnectivity(m);
    assert StartsWith(m, "No valid predictions");
  }

  /** The no-valid-predictions message holds none of 'u', 'w' and 'F'. */
  lemma NoValidPredictionsLacks(m: string, ch: char)
    requires m == "No valid predictions received from API"
    requires ch == 'u' || ch == 'w' || ch == 'F'
    ensures forall i :: 0 <= i < |m| ==> m[i] != ch
  {
  }

  /** A response without an `event_id` is reported as a generic failure with its message. */
  lemma MissingEventIdMessage(m: string)
    requires m == "Failed to get event_id from Gradio API"
    ensures Classify(Error(m)) == FailurePrefix + m
  {
    MissingEventIdKind(m);
  }

  lemma MissingEventIdKind(m: string)
    requires m == "Failed to get event_id from Gradio API"
    ensures KindOf(Error(m)) == Other
  {
    assert forall i :: 0 <= i < |m| ==> m[i] != 'u' && m[i] != 'w' && m[i] != 'h' && m[i] != 's';
    FallsThrough(m);
  }
}
