/**
 * The event-stream read of `makePrediction` (the second call of Gradio's
 * submit-then-stream HTTP API). After every chunk the whole text received so far is
 * split into lines and scanned for an `event: complete` line whose following line is a
 * `data: ` line carrying `[{"success": ..., "predictions": ...}]`. Decoding bytes to
 * text is not modelled: the stream is the sequence of decoded chunks, and `JSON.parse`
 * is the parameter `parse`.
 */
module EventStream {
  import opened Wrappers
  import opened Text
  import opened Js

  const CompleteEvent: string := "event: complete"
  const DataPrefix: string := "data: "

  /**
   * `Array.isArray(data) && data.length > 0 && data[0].success && data[0].predictions`,
   * giving `data[0].predictions` when it holds. Reading a property of a `null` first
   * element throws, and the surrounding catch treats that as "not accepted".
   */
  function Accept(data: Json): (r: Option<Json>)
    ensures r.Some? <==>
              data.JArr? && |data.items| > 0 && data.items[0].JObj? &&
              "success" in data.items[0].fields && Truthy(data.items[0].fields["success"]) &&
              "predictions" in data.items[0].fields && Truthy(data.items[0].fields["predictions"])
    ensures r.Some? ==> r.value == data.items[0].fields["predictions"]
  {
    if data.JArr? && |data.items| > 0 then
      match Read(data.items[0], "success")
      case Err(_) => None
      case Ok(success) =>
        if !IsTruthy(success) then None
        else
          match Read(data.items[0], "predictions")
          case Err(_) => None
          case Ok(predictions) => if IsTruthy(predictions) then Some(predictions.value) else None
    else None
  }

  /**
   * What the line at position `i` contributes: for an `event: complete` line, the line
   * after the FIRST line equal to it (`lines.indexOf(line) + 1`) must be a `data: `
   * line whose text after the 6-character prefix parses and is accepted. A parse
   * failure is caught and skipped. Positions past the last line yield nothing.
   */
  function PayloadAt(lines: seq<string>, i: nat, parse: string -> Parsed): (r: Option<Json>)
    ensures r.Some? ==> i < |lines| && StartsWith(lines[i], CompleteEvent) && Truthy(r.value)
  {
    if i >= |lines| || !StartsWith(lines[i], CompleteEvent) then None
    else
      var next := IndexOf(lines, lines[i]) + 1;
      if next < |lines| && StartsWith(lines[next], DataPrefix) then
        match parse(lines[next][|DataPrefix|..])
        case Unparseable(_) => None
        case Parsed(data) => Accept(data)
      else None
  }

  /** The payload of every line, by position. */
  function Payloads(lines: seq<string>, parse: string -> Parsed): nat -> Option<Json>
  {
    (i: nat) => PayloadAt(lines, i, parse)
  }

  /** The first payload `p` yields at a position in `from..n`. */
  function FirstFound(p: nat -> Option<Json>, n: nat, from: nat): Option<Json>
    decreases n - from
  {
    if from >= n then None
    else if p(from).Some? then p(from)
    else FirstFound(p, n, from + 1)
  }

  /** `FirstFound` yields nothing exactly when no position in `from..n` yields a payload. */
  lemma {:induction false} FirstFoundNoneIff(p: nat -> Option<Json>, n: nat, from: nat)
    ensures FirstFound(p, n, from).None? <==> forall i :: from <= i < n ==> p(i).None?
    decreases n - from
  {
    if from < n {
      FirstFoundNoneIff(p, n, from + 1);
    }
  }

  /** What `FirstFound` yields comes from a position before which nothing is yielded. */
  lemma {:induction false} FirstFoundFirst(p: nat -> Option<Json>, n: nat, from: nat)
    requires FirstFound(p, n, from).Some?
    ensures exists i :: from <= i < n && p(i) == FirstFound(p, n, from) &&
                        forall j :: from <= j < i ==> p(j).None?
    decreases n - from
  {
    if p(from).None? {
      FirstFoundFirst(p, n, from + 1);
      var i :| from + 1 <= i < n && p(i) == FirstFound(p, n, from + 1) &&
               forall j :: from + 1 <= j < i ==> p(j).None?;
      assert forall j :: from <= j < i ==> p(j).None?;
    }
  }

  /** The payload of the first line from position `from` on that yields one. */
  function ScanLines(lines: seq<string>, parse: string -> Parsed, from: nat): Option<Json>
  {
    FirstFound(Payloads(lines, parse), |lines|, from)
  }

  /** The scan finds nothing exactly when no line from `from` on yields a payload. */
  lemma ScanLinesNoneIff(lines: seq<string>, parse: string -> Parsed, from: nat)
    ensures ScanLines(lines, parse, from).None? <==> forall i :: from <= i < |lines| ==> PayloadAt(lines, i, parse).None?
  {
    FirstFoundNoneIff(Payloads(lines, parse), |lines|, from);
    assert forall i: nat :: Payloads(lines, parse)(i) == PayloadAt(lines, i, parse);
  }

  /** A payload the scan finds is that of the first line from `from` on that yields one. */
  lemma ScanLinesFirst(lines: seq<string>, parse: string -> Parsed, from: nat)
    requires ScanLines(lines, parse, from).Some?
    ensures exists i :: from <= i < |lines| && PayloadAt(lines, i, parse) == ScanLines(lines, parse, from) &&
                        forall j :: from <= j < i ==> PayloadAt(lines, j, parse).None?
  {
    FirstFoundFirst(Payloads(lines, parse), |lines|, from);
    assert forall i: nat :: Payloads(lines, parse)(i) == PayloadAt(lines, i, parse);
  }

  /**
   * An accepted payload always comes from an `event: complete` line immediately followed
   * by a `data: ` line whose remainder parses to an accepted value: the first occurrence
   * of the matching line is such a line.
   */
  lemma AcceptedFollowsCompleteEvent(lines: seq<string>, parse: string -> Parsed, i: nat)
    requires i < |lines| && PayloadAt(lines, i, parse).Some?
    ensures exists k, data :: 0 <= k < |lines| - 1 && StartsWith(lines[k], CompleteEvent) &&
              StartsWith(lines[k + 1], DataPrefix) && parse(lines[k + 1][|DataPrefix|..]) == Parsed(data) &&
              Accept(data) == PayloadAt(lines, i, parse)
  {
    var k := IndexOf(lines, lines[i]);
    var Parsed(data) := parse(lines[k + 1][|DataPrefix|..]);
    assert lines[k] == lines[i];
  }

  /**
   * Conversely, an `event: complete` line (at its first occurrence) followed by a `data: `
   * line with an accepted payload is always found: the scan yields that payload or the
   * one of an earlier line.
   */
  lemma CompleteEventIsFound(lines: seq<string>, parse: string -> Parsed, k: nat, data: Json)
    requires k + 1 < |lines| && StartsWith(lines[k], CompleteEvent) && lines[k] !in lines[..k]
    requires StartsWith(lines[k + 1], DataPrefix) && parse(lines[k + 1][|DataPrefix|..]) == Parsed(data)
    requires Accept(data).Some?
    ensures PayloadAt(lines, k, parse) == Accept(data)
    ensures ScanLines(lines, parse, 0).Some?
  {
    assert IndexOf(lines, lines[k]) == k;
    ScanLinesNoneIff(lines, parse, 0);
  }

  /**
   * `indexOf` makes a repeated `event: complete` line look at the line after its FIRST
   * copy, so every copy yields the same payload.
   */
  lemma RepeatedCompleteLineReadsFirstCopy(lines: seq<string>, parse: string -> Parsed, k: nat, i: nat)
    requires k < i < |lines| && lines[k] == lines[i]
    ensures PayloadAt(lines, i, parse) == PayloadAt(lines, k, parse)
  {
  }

  /** The `for (const line of lines)` loop: stops at the first accepted payload. */
  method FindCompleteEvent(lines: seq<string>, parse: string -> Parsed) returns (predictions: Option<Json>)
    ensures predictions == ScanLines(lines, parse, 0)
  {
    predictions := None;
    for i := 0 to |lines|
      invariant ScanLines(lines, parse, i) == ScanLines(lines, parse, 0)
    {
      var line := lines[i];
      var accepted: Option<Json> := None;
      if StartsWith(line, CompleteEvent) {
        var nextLineIndex := IndexOf(lines, line) + 1;
        if nextLineIndex < |lines| && StartsWith(lines[nextLineIndex], DataPrefix) {
          var dataStr := lines[nextLineIndex][6..];
          match parse(dataStr)
          case Parsed(data) => accepted := Accept(data);
          case Unparseable(_) =>
        }
      }
      assert accepted == PayloadAt(lines, i, parse);
      if accepted.Some? {
        predictions := accepted;
        break;
      }
    }
  }

  /**
   * A response body as the reader hands it out: the decoded chunks in order, then either
   * the end of the stream or the error a failed read throws.
   */
  datatype Stream = Stream(chunks: seq<string>, failure: Option<JsError>)

  /** How reading the body ends. */
  datatype Outcome = Found(predictions: Json) | Ended | ReadFailed(err: JsError)

  /** The text received after the first `k` chunks (`result += chunk`). */
  function Received(chunks: seq<string>, k: nat): (text: string)
    requires k <= |chunks|
  {
    if k == 0 then "" else Received(chunks, k - 1) + chunks[k - 1]
  }

  /** What one pass of the line scan over the whole of `text` yields. */
  function ScanText(text: string, parse: string -> Parsed): Option<Json>
  {
    ScanLines(Split(text, '\n'), parse, 0)
  }

  /** The line scan as a function of the text alone. */
  function Scanner(parse: string -> Parsed): string -> Option<Json>
  {
    text => ScanText(text, parse)
  }

  /** What `scan` yields on the text received once chunk `n` (counting from 0) is appended. */
  function ScanAfterChunk(chunks: seq<string>, scan: string -> Option<Json>, n: nat): Option<Json>
    requires n < |chunks|
  {
    scan(Received(chunks, n + 1))
  }

  /**
   * The outcome of reading from chunk `k` on, where `scan` is what one scan of the text
   * received so far yields: the first scan after a chunk that finds a payload ends the
   * read; otherwise the read ends as the stream does (its end, or its read error).
   */
  function ReadFrom(chunks: seq<string>, failure: Option<JsError>, scan: string -> Option<Json>, k: nat): Outcome
    requires k <= |chunks|
    decreases |chunks| - k
  {
    if k == |chunks| then
      if failure.Some? then ReadFailed(failure.value) else Ended
    else if ScanAfterChunk(chunks, scan, k).Some? then Found(ScanAfterChunk(chunks, scan, k).value)
    else ReadFrom(chunks, failure, scan, k + 1)
  }

  /** The whole read of the response body. */
  function ReadBody(stream: Stream, parse: string -> Parsed): Outcome
  {
    ReadFrom(stream.chunks, stream.failure, Scanner(parse), 0)
  }

  /**
   * The `while (true)` loop that reads the body chunk by chunk, with `scan` standing for
   * the line scan it runs over the text received so far.
   */
  method ReadChunks(stream: Stream, scan: string -> Option<Json>) returns (r: Outcome)
    ensures r == ReadFrom(stream.chunks, stream.failure, scan, 0)
  {
    var result := "";
    var k := 0;
    while k < |stream.chunks|
      invariant k <= |stream.chunks|
      invariant result == Received(stream.chunks, k)
      invariant ReadFrom(stream.chunks, stream.failure, scan, k) == ReadFrom(stream.chunks, stream.failure, scan, 0)
      decreases |stream.chunks| - k
    {
      ReadStep(stream.chunks, stream.failure, scan, k, result);
      result := result + stream.chunks[k];
      var predictions := scan(result);
      k := k + 1;
      if predictions.Some? {
        return Found(predictions.value);
      }
    }
    if stream.failure.Some? {
      return ReadFailed(stream.failure.value);
    }
    return Ended;
  }

  /** Reading the body with the line scan of `ScanReceived` as the scan step. */
  method ReadPredictions(stream: Stream, parse: string -> Parsed) returns (r: Outcome)
    ensures r == ReadBody(stream, parse)
  {
    r := ReadChunks(stream, Scanner(parse));
  }

  /**
   * `result.split('\n')` followed by the `for` loop over the lines: one scan step of the
   * read loop, which computes `ScanText`.
   */
  method ScanReceived(result: string, parse: string -> Parsed) returns (predictions: Option<Json>)
    ensures predictions == ScanText(result, parse)
  {
    var lines := Split(result, '\n');
    predictions := FindCompleteEvent(lines, parse);
  }

  /** One turn of the read loop: append the chunk, scan the whole text, stop if found. */
  lemma ReadStep(chunks: seq<string>, failure: Option<JsError>, scan: string -> Option<Json>, k: nat, received: string)
    requires k < |chunks| && received == Received(chunks, k)
    ensures received + chunks[k] == Received(chunks, k + 1)
    ensures ReadFrom(chunks, failure, scan, k) ==
              if scan(received + chunks[k]).Some? then Found(scan(received + chunks[k]).value)
              else ReadFrom(chunks, failure, scan, k + 1)
  {
  }

  /** The read finds a payload exactly when the scan after some chunk from `k` on does. */
  lemma {:induction false} ReadFromFindsIff(chunks: seq<string>, failure: Option<JsError>, scan: string -> Option<Json>, k: nat)
    requires k <= |chunks|
    ensures ReadFrom(chunks, failure, scan, k).Found? <==>
              exists n :: k <= n < |chunks| && ScanAfterChunk(chunks, scan, n).Some?
    decreases |chunks| - k
  {
    if k < |chunks| && ScanAfterChunk(chunks, scan, k).None? {
      ReadFromFindsIff(chunks, failure, scan, k + 1);
    }
  }

  /** A found payload is the one of the first scan that finds any. */
  lemma {:induction false} ReadFromFirst(chunks: seq<string>, failure: Option<JsError>, scan: string -> Option<Json>, k: nat)
    requires k <= |chunks|
    requires ReadFrom(chunks, failure, scan, k).Found?
    ensures exists n :: k <= n < |chunks| &&
                        ScanAfterChunk(chunks, scan, n) == Some(ReadFrom(chunks, failure, scan, k).predictions) &&
                        forall m :: k <= m < n ==> ScanAfterChunk(chunks, scan, m).None?
    decreases |chunks| - k
  {
    if ScanAfterChunk(chunks, scan, k).None? {
      ReadFromFirst(chunks, failure, scan, k + 1);
    }
  }

  /** A read that finds nothing ends as the stream does. */
  lemma {:induction false} ReadFromNotFound(chunks: seq<string>, failure: Option<JsError>, scan: string -> Option<Json>, k: nat)
    requires k <= |chunks|
    requires !ReadFrom(chunks, failure, scan, k).Found?
    ensures ReadFrom(chunks, failure, scan, k) == (if failure.Some? then ReadFailed(failure.value) else Ended)
    decreases |chunks| - k
  {
    if k < |chunks| {
      ReadFromNotFound(chunks, failure, scan, k + 1);
    }
  }

  /**
   * The read finds a payload exactly when the scan of the text received after some chunk
   * does; it is the payload of the first such scan; a read that finds none ends as the
   * stream does (end of stream, or the read error).
   */
  lemma ReadBodyFirstScan(stream: Stream, parse: string -> Parsed)
    ensures ReadBody(stream, parse).Found? <==>
              exists n :: 0 <= n < |stream.chunks| && ScanAfterChunk(stream.chunks, Scanner(parse), n).Some?
    ensures ReadBody(stream, parse).Found? ==>
              exists n :: 0 <= n < |stream.chunks| &&
                          ScanAfterChunk(stream.chunks, Scanner(parse), n) == Some(ReadBody(stream, parse).predictions) &&
                          forall m :: 0 <= m < n ==> ScanAfterChunk(stream.chunks, Scanner(parse), m).None?
    ensures !ReadBody(stream, parse).Found? ==>
              ReadBody(stream, parse) == (if stream.failure.Some? then ReadFailed(stream.failure.value) else Ended)
  {
    ReadFromFindsIff(stream.chunks, stream.failure, Scanner(parse), 0);
    if ReadBody(stream, parse).Found? {
      ReadFromFirst(stream.chunks, stream.failure, Scanner(parse), 0);
    } else {
      ReadFromNotFound(stream.chunks, stream.failure, Scanner(parse), 0);
    }
  }

  /** A found payload is always truthy: the loop's `if (predictions) break` is met. */
  lemma FoundIsTruthy(stream: Stream, parse: string -> Parsed)
    requires ReadBody(stream, parse).Found?
    ensures Truthy(ReadBody(stream, parse).predictions)
  {
    ReadBodyFirstScan(stream, parse);
    var n :| 0 <= n < |stream.chunks| &&
             ScanAfterChunk(stream.chunks, Scanner(parse), n) == Some(ReadBody(stream, parse).predictions);
    var lines := Split(Received(stream.chunks, n + 1), '\n');
    assert ScanAfterChunk(stream.chunks, Scanner(parse), n) == ScanLines(lines, parse, 0);
    ScanLinesFirst(lines, parse, 0);
  }
}
