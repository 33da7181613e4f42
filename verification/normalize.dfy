/**
 * The format / filter / sort / slice pipeline `makePrediction` applies to the raw
 * predictions array, and the "No valid predictions" error it raises when nothing is
 * left.
 */
module Normalize {
  import opened Wrappers
  import opened Js
  import opened Ranking

  const Unknown: Json := JStr("Unknown")
  const NoValidPredictions: string := "No valid predictions received from API"

  /** `pred[key]` on an entry already known not to be `null`. */
  function Field(pred: Json, key: string): Option<Json> {
    if pred.JObj? && key in pred.fields then Some(pred.fields[key]) else None
  }

  /** `typeof v === 'number'` */
  predicate IsNumber(v: Option<Json>) {
    v.Some? && v.value.JNum?
  }

  /**
   * One entry of `predictions.map(...)`: label `pred.category || pred.label || 'Unknown'`,
   * confidence `pred.confidence` if it is a number and 0 otherwise. Reading a property
   * of a `null` entry throws.
   */
  function Format(pred: Json): (r: Result<Prediction, JsError>)
    ensures r.Err? <==> pred == JNull
    ensures r.Err? ==> r.error == NullRead("category")
    ensures r.Ok? ==> Truthy(r.value.name)
    ensures r.Ok? && IsTruthy(Field(pred, "category")) ==> r.value.name == Field(pred, "category").value
    ensures r.Ok? && !IsTruthy(Field(pred, "category")) && IsTruthy(Field(pred, "label")) ==>
              r.value.name == Field(pred, "label").value
    ensures r.Ok? && !IsTruthy(Field(pred, "category")) && !IsTruthy(Field(pred, "label")) ==>
              r.value.name == Unknown
    ensures r.Ok? && IsNumber(Field(pred, "confidence")) ==>
              r.value.confidence == Field(pred, "confidence").value.n
    ensures r.Ok? && !IsNumber(Field(pred, "confidence")) ==> r.value.confidence == 0.0
  {
    match Read(pred, "category")
    case Err(e) => Err(e)
    case Ok(category) =>
      var labelField := Field(pred, "label");
      var confidence := Field(pred, "confidence");
      var name := if IsTruthy(category) then category.value
                  else if IsTruthy(labelField) then labelField.value
                  else Unknown;
      Ok(Prediction(name, if IsNumber(confidence) then confidence.value.n else 0.0))
  }

  /**
   * An entry survives the filter exactly when its category is truthy and not "Unknown",
   * or its category is falsy and its label is truthy and not "Unknown": the
   * `pred.label &&` half of the filter never removes anything.
   */
  lemma KeptIff(pred: Json)
    requires pred != JNull
    ensures var category, labelField := Field(pred, "category"), Field(pred, "label");
            ValidLabel(Format(pred).value) <==>
              (IsTruthy(category) && category.value != Unknown) ||
              (!IsTruthy(category) && IsTruthy(labelField) && labelField.value != Unknown)
  {
  }

  /** `predictions.map(...)`: the formatted entries, or the error of the first `null` one. */
  function FormatAll(preds: seq<Json>): (r: Result<seq<Prediction>, JsError>)
    ensures r.Err? <==> JNull in preds
    ensures r.Err? ==> r.error == NullRead("category")
    ensures r.Ok? ==> |r.value| == |preds| && forall i :: 0 <= i < |preds| ==> Format(preds[i]) == Ok(r.value[i])
  {
    if preds == [] then Ok([])
    else
      match Format(preds[0])
      case Err(e) => Err(e)
      case Ok(p) =>
        match FormatAll(preds[1..])
        case Err(e) => Err(e)
        case Ok(rest) =>
          assert preds == [preds[0]] + preds[1..];
          Ok([p] + rest)
  }

  /** `.filter(pred => pred.label && pred.label !== 'Unknown')` */
  function KeepValid(s: seq<Prediction>): (r: seq<Prediction>)
    ensures forall i :: 0 <= i < |r| ==> ValidLabel(r[i])
    ensures forall x :: x in s && ValidLabel(x) <==> x in r
    ensures multiset(r) <= multiset(s)
  {
    if s == [] then []
    else
      assert s == [s[0]] + s[1..];
      if ValidLabel(s[0]) then [s[0]] + KeepValid(s[1..]) else KeepValid(s[1..])
  }

  /** The filter keeps every valid entry as often as it occurs and drops every other one. */
  lemma {:induction false} KeepValidCounts(s: seq<Prediction>)
    ensures forall x :: multiset(KeepValid(s))[x] == if ValidLabel(x) then multiset(s)[x] else 0
  {
    if s != [] {
      KeepValidCounts(s[1..]);
      assert s == [s[0]] + s[1..];
    }
  }

  /** `.slice(0, topK)` for a positive `topK`. */
  function Take(s: seq<Prediction>, topK: nat): (r: seq<Prediction>)
    ensures r <= s
    ensures |r| == if topK < |s| then topK else |s|
  {
    if topK < |s| then s[..topK] else s
  }

  /** The valid formatted entries, before sorting and truncation. */
  function Candidates(raw: seq<Json>): seq<Prediction>
    requires JNull !in raw
  {
    KeepValid(FormatAll(raw).value)
  }

  /** Sorted, truncated valid entries of an already formatted list. */
  function TopValid(formatted: seq<Prediction>, topK: nat): (r: seq<Prediction>)
    ensures Ranked(r, topK)
    ensures |r| == if topK < |KeepValid(formatted)| then topK else |KeepValid(formatted)|
  {
    var valid := KeepValid(formatted);
    var sorted := SortByConfidence(valid);
    var top := Take(sorted, topK);
    assert forall i :: 0 <= i < |top| ==> ValidLabel(top[i]) by {
      forall i | 0 <= i < |top| ensures ValidLabel(top[i]) {
        assert top[i] == sorted[i];
        assert sorted[i] in multiset(valid);
      }
    }
    top
  }

  /** The whole pipeline, including the error raised when no entry is left. */
  function Normalize(raw: seq<Json>, topK: nat): (r: Result<seq<Prediction>, JsError>)
    requires topK > 0
    ensures JNull in raw ==> r == Err(NullRead("category"))
    ensures JNull !in raw ==> (r.Err? <==> Candidates(raw) == [])
    ensures JNull !in raw && r.Err? ==> r.error == Error(NoValidPredictions)
    ensures r.Ok? ==> Ranked(r.value, topK) && |r.value| >= 1
    ensures r.Ok? ==> |r.value| == if topK < |Candidates(raw)| then topK else |Candidates(raw)|
  {
    match FormatAll(raw)
    case Err(e) => Err(e)
    case Ok(formatted) =>
      var top := TopValid(formatted, topK);
      if |top| == 0 then Err(Error(NoValidPredictions)) else Ok(top)
  }

  /** What is kept is a sub-multiset of the formatted entries. */
  lemma NormalizeKeepsInputEntries(raw: seq<Json>, topK: nat)
    requires topK > 0 && Normalize(raw, topK).Ok?
    ensures multiset(Normalize(raw, topK).value) <= multiset(FormatAll(raw).value)
  {
    var formatted := FormatAll(raw).value;
    var valid := KeepValid(formatted);
    var sorted := SortByConfidence(valid);
    var top := Normalize(raw, topK).value;
    assert top == TopValid(formatted, topK) == Take(sorted, topK);
    PrefixIsSubMultiset(top, sorted);
    assert multiset(sorted) == multiset(valid) <= multiset(formatted);
  }

  lemma PrefixIsSubMultiset(a: seq<Prediction>, b: seq<Prediction>)
    requires a <= b
    ensures multiset(a) <= multiset(b)
  {
    assert b == a + b[|a|..];
  }

  /**
   * Top-k selection: every valid entry the truncation drops has a confidence no higher
   * than any entry that is kept.
   */
  lemma NormalizeDropsOnlyLowerEntries(raw: seq<Json>, topK: nat)
    requires topK > 0 && Normalize(raw, topK).Ok?
    ensures var top := Normalize(raw, topK).value;
            forall x, y :: x in top && y in multiset(Candidates(raw)) - multiset(top) ==> y.confidence <= x.confidence
  {
    var formatted := FormatAll(raw).value;
    var sorted := SortByConfidence(KeepValid(formatted));
    var top := Normalize(raw, topK).value;
    assert top == TopValid(formatted, topK) == Take(sorted, topK);
    assert top == sorted[..|top|];
    PrefixOfSortedDominates(sorted, |top|);
  }

  /** In a sorted list, everything after position `k` is no higher than anything before it. */
  lemma PrefixOfSortedDominates(sorted: seq<Prediction>, k: nat)
    requires SortedDesc(sorted) && k <= |sorted|
    ensures forall x, y :: x in sorted[..k] && y in multiset(sorted) - multiset(sorted[..k]) ==>
              y.confidence <= x.confidence
  {
    assert sorted == sorted[..k] + sorted[k..];
    assert multiset(sorted) - multiset(sorted[..k]) == multiset(sorted[k..]);
    forall x, y | x in sorted[..k] && y in multiset(sorted) - multiset(sorted[..k])
      ensures y.confidence <= x.confidence
    {
      var i :| 0 <= i < k && sorted[i] == x;
      assert y in sorted[k..];
      var j :| k <= j < |sorted| && sorted[j] == y;
    }
  }

  /** Entries with equal confidence come out in the order they came in. */
  lemma NormalizeIsStable(raw: seq<Json>, topK: nat, c: real)
    requires topK > 0 && Normalize(raw, topK).Ok?
    ensures WithConfidence(Normalize(raw, topK).value, c) <= WithConfidence(Candidates(raw), c)
  {
    var sorted := SortByConfidence(Candidates(raw));
    var top := Normalize(raw, topK).value;
    WithConfidenceOfPrefix(top, sorted, c);
    SortIsStable(Candidates(raw));
  }

  lemma {:induction false} WithConfidenceOfPrefix(a: seq<Prediction>, b: seq<Prediction>, c: real)
    requires a <= b
    ensures WithConfidence(a, c) <= WithConfidence(b, c)
  {
    if a != [] {
      assert a[1..] <= b[1..];
      WithConfidenceOfPrefix(a[1..], b[1..], c);
    }
  }
}
