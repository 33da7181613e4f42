/**
 * `makeMockPrediction`: the offline substitute. Five fixed labels, each base confidence
 * moved by a jitter drawn from `Math.random()`, clamped to [0.01, 0.99], then sorted
 * by decreasing confidence. The random draws are a parameter; the 1.5 s delay is not
 * modelled.
 */
module MockPrediction {
  import opened Js
  import opened Ranking

  const Labels: seq<string> := ["cat", "dog", "bird", "fish", "house"]
  const BaseConfidences: seq<real> := [0.85, 0.72, 0.58, 0.34, 0.12]

  /** `Math.max(0.01, Math.min(0.99, x))` */
  function Clamp(x: real): (r: real)
    ensures 0.01 <= r <= 0.99
    ensures 0.01 <= x <= 0.99 ==> r == x
  {
    if x > 0.99 then 0.99 else if x < 0.01 then 0.01 else x
  }

  /** `(Math.random() - 0.5) * 0.2` for a draw `u`. */
  function Jitter(u: real): (j: real)
    requires 0.0 <= u < 1.0
    ensures -0.1 <= j < 0.1
  {
    (u - 0.5) * 0.2
  }

  /** What `Math.random()` may return, once per catalogue entry. */
  predicate IsDraw(draws: seq<real>) {
    |draws| == |Labels| && forall i :: 0 <= i < |draws| ==> 0.0 <= draws[i] < 1.0
  }

  /** Catalogue entry `k` moved by jitter `j`. */
  function Entry(k: nat, j: real): Prediction
    requires k < |Labels|
  {
    Prediction(JStr(Labels[k]), Clamp(BaseConfidences[k] + j))
  }

  /** `mockPredictions.map(...)`: the catalogue with one jitter per entry, in catalogue order. */
  function Jittered(draws: seq<real>): (r: seq<Prediction>)
    requires IsDraw(draws)
    ensures |r| == |Labels|
    ensures forall k :: 0 <= k < |Labels| ==> r[k] == Entry(k, Jitter(draws[k]))
  {
    seq(|Labels|, k requires 0 <= k < |Labels| => Entry(k, Jitter(draws[k])))
  }

  function MakeMockPrediction(draws: seq<real>): (r: seq<Prediction>)
    requires IsDraw(draws)
    ensures SortedDesc(r)
    ensures multiset(r) == multiset(Jittered(draws))
  {
    SortByConfidence(Jittered(draws))
  }

  /** The five labels start with five different letters, so they are pairwise distinct. */
  lemma LabelsDistinct()
    ensures forall k, l :: 0 <= k < l < |Labels| ==> Labels[k] != Labels[l]
  {
    assert forall k :: 0 <= k < |Labels| ==> |Labels[k]| > 0 && Labels[k][0] == "cdbfh"[k];
  }

  /** Each entry of the substitute is a catalogue entry moved by a jitter in [-0.1, 0.1) and clamped. */
  lemma MockEntries(draws: seq<real>)
    requires IsDraw(draws)
    ensures var r := MakeMockPrediction(draws);
            |r| == 5 &&
            forall i :: 0 <= i < |r| ==> exists k, d :: 0 <= k < |Labels| && -0.1 <= d < 0.1 && r[i] == Entry(k, d)
  {
    var r := MakeMockPrediction(draws);
    var m := Jittered(draws);
    assert |r| == |multiset(r)| == |multiset(m)| == 5;
    forall i | 0 <= i < |r| ensures exists k, d :: 0 <= k < |Labels| && -0.1 <= d < 0.1 && r[i] == Entry(k, d) {
      assert r[i] in multiset(m);
      var k :| 0 <= k < |m| && m[k] == r[i];
      assert r[i] == Entry(k, Jitter(draws[k]));
    }
  }

  /** Every confidence of the substitute lies in [0.01, 0.99]. */
  lemma MockConfidencesInRange(draws: seq<real>)
    requires IsDraw(draws)
    ensures forall p :: p in MakeMockPrediction(draws) ==> 0.01 <= p.confidence <= 0.99
  {
    var m := Jittered(draws);
    forall p | p in MakeMockPrediction(draws) ensures 0.01 <= p.confidence <= 0.99 {
      assert p in multiset(m);
    }
  }

  /** Each of the five labels appears in the substitute ... */
  lemma MockHasEveryLabel(draws: seq<real>)
    requires IsDraw(draws)
    ensures var r := MakeMockPrediction(draws);
            forall k :: 0 <= k < |Labels| ==> exists i :: 0 <= i < |r| && r[i].name == JStr(Labels[k])
  {
    var r := MakeMockPrediction(draws);
    var m := Jittered(draws);
    forall k | 0 <= k < |Labels| ensures exists i :: 0 <= i < |r| && r[i].name == JStr(Labels[k]) {
      assert m[k] in multiset(r);
    }
  }

  /** ... and no label appears twice. */
  lemma MockLabelsDistinct(draws: seq<real>)
    requires IsDraw(draws)
    ensures var r := MakeMockPrediction(draws);
            forall i, j :: 0 <= i < j < |r| ==> r[i].name != r[j].name
  {
    var m := Jittered(draws);
    LabelsDistinct();
    assert forall k, l :: 0 <= k < l < |m| ==> m[k].name != m[l].name;
    PermutationKeepsNamesDistinct(m, MakeMockPrediction(draws));
  }

  /** Reordering a list whose labels are pairwise distinct keeps them pairwise distinct. */
  lemma PermutationKeepsNamesDistinct(m: seq<Prediction>, r: seq<Prediction>)
    requires multiset(r) == multiset(m)
    requires forall k, l :: 0 <= k < l < |m| ==> m[k].name != m[l].name
    ensures forall i, j :: 0 <= i < j < |r| ==> r[i].name != r[j].name
  {
    forall i, j | 0 <= i < j < |r| ensures r[i].name != r[j].name {
      assert r[i] in multiset(m) && r[j] in multiset(m);
      var k :| 0 <= k < |m| && m[k] == r[i];
      var l :| 0 <= l < |m| && m[l] == r[j];
      OccursOnce(m, k);
      if k == l {
        OccursTwice(r, i, j);
      }
    }
  }

  /** An entry of a list with pairwise distinct labels occurs in it once. */
  lemma OccursOnce(m: seq<Prediction>, k: nat)
    requires k < |m| && forall a, b :: 0 <= a < b < |m| ==> m[a].name != m[b].name
    ensures multiset(m)[m[k]] == 1
  {
    assert m == m[..k] + [m[k]] + m[k + 1..];
    assert m[k] !in m[..k] && m[k] !in m[k + 1..];
  }

  /** An entry found at two positions occurs at least twice. */
  lemma OccursTwice(r: seq<Prediction>, i: nat, j: nat)
    requires i < j < |r| && r[i] == r[j]
    ensures multiset(r)[r[i]] >= 2
  {
    assert r == r[..i] + [r[i]] + r[i + 1..j] + [r[j]] + r[j + 1..];
  }

  /** The substitute has the shape the user interface expects of any result. */
  lemma MockIsRanked(draws: seq<real>)
    requires IsDraw(draws)
    ensures Ranked(MakeMockPrediction(draws), 5)
  {
    var r := MakeMockPrediction(draws);
    MockEntries(draws);
    forall i | 0 <= i < |r| ensures ValidLabel(r[i]) {
      assert r[i] in multiset(Jittered(draws));
    }
  }
}
