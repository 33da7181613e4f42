/**
 * Ranked prediction lists: the `{label, confidence}` entry, and the stable descending
 * sort that `Array.prototype.sort((a, b) => b.confidence - a.confidence)` performs
 * (the sort is stable since ECMAScript 2019).
 */
module Ranking {
  import opened Js

  /** One guess: its `label` (`label` is a Dafny keyword, hence `name`), which is whatever
      JSON value the classifier supplied, and its confidence. */
  datatype Prediction = Prediction(name: Json, confidence: real)

  predicate SortedDesc(s: seq<Prediction>) {
    forall i, j :: 0 <= i < j < |s| ==> s[i].confidence >= s[j].confidence
  }

  /** The entries of `s` whose confidence is `c`, in their order in `s`. */
  function WithConfidence(s: seq<Prediction>, c: real): (r: seq<Prediction>)
    ensures |r| <= |s|
  {
    if s == [] then []
    else if s[0].confidence == c then [s[0]] + WithConfidence(s[1..], c)
    else WithConfidence(s[1..], c)
  }

  /** Equal confidences keep their relative order from `a` in `b`. */
  ghost predicate SameTies(a: seq<Prediction>, b: seq<Prediction>) {
    forall c: real :: WithConfidence(a, c) == WithConfidence(b, c)
  }

  /** Inserts `x` ahead of every entry whose confidence is not above its own. */
  function Insert(x: Prediction, s: seq<Prediction>): (r: seq<Prediction>)
    requires SortedDesc(s)
    ensures SortedDesc(r)
    ensures multiset(r) == multiset(s) + multiset{x}
    ensures r[0] == x || (s != [] && r[0] == s[0])
  {
    if s == [] || s[0].confidence <= x.confidence then
      ConsSorted(x, s);
      [x] + s
    else
      var rest := Insert(x, s[1..]);
      ConsSorted(s[0], rest);
      assert s == [s[0]] + s[1..];
      [s[0]] + rest
  }

  /** An entry placed in front of a sorted list no higher than it keeps the list sorted. */
  lemma ConsSorted(h: Prediction, t: seq<Prediction>)
    requires SortedDesc(t) && (t == [] || t[0].confidence <= h.confidence)
    ensures SortedDesc([h] + t)
  {
    var r := [h] + t;
    forall i, j | 0 <= i < j < |r| ensures r[i].confidence >= r[j].confidence {
      if i == 0 {
        assert r[j] == t[j - 1];
      } else {
        assert r[i] == t[i - 1] && r[j] == t[j - 1];
      }
    }
  }

  /** Stable sort by decreasing confidence. */
  function SortByConfidence(s: seq<Prediction>): (r: seq<Prediction>)
    ensures SortedDesc(r)
    ensures multiset(r) == multiset(s)
  {
    if s == [] then []
    else
      assert s == [s[0]] + s[1..];
      Insert(s[0], SortByConfidence(s[1..]))
  }

  /** `x` lands ahead of the entries that tie with it. */
  lemma {:induction false} InsertKeepsTies(x: Prediction, s: seq<Prediction>, c: real)
    requires SortedDesc(s)
    ensures WithConfidence(Insert(x, s), c) ==
              if x.confidence == c then [x] + WithConfidence(s, c) else WithConfidence(s, c)
  {
    if s == [] || s[0].confidence <= x.confidence {
      WithConfidenceCons(x, s, c);
    } else {
      var rest := Insert(x, s[1..]);
      assert Insert(x, s) == [s[0]] + rest;
      WithConfidenceCons(s[0], rest, c);
      InsertKeepsTies(x, s[1..], c);
      if x.confidence == c {
        assert s[0].confidence != c;
        assert WithConfidence(Insert(x, s), c) == [x] + WithConfidence(s[1..], c);
      }
    }
  }

  lemma WithConfidenceCons(h: Prediction, t: seq<Prediction>, c: real)
    ensures WithConfidence([h] + t, c) == if h.confidence == c then [h] + WithConfidence(t, c) else WithConfidence(t, c)
  {
    assert ([h] + t)[1..] == t;
  }

  /** The sort is stable: entries with equal confidence keep their input order. */
  lemma {:induction false} SortIsStable(s: seq<Prediction>)
    ensures SameTies(s, SortByConfidence(s))
  {
    if s != [] {
      SortIsStable(s[1..]);
      forall c: real ensures WithConfidence(s, c) == WithConfidence(SortByConfidence(s), c) {
        InsertKeepsTies(s[0], SortByConfidence(s[1..]), c);
      }
    }
  }

  /** Every entry picked out by `WithConfidence` comes from `s` and has confidence `c`. */
  lemma {:induction false} WithConfidenceFrom(s: seq<Prediction>, c: real, x: Prediction)
    requires x in WithConfidence(s, c)
    ensures x in s && x.confidence == c
  {
    if s[0].confidence != c || x != s[0] {
      WithConfidenceFrom(s[1..], c, x);
    }
  }

  /**
   * The order of `SortByConfidence` is the only one that is sorted and keeps ties in
   * input order: any two sorted lists with the same ties are equal. So the model's
   * sort and the engine's stable sort give the same list.
   */
  lemma {:induction false} SortedWithSameTiesAreEqual(a: seq<Prediction>, b: seq<Prediction>)
    requires SortedDesc(a) && SortedDesc(b) && SameTies(a, b)
    ensures a == b
    decreases |a|
  {
    assert a != [] ==> WithConfidence(a, a[0].confidence) != [];
    assert b != [] ==> WithConfidence(b, b[0].confidence) != [];
    if a != [] && b != [] {
      var m, n := a[0].confidence, b[0].confidence;
      assert WithConfidence(a, m)[0] == a[0];
      WithConfidenceFrom(b, m, a[0]);
      assert m <= n by {
        var i :| 0 <= i < |b| && b[i] == a[0];
        assert b[0].confidence >= b[i].confidence;
      }
      assert WithConfidence(b, n)[0] == b[0];
      WithConfidenceFrom(a, n, b[0]);
      assert n <= m by {
        var i :| 0 <= i < |a| && a[i] == b[0];
        assert a[0].confidence >= a[i].confidence;
      }
      assert WithConfidence(a, m) == [a[0]] + WithConfidence(a[1..], m);
      assert WithConfidence(b, m) == [b[0]] + WithConfidence(b[1..], m);
      assert a[0] == b[0];
      forall c: real ensures WithConfidence(a[1..], c) == WithConfidence(b[1..], c) {
        assert WithConfidence(a, c) == WithConfidence(b, c);
        if c == m {
          assert [a[0]] + WithConfidence(a[1..], c) == [b[0]] + WithConfidence(b[1..], c);
          assert ([a[0]] + WithConfidence(a[1..], c))[1..] == WithConfidence(a[1..], c);
          assert ([b[0]] + WithConfidence(b[1..], c))[1..] == WithConfidence(b[1..], c);
        }
      }
      SortedWithSameTiesAreEqual(a[1..], b[1..]);
      assert a == [a[0]] + a[1..] && b == [b[0]] + b[1..];
    }
  }

  /** The filter criterion of the service: a truthy label other than "Unknown". */
  predicate ValidLabel(p: Prediction) {
    Truthy(p.name) && p.name != JStr("Unknown")
  }

  /**
   * The shape every list shown to the user has: sorted by decreasing confidence, at
   * most `topK` long, and with valid labels only.
   */
  predicate Ranked(s: seq<Prediction>, topK: nat) {
    SortedDesc(s) && |s| <= topK && forall i :: 0 <= i < |s| ==> ValidLabel(s[i])
  }
}
