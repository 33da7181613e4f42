/**
 * The JavaScript string and array built-ins the prediction service relies on:
 * `startsWith`, `includes`, `indexOf`, `split` and number-to-string conversion.
 * Strings are sequences of UTF-16 code units; `char` stands for one of them.
 */
module Text {

  /** `s.startsWith(prefix)` */
  predicate StartsWith(s: string, prefix: string) {
    |prefix| <= |s| && s[..|prefix|] == prefix
  }

  /** `startsWith` is the sequence-prefix relation. */
  lemma StartsWithIffPrefix(s: string, prefix: string)
    ensures StartsWith(s, prefix) <==> prefix <= s
  {
  }

  /** `s.includes(t)`: `t` occurs in `s` starting at some position. */
  predicate Contains(s: string, t: string)
    decreases |s|
  {
    StartsWith(s, t) || (|s| > 0 && Contains(s[1..], t))
  }

  /** `t` occurs in `s` at position `i`. */
  predicate OccursAt(s: string, t: string, i: int) {
    0 <= i && i + |t| <= |s| && s[i..i + |t|] == t
  }

  /** `s.includes(t)` agrees with "`t` occurs in `s` at some position". */
  lemma {:induction false} ContainsIffOccurs(s: string, t: string)
    ensures Contains(s, t) <==> exists i :: OccursAt(s, t, i)
    decreases |s|
  {
    if Contains(s, t) {
      if StartsWith(s, t) {
        assert OccursAt(s, t, 0);
      } else {
        ContainsIffOccurs(s[1..], t);
        var i :| OccursAt(s[1..], t, i);
        assert s[i + 1..i + 1 + |t|] == s[1..][i..i + |t|];
        assert OccursAt(s, t, i + 1);
      }
    }
    if exists i :: OccursAt(s, t, i) {
      var i :| OccursAt(s, t, i);
      if i > 0 {
        assert s[1..][i - 1..i - 1 + |t|] == s[i..i + |t|];
        assert OccursAt(s[1..], t, i - 1);
        ContainsIffOccurs(s[1..], t);
      } else {
        assert StartsWith(s, t);
      }
    }
  }

  /** Every code unit of a contained string occurs in the containing one. */
  lemma {:induction false} ContainsOnlyItsChars(s: string, t: string, k: nat)
    requires Contains(s, t) && k < |t|
    ensures t[k] in s
    decreases |s|
  {
    if StartsWith(s, t) {
      assert s[k] == t[k];
    } else {
      ContainsOnlyItsChars(s[1..], t, k);
    }
  }

  /** Position of the first `c` in `s`, or `|s|` when there is none. */
  function Find(s: string, c: char): (i: nat)
    ensures i <= |s|
    ensures i < |s| ==> s[i] == c
    ensures forall k :: 0 <= k < i ==> s[k] != c
    decreases |s|
  {
    if |s| == 0 then 0
    else if s[0] == c then 0
    else 1 + Find(s[1..], c)
  }

  /** `s.split(c)` for a one-character separator. */
  function Split(s: string, c: char): (parts: seq<string>)
    ensures |parts| >= 1
    ensures forall k :: 0 <= k < |parts| ==> c !in parts[k]
    ensures |parts| == 1 <==> c !in s
    decreases |s|
  {
    var i := Find(s, c);
    if i == |s| then [s]
    else [s[..i]] + Split(s[i + 1..], c)
  }

  /** The second piece of a split is the text between the first and the next `c`. */
  lemma SplitSecond(s: string, c: char)
    requires c in s
    ensures var first := Find(s, c);
            var rest := s[first + 1..];
            |Split(s, c)| > 1 && Split(s, c)[1] == rest[..Find(rest, c)]
  {
    var first := Find(s, c);
    FindIsBelowLength(s, c);
    var rest := s[first + 1..];
    SplitAtFirst(s, c);
    var tail := Split(rest, c);
    assert Split(s, c) == [s[..first]] + tail;
    SplitHead(rest, c);
    assert Split(s, c)[1] == tail[0];
  }

  /** A character that occurs is found before the end. */
  lemma FindIsBelowLength(s: string, c: char)
    requires c in s
    ensures Find(s, c) < |s|
  {
    var k :| 0 <= k < |s| && s[k] == c;
  }

  /** The first piece of a split is the text before the first `c`. */
  lemma SplitHead(s: string, c: char)
    ensures Split(s, c)[0] == s[..Find(s, c)]
  {
  }

  /** `parts.join(c)`, the inverse of `Split`. */
  function Join(parts: seq<string>, c: char): string
    requires |parts| >= 1
  {
    if |parts| == 1 then parts[0] else parts[0] + [c] + Join(parts[1..], c)
  }

  lemma {:induction false} JoinSplit(s: string, c: char)
    ensures Join(Split(s, c), c) == s
    decreases |s|
  {
    var i := Find(s, c);
    if i < |s| {
      var head, tail := s[..i], s[i + 1..];
      SplitAtFirst(s, c);
      JoinCons(head, Split(tail, c), c);
      JoinSplit(tail, c);
      Reassemble(s, i);
    }
  }

  lemma Reassemble(s: string, i: nat)
    requires i < |s|
    ensures s == s[..i] + [s[i]] + s[i + 1..]
  {
  }

  lemma SplitAtFirst(s: string, c: char)
    requires Find(s, c) < |s|
    ensures Split(s, c) == [s[..Find(s, c)]] + Split(s[Find(s, c) + 1..], c)
  {
  }

  lemma JoinCons(head: string, rest: seq<string>, c: char)
    requires |rest| >= 1
    ensures Join([head] + rest, c) == head + [c] + Join(rest, c)
  {
    assert ([head] + rest)[1..] == rest;
  }

  /** `lines.indexOf(x)`: the first position holding `x`, or -1. */
  function IndexOf(lines: seq<string>, x: string): (i: int)
    ensures -1 <= i < |lines|
    ensures i == -1 <==> x !in lines
    ensures 0 <= i ==> lines[i] == x && x !in lines[..i]
  {
    if |lines| == 0 then -1
    else if lines[0] == x then 0
    else
      var j := IndexOf(lines[1..], x);
      if j == -1 then -1
      else
        assert lines[..1 + j] == [lines[0]] + lines[1..][..j];
        1 + j
  }

  /** Template-literal conversion of a status code, `${n}`. */
  function NatToString(n: nat): (s: string)
    ensures |s| >= 1 && forall k :: 0 <= k < |s| ==> '0' <= s[k] <= '9'
  {
    var digit := ('0' as int + n % 10) as char;
    if n < 10 then [digit] else NatToString(n / 10) + [digit]
  }
}
