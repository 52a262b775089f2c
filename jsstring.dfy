/** The JavaScript string built-ins the core relies on, with the semantics
    ECMAScript gives them: `split` on one separator character, `trim`,
    `toLowerCase` (ASCII letters only), `includes`, and `length`, which
    counts UTF-16 code units. */
module JsString {

  import opened Wrappers

  /** ECMAScript WhiteSpace and LineTerminator code points: what `trim` removes. */
  predicate IsWhitespace(c: char) {
    || c == '\t' || c == '\n' || c == '\U{000B}' || c == '\U{000C}' || c == '\r'
    || c == ' ' || c == '\U{00A0}' || c == '\U{1680}'
    || ('\U{2000}' <= c <= '\U{200A}')
    || c == '\U{2028}' || c == '\U{2029}' || c == '\U{202F}' || c == '\U{205F}'
    || c == '\U{3000}' || c == '\U{FEFF}'
  }

  predicate AllWhitespace(s: string) {
    forall i :: 0 <= i < |s| ==> IsWhitespace(s[i])
  }

  /** No whitespace at either end: the shape of every value `trim` returns. */
  predicate IsTrimmed(s: string) {
    s == [] || (!IsWhitespace(s[0]) && !IsWhitespace(s[|s| - 1]))
  }

  /** Where `trim` stops cutting at the front: the first index from i on
      whose character is not whitespace, or the end. */
  function SkipLeading(s: string, i: nat): (r: nat)
    requires i <= |s|
    ensures i <= r <= |s|
    ensures forall k :: i <= k < r ==> IsWhitespace(s[k])
    ensures r == |s| || !IsWhitespace(s[r])
    decreases |s| - i
  {
    if i < |s| && IsWhitespace(s[i]) then SkipLeading(s, i + 1) else i
  }

  /** Where `trim` stops cutting at the back: the last index up to j before
      which the character is not whitespace, or the start. */
  function SkipTrailing(s: string, j: nat): (r: nat)
    requires j <= |s|
    ensures r <= j
    ensures forall k :: r <= k < j ==> IsWhitespace(s[k])
    ensures r == 0 || !IsWhitespace(s[r - 1])
  {
    if j > 0 && IsWhitespace(s[j - 1]) then SkipTrailing(s, j - 1) else j
  }

  /** `String.prototype.trim`: the text between the leading and the trailing whitespace. */
  function Trim(s: string): (r: string)
    ensures IsTrimmed(r)
    ensures r == [] <==> AllWhitespace(s)
    ensures r != [] ==>
      var i := SkipLeading(s, 0);
      var j := SkipTrailing(s, |s|);
      i < j && r == s[i..j]
  {
    var i := SkipLeading(s, 0);
    var j := SkipTrailing(s, |s|);
    if i == |s| then []
    else
      assert !IsWhitespace(s[i]);
      assert s[i..j][0] == s[i] && s[i..j][j - i - 1] == s[j - 1];
      s[i..j]
  }

  /** Any way of cutting whitespace off both ends that leaves a trimmed
      middle gives exactly what `trim` gives. */
  lemma TrimUnique(s: string, i: nat, j: nat)
    requires i <= j <= |s|
    requires AllWhitespace(s[..i]) && AllWhitespace(s[j..])
    requires IsTrimmed(s[i..j])
    ensures Trim(s) == s[i..j]
  {
    assert forall k :: 0 <= k < i ==> s[..i][k] == s[k];
    assert forall k :: j <= k < |s| ==> s[j..][k - j] == s[k];
    if i < j {
      assert s[i..j][0] == s[i] && s[i..j][j - i - 1] == s[j - 1];
      assert SkipLeading(s, 0) == i;
      assert SkipTrailing(s, |s|) == j;
    } else {
      assert AllWhitespace(s);
    }
  }

  /** `parts.join(sep)`. */
  function Join(parts: seq<string>, sep: char): string {
    if parts == [] then ""
    else if |parts| == 1 then parts[0]
    else parts[0] + [sep] + Join(parts[1..], sep)
  }

  /** Joining after an empty first piece starts with the separator. */
  lemma JoinEmptyFirst(ps: seq<string>, sep: char)
    requires |ps| >= 1
    ensures Join([""] + ps, sep) == [sep] + Join(ps, sep)
  {
    assert ([""] + ps)[1..] == ps;
  }

  /** Putting a character in front of the first piece puts it in front of the join. */
  lemma JoinPrepend(c: char, ps: seq<string>, sep: char)
    requires |ps| >= 1
    ensures Join([[c] + ps[0]] + ps[1..], sep) == [c] + Join(ps, sep)
  {
    var qs := [[c] + ps[0]] + ps[1..];
    assert qs[1..] == ps[1..];
    if |ps| > 1 {
      assert Join(ps, sep) == ps[0] + [sep] + Join(ps[1..], sep);
    }
  }

  /** `s.split(sep)` for a one-character separator: the maximal
      separator-free pieces, which `join` puts back together. */
  function Split(s: string, sep: char): (parts: seq<string>)
    ensures |parts| >= 1
    ensures forall i :: 0 <= i < |parts| ==> sep !in parts[i]
    ensures Join(parts, sep) == s
  {
    if s == [] then [""]
    else
      var rest := Split(s[1..], sep);
      assert s == [s[0]] + s[1..];
      if s[0] == sep then
        JoinEmptyFirst(rest, sep);
        var parts := [""] + rest;
        assert forall i :: 1 <= i < |parts| ==> parts[i] == rest[i - 1];
        parts
      else
        JoinPrepend(s[0], rest, sep);
        var parts := [[s[0]] + rest[0]] + rest[1..];
        assert forall i :: 1 <= i < |parts| ==> parts[i] == rest[i];
        parts
  }

  /** There is one more piece than there are separators. */
  lemma {:induction false} SplitCount(s: string, sep: char)
    ensures |Split(s, sep)| == multiset(s)[sep] + 1
  {
    if s != [] {
      SplitCount(s[1..], sep);
      assert s == [s[0]] + s[1..];
      assert multiset(s) == multiset{s[0]} + multiset(s[1..]);
    }
  }

  /** The pieces `split` returns are the only separator-free pieces that join back to `s`. */
  lemma {:induction false} SplitUnique(s: string, sep: char, parts: seq<string>)
    requires |parts| >= 1
    requires forall i :: 0 <= i < |parts| ==> sep !in parts[i]
    requires Join(parts, sep) == s
    ensures Split(s, sep) == parts
    decreases |s|
  {
    if parts[0] == "" {
      if |parts| > 1 {
        var tail := parts[1..];
        assert parts == [""] + tail;
        JoinEmptyFirst(tail, sep);
        assert s[0] == sep && s[1..] == Join(tail, sep);
        assert forall i :: 0 <= i < |tail| ==> tail[i] == parts[i + 1];
        SplitUnique(s[1..], sep, tail);
        assert Split(s, sep) == [""] + Split(s[1..], sep);
      }
    } else {
      var p := parts[0];
      var shorter := [p[1..]] + parts[1..];
      assert shorter[0] == p[1..] && shorter[1..] == parts[1..];
      assert [p[0]] + p[1..] == p && parts == [p] + parts[1..];
      assert [[p[0]] + shorter[0]] + shorter[1..] == parts;
      JoinPrepend(p[0], shorter, sep);
      forall i | 0 <= i < |shorter| ensures sep !in shorter[i] {
        if i == 0 {
          assert forall c :: c in p[1..] ==> c in p;
        } else {
          assert shorter[i] == parts[i];
        }
      }
      assert s[0] == p[0] && p[0] != sep && s[1..] == Join(shorter, sep);
      SplitUnique(s[1..], sep, shorter);
      var rest := Split(s[1..], sep);
      assert Split(s, sep) == [[s[0]] + rest[0]] + rest[1..];
    }
  }

  /** `s.split(sep)[k]`, which is `undefined` past the last piece. */
  function Segment(s: string, sep: char, k: nat): (r: Option<string>)
    ensures r.Some? <==> k <= multiset(s)[sep]
    ensures r.Some? ==> sep !in r.value
  {
    var parts := Split(s, sep);
    SplitCount(s, sep);
    if k < |parts| then Some(parts[k]) else None
  }

  /** `String.prototype.toLowerCase` on one character, for the ASCII letters. */
  function LowerChar(c: char): char {
    if 'A' <= c <= 'Z' then (c as int + 32) as char else c
  }

  function ToLower(s: string): (r: string)
    ensures |r| == |s|
    ensures forall i :: 0 <= i < |s| ==> r[i] == LowerChar(s[i])
  {
    seq(|s|, i requires 0 <= i < |s| => LowerChar(s[i]))
  }

  /** `s.startsWith(w)`. */
  predicate StartsWith(s: string, w: string) {
    |w| <= |s| && s[..|w|] == w
  }

  /** `s.includes(w)`, searching from the left. */
  predicate Includes(s: string, w: string)
    decreases |s|
  {
    StartsWith(s, w) || (s != [] && Includes(s[1..], w))
  }

  /** `includes` holds exactly when `w` occurs at some position of `s`. */
  lemma {:induction false} IncludesAt(s: string, w: string)
    ensures Includes(s, w) <==> exists i :: 0 <= i <= |s| - |w| && StartsWith(s[i..], w)
    decreases |s|
  {
    if Includes(s, w) {
      if StartsWith(s, w) {
        assert s[0..] == s;
      } else {
        IncludesAt(s[1..], w);
        var i :| 0 <= i <= |s| - 1 - |w| && StartsWith(s[1..][i..], w);
        assert s[1..][i..] == s[i + 1..];
      }
    }
    if exists i :: 0 <= i <= |s| - |w| && StartsWith(s[i..], w) {
      var i :| 0 <= i <= |s| - |w| && StartsWith(s[i..], w);
      if i == 0 {
        assert s[i..] == s;
      } else {
        assert s[1..][i - 1..] == s[i..];
        IncludesAt(s[1..], w);
      }
    }
  }

  /** `s.length`: characters outside the Basic Multilingual Plane take two UTF-16 code units. */
  function Utf16Length(s: string): (n: nat)
    ensures |s| <= n <= 2 * |s|
  {
    if s == [] then 0
    else (if s[0] as int > 0xFFFF then 2 else 1) + Utf16Length(s[1..])
  }
}
