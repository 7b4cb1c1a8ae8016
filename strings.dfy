/**
 The two JavaScript string operations the core relies on: `String.prototype.trim`
 (used by the health handler's allow-list and by the dashboard's form guards) and
 `String.prototype.split` with a one-character separator (the allow-list).
 */
module Strings {

  /** The characters `trim` removes: ECMAScript's WhiteSpace and LineTerminator sets. */
  predicate IsWhitespace(c: char) {
    || c == '\t' || c == '\n' || c == '\U{000B}' || c == '\U{000C}' || c == '\r'
    || c == ' ' || c == '\U{00A0}' || c == '\U{1680}'
    || ('\U{2000}' <= c <= '\U{200A}')
    || c == '\U{2028}' || c == '\U{2029}' || c == '\U{202F}' || c == '\U{205F}'
    || c == '\U{3000}' || c == '\U{FEFF}'
  }

  predicate AllWhitespace(s: string) {
    forall i :: 0 <= i < |s| ==> IsWhitespace(s[i])
  }

  /** A string `trim` leaves as it is: empty, or starting and ending with a non-whitespace character. */
  predicate IsTrimmed(s: string) {
    s == [] || (!IsWhitespace(s[0]) && !IsWhitespace(s[|s| - 1]))
  }

  /** The first position at or after `i` that does not hold whitespace, or `|s|`. */
  function SkipLead(s: string, i: nat): (n: nat)
    requires i <= |s|
    ensures i <= n <= |s|
    ensures forall k :: i <= k < n ==> IsWhitespace(s[k])
    ensures n < |s| ==> !IsWhitespace(s[n])
    decreases |s| - i
  {
    if i < |s| && IsWhitespace(s[i]) then SkipLead(s, i + 1) else i
  }

  /** The end of `s[lo..j]` once the whitespace at its end is dropped. */
  function SkipTrail(s: string, lo: nat, j: nat): (n: nat)
    requires lo <= j <= |s|
    ensures lo <= n <= j
    ensures forall k :: n <= k < j ==> IsWhitespace(s[k])
    ensures n > lo ==> !IsWhitespace(s[n - 1])
    decreases j - lo
  {
    if j > lo && IsWhitespace(s[j - 1]) then SkipTrail(s, lo, j - 1) else j
  }

  /** How many whitespace characters `trim` removes from the front of `s`. */
  function Lead(s: string): (n: nat)
    ensures n <= |s| && AllWhitespace(s[..n])
  {
    SkipLead(s, 0)
  }

  /** `s.trim()`: `s` with the whitespace at its start (`trimStart`) and then at its end
      (`trimEnd`) removed. */
  function Trim(s: string): (r: string)
    ensures IsTrimmed(r)
    ensures |r| <= |s|
  {
    s[SkipLead(s, 0)..SkipTrail(s, SkipLead(s, 0), |s|)]
  }

  /** Where `Trim(s)` sits in `s`: right after the leading whitespace, followed only by whitespace. */
  lemma TrimSlice(s: string)
    ensures Lead(s) + |Trim(s)| <= |s| && Trim(s) == s[Lead(s)..Lead(s) + |Trim(s)|]
    ensures AllWhitespace(s[..Lead(s)]) && AllWhitespace(s[Lead(s) + |Trim(s)|..])
  {
    var a := SkipLead(s, 0);
    var b := SkipTrail(s, a, |s|);
    assert |Trim(s)| == b - a;
    assert forall k :: 0 <= k < |s| - b ==> s[b..][k] == s[b + k];
  }

  /** Padding a trimmed string with whitespace on both sides is undone by `trim`. */
  lemma TrimPadded(w1: string, x: string, w2: string)
    requires AllWhitespace(w1) && AllWhitespace(w2) && IsTrimmed(x)
    ensures Trim(w1 + x + w2) == x
  {
    var s := w1 + x + w2;
    assert forall k :: 0 <= k < |w1| ==> s[k] == w1[k];
    assert forall k :: 0 <= k < |x| ==> s[|w1| + k] == x[k];
    assert forall k :: 0 <= k < |w2| ==> s[|w1| + |x| + k] == w2[k];
    var a := SkipLead(s, 0);
    var b := SkipTrail(s, a, |s|);
    if x == [] {
      assert forall k :: 0 <= k < |s| ==> IsWhitespace(s[k]);
      assert a == |s| && b == |s|;
    } else {
      assert !IsWhitespace(s[|w1|]) && !IsWhitespace(s[|w1| + |x| - 1]);
      assert a == |w1|;
      assert b == |w1| + |x|;
      assert s[a..b] == x;
    }
  }

  lemma TrimOfTrimmed(x: string)
    requires IsTrimmed(x)
    ensures Trim(x) == x
  {
    assert [] + x + [] == x;
    TrimPadded([], x, []);
  }

  /** `trim` changes nothing exactly on trimmed strings, so applying it twice is applying it once. */
  lemma TrimFixedPoint(s: string)
    ensures Trim(s) == s <==> IsTrimmed(s)
    ensures Trim(Trim(s)) == Trim(s)
  {
    if IsTrimmed(s) { TrimOfTrimmed(s); }
    TrimOfTrimmed(Trim(s));
  }

  /** `!s.trim()` holds, that is `s.trim()` is the empty string, exactly when `s` is all whitespace. */
  lemma TrimEmptyIff(s: string)
    ensures Trim(s) == [] <==> AllWhitespace(s)
  {
    var a := SkipLead(s, 0);
    var b := SkipTrail(s, a, |s|);
    if AllWhitespace(s) {
      assert a == |s|;
    } else {
      assert a < |s|;
      assert b > a;
    }
  }

  /** A string that is empty or whitespace only; `BlankIff` shows this is the guard `!s.trim()`. */
  predicate IsBlank(s: string)
    decreases |s|
  {
    s == [] || (IsWhitespace(s[0]) && IsBlank(s[1..]))
  }

  /** `IsBlank(s)` holds exactly when every character of `s` is whitespace. */
  lemma {:induction false} BlankIff(s: string)
    ensures IsBlank(s) <==> AllWhitespace(s)
    decreases |s|
  {
    if s != [] {
      BlankIff(s[1..]);
      assert forall i :: 0 < i < |s| ==> s[1..][i - 1] == s[i];
    }
  }

  /** `IsBlank(s)` holds exactly when `s.trim()` is the empty string, which JavaScript treats as false. */
  lemma BlankIffTrimEmpty(s: string)
    ensures IsBlank(s) <==> Trim(s) == []
  {
    BlankIff(s);
    TrimEmptyIff(s);
  }

  /** `s.split(sep)`: the pieces between occurrences of `sep`, empty pieces included. */
  function Split(s: string, sep: char): (parts: seq<string>)
    ensures |parts| >= 1
    ensures forall i :: 0 <= i < |parts| ==> sep !in parts[i]
    decreases |s|
  {
    if s == [] then [[]]
    else if s[0] == sep then [[]] + Split(s[1..], sep)
    else
      var rest := Split(s[1..], sep);
      [[s[0]] + rest[0]] + rest[1..]
  }

  /** `parts.join(sep)`, the inverse of `Split`. */
  function Join(parts: seq<string>, sep: char): string
    requires |parts| >= 1
  {
    if |parts| == 1 then parts[0] else parts[0] + [sep] + Join(parts[1..], sep)
  }

  /** A join is at least as long as each of its pieces. */
  lemma {:induction false} JoinLonger(parts: seq<string>, sep: char, i: nat)
    requires i < |parts|
    ensures |Join(parts, sep)| >= |parts[i]|
    decreases |parts|
  {
    if i > 0 {
      JoinLonger(parts[1..], sep, i - 1);
    }
  }

  /** Joining the pieces back with the separator gives the original string. */
  lemma {:induction false} JoinSplit(s: string, sep: char)
    ensures Join(Split(s, sep), sep) == s
    decreases |s|
  {
    if s == [] {
    } else if s[0] == sep {
      JoinSplit(s[1..], sep);
      assert [[]] + Split(s[1..], sep) == Split(s, sep);
      assert Split(s, sep)[1..] == Split(s[1..], sep);
    } else {
      var rest := Split(s[1..], sep);
      JoinSplit(s[1..], sep);
      var parts := Split(s, sep);
      assert parts[0] == [s[0]] + rest[0];
      assert parts[1..] == rest[1..];
      if |rest| == 1 {
        assert rest[0] == s[1..];
      } else {
        assert Join(rest, sep) == rest[0] + [sep] + Join(rest[1..], sep);
        assert Join(parts, sep) == [s[0]] + rest[0] + [sep] + Join(rest[1..], sep);
      }
    }
  }

  /** Splitting a join of separator-free pieces gives the pieces back. */
  lemma {:induction false} SplitJoin(parts: seq<string>, sep: char)
    requires |parts| >= 1
    requires forall i :: 0 <= i < |parts| ==> sep !in parts[i]
    ensures Split(Join(parts, sep), sep) == parts
    decreases |parts|, |parts[0]|
  {
    var p := parts[0];
    if p == [] {
      if |parts| == 1 {
      } else {
        var tail := parts[1..];
        SplitJoin(tail, sep);
        var s := Join(parts, sep);
        assert s == [sep] + Join(tail, sep);
        assert s[1..] == Join(tail, sep);
      }
    } else {
      var parts' := [p[1..]] + parts[1..];
      assert forall i :: 1 <= i < |parts'| ==> parts'[i] == parts[i];
      assert sep !in p[1..] by { assert forall k :: 0 <= k < |p| - 1 ==> p[1..][k] == p[k + 1]; }
      SplitJoin(parts', sep);
      var s := Join(parts, sep);
      var s' := Join(parts', sep);
      if |parts| == 1 {
        assert s == p && s' == p[1..];
      } else {
        assert parts'[1..] == parts[1..];
        assert s == p + [sep] + Join(parts[1..], sep);
        assert s' == p[1..] + [sep] + Join(parts[1..], sep);
      }
      assert s != [] && s[0] == p[0] && s[0] != sep;
      assert s[1..] == s';
      var rest := Split(s', sep);
      assert rest == parts';
      assert Split(s, sep) == [[s[0]] + rest[0]] + rest[1..];
      assert [s[0]] + rest[0] == p;
    }
  }
}
