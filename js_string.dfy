/** The JavaScript and MongoDB string operations the backend relies on:
    `String.prototype.trim` (Mongoose's `trim: true`), `String.prototype.replace`
    with a string pattern (bearer-token extraction), and a case-insensitive
    substring test (the `$regex` with option 'i' of the product search,
    read as a literal pattern). */
module JsString {

  /** The characters ECMAScript's trim removes: WhiteSpace and LineTerminator. */
  predicate IsWhitespace(c: char)
  {
    c in {'\t', '\n', '\U{000B}', '\U{000C}', '\r', ' ', '\U{00A0}', '\U{1680}',
          '\U{2000}', '\U{2001}', '\U{2002}', '\U{2003}', '\U{2004}', '\U{2005}',
          '\U{2006}', '\U{2007}', '\U{2008}', '\U{2009}', '\U{200A}', '\U{2028}',
          '\U{2029}', '\U{202F}', '\U{205F}', '\U{3000}', '\U{FEFF}'}
  }

  predicate AllWhitespace(s: string)
  {
    forall i :: 0 <= i < |s| ==> IsWhitespace(s[i])
  }

  /** Neither the first nor the last character is whitespace. */
  predicate IsTrimmed(s: string)
  {
    s == [] || (!IsWhitespace(s[0]) && !IsWhitespace(s[|s| - 1]))
  }

  /** Number of whitespace characters at the start of `s`. */
  function LeadingWhitespace(s: string): (k: nat)
    ensures k <= |s|
    ensures AllWhitespace(s[..k])
    ensures k < |s| ==> !IsWhitespace(s[k])
  {
    if s != [] && IsWhitespace(s[0]) then
      var k := 1 + LeadingWhitespace(s[1..]);
      assert s[..k] == [s[0]] + s[1..][..k - 1];
      k
    else 0
  }

  /** Number of whitespace characters at the end of `s`. */
  function TrailingWhitespace(s: string): (k: nat)
    ensures k <= |s|
    ensures AllWhitespace(s[|s| - k..])
    ensures k < |s| ==> !IsWhitespace(s[|s| - 1 - k])
  {
    if s != [] && IsWhitespace(s[|s| - 1]) then
      var p := s[..|s| - 1];
      var j := TrailingWhitespace(p);
      var t, q := s[|s| - 1 - j..], p[|p| - j..];
      assert AllWhitespace(t) by {
        forall i | 0 <= i < |t|
          ensures IsWhitespace(t[i])
        {
          if i < j {
            assert t[i] == q[i];
          }
        }
      }
      1 + j
    else 0
  }

  /** `s.trim()`: drops leading and trailing whitespace. */
  function Trim(s: string): (r: string)
    ensures IsTrimmed(r)
    ensures |r| <= |s|
    ensures IsTrimmed(s) ==> r == s
  {
    var a := LeadingWhitespace(s);
    var t := s[a..];
    var b := TrailingWhitespace(t);
    assert a == |s| ==> t == [];
    t[..|t| - b]
  }

  /** What trim removes is whitespace, at both ends, and nothing else:
      `s` is some whitespace, then `Trim(s)`, then some whitespace. */
  lemma TrimSplits(s: string) returns (front: string, back: string)
    ensures s == front + Trim(s) + back
    ensures AllWhitespace(front) && AllWhitespace(back)
  {
    var a := LeadingWhitespace(s);
    var b := TrailingWhitespace(s[a..]);
    var middle;
    front, middle, back := SplitThree(s, a, b);
    assert Trim(s) == middle;
  }

  /** Cutting `a` characters off the front and then `b` off the back of the rest. */
  lemma SplitThree(s: string, a: nat, b: nat) returns (front: string, middle: string, back: string)
    requires a <= |s| && b <= |s| - a
    ensures front == s[..a] && middle == s[a..][..|s| - a - b] && back == s[a..][|s| - a - b..]
    ensures s == front + middle + back
  {
    front, middle, back := s[..a], s[a..][..|s| - a - b], s[a..][|s| - a - b..];
    assert s[a..] == middle + back;
    assert s == front + s[a..];
  }
  /** Trimming twice is trimming once. */
  lemma TrimIdempotent(s: string)
    ensures Trim(Trim(s)) == Trim(s)
  {
  }

  /** `s[i..]` starts with `pat`. */
  predicate OccursAt(s: string, pat: string, i: nat)
  {
    i + |pat| <= |s| && s[i..i + |pat|] == pat
  }

  predicate Occurs(s: string, pat: string)
  {
    exists i: nat :: i <= |s| && OccursAt(s, pat, i)
  }

  /** `s.replace(pat, rep)` with a string `pat`: the FIRST occurrence of `pat`,
      wherever it is in `s`, is replaced; the rest is kept. */
  function ReplaceFirst(s: string, pat: string, rep: string): (r: string)
    decreases |s|
  {
    if OccursAt(s, pat, 0) then rep + s[|pat|..]
    else if s == [] then []
    else [s[0]] + ReplaceFirst(s[1..], pat, rep)
  }

  /** A string that starts with the pattern loses exactly that prefix. */
  lemma ReplaceFirstPrefix(pat: string, t: string, rep: string)
    ensures ReplaceFirst(pat + t, pat, rep) == rep + t
  {
    assert OccursAt(pat + t, pat, 0);
  }

  /** A string in which the pattern does not occur is returned unchanged. */
  lemma {:induction false} ReplaceFirstAbsent(s: string, pat: string, rep: string)
    requires !Occurs(s, pat)
    ensures ReplaceFirst(s, pat, rep) == s
    decreases |s|
  {
    assert !OccursAt(s, pat, 0);
    if s != [] {
      if Occurs(s[1..], pat) {
        var i: nat :| i <= |s[1..]| && OccursAt(s[1..], pat, i);
        assert s[1..][i..i + |pat|] == s[i + 1..i + 1 + |pat|];
        assert OccursAt(s, pat, i + 1);
        assert false;
      }
      ReplaceFirstAbsent(s[1..], pat, rep);
    }
  }

  /** When `pat` occurs first right after `front`, the result is `front + rep + back`. */
  lemma {:induction false} ReplaceFirstSplit(front: string, pat: string, back: string, rep: string)
    requires forall i: nat :: i < |front| ==> !OccursAt(front + pat + back, pat, i)
    ensures ReplaceFirst(front + pat + back, pat, rep) == front + rep + back
    decreases |front|
  {
    var s := front + pat + back;
    if front == [] {
      assert s == pat + back;
      ReplaceFirstPrefix(pat, back, rep);
    } else {
      assert !OccursAt(s, pat, 0);
      var s' := front[1..] + pat + back;
      assert s[1..] == s';
      forall i: nat | i < |front[1..]|
        ensures !OccursAt(s', pat, i)
      {
        assert !OccursAt(s, pat, i + 1);
        if i + |pat| <= |s'| {
          assert s'[i..i + |pat|] == s[i + 1..i + 1 + |pat|];
        }
      }
      ReplaceFirstSplit(front[1..], pat, back, rep);
      assert [s[0]] + (front[1..] + rep + back) == front + rep + back;
    }
  }

  /** ASCII upper case to lower case; every other character is kept. */
  function ToLower(c: char): (d: char)
  {
    if 'A' <= c <= 'Z' then (c as int + 32) as char else c
  }

  function Lower(s: string): (r: string)
    ensures |r| == |s|
    ensures forall i :: 0 <= i < |s| ==> r[i] == ToLower(s[i])
  {
    seq(|s|, i requires 0 <= i < |s| => ToLower(s[i]))
  }

  /** `pattern` occurs in `text` at offset `i`, ignoring case. */
  predicate MatchesAtIgnoringCase(text: string, pattern: string, i: nat)
  {
    i + |pattern| <= |text| && Lower(text[i..i + |pattern|]) == Lower(pattern)
  }

  predicate ContainsIgnoringCase(text: string, pattern: string)
  {
    exists i: nat :: i <= |text| && MatchesAtIgnoringCase(text, pattern, i)
  }

  /** The case-insensitive search is symmetric in case: a name matches a search term
      exactly when it matches the term written in lower case. */
  lemma {:induction false} ContainsIgnoringCaseLower(text: string, pattern: string)
    ensures ContainsIgnoringCase(text, pattern) <==> ContainsIgnoringCase(text, Lower(pattern))
  {
    LowerIdempotent(pattern);
    if ContainsIgnoringCase(text, pattern) {
      var i: nat :| i <= |text| && MatchesAtIgnoringCase(text, pattern, i);
      assert MatchesAtIgnoringCase(text, Lower(pattern), i);
    }
    if ContainsIgnoringCase(text, Lower(pattern)) {
      var i: nat :| i <= |text| && MatchesAtIgnoringCase(text, Lower(pattern), i);
      assert MatchesAtIgnoringCase(text, pattern, i);
    }
  }

  lemma LowerIdempotent(s: string)
    ensures Lower(Lower(s)) == Lower(s)
  {
  }

  /** Lower-casing commutes with slicing. */
  lemma LowerSlice(s: string, i: nat, j: nat)
    requires i <= j <= |s|
    ensures Lower(s[i..j]) == Lower(s)[i..j]
  {
  }

  /** The case-insensitive match is plain containment once both sides are lower-cased. */
  lemma {:induction false} ContainsIgnoringCaseIsLowerOccurs(text: string, pattern: string)
    ensures ContainsIgnoringCase(text, pattern) <==> Occurs(Lower(text), Lower(pattern))
  {
    if ContainsIgnoringCase(text, pattern) {
      var i: nat :| i <= |text| && MatchesAtIgnoringCase(text, pattern, i);
      LowerSlice(text, i, i + |pattern|);
      assert OccursAt(Lower(text), Lower(pattern), i);
    }
    if Occurs(Lower(text), Lower(pattern)) {
      var i: nat :| i <= |Lower(text)| && OccursAt(Lower(text), Lower(pattern), i);
      LowerSlice(text, i, i + |pattern|);
      assert MatchesAtIgnoringCase(text, pattern, i);
    }
  }
}
