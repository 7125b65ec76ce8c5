/**
 * The few string operations the budget planner relies on: `toLowerCase`,
 * `includes` (substring search) and `trim` of JavaScript strings.
 */
module Text {

  /** Lower-cases the ASCII letters A-Z and leaves every other character alone. */
  function LowerChar(c: char): (r: char)
    ensures 'A' <= c <= 'Z' ==> 'a' <= r <= 'z' && r as int - c as int == 32
    ensures !('A' <= c <= 'Z') ==> r == c
  {
    if 'A' <= c <= 'Z' then (c as int + 32) as char else c
  }

  /** `s.toLowerCase()`, restricted to ASCII letters. */
  function Lower(s: string): (r: string)
    ensures |r| == |s|
    ensures forall i :: 0 <= i < |s| ==> r[i] == LowerChar(s[i])
  {
    seq(|s|, i requires 0 <= i < |s| => LowerChar(s[i]))
  }

  predicate IsLowerCase(s: string)
  {
    forall i :: 0 <= i < |s| ==> !('A' <= s[i] <= 'Z')
  }

  /** Lower-casing twice is lower-casing once, and its result has no upper-case letter. */
  lemma LowerIsIdempotent(s: string)
    ensures IsLowerCase(Lower(s))
    ensures Lower(Lower(s)) == Lower(s)
  {
  }

  /** `w` occurs in `s` at position `i`, compared from the `k`-th character of `w` on. */
  predicate MatchAt(s: string, w: string, i: nat, k: nat)
    requires i + |w| <= |s| && k <= |w|
    decreases |w| - k
  {
    k == |w| || (s[i + k] == w[k] && MatchAt(s, w, i, k + 1))
  }

  /** `w` occurs in `s` at some position `i` or later. */
  predicate ContainsFrom(s: string, w: string, i: nat)
    decreases |s| - i
  {
    i + |w| <= |s| && (MatchAt(s, w, i, 0) || ContainsFrom(s, w, i + 1))
  }

  /** `s.includes(w)`. */
  predicate Contains(s: string, w: string)
  {
    ContainsFrom(s, w, 0)
  }

  lemma {:induction false} MatchAtIsSliceEquality(s: string, w: string, i: nat, k: nat)
    requires i + |w| <= |s| && k <= |w|
    ensures MatchAt(s, w, i, k) <==> s[i + k..i + |w|] == w[k..]
    decreases |w| - k
  {
    if k < |w| {
      MatchAtIsSliceEquality(s, w, i, k + 1);
      assert s[i + k..i + |w|] == [s[i + k]] + s[i + k + 1..i + |w|];
      assert w[k..] == [w[k]] + w[k + 1..];
    }
  }

  /** `w` equals the slice of `s` that starts at `j`. */
  predicate OccursAt(s: string, w: string, j: int)
  {
    0 <= j && j + |w| <= |s| && s[j..j + |w|] == w
  }

  lemma {:induction false} ContainsFromIsOccurrence(s: string, w: string, i: nat)
    ensures ContainsFrom(s, w, i) <==> exists j :: i <= j && OccursAt(s, w, j)
    decreases |s| - i
  {
    if i + |w| <= |s| {
      MatchAtIsSliceEquality(s, w, i, 0);
      ContainsFromIsOccurrence(s, w, i + 1);
      if MatchAt(s, w, i, 0) {
        assert w[0..] == w && OccursAt(s, w, i);
      }
      if exists j :: i <= j && OccursAt(s, w, j) {
        var j :| i <= j && OccursAt(s, w, j);
        if j > i {
          assert ContainsFrom(s, w, i + 1);
        }
      }
    }
  }

  /** `Contains` is substring occurrence: `w` equals some slice of `s`. */
  lemma ContainsIsOccurrence(s: string, w: string)
    ensures Contains(s, w) <==> exists j :: OccursAt(s, w, j)
  {
    ContainsFromIsOccurrence(s, w, 0);
  }

  /** Some word of `ws`, from the `j`-th on, occurs in `s`. */
  predicate AnyFrom(s: string, ws: seq<string>, j: nat)
    decreases |ws| - j
  {
    j < |ws| && (Contains(s, ws[j]) || AnyFrom(s, ws, j + 1))
  }

  /** `ws.some((w) => s.includes(w))`. */
  predicate ContainsAny(s: string, ws: seq<string>)
  {
    AnyFrom(s, ws, 0)
  }

  lemma {:induction false} AnyFromIsSome(s: string, ws: seq<string>, j: nat)
    ensures AnyFrom(s, ws, j) <==> exists k :: j <= k < |ws| && Contains(s, ws[k])
    decreases |ws| - j
  {
    if j < |ws| {
      AnyFromIsSome(s, ws, j + 1);
      if exists k :: j <= k < |ws| && Contains(s, ws[k]) {
        var k :| j <= k < |ws| && Contains(s, ws[k]);
        if k > j {
          assert AnyFrom(s, ws, j + 1);
        }
      }
    }
  }

  /** `ContainsAny` holds exactly when some word of the table occurs in `s`. */
  lemma ContainsAnyIsSome(s: string, ws: seq<string>)
    ensures ContainsAny(s, ws) <==> exists k :: 0 <= k < |ws| && Contains(s, ws[k])
  {
    AnyFromIsSome(s, ws, 0);
  }

  /**
   * The characters `String.prototype.trim` removes: the WhiteSpace and
   * LineTerminator code points of ECMA-262.
   */
  predicate IsJsWhitespace(c: char)
  {
    c == '\t' || c == '\U{000B}' || c == '\U{000C}' || c == ' ' || c == '\U{00A0}' || c == '\U{FEFF}'
    || c == '\n' || c == '\r' || c == '\U{2028}' || c == '\U{2029}'
    || c == '\U{1680}' || ('\U{2000}' <= c <= '\U{200A}') || c == '\U{202F}' || c == '\U{205F}' || c == '\U{3000}'
  }

  function TrimStart(s: string): (r: string)
    ensures |r| <= |s| && r == s[|s| - |r|..]
    ensures r != [] ==> !IsJsWhitespace(r[0])
    ensures forall i :: 0 <= i < |s| - |r| ==> IsJsWhitespace(s[i])
  {
    if s != [] && IsJsWhitespace(s[0]) then TrimStart(s[1..]) else s
  }

  function TrimEnd(s: string): (r: string)
    ensures |r| <= |s| && r == s[..|r|]
    ensures r != [] ==> !IsJsWhitespace(r[|r| - 1])
    ensures forall i :: |r| <= i < |s| ==> IsJsWhitespace(s[i])
  {
    if s != [] && IsJsWhitespace(s[|s| - 1]) then TrimEnd(s[..|s| - 1]) else s
  }

  /** `s.trim()`: the longest slice of `s` that neither starts nor ends with whitespace. */
  function Trim(s: string): string
  {
    TrimEnd(TrimStart(s))
  }

  /** `!s.trim()` holds exactly when every character of `s` is whitespace. */
  lemma TrimIsEmptyIffBlank(s: string)
    ensures Trim(s) == [] <==> forall i :: 0 <= i < |s| ==> IsJsWhitespace(s[i])
  {
  }

  /** A word with a letter that `s` lacks does not occur in `s`. */
  lemma AbsentLetter(s: string, w: string, c: char)
    requires c in w && c !in s
    ensures !Contains(s, w)
  {
    ContainsIsOccurrence(s, w);
  }
}
