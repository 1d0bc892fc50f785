/**
 * The few `String.prototype` operations the modelled code relies on, with
 * JavaScript's semantics: `toLowerCase` (ASCII letters only), `indexOf` and
 * `includes` with a string argument, and `replace` with a string pattern and
 * a replacement without `$` patterns, which replaces the FIRST occurrence
 * only.
 */
module JsStrings {

  predicate IsUpperAscii(c: char) {
    'A' <= c <= 'Z'
  }

  /** `toLowerCase` on one character; only A-Z are mapped. */
  function LowerChar(c: char): (r: char)
    ensures !IsUpperAscii(r)
    ensures IsUpperAscii(c) ==> r as int == c as int + 32
    ensures IsUpperAscii(c) || r == c
  {
    if IsUpperAscii(c) then (c as int + 32) as char else c
  }

  /** `s.toLowerCase()`: same length, each character lowered, no upper-case letter left. */
  function ToLower(s: string): (r: string)
    ensures |r| == |s|
    ensures forall i :: 0 <= i < |s| ==> r[i] == LowerChar(s[i])
    ensures forall i :: 0 <= i < |r| ==> !IsUpperAscii(r[i])
  {
    if s == [] then [] else [LowerChar(s[0])] + ToLower(s[1..])
  }

  /** Lowering twice is lowering once. */
  lemma {:induction false} ToLowerIdempotent(s: string)
    ensures ToLower(ToLower(s)) == ToLower(s)
  {
    if s != [] {
      ToLowerIdempotent(s[1..]);
      assert ToLower(s)[1..] == ToLower(s[1..]);
    }
  }

  /** `pat` occurs in `s` starting at index `i`. */
  predicate OccursAt(s: string, pat: string, i: int) {
    0 <= i && i + |pat| <= |s| && s[i..i + |pat|] == pat
  }

  lemma OccursAtTail(s: string, pat: string, i: int)
    requires s != [] && 0 <= i
    ensures OccursAt(s, pat, i + 1) <==> OccursAt(s[1..], pat, i)
  {
    if i + 1 + |pat| <= |s| {
      assert s[i + 1..i + 1 + |pat|] == s[1..][i..i + |pat|];
    }
  }

  /** `s.indexOf(pat)`: an index where `pat` occurs, or -1. */
  function IndexOf(s: string, pat: string): (r: int)
    ensures r == -1 || 0 <= r <= |s| - |pat|
    decreases |s|
  {
    if |pat| > |s| then -1
    else if s[..|pat|] == pat then 0
    else
      var r := IndexOf(s[1..], pat);
      if r < 0 then -1 else r + 1
  }

  /** `indexOf` returns -1 exactly when `pat` does not occur, and otherwise the FIRST occurrence. */
  lemma {:induction false} IndexOfIsFirstOccurrence(s: string, pat: string)
    ensures IndexOf(s, pat) == -1 <==> forall i :: !OccursAt(s, pat, i)
    ensures IndexOf(s, pat) >= 0 ==> OccursAt(s, pat, IndexOf(s, pat))
    ensures forall i :: 0 <= i < IndexOf(s, pat) ==> !OccursAt(s, pat, i)
    decreases |s|
  {
    if |pat| > |s| {
    } else if s[..|pat|] == pat {
      assert OccursAt(s, pat, 0);
    } else {
      IndexOfIsFirstOccurrence(s[1..], pat);
      assert !OccursAt(s, pat, 0);
      forall i | 0 <= i
        ensures OccursAt(s, pat, i + 1) <==> OccursAt(s[1..], pat, i)
      {
        OccursAtTail(s, pat, i);
      }
      var r := IndexOf(s[1..], pat);
      if r < 0 {
        forall i ensures !OccursAt(s, pat, i) {
          if i > 0 { assert !OccursAt(s[1..], pat, i - 1); }
        }
      } else {
        forall i | 0 <= i < r + 1 ensures !OccursAt(s, pat, i) {
          if i > 0 { assert !OccursAt(s[1..], pat, i - 1); }
        }
      }
    }
  }

  /** `indexOf` of a one-character pattern: -1 exactly when the character is absent, else its first position. */
  lemma IndexOfChar(s: string, c: char)
    ensures IndexOf(s, [c]) == -1 <==> c !in s
    ensures IndexOf(s, [c]) >= 0 ==> s[IndexOf(s, [c])] == c && c !in s[..IndexOf(s, [c])]
  {
    IndexOfIsFirstOccurrence(s, [c]);
    forall i ensures OccursAt(s, [c], i) <==> 0 <= i < |s| && s[i] == c {
      if 0 <= i < |s| { assert s[i..i + 1] == [s[i]]; }
    }
    var r := IndexOf(s, [c]);
    if r >= 0 {
      forall j | 0 <= j < r ensures s[..r][j] != c {
        assert !OccursAt(s, [c], j);
      }
    }
  }

  /** `s.includes(pat)`. */
  predicate Includes(s: string, pat: string): (r: bool)
    ensures r <==> exists i :: OccursAt(s, pat, i)
  {
    IndexOfIsFirstOccurrence(s, pat);
    IndexOf(s, pat) >= 0
  }

  /** `s.replace(pat, rep)` with a string pattern and a `rep` free of `$` patterns: only the first occurrence is replaced. */
  function ReplaceFirst(s: string, pat: string, rep: string): (r: string)
    ensures !Includes(s, pat) ==> r == s
    ensures Includes(s, pat) ==> |r| == |s| - |pat| + |rep|
  {
    var i := IndexOf(s, pat);
    if i < 0 then s else s[..i] + rep + s[i + |pat|..]
  }

  /**
   * Replacing the first occurrence: the part before it is kept and holds no
   * earlier occurrence, the replacement follows, and the rest of the string,
   * later occurrences included, is kept as it was.
   */
  lemma ReplaceFirstSplits(s: string, pat: string, rep: string)
    requires Includes(s, pat)
    ensures exists i ::
      OccursAt(s, pat, i) && (forall j :: 0 <= j < i ==> !OccursAt(s, pat, j)) &&
      ReplaceFirst(s, pat, rep) == s[..i] + rep + s[i + |pat|..]
  {
    IndexOfIsFirstOccurrence(s, pat);
    var i := IndexOf(s, pat);
    assert OccursAt(s, pat, i);
  }

  /** Replacing with the empty string deletes the first occurrence. */
  lemma ReplaceFirstWithEmpty(s: string, pat: string)
    requires Includes(s, pat)
    ensures var i := IndexOf(s, pat); ReplaceFirst(s, pat, "") == s[..i] + s[i + |pat|..]
  {
    var i := IndexOf(s, pat);
    assert ReplaceFirst(s, pat, "") == s[..i] + "" + s[i + |pat|..];
    assert s[..i] + "" == s[..i];
  }
}
