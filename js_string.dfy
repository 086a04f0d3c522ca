/**
 * The JavaScript string operations the user schema relies on:
 * `String.prototype.trim`, `String.prototype.toLowerCase` (restricted to
 * ASCII letters), `String.prototype.includes` and the anchored regular
 * expression `/^\d{n}$/`.
 */
module JsString {

  /** A code unit that `trim` removes: ECMAScript WhiteSpace or LineTerminator. */
  predicate IsWhite(c: char)
  {
    || c == '\t' || c == '\n' || c == '\U{000B}' || c == '\U{000C}' || c == '\r'
    || c == ' ' || c == '\U{00A0}' || c == '\U{1680}'
    || ('\U{2000}' <= c <= '\U{200A}')
    || c == '\U{2028}' || c == '\U{2029}' || c == '\U{202F}' || c == '\U{205F}'
    || c == '\U{3000}' || c == '\U{FEFF}'
  }

  predicate AllWhite(s: string)
  {
    forall i :: 0 <= i < |s| ==> IsWhite(s[i])
  }

  /** Neither the first nor the last character of `s` is whitespace. */
  predicate NoEdgeWhite(s: string)
  {
    s != [] ==> !IsWhite(s[0]) && !IsWhite(s[|s| - 1])
  }

  /** Drops the leading whitespace: the result is the suffix of `s` that starts at its first non-white character. */
  function TrimStart(s: string): (r: string)
    ensures |r| <= |s| && r == s[|s| - |r|..]
    ensures AllWhite(s[..|s| - |r|])
    ensures r != [] ==> !IsWhite(r[0])
  {
    if s != [] && IsWhite(s[0]) then TrimStart(s[1..]) else s
  }

  /** Drops the trailing whitespace: the result is the prefix of `s` that ends at its last non-white character. */
  function TrimEnd(s: string): (r: string)
    ensures |r| <= |s| && r == s[..|r|]
    ensures AllWhite(s[|r|..])
    ensures r != [] ==> !IsWhite(r[|r| - 1])
  {
    if s != [] && IsWhite(s[|s| - 1]) then TrimEnd(s[..|s| - 1]) else s
  }

  /** `s` is `s[..k] + r + s[k + |r|..]`, with whitespace only before and after `r`. */
  predicate PaddedAt(s: string, r: string, k: int)
  {
    0 <= k <= |s| - |r| && AllWhite(s[..k]) && r == s[k..k + |r|] && AllWhite(s[k + |r|..])
  }

  /** `String.prototype.trim`: a slice of `s` with no whitespace at either end. */
  function Trim(s: string): (r: string)
    ensures NoEdgeWhite(r)
    ensures |r| <= |s|
  {
    TrimEnd(TrimStart(s))
  }

  /** What `Trim` removes is whitespace only: `s` is `Trim(s)` padded with whitespace. */
  lemma TrimSplits(s: string)
    ensures exists k :: PaddedAt(s, Trim(s), k)
  {
    var t := TrimStart(s);
    var r := TrimEnd(t);
    var k := |s| - |t|;
    assert t == s[k..];
    assert s[k..k + |r|] == t[..|r|];
    assert s[k + |r|..] == t[|r|..];
    assert PaddedAt(s, r, k);
    assert r == Trim(s);
  }

  /** ASCII upper-case letter. */
  predicate IsUpper(c: char)
  {
    'A' <= c <= 'Z'
  }

  predicate NoUpper(s: string)
  {
    forall i :: 0 <= i < |s| ==> !IsUpper(s[i])
  }

  /** `toLowerCase` on one character, for the ASCII letters. */
  function LowerChar(c: char): (r: char)
    ensures !IsUpper(r)
    ensures IsUpper(c) ==> r as int == c as int + 32
    ensures !IsUpper(c) ==> r == c
  {
    if IsUpper(c) then (c as int + 32) as char else c
  }

  /** `String.prototype.toLowerCase`, restricted to ASCII letters: every character is mapped on its own. */
  function Lower(s: string): (r: string)
    ensures |r| == |s|
    ensures forall i :: 0 <= i < |s| ==> r[i] == LowerChar(s[i])
    ensures NoUpper(r)
  {
    if s == [] then [] else [LowerChar(s[0])] + Lower(s[1..])
  }

  /** `pat` occurs in `s` starting at index `i`. */
  predicate OccursAt(s: string, pat: string, i: int)
  {
    0 <= i <= |s| - |pat| && s[i..i + |pat|] == pat
  }

  /** `s.includes(pat)`: compares `pat` with each slice of `s` from the left. */
  function Includes(s: string, pat: string): bool
    decreases |s|
  {
    if |s| < |pat| then false
    else if s[..|pat|] == pat then true
    else Includes(s[1..], pat)
  }

  /** `Includes` holds exactly when `pat` occurs somewhere in `s`. */
  lemma {:induction false} IncludesIff(s: string, pat: string)
    ensures Includes(s, pat) <==> exists i :: OccursAt(s, pat, i)
    decreases |s|
  {
    if |s| < |pat| {
    } else if s[..|pat|] == pat {
      assert OccursAt(s, pat, 0);
    } else {
      assert !OccursAt(s, pat, 0);
      OccursAfterFirst(s, pat);
      IncludesIff(s[1..], pat);
    }
  }

  /** Past index 0, the occurrences of `pat` in `s` are those in `s[1..]`, shifted by one. */
  lemma OccursAfterFirst(s: string, pat: string)
    requires s != []
    ensures forall i :: 1 <= i && OccursAt(s, pat, i) ==> OccursAt(s[1..], pat, i - 1)
    ensures forall j :: OccursAt(s[1..], pat, j) ==> OccursAt(s, pat, j + 1)
  {
    forall i | 1 <= i && OccursAt(s, pat, i) ensures OccursAt(s[1..], pat, i - 1) {
      var t := s[1..];
      assert i - 1 + |pat| <= |t|;
      var u := t[i - 1..i - 1 + |pat|];
      assert forall k :: 0 <= k < |pat| ==> u[k] == s[i + k];
      assert s[i..i + |pat|] == t[i - 1..i - 1 + |pat|];
    }
    forall j | OccursAt(s[1..], pat, j) ensures OccursAt(s, pat, j + 1) {
      assert s[j + 1..j + 1 + |pat|] == s[1..][j..j + |pat|];
    }
  }

  /** A character outside the Basic Multilingual Plane, stored in UTF-16 as a surrogate pair. */
  predicate IsAstral(c: char)
  {
    c as int > 0xFFFF
  }

  /**
   * `s.length`: the number of UTF-16 code units of `s`, where `|s|` counts
   * characters; an astral character counts twice.
   */
  function JsLength(s: string): (n: nat)
    ensures |s| <= n <= 2 * |s|
  {
    if s == [] then 0 else (if IsAstral(s[0]) then 2 else 1) + JsLength(s[1..])
  }

  /** The JavaScript length is the character count exactly when no character is astral. */
  lemma {:induction false} JsLengthBmp(s: string)
    ensures JsLength(s) == |s| <==> forall i :: 0 <= i < |s| ==> !IsAstral(s[i])
  {
    if s != [] {
      JsLengthBmp(s[1..]);
      assert forall i :: 0 < i < |s| ==> s[i] == s[1..][i - 1];
    }
  }

  /** The JavaScript length is twice the character count exactly when every character is astral. */
  lemma {:induction false} JsLengthAstral(s: string)
    ensures JsLength(s) == 2 * |s| <==> forall i :: 0 <= i < |s| ==> IsAstral(s[i])
  {
    if s != [] {
      JsLengthAstral(s[1..]);
      assert forall i :: 0 < i < |s| ==> s[i] == s[1..][i - 1];
    }
  }

  /**
   * The JavaScript length of a concatenation is the sum of the lengths; with
   * the one-character cases of `JsLength` this fixes the length of any string.
   */
  lemma {:induction false} JsLengthAppend(a: string, b: string)
    ensures JsLength(a + b) == JsLength(a) + JsLength(b)
  {
    if a == [] {
      assert a + b == b;
    } else {
      assert (a + b)[0] == a[0];
      assert (a + b)[1..] == a[1..] + b;
      JsLengthAppend(a[1..], b);
    }
  }

  /** `\d` in a JavaScript regular expression: an ASCII decimal digit. */
  predicate IsDigit(c: char)
  {
    '0' <= c <= '9'
  }

  /** `/^\d{n}$/.test(s)`: `s` is exactly `n` decimal digits. */
  function MatchesDigits(s: string, n: nat): (r: bool)
    ensures r <==> |s| == n && forall i :: 0 <= i < |s| ==> IsDigit(s[i])
  {
    if n == 0 then s == []
    else s != [] && IsDigit(s[0]) && MatchesDigits(s[1..], n - 1)
  }

  /** Whatever whitespace precedes a core without leading whitespace, `TrimStart` removes exactly it. */
  lemma {:induction false} TrimStartOfPadded(lead: string, u: string)
    requires AllWhite(lead)
    requires u != [] ==> !IsWhite(u[0])
    ensures TrimStart(lead + u) == u
  {
    if lead != [] {
      assert (lead + u)[1..] == lead[1..] + u;
      TrimStartOfPadded(lead[1..], u);
    }
  }

  /** Whatever whitespace follows a core without trailing whitespace, `TrimEnd` removes exactly it. */
  lemma {:induction false} TrimEndOfPadded(u: string, trail: string)
    requires AllWhite(trail)
    requires u != [] ==> !IsWhite(u[|u| - 1])
    ensures TrimEnd(u + trail) == u
  {
    if trail != [] {
      assert (u + trail)[..|u + trail| - 1] == u + trail[..|trail| - 1];
      TrimEndOfPadded(u, trail[..|trail| - 1]);
    }
  }

  /** `trim` is determined by its specification: the core of any whitespace padding is what `Trim` returns. */
  lemma TrimOfPadded(lead: string, t: string, trail: string)
    requires AllWhite(lead) && AllWhite(trail) && NoEdgeWhite(t)
    ensures Trim(lead + t + trail) == t
  {
    if t == [] {
      assert AllWhite(lead + t + trail);
    } else {
      assert lead + t + trail == lead + (t + trail);
      TrimStartOfPadded(lead, t + trail);
      TrimEndOfPadded(t, trail);
    }
  }

  /** Trimming a trimmed string changes nothing. */
  lemma TrimIdempotent(s: string)
    ensures Trim(Trim(s)) == Trim(s)
  {
    TrimFixed(Trim(s));
  }

  /** A string without whitespace at either end is its own trim. */
  lemma TrimFixed(s: string)
    requires NoEdgeWhite(s)
    ensures Trim(s) == s
  {
    assert [] + s + [] == s;
    TrimOfPadded([], s, []);
  }

  /** A string without upper-case letters is its own lower-case form. */
  lemma LowerFixed(s: string)
    requires NoUpper(s)
    ensures Lower(s) == s
  {
    assert forall i :: 0 <= i < |s| ==> Lower(s)[i] == s[i];
  }

  /** Lower-casing a lower-cased string changes nothing. */
  lemma LowerIdempotent(s: string)
    ensures Lower(Lower(s)) == Lower(s)
  {
    assert forall i :: 0 <= i < |s| ==> Lower(Lower(s))[i] == Lower(s)[i];
  }

  /** Lower-casing works character by character, so it distributes over concatenation. */
  lemma LowerAppend(a: string, b: string)
    ensures Lower(a + b) == Lower(a) + Lower(b)
  {
    assert forall i :: 0 <= i < |a + b| ==> Lower(a + b)[i] == (Lower(a) + Lower(b))[i];
  }

  /** Lower-casing neither creates nor removes whitespace. */
  lemma LowerKeepsWhite(s: string)
    ensures AllWhite(s) ==> Lower(s) == s
    ensures NoEdgeWhite(s) ==> NoEdgeWhite(Lower(s))
  {
    if AllWhite(s) {
      assert forall i :: 0 <= i < |s| ==> Lower(s)[i] == s[i];
    }
  }

  /** A string is the concatenation of its three slices at `i` and `j`. */
  lemma SliceThree(s: string, i: nat, j: nat)
    requires i <= j <= |s|
    ensures s == s[..i] + s[i..j] + s[j..]
  {
    assert s[..j] == s[..i] + s[i..j];
  }

  /** The `trim` and `lowercase` setters commute, so the order in which they run does not matter. */
  lemma TrimLowerCommute(s: string)
    ensures Trim(Lower(s)) == Lower(Trim(s))
  {
    var t := Trim(s);
    TrimSplits(s);
    var k :| PaddedAt(s, t, k);
    var lead, trail := s[..k], s[k + |t|..];
    SliceThree(s, k, k + |t|);
    assert Lower(s) == lead + Lower(t) + trail by {
      LowerAppend(lead + t, trail);
      LowerAppend(lead, t);
      LowerKeepsWhite(lead);
      LowerKeepsWhite(trail);
    }
    assert NoEdgeWhite(Lower(t)) by {
      LowerKeepsWhite(t);
    }
    TrimOfPadded(lead, Lower(t), trail);
  }
}
