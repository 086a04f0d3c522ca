/**
 * Concrete values run through the JavaScript string operations the user
 * schema applies: what `trim`, `toLowerCase` and `includes` give for the
 * inputs used in the worked examples.
 */
module JsStringExamples {
  import opened JsString

  /** A value with no surrounding whitespace keeps its length under `trim`. */
  lemma UnpaddedLength(s: string)
    requires NoEdgeWhite(s)
    ensures |Trim(s)| == |s|
  {
    TrimFixed(s);
  }

  /** ... and contains, lower-cased, exactly the words it contained before. */
  lemma UnpaddedIncludes(s: string, word: string)
    requires NoEdgeWhite(s)
    ensures Includes(Lower(Trim(s)), word) == Includes(Lower(s), word)
  {
    assert Lower(Trim(s)) == Lower(s) by { TrimFixed(s); }
  }

  /** `trim` removes every character of a whitespace-only string. */
  lemma BlankTrimmedAway(s: string)
    requires s == "   "
    ensures Trim(s) == []
  {
    assert s == s + [] + [];
    TrimOfPadded(s, [], []);
  }

  /** `"  abc12  "` is `"abc12"`, of JavaScript length 5, padded with two spaces on each side. */
  lemma PaddedShortTrimmed(s: string, t: string)
    requires s == "  abc12  " && t == "abc12"
    ensures s == "  " + t + "  " && NoEdgeWhite(t) && JsLength(t) == 5
  {
    JsLengthBmp(t);
  }

  /** Three U+1F600 characters have JavaScript length 6, two code units each. */
  lemma GrinningTriple(s: string)
    requires s == "\U{1F600}\U{1F600}\U{1F600}"
    ensures |s| == 3 && JsLength(s) == 2 * |s| && NoEdgeWhite(s)
  {
    JsLengthAstral(s);
  }

  /** `/^\d{10}$/.test("0123456789")` holds. */
  lemma TenDigitString(s: string)
    requires s == "0123456789"
    ensures MatchesDigits(s, 10)
  {
  }

  /** `"  Secr3tKey  ".trim()` is `"Secr3tKey"`. */
  lemma PaddedKeyTrimmed(s: string, t: string)
    requires s == "  Secr3tKey  " && t == "Secr3tKey"
    ensures Trim(s) == t
  {
    assert s == "  " + t + "  ";
    TrimOfPadded("  ", t, "  ");
  }

  /** `" Bo@Ex.IO ".trim().toLowerCase()` is `"bo@ex.io"`. */
  lemma MixedCaseNormalized(s: string, t: string)
    requires s == " Bo@Ex.IO " && t == "Bo@Ex.IO"
    ensures Lower(Trim(s)) == "bo@ex.io"
  {
    PaddedEmailTrimmed(s, t);
    LowerMixedCase(t);
  }

  lemma PaddedEmailTrimmed(s: string, t: string)
    requires s == " Bo@Ex.IO " && t == "Bo@Ex.IO"
    ensures Trim(s) == t
  {
    assert s == " " + t + " ";
    TrimOfPadded(" ", t, " ");
  }

  lemma LowerMixedCase(t: string)
    requires t == "Bo@Ex.IO"
    ensures Lower(t) == "bo@ex.io"
  {
    var low := Lower(t);
    assert low[0] == LowerChar('B') && low[3] == LowerChar('E') && low[6] == LowerChar('I') && low[7] == LowerChar('O');
  }

  /** Lower-casing exposes the word: `"MyPassword1".toLowerCase().includes("password")`. */
  lemma CapitalisedPasswordWord(s: string)
    requires s == "MyPassword1"
    ensures |s| == 11 && NoEdgeWhite(s) && Includes(Lower(s), "password")
  {
    var low := Lower(s);
    assert low[2..10] == "password";
    assert OccursAt(low, "password", 2);
    IncludesIff(low, "password");
  }

  /** `"Secur3Key".toLowerCase()` does not contain `"password"`. */
  lemma SafeKeyWithoutWord(s: string)
    requires s == "Secur3Key"
    ensures |s| == 9 && NoEdgeWhite(s) && !Includes(Lower(s), "password")
  {
    var low := Lower(s);
    assert low[0] == 's' && low[1] == 'e';
    IncludesIff(low, "password");
    forall i | 0 <= i <= |low| - 8 ensures !OccursAt(low, "password", i) {
      assert low[i..i + 8][0] == low[i] != 'p';
    }
  }
}
