/**
 * The regular expressions of the form rules, each written as a predicate on
 * strings instead of through a regular-expression engine.
 *
 * For the two e-mail patterns there are two definitions each: a ghost
 * predicate that says what the pattern accepts (there is a way to split the
 * string the way the pattern reads it), and a matcher that scans the string
 * once. The lemmas show the two agree.
 */
module Patterns {

  /** JavaScript's `\w`: ASCII letters, digits and the underscore. */
  predicate IsWordChar(c: char) {
    ('a' <= c <= 'z') || ('A' <= c <= 'Z') || ('0' <= c <= '9') || c == '_'
  }

  /** JavaScript's `\d`. */
  predicate IsDigit(c: char) {
    '0' <= c <= '9'
  }

  predicate AllWord(s: string) {
    forall i :: 0 <= i < |s| ==> IsWordChar(s[i])
  }

  predicate AllDigits(s: string) {
    forall i :: 0 <= i < |s| ==> IsDigit(s[i])
  }

  /** End of the longest run of word characters that starts at `i`. */
  function WordEnd(s: string, i: nat): (r: nat)
    requires i <= |s|
    ensures i <= r <= |s|
    ensures AllWord(s[i..r])
    ensures r < |s| ==> !IsWordChar(s[r])
    decreases |s| - i
  {
    if i < |s| && IsWordChar(s[i]) then
      var r := WordEnd(s, i + 1);
      assert s[i..r] == [s[i]] + s[i + 1..r];
      r
    else
      i
  }

  /** A run of word characters ended by a non-word character is the longest run. */
  lemma {:induction false} WordEndAt(s: string, i: nat, j: nat)
    requires i <= j < |s|
    requires AllWord(s[i..j]) && !IsWordChar(s[j])
    ensures WordEnd(s, i) == j
    decreases j - i
  {
    if i < j {
      assert IsWordChar(s[i..j][0]);
      assert s[i + 1..j] == s[i..j][1..];
      WordEndAt(s, i + 1, j);
    }
  }

  /** `/^\w+$/`: one or more word characters and nothing else. */
  predicate WordOnlyMatches(s: string) {
    |s| > 0 && AllWord(s)
  }

  /** `/^\d{min,max}$/`: between `min` and `max` digits and nothing else. */
  predicate DigitRunMatches(s: string, min: nat, max: nat) {
    min <= |s| <= max && AllDigits(s)
  }

  /**
   * The split under which `/^\w{1,}@\w{1,}\.\w{2,10}/` matches `s`: word
   * characters before `at`, '@', word characters up to `dot`, '.', then `k`
   * word characters with 2 <= k <= 10. What follows is not read: the
   * pattern has no `$`.
   */
  ghost predicate EmailShapeAt(s: string, at: nat, dot: nat, k: nat) {
    && 0 < at && at + 1 < dot && 2 <= k <= 10 && dot + 1 + k <= |s|
    && AllWord(s[..at]) && s[at] == '@'
    && AllWord(s[at + 1..dot]) && s[dot] == '.'
    && AllWord(s[dot + 1..dot + 1 + k])
  }

  ghost predicate EmailShape(s: string) {
    exists at: nat, dot: nat, k: nat :: EmailShapeAt(s, at, dot, k)
  }

  /** Matcher for `/^\w{1,}@\w{1,}\.\w{2,10}/` that scans `s` once. */
  predicate EmailShapeMatches(s: string) {
    var at := WordEnd(s, 0);
    0 < at < |s| && s[at] == '@' &&
    var dot := WordEnd(s, at + 1);
    at + 1 < dot < |s| && s[dot] == '.' &&
    dot + 2 < |s| && IsWordChar(s[dot + 1]) && IsWordChar(s[dot + 2])
  }

  /**
   * The split under which `/^\w{1,}@\w{1,}\.com$/` matches `s`: word
   * characters before `at`, '@', word characters, then ".com" at the very end.
   */
  ghost predicate EmailDotComAt(s: string, at: nat) {
    && 0 < at && at + 5 < |s|
    && AllWord(s[..at]) && s[at] == '@'
    && AllWord(s[at + 1..|s| - 4]) && s[|s| - 4..] == ".com"
  }

  ghost predicate EmailDotCom(s: string) {
    exists at: nat :: EmailDotComAt(s, at)
  }

  /** Matcher for `/^\w{1,}@\w{1,}\.com$/` that scans `s` once. */
  predicate EmailDotComMatches(s: string) {
    var at := WordEnd(s, 0);
    0 < at < |s| && s[at] == '@' &&
    var dot := WordEnd(s, at + 1);
    at + 1 < dot && s[dot..] == ".com"
  }

  /** The scanning matcher accepts exactly what the e-mail shape pattern accepts. */
  lemma EmailShapeMatchesIff(s: string)
    ensures EmailShapeMatches(s) <==> EmailShape(s)
  {
    if EmailShapeMatches(s) {
      var at := WordEnd(s, 0);
      var dot := WordEnd(s, at + 1);
      assert s[dot + 1..dot + 3] == [s[dot + 1], s[dot + 2]];
      assert EmailShapeAt(s, at, dot, 2);
    }
    if EmailShape(s) {
      var at: nat, dot: nat, k: nat :| EmailShapeAt(s, at, dot, k);
      assert s[..at] == s[0..at];
      WordEndAt(s, 0, at);
      WordEndAt(s, at + 1, dot);
      assert IsWordChar(s[dot + 1..dot + 1 + k][0]);
      assert IsWordChar(s[dot + 1..dot + 1 + k][1]);
    }
  }

  /** The scanning matcher accepts exactly what the `.com` pattern accepts. */
  lemma EmailDotComMatchesIff(s: string)
    ensures EmailDotComMatches(s) <==> EmailDotCom(s)
  {
    if EmailDotComMatches(s) {
      var at := WordEnd(s, 0);
      var dot := WordEnd(s, at + 1);
      assert |s| == dot + 4;
      assert EmailDotComAt(s, at);
    }
    if EmailDotCom(s) {
      var at: nat :| EmailDotComAt(s, at);
      assert s[..at] == s[0..at];
      WordEndAt(s, 0, at);
      assert s[|s| - 4] == s[|s| - 4..][0] == '.';
      WordEndAt(s, at + 1, |s| - 4);
    }
  }

  /** Without `$` the bound 10 on the last part never matters: at least two word characters after the dot suffice. */
  lemma EmailShapeNeedsTwoAfterDot(s: string, at: nat, dot: nat)
    requires 0 < at && at + 1 < dot && dot + 2 < |s|
    requires AllWord(s[..at]) && s[at] == '@' && AllWord(s[at + 1..dot]) && s[dot] == '.'
    requires IsWordChar(s[dot + 1]) && IsWordChar(s[dot + 2])
    ensures EmailShape(s)
  {
    assert s[dot + 1..dot + 3] == [s[dot + 1], s[dot + 2]];
    assert EmailShapeAt(s, at, dot, 2);
  }

  /** No end anchor: any text may follow a matching prefix. */
  lemma EmailShapeIgnoresTrailingText(s: string, rest: string)
    requires EmailShape(s)
    ensures EmailShape(s + rest)
  {
    var at: nat, dot: nat, k: nat :| EmailShapeAt(s, at, dot, k);
    var t := s + rest;
    assert t[..at] == s[..at];
    assert t[at + 1..dot] == s[at + 1..dot];
    assert t[dot + 1..dot + 1 + k] == s[dot + 1..dot + 1 + k];
    assert EmailShapeAt(t, at, dot, k);
  }

  /** Every address the `.com` pattern accepts also passes the e-mail shape pattern. */
  lemma EmailDotComIsEmailShape(s: string)
    requires EmailDotCom(s)
    ensures EmailShape(s)
  {
    var at: nat :| EmailDotComAt(s, at);
    var dot := |s| - 4;
    assert s[dot + 1..dot + 4] == "com";
    assert EmailShapeAt(s, at, dot, 3);
  }

  /** The converse fails: another top-level suffix passes the shape pattern only. */
  lemma EmailShapeIsWiderThanDotCom()
    ensures EmailShape("ab@cd.org") && !EmailDotCom("ab@cd.org")
  {
    var s := "ab@cd.org";
    assert s[..2] == "ab" && s[3..5] == "cd" && s[6..8] == "or";
    assert EmailShapeAt(s, 2, 5, 2);
    EmailDotComMatchesIff(s);
    assert s[..2] == s[0..2];
    WordEndAt(s, 0, 2);
    WordEndAt(s, 3, 5);
    assert s[5..] != ".com";
  }

  /** A character JavaScript stores in one UTF-16 code unit (one of the Basic Multilingual Plane). */
  predicate InBmp(c: char) {
    (c as int) < 0x1_0000
  }

  /**
   * JavaScript's `s.length`: the number of UTF-16 code units, so a character
   * outside the Basic Multilingual Plane counts twice.
   */
  function Utf16Length(s: string): (n: nat)
    ensures |s| <= n <= 2 * |s|
  {
    if s == [] then 0 else (if InBmp(s[0]) then 1 else 2) + Utf16Length(s[1..])
  }

  /** For a string of Basic Multilingual Plane characters the two lengths agree. */
  lemma {:induction false} Utf16LengthOfBmp(s: string)
    requires forall i :: 0 <= i < |s| ==> InBmp(s[i])
    ensures Utf16Length(s) == |s|
  {
    if s != [] {
      assert forall i :: 0 <= i < |s[1..]| ==> s[1..][i] == s[i + 1];
      Utf16LengthOfBmp(s[1..]);
    }
  }

  /** A character outside the Basic Multilingual Plane counts twice: "ab😀c" has length 5 in JavaScript. */
  lemma Utf16LengthSurrogatePair()
    ensures |"ab\U{1F600}c"| == 4 && Utf16Length("ab\U{1F600}c") == 5
  {
    var s := "ab\U{1F600}c";
    assert s[1..] == "b\U{1F600}c" && s[1..][1..] == "\U{1F600}c" && s[1..][1..][1..] == "c";
  }

  /**
   * Anything the `.com` pattern accepts has at least 7 characters, all in
   * the Basic Multilingual Plane, so its JavaScript length is at least 7 too.
   */
  lemma EmailDotComLength(s: string)
    requires EmailDotCom(s)
    ensures |s| >= 7 && Utf16Length(s) == |s|
  {
    var at: nat :| EmailDotComAt(s, at);
    forall i | 0 <= i < |s| ensures InBmp(s[i]) {
      if i < at {
        assert s[i] == s[..at][i];
      } else if at < i < |s| - 4 {
        assert s[i] == s[at + 1..|s| - 4][i - at - 1];
      } else if i >= |s| - 4 {
        assert s[i] == s[|s| - 4..][i - (|s| - 4)];
      }
    }
    Utf16LengthOfBmp(s);
  }

  /** The patterns of the form rules. */
  datatype Pattern =
    | WordOnly                       // /^\w+$/
    | EmailShapePattern              // /^\w{1,}@\w{1,}\.\w{2,10}/
    | EmailDotComPattern             // /^\w{1,}@\w{1,}\.com$/
    | DigitRun(min: nat, max: nat)   // /^\d{min,max}$/

  /** `regex.test(s)` for each pattern. */
  predicate Matches(p: Pattern, s: string) {
    match p
    case WordOnly => WordOnlyMatches(s)
    case EmailShapePattern => EmailShapeMatches(s)
    case EmailDotComPattern => EmailDotComMatches(s)
    case DigitRun(min, max) => DigitRunMatches(s, min, max)
  }

}
