/**
 * Stop-name cleaning: the two fixed regular-expression steps of
 * `cleanStopName`, written out for their fixed patterns.
 *   FERRY_STOP       `(ferry stop - )`, case-insensitive, every match removed;
 *   ENDS_WITH_NUMBER `( \([\d]+\)$)`, the match removed.
 * The remaining two steps (`CleanUtils.cleanNumbers` and `cleanLabel`)
 * belong to the feed library and come in as functions.
 */
module StopNameCleaning {
  import opened Wrappers
  import opened StopIdentity

  /** The text of FERRY_STOP, in lower case. */
  const FERRY_STOP: string := "ferry stop - "

  /** Case folding as java.util.regex does it without Unicode case: A-Z only. */
  function ToLowerAscii(c: char): char {
    if 'A' <= c <= 'Z' then ((c as int) + 32) as char else c
  }

  /** FERRY_STOP matches at the start of `s`. */
  predicate StartsWithFerryStop(s: string) {
    |s| >= |FERRY_STOP| && forall j :: 0 <= j < |FERRY_STOP| ==> ToLowerAscii(s[j]) == FERRY_STOP[j]
  }

  /** FERRY_STOP matches nowhere in `s`. */
  ghost predicate HasNoFerryStop(s: string) {
    forall i :: 0 <= i <= |s| ==> !StartsWithFerryStop(s[i..])
  }

  /**
   * `replaceAll` for FERRY_STOP: scanning from the left, each match is
   * dropped and the scan goes on right after it.
   */
  function RemoveFerryStop(s: string): (r: string)
    ensures |r| <= |s|
    decreases |s|
  {
    if s == [] then []
    else if StartsWithFerryStop(s) then RemoveFerryStop(s[|FERRY_STOP|..])
    else [s[0]] + RemoveFerryStop(s[1..])
  }

  /** A name in which the pattern does not occur comes out unchanged. */
  lemma {:induction false} RemoveFerryStopKeepsCleanName(s: string)
    requires HasNoFerryStop(s)
    ensures RemoveFerryStop(s) == s
    decreases |s|
  {
    if s != [] {
      assert !StartsWithFerryStop(s[0..]) && s[0..] == s;
      forall i | 0 <= i <= |s[1..]| ensures !StartsWithFerryStop(s[1..][i..]) {
        assert s[1..][i..] == s[i + 1..];
      }
      RemoveFerryStopKeepsCleanName(s[1..]);
    }
  }

  /**
   * A stretch in which no match starts is copied as it is; the removal
   * goes on after it. Together with RemoveFerryStopDropsMatch this says the
   * result is the name with its left-to-right, non-overlapping matches cut out.
   */
  lemma {:induction false} RemoveFerryStopCopiesStretch(a: string, b: string)
    requires forall i :: 0 <= i < |a| ==> !StartsWithFerryStop((a + b)[i..])
    ensures RemoveFerryStop(a + b) == a + RemoveFerryStop(b)
    decreases |a|
  {
    if a != [] {
      assert !StartsWithFerryStop((a + b)[0..]) && (a + b)[0..] == a + b;
      assert (a + b)[1..] == a[1..] + b;
      forall i | 0 <= i < |a[1..]| ensures !StartsWithFerryStop((a[1..] + b)[i..]) {
        assert (a[1..] + b)[i..] == (a + b)[i + 1..];
      }
      RemoveFerryStopCopiesStretch(a[1..], b);
    }
  }

  /** A match at the scan position is dropped, in any letter case. */
  lemma RemoveFerryStopDropsMatch(m: string, b: string)
    requires |m| == |FERRY_STOP| && StartsWithFerryStop(m)
    ensures RemoveFerryStop(m + b) == RemoveFerryStop(b)
  {
    assert StartsWithFerryStop(m + b) by {
      forall j | 0 <= j < |FERRY_STOP| ensures (m + b)[j] == m[j] { }
    }
    assert (m + b)[|FERRY_STOP|..] == b;
  }

  /** Java's `$` without MULTILINE: a line terminator character. */
  predicate IsLineTerminator(c: char) {
    c == '\n' || c == '\r' || c == '\U{0085}' || c == '\U{2028}' || c == '\U{2029}'
  }

  /** What `$` may leave after it: nothing, or one final line terminator ("\r\n" counting as one). */
  predicate IsFinalTerminator(t: string) {
    t == "" || t == "\r\n" || (|t| == 1 && IsLineTerminator(t[0]))
  }

  /** The length of the final line terminator of `s`, if any. */
  function FinalTerminatorLength(s: string): (t: nat)
    ensures t <= |s| && IsFinalTerminator(s[|s| - t..])
  {
    if |s| >= 2 && s[|s| - 2] == '\r' && s[|s| - 1] == '\n' then 2
    else if |s| >= 1 && IsLineTerminator(s[|s| - 1]) then 1
    else 0
  }

  /** The start of the maximal run of digits that ends at `j`. */
  function DigitRunStart(s: string, j: nat): (k: nat)
    requires j <= |s|
    ensures k <= j
    ensures forall i :: k <= i < j ==> IsDigit(s[i])
    ensures k > 0 ==> !IsDigit(s[k - 1])
  {
    if j == 0 || !IsDigit(s[j - 1]) then j else DigitRunStart(s, j - 1)
  }

  /** Where ` (<digits>)` starts when `body` ends with it. */
  function TrailingNumberStart(body: string): Option<nat> {
    if |body| < 4 || body[|body| - 1] != ')' then None
    else
      var k := DigitRunStart(body, |body| - 1);
      if 2 <= k < |body| - 1 && body[k - 1] == '(' && body[k - 2] == ' ' then Some(k - 2) else None
  }

  /**
   * ENDS_WITH_NUMBER matches `s` from `i` to `j`: a space, `(`, one or more
   * digits and `)`, followed by nothing or by a final line terminator.
   */
  ghost predicate EndsWithNumberAt(s: string, i: nat, j: nat) {
    && i + 4 <= j <= |s|
    && s[i] == ' ' && s[i + 1] == '(' && s[j - 1] == ')'
    && (forall k :: i + 2 <= k < j - 1 ==> IsDigit(s[k]))
    && IsFinalTerminator(s[j..])
  }

  /** `replaceAll` for ENDS_WITH_NUMBER: the one possible match is dropped, whatever ends the name is kept. */
  function StripTrailingNumber(s: string): (r: string)
    ensures |r| <= |s|
  {
    var t := FinalTerminatorLength(s);
    var body := s[..|s| - t];
    match TrailingNumberStart(body)
    case None => s
    case Some(i) => body[..i] + s[|s| - t..]
  }

  /** When the pattern matches, exactly the match is removed and nothing before or after it. */
  lemma StripTrailingNumberRemovesMatch(s: string, i: nat, j: nat)
    requires EndsWithNumberAt(s, i, j)
    ensures StripTrailingNumber(s) == s[..i] + s[j..]
  {
    var t := FinalTerminatorLength(s);
    assert t == |s| - j by {
      assert s[j - 1] == ')';
      if j == |s| - 1 {
        assert s[j..] == [s[j]];
      }
    }
    var body := s[..j];
    assert |body| >= 4 && body[|body| - 1] == ')';
    var k := DigitRunStart(body, |body| - 1);
    assert k == i + 2 by {
      assert !IsDigit(body[i + 1]);
      assert forall x :: i + 2 <= x < j - 1 ==> IsDigit(body[x]);
      if k != i + 2 {
        assert false;
      }
    }
    assert TrailingNumberStart(body) == Some(i);
  }

  /** When the pattern matches nowhere, the name comes out unchanged. */
  lemma StripTrailingNumberKeepsOtherNames(s: string)
    requires forall i, j :: !EndsWithNumberAt(s, i, j)
    ensures StripTrailingNumber(s) == s
  {
    var t := FinalTerminatorLength(s);
    var body := s[..|s| - t];
    if TrailingNumberStart(body).Some? {
      var i := TrailingNumberStart(body).value;
      assert EndsWithNumberAt(s, i, |s| - t);
      assert false;
    }
  }

  /** `cleanStopName`: the two pattern steps, then the library's number and label cleaning. */
  method CleanStopName(gStopName: string, cleanNumbers: string -> string, cleanLabel: string -> string)
    returns (r: string)
    ensures r == cleanLabel(cleanNumbers(StripTrailingNumber(RemoveFerryStop(gStopName))))
  {
    var name := gStopName;
    name := RemoveFerryStop(name);
    name := StripTrailingNumber(name);
    name := cleanNumbers(name);
    r := cleanLabel(name);
  }

  /** The example terminal name holds no FERRY_STOP match: its two f's start "fax" and "Ferry Te". */
  lemma TerminalNameIsClean(t: string)
    requires t == "Halifax Ferry Terminal (3)"
    ensures HasNoFerryStop(t)
  {
    forall i | 0 <= i <= |t| ensures !StartsWithFerryStop(t[i..]) {
      if i <= |t| - |FERRY_STOP| {
        if i == 4 {
          assert t[i..][1] == 'a';
        } else if i == 8 {
          assert t[i..][6] == 'T';
        } else {
          assert ToLowerAscii(t[i..][0]) != 'f';
        }
      }
    }
  }

  /** The example name loses its "Ferry Stop - " prefix, in its own letter case. */
  lemma RemoveFerryStopExample(m: string, t: string)
    requires m == "Ferry Stop - " && t == "Halifax Ferry Terminal (3)"
    ensures RemoveFerryStop(m + t) == t
  {
    RemoveFerryStopDropsMatch(m, t);
    TerminalNameIsClean(t);
    RemoveFerryStopKeepsCleanName(t);
  }

  /** The example name loses its trailing " (3)". */
  lemma StripTrailingNumberExample(t: string)
    requires t == "Halifax Ferry Terminal (3)"
    ensures StripTrailingNumber(t) == "Halifax Ferry Terminal"
  {
    assert EndsWithNumberAt(t, 22, 26);
    StripTrailingNumberRemovesMatch(t, 22, 26);
    assert t[..22] + t[26..] == "Halifax Ferry Terminal";
  }

  /** "Ferry Stop - Halifax Ferry Terminal (3)" loses its prefix and its number: "Halifax Ferry Terminal". */
  lemma CleaningExample(m: string, t: string)
    requires m == "Ferry Stop - " && t == "Halifax Ferry Terminal (3)"
    ensures StripTrailingNumber(RemoveFerryStop(m + t)) == "Halifax Ferry Terminal"
  {
    RemoveFerryStopExample(m, t);
    StripTrailingNumberExample(t);
  }

  /** The pattern's own text, in lower case, is a match. */
  lemma FerryStopMatchesItself(s: string)
    requires s == FERRY_STOP
    ensures StartsWithFerryStop(s)
  {
    forall j | 0 <= j < |FERRY_STOP| ensures ToLowerAscii(s[j]) == FERRY_STOP[j] {
      assert !('A' <= s[j] <= 'Z');
    }
  }

  /** No match starts inside "ferry stop " when an f follows it. */
  lemma NoMatchStartsInFerryStopWords(a: string, rest: string)
    requires a == "ferry stop " && |rest| > 0 && rest[0] == 'f'
    ensures forall i :: 0 <= i < |a| ==> !StartsWithFerryStop((a + rest)[i..])
  {
    forall i | 0 <= i < |a| ensures !StartsWithFerryStop((a + rest)[i..]) {
      if i == 0 {
        assert (a + rest)[11] == rest[0];
      } else {
        assert ToLowerAscii((a + rest)[i..][0]) != 'f';
      }
    }
  }

  /**
   * FERRY_STOP removal is not idempotent: cutting one match out can join
   * two pieces into a new match, which a second pass would remove. The
   * name here is "ferry stop ferry stop - - ", given as its three pieces.
   */
  lemma RemoveFerryStopNotIdempotent(s: string, a: string, m: string, b: string)
    requires a == "ferry stop " && m == FERRY_STOP && b == "- " && s == a + (m + b)
    ensures RemoveFerryStop(s) == FERRY_STOP
    ensures StartsWithFerryStop(RemoveFerryStop(s))
  {
    RemoveNestedFerryStop(a, m, b);
    assert a + b == FERRY_STOP;
    FerryStopMatchesItself(RemoveFerryStop(s));
  }

  /** Between "ferry stop " and "- ", the match is cut out and the two sides are joined. */
  lemma RemoveNestedFerryStop(a: string, m: string, b: string)
    requires a == "ferry stop " && m == FERRY_STOP && b == "- "
    ensures RemoveFerryStop(a + (m + b)) == a + b
  {
    assert RemoveFerryStop(a + (m + b)) == a + RemoveFerryStop(m + b) by {
      NoMatchStartsInFerryStopWords(a, m + b);
      RemoveFerryStopCopiesStretch(a, m + b);
    }
    assert RemoveFerryStop(m + b) == b by {
      FerryStopMatchesItself(m);
      RemoveFerryStopDropsMatch(m, b);
      assert HasNoFerryStop(b);
      RemoveFerryStopKeepsCleanName(b);
    }
  }

  /** ENDS_WITH_NUMBER removal is not idempotent either: a second number becomes the trailing one. */
  lemma StripTrailingNumberNotIdempotent(s: string)
    requires s == "Pier (1) (2)"
    ensures StripTrailingNumber(s) == "Pier (1)"
    ensures EndsWithNumberAt(StripTrailingNumber(s), 4, 8)
  {
    assert EndsWithNumberAt(s, 8, 12);
    StripTrailingNumberRemovesMatch(s, 8, 12);
    assert s[..8] + s[12..] == "Pier (1)";
  }
}
