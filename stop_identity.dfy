/**
 * Stop identity: the digits that stand for a raw textual stop id, and the
 * `Integer.parseInt` that turns them into the numeric stop id.
 */
module StopIdentity {
  import opened Wrappers

  /** `Integer.MAX_VALUE`: the largest value `Integer.parseInt` returns. */
  const INT_MAX: int := 0x7FFF_FFFF

  /** The character class `\d` of java.util.regex (no Unicode character classes): `0`-`9`. */
  predicate IsDigit(c: char) {
    '0' <= c <= '9'
  }

  /** `Utils.isDigitsOnly`: every character is a digit (so the empty string is digits only). */
  predicate IsDigitsOnly(s: string) {
    forall i :: 0 <= i < |s| ==> IsDigit(s[i])
  }

  /** `sub` stands in `s` at index `start`. */
  predicate OccursAt(s: string, start: nat, sub: string) {
    start + |sub| <= |s| && s[start..start + |sub|] == sub
  }

  predicate HasDigit(s: string) {
    exists i :: 0 <= i < |s| && IsDigit(s[i])
  }

  /**
   * `run` is what `Matcher.find()` then `group()` yield for `[\d]+` on `s`:
   * a non-empty run of digits at `start`, with no digit anywhere before it
   * and none right after it.
   */
  ghost predicate IsFirstMaximalRun(s: string, start: nat, run: string) {
    && OccursAt(s, start, run)
    && |run| > 0
    && IsDigitsOnly(run)
    && (forall j :: 0 <= j < start ==> !IsDigit(s[j]))
    && (start + |run| < |s| ==> !IsDigit(s[start + |run|]))
  }

  /** The first index at or after `i` that holds a digit, or `|s|`. */
  function FirstDigitFrom(s: string, i: nat): (k: nat)
    requires i <= |s|
    ensures i <= k <= |s|
    ensures forall j :: i <= j < k ==> !IsDigit(s[j])
    ensures k < |s| ==> IsDigit(s[k])
    decreases |s| - i
  {
    if i == |s| || IsDigit(s[i]) then i else FirstDigitFrom(s, i + 1)
  }

  /** The end of the run of digits that starts at `i`. */
  function DigitRunEnd(s: string, i: nat): (k: nat)
    requires i <= |s|
    ensures i <= k <= |s|
    ensures forall j :: i <= j < k ==> IsDigit(s[j])
    ensures k < |s| ==> !IsDigit(s[k])
    decreases |s| - i
  {
    if i == |s| || !IsDigit(s[i]) then i else DigitRunEnd(s, i + 1)
  }

  /** The search of `[\d]+`: where the first maximal run of digits starts, and the run; None when there is no digit. */
  function FindDigits(s: string): (r: Option<(nat, string)>)
    ensures r.None? <==> !HasDigit(s)
    ensures r.Some? ==> IsFirstMaximalRun(s, r.value.0, r.value.1)
  {
    var start := FirstDigitFrom(s, 0);
    if start == |s| then None else Some((start, s[start..DigitRunEnd(s, start)]))
  }

  /** The first maximal run of digits is determined by the string: there is only one. */
  lemma FirstMaximalRunUnique(s: string, a: nat, u: string, b: nat, v: string)
    requires IsFirstMaximalRun(s, a, u) && IsFirstMaximalRun(s, b, v)
    ensures a == b && u == v
  {
    assert s[a] == u[0] && s[b] == v[0];
    if a < b || b < a {
      assert false;
    }
    assert forall k :: 0 <= k < |u| ==> s[a + k] == u[k];
    assert forall k :: 0 <= k < |v| ==> s[a + k] == v[k];
    if |u| < |v| || |v| < |u| {
      assert false;
    }
  }

  /** The search finds exactly the first maximal run. */
  lemma FindDigitsIsFirstMaximalRun(s: string, start: nat, run: string)
    requires IsFirstMaximalRun(s, start, run)
    ensures FindDigits(s) == Some((start, run))
  {
    assert IsDigit(s[start + 0]) by { assert s[start..start + |run|][0] == run[0]; }
    var r := FindDigits(s);
    FirstMaximalRunUnique(s, start, run, r.value.0, r.value.1);
  }

  /**
   * The digits that stand for a raw stop id, shared by `getStopId` and
   * `getStopCode`: the id itself when it is digits only, otherwise the first
   * maximal run of digits in it; None when neither applies.
   */
  function StopDigits(stopId: string): (r: Option<string>)
    ensures IsDigitsOnly(stopId) ==> r == Some(stopId)
    ensures r.None? <==> stopId != [] && !HasDigit(stopId)
    ensures !IsDigitsOnly(stopId) && r.Some? ==> exists start :: IsFirstMaximalRun(stopId, start, r.value)
    ensures r.Some? ==> IsDigitsOnly(r.value)
    ensures r.Some? ==> exists start :: OccursAt(stopId, start, r.value)
  {
    if IsDigitsOnly(stopId) then
      assert OccursAt(stopId, 0, stopId) by { assert stopId[0..|stopId|] == stopId; }
      assert stopId != [] ==> IsDigit(stopId[0]);
      Some(stopId)
    else
      assert stopId != [];
      match FindDigits(stopId)
      case None => None
      case Some((start, run)) => Some(run)
  }

  function DigitValue(c: char): nat
    requires IsDigit(c)
  {
    (c as int) - ('0' as int)
  }

  /** The value of a string of decimal digits, most significant first. */
  function DigitsValue(d: string): nat
    requires IsDigitsOnly(d)
  {
    if d == [] then 0 else DigitsValue(d[..|d| - 1]) * 10 + DigitValue(d[|d| - 1])
  }

  function Pow10(n: nat): nat {
    if n == 0 then 1 else 10 * Pow10(n - 1)
  }

  /** A value written with `n` digits is below `10^n`. */
  lemma {:induction false} DigitsValueBelowPow10(d: string)
    requires IsDigitsOnly(d)
    ensures DigitsValue(d) < Pow10(|d|)
  {
    if d != [] {
      DigitsValueBelowPow10(d[..|d| - 1]);
    }
  }

  /**
   * `Integer.parseInt` on a string of digits: None stands for the
   * `NumberFormatException` it throws on the empty string and on a value
   * above `Integer.MAX_VALUE`.
   */
  function ParseDigits(d: string): (r: Option<int>)
    requires IsDigitsOnly(d)
    ensures r.Some? <==> d != [] && DigitsValue(d) <= INT_MAX
    ensures r.Some? ==> r.value == DigitsValue(d) && 0 <= r.value <= INT_MAX
  {
    if d == [] || DigitsValue(d) > INT_MAX then None else Some(DigitsValue(d))
  }

  /** Every run of one to nine digits parses, whatever its digits. */
  lemma ShortDigitsParse(d: string)
    requires IsDigitsOnly(d) && 0 < |d| <= 9
    ensures ParseDigits(d) == Some(DigitsValue(d))
  {
    DigitsValueBelowPow10(d);
    var n := |d|;
    assert Pow10(n) <= Pow10(9) by {
      var k := n;
      while k < 9
        invariant n <= k <= 9
        invariant Pow10(n) <= Pow10(k)
      {
        k := k + 1;
      }
    }
  }
}
