/**
 * Lifetime strings such as "15m" or "30d" (authUtils.ts, parseExpiration and
 * getExpirationInMilliseconds). The accepted shape is the regular expression
 * `^(\d+)([a-z]+)$` with the `i` flag: one or more ASCII digits, then one or
 * more ASCII letters of either case, and nothing else.
 */
module Duration {
  import opened Wrappers
  import Decimal

  /** The two errors parseExpiration throws. */
  datatype DurationError =
    | InvalidFormat(input: string)    // the string is not digits followed by letters
    | UnsupportedUnit(unit: string)   // the (lower-cased) letters are not s, m, h or d

  /** `[a-z]` under the `i` flag: an ASCII letter of either case. */
  predicate IsLetter(c: char) {
    'a' <= c <= 'z' || 'A' <= c <= 'Z'
  }

  predicate AllLetters(s: string) {
    forall i :: 0 <= i < |s| ==> IsLetter(s[i])
  }

  /** `toLowerCase` restricted to ASCII letters, the only characters it is applied to here. */
  function LowerChar(c: char): char {
    if 'A' <= c <= 'Z' then (c as int + 32) as char else c
  }

  function Lower(s: string): (r: string)
    ensures |r| == |s|
    ensures forall i :: 0 <= i < |s| ==> r[i] == LowerChar(s[i])
    ensures forall i :: 0 <= i < |r| ==> !('A' <= r[i] <= 'Z')
  {
    if |s| == 0 then [] else [LowerChar(s[0])] + Lower(s[1..])
  }

  /** The whole string matches `^(\d+)([a-z]+)$` case-insensitively, split after `k` characters. */
  ghost predicate SplitsAt(s: string, k: int) {
    0 < k < |s| && Decimal.AllDigits(s[..k]) && AllLetters(s[k..])
  }

  ghost predicate MatchesFormat(s: string) {
    exists k :: SplitsAt(s, k)
  }

  /** Seconds per unit, for the four units the parser supports (lower case). */
  function UnitSeconds(unit: string): Option<nat> {
    if unit == "s" then Some(1)
    else if unit == "m" then Some(60)
    else if unit == "h" then Some(3600)
    else if unit == "d" then Some(86400)
    else None
  }

  /** The number of leading ASCII digits of `s`: where the digit group of the pattern ends. */
  function LeadingDigits(s: string): (k: nat)
    ensures k <= |s|
    ensures Decimal.AllDigits(s[..k])
    ensures k < |s| ==> !Decimal.IsDigit(s[k])
  {
    if |s| == 0 || !Decimal.IsDigit(s[0]) then 0
    else
      var k := 1 + LeadingDigits(s[1..]);
      assert s[..k] == [s[0]] + s[1..][..k - 1];
      k
  }

  /**
   * parseExpiration: the lifetime in seconds, or the error it throws. A
   * success comes from a digits-then-letters split with a supported unit;
   * an invalid-format error names the whole input, which has no such split;
   * an unsupported-unit error names the lower-cased letters of a split.
   */
  function ParseExpiration(expiresIn: string): (r: Result<nat, DurationError>)
    ensures r.Success? ==>
              exists k :: SplitsAt(expiresIn, k) && UnitSeconds(Lower(expiresIn[k..])).Some?
                          && r.value == Decimal.Value(expiresIn[..k]) * UnitSeconds(Lower(expiresIn[k..])).value
    ensures r.Failure? && r.error.InvalidFormat? ==> r.error.input == expiresIn && !MatchesFormat(expiresIn)
    ensures r.Failure? && r.error.UnsupportedUnit? ==>
              exists k :: SplitsAt(expiresIn, k) && r.error.unit == Lower(expiresIn[k..])
                          && UnitSeconds(r.error.unit).None?
  {
    var k := LeadingDigits(expiresIn);
    if k == 0 || k == |expiresIn| || !AllLetters(expiresIn[k..]) then
      assert !MatchesFormat(expiresIn) by {
        forall j | SplitsAt(expiresIn, j) ensures LeadingDigits(expiresIn) == j {
          SplitIsLeadingDigits(expiresIn, j);
        }
      }
      Failure(InvalidFormat(expiresIn))
    else
      assert SplitsAt(expiresIn, k);
      InUnit(Decimal.Value(expiresIn[..k]), Lower(expiresIn[k..]))
  }

  /** The unit switch of parseExpiration: scale `value` to seconds, or reject the unit. */
  function InUnit(value: nat, unit: string): (r: Result<nat, DurationError>)
    ensures UnitSeconds(unit).Some? ==> r == Success(value * UnitSeconds(unit).value)
    ensures UnitSeconds(unit).None? ==> r == Failure(UnsupportedUnit(unit))
  {
    if unit == "s" then Success(value)
    else if unit == "m" then Success(value * 60)
    else if unit == "h" then Success(value * 60 * 60)
    else if unit == "d" then Success(value * 24 * 60 * 60)
    else Failure(UnsupportedUnit(unit))
  }

  /** The digit group ends exactly where a digits-then-letters split puts it. */
  lemma SplitIsLeadingDigits(s: string, k: int)
    requires SplitsAt(s, k)
    ensures LeadingDigits(s) == k
  {
    var j := LeadingDigits(s);
    assert !Decimal.IsDigit(s[k]) by { assert s[k] == s[k..][0]; }
    forall i | 0 <= i < k ensures Decimal.IsDigit(s[i]) {
      assert s[i] == s[..k][i];
    }
    forall i | 0 <= i < j ensures Decimal.IsDigit(s[i]) {
      assert s[i] == s[..j][i];
    }
  }

  /**
   * Parsing digits `d` followed by letters `u` yields the value of `d` times
   * the seconds of the lower-cased unit, or the unsupported-unit error.
   */
  lemma ParseDigitsThenLetters(d: string, u: string)
    requires |d| > 0 && Decimal.AllDigits(d)
    requires |u| > 0 && AllLetters(u)
    ensures UnitSeconds(Lower(u)).Some? ==>
      ParseExpiration(d + u) == Success(Decimal.Value(d) * UnitSeconds(Lower(u)).value)
    ensures UnitSeconds(Lower(u)).None? ==>
      ParseExpiration(d + u) == Failure(UnsupportedUnit(Lower(u)))
  {
    var s := d + u;
    assert s[..|d|] == d && s[|d|..] == u;
    SplitIsLeadingDigits(s, |d|);
  }

  /** parseExpiration reports an invalid format exactly when the pattern does not match. */
  lemma InvalidFormatIffNoMatch(s: string)
    ensures ParseExpiration(s).Failure? && ParseExpiration(s).error.InvalidFormat?
        <==> !MatchesFormat(s)
  {
    var k := LeadingDigits(s);
    if MatchesFormat(s) {
      var j :| SplitsAt(s, j);
      SplitIsLeadingDigits(s, j);
    } else if 0 < k < |s| && AllLetters(s[k..]) {
      assert SplitsAt(s, k);
    }
  }

  /** parseExpiration succeeds exactly on matching strings whose unit is s, m, h or d in any case. */
  lemma SuccessIffSupported(s: string)
    ensures ParseExpiration(s).Success? <==>
      exists k :: SplitsAt(s, k) && UnitSeconds(Lower(s[k..])).Some?
  {
    if ParseExpiration(s).Success? {
      InvalidFormatIffNoMatch(s);
      var k := LeadingDigits(s);
      assert SplitsAt(s, k);
    }
    if exists k :: SplitsAt(s, k) && UnitSeconds(Lower(s[k..])).Some? {
      var k :| SplitsAt(s, k) && UnitSeconds(Lower(s[k..])).Some?;
      SplitIsLeadingDigits(s, k);
    }
  }

  /** Rendering a number followed by a unit letter and parsing it back gives the number of seconds. */
  lemma {:induction false} RenderThenParse(n: nat, unit: char)
    requires UnitSeconds([LowerChar(unit)]).Some? && IsLetter(unit)
    ensures ParseExpiration(Decimal.Render(n) + [unit]) == Success(n * UnitSeconds([LowerChar(unit)]).value)
  {
    assert Lower([unit]) == [LowerChar(unit)];
    ParseDigitsThenLetters(Decimal.Render(n), [unit]);
    Decimal.ValueOfRender(n);
  }

  /** getExpirationInMilliseconds: the parsed lifetime times 1000, or the same error. */
  function ExpirationInMilliseconds(expiresIn: string): (r: Result<nat, DurationError>)
    ensures r.Failure? <==> ParseExpiration(expiresIn).Failure?
    ensures r.Failure? ==> r.error == ParseExpiration(expiresIn).error
    ensures r.Success? ==> r.value % 1000 == 0 && r.value / 1000 == ParseExpiration(expiresIn).value
  {
    match ParseExpiration(expiresIn)
    case Success(seconds) => Success(seconds * 1000)
    case Failure(e) => Failure(e)
  }

  /** The default access lifetime: 15 minutes. */
  lemma FifteenMinutesExample()
    ensures ParseExpiration("15m") == Success(900)
  {
    assert "15" + "m" == "15m";
    assert Decimal.Value("15") == 15;
    assert Lower("m") == "m";
    assert UnitSeconds("m") == Some(60);
    ParseDigitsThenLetters("15", "m");
  }

  /** getExpirationInMilliseconds of the default access lifetime. */
  lemma FifteenMinutesInMilliseconds()
    ensures ExpirationInMilliseconds("15m") == Success(900000)
  {
    FifteenMinutesExample();
  }

  /** The unit is case-insensitive. */
  lemma UpperCaseUnitExample()
    ensures ParseExpiration("15M") == Success(900)
  {
    assert "15" + "M" == "15M";
    assert Decimal.Value("15") == 15;
    assert Lower("M") == "m" by { assert LowerChar('M') == 'm'; }
    assert UnitSeconds("m") == Some(60);
    ParseDigitsThenLetters("15", "M");
  }

  /** The default refresh lifetime: 30 days. */
  lemma ThirtyDaysExample()
    ensures ParseExpiration("30d") == Success(2592000)
  {
    assert "30" + "d" == "30d";
    assert Decimal.Value("30") == 30;
    assert Lower("d") == "d";
    assert UnitSeconds("d") == Some(86400);
    ParseDigitsThenLetters("30", "d");
  }

  /** Strings that are not digits followed by letters. */
  lemma InvalidFormatExamples()
    ensures ParseExpiration("abc") == Failure(InvalidFormat("abc"))
    ensures ParseExpiration("15") == Failure(InvalidFormat("15"))
    ensures ParseExpiration("1.5h") == Failure(InvalidFormat("1.5h"))
    ensures ParseExpiration("-5m") == Failure(InvalidFormat("-5m"))
  {
    assert LeadingDigits("abc") == 0;
    assert LeadingDigits("15") == 2 by {
      assert LeadingDigits("15"[1..]) == 1 by { assert "15"[1..][1..] == ""; }
    }
    assert LeadingDigits("1.5h") == 1 by { assert !Decimal.IsDigit("1.5h"[1..][0]); }
    assert !AllLetters("1.5h"[1..]) by { assert "1.5h"[1..][0] == '.'; }
    assert LeadingDigits("-5m") == 0;
  }

  /** A letter that is not a unit. */
  lemma UnknownUnitExample()
    ensures ParseExpiration("10x") == Failure(UnsupportedUnit("x"))
  {
    assert "10" + "x" == "10x";
    assert Lower("x") == "x";
    assert UnitSeconds("x") == None;
    ParseDigitsThenLetters("10", "x");
  }

  /** Milliseconds are not a supported unit: the whole letter group must be one unit letter. */
  lemma MillisecondUnitRejected()
    ensures MatchesFormat("10ms")
    ensures ParseExpiration("10ms") == Failure(UnsupportedUnit("ms"))
  {
    assert SplitsAt("10ms", 2);
    assert "10" + "ms" == "10ms";
    assert Lower("ms") == "ms";
    assert UnitSeconds("ms") == None;
    ParseDigitsThenLetters("10", "ms");
  }

  /** Weeks are rejected, not approximated, and the error names the lower-cased unit. */
  lemma WeeksRejected()
    ensures ParseExpiration("2W") == Failure(UnsupportedUnit("w"))
  {
    assert "2" + "W" == "2W";
    assert Lower("W") == "w" by { assert LowerChar('W') == 'w'; }
    assert UnitSeconds("w") == None;
    ParseDigitsThenLetters("2", "W");
  }
}
