/**
 * The money parser: `parseMoney` and its regular expression
 * `^([-])?[^\d]*(\d+)(?:[.](\d+))?$` (main.go:352-371).
 *
 * Amounts are signed counts of thousandths of a currency unit. The regular
 * expression is written out as a hand-made matcher, `MatchMoney`, and proved
 * equal to the language of the expression (`MoneyShape`) with Go's
 * leftmost-first choice for the optional sign group.
 */
module Money {
  import opened Wrappers

  const MinInt64: int := -0x8000_0000_0000_0000
  const MaxInt64: int := 0x7FFF_FFFF_FFFF_FFFF

  predicate InInt64(v: int) { MinInt64 <= v <= MaxInt64 }

  /** Why parseMoney failed: the text does not match the regular expression,
      or strconv.ParseInt rejected the digit string (syntax or range). */
  datatype MoneyError = NoMatch | Syntax | OutOfRange

  /** `\d` in Go's regular expressions is the ASCII digits only. */
  predicate IsDigit(c: char) { '0' <= c <= '9' }

  predicate AllDigits(s: string) { forall i :: 0 <= i < |s| ==> IsDigit(s[i]) }

  predicate NoDigits(s: string) { forall i :: 0 <= i < |s| ==> !IsDigit(s[i]) }

  /** The value of a decimal digit string, most significant digit first. */
  function DigitsValue(s: string): nat
    requires AllDigits(s)
  {
    if s == [] then 0 else DigitsValue(s[..|s| - 1]) * 10 + (s[|s| - 1] as int - '0' as int)
  }

  function Pow10(n: nat): nat
  {
    if n == 0 then 1 else 10 * Pow10(n - 1)
  }

  lemma {:induction false} DigitsValueAppend(a: string, b: string)
    requires AllDigits(a) && AllDigits(b)
    ensures AllDigits(a + b)
    ensures DigitsValue(a + b) == DigitsValue(a) * Pow10(|b|) + DigitsValue(b)
    decreases |b|
  {
    if b != [] {
      var b' := b[..|b| - 1];
      assert (a + b)[..|a + b| - 1] == a + b';
      DigitsValueAppend(a, b');
      var d := b[|b| - 1] as int - '0' as int;
      assert b[..|b| - 1] == b';
      ShiftDigit(DigitsValue(a), Pow10(|b'|), DigitsValue(b'), d);
    } else {
      assert a + b == a;
    }
  }

  lemma ShiftDigit(x: int, p: int, y: int, d: int)
    ensures (x * p + y) * 10 + d == x * (10 * p) + (y * 10 + d)
  {
  }

  /** A run of `k` zero digits is worth nothing. */
  lemma {:induction false} ZerosValue(k: nat)
    ensures AllDigits(Zeros(k)) && DigitsValue(Zeros(k)) == 0
  {
    if k > 0 {
      ZerosValue(k - 1);
      assert Zeros(k)[..k - 1] == Zeros(k - 1);
    }
  }

  function Zeros(k: nat): string
  {
    seq(k, _ => '0')
  }

  /* ---------------------------------------------------------------------
   * The regular expression, as a language and as a matcher
   * ------------------------------------------------------------------- */

  /** The three capture groups of the expression: the optional `-`, the
      integer digit run and the fraction digits ("" when absent). */
  datatype Groups = Groups(sign: string, whole: string, fraction: string)

  /** `s` is in the language of the expression, split into the three groups
      and the run of non-digit symbols matched by `[^\d]*`. */
  ghost predicate MoneyShape(s: string, g: Groups, symbols: string)
  {
    && (g.sign == "" || g.sign == "-")
    && NoDigits(symbols)
    && |g.whole| > 0 && AllDigits(g.whole)
    && AllDigits(g.fraction)
    && s == g.sign + symbols + g.whole + (if g.fraction == "" then "" else "." + g.fraction)
  }

  /** Index of the first digit at or after `i`, or `|s|` when there is none. */
  function FirstDigit(s: string, i: nat): (k: nat)
    requires i <= |s|
    ensures i <= k <= |s|
    ensures forall j :: i <= j < k ==> !IsDigit(s[j])
    ensures k < |s| ==> IsDigit(s[k])
    decreases |s| - i
  {
    if i == |s| || IsDigit(s[i]) then i else FirstDigit(s, i + 1)
  }

  /** End of the run of digits that starts at `i`. */
  function DigitRunEnd(s: string, i: nat): (k: nat)
    requires i <= |s|
    ensures i <= k <= |s|
    ensures forall j :: i <= j < k ==> IsDigit(s[j])
    ensures k < |s| ==> !IsDigit(s[k])
    decreases |s| - i
  {
    if i == |s| || !IsDigit(s[i]) then i else DigitRunEnd(s, i + 1)
  }

  /** `moneyRE.FindStringSubmatch`: the capture groups, or None when the text
      does not match. `[^\d]*` must stop at the first digit and `(\d+)` takes
      the whole digit run, so the only freedom is the sign group, which Go's
      leftmost-first rule fills whenever the text starts with `-`. */
  function MatchMoney(s: string): (r: Option<Groups>)
    ensures r.Some? ==>
      && |s| > 0 && r.value.sign == (if s[0] == '-' then "-" else "")
      && |r.value.whole| > 0 && AllDigits(r.value.whole)
      && AllDigits(r.value.fraction)
  {
    var sign := if |s| > 0 && s[0] == '-' then "-" else "";
    var i := FirstDigit(s, 0);
    var j := DigitRunEnd(s, i);
    if i == |s| then None
    else if j == |s| then Some(Groups(sign, s[i..j], ""))
    else if s[j] == '.' && j + 1 < |s| && AllDigits(s[j + 1..]) then Some(Groups(sign, s[i..j], s[j + 1..]))
    else None
  }

  /** Every match is a word of the language, with the sign group filled
      exactly when the text starts with `-`. */
  lemma MatchSound(s: string)
    requires MatchMoney(s).Some?
    ensures var g := MatchMoney(s).value;
      && (g.sign == "-" <==> |s| > 0 && s[0] == '-')
      && exists symbols :: MoneyShape(s, g, symbols)
  {
    var sign := if |s| > 0 && s[0] == '-' then "-" else "";
    var i := FirstDigit(s, 0);
    var j := DigitRunEnd(s, i);
    var fraction := if j == |s| then "" else s[j + 1..];
    assert MatchMoney(s) == Some(Groups(sign, s[i..j], fraction));
    assert |sign| <= i;
    PartsShape(s, sign, i, j, fraction);
  }

  /** The pieces the matcher cuts out of `s` form a word of the language. */
  lemma PartsShape(s: string, sign: string, i: nat, j: nat, fraction: string)
    requires (sign == "" || sign == "-") && |sign| <= i < j <= |s|
    requires s[..|sign|] == sign
    requires forall k :: 0 <= k < i ==> !IsDigit(s[k])
    requires forall k :: i <= k < j ==> IsDigit(s[k])
    requires j == |s| ==> fraction == ""
    requires j < |s| ==> s[j] == '.' && j + 1 < |s| && fraction == s[j + 1..] && AllDigits(fraction)
    ensures MoneyShape(s, Groups(sign, s[i..j], fraction), s[|sign|..i])
  {
    var n := |sign|;
    var tail := s[j..];
    assert tail == if fraction == "" then "" else "." + fraction by {
      if j < |s| {
        assert tail == [s[j]] + s[j + 1..];
      }
    }
    var symbols := s[n..i];
    assert NoDigits(symbols) by {
      forall k | 0 <= k < |symbols| ensures !IsDigit(symbols[k]) {
        assert symbols[k] == s[n + k];
      }
    }
    assert AllDigits(s[i..j]) by {
      forall k | 0 <= k < j - i ensures IsDigit(s[i..j][k]) {
        assert s[i..j][k] == s[i + k];
      }
    }
    SplitThree(s, n, i, j);
    ShapeOfParts(s, Groups(sign, s[i..j], fraction), symbols, tail);
  }

  lemma ShapeOfParts(s: string, g: Groups, symbols: string, tail: string)
    requires (g.sign == "" || g.sign == "-") && NoDigits(symbols)
    requires |g.whole| > 0 && AllDigits(g.whole) && AllDigits(g.fraction)
    requires tail == if g.fraction == "" then "" else "." + g.fraction
    requires s == g.sign + symbols + g.whole + tail
    ensures MoneyShape(s, g, symbols)
  {
  }

  lemma SplitThree(s: string, n: nat, i: nat, j: nat)
    requires n <= i <= j <= |s|
    ensures s == s[..n] + s[n..i] + s[i..j] + s[j..]
  {
    assert s[..j] == s[..n] + s[n..i] + s[i..j];
    assert s == s[..j] + s[j..];
  }

  /** Every word of the language is matched, with the same digit groups: the
      matcher finds all there is to find. */
  lemma MatchComplete(s: string, g: Groups, symbols: string)
    requires MoneyShape(s, g, symbols)
    ensures MatchMoney(s) == Some(Groups(if s[0] == '-' then "-" else "", g.whole, g.fraction))
  {
    var prefix := g.sign + symbols;
    var n := |prefix|;
    var m := n + |g.whole|;
    var tail := if g.fraction == "" then "" else "." + g.fraction;
    assert s == prefix + g.whole + tail;
    assert forall k :: 0 <= k < n ==> s[k] == prefix[k];
    assert forall k :: n <= k < m ==> s[k] == g.whole[k - n];
    assert NoDigits(prefix) by {
      forall k | 0 <= k < n ensures !IsDigit(prefix[k]) {
        if k >= |g.sign| { assert prefix[k] == symbols[k - |g.sign|]; }
      }
    }
    assert IsDigit(s[n]);
    var i := FirstDigit(s, 0);
    assert i == n;
    var j := DigitRunEnd(s, i);
    assert m == |s| || s[m] == '.';
    assert j == m;
    assert s[i..j] == g.whole;
    if g.fraction != "" {
      assert s[j + 1..] == g.fraction;
    }
  }

  /** Whatever matches ends in a digit, so a trailing `.` or any trailing
      non-digit is refused. */
  lemma MatchEndsInDigit(s: string)
    requires MatchMoney(s).Some?
    ensures |s| > 0 && IsDigit(s[|s| - 1])
  {
    var i := FirstDigit(s, 0);
    var j := DigitRunEnd(s, i);
    assert j > i;
  }

  /* ---------------------------------------------------------------------
   * strconv.ParseInt and parseMoney
   * ------------------------------------------------------------------- */

  /** `str` is an optional sign followed by one or more decimal digits, the
      syntax strconv.ParseInt accepts in base 10. */
  predicate SignedDigits(str: string)
  {
    && |str| > 0
    && var digits := if str[0] == '-' || str[0] == '+' then str[1..] else str;
      |digits| > 0 && AllDigits(digits)
  }

  /** `strconv.ParseInt(str, 10, 0)` on a 64-bit platform: an optional sign,
      one or more decimal digits, and a value inside the int64 range. */
  function ParseInt64(str: string): (r: Result<int, MoneyError>)
    ensures r == Err(Syntax) <==> !SignedDigits(str)
    ensures r.Ok? ==> InInt64(r.value)
    ensures r != Err(NoMatch)
  {
    var digits := if |str| > 0 && (str[0] == '-' || str[0] == '+') then str[1..] else str;
    if digits == [] || !AllDigits(digits) then Err(Syntax)
    else
      var v: int := if str[0] == '-' then -(DigitsValue(digits) as int) else DigitsValue(digits);
      if InInt64(v) then Ok(v) else Err(OutOfRange)
  }

  /** On the strings parseMoney builds (an optional `-` and digits), ParseInt
      reads the signed decimal value and refuses it only when it leaves the
      int64 range. */
  lemma ParseInt64Signed(sign: string, digits: string)
    requires sign == "" || sign == "-"
    requires |digits| > 0 && AllDigits(digits)
    ensures var v := if sign == "-" then -(DigitsValue(digits) as int) else DigitsValue(digits);
      ParseInt64(sign + digits) == if InInt64(v) then Ok(v) else Err(OutOfRange)
  {
    if sign == "-" {
      ParseInt64Negative(digits);
    } else {
      assert sign + digits == digits;
      ParseInt64Unsigned(digits);
    }
  }

  lemma ParseInt64Unsigned(digits: string)
    requires |digits| > 0 && AllDigits(digits)
    ensures ParseInt64(digits) == if InInt64(DigitsValue(digits)) then Ok(DigitsValue(digits)) else Err(OutOfRange)
  {
    assert IsDigit(digits[0]);
  }

  lemma ParseInt64Negative(digits: string)
    requires |digits| > 0 && AllDigits(digits)
    ensures var v := -(DigitsValue(digits) as int);
      ParseInt64("-" + digits) == if InInt64(v) then Ok(v) else Err(OutOfRange)
  {
    var str := "-" + digits;
    assert str[0] == '-' && str[1..] == digits;
  }

  /** Go's `a * -1` on int64: two's-complement negation, under which only the
      minimum value has no opposite and maps to itself. */
  function Neg64(a: int): (r: int)
    ensures InInt64(a) ==> InInt64(r) && (a + r) % 0x1_0000_0000_0000_0000 == 0
    ensures InInt64(a) ==> (r == a <==> a == 0 || a == MinInt64)
  {
    if a == MinInt64 then MinInt64 else -a
  }

  /** `(m[3] + "000")[:3]`: the fraction right-padded with zeros and cut to
      exactly three digits, without rounding. */
  function Pad3(f: string): string
  {
    (f + "000")[..3]
  }

  /** parseMoney (main.go:354-368). */
  function ParseMoney(amount: string, invert: bool): (r: Result<int, MoneyError>)
    ensures r == Err(NoMatch) <==> MatchMoney(amount).None?
    ensures r != Err(Syntax)
    ensures r.Ok? ==> InInt64(r.value)
  {
    match MatchMoney(amount)
    case None => Err(NoMatch)
    case Some(g) =>
      GroupsParse(g);
      match ParseInt64(g.sign + g.whole + Pad3(g.fraction))
      case Err(e) => Err(e)
      case Ok(a) => Ok(if invert then Neg64(a) else a)
  }

  /** The amount the groups denote, in thousandths: integer digits times 1000
      plus the first three fraction digits, negated by a leading `-`. */
  function GroupsValue(g: Groups): int
    requires AllDigits(g.whole) && AllDigits(g.fraction)
  {
    var magnitude := DigitsValue(g.whole) * 1000 + DigitsValue(Pad3(g.fraction));
    if g.sign == "-" then -magnitude else magnitude
  }

  /** The fraction contributes its first three digits, zero-padded: ".1" is
      100, ".12" is 120 and ".1239" is 123. */
  lemma Pad3Value(f: string)
    requires AllDigits(f)
    ensures |Pad3(f)| == 3 && AllDigits(Pad3(f))
    ensures DigitsValue(Pad3(f)) == if |f| >= 3 then DigitsValue(f[..3]) else DigitsValue(f) * Pow10(3 - |f|)
  {
    if |f| >= 3 {
      assert Pad3(f) == f[..3];
    } else {
      var zeros := Zeros(3 - |f|);
      assert Pad3(f) == f + zeros;
      ZerosValue(3 - |f|);
      DigitsValueAppend(f, zeros);
    }
  }

  /** The digit string parseMoney hands to ParseInt denotes the value of the
      groups, and ParseInt refuses it exactly when that leaves int64. */
  lemma GroupsParse(g: Groups)
    requires g.sign == "" || g.sign == "-"
    requires |g.whole| > 0 && AllDigits(g.whole) && AllDigits(g.fraction)
    ensures var v := GroupsValue(g);
      ParseInt64(g.sign + g.whole + Pad3(g.fraction)) == if InInt64(v) then Ok(v) else Err(OutOfRange)
  {
    var pad := Pad3(g.fraction);
    Pad3Value(g.fraction);
    DigitsValueAppend(g.whole, pad);
    assert DigitsValue(g.whole + pad) == DigitsValue(g.whole) * 1000 + DigitsValue(pad);
    ParseInt64Signed(g.sign, g.whole + pad);
    assert g.sign + g.whole + pad == g.sign + (g.whole + pad);
  }

  /** What parseMoney returns on a match: the value of the groups, or a range
      error when it does not fit in int64; `invert` applies int64 negation. */
  lemma ParseMoneyValue(amount: string, invert: bool)
    requires MatchMoney(amount).Some?
    ensures var g := MatchMoney(amount).value;
      && AllDigits(g.whole) && AllDigits(g.fraction)
      && var v := GroupsValue(g);
         ParseMoney(amount, invert) == if !InInt64(v) then Err(OutOfRange) else if invert then Ok(Neg64(v)) else Ok(v)
  {
    MatchSound(amount);
    var g := MatchMoney(amount).value;
    var symbols :| MoneyShape(amount, g, symbols);
    GroupsParse(g);
  }

  /** `invert` negates: with invert the result is the int64 negation of the
      result without it, and both fail together. */
  lemma InvertNegates(amount: string)
    ensures ParseMoney(amount, true).Ok? <==> ParseMoney(amount, false).Ok?
    ensures ParseMoney(amount, false).Ok? ==> ParseMoney(amount, true).value == Neg64(ParseMoney(amount, false).value)
    ensures ParseMoney(amount, false).Ok? && ParseMoney(amount, false).value != MinInt64 ==>
      ParseMoney(amount, true).value == -ParseMoney(amount, false).value
  {
  }

  /** Failure cases: no digit at all, or text after the digits that is not a
      `.` followed by digits up to the end. */
  lemma NoDigitNoMatch(amount: string, invert: bool)
    requires NoDigits(amount)
    ensures ParseMoney(amount, invert) == Err(NoMatch)
  {
  }

  lemma TrailingNonDigitNoMatch(amount: string, invert: bool)
    requires |amount| > 0 && !IsDigit(amount[|amount| - 1])
    ensures ParseMoney(amount, invert) == Err(NoMatch)
  {
    if MatchMoney(amount).Some? {
      MatchEndsInDigit(amount);
    }
  }

  /** A match whose value leaves the int64 range is a range error. */
  lemma OverflowFails(amount: string, invert: bool)
    requires MatchMoney(amount).Some?
    requires var g := MatchMoney(amount).value; AllDigits(g.whole) && AllDigits(g.fraction) && !InInt64(GroupsValue(g))
    ensures ParseMoney(amount, invert) == Err(OutOfRange)
  {
    ParseMoneyValue(amount, invert);
  }

  /* ---------------------------------------------------------------------
   * Formatting back: the parser inverts the natural money format
   * ------------------------------------------------------------------- */

  function Digit(n: nat): char
    requires n < 10
  {
    ('0' as int + n) as char
  }

  /** Decimal digits of `n`, no leading zeros. */
  function NatDigits(n: nat): (d: string)
    ensures |d| > 0 && AllDigits(d) && DigitsValue(d) == n
  {
    if n < 10 then [Digit(n)]
    else
      var d := NatDigits(n / 10) + [Digit(n % 10)];
      assert d[..|d| - 1] == NatDigits(n / 10);
      d
  }

  /** Exactly three digits for `n < 1000`, zero-padded on the left. */
  function ThreeDigits(n: nat): (d: string)
    requires n < 1000
    ensures |d| == 3 && AllDigits(d) && DigitsValue(d) == n
  {
    var q, r := n / 100, n % 100;
    var t, u := r / 10, r % 10;
    assert n == q * 100 + t * 10 + u;
    var d := [Digit(q), Digit(t), Digit(u)];
    assert d[..2] == [Digit(q), Digit(t)];
    assert d[..2][..1] == [Digit(q)];
    assert DigitsValue([Digit(q)]) == q;
    d
  }

  /** An amount in the exporter's style: optional `-`, `$`, units, `.` and
      three fraction digits. */
  function FormatMoney(v: int): string
  {
    var a := if v < 0 then -v else v;
    (if v < 0 then "-" else "") + "$" + NatDigits(a / 1000) + "." + ThreeDigits(a % 1000)
  }

  /** Parsing a formatted amount without inversion gives the amount back. */
  lemma ParseFormatRoundTrip(v: int)
    requires InInt64(v)
    ensures ParseMoney(FormatMoney(v), false) == Ok(v)
  {
    var a := if v < 0 then -v else v;
    var sign := if v < 0 then "-" else "";
    var g := Groups(sign, NatDigits(a / 1000), ThreeDigits(a % 1000));
    var s := FormatMoney(v);
    assert s == g.sign + "$" + g.whole + "." + g.fraction;
    assert NoDigits("$");
    assert MoneyShape(s, g, "$");
    MatchComplete(s, g, "$");
    assert s[0] == '-' <==> v < 0;
    assert MatchMoney(s) == Some(g);
    ParseMoneyValue(s, false);
    assert Pad3(g.fraction) == g.fraction;
    assert GroupsValue(g) == v;
  }

  /** The one amount `invert` cannot negate: the int64 minimum parses without
      inversion, and `a * -1` wraps it back to itself. */
  lemma InvertWrapsAtMinimum()
    ensures ParseMoney(FormatMoney(MinInt64), false) == Ok(MinInt64)
    ensures ParseMoney(FormatMoney(MinInt64), true) == Ok(MinInt64)
  {
    ParseFormatRoundTrip(MinInt64);
    InvertNegates(FormatMoney(MinInt64));
  }

  /* ---------------------------------------------------------------------
   * Worked examples
   * ------------------------------------------------------------------- */

  /** Parsing a word of the language with the given groups. */
  lemma ExampleAt(s: string, sign: string, symbols: string, whole: string, fraction: string)
    requires MoneyShape(s, Groups(sign, whole, fraction), symbols)
    requires sign == "-" <==> s[0] == '-'
    ensures var v := GroupsValue(Groups(sign, whole, fraction));
      && ParseMoney(s, false) == (if InInt64(v) then Ok(v) else Err(OutOfRange))
      && ParseMoney(s, true) == (if InInt64(v) then Ok(Neg64(v)) else Err(OutOfRange))
  {
    MatchComplete(s, Groups(sign, whole, fraction), symbols);
    ParseMoneyValue(s, false);
    ParseMoneyValue(s, true);
  }

  /** "$12.34" is 12340 and -12340 inverted. */
  lemma ExampleCents()
    ensures ParseMoney("$12.34", false) == Ok(12340)
    ensures ParseMoney("$12.34", true) == Ok(-12340)
  {
    var g := Groups("", "12", "34");
    assert GroupsValue(g) == 12340 by {
      assert Pad3("34") == "340";
      assert DigitsValue("12") == 12 by { assert "12"[..1] == "1"; }
      assert DigitsValue("340") == 340 by { assert "340"[..2] == "34"; assert "34"[..1] == "3"; }
    }
    assert MoneyShape("$12.34", g, "$") by { assert "$12.34" == "" + "$" + "12" + "." + "34"; }
    ExampleAt("$12.34", "", "$", "12", "34");
  }

  /** "$0.1" is 100: a short fraction is padded, not read as 1. */
  lemma ExampleTenths()
    ensures ParseMoney("$0.1", false) == Ok(100)
  {
    var g := Groups("", "0", "1");
    assert GroupsValue(g) == 100 by {
      assert Pad3("1") == "100";
      assert DigitsValue("100") == 100 by { assert "100"[..2] == "10"; assert "10"[..1] == "1"; assert "1"[..0] == ""; assert DigitsValue("1") == 1; assert DigitsValue("10") == 10; }
    }
    assert MoneyShape("$0.1", g, "$") by { assert "$0.1" == "" + "$" + "0" + "." + "1"; }
    ExampleAt("$0.1", "", "$", "0", "1");
  }

  /** Five units are 5000 thousandths, with or without a sign. */
  lemma FiveUnits(sign: string)
    requires sign == "" || sign == "-"
    ensures GroupsValue(Groups(sign, "5", "")) == if sign == "-" then -5000 else 5000
  {
    assert Pad3("") == "000";
    assert DigitsValue("000") == 0 by { ZerosValue(3); assert Zeros(3) == "000"; }
    assert DigitsValue("5") == 5 by { assert "5"[..0] == ""; }
  }

  /** A leading `-` negates: "-$5" is -5000. */
  lemma ExampleLeadingMinus()
    ensures ParseMoney("-$5", false) == Ok(-5000)
  {
    FiveUnits("-");
    assert MoneyShape("-$5", Groups("-", "5", ""), "$") by { assert "-$5" == "-" + "$" + "5" + ""; }
    ExampleAt("-$5", "-", "$", "5", "");
  }

  /** Only the first `-` is the sign; a second one is a symbol: "--5" is
      -5000, and 5000 inverted. */
  lemma ExampleDoubleMinus()
    ensures ParseMoney("--5", false) == Ok(-5000)
    ensures ParseMoney("--5", true) == Ok(5000)
  {
    FiveUnits("-");
    assert MoneyShape("--5", Groups("-", "5", ""), "-") by { assert "--5" == "-" + "-" + "5" + ""; }
    ExampleAt("--5", "-", "-", "5", "");
  }

  /** A `-` after the first character is swallowed by `[^\d]*`: "$-5" is 5000. */
  lemma ExampleInnerMinus()
    ensures ParseMoney("$-5", false) == Ok(5000)
  {
    FiveUnits("");
    assert MoneyShape("$-5", Groups("", "5", ""), "$-") by { assert "$-5" == "" + "$-" + "5" + ""; }
    ExampleAt("$-5", "", "$-", "5", "");
  }

  /** "$12." and "$1.2.3" do not match: a `.` needs digits after it and
      nothing may follow the fraction. */
  lemma ExampleMalformed()
    ensures ParseMoney("$12.", false) == Err(NoMatch)
    ensures ParseMoney("$1.2.3", false) == Err(NoMatch)
  {
    assert !IsDigit("$12."[3]);
    TrailingNonDigitNoMatch("$12.", false);
    var s := "$1.2.3";
    assert FirstDigit(s, 0) == 1 by { assert IsDigit(s[1]) && !IsDigit(s[0]); }
    assert DigitRunEnd(s, 1) == 2 by { assert !IsDigit(s[2]); }
    assert s[3..] == "2.3" && !IsDigit(s[4]);
  }
}
