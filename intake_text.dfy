/** Reading the number out of the free-text "Your Daily Intake" column:
    the regular expression `([\d\.]+)` takes the first maximal run of digits
    and dots, and the conversion to float then either succeeds or raises. */
module IntakeText {

  import opened Wrappers

  predicate IsDigit(c: char)
  {
    '0' <= c <= '9'
  }

  /** The character class `[\d\.]` of the extraction pattern. */
  predicate IsRunChar(c: char)
  {
    IsDigit(c) || c == '.'
  }

  predicate AllRunChars(s: string)
  {
    forall k :: 0 <= k < |s| ==> IsRunChar(s[k])
  }

  predicate AllDigits(s: string)
  {
    forall k :: 0 <= k < |s| ==> IsDigit(s[k])
  }

  predicate NoRunChar(s: string)
  {
    forall k :: 0 <= k < |s| ==> !IsRunChar(s[k])
  }

  /** `t` is the first maximal run of `[\d\.]` characters in `s`, and it starts at `i`. */
  ghost predicate FirstMaximalRun(s: string, i: nat, t: string)
  {
    && t != []
    && i + |t| <= |s|
    && s[i..i + |t|] == t
    && AllRunChars(t)
    && NoRunChar(s[..i])
    && (i + |t| == |s| || !IsRunChar(s[i + |t|]))
  }

  /** Index of the first run character at or after `from` (or `|s|`). */
  function RunStart(s: string, from: nat): (i: nat)
    requires from <= |s|
    ensures from <= i <= |s|
    ensures forall k :: from <= k < i ==> !IsRunChar(s[k])
    ensures i < |s| ==> IsRunChar(s[i])
    decreases |s| - from
  {
    if from == |s| || IsRunChar(s[from]) then from else RunStart(s, from + 1)
  }

  /** Index just past the run of run characters that starts at `i`. */
  function RunEnd(s: string, i: nat): (e: nat)
    requires i <= |s|
    ensures i <= e <= |s|
    ensures forall k :: i <= k < e ==> IsRunChar(s[k])
    ensures e < |s| ==> !IsRunChar(s[e])
    decreases |s| - i
  {
    if i == |s| || !IsRunChar(s[i]) then i else RunEnd(s, i + 1)
  }

  /** `str.extract(r"([\d\.]+)")` on one cell: the first match, or nothing. */
  function ExtractRun(s: string): (r: Option<string>)
    ensures r.None? <==> NoRunChar(s)
    ensures r.Some? ==> FirstMaximalRun(s, RunStart(s, 0), r.value)
  {
    var i := RunStart(s, 0);
    if i == |s| then None
    else
      var e := RunEnd(s, i);
      assert s[..i] == s[0..i];
      Some(s[i..e])
  }

  /** The first maximal run is unique, so it is exactly what is extracted. */
  lemma ExtractRunIsFirstMaximalRun(s: string, i: nat, t: string)
    requires FirstMaximalRun(s, i, t)
    ensures ExtractRun(s) == Some(t)
  {
    assert s[i..i + |t|][0] == s[i];
    var j := RunStart(s, 0);
    assert forall k :: 0 <= k < i ==> s[..i][k] == s[k];
    assert j == i;
    var e := RunEnd(s, i);
    assert forall k :: i <= k < i + |t| ==> s[i..i + |t|][k - i] == s[k];
    assert e == i + |t|;
  }

  function DigitValue(c: char): (d: nat)
    requires IsDigit(c)
    ensures d < 10
  {
    c as int - '0' as int
  }

  /** The value of a string of decimal digits, most significant first. */
  function DigitsValue(s: string): nat
    requires AllDigits(s)
  {
    if s == [] then 0 else 10 * DigitsValue(s[..|s| - 1]) + DigitValue(s[|s| - 1])
  }

  function Pow10(n: nat): (p: nat)
    ensures p >= 1
  {
    if n == 0 then 1 else 10 * Pow10(n - 1)
  }

  function CountDots(s: string): nat
  {
    if s == [] then 0 else (if s[0] == '.' then 1 else 0) + CountDots(s[1..])
  }

  /** Index of the first '.' in `s`, or `|s|` when there is none. */
  function DotIndex(s: string): (k: nat)
    ensures k <= |s|
    ensures forall j :: 0 <= j < k ==> s[j] != '.'
    ensures k < |s| ==> s[k] == '.'
  {
    if s == [] then 0 else if s[0] == '.' then 0 else 1 + DotIndex(s[1..])
  }

  /** A string that Python's `float` accepts when it holds only digits and dots:
      at least one digit and at most one dot. */
  ghost predicate IsDecimal(s: string)
  {
    && AllRunChars(s)
    && CountDots(s) <= 1
    && exists k :: 0 <= k < |s| && IsDigit(s[k])
  }

  /** Python's `float(s)` restricted to strings of digits and dots; `None` is the
      `ValueError` it raises on anything else ("." or "1.2.3", say). */
  function ParseDecimal(s: string): (r: Option<real>)
    ensures r.Some? <==> IsDecimal(s)
    ensures r.Some? ==> r.value >= 0.0
    ensures r.Some? && AllDigits(s) ==> r.value == DigitsValue(s) as real
  {
    var k := DotIndex(s);
    var whole := s[..k];
    var frac := if k < |s| then s[k + 1..] else [];
    assert k == |s| ==> whole == s;
    if !AllDigits(whole) || !AllDigits(frac) || (whole == [] && frac == []) then
      DecimalShape(s);
      None
    else
      DecimalShape(s);
      Some(DigitsValue(whole) as real + DigitsValue(frac) as real / Pow10(|frac|) as real)
  }

  /** `v` times the scale `p` is the whole number `n`. */
  ghost predicate ScalesTo(v: real, p: nat, n: nat)
  {
    v * p as real == n as real
  }

  /** With a dot at `k`, the parsed value scaled by ten to the number of digits
      after the dot is the value of the digits written without the dot. */
  lemma {:induction false} ParseDecimalScaled(s: string)
    requires ParseDecimal(s).Some? && DotIndex(s) < |s|
    ensures var k := DotIndex(s);
            var digits := s[..k] + s[k + 1..];
            && AllDigits(digits)
            && ScalesTo(ParseDecimal(s).value, Pow10(|s| - k - 1), DigitsValue(digits))
  {
    var k := DotIndex(s);
    var whole, frac := s[..k], s[k + 1..];
    DecimalShape(s);
    DigitsValueConcat(whole, frac);
    var v := ParseDecimal(s).value;
    var w, f, p, n := DigitsValue(whole), DigitsValue(frac), Pow10(|frac|), DigitsValue(whole + frac);
    assert v == w as real + f as real / p as real;
    ScaleBack(v, w, f, p, n);
    assert |frac| == |s| - k - 1;
  }

  /** Appending digits shifts the value left by their count. */
  lemma {:induction false} DigitsValueConcat(a: string, b: string)
    requires AllDigits(a) && AllDigits(b)
    ensures AllDigits(a + b)
    ensures DigitsValue(a + b) == DigitsValue(a) * Pow10(|b|) + DigitsValue(b)
  {
    if b != [] {
      var b' := b[..|b| - 1];
      assert (a + b)[..|a + b| - 1] == a + b';
      assert (a + b)[|a + b| - 1] == b[|b| - 1];
      DigitsValueConcat(a, b');
      ShiftDigit(DigitsValue(a), DigitsValue(b'), Pow10(|b'|), DigitValue(b[|b| - 1]));
    } else {
      assert a + b == a;
    }
  }

  lemma ShiftDigit(x: int, y: int, q: int, d: int)
    ensures 10 * (x * q + y) + d == x * (10 * q) + (10 * y + d)
  {
  }

  lemma ScaleBack(v: real, w: nat, f: nat, p: nat, n: nat)
    requires p >= 1 && v == w as real + f as real / p as real && n == w * p + f
    ensures ScalesTo(v, p, n)
  {
    RealScaleBack(w as real, f as real, p as real);
    CastMul(w, p);
  }

  lemma RealScaleBack(x: real, y: real, q: real)
    requires q > 0.0
    ensures (x + y / q) * q == x * q + y
  {
  }

  lemma CastMul(w: nat, p: nat)
    ensures (w * p) as real == w as real * p as real
  {
  }

  lemma CountDotsSplit(a: string, b: string)
    ensures CountDots(a + b) == CountDots(a) + CountDots(b)
  {
    if a == [] {
      assert a + b == b;
    } else {
      assert (a + b)[0] == a[0];
      assert (a + b)[1..] == a[1..] + b;
      CountDotsSplit(a[1..], b);
    }
  }

  lemma CountDotsOfDigits(s: string)
    requires AllDigits(s)
    ensures CountDots(s) == 0
  {
    if s != [] {
      CountDotsOfDigits(s[1..]);
    }
  }

  lemma CountDotsNoDot(s: string)
    requires forall j :: 0 <= j < |s| ==> s[j] != '.'
    ensures CountDots(s) == 0
  {
    if s != [] {
      CountDotsNoDot(s[1..]);
    }
  }

  lemma CountDotsPositive(s: string, j: nat)
    requires j < |s| && s[j] == '.'
    ensures CountDots(s) >= 1
  {
    if j > 0 {
      CountDotsPositive(s[1..], j - 1);
    }
  }

  /** The split at the first dot decides `IsDecimal`. */
  lemma DecimalShape(s: string)
    ensures var k := DotIndex(s);
            var whole := s[..k];
            var frac := if k < |s| then s[k + 1..] else [];
            IsDecimal(s) <==> AllDigits(whole) && AllDigits(frac) && !(whole == [] && frac == [])
  {
    var k := DotIndex(s);
    if k < |s| {
      DecimalShapeWithDot(s, k);
    } else {
      assert s[..k] == s;
      DecimalShapeNoDot(s);
    }
  }

  lemma DecimalShapeNoDot(s: string)
    requires forall j :: 0 <= j < |s| ==> s[j] != '.'
    ensures IsDecimal(s) <==> AllDigits(s) && s != []
  {
    CountDotsNoDot(s);
    if AllDigits(s) && s != [] {
      assert IsDigit(s[0]);
    }
  }

  lemma DecimalShapeWithDot(s: string, k: nat)
    requires k < |s| && s[k] == '.'
    requires forall j :: 0 <= j < k ==> s[j] != '.'
    ensures IsDecimal(s) <==> AllDigits(s[..k]) && AllDigits(s[k + 1..]) && !(k == 0 && k + 1 == |s|)
  {
    var whole, frac := s[..k], s[k + 1..];
    DotCountWithDot(s, k);
    if AllDigits(whole) && AllDigits(frac) && !(k == 0 && k + 1 == |s|) {
      CountDotsOfDigits(frac);
      forall j | 0 <= j < |s| ensures IsRunChar(s[j]) {
        if j < k {
          assert s[j] == whole[j];
        } else if j > k {
          assert s[j] == frac[j - k - 1];
        }
      }
      if k > 0 {
        assert IsDigit(s[0]);
      } else {
        assert IsDigit(s[1]);
      }
    }
    if IsDecimal(s) {
      DecimalWithDotParts(s, k);
    }
  }

  lemma DotCountWithDot(s: string, k: nat)
    requires k < |s| && s[k] == '.'
    requires forall j :: 0 <= j < k ==> s[j] != '.'
    ensures CountDots(s) == 1 + CountDots(s[k + 1..])
  {
    var whole, frac := s[..k], s[k + 1..];
    assert s == whole + ([s[k]] + frac);
    CountDotsSplit(whole, [s[k]] + frac);
    CountDotsSplit([s[k]], frac);
    CountDotsNoDot(whole);
  }

  lemma DecimalWithDotParts(s: string, k: nat)
    requires k < |s| && s[k] == '.'
    requires forall j :: 0 <= j < k ==> s[j] != '.'
    requires IsDecimal(s)
    ensures AllDigits(s[..k]) && AllDigits(s[k + 1..]) && !(k == 0 && k + 1 == |s|)
  {
    var frac := s[k + 1..];
    DotCountWithDot(s, k);
    forall j | 0 <= j < |frac| ensures IsDigit(frac[j]) {
      assert frac[j] == s[k + 1 + j];
      if frac[j] == '.' {
        CountDotsPositive(frac, j);
      }
    }
    forall j | 0 <= j < k ensures IsDigit(s[..k][j]) {
      assert s[..k][j] == s[j];
    }
    var d :| 0 <= d < |s| && IsDigit(s[d]);
    assert d != k;
  }

  /** The decimal spelling of a natural number. */
  function NatToString(n: nat): (s: string)
    ensures AllDigits(s) && s != []
  {
    if n < 10 then [('0' as int + n) as char]
    else NatToString(n / 10) + [('0' as int + n % 10) as char]
  }

  lemma {:induction false} DigitsValueOfNatToString(n: nat)
    ensures DigitsValue(NatToString(n)) == n
  {
    if n >= 10 {
      var s := NatToString(n);
      assert s[..|s| - 1] == NatToString(n / 10);
      DigitsValueOfNatToString(n / 10);
    }
  }

  /** Parsing the decimal spelling of a number gives the number back. */
  lemma ParseNatToString(n: nat)
    ensures ParseDecimal(NatToString(n)) == Some(n as real)
  {
    var s := NatToString(n);
    DigitsValueOfNatToString(n);
    assert IsDigit(s[0]);
    CountDotsOfDigits(s);
  }

  /** One cell of the "Daily Intake (Value)" column: `Ok(None)` is NaN (no run
      found), `Ok(Some(v))` a parsed number, `Err(run)` the `ValueError` raised
      when the run found is not a number. */
  function IntakeValue(text: string): (r: Result<Option<real>, string>)
    ensures r.Ok? <==> ExtractRun(text).None? || IsDecimal(ExtractRun(text).value)
    ensures r.Err? ==> r.error == ExtractRun(text).value
  {
    match ExtractRun(text)
    case None => Ok(None)
    case Some(run) =>
      match ParseDecimal(run)
      case None => Err(run)
      case Some(v) => Ok(Some(v))
  }

  /** A cell is missing exactly when its text has no digit or dot (never 0);
      otherwise it is the conversion of the first maximal run, or the error
      naming that run when the run is not a number. */
  lemma IntakeValueMeaning(text: string)
    ensures IntakeValue(text) == Ok(None) <==> NoRunChar(text)
    ensures IntakeValue(text).Ok? && IntakeValue(text).value.Some? ==>
              exists i: nat, t: string :: FirstMaximalRun(text, i, t) && ParseDecimal(t) == IntakeValue(text).value
    ensures IntakeValue(text).Err? ==>
              exists i: nat :: FirstMaximalRun(text, i, IntakeValue(text).error) && !IsDecimal(IntakeValue(text).error)
  {
    var i := RunStart(text, 0);
    match ExtractRun(text)
    case None =>
    case Some(run) =>
      assert FirstMaximalRun(text, i, run);
  }

  /** `df["Your Daily Intake"].str.extract(r"([\d\.]+)").astype(float)`: the
      conversion raises on the first cell, in row order, whose run is not a number. */
  function ExtractColumn(texts: seq<string>): (r: Result<seq<Option<real>>, string>)
    ensures r.Ok? <==> forall i :: 0 <= i < |texts| ==> IntakeValue(texts[i]).Ok?
    ensures r.Ok? ==>
              && |r.value| == |texts|
              && forall i :: 0 <= i < |texts| ==> IntakeValue(texts[i]) == Ok(r.value[i])
  {
    if texts == [] then Ok([])
    else
      match IntakeValue(texts[0])
      case Err(run) => Err(run)
      case Ok(v) =>
        match ExtractColumn(texts[1..])
        case Err(run) => Err(run)
        case Ok(vs) => Ok([v] + vs)
  }

  /** A failed conversion reports the run of the first failing row. */
  lemma {:induction false} ExtractColumnFirstError(texts: seq<string>)
    requires ExtractColumn(texts).Err?
    ensures exists i :: && 0 <= i < |texts|
                        && IntakeValue(texts[i]) == Err(ExtractColumn(texts).error)
                        && forall j :: 0 <= j < i ==> IntakeValue(texts[j]).Ok?
  {
    if IntakeValue(texts[0]).Ok? {
      ExtractColumnFirstError(texts[1..]);
      var i :| && 0 <= i < |texts[1..]|
               && IntakeValue(texts[1..][i]) == Err(ExtractColumn(texts[1..]).error)
               && forall j :: 0 <= j < i ==> IntakeValue(texts[1..][j]).Ok?;
      assert forall j :: 0 <= j < i + 1 ==> IntakeValue(texts[j]).Ok? by {
        forall j | 0 <= j < i + 1 ensures IntakeValue(texts[j]).Ok? {
          if j > 0 {
            assert texts[j] == texts[1..][j - 1];
          }
        }
      }
      assert IntakeValue(texts[i + 1]) == Err(ExtractColumn(texts).error);
    } else {
      assert IntakeValue(texts[0]) == Err(ExtractColumn(texts).error);
    }
  }

  /** Worked cases: "300g depending on activity level" reads 300, text without a
      digit reads as missing (never 0), and a stray dot makes the conversion fail. */
  lemma IntakeValueLeadingNumber()
    ensures IntakeValue("300g depending on activity level") == Ok(Some(300.0))
  {
    var text := "300g depending on activity level";
    assert text[..0] == [] && text[0..3] == "300" && !IsRunChar(text[3]);
    ExtractRunIsFirstMaximalRun(text, 0, "300");
    assert DigitsValue("300") == 300 by {
      assert "300"[..2] == "30" && "30"[..1] == "3" && "3"[..0] == "";
    }
    CountDotsOfDigits("300");
    assert IsDigit("300"[0]);
  }

  lemma IntakeValueNoDigits()
    ensures IntakeValue("approx protein") == Ok(None)
  {
    var text := "approx protein";
    assert NoRunChar(text) by {
      forall k | 0 <= k < |text| ensures !IsRunChar(text[k]) {
      }
    }
  }

  lemma IntakeValueStrayDot()
    ensures IntakeValue("approx. 300") == Err(".")
  {
    var text := "approx. 300";
    assert RunStart(text, 0) == 6;
    assert RunEnd(text, 6) == 7;
    assert text[6..7] == ".";
    assert ExtractRun(text) == Some(".");
    assert ParseDecimal(".").None?;
  }

  /** `float` accepts a leading or a trailing dot. */
  lemma ParseDecimalAccepts()
    ensures ParseDecimal("2.5") == Some(2.5)
    ensures ParseDecimal(".5") == Some(0.5)
    ensures ParseDecimal("7.") == Some(7.0)
  {
    ParseDecimalSplit("2.5", 1);
    ParseDecimalSplit(".5", 0);
    ParseDecimalSplit("7.", 1);
  }

  /** Helper for the worked cases: the split at the dot at `k`. */
  lemma ParseDecimalSplit(s: string, k: nat)
    requires k < |s| && s[k] == '.'
    requires forall j :: 0 <= j < k ==> s[j] != '.'
    ensures DotIndex(s) == k
  {
  }

  /** `float` rejects a lone dot and a second dot. */
  lemma ParseDecimalRejects()
    ensures ParseDecimal(".") == None
    ensures ParseDecimal("1.2.3") == None
  {
    assert "1.2.3"[2..] == "2.3";
  }
}
