/** get_urdu_or_arabic_numeric of `UtilsLib/utility.py`: a number written with the
  * digits of another script, one digit at a time through a digit table. */
module Numerals {
  import opened Json

  /** NUMERIC_ENGLISH_TO_ARABIC_MAPPING. */
  const ArabicDigits: map<string, string> := map[
    "0" := "٠", "1" := "١", "2" := "٢", "3" := "٣", "4" := "٤",
    "5" := "٥", "6" := "٦", "7" := "٧", "8" := "٨", "9" := "٩"]

  /** NUMERIC_ENGLISH_TO_URDU_MAPPING. */
  const UrduDigits: map<string, string> := map[
    "0" := "۰", "1" := "۱", "2" := "۲", "3" := "۳", "4" := "۴",
    "5" := "۵", "6" := "۶", "7" := "۷", "8" := "۸", "9" := "۹"]

  /** A digit table: every decimal digit has a one-character symbol, and no two digits
    * share one. */
  predicate DigitTable(m: map<string, string>) {
    (forall c | '0' <= c <= '9' :: [c] in m && |m[[c]]| == 1) &&
    (forall c, c' | '0' <= c <= '9' && '0' <= c' <= '9' && [c] in m && [c'] in m ::
      m[[c]] == m[[c']] ==> c == c')
  }

  /** The symbols of a table run consecutively from the code point `zero`. */
  predicate ConsecutiveFrom(m: map<string, string>, zero: int) {
    0 <= zero && zero + 9 < 0xD800 &&
    forall c | '0' <= c <= '9' :: [c] in m && m[[c]] == [(zero + (c as int - '0' as int)) as char]
  }

  lemma ConsecutiveIsTable(m: map<string, string>, zero: int)
    requires ConsecutiveFrom(m, zero)
    ensures DigitTable(m)
  {
    forall c | '0' <= c <= '9' ensures [c] in m && |m[[c]]| == 1 {
      assert m[[c]] == [(zero + (c as int - '0' as int)) as char];
    }
    forall c, c' | '0' <= c <= '9' && '0' <= c' <= '9' && m[[c]] == m[[c']]
      ensures c == c'
    {
      assert m[[c]] == [(zero + (c as int - '0' as int)) as char];
      assert m[[c']] == [(zero + (c' as int - '0' as int)) as char];
    }
  }

  lemma ArabicSymbol(c: char)
    requires '0' <= c <= '9'
    ensures [c] in ArabicDigits && ArabicDigits[[c]] == [(0x0660 + (c as int - '0' as int)) as char]
  {
    if c == '0' { assert [c] == "0"; }
    else if c == '1' { assert [c] == "1"; }
    else if c == '2' { assert [c] == "2"; }
    else if c == '3' { assert [c] == "3"; }
    else if c == '4' { assert [c] == "4"; }
    else if c == '5' { assert [c] == "5"; }
    else if c == '6' { assert [c] == "6"; }
    else if c == '7' { assert [c] == "7"; }
    else if c == '8' { assert [c] == "8"; }
    else { assert c == '9'; assert [c] == "9"; }
  }

  lemma UrduSymbol(c: char)
    requires '0' <= c <= '9'
    ensures [c] in UrduDigits && UrduDigits[[c]] == [(0x06F0 + (c as int - '0' as int)) as char]
  {
    if c == '0' { assert [c] == "0"; }
    else if c == '1' { assert [c] == "1"; }
    else if c == '2' { assert [c] == "2"; }
    else if c == '3' { assert [c] == "3"; }
    else if c == '4' { assert [c] == "4"; }
    else if c == '5' { assert [c] == "5"; }
    else if c == '6' { assert [c] == "6"; }
    else if c == '7' { assert [c] == "7"; }
    else if c == '8' { assert [c] == "8"; }
    else { assert c == '9'; assert [c] == "9"; }
  }

  /** NUMERIC_ENGLISH_TO_ARABIC_MAPPING holds the digits U+0660 to U+0669 (Arabic-Indic). */
  lemma ArabicConsecutive()
    ensures ConsecutiveFrom(ArabicDigits, 0x0660)
  {
    forall c | '0' <= c <= '9'
      ensures [c] in ArabicDigits && ArabicDigits[[c]] == [(0x0660 + (c as int - '0' as int)) as char]
    {
      ArabicSymbol(c);
    }
  }

  /** NUMERIC_ENGLISH_TO_URDU_MAPPING holds the digits U+06F0 to U+06F9 (Extended Arabic-Indic). */
  lemma UrduConsecutive()
    ensures ConsecutiveFrom(UrduDigits, 0x06F0)
  {
    forall c | '0' <= c <= '9'
      ensures [c] in UrduDigits && UrduDigits[[c]] == [(0x06F0 + (c as int - '0' as int)) as char]
    {
      UrduSymbol(c);
    }
  }

  lemma TablesAreDigitTables()
    ensures DigitTable(ArabicDigits) && DigitTable(UrduDigits)
  {
    ArabicConsecutive();
    UrduConsecutive();
    ConsecutiveIsTable(ArabicDigits, 0x0660);
    ConsecutiveIsTable(UrduDigits, 0x06F0);
  }

  /** The symbols of the characters of `s`, looked up one by one; a character the
    * table lacks is a KeyError. */
  function Translate(s: string, m: map<string, string>): Result<string> {
    if |s| == 0 then Ok("")
    else
      match Translate(s[..|s| - 1], m)
      case Failure(e) => Failure(e)
      case Ok(t) => if [s[|s| - 1]] in m then Ok(t + m[[s[|s| - 1]]]) else Failure("KeyError")
  }

  /** get_urdu_or_arabic_numeric: a single digit is looked up directly, any other
    * number through its decimal text. */
  function Numeral(n: int, m: map<string, string>): Result<string> {
    if 0 <= n <= 9 then
      if IntStr(n) in m then Ok(m[IntStr(n)]) else Failure("KeyError")
    else Translate(IntStr(n), m)
  }

  /** Through a digit table, a run of digits becomes a run of symbols of the same
    * length, the k-th symbol being the symbol of the k-th digit. */
  lemma {:induction false} TranslateDigits(s: string, m: map<string, string>)
    requires DigitTable(m) && AllDigits(s)
    ensures Translate(s, m).Ok?
    ensures |Translate(s, m).value| == |s|
    ensures forall k | 0 <= k < |s| :: [s[k]] in m && Translate(s, m).value[k] == m[[s[k]]][0]
    decreases |s|
  {
    if |s| > 0 {
      var init := s[..|s| - 1];
      assert AllDigits(init);
      TranslateDigits(init, m);
      var t := Translate(init, m).value;
      var g := m[[s[|s| - 1]]];
      assert Translate(s, m).value == t + g;
      forall k | 0 <= k < |s|
        ensures Translate(s, m).value[k] == m[[s[k]]][0]
      {
        if k < |s| - 1 {
          assert s[k] == init[k];
        }
      }
    }
  }

  /** One output symbol per decimal digit of a non-negative number. */
  lemma NumeralPerDigit(n: nat, m: map<string, string>)
    requires DigitTable(m)
    ensures Numeral(n, m).Ok?
    ensures |Numeral(n, m).value| == |NatStr(n)|
    ensures forall k | 0 <= k < |NatStr(n)| :: Numeral(n, m).value[k] == m[[NatStr(n)[k]]][0]
  {
    assert IntStr(n) == NatStr(n);
    if n <= 9 {
      assert NatStr(n) == [DigitChar(n)];
    } else {
      TranslateDigits(NatStr(n), m);
    }
  }

  /** A negative number is a KeyError: its "-" has no symbol. */
  lemma NumeralNegative(n: int, m: map<string, string>)
    requires n < 0 && "-" !in m
    ensures Numeral(n, m).Failure?
  {
    var s := IntStr(n);
    assert s[..1] == "-";
    assert Translate(s[..1], m).Failure?;
    TranslateFailureStays(s, m, 1);
  }

  /** Different non-negative numbers are written differently. */
  lemma NumeralInjective(a: nat, b: nat, m: map<string, string>)
    requires DigitTable(m) && Numeral(a, m) == Numeral(b, m)
    ensures a == b
  {
    NumeralPerDigit(a, m);
    NumeralPerDigit(b, m);
    var sa, sb := NatStr(a), NatStr(b);
    forall k | 0 <= k < |sa| ensures sa[k] == sb[k] {
      assert m[[sa[k]]] == [m[[sa[k]]][0]];
      assert m[[sb[k]]] == [m[[sb[k]]][0]];
    }
    assert sa == sb;
    NatStrInjective(a, b);
  }

  /** get_urdu_or_arabic_numeric as the source computes it: a single digit directly,
    * otherwise a loop that appends the symbol of each digit. */
  method GetUrduOrArabicNumeric(n: int, m: map<string, string>) returns (r: Result<string>)
    ensures r == Numeral(n, m)
  {
    var text := IntStr(n);
    if 0 <= n <= 9 {
      if text !in m {
        return Failure("KeyError");
      }
      return Ok(m[text]);
    }
    var numeric := "";
    var i := 0;
    while i < |text|
      invariant 0 <= i <= |text|
      invariant Translate(text[..i], m) == Ok(numeric)
    {
      assert text[..i + 1][..i] == text[..i];
      var key := [text[i]];
      if key !in m {
        TranslateFailureStays(text, m, i + 1);
        return Failure("KeyError");
      }
      numeric := numeric + m[key];
      i := i + 1;
    }
    assert text[..i] == text;
    r := Ok(numeric);
  }

  /** Once a prefix fails to translate, so does every longer one. */
  lemma {:induction false} TranslateFailureStays(s: string, m: map<string, string>, j: nat)
    requires 0 < j <= |s| && Translate(s[..j], m).Failure?
    ensures Translate(s, m) == Failure("KeyError")
    decreases |s| - j
  {
    if j < |s| {
      assert s[..j + 1][..j] == s[..j];
      TranslateFailureStays(s, m, j + 1);
    } else {
      assert s[..j] == s;
      FailureIsKeyError(s, m);
    }
  }

  lemma {:induction false} FailureIsKeyError(s: string, m: map<string, string>)
    requires Translate(s, m).Failure?
    ensures Translate(s, m) == Failure("KeyError")
    decreases |s|
  {
    if |s| > 0 && Translate(s[..|s| - 1], m).Failure? {
      FailureIsKeyError(s[..|s| - 1], m);
    }
  }
}
