/** Python values as they travel between the store, the cache and the callers:
  * the JSON-like tree that payload dictionaries, lists and scalars form, the
  * truthiness Python's `if value:` tests, and `str()` of an integer. */
module Json {

  datatype Option<T> = None | Some(value: T)

  datatype Result<T> = Ok(value: T) | Failure(error: string)

  /** A Python value: None, bool, int, str, list or dict (dict key order is not kept). */
  datatype Json =
    | JNull
    | JBool(b: bool)
    | JInt(i: int)
    | JStr(s: string)
    | JList(items: seq<Json>)
    | JObj(fields: map<string, Json>)

  /** Python truthiness: None, False, 0, "", [] and {} are falsy. */
  predicate Truthy(v: Json) {
    match v
    case JNull => false
    case JBool(b) => b
    case JInt(i) => i != 0
    case JStr(s) => |s| > 0
    case JList(items) => |items| > 0
    case JObj(fields) => |fields| > 0
  }

  /** `isinstance(v, (str, int))`; a Python bool is an int. */
  predicate IsScalar(v: Json) {
    v.JStr? || v.JInt? || v.JBool?
  }

  /** The empty dict `{}`. */
  const Empty: Json := JObj(map[])

  /** `d.get(k, default)` on a dict; any other value has no entries. */
  function GetOr(d: Json, k: string, default: Json): Json {
    if d.JObj? && k in d.fields then d.fields[k] else default
  }

  function OptionToJson(o: Option<Json>): Json {
    if o.Some? then o.value else JNull
  }

  /** `name if name else ''`: a missing (None or empty) name becomes "". */
  function OrEmpty(name: Option<string>): (s: string)
    ensures name.None? ==> s == ""
    ensures name.Some? ==> s == name.value
  {
    if name.Some? then name.value else ""
  }

  /** `str(b)` of a Python bool. */
  function BoolStr(b: bool): string {
    if b then "True" else "False"
  }

  function DigitChar(d: int): char
    requires 0 <= d < 10
  {
    ('0' as int + d) as char
  }

  /** The decimal digits of a natural number, most significant first. */
  function NatStr(n: nat): (s: string)
    ensures |s| >= 1
    ensures forall k :: 0 <= k < |s| ==> '0' <= s[k] <= '9'
    decreases n
  {
    if n < 10 then [DigitChar(n)] else NatStr(n / 10) + [DigitChar(n % 10)]
  }

  /** `str(n)` of a Python int. */
  function IntStr(n: int): string {
    if n < 0 then "-" + NatStr(-n) else NatStr(n)
  }

  lemma NatStrLong(n: nat)
    requires n >= 10
    ensures |NatStr(n)| >= 2
  {
  }

  /** Distinct naturals print differently: the printed digits give the number back. */
  lemma NatStrInjective(a: nat, b: nat)
    requires NatStr(a) == NatStr(b)
    ensures a == b
  {
    DigitsValueNatStr(a);
    DigitsValueNatStr(b);
  }

  lemma IntStrSign(n: int)
    ensures |IntStr(n)| >= 1
    ensures IntStr(n)[0] == '-' <==> n < 0
  {
    if n >= 0 {
      assert '0' <= NatStr(n)[0] <= '9';
    }
  }

  lemma NegIntStrInjective(a: int, b: int)
    requires a < 0 && b < 0 && IntStr(a) == IntStr(b)
    ensures a == b
  {
    var na, nb := NatStr(-a), NatStr(-b);
    assert na == IntStr(a)[1..];
    assert nb == IntStr(b)[1..];
    NatStrInjective(-a, -b);
  }

  /** Distinct integers print differently, so `str(id)` keys never collide. */
  lemma IntStrInjective(a: int, b: int)
    ensures IntStr(a) == IntStr(b) <==> a == b
  {
    if IntStr(a) == IntStr(b) {
      IntStrSign(a);
      IntStrSign(b);
      if a < 0 {
        NegIntStrInjective(a, b);
      } else {
        NatStrInjective(a, b);
      }
    }
  }

  function DigitValue(c: char): int
    requires '0' <= c <= '9'
  {
    c as int - '0' as int
  }

  /** The value of a non-empty run of decimal digits. */
  function DigitsValue(s: string): nat
    requires forall k :: 0 <= k < |s| ==> '0' <= s[k] <= '9'
    decreases |s|
  {
    if |s| == 0 then 0 else 10 * DigitsValue(s[..|s| - 1]) + DigitValue(s[|s| - 1])
  }

  predicate AllDigits(s: string) {
    forall k :: 0 <= k < |s| ==> '0' <= s[k] <= '9'
  }

  /** `int(s)` for an optionally negative decimal literal; anything else is a ValueError.
    * (Python's surrounding whitespace, '+' sign and '_' separators are not accepted here.) */
  function ParseInt(s: string): Result<int> {
    if |s| > 0 && s[0] == '-' && |s| > 1 && AllDigits(s[1..]) then Ok(-(DigitsValue(s[1..]) as int))
    else if |s| > 0 && AllDigits(s) then Ok(DigitsValue(s))
    else Failure("ValueError: invalid literal for int()")
  }

  lemma {:induction false} DigitsValueNatStr(n: nat)
    ensures DigitsValue(NatStr(n)) == n
    decreases n
  {
    if n >= 10 {
      var s := NatStr(n);
      assert s[..|s| - 1] == NatStr(n / 10);
      DigitsValueNatStr(n / 10);
    }
  }

  lemma ParseNatStr(n: nat)
    ensures ParseInt(NatStr(n)) == Ok(n)
  {
    var s := NatStr(n);
    assert AllDigits(s);
    assert s[0] != '-';
    DigitsValueNatStr(n);
  }

  lemma ParseNegNatStr(n: nat)
    requires n > 0
    ensures ParseInt("-" + NatStr(n)) == Ok(-(n as int))
  {
    var s := "-" + NatStr(n);
    assert s[1..] == NatStr(n);
    assert AllDigits(s[1..]);
    DigitsValueNatStr(n);
  }

  /** `int(str(n)) == n`. */
  lemma ParseIntStr(n: int)
    ensures ParseInt(IntStr(n)) == Ok(n)
  {
    if n < 0 {
      var m: nat := -n;
      assert IntStr(n) == "-" + NatStr(m);
      ParseNegNatStr(m);
    } else {
      var m: nat := n;
      assert IntStr(n) == NatStr(m);
      ParseNatStr(m);
    }
  }

  /** `int(v)` of a cached value: an int (or bool) as is, a decimal string parsed. */
  function ToInt(v: Json): Result<int> {
    match v
    case JInt(i) => Ok(i)
    case JBool(b) => Ok(if b then 1 else 0)
    case JStr(s) => ParseInt(s)
    case _ => Failure("TypeError: int() argument must be a string or a number")
  }
}
