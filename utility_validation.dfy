/** `VariableValueValidation` of `UtilsLib/utility.py`: a flow variable's value checked
  * against the variable's format. The object keeps the value in a field that the format
  * handlers rewrite (a non-string becomes its JSON text, a boolean's text is lowered)
  * and answers (is it valid, the value to store). */
module Validation {
  import opened Json

  /** VariableFormatEnum. */
  datatype Format =
    | NameFormat | EmailFormat | PhoneFormat | NumberFormat
    | TextFormat | DateFormat | RegexFormat | BooleanFormat

  function FormatValue(f: Format): string {
    match f
    case NameFormat => "name"
    case EmailFormat => "email"
    case PhoneFormat => "phone"
    case NumberFormat => "number"
    case TextFormat => "text"
    case DateFormat => "date"
    case RegexFormat => "regex"
    case BooleanFormat => "boolean"
  }

  /** get_function: the handler for a format name, None for any other text. */
  function FormatOf(format: string): Option<Format> {
    if format == "text" then Some(TextFormat)
    else if format == "name" then Some(NameFormat)
    else if format == "email" then Some(EmailFormat)
    else if format == "phone" then Some(PhoneFormat)
    else if format == "regex" then Some(RegexFormat)
    else if format == "number" then Some(NumberFormat)
    else if format == "date" then Some(DateFormat)
    else if format == "boolean" then Some(BooleanFormat)
    else None
  }

  /** Every format has its handler, and only a format's own name selects it. */
  lemma FormatOfValue(format: string, f: Format)
    ensures FormatOf(format) == Some(f) <==> format == FormatValue(f)
  {
  }

  /** VariableStatusEnum.ACTIVE. */
  const Active := "active"

  /** EMAIL_REGEX and PHONE_REGEX of `UtilsLib/constants.py`. */
  const EmailRegex := "(^([^\\s@]+@[a-zA-Z0-9._-]+\\.[a-zA-Z]{2,})$)"
  const PhoneRegex := "^\\s*(?:\\+?(\\d{1,3}))?[-. (]*(\\d{3,4})?[-. )]*(\\d{3,4})?[-. ]*(\\d{4,6})(?: *x(\\d+))?\\s*$"

  /** What a handler returns: is the value valid, and the value to keep. */
  datatype Verdict = Verdict(valid: bool, value: Json)

  /** The library calls the handlers make: `json.dumps`, `json.loads` (None when it
    * raises), `is_valid_pattern(text, pattern)` (the regex engine), and the `_number`
    * and `_date` handlers (Decimal and date parsing), which never change the field. */
  datatype Library = Library(
    dumps: Json -> string,
    loads: string -> Option<Json>,
    matches: (string, string) -> bool,
    number: (Json, bool) -> Verdict,
    date: Json -> Verdict)

  /** A handler's outcome: its answer (a KeyError for a `regex` format without a
    * pattern) and the field's new value. */
  datatype Step = Step(result: Result<Verdict>, value: Json)

  /** The settings the constructor stores, none of which a handler changes. */
  datatype Settings = Settings(
    format: string,
    status: string,
    variableName: string,
    validation: map<string, string>,
    isCheckStatus: bool,
    convertIntoOriginalType: bool,
    excludeVariables: seq<string>)

  /** `_text`'s new value: a string stays, anything else becomes its JSON text. */
  function AsText(v: Json, lib: Library): (t: Json)
    ensures t.JStr?
    ensures v.JStr? ==> t == v
  {
    if v.JStr? then v else JStr(lib.dumps(v))
  }

  function LowerChar(c: char): char {
    if 'A' <= c <= 'Z' then (c as int - 'A' as int + 'a' as int) as char else c
  }

  /** `str.lower()` on the ASCII letters. */
  function Lower(s: string): (l: string)
    ensures |l| == |s|
    ensures forall k | 0 <= k < |s| :: l[k] == LowerChar(s[k])
  {
    seq(|s|, k requires 0 <= k < |s| => LowerChar(s[k]))
  }

  /** `_boolean`'s new value: the lower-cased text of a string, anything else as is. */
  function Lowered(v: Json): Json {
    if v.JStr? then JStr(Lower(v.s)) else v
  }

  /** _get_original_value: what `json.loads` makes of the text, or the value itself
    * when it raises (always, for a value that is not a string). */
  function OriginalValue(v: Json, lib: Library): Json {
    if v.JStr? then
      match lib.loads(v.s)
      case Some(j) => j
      case None => v
    else v
  }

  /** A string check: the field becomes its text form, then the text is matched. */
  function Matched(v: Json, pattern: string, lib: Library): Step {
    var t := AsText(v, lib);
    Step(Ok(Verdict(lib.matches(t.s, pattern), t)), t)
  }

  /** The handler of each format, from the field's value before it runs. */
  function Apply(f: Format, v: Json, settings: Settings, lib: Library): Step {
    match f
    case TextFormat => Step(Ok(Verdict(true, AsText(v, lib))), AsText(v, lib))
    case NameFormat => Step(Ok(Verdict(true, AsText(v, lib))), AsText(v, lib))
    case PhoneFormat => Matched(v, PhoneRegex, lib)
    case EmailFormat => Matched(v, EmailRegex, lib)
    case RegexFormat =>
      if "regex" in settings.validation then Matched(v, settings.validation["regex"], lib)
      else Step(Failure("KeyError"), AsText(v, lib))
    case NumberFormat => Step(Ok(lib.number(v, settings.convertIntoOriginalType)), v)
    case DateFormat => Step(Ok(lib.date(v)), v)
    case BooleanFormat =>
      var o := OriginalValue(Lowered(v), lib);
      Step(Ok(Verdict(o.JBool?, o)), Lowered(v))
  }

  /** _is_valid_status. */
  predicate ValidStatus(settings: Settings) {
    settings.isCheckStatus ==> settings.status == Active
  }

  /** do_process: an excluded variable, an inactive one (when the status is checked)
    * and an unknown format are invalid and keep their value; otherwise the format's
    * handler decides. */
  function Process(v: Json, settings: Settings, lib: Library): Step {
    if settings.variableName in settings.excludeVariables then Step(Ok(Verdict(false, v)), v)
    else if !ValidStatus(settings) then Step(Ok(Verdict(false, v)), v)
    else match FormatOf(settings.format)
      case Some(f) => Apply(f, v, settings, lib)
      case None => Step(Ok(Verdict(false, v)), v)
  }

  /** The value is refused, and left as it was, exactly when the variable is excluded,
    * its status is not active while checked, or its format has no handler; otherwise
    * the outcome is the handler's. */
  lemma ProcessRefuses(v: Json, settings: Settings, lib: Library)
    ensures var refused :=
      settings.variableName in settings.excludeVariables ||
      (settings.isCheckStatus && settings.status != Active) ||
      FormatOf(settings.format).None?;
      (refused ==> Process(v, settings, lib) == Step(Ok(Verdict(false, v)), v)) &&
      (!refused ==> Process(v, settings, lib) == Apply(FormatOf(settings.format).value, v, settings, lib))
  {
  }

  /** The string formats (text, name, email, phone, regex) leave a string in the field;
    * a string is kept as it is; and the value they return is the one they keep. */
  lemma StringFormatsKeepText(f: Format, v: Json, settings: Settings, lib: Library)
    requires f in {TextFormat, NameFormat, EmailFormat, PhoneFormat, RegexFormat}
    ensures Apply(f, v, settings, lib).value == AsText(v, lib)
    ensures Apply(f, v, settings, lib).value.JStr?
    ensures v.JStr? ==> Apply(f, v, settings, lib).value == v
    ensures Apply(f, v, settings, lib).result.Ok? ==>
      Apply(f, v, settings, lib).result.value.value == Apply(f, v, settings, lib).value
  {
  }

  /** Text and names are always valid; an email or a phone number is valid exactly when
    * its text matches the pattern. */
  lemma PatternFormatsValid(f: Format, v: Json, settings: Settings, lib: Library)
    ensures f in {TextFormat, NameFormat} ==> Apply(f, v, settings, lib).result == Ok(Verdict(true, AsText(v, lib)))
    ensures f == EmailFormat ==>
      Apply(f, v, settings, lib).result.Ok? &&
      (Apply(f, v, settings, lib).result.value.valid <==> lib.matches(AsText(v, lib).s, EmailRegex))
    ensures f == PhoneFormat ==>
      Apply(f, v, settings, lib).result.Ok? &&
      (Apply(f, v, settings, lib).result.value.valid <==> lib.matches(AsText(v, lib).s, PhoneRegex))
  {
  }

  /** A `regex` format without a pattern in `validation` raises a KeyError, after the
    * field has already been turned into text; with one, the text is matched against it. */
  lemma RegexNeedsPattern(v: Json, settings: Settings, lib: Library)
    ensures Apply(RegexFormat, v, settings, lib).result.Failure? <==> "regex" !in settings.validation
    ensures Apply(RegexFormat, v, settings, lib).value == AsText(v, lib)
    ensures "regex" in settings.validation ==>
      (Apply(RegexFormat, v, settings, lib).result.value.valid <==>
       lib.matches(AsText(v, lib).s, settings.validation["regex"]))
  {
  }

  /** A boolean is valid exactly when the value returned is a bool; a value that is a
    * bool already stays valid and unchanged, and text is kept lower-cased. */
  lemma BooleanValid(v: Json, settings: Settings, lib: Library)
    ensures Apply(BooleanFormat, v, settings, lib).result.Ok?
    ensures Apply(BooleanFormat, v, settings, lib).result.value.valid <==>
      Apply(BooleanFormat, v, settings, lib).result.value.value.JBool?
    ensures v.JBool? ==> Apply(BooleanFormat, v, settings, lib) == Step(Ok(Verdict(true, v)), v)
    ensures v.JStr? ==> Apply(BooleanFormat, v, settings, lib).value == JStr(Lower(v.s))
  {
  }

  lemma LowerIdempotent(s: string)
    ensures Lower(Lower(s)) == Lower(s)
  {
    assert forall k | 0 <= k < |s| :: LowerChar(LowerChar(s[k])) == LowerChar(s[k]);
  }

  /** Running a handler again on the value it kept gives the same outcome: the field
    * settles after one pass, whatever the format. */
  lemma ApplyIdempotent(f: Format, v: Json, settings: Settings, lib: Library)
    ensures Apply(f, Apply(f, v, settings, lib).value, settings, lib) == Apply(f, v, settings, lib)
  {
    if f == BooleanFormat && v.JStr? {
      LowerIdempotent(v.s);
    }
  }

  /** do_process settles too: processing the value it kept gives the same outcome. */
  lemma ProcessIdempotent(v: Json, settings: Settings, lib: Library)
    ensures Process(Process(v, settings, lib).value, settings, lib) == Process(v, settings, lib)
  {
    if FormatOf(settings.format).Some? {
      ApplyIdempotent(FormatOf(settings.format).value, v, settings, lib);
    }
  }

  class VariableValueValidation {
    var value: Json
    const format: string
    const status: string
    const variableName: string
    const validation: map<string, string>
    const isCheckStatus: bool
    const convertIntoOriginalType: bool
    const excludeVariables: seq<string>
    const lib: Library

    /** A missing `validation` or exclusion list is empty. */
    constructor (value: Json, format: string, status: string, variableName: string,
                 validation: Option<map<string, string>>, isCheckStatus: bool,
                 convertIntoOriginalType: bool, excludeVariables: Option<seq<string>>, lib: Library)
      ensures this.value == value
      ensures Config() == Settings(format, status, variableName,
        if validation.Some? then validation.value else map[], isCheckStatus, convertIntoOriginalType,
        if excludeVariables.Some? then excludeVariables.value else [])
      ensures this.lib == lib
    {
      this.excludeVariables := if excludeVariables.Some? then excludeVariables.value else [];
      this.format := format;
      this.value := value;
      this.status := status;
      this.variableName := variableName;
      this.isCheckStatus := isCheckStatus;
      this.convertIntoOriginalType := convertIntoOriginalType;
      this.validation := if validation.Some? then validation.value else map[];
      this.lib := lib;
    }

    function Config(): Settings {
      Settings(format, status, variableName, validation, isCheckStatus, convertIntoOriginalType, excludeVariables)
    }

    function GetFunction(): Option<Format> {
      FormatOf(format)
    }

    predicate IsValidStatus() {
      ValidStatus(Config())
    }

    method DoProcess() returns (r: Result<Verdict>)
      modifies this
      ensures Step(r, value) == Process(old(value), Config(), lib)
    {
      if variableName in excludeVariables {
        return Ok(Verdict(false, value));
      }
      if !IsValidStatus() {
        return Ok(Verdict(false, value));
      }
      var func := GetFunction();
      if func.None? {
        return Ok(Verdict(false, value));
      }
      match func.value
      case TextFormat => r := Text();
      case NameFormat => r := Name();
      case EmailFormat => r := Email();
      case PhoneFormat => r := Phone();
      case RegexFormat => r := Regex();
      case NumberFormat => r := Number();
      case DateFormat => r := Date();
      case BooleanFormat => r := Boolean();
    }

    method Text() returns (r: Result<Verdict>)
      modifies this
      ensures Step(r, value) == Apply(TextFormat, old(value), Config(), lib)
    {
      if !value.JStr? {
        value := JStr(lib.dumps(value));
      }
      r := Ok(Verdict(true, value));
    }

    method Name() returns (r: Result<Verdict>)
      modifies this
      ensures Step(r, value) == Apply(NameFormat, old(value), Config(), lib)
    {
      r := Text();
    }

    method Phone() returns (r: Result<Verdict>)
      modifies this
      ensures Step(r, value) == Apply(PhoneFormat, old(value), Config(), lib)
    {
      var text := Text();
      value := text.value.value;
      r := Ok(Verdict(text.value.valid && lib.matches(value.s, PhoneRegex), value));
    }

    method Email() returns (r: Result<Verdict>)
      modifies this
      ensures Step(r, value) == Apply(EmailFormat, old(value), Config(), lib)
    {
      var text := Text();
      value := text.value.value;
      r := Ok(Verdict(text.value.valid && lib.matches(value.s, EmailRegex), value));
    }

    method Regex() returns (r: Result<Verdict>)
      modifies this
      ensures Step(r, value) == Apply(RegexFormat, old(value), Config(), lib)
    {
      var text := Text();
      value := text.value.value;
      if "regex" !in validation {
        return Failure("KeyError");
      }
      r := Ok(Verdict(text.value.valid && lib.matches(value.s, validation["regex"]), value));
    }

    method Number() returns (r: Result<Verdict>)
      modifies this
      ensures Step(r, value) == Apply(NumberFormat, old(value), Config(), lib)
    {
      r := Ok(lib.number(value, convertIntoOriginalType));
    }

    method Date() returns (r: Result<Verdict>)
      modifies this
      ensures Step(r, value) == Apply(DateFormat, old(value), Config(), lib)
    {
      r := Ok(lib.date(value));
    }

    method Boolean() returns (r: Result<Verdict>)
      modifies this
      ensures Step(r, value) == Apply(BooleanFormat, old(value), Config(), lib)
    {
      if value.JStr? {
        value := JStr(Lower(value.s));
      }
      var original := GetOriginalValue();
      r := Ok(Verdict(original.JBool?, original));
    }

    function GetOriginalValue(): Json
      reads this
    {
      OriginalValue(value, lib)
    }
  }
}
