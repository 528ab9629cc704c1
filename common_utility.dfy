/** The data-access layer's shared helpers (`DataAccessLib/common/utility.py`): the
  * database choice, the optional logger, the singleton decorator, dropping `None`s
  * from a list, and the mapping between normalized variable names, variable
  * patterns, variable formats and the search-index value keys. */
module CommonUtility {
  import opened Json
  import opened Strings
  import opened Cache

  /** `DatabaseEnum.MYSQL`, the one database the layer lists. */
  const MySql: string := "MySQL"

  /** `DatabaseUrlEnum.MYSQL`. */
  const MySqlUrl: string := "mysql+pymysql://{user}:{password}@{host}/{database}"

  /** `get_database`: a falsy argument selects MySQL; a listed name is returned as
    * given; anything else raises `InvalidSQLDataBase`. */
  function GetDatabase(database: Json): (r: Result<Json>)
    ensures !Truthy(database) ==> r == Ok(JStr(MySql))
    ensures Truthy(database) ==> (r.Ok? <==> database == JStr(MySql))
    ensures r.Ok? ==> r.value == JStr(MySql)
  {
    if !Truthy(database) then Ok(JStr(MySql))
    else if database == JStr(MySql) then Ok(database)
    else Failure("InvalidSQLDataBase")
  }

  /** `get_database_url`: the URL template of MySQL, None for any other value. */
  function GetDatabaseUrl(database: Json): (r: Option<string>)
    ensures r.Some? <==> database == JStr(MySql)
    ensures r.Some? ==> r.value == MySqlUrl
  {
    if database == JStr(MySql) then Some(MySqlUrl) else None
  }

  /** Every database `get_database` accepts has a URL. */
  lemma AcceptedDatabaseHasUrl(database: Json)
    requires GetDatabase(database).Ok?
    ensures GetDatabaseUrl(GetDatabase(database).value) == Some(MySqlUrl)
  {
  }

  /** The debug messages a logger has received, in order. */
  class Logger {
    var messages: seq<string>

    constructor ()
      ensures messages == []
    {
      messages := [];
    }
  }

  /** `add_log`: the message reaches the logger only when there is one. */
  method AddLog(logger: Logger?, value: string)
    modifies logger
    ensures logger != null ==> logger.messages == old(logger.messages) + [value]
  {
    if logger != null {
      logger.messages := logger.messages + [value];
    }
  }

  /** `SingletonDecorator`: the wrapped class and the instance built by the first call. */
  class Singleton<A, T> {
    const construct: A -> T
    var instance: Option<T>

    constructor (cls: A -> T)
      ensures construct == cls && instance == None
    {
      construct := cls;
      instance := None;
    }

    /** `__call__`: the first call constructs from its arguments; every later call
      * returns that same instance and ignores its arguments. */
    method Call(args: A) returns (r: T)
      modifies this
      ensures old(instance).None? ==> r == construct(args) && instance == Some(r)
      ensures old(instance).Some? ==> r == old(instance).value && instance == old(instance)
    {
      if instance.None? {
        instance := Some(construct(args));
      }
      r := instance.value;
    }
  }

  /** Two calls on a singleton give the same instance, whatever their arguments. */
  method CallTwice<A, T>(s: Singleton<A, T>, a: A, b: A) returns (x: T, y: T)
    modifies s
    ensures x == y
    ensures old(s.instance).None? ==> x == s.construct(a)
  {
    x := s.Call(a);
    y := s.Call(b);
  }

  /** `remove_none_from_list`. */
  function RemoveNone(value: seq<Json>): seq<Json>
    decreases |value|
  {
    if |value| == 0 then []
    else RemoveNone(value[..|value| - 1]) + (if value[|value| - 1] == JNull then [] else [value[|value| - 1]])
  }

  /** Dropping the Nones of a concatenation drops them from each part. */
  lemma {:induction false} RemoveNoneAppend(a: seq<Json>, b: seq<Json>)
    ensures RemoveNone(a + b) == RemoveNone(a) + RemoveNone(b)
    decreases |b|
  {
    if |b| == 0 {
      assert a + b == a;
    } else {
      var b' := b[..|b| - 1];
      assert (a + b)[..|a + b| - 1] == a + b';
      RemoveNoneAppend(a, b');
    }
  }

  /** Exactly the Nones are dropped: no None is left, every other value, falsy or
    * not, keeps its number of occurrences, and the result is no longer than the input. */
  lemma {:induction false} RemoveNoneKeeps(value: seq<Json>)
    ensures JNull !in RemoveNone(value)
    ensures forall x :: x != JNull ==> multiset(RemoveNone(value))[x] == multiset(value)[x]
    ensures |RemoveNone(value)| <= |value|
    decreases |value|
  {
    if |value| > 0 {
      var init := value[..|value| - 1];
      RemoveNoneKeeps(init);
      assert value == init + [value[|value| - 1]];
    }
  }

  /** A list without None is returned unchanged. */
  lemma {:induction false} RemoveNoneWithoutNone(value: seq<Json>)
    requires forall i :: 0 <= i < |value| ==> value[i] != JNull
    ensures RemoveNone(value) == value
    decreases |value|
  {
    if |value| > 0 {
      var init := value[..|value| - 1];
      RemoveNoneWithoutNone(init);
      assert value == init + [value[|value| - 1]];
    }
  }

  /** The positions holding a value other than None, in increasing order. */
  function KeptPositions(value: seq<Json>): (ps: seq<nat>)
    ensures forall k :: 0 <= k < |ps| ==> ps[k] < |value| && value[ps[k]] != JNull
    ensures forall k, l :: 0 <= k < l < |ps| ==> ps[k] < ps[l]
    ensures forall i :: 0 <= i < |value| && value[i] != JNull ==> i in ps
    decreases |value|
  {
    if |value| == 0 then []
    else
      var init := KeptPositions(value[..|value| - 1]);
      if value[|value| - 1] == JNull then init else init + [|value| - 1]
  }

  /** The kept values stay in their original order: the result lists the input at
    * every position that holds no None, in increasing order. */
  lemma {:induction false} RemoveNoneOrder(value: seq<Json>)
    ensures |RemoveNone(value)| == |KeptPositions(value)|
    ensures forall k :: 0 <= k < |RemoveNone(value)| ==> RemoveNone(value)[k] == value[KeptPositions(value)[k]]
    decreases |value|
  {
    if |value| > 0 {
      var init := value[..|value| - 1];
      RemoveNoneOrder(init);
      assert forall i :: 0 <= i < |init| ==> init[i] == value[i];
    }
  }

  /** The names `NormalizedParameterPrefix` and `VariablePatternEnum` give contact and
    * conversation variables: a prefix of the normalized name and a pattern template each. */
  datatype VariableNaming = VariableNaming(contactPrefix: string, conversationPrefix: string,
                                           contactPattern: KeyTemplate, conversationPattern: KeyTemplate)

  /** `generate_parameter_pattern_from_normalized_variable`: a contact or conversation
    * name, with every occurrence of its prefix removed, placed into that pattern; any
    * other name unchanged. */
  function PatternOf(n: VariableNaming, variable: string): (r: string)
    ensures StartsWith(variable, n.contactPrefix) ==> r == Key(n.contactPattern, Replace(variable, n.contactPrefix, ""))
    ensures !StartsWith(variable, n.contactPrefix) && StartsWith(variable, n.conversationPrefix) ==>
      r == Key(n.conversationPattern, Replace(variable, n.conversationPrefix, ""))
    ensures !StartsWith(variable, n.contactPrefix) && !StartsWith(variable, n.conversationPrefix) ==> r == variable
  {
    if StartsWith(variable, n.contactPrefix) then Key(n.contactPattern, Replace(variable, n.contactPrefix, ""))
    else if StartsWith(variable, n.conversationPrefix) then Key(n.conversationPattern, Replace(variable, n.conversationPrefix, ""))
    else variable
  }

  /** Removing a non-empty prefix that occurs nowhere else leaves the rest of the name. */
  lemma StripPrefix(variable: string, prefix: string)
    requires |prefix| > 0 && StartsWith(variable, prefix) && !Contains(variable[|prefix|..], prefix)
    ensures Replace(variable, prefix, "") == variable[|prefix|..]
  {
    ReplaceAbsent(variable[|prefix|..], prefix, "");
  }

  /** A contact name whose prefix occurs only at its start is mapped to the contact
    * pattern around the rest of the name, e.g. `visitor_phone_ok` to
    * `¿·$user.info.phone_ok·?`. */
  lemma ContactPattern(n: VariableNaming, name: string)
    requires |n.contactPrefix| > 0 && !Contains(name, n.contactPrefix)
    ensures PatternOf(n, n.contactPrefix + name) == Key(n.contactPattern, name)
  {
    var v := n.contactPrefix + name;
    assert v[..|n.contactPrefix|] == n.contactPrefix;
    assert v[|n.contactPrefix|..] == name;
    StripPrefix(v, n.contactPrefix);
  }

  /** `EsKeysOfVariableMapping`: the search-index field a variable's value is kept in. */
  datatype ValueKey = PlainValue | DateValue | DoubleValue | BooleanValue

  /** `VariableFormatEnum`. */
  const NameFormat := "name"
  const EmailFormat := "email"
  const PhoneFormat := "phone"
  const NumberFormat := "number"
  const TextFormat := "text"
  const DateFormat := "date"
  const RegexFormat := "regex"
  const BooleanFormat := "boolean"

  /** `get_variable_value_key_based_on_format`. */
  function ValueKeyOf(format: string): (r: Option<ValueKey>)
    ensures format in {TextFormat, NameFormat, EmailFormat, PhoneFormat} <==> r == Some(PlainValue)
    ensures format == DateFormat <==> r == Some(DateValue)
    ensures format == NumberFormat <==> r == Some(DoubleValue)
    ensures format == BooleanFormat <==> r == Some(BooleanValue)
    ensures format == RegexFormat ==> r == None
  {
    if format == TextFormat || format == NameFormat || format == EmailFormat || format == PhoneFormat then Some(PlainValue)
    else if format == DateFormat then Some(DateValue)
    else if format == NumberFormat then Some(DoubleValue)
    else if format == BooleanFormat then Some(BooleanValue)
    else None
  }

  /** A variable's `normalized_parameter` compared with the name, or the KeyError or
    * TypeError of reading it from a value that is not a dict holding it. */
  function Normalizes(value: Json, normalized: Json): Result<bool> {
    if value.JObj? && "normalized_parameter" in value.fields then Ok(value.fields["normalized_parameter"] == normalized)
    else Failure("normalized_parameter")
  }

  predicate Readable(value: Json) {
    value.JObj? && "normalized_parameter" in value.fields
  }

  predicate MatchesAt(variables: seq<(string, Json)>, normalized: Json, i: int)
    requires 0 <= i < |variables|
  {
    Normalizes(variables[i].1, normalized) == Ok(true)
  }

  /** `generate_parameter_pattern_from_normalized_variable_v2` over the variables'
    * items in iteration order: the dict comprehension keeps the last matching key. */
  function PatternV2(variables: seq<(string, Json)>, normalized: Json): Result<Option<string>>
    decreases |variables|
  {
    if |variables| == 0 then Ok(None)
    else
      var last := variables[|variables| - 1];
      var init := PatternV2(variables[..|variables| - 1], normalized);
      if init.Failure? then init
      else match Normalizes(last.1, normalized)
        case Failure(err) => Failure(err)
        case Ok(matched) => if matched then Ok(Some(last.0)) else init
  }

  /** The v2 lookup fails exactly when some variable has no readable
    * `normalized_parameter`. */
  lemma {:induction false} PatternV2Fails(variables: seq<(string, Json)>, normalized: Json)
    ensures PatternV2(variables, normalized).Failure? <==> exists i :: 0 <= i < |variables| && !Readable(variables[i].1)
    decreases |variables|
  {
    if |variables| > 0 {
      var n := |variables| - 1;
      var init := variables[..n];
      PatternV2Fails(init, normalized);
      assert forall i :: 0 <= i < n ==> init[i] == variables[i];
      if PatternV2(variables, normalized).Failure? && PatternV2(init, normalized).Ok? {
        assert !Readable(variables[n].1);
      }
    }
  }

  /** It gives None exactly when every variable is readable and none matches. */
  lemma {:induction false} PatternV2None(variables: seq<(string, Json)>, normalized: Json)
    ensures PatternV2(variables, normalized) == Ok(None) <==>
      ((forall i :: 0 <= i < |variables| ==> Readable(variables[i].1))
       && (forall i :: 0 <= i < |variables| ==> !MatchesAt(variables, normalized, i)))
    decreases |variables|
  {
    if |variables| > 0 {
      var n := |variables| - 1;
      var init := variables[..n];
      PatternV2None(init, normalized);
      assert forall i :: 0 <= i < n ==> init[i] == variables[i];
      assert forall i :: 0 <= i < n ==> MatchesAt(init, normalized, i) == MatchesAt(variables, normalized, i);
      if PatternV2(variables, normalized) == Ok(None) {
        assert PatternV2(init, normalized) == Ok(None);
        assert Normalizes(variables[n].1, normalized) == Ok(false);
      }
      if (forall i :: 0 <= i < |variables| ==> Readable(variables[i].1))
         && (forall i :: 0 <= i < |variables| ==> !MatchesAt(variables, normalized, i)) {
        assert Readable(variables[n].1) && !MatchesAt(variables, normalized, n);
        assert PatternV2(init, normalized) == Ok(None);
      }
    }
  }

  /** A key it gives is the key of a matching variable after which none matches. */
  lemma {:induction false} PatternV2Found(variables: seq<(string, Json)>, normalized: Json)
    ensures forall k :: PatternV2(variables, normalized) == Ok(Some(k)) ==>
      exists i :: (0 <= i < |variables| && variables[i].0 == k && MatchesAt(variables, normalized, i)
        && forall j :: i < j < |variables| ==> !MatchesAt(variables, normalized, j))
    decreases |variables|
  {
    if |variables| > 0 {
      var n := |variables| - 1;
      var init := variables[..n];
      PatternV2Found(init, normalized);
      forall k | PatternV2(variables, normalized) == Ok(Some(k))
        ensures exists i :: (0 <= i < |variables| && variables[i].0 == k && MatchesAt(variables, normalized, i)
          && forall j :: i < j < |variables| ==> !MatchesAt(variables, normalized, j))
      {
        if MatchesAt(variables, normalized, n) {
          assert variables[n].0 == k;
        } else {
          assert PatternV2(init, normalized) == Ok(Some(k));
          var i :| 0 <= i < |init| && init[i].0 == k && MatchesAt(init, normalized, i)
            && forall j :: i < j < |init| ==> !MatchesAt(init, normalized, j);
          assert forall j :: 0 <= j < n ==> init[j] == variables[j];
          assert forall j :: 0 <= j < n ==> MatchesAt(init, normalized, j) == MatchesAt(variables, normalized, j);
          assert variables[i].0 == k && MatchesAt(variables, normalized, i);
          assert forall j :: i < j < |variables| ==> !MatchesAt(variables, normalized, j);
        }
      }
    }
  }

  /** The v2 lookup fails exactly when some variable has no readable
    * `normalized_parameter`; otherwise it gives the key of the last matching variable,
    * and None when none matches. */
  lemma PatternV2Last(variables: seq<(string, Json)>, normalized: Json)
    ensures PatternV2(variables, normalized).Failure? <==> exists i :: 0 <= i < |variables| && !Readable(variables[i].1)
    ensures PatternV2(variables, normalized) == Ok(None) <==>
      ((forall i :: 0 <= i < |variables| ==> Readable(variables[i].1))
       && (forall i :: 0 <= i < |variables| ==> !MatchesAt(variables, normalized, i)))
    ensures forall k :: PatternV2(variables, normalized) == Ok(Some(k)) ==>
      exists i :: (0 <= i < |variables| && variables[i].0 == k && MatchesAt(variables, normalized, i)
        && forall j :: i < j < |variables| ==> !MatchesAt(variables, normalized, j))
  {
    PatternV2Fails(variables, normalized);
    PatternV2None(variables, normalized);
    PatternV2Found(variables, normalized);
  }

  /** `get_variable_info`'s result: the variable's format and its value key. */
  datatype VariableInfo = VariableInfo(format: Json, valueKey: Option<ValueKey>)

  /** The value key of a format read back from a variable; Python hashes the format to
    * look it up, so a list or a dict raises TypeError. */
  function ValueKeyOfJson(format: Json): Result<Option<ValueKey>> {
    match format
    case JStr(s) => Ok(ValueKeyOf(s))
    case JList(_) => Failure("unhashable type")
    case JObj(_) => Failure("unhashable type")
    case _ => Ok(None)
  }

  /** `get_variable_info`: "conversation_created_at" is always a date; any other name is
    * looked up by its pattern, a missing variable or format meaning text. Reading a
    * present variable that is not a dict raises. */
  function GetVariableInfo(n: VariableNaming, variables: map<string, Json>, normalized: string): (r: Result<VariableInfo>)
    ensures normalized == "conversation_created_at" ==> r == Ok(VariableInfo(JStr(DateFormat), Some(DateValue)))
    ensures normalized != "conversation_created_at" && PatternOf(n, normalized) !in variables ==>
      r == Ok(VariableInfo(JStr(TextFormat), Some(PlainValue)))
    ensures normalized != "conversation_created_at" && PatternOf(n, normalized) in variables ==>
      var v := variables[PatternOf(n, normalized)];
      (!v.JObj? ==> r.Failure?)
      && (v.JObj? && "format" !in v.fields ==> r == Ok(VariableInfo(JStr(TextFormat), Some(PlainValue))))
      && (v.JObj? && "format" in v.fields && v.fields["format"].JStr? ==>
            r == Ok(VariableInfo(v.fields["format"], ValueKeyOf(v.fields["format"].s))))
  {
    if normalized == "conversation_created_at" then Ok(VariableInfo(JStr(DateFormat), Some(DateValue)))
    else
      var variable := if PatternOf(n, normalized) in variables then variables[PatternOf(n, normalized)] else Empty;
      if !variable.JObj? then Failure("AttributeError: get")
      else
        var format := GetOr(variable, "format", JStr(TextFormat));
        match ValueKeyOfJson(format)
        case Failure(err) => Failure(err)
        case Ok(key) => Ok(VariableInfo(format, key))
  }
}
