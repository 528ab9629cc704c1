/** The validation-error helpers of `UtilsLib/utility.py`. A marshmallow error tree maps
  * field names (and, inside lists, item indexes) to lists of messages or to nested trees.
  * prepare_error_response turns it into one exception per message, named by the path of
  * its field; parse_response renders those exceptions as the API's error body; and
  * get_all_nested_error_messages collects the bare messages. */
module ErrorTree {
  import opened Json
  import opened Strings

  /** A key of an error dict: a field name, or the index of a list item. */
  datatype Key = Name(name: string) | Index(index: int)

  /** An error tree, its dicts in insertion order. `Other` is a leaf that is neither a
    * string, a list nor a dict (None, a number). */
  datatype Errors =
    | Text(text: string)
    | Other
    | Dict(entries: seq<Entry>)
    | List(items: seq<Errors>)

  datatype Entry = Entry(key: Key, value: Errors)

  // ---------------------------------------------------------------------------
  // get_all_nested_error_messages

  /** The strings of a tree, depth first, in dict and list order; other leaves add nothing. */
  function Messages(e: Errors): seq<string>
    decreases e, 1, 0
  {
    match e
    case Text(t) => [t]
    case Other => []
    case Dict(es) => DictMessages(e, |es|)
    case List(xs) => ListMessages(e, |xs|)
  }

  function DictMessages(d: Errors, n: nat): seq<string>
    requires d.Dict? && n <= |d.entries|
    decreases d, 0, n
  {
    if n == 0 then [] else DictMessages(d, n - 1) + Messages(d.entries[n - 1].value)
  }

  function ListMessages(l: Errors, n: nat): seq<string>
    requires l.List? && n <= |l.items|
    decreases l, 0, n
  {
    if n == 0 then [] else ListMessages(l, n - 1) + Messages(l.items[n - 1])
  }

  /** The string `t` is a leaf somewhere in the tree. */
  predicate HasText(e: Errors, t: string)
    decreases e
  {
    match e
    case Text(x) => x == t
    case Other => false
    case Dict(es) => exists i | 0 <= i < |es| :: HasText(es[i].value, t)
    case List(xs) => exists i | 0 <= i < |xs| :: HasText(xs[i], t)
  }

  /** The collected messages are exactly the string leaves of the tree. */
  lemma {:induction false} MessagesAreLeaves(e: Errors, t: string)
    ensures t in Messages(e) <==> HasText(e, t)
    decreases e, 1, 0
  {
    match e
    case Text(x) =>
    case Other =>
    case Dict(es) => DictMessagesAreLeaves(e, |es|, t);
    case List(xs) => ListMessagesAreLeaves(e, |xs|, t);
  }

  lemma {:induction false} DictMessagesAreLeaves(d: Errors, n: nat, t: string)
    requires d.Dict? && n <= |d.entries|
    ensures t in DictMessages(d, n) <==> exists i | 0 <= i < n :: HasText(d.entries[i].value, t)
    decreases d, 0, n
  {
    if n > 0 {
      DictMessagesAreLeaves(d, n - 1, t);
      MessagesAreLeaves(d.entries[n - 1].value, t);
    }
  }

  lemma {:induction false} ListMessagesAreLeaves(l: Errors, n: nat, t: string)
    requires l.List? && n <= |l.items|
    ensures t in ListMessages(l, n) <==> exists i | 0 <= i < n :: HasText(l.items[i], t)
    decreases l, 0, n
  {
    if n > 0 {
      ListMessagesAreLeaves(l, n - 1, t);
      MessagesAreLeaves(l.items[n - 1], t);
    }
  }

  /** get_all_nested_error_messages: recursion into every dict value and list item,
    * extending the result as it goes. */
  method GetAllNestedErrorMessages(errors: Errors) returns (messages: seq<string>)
    ensures messages == Messages(errors)
    decreases errors
  {
    messages := [];
    match errors
    case Text(t) =>
      messages := messages + [t];
    case Other =>
    case Dict(es) =>
      var i := 0;
      while i < |es|
        invariant 0 <= i <= |es|
        invariant messages == DictMessages(errors, i)
      {
        var more := GetAllNestedErrorMessages(es[i].value);
        messages := messages + more;
        i := i + 1;
      }
    case List(xs) =>
      var i := 0;
      while i < |xs|
        invariant 0 <= i <= |xs|
        invariant messages == ListMessages(errors, i)
      {
        var more := GetAllNestedErrorMessages(xs[i]);
        messages := messages + more;
        i := i + 1;
      }
  }

  // ---------------------------------------------------------------------------
  // find_nested_items and prepare_error_response

  /** A message together with the path of the field it is about. */
  datatype Located = Located(path: string, message: string)

  /** The path of a nested key: "[i]" after the parent for an index, "." and the name
    * for a field name. */
  function Path(field: string, key: Key): string {
    match key
    case Index(i) => field + "[" + IntStr(i) + "]"
    case Name(n) => field + "." + n
  }

  const NotADict := "AttributeError: object has no attribute 'items'"
  const NotIterable := "TypeError: object is not iterable"
  const NotAString := "TypeError: expected string or bytes-like object"

  /** find_nested_items: the messages under the dict `e`, each with its path below `field`. */
  function NestedItems(field: string, e: Errors): Result<seq<Located>>
    decreases e, 2, 0
  {
    if e.Dict? then NestedUpTo(field, e, |e.entries|) else Failure(NotADict)
  }

  function NestedUpTo(field: string, d: Errors, n: nat): Result<seq<Located>>
    requires d.Dict? && n <= |d.entries|
    decreases d, 0, n
  {
    if n == 0 then Ok([])
    else
      match NestedUpTo(field, d, n - 1)
      case Failure(m) => Failure(m)
      case Ok(acc) =>
        match ValueItems(Path(field, d.entries[n - 1].key), d.entries[n - 1].value)
        case Failure(m) => Failure(m)
        case Ok(more) => Ok(acc + more)
  }

  /** The messages of one value under `path`: a dict is searched recursively, anything
    * else is iterated. Iterating a string yields its characters; iterating a list yields
    * its items, each of which must be a string for the regular-expression match. */
  function ValueItems(path: string, v: Errors): Result<seq<Located>>
    decreases v, 1, 0
  {
    match v
    case Dict(es) => NestedUpTo(path, v, |es|)
    case List(xs) => ListItems(path, v, |xs|)
    case Text(t) => Ok(CharItems(path, t))
    case Other => Failure(NotIterable)
  }

  function CharItems(path: string, t: string): (r: seq<Located>)
    ensures |r| == |t| && forall k | 0 <= k < |t| :: r[k] == Located(path, [t[k]])
  {
    if |t| == 0 then [] else CharItems(path, t[..|t| - 1]) + [Located(path, [t[|t| - 1]])]
  }

  function ListItems(path: string, l: Errors, n: nat): Result<seq<Located>>
    requires l.List? && n <= |l.items|
    decreases l, 0, n
  {
    if n == 0 then Ok([])
    else
      match ListItems(path, l, n - 1)
      case Failure(m) => Failure(m)
      case Ok(acc) =>
        if l.items[n - 1].Text? then Ok(acc + [Located(path, l.items[n - 1].text)])
        else Failure(NotAString)
  }

  /** prepare_error_response: a list value is a list of messages about the top-level
    * field itself, any other value a nested dict. */
  function FieldItems(field: string, v: Errors): Result<seq<Located>> {
    if v.List? then ValueItems(field, v) else NestedItems(field, v)
  }

  function PrepareUpTo(messages: seq<(string, Errors)>, n: nat): Result<seq<Located>>
    requires n <= |messages|
  {
    if n == 0 then Ok([])
    else
      match PrepareUpTo(messages, n - 1)
      case Failure(m) => Failure(m)
      case Ok(acc) =>
        match FieldItems(messages[n - 1].0, messages[n - 1].1)
        case Failure(m) => Failure(m)
        case Ok(more) => Ok(acc + more)
  }

  function PrepareErrors(messages: seq<(string, Errors)>): Result<seq<Located>> {
    PrepareUpTo(messages, |messages|)
  }

  // --- paths

  /** `path` names a field strictly below `field`: it continues with "." or "[". */
  predicate Below(path: string, field: string) {
    |path| > |field| && path[..|field|] == field && (path[|field|] == '.' || path[|field|] == '[')
  }

  lemma BelowTrans(path: string, mid: string, field: string)
    requires Below(mid, field) && (path == mid || Below(path, mid))
    ensures Below(path, field)
  {
    if path != mid {
      assert path[..|field|] == path[..|mid|][..|field|];
      assert path[|field|] == path[..|mid|][|field|];
    }
  }

  lemma PathBelow(field: string, key: Key)
    ensures Below(Path(field, key), field)
  {
    var p := Path(field, key);
    assert p[..|field|] == field;
  }

  /** Every message find_nested_items reports sits at a path strictly below the field
    * it was given. */
  lemma {:induction false} NestedItemsBelow(field: string, e: Errors)
    requires NestedItems(field, e).Ok?
    ensures forall x | x in NestedItems(field, e).value :: Below(x.path, field)
    decreases e, 2, 0
  {
    NestedUpToBelow(field, e, |e.entries|);
  }

  lemma {:induction false} NestedUpToBelow(field: string, d: Errors, n: nat)
    requires d.Dict? && n <= |d.entries| && NestedUpTo(field, d, n).Ok?
    ensures forall x | x in NestedUpTo(field, d, n).value :: Below(x.path, field)
    decreases d, 0, n
  {
    if n > 0 {
      NestedUpToBelow(field, d, n - 1);
      var key := d.entries[n - 1].key;
      var p := Path(field, key);
      ValueItemsAt(p, d.entries[n - 1].value);
      PathBelow(field, key);
      forall x | x in ValueItems(p, d.entries[n - 1].value).value
        ensures Below(x.path, field)
      {
        BelowTrans(x.path, p, field);
      }
    }
  }

  /** The messages of a value sit at its path or below it. */
  lemma {:induction false} ValueItemsAt(path: string, v: Errors)
    requires ValueItems(path, v).Ok?
    ensures forall x | x in ValueItems(path, v).value :: x.path == path || Below(x.path, path)
    decreases v, 1, 0
  {
    match v
    case Dict(es) => NestedUpToBelow(path, v, |es|);
    case List(xs) => ListItemsAt(path, v, |xs|);
    case Text(t) =>
    case Other =>
  }

  lemma {:induction false} ListItemsAt(path: string, l: Errors, n: nat)
    requires l.List? && n <= |l.items| && ListItems(path, l, n).Ok?
    ensures forall x | x in ListItems(path, l, n).value :: x.path == path
    decreases n
  {
    if n > 0 {
      ListItemsAt(path, l, n - 1);
    }
  }

  // --- agreement with get_all_nested_error_messages

  /** The shape marshmallow produces: a dict whose values are dicts of the same shape or
    * lists of strings. */
  predicate Regular(e: Errors)
    decreases e, 1
  {
    e.Dict? && forall i | 0 <= i < |e.entries| :: RegularValue(e.entries[i].value)
  }

  predicate RegularValue(v: Errors)
    decreases v, 2
  {
    if v.List? then forall i | 0 <= i < |v.items| :: v.items[i].Text?
    else Regular(v)
  }

  function Texts(xs: seq<Located>): (r: seq<string>)
    ensures |r| == |xs| && forall k | 0 <= k < |xs| :: r[k] == xs[k].message
  {
    if |xs| == 0 then [] else Texts(xs[..|xs| - 1]) + [xs[|xs| - 1].message]
  }

  lemma TextsAppend(a: seq<Located>, b: seq<Located>)
    ensures Texts(a + b) == Texts(a) + Texts(b)
  {
  }

  /** On a regular tree, find_nested_items succeeds and reports the very messages
    * get_all_nested_error_messages collects, in the same order. */
  lemma {:induction false} NestedItemsAgree(field: string, e: Errors)
    requires Regular(e)
    ensures NestedItems(field, e).Ok?
    ensures Texts(NestedItems(field, e).value) == Messages(e)
    decreases e, 2, 0
  {
    NestedUpToAgree(field, e, |e.entries|);
  }

  lemma {:induction false} NestedUpToAgree(field: string, d: Errors, n: nat)
    requires Regular(d) && n <= |d.entries|
    ensures NestedUpTo(field, d, n).Ok?
    ensures Texts(NestedUpTo(field, d, n).value) == DictMessages(d, n)
    decreases d, 0, n
  {
    if n > 0 {
      NestedUpToAgree(field, d, n - 1);
      var v := d.entries[n - 1].value;
      var p := Path(field, d.entries[n - 1].key);
      assert RegularValue(v);
      ValueItemsAgree(p, v);
      TextsAppend(NestedUpTo(field, d, n - 1).value, ValueItems(p, v).value);
    }
  }

  lemma {:induction false} ValueItemsAgree(path: string, v: Errors)
    requires RegularValue(v)
    ensures ValueItems(path, v).Ok?
    ensures Texts(ValueItems(path, v).value) == Messages(v)
    decreases v, 1, 0
  {
    if v.List? {
      ListItemsAgree(path, v, |v.items|);
    } else {
      NestedUpToAgree(path, v, |v.entries|);
    }
  }

  lemma {:induction false} ListItemsAgree(path: string, l: Errors, n: nat)
    requires l.List? && n <= |l.items| && forall i | 0 <= i < |l.items| :: l.items[i].Text?
    ensures ListItems(path, l, n).Ok?
    ensures Texts(ListItems(path, l, n).value) == ListMessages(l, n)
    decreases n
  {
    if n > 0 {
      ListItemsAgree(path, l, n - 1);
      TextsAppend(ListItems(path, l, n - 1).value, [Located(path, l.items[n - 1].text)]);
    }
  }

  // --- the methods, which classify each message as they go

  /** A validation exception: its code, its message template and the values for the
    * template's placeholders. */
  datatype Exc = Exc(code: string, message: string, payload: map<string, string>)

  /** `classify` stands for check_error_and_prepare_payload, which matches a message
    * against the table of known marshmallow messages. */
  function ClassifyAll(xs: seq<Located>, classify: (string, string) -> Exc): (r: seq<Exc>)
    ensures |r| == |xs| && forall k | 0 <= k < |xs| :: r[k] == classify(xs[k].path, xs[k].message)
  {
    if |xs| == 0 then [] else ClassifyAll(xs[..|xs| - 1], classify) + [classify(xs[|xs| - 1].path, xs[|xs| - 1].message)]
  }

  function Classified(r: Result<seq<Located>>, classify: (string, string) -> Exc): Result<seq<Exc>> {
    match r
    case Failure(m) => Failure(m)
    case Ok(xs) => Ok(ClassifyAll(xs, classify))
  }

  lemma ClassifyAppend(a: seq<Located>, b: seq<Located>, classify: (string, string) -> Exc)
    ensures ClassifyAll(a + b, classify) == ClassifyAll(a, classify) + ClassifyAll(b, classify)
  {
  }

  lemma {:induction false} NestedUpToFailureStays(field: string, d: Errors, j: nat, n: nat)
    requires d.Dict? && j <= n <= |d.entries| && NestedUpTo(field, d, j).Failure?
    ensures NestedUpTo(field, d, n) == NestedUpTo(field, d, j)
    decreases n
  {
    if n > j {
      NestedUpToFailureStays(field, d, j, n - 1);
    }
  }

  lemma {:induction false} ListItemsFailureStays(path: string, l: Errors, j: nat, n: nat)
    requires l.List? && j <= n <= |l.items| && ListItems(path, l, j).Failure?
    ensures ListItems(path, l, n) == ListItems(path, l, j)
    decreases n
  {
    if n > j {
      ListItemsFailureStays(path, l, j, n - 1);
    }
  }

  lemma {:induction false} PrepareFailureStays(messages: seq<(string, Errors)>, j: nat, n: nat)
    requires j <= n <= |messages| && PrepareUpTo(messages, j).Failure?
    ensures PrepareUpTo(messages, n) == PrepareUpTo(messages, j)
    decreases n
  {
    if n > j {
      PrepareFailureStays(messages, j, n - 1);
    }
  }

  lemma NestedStepOk(field: string, d: Errors, i: nat, acc: seq<Exc>, more: seq<Exc>, classify: (string, string) -> Exc)
    requires d.Dict? && i < |d.entries| && Classified(NestedUpTo(field, d, i), classify) == Ok(acc)
    requires Classified(ValueItems(Path(field, d.entries[i].key), d.entries[i].value), classify) == Ok(more)
    ensures Classified(NestedUpTo(field, d, i + 1), classify) == Ok(acc + more)
  {
    ClassifyAppend(NestedUpTo(field, d, i).value, ValueItems(Path(field, d.entries[i].key), d.entries[i].value).value, classify);
  }

  lemma NestedStepFailure(field: string, d: Errors, i: nat, m: string, classify: (string, string) -> Exc)
    requires d.Dict? && i < |d.entries| && NestedUpTo(field, d, i).Ok?
    requires Classified(ValueItems(Path(field, d.entries[i].key), d.entries[i].value), classify) == Failure(m)
    ensures Classified(NestedItems(field, d), classify) == Failure(m)
  {
    NestedUpToFailureStays(field, d, i + 1, |d.entries|);
  }

  lemma PrepareStepOk(messages: seq<(string, Errors)>, i: nat, acc: seq<Exc>, more: seq<Exc>, classify: (string, string) -> Exc)
    requires i < |messages| && Classified(PrepareUpTo(messages, i), classify) == Ok(acc)
    requires Classified(FieldItems(messages[i].0, messages[i].1), classify) == Ok(more)
    ensures Classified(PrepareUpTo(messages, i + 1), classify) == Ok(acc + more)
  {
    ClassifyAppend(PrepareUpTo(messages, i).value, FieldItems(messages[i].0, messages[i].1).value, classify);
  }

  lemma PrepareStepFailure(messages: seq<(string, Errors)>, i: nat, m: string, classify: (string, string) -> Exc)
    requires i < |messages| && PrepareUpTo(messages, i).Ok?
    requires Classified(FieldItems(messages[i].0, messages[i].1), classify) == Failure(m)
    ensures Classified(PrepareErrors(messages), classify) == Failure(m)
  {
    PrepareFailureStays(messages, i + 1, |messages|);
  }

  /** The inner loop of find_nested_items for a value that is not a dict: one exception
    * per message it iterates over. */
  method PrepareEach(path: string, v: Errors, classify: (string, string) -> Exc) returns (r: Result<seq<Exc>>)
    requires !v.Dict?
    ensures r == Classified(ValueItems(path, v), classify)
  {
    match v
    case Other =>
      r := Failure(NotIterable);
    case Text(t) =>
      var exceptions := [];
      var k := 0;
      while k < |t|
        invariant 0 <= k <= |t|
        invariant exceptions == ClassifyAll(CharItems(path, t[..k]), classify)
      {
        assert t[..k + 1][..k] == t[..k];
        exceptions := exceptions + [classify(path, [t[k]])];
        k := k + 1;
      }
      assert t[..k] == t;
      r := Ok(exceptions);
    case List(xs) =>
      var exceptions := [];
      var k := 0;
      while k < |xs|
        invariant 0 <= k <= |xs|
        invariant Classified(ListItems(path, v, k), classify) == Ok(exceptions)
      {
        if !xs[k].Text? {
          ListItemsFailureStays(path, v, k + 1, |xs|);
          return Failure(NotAString);
        }
        exceptions := exceptions + [classify(path, xs[k].text)];
        k := k + 1;
      }
      r := Ok(exceptions);
  }

  /** The exceptions of one value of find_nested_items: a nested dict's, found
    * recursively, or one per message. */
  method FindValueItems(path: string, v: Errors, classify: (string, string) -> Exc) returns (r: Result<seq<Exc>>)
    ensures r == Classified(ValueItems(path, v), classify)
    decreases v, 2
  {
    if v.Dict? {
      r := FindNestedItems(path, v, classify);
    } else {
      r := PrepareEach(path, v, classify);
    }
  }

  /** find_nested_items: for each entry the path of its key, then either the nested
    * dict's exceptions or one exception per message. */
  method FindNestedItems(field: string, errorMessages: Errors, classify: (string, string) -> Exc)
    returns (r: Result<seq<Exc>>)
    ensures r == Classified(NestedItems(field, errorMessages), classify)
    decreases errorMessages, 1
  {
    if !errorMessages.Dict? {
      return Failure(NotADict);
    }
    var es := errorMessages.entries;
    var exceptions := [];
    var i := 0;
    while i < |es|
      invariant 0 <= i <= |es|
      invariant Classified(NestedUpTo(field, errorMessages, i), classify) == Ok(exceptions)
    {
      var allFields := Path(field, es[i].key);
      var more := FindValueItems(allFields, es[i].value, classify);
      if more.Failure? {
        NestedStepFailure(field, errorMessages, i, more.error, classify);
        return more;
      }
      NestedStepOk(field, errorMessages, i, exceptions, more.value, classify);
      exceptions := exceptions + more.value;
      i := i + 1;
    }
    r := Ok(exceptions);
  }

  /** One top-level field of prepare_error_response: the nested exceptions of a value
    * that is not a list, one exception per message of a list. */
  method FieldExceptions(field: string, errorMessages: Errors, classify: (string, string) -> Exc)
    returns (more: Result<seq<Exc>>)
    ensures more == Classified(FieldItems(field, errorMessages), classify)
  {
    if !errorMessages.List? {
      more := FindNestedItems(field, errorMessages, classify);
    } else {
      more := PrepareEach(field, errorMessages, classify);
    }
  }

  /** prepare_error_response: for each top-level field, the nested exceptions of a dict
    * value, or one exception per message of a list. */
  method PrepareErrorResponse(messages: seq<(string, Errors)>, classify: (string, string) -> Exc)
    returns (r: Result<seq<Exc>>)
    ensures r == Classified(PrepareErrors(messages), classify)
  {
    var exceptions := [];
    var i := 0;
    while i < |messages|
      invariant 0 <= i <= |messages|
      invariant Classified(PrepareUpTo(messages, i), classify) == Ok(exceptions)
    {
      var more := FieldExceptions(messages[i].0, messages[i].1, classify);
      if more.Failure? {
        PrepareStepFailure(messages, i, more.error, classify);
        return more;
      }
      PrepareStepOk(messages, i, exceptions, more.value, classify);
      exceptions := exceptions + more.value;
      i := i + 1;
    }
    r := Ok(exceptions);
  }

  // ---------------------------------------------------------------------------
  // parse_response

  /** The name of the k-th placeholder value, "var1", "var2", ... */
  function VarName(k: nat): string {
    "var" + NatStr(k)
  }

  const NoValue := "TypeError: replace() argument 2 must be str, not None"

  /** The message after the placeholders "{var1}" to "{varN}" have been filled in. A
    * missing value is None, which `replace` refuses. */
  function FillUpTo(message: string, payload: map<string, string>, n: nat): Result<string> {
    if n == 0 then Ok(message)
    else
      match FillUpTo(message, payload, n - 1)
      case Failure(m) => Failure(m)
      case Ok(text) =>
        if VarName(n) in payload then Ok(Replace(text, "{" + VarName(n) + "}", payload[VarName(n)]))
        else Failure(NoValue)
  }

  function Fill(e: Exc): Result<string> {
    FillUpTo(e.message, e.payload, |e.payload|)
  }

  function PayloadJson(payload: map<string, string>): Json {
    JObj(map k | k in payload :: JStr(payload[k]))
  }

  function ErrorData(e: Exc, message: string): Json {
    JObj(map["code" := JStr(e.code), "payload" := PayloadJson(e.payload), "message" := JStr(message)])
  }

  function ParseUpTo(exceptions: seq<Exc>, n: nat): Result<seq<Json>>
    requires n <= |exceptions|
  {
    if n == 0 then Ok([])
    else
      match ParseUpTo(exceptions, n - 1)
      case Failure(m) => Failure(m)
      case Ok(errors) =>
        match Fill(exceptions[n - 1])
        case Failure(m) => Failure(m)
        case Ok(message) => Ok(errors + [ErrorData(exceptions[n - 1], message)])
  }

  /** parse_response: {'ok': False, 'errors': [...]} with one entry per exception. */
  function ParseResponse(exceptions: seq<Exc>): Result<Json> {
    match ParseUpTo(exceptions, |exceptions|)
    case Failure(m) => Failure(m)
    case Ok(errors) => Ok(JObj(map["ok" := JBool(false), "errors" := JList(errors)]))
  }

  /** The payloads check_error_and_prepare_payload builds: "var1" to "varN" and nothing else. */
  predicate Consecutive(payload: map<string, string>) {
    forall k | 1 <= k <= |payload| :: VarName(k) in payload
  }

  lemma {:induction false} FillUpToOk(message: string, payload: map<string, string>, n: nat)
    requires forall k | 1 <= k <= n :: VarName(k) in payload
    ensures FillUpTo(message, payload, n).Ok?
  {
    if n > 0 {
      FillUpToOk(message, payload, n - 1);
    }
  }

  /** A message without "{" has no placeholder and is kept as it is. */
  lemma {:induction false} FillUpToPlain(message: string, payload: map<string, string>, n: nat)
    requires Lacks(message, '{') && forall k | 1 <= k <= n :: VarName(k) in payload
    ensures FillUpTo(message, payload, n) == Ok(message)
  {
    if n > 0 {
      FillUpToPlain(message, payload, n - 1);
      var pat := "{" + VarName(n) + "}";
      LacksAbsent(message, pat);
      ReplaceAbsent(message, pat, payload[VarName(n)]);
    }
  }

  /** The messages of the source's table start with "{var1}", the field: filled in, the
    * message starts with the field's path instead. */
  lemma FillField(code: string, rest: string, field: string)
    requires Lacks(rest, '{')
    ensures Fill(Exc(code, "{var1}" + rest, map["var1" := field])) == Ok(field + rest)
  {
    var pat := "{" + VarName(1) + "}";
    var payload := map["var1" := field];
    var message := "{var1}" + rest;
    assert NatStr(1) == "1";
    assert VarName(1) == "var1";
    assert pat == "{var1}";
    assert payload.Keys == {"var1"};
    assert |payload| == 1;
    LacksAbsent(rest, pat);
    StripHeadReplace(pat, rest, field);
    assert FillUpTo(message, payload, 0) == Ok(message);
    assert FillUpTo(message, payload, 1) == Ok(Replace(message, pat, field));
  }

  lemma StripHeadReplace(pat: string, w: string, rep: string)
    requires |pat| > 0 && !Contains(w, pat)
    ensures Replace(pat + w, pat, rep) == rep + w
  {
    assert (pat + w)[..|pat|] == pat;
    assert (pat + w)[|pat|..] == w;
    ReplaceAbsent(w, pat, rep);
  }

  /** parse_response succeeds on the exceptions prepare_error_response builds, and keeps
    * one error per exception, in order, with its code and payload. */
  lemma {:induction false} ParseUpToShape(exceptions: seq<Exc>, n: nat)
    requires n <= |exceptions| && forall i | 0 <= i < |exceptions| :: Consecutive(exceptions[i].payload)
    ensures ParseUpTo(exceptions, n).Ok?
    ensures |ParseUpTo(exceptions, n).value| == n
    ensures forall i | 0 <= i < n ::
      (Fill(exceptions[i]).Ok? && ParseUpTo(exceptions, n).value[i] == ErrorData(exceptions[i], Fill(exceptions[i]).value))
  {
    if n > 0 {
      ParseUpToShape(exceptions, n - 1);
      var e := exceptions[n - 1];
      FillUpToOk(e.message, e.payload, |e.payload|);
    }
  }

  lemma ParseResponseShape(exceptions: seq<Exc>)
    requires forall i | 0 <= i < |exceptions| :: Consecutive(exceptions[i].payload)
    ensures ParseResponse(exceptions).Ok?
    ensures var body := ParseResponse(exceptions).value;
      body.JObj? && body.fields.Keys == {"ok", "errors"} && body.fields["ok"] == JBool(false) &&
      body.fields["errors"].JList? && |body.fields["errors"].items| == |exceptions|
  {
    ParseUpToShape(exceptions, |exceptions|);
  }

  lemma {:induction false} ParseUpToFailureStays(exceptions: seq<Exc>, j: nat, n: nat)
    requires j <= n <= |exceptions| && ParseUpTo(exceptions, j).Failure?
    ensures ParseUpTo(exceptions, n) == ParseUpTo(exceptions, j)
    decreases n
  {
    if n > j {
      ParseUpToFailureStays(exceptions, j, n - 1);
    }
  }

  lemma {:induction false} FillUpToFailureStays(message: string, payload: map<string, string>, j: nat, n: nat)
    requires j <= n && FillUpTo(message, payload, j).Failure?
    ensures FillUpTo(message, payload, n) == FillUpTo(message, payload, j)
    decreases n
  {
    if n > j {
      FillUpToFailureStays(message, payload, j, n - 1);
    }
  }

  /** parse_response: the outer loop builds one error per exception, the inner loop
    * (FillMessage) fills the message's placeholders one by one. */
  method ParseResponseOf(exceptions: seq<Exc>) returns (r: Result<Json>)
    ensures r == ParseResponse(exceptions)
  {
    var errors := [];
    var i := 0;
    while i < |exceptions|
      invariant 0 <= i <= |exceptions|
      invariant ParseUpTo(exceptions, i) == Ok(errors)
    {
      var message := FillMessage(exceptions[i]);
      if message.Failure? {
        ParseUpToFailureStays(exceptions, i + 1, |exceptions|);
        return Failure(message.error);
      }
      errors := errors + [ErrorData(exceptions[i], message.value)];
      i := i + 1;
    }
    r := Ok(JObj(map["ok" := JBool(false), "errors" := JList(errors)]));
  }

  /** The inner loop of parse_response: "{var1}", "{var2}", ... replaced in turn by the
    * payload's values, raising at the first one the payload lacks. */
  method FillMessage(exception: Exc) returns (r: Result<string>)
    ensures r == Fill(exception)
  {
    var message := exception.message;
    var count := 1;
    while count < |exception.payload| + 1
      invariant 1 <= count <= |exception.payload| + 1
      invariant FillUpTo(exception.message, exception.payload, count - 1) == Ok(message)
    {
      var variableName := VarName(count);
      if variableName !in exception.payload {
        FillUpToFailureStays(exception.message, exception.payload, count, |exception.payload|);
        return Failure(NoValue);
      }
      message := Replace(message, "{" + variableName + "}", exception.payload[variableName]);
      count := count + 1;
    }
    r := Ok(message);
  }
}
