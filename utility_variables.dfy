/** The flow-variable notation of `UtilsLib/utility.py`. A variable is written
  * "¿·" + name + "·?"; what follows the opening "¿·" tells its kind: "$user.info."
  * marks a contact variable, "$user." a system variable, anything else a custom
  * (conversation) variable. */
module Variables {
  import opened Json
  import opened Strings

  const ContactPrefix := "¿·$user.info."
  const SystemPrefix := "¿·$user."
  const ConversationPrefix := "¿·"
  const Postfix := "·?"

  /** VARIABLE_PREFIX_MATCHING_SEQUENCE: the longest prefix is tried first. */
  const Prefixes: seq<string> := [ContactPrefix, SystemPrefix, ConversationPrefix]

  /** The values of VARIABLE_PREFIX_AND_TYPE_MAPPING, prefix by prefix. */
  const Kinds: seq<string> := ["contact", "system", "custom"]

  /** The values of VARIABLE_PREFIX_AND_TYPE_MAPPINGS, prefix by prefix. */
  const PatternKinds: seq<string> := ["contact", "system", "conversation"]

  /** VARIABLE_PATTERNS_TO_BE_REPLACED: the three prefixes, then the closing mark. */
  const Patterns: seq<string> := Prefixes + [Postfix]

  /** Each prefix extends the next one. */
  lemma PrefixesNest(v: string)
    ensures StartsWith(v, ContactPrefix) ==> StartsWith(v, SystemPrefix)
    ensures StartsWith(v, SystemPrefix) ==> StartsWith(v, ConversationPrefix)
  {
    if StartsWith(v, ContactPrefix) {
      assert v[..|SystemPrefix|] == v[..|ContactPrefix|][..|SystemPrefix|];
    }
    if StartsWith(v, SystemPrefix) {
      assert v[..|ConversationPrefix|] == v[..|SystemPrefix|][..|ConversationPrefix|];
    }
  }

  /** The first of `Prefixes[i..]` that `v` starts with. */
  function FirstPrefixFrom(v: string, i: nat): (r: Option<nat>)
    requires i <= |Prefixes|
    ensures r.Some? ==> i <= r.value < |Prefixes| && StartsWith(v, Prefixes[r.value])
    ensures r.Some? ==> forall j | i <= j < r.value :: !StartsWith(v, Prefixes[j])
    ensures r.None? ==> forall j | i <= j < |Prefixes| :: !StartsWith(v, Prefixes[j])
    decreases |Prefixes| - i
  {
    if i == |Prefixes| then None
    else if StartsWith(v, Prefixes[i]) then Some(i)
    else FirstPrefixFrom(v, i + 1)
  }

  /** get_variable_type: the kind of the longest prefix `v` starts with, "" when
    * `v` does not start with "¿·". */
  function VariableType(v: string): (t: string)
    ensures t == "contact" <==> StartsWith(v, ContactPrefix)
    ensures t == "system" <==> StartsWith(v, SystemPrefix) && !StartsWith(v, ContactPrefix)
    ensures t == "custom" <==> StartsWith(v, ConversationPrefix) && !StartsWith(v, SystemPrefix)
    ensures t == "" <==> !StartsWith(v, ConversationPrefix)
  {
    PrefixesNest(v);
    match FirstPrefixFrom(v, 0)
    case Some(i) => Kinds[i]
    case None => ""
  }

  /** One of the characters [a-z0-9_] of ALLOWED_VARIABLE_CHARACTERS. */
  predicate NameChar(c: char) {
    'a' <= c <= 'z' || '0' <= c <= '9' || c == '_'
  }

  predicate AllNameChars(s: string) {
    forall k | 0 <= k < |s| :: NameChar(s[k])
  }

  /** is_variable_in_lowercase_with_valid_characters as written: a non-empty string that
    * `re.match('^[a-z0-9_]+$', s)` accepts. Python's `$` also matches just before a
    * final newline, so one trailing "\n" gets through. */
  predicate LowercaseValidAsWritten(s: string) {
    |s| > 0 && (AllNameChars(s) || (s[|s| - 1] == '\n' && |s| > 1 && AllNameChars(s[..|s| - 1])))
  }

  /** The evidently intended check: a non-empty run of [a-z0-9_] and nothing else. */
  predicate LowercaseValid(s: string) {
    |s| > 0 && AllNameChars(s)
  }

  /** A valid name followed by one newline. */
  predicate NameThenNewline(s: string) {
    |s| > 1 && s[|s| - 1] == '\n' && LowercaseValid(s[..|s| - 1])
  }

  /** The check as written accepts every valid name, and it accepts something else
    * exactly when that is a valid name followed by one newline. */
  lemma ChecksDisagree(s: string)
    ensures LowercaseValid(s) ==> LowercaseValidAsWritten(s)
    ensures LowercaseValidAsWritten(s) && !LowercaseValid(s) <==> NameThenNewline(s)
  {
    if NameThenNewline(s) {
      assert !NameChar(s[|s| - 1]);
    }
  }

  /** The check as written accepts every valid name followed by a newline, which is not
    * a valid name; otherwise the two checks agree. */
  lemma TrailingNewlineAccepted(name: string)
    requires LowercaseValid(name)
    ensures LowercaseValidAsWritten(name + "\n")
    ensures !LowercaseValid(name + "\n")
    ensures forall s :: LowercaseValid(s) ==> LowercaseValidAsWritten(s)
  {
    var s := name + "\n";
    assert s[..|s| - 1] == name;
    assert !NameChar(s[|s| - 1]);
  }

  /** get_variable_by_pattern's result: is it a variable, its bare name, its kind. */
  datatype PatternMatch = PatternMatch(isVariable: bool, name: string, kind: string)

  /** The text after the first `n` replacements of VARIABLE_PATTERNS_TO_BE_REPLACED by "". */
  function StripPatterns(v: string, n: nat): string
    requires n <= |Patterns|
  {
    if n == 0 then v else Replace(StripPatterns(v, n - 1), Patterns[n - 1], "")
  }

  function PatternKind(v: string): string {
    match FirstPrefixFrom(v, 0)
    case Some(i) => PatternKinds[i]
    case None => ""
  }

  /** get_variable_by_pattern as written: the kind comes from the longest matching
    * prefix; the name is what is left once every prefix and the closing mark are
    * removed; it is a variable when a prefix matched and the check as written accepts
    * the name. */
  function VariableByPattern(v: string): (r: PatternMatch)
    ensures r.isVariable <==> StartsWith(v, ConversationPrefix) && LowercaseValidAsWritten(r.name)
    ensures r.kind == "" <==> !StartsWith(v, ConversationPrefix)
    ensures r.kind == "contact" <==> StartsWith(v, ContactPrefix)
    ensures r.kind == "conversation" <==> StartsWith(v, ConversationPrefix) && !StartsWith(v, SystemPrefix)
  {
    PrefixesNest(v);
    var name := StripPatterns(v, |Patterns|);
    var kind := PatternKind(v);
    PatternMatch(|name| > 0 && kind != "" && LowercaseValidAsWritten(name), name, kind)
  }

  /** get_variable_by_pattern with the evidently intended name check. */
  function VariableByPatternIntended(v: string): (r: PatternMatch)
    ensures r.isVariable <==> StartsWith(v, ConversationPrefix) && LowercaseValid(r.name)
    ensures r.kind == "" <==> !StartsWith(v, ConversationPrefix)
  {
    PrefixesNest(v);
    var name := StripPatterns(v, |Patterns|);
    var kind := PatternKind(v);
    PatternMatch(|name| > 0 && kind != "" && LowercaseValid(name), name, kind)
  }

  /** The two readings find the same name and kind, and they differ exactly on a
    * variable whose name is a valid name followed by one newline, which only the
    * reading as written takes for a variable. */
  lemma PatternChecksDiffer(v: string)
    ensures var w, c := VariableByPattern(v), VariableByPatternIntended(v);
      w.name == c.name && w.kind == c.kind
      && (w != c <==> StartsWith(v, ConversationPrefix) && NameThenNewline(w.name))
      && (w != c ==> w.isVariable && !c.isVariable)
  {
    ChecksDisagree(VariableByPattern(v).name);
  }

  /** A well-formed variable: one of the prefixes, a bare name, the closing mark. */
  function Variable(i: nat, name: string): string
    requires i < |Prefixes|
  {
    Prefixes[i] + name + Postfix
  }

  /** A name followed by the closing mark holds no other mark of the notation. */
  predicate Unmarked(name: string) {
    Lacks(name + Postfix, '¿') && Lacks(name, '·') && Lacks(name + Postfix, '.') && Lacks(name, '$')
  }

  /** A name the check accepts holds none of the marks of the notation. */
  lemma NameLacks(name: string)
    requires LowercaseValidAsWritten(name)
    ensures Unmarked(name)
  {
    var w := name + Postfix;
    forall k | 0 <= k < |name| ensures NameChar(name[k]) || name[k] == '\n' {
      if !AllNameChars(name) && k < |name| - 1 {
        assert name[k] == name[..|name| - 1][k];
      }
    }
    forall k | 0 <= k < |w| ensures w[k] != '¿' && w[k] != '.' {
      if k < |name| {
        assert w[k] == name[k];
      }
    }
  }

  /** The prefix patterns remove exactly a contact variable's own prefix. */
  lemma StripContact(name: string)
    requires Unmarked(name)
    ensures StripPatterns(Variable(0, name), 3) == name + Postfix
  {
    var v := Variable(0, name);
    var w := name + Postfix;
    LacksAbsent(w, ContactPrefix);
    LacksAbsent(w, SystemPrefix);
    LacksAbsent(w, ConversationPrefix);
    assert v == ContactPrefix + w;
    StripHead(ContactPrefix, w);
    ReplaceAbsent(w, SystemPrefix, "");
    ReplaceAbsent(w, ConversationPrefix, "");
    assert StripPatterns(v, 1) == w;
    assert StripPatterns(v, 2) == w;
  }

  /** The prefix patterns remove exactly a system variable's own prefix. */
  lemma StripSystem(name: string)
    requires Unmarked(name)
    ensures StripPatterns(Variable(1, name), 3) == name + Postfix
  {
    var v := Variable(1, name);
    var w := name + Postfix;
    LacksAbsent(w, ContactPrefix);
    LacksAbsent(w, ConversationPrefix);
    assert v == SystemPrefix + w;
    assert v[1..] == SystemPrefix[1..] + w;
    assert |v| >= |ContactPrefix| ==> v[12] == w[4] && v[..|ContactPrefix|][12] == v[12];
    assert !OccursAt(v, ContactPrefix, 0);
    SkipHeadAbsent(v, ContactPrefix);
    ReplaceAbsent(v, ContactPrefix, "");
    assert StripPatterns(v, 1) == v;
    StripHead(SystemPrefix, w);
    assert StripPatterns(v, 2) == w;
    ReplaceAbsent(w, ConversationPrefix, "");
  }

  /** The prefix patterns remove exactly a conversation variable's own prefix. */
  lemma StripConversation(name: string)
    requires Unmarked(name)
    ensures StripPatterns(Variable(2, name), 3) == name + Postfix
  {
    var v := Variable(2, name);
    var w := name + Postfix;
    assert w[0] != '$' by {
      if |name| > 0 {
        assert w[0] == name[0];
      }
    }
    LacksAbsent(w, ContactPrefix);
    LacksAbsent(w, SystemPrefix);
    assert v == ConversationPrefix + w;
    assert v[1..] == ConversationPrefix[1..] + w;
    assert |v| >= |ContactPrefix| ==> v[..|ContactPrefix|][2] == v[2] == w[0];
    assert |v| >= |SystemPrefix| ==> v[..|SystemPrefix|][2] == v[2];
    assert !OccursAt(v, ContactPrefix, 0);
    assert !OccursAt(v, SystemPrefix, 0);
    SkipHeadAbsent(v, ContactPrefix);
    SkipHeadAbsent(v, SystemPrefix);
    ReplaceAbsent(v, ContactPrefix, "");
    ReplaceAbsent(v, SystemPrefix, "");
    assert StripPatterns(v, 1) == v;
    assert StripPatterns(v, 2) == v;
    StripHead(ConversationPrefix, w);
  }

  /** Stripping the patterns from a variable leaves its name. */
  lemma StripVariable(i: nat, name: string)
    requires i < |Prefixes| && LowercaseValidAsWritten(name)
    ensures StripPatterns(Variable(i, name), |Patterns|) == name
  {
    var v := Variable(i, name);
    var w := name + Postfix;
    assert Patterns[0] == ContactPrefix && Patterns[1] == SystemPrefix;
    assert Patterns[2] == ConversationPrefix && Patterns[3] == Postfix;
    NameLacks(name);
    if i == 0 {
      StripContact(name);
    } else if i == 1 {
      StripSystem(name);
    } else {
      StripConversation(name);
    }
    assert StripPatterns(v, 3) == w;
    StripTail(name, Postfix);
    assert StripPatterns(v, 4) == name;
  }

  /** A variable starts with its own prefix and with no longer one. */
  lemma VariablePrefix(i: nat, name: string)
    requires i < |Prefixes| && LowercaseValidAsWritten(name)
    ensures StartsWith(Variable(i, name), Prefixes[i])
    ensures forall j | 0 <= j < i :: !StartsWith(Variable(i, name), Prefixes[j])
  {
    var v := Variable(i, name);
    var w := name + Postfix;
    assert StartsWith(v, Prefixes[i]) by {
      assert v[..|Prefixes[i]|] == Prefixes[i];
    }
    if i == 1 {
      NameLacks(name);
      assert v == SystemPrefix + w;
      assert |v| >= |ContactPrefix| ==> v[12] == w[4] && v[..|ContactPrefix|][12] == v[12];
      assert !StartsWith(v, ContactPrefix);
    } else if i == 2 {
      assert v == ConversationPrefix + w;
      assert |v| >= |ContactPrefix| ==> v[..|ContactPrefix|][2] == v[2] == w[0];
      assert |v| >= |SystemPrefix| ==> v[..|SystemPrefix|][2] == v[2];
      assert !StartsWith(v, ContactPrefix) && !StartsWith(v, SystemPrefix);
    }
  }

  /** A variable is read back as itself: get_variable_by_pattern recovers the name
    * and the kind, and get_variable_type the kind, of every variable whose name the
    * check as written accepts. */
  lemma VariableRoundTrip(i: nat, name: string)
    requires i < |Prefixes| && LowercaseValidAsWritten(name)
    ensures VariableByPattern(Variable(i, name)) == PatternMatch(true, name, PatternKinds[i])
    ensures VariableType(Variable(i, name)) == Kinds[i]
  {
    StripVariable(i, name);
    VariablePrefix(i, name);
  }

  /** With the intended check, every variable with a valid name is read back with its
    * own name and kind. */
  lemma VariableRoundTripIntended(i: nat, name: string)
    requires i < |Prefixes| && LowercaseValid(name)
    ensures VariableByPatternIntended(Variable(i, name)) == PatternMatch(true, name, PatternKinds[i])
  {
    ChecksDisagree(name);
    VariableRoundTrip(i, name);
    PatternChecksDiffer(Variable(i, name));
  }

  /** A variable whose name ends in one newline, such as "¿·abc\n·?", is a variable as
    * written but not with the intended check. */
  lemma NewlineVariableAccepted(i: nat, name: string)
    requires i < |Prefixes| && LowercaseValid(name)
    ensures VariableByPattern(Variable(i, name + "\n")) == PatternMatch(true, name + "\n", PatternKinds[i])
    ensures !VariableByPatternIntended(Variable(i, name + "\n")).isVariable
  {
    TrailingNewlineAccepted(name);
    VariableRoundTrip(i, name + "\n");
    PatternChecksDiffer(Variable(i, name + "\n"));
  }

  /** is_valid_variable_pattern: a string that starts with one of the prefixes and ends
    * with the closing mark. Since the prefixes nest, that is any string starting with
    * "¿·" and ending with "·?". */
  method IsValidVariablePattern(v: Json) returns (valid: bool)
    ensures valid <==> v.JStr? && StartsWith(v.s, ConversationPrefix) && EndsWith(v.s, Postfix)
  {
    if !v.JStr? {
      return false;
    }
    PrefixesNest(v.s);
    var i := 0;
    while i < |Prefixes|
      invariant 0 <= i <= |Prefixes|
      invariant forall j | 0 <= j < i :: !(StartsWith(v.s, Prefixes[j]) && EndsWith(v.s, Postfix))
    {
      if StartsWith(v.s, Prefixes[i]) && EndsWith(v.s, Postfix) {
        return true;
      }
      i := i + 1;
    }
    assert !(StartsWith(v.s, Prefixes[2]) && EndsWith(v.s, Postfix));
    valid := false;
  }

  /** get_variable_by_pattern, step by step: the first loop finds the kind, the second
    * strips every pattern from the text. */
  method GetVariableByPattern(variable: string) returns (isVariable: bool, name: string, kind: string)
    ensures PatternMatch(isVariable, name, kind) == VariableByPattern(variable)
  {
    kind := "";
    var i := 0;
    while i < |Prefixes|
      invariant 0 <= i <= |Prefixes|
      invariant FirstPrefixFrom(variable, 0) == FirstPrefixFrom(variable, i)
      invariant kind == ""
    {
      if StartsWith(variable, Prefixes[i]) {
        kind := PatternKinds[i];
        break;
      }
      i := i + 1;
    }
    assert kind == PatternKind(variable);
    name := variable;
    var j := 0;
    while j < |Patterns|
      invariant 0 <= j <= |Patterns|
      invariant name == StripPatterns(variable, j)
    {
      name := Replace(name, Patterns[j], "");
      j := j + 1;
    }
    isVariable := |name| > 0 && kind != "" && LowercaseValidAsWritten(name);
  }
}
