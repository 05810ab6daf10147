/**
 * ConfigUtil: comparison and normalisation of configuration dictionaries, the
 * R7 factory pid, LDAP filter encoding, merging of default dictionaries and
 * the lookup of a configuration in the store, including the records written
 * by older installer versions.
 */
module ConfigUtil {
  import opened Wrappers
  import opened Values
  import opened Filters
  import opened InstallerApi
  import opened ConfigAdmin

  /** Keys written by the installer or the store itself, not by the user. */
  const CONFIG_PATH_KEY := "org.apache.sling.installer.osgi.path"
  /** "org.apache.sling.installer.osgi.factoryaliaspid", in pieces short enough to check one character at a time. */
  const ALIAS_KEY := "org.apac" + "he.sling" + ".install" + "er.osgi." + "factorya" + "liaspid"
  const IGNORED_PROPERTIES: set<string> := {SERVICE_PID, CONFIG_PATH_KEY, ALIAS_KEY, SERVICE_FACTORYPID}

  // ---------------------------------------------------------------------------
  // Value equivalence

  /**
   * The comparison isSameValue promises: both null, or two arrays with the same
   * element strings, or two non-arrays with the same string form.
   */
  predicate SameValue(a: Option<Value>, b: Option<Value>)
  {
    match (a, b)
    case (None, None) => true
    case (Some(Scalar(_, x)), Some(Scalar(_, y))) => x == y
    case (Some(Arr(_, xs)), Some(Arr(_, ys))) => xs == ys
    case _ => false
  }

  /** isSameValue: null handling, then an element-by-element walk over two arrays. */
  method IsSameValue(a: Option<Value>, b: Option<Value>) returns (same: bool)
    ensures same <==> SameValue(a, b)
    ensures a.None? && b.None? ==> same
    ensures a.None? != b.None? ==> !same
    ensures a.Some? && b.Some? && a.value.Arr? != b.value.Arr? ==> !same
    ensures a.Some? && b.Some? && a.value.Arr? && b.value.Arr? ==>
      (same <==> |a.value.items| == |b.value.items| &&
                 forall i :: 0 <= i < |a.value.items| ==> a.value.items[i] == b.value.items[i])
  {
    if a.None? && b.None? {
      return true;
    }
    if a.None? || b.None? {
      return false;
    }
    var x, y := a.value, b.value;
    if x.Arr? && y.Arr? {
      if |x.items| != |y.items| {
        return false;
      }
      var i := 0;
      while i < |x.items|
        invariant 0 <= i <= |x.items|
        invariant x.items[..i] == y.items[..i]
      {
        if x.items[i] != y.items[i] {
          return false;
        }
        i := i + 1;
      }
      assert x.items == x.items[..i] && y.items == y.items[..i];
    } else if !x.Arr? && !y.Arr? {
      if x.text != y.text {
        return false;
      }
    } else {
      return false;
    }
    return true;
  }

  /** isSameValue is an equivalence relation. */
  lemma SameValueIsEquivalence(a: Option<Value>, b: Option<Value>, c: Option<Value>)
    ensures SameValue(a, a)
    ensures SameValue(a, b) ==> SameValue(b, a)
    ensures SameValue(a, b) && SameValue(b, c) ==> SameValue(a, c)
  {
  }

  /** The Integer 4 and the String "4" are the same value; an array never equals a non-array. */
  lemma SameValueThroughStringForm()
    ensures SameValue(Some(Scalar(INTEGER, "4")), Some(Scalar(STRING, "4")))
    ensures Scalar(INTEGER, "4") != Scalar(STRING, "4")
    ensures !SameValue(Some(Arr(STRING, ["4"])), Some(Scalar(STRING, "4")))
  {
  }

  // ---------------------------------------------------------------------------
  // Dictionary comparison and cleaning

  /** The keys of a dictionary that carry configuration data. */
  function RelevantKeys(d: Dict): (keys: set<string>)
    ensures forall k :: k in keys <==> k in d && k !in IGNORED_PROPERTIES
  {
    d.Keys - IGNORED_PROPERTIES
  }

  /** collectKeys: the keys of `a` that are not ignored, gathered one by one. */
  method CollectKeys(a: Dict) returns (keys: set<string>)
    ensures keys == RelevantKeys(a)
  {
    keys := {};
    var pending := a.Keys;
    while pending != {}
      invariant pending <= a.Keys
      invariant keys == RelevantKeys(a) - pending
    {
      var key :| key in pending;
      if key !in IGNORED_PROPERTIES {
        keys := keys + {key};
      }
      pending := pending - {key};
    }
  }

  /** The comparison isSameData promises. */
  predicate SameData(a: Option<Dict>, b: Option<Dict>)
  {
    a.Some? && b.Some? &&
    RelevantKeys(a.value) == RelevantKeys(b.value) &&
    forall k :: k in RelevantKeys(a.value) ==> SameValue(Some(a.value[k]), Some(b.value[k]))
  }

  /** A subset of a finite set with as many elements is the whole set. */
  lemma {:induction false} SubsetOfSameSize(small: set<string>, big: set<string>)
    requires small <= big && |small| == |big|
    ensures small == big
  {
    if small != big {
      var x :| x in big && x !in small;
      SubsetIsNoLarger(small, big - {x});
    }
  }

  lemma {:induction false} SubsetIsNoLarger(small: set<string>, big: set<string>)
    requires small <= big
    ensures |small| <= |big|
  {
    if small != {} {
      var y :| y in small;
      SubsetIsNoLarger(small - {y}, big - {y});
    }
  }

  /** isSameData: null checks, equal key sets by size and inclusion, then a value walk that stops at the first mismatch. */
  method IsSameData(a: Option<Dict>, b: Option<Dict>) returns (result: bool)
    ensures result <==> SameData(a, b)
  {
    result := false;
    if a.Some? && b.Some? {
      var keysA := CollectKeys(a.value);
      var keysB := CollectKeys(b.value);
      if |keysA| == |keysB| && keysB <= keysA {
        SubsetOfSameSize(keysB, keysA);
        result := true;
        var pending := keysA;
        while pending != {}
          invariant pending <= keysA
          invariant result
          invariant forall k :: k in keysA - pending ==> SameValue(Some(a.value[k]), Some(b.value[k]))
        {
          var key :| key in pending;
          var same := IsSameValue(Get(a.value, key), Get(b.value, key));
          if !same {
            result := false;
            break;
          }
          pending := pending - {key};
        }
      }
    }
  }

  /** The dictionary cleanConfiguration returns. */
  function Cleaned(config: Dict): (r: Dict)
    ensures r.Keys == RelevantKeys(config)
    ensures forall k :: k in r ==> r[k] == config[k]
  {
    map k | k in config && k !in IGNORED_PROPERTIES :: config[k]
  }

  /** cleanConfiguration: copies every entry whose key is not ignored into a new table. */
  method CleanConfiguration(config: Dict) returns (cleaned: Dict)
    ensures cleaned == Cleaned(config)
  {
    cleaned := map[];
    var pending := config.Keys;
    while pending != {}
      invariant pending <= config.Keys
      invariant cleaned == map k | k in config.Keys - pending && k !in IGNORED_PROPERTIES :: config[k]
    {
      var key :| key in pending;
      if key !in IGNORED_PROPERTIES {
        cleaned := cleaned[key := config[key]];
      }
      pending := pending - {key};
    }
  }

  /** Cleaning twice is cleaning once, and a record has the same data as its cleaned copy. */
  lemma CleanedIsIdempotentAndSame(config: Dict)
    ensures Cleaned(Cleaned(config)) == Cleaned(config)
    ensures SameData(Some(config), Some(Cleaned(config)))
  {
    assert RelevantKeys(Cleaned(config)) == RelevantKeys(config);
  }

  /** Records that differ only in administrative keys have the same data; a null record has no data. */
  lemma {:induction false} SameDataIgnoresAdministrativeKeys(a: Dict, b: Dict)
    requires Cleaned(a) == Cleaned(b)
    ensures SameData(Some(a), Some(b))
    ensures !SameData(None, Some(b)) && !SameData(Some(a), None)
  {
    assert RelevantKeys(a) == Cleaned(a).Keys == Cleaned(b).Keys == RelevantKeys(b);
    forall k | k in RelevantKeys(a)
      ensures SameValue(Some(a[k]), Some(b[k]))
    {
      assert a[k] == Cleaned(a)[k] == Cleaned(b)[k] == b[k];
    }
  }

  // ---------------------------------------------------------------------------
  // Filter encoding

  predicate IsFilterSpecial(c: char)
  {
    c == '\\' || c == '*' || c == '(' || c == ')'
  }

  /** String.replace of every occurrence of one character by a string. */
  function ReplaceChar(s: string, target: char, replacement: string): (r: string)
  {
    if s == [] then [] else (if s[0] == target then replacement else [s[0]]) + ReplaceChar(s[1..], target, replacement)
  }

  /** The four chained String.replace calls of encode: backslashes first, then `*`, `(` and `)`, each given a preceding backslash. */
  function Replacements(value: string): string
  {
    ReplaceChar(ReplaceChar(ReplaceChar(ReplaceChar(value, '\\', "\\\\"), '*', "\\*"), '(', "\\("), ')', "\\)")
  }

  /** encode: the value with each backslash, star and parenthesis escaped exactly once. */
  function Encode(value: string): (r: string)
    ensures r == Escaped(value)
  {
    ReplacementsEscapeEachCharacter(value);
    Replacements(value)
  }

  /** One character as the filter syntax requires it to be written. */
  function EscapedChar(c: char): string
  {
    if IsFilterSpecial(c) then ['\\', c] else [c]
  }

  /** The character-by-character escape encode is meant to perform. */
  function Escaped(value: string): (r: string)
  {
    if value == [] then [] else EscapedChar(value[0]) + Escaped(value[1..])
  }

  lemma {:induction false} ReplaceCharDistributes(a: string, b: string, target: char, replacement: string)
    ensures ReplaceChar(a + b, target, replacement) == ReplaceChar(a, target, replacement) + ReplaceChar(b, target, replacement)
  {
    if a != [] {
      assert (a + b)[1..] == a[1..] + b;
      ReplaceCharDistributes(a[1..], b, target, replacement);
    } else {
      assert a + b == b;
    }
  }

  lemma ReplacementsDistribute(a: string, b: string)
    ensures Replacements(a + b) == Replacements(a) + Replacements(b)
  {
    var s1a, s1b := ReplaceChar(a, '\\', "\\\\"), ReplaceChar(b, '\\', "\\\\");
    ReplaceCharDistributes(a, b, '\\', "\\\\");
    var s2a, s2b := ReplaceChar(s1a, '*', "\\*"), ReplaceChar(s1b, '*', "\\*");
    ReplaceCharDistributes(s1a, s1b, '*', "\\*");
    var s3a, s3b := ReplaceChar(s2a, '(', "\\("), ReplaceChar(s2b, '(', "\\(");
    ReplaceCharDistributes(s2a, s2b, '(', "\\(");
    ReplaceCharDistributes(s3a, s3b, ')', "\\)");
  }

  lemma {:induction false} ReplaceCharAbsent(s: string, target: char, replacement: string)
    requires target !in s
    ensures ReplaceChar(s, target, replacement) == s
  {
    if s != [] {
      ReplaceCharAbsent(s[1..], target, replacement);
      assert s == [s[0]] + s[1..];
    }
  }

  lemma ReplaceCharTarget(target: char, replacement: string)
    ensures ReplaceChar([target], target, replacement) == replacement
  {
    assert [target][1..] == [];
    assert replacement + [] == replacement;
  }

  lemma ReplacementsOfOneCharacter(c: char)
    ensures Replacements([c]) == EscapedChar(c)
  {
    var s1 := ReplaceChar([c], '\\', "\\\\");
    var s2 := ReplaceChar(s1, '*', "\\*");
    var s3 := ReplaceChar(s2, '(', "\\(");
    var s4 := ReplaceChar(s3, ')', "\\)");
    if c == '\\' {
      ReplaceCharTarget(c, "\\\\");
      ReplaceCharAbsent(s1, '*', "\\*");
      ReplaceCharAbsent(s2, '(', "\\(");
      ReplaceCharAbsent(s3, ')', "\\)");
    } else if c == '*' {
      ReplaceCharAbsent([c], '\\', "\\\\");
      ReplaceCharTarget(c, "\\*");
      ReplaceCharAbsent(s2, '(', "\\(");
      ReplaceCharAbsent(s3, ')', "\\)");
    } else if c == '(' {
      ReplaceCharAbsent([c], '\\', "\\\\");
      ReplaceCharAbsent(s1, '*', "\\*");
      ReplaceCharTarget(c, "\\(");
      ReplaceCharAbsent(s3, ')', "\\)");
    } else if c == ')' {
      ReplaceCharAbsent([c], '\\', "\\\\");
      ReplaceCharAbsent(s1, '*', "\\*");
      ReplaceCharAbsent(s2, '(', "\\(");
      ReplaceCharTarget(c, "\\)");
    } else {
      ReplaceCharAbsent([c], '\\', "\\\\");
      ReplaceCharAbsent(s1, '*', "\\*");
      ReplaceCharAbsent(s2, '(', "\\(");
      ReplaceCharAbsent(s3, ')', "\\)");
    }
  }

  /** The four passes of encode amount to escaping each special character once, the backslash included. */
  lemma {:induction false} ReplacementsEscapeEachCharacter(value: string)
    ensures Replacements(value) == Escaped(value)
  {
    if value != [] {
      assert value == [value[0]] + value[1..];
      ReplacementsDistribute([value[0]], value[1..]);
      ReplacementsOfOneCharacter(value[0]);
      ReplacementsEscapeEachCharacter(value[1..]);
    }
  }

  function CountSpecial(value: string): nat
  {
    if value == [] then 0 else (if IsFilterSpecial(value[0]) then 1 else 0) + CountSpecial(value[1..])
  }

  /** The encoded value is longer than the input by exactly the number of special characters. */
  lemma {:induction false} EncodeLength(value: string)
    ensures |Encode(value)| == |value| + CountSpecial(value)
  {
    EscapedLength(value);
  }

  lemma {:induction false} EscapedLength(value: string)
    ensures |Escaped(value)| == |value| + CountSpecial(value)
  {
    if value != [] {
      EscapedLength(value[1..]);
    }
  }

  /** An encoded value reads back, as an equality value, as the value itself with every character literal. */
  lemma EncodeParsesToLiteral(value: string)
    ensures ValueParses(Encode(value), Literal(value))
    ensures Encode(value) == [] || Encode(value)[0] != '*'
  {
    EscapedParsesToLiteral(value);
  }

  lemma EscapedParsesToLiteral(value: string)
    ensures ValueParses(Escaped(value), Literal(value))
    ensures Escaped(value) == [] || Escaped(value)[0] != '*'
  {
    forall tail | tail != [] && tail[0] == ')'
      ensures PatternTokens(Escaped(value) + tail) == Some((Literal(value), tail))
    {
      EscapedThenTokens(value, tail);
    }
  }

  /** The escaped value, in front of a closing parenthesis, reads as the value with every character literal. */
  lemma {:induction false} EscapedThenTokens(value: string, tail: string)
    requires tail != [] && tail[0] == ')'
    ensures PatternTokens(Escaped(value) + tail) == Some((Literal(value), tail))
  {
    if value == [] {
      assert Escaped(value) + tail == tail;
    } else {
      EscapedThenTokens(value[1..], tail);
      EscapedCharThenTokens(value[0], Escaped(value[1..]) + tail, Literal(value[1..]), tail);
      assert Escaped(value) + tail == EscapedChar(value[0]) + (Escaped(value[1..]) + tail);
    }
  }

  /** One escaped character in front of text that reads as `tokens` reads as that character, literal, followed by `tokens`. */
  lemma EscapedCharThenTokens(c: char, after: string, tokens: seq<Token>, tail: string)
    requires PatternTokens(after) == Some((tokens, tail))
    ensures PatternTokens(EscapedChar(c) + after) == Some(([Lit(c)] + tokens, tail))
  {
    var text := EscapedChar(c) + after;
    if IsFilterSpecial(c) {
      assert text[0] == '\\' && text[1] == c && text[2..] == after;
    } else {
      assert text[0] == c && text[1..] == after;
    }
  }

  /** An equality assertion on an encoded value reads as a literal item, which holds exactly when the attribute equals the value. */
  lemma EncodedAssertionIsExact(attr: string, value: string, attributes: map<string, string>)
    requires PlainAttr(attr)
    ensures Parses(Assertion(attr, Encode(value)), Item(attr, Equal(Literal(value))))
    ensures Eval(Item(attr, Equal(Literal(value))), attributes) <==> attr in attributes && attributes[attr] == value
  {
    EncodeParsesToLiteral(value);
    EqualityParses(attr, Encode(value), Literal(value));
    if attr in attributes {
      LiteralMatchesExactly(value, attributes[attr]);
    }
  }

  /** The attribute names the lookups query can stand in a filter as they are. */
  lemma AttributeNamesArePlain()
    ensures PlainAttr(SERVICE_PID) && PlainAttr(SERVICE_FACTORYPID) && PlainAttr(ALIAS_KEY)
  {
    NameCharsFromAll(SERVICE_PID, 0);
    FactoryPidKeyIsPlain();
    AliasKeyIsPlain();
  }

  lemma FactoryPidKeyIsPlain()
    ensures PlainAttr(SERVICE_FACTORYPID)
  {
    NameCharsFromAll("service.", 0);
    NameCharsFromAll("factoryPid", 0);
    NameCharsConcat("service.", "factoryPid");
    assert SERVICE_FACTORYPID == "service." + "factoryPid";
  }

  lemma AliasKeyIsPlain()
    ensures PlainAttr(ALIAS_KEY)
  {
    AliasKeyHalvesAreNameChars();
    NameCharsConcat("org.apac" + "he.sling" + ".install", "er.osgi." + "factorya" + "liaspid");
  }

  lemma AliasKeyHalvesAreNameChars()
    ensures var front := "org.apac" + "he.sling" + ".install";
      forall i :: 0 <= i < |front| ==> !IsOperatorStart(front[i]) && !IsWhitespace(front[i])
    ensures var back := "er.osgi." + "factorya" + "liaspid";
      forall i :: 0 <= i < |back| ==> !IsOperatorStart(back[i]) && !IsWhitespace(back[i])
  {
    NameCharsOfThree("org.apac", "he.sling", ".install");
    NameCharsOfThree("er.osgi.", "factorya", "liaspid");
  }

  /** Three literal runs of name characters, checked one character at a time, make one run. */
  lemma NameCharsOfThree(a: string, b: string, c: string)
    requires NameCharsFrom(a, 0) && NameCharsFrom(b, 0) && NameCharsFrom(c, 0)
    ensures forall i :: 0 <= i < |a + b + c| ==> !IsOperatorStart((a + b + c)[i]) && !IsWhitespace((a + b + c)[i])
  {
    NameCharsFromAll(a, 0);
    NameCharsFromAll(b, 0);
    NameCharsFromAll(c, 0);
    NameCharsConcat(a, b);
    NameCharsConcat(a + b, c);
  }


  // ---------------------------------------------------------------------------
  // Small helpers

  /** Boolean.parseBoolean: true exactly for "true" in any letter case. */
  predicate ParseBoolean(s: Option<string>)
  {
    s.Some? && |s.value| == 4 &&
    (s.value[0] == 't' || s.value[0] == 'T') && (s.value[1] == 'r' || s.value[1] == 'R') &&
    (s.value[2] == 'u' || s.value[2] == 'U') && (s.value[3] == 'e' || s.value[3] == 'E')
  }

  /**
   * toBoolean: a Boolean or the string form of any other object parsed as a
   * boolean; the default only for null. An array's string form is never "true".
   */
  function ToBoolean(obj: Option<Value>, defaultValue: bool): (r: bool)
    ensures obj.None? ==> r == defaultValue
    ensures obj.Some? && obj.value.Arr? ==> !r
    ensures obj.Some? && obj.value.Scalar? ==> (r <==> ParseBoolean(Some(obj.value.text)))
  {
    match obj
    case None => defaultValue
    case Some(Scalar(_, text)) => ParseBoolean(Some(text))
    case Some(Arr(_, _)) => false
  }

  lemma ToBooleanExamples()
    ensures ToBoolean(Some(Scalar(BOOLEAN, "false")), true) == false
    ensures ToBoolean(Some(Scalar(STRING, "TRUE")), false) == true
    ensures ToBoolean(Some(Scalar(STRING, "yes")), true) == false
    ensures ToBoolean(None, true) == true
  {
  }

  /** getPIDOfFactoryPID: the R7 pid of a named factory configuration. */
  function GetPIDOfFactoryPID(factoryPid: string, name: string): (pid: string)
    ensures |pid| == |factoryPid| + 1 + |name|
    ensures pid[..|factoryPid|] == factoryPid && pid[|factoryPid|] == '~' && pid[|factoryPid| + 1..] == name
  {
    factoryPid + "~" + name
  }

  /** A factory pid without `~` can be recovered from the R7 pid by splitting at the first `~`. */
  lemma FactoryPidSplitsAtFirstTilde(factoryPid: string, name: string)
    requires '~' !in factoryPid
    ensures var pid := GetPIDOfFactoryPID(factoryPid, name);
      (forall i :: 0 <= i < |factoryPid| ==> pid[i] != '~') && pid[|factoryPid|] == '~'
  {
    var pid := GetPIDOfFactoryPID(factoryPid, name);
    forall i | 0 <= i < |factoryPid|
      ensures pid[i] != '~'
    {
      assert pid[i] == factoryPid[i];
    }
  }

  // ---------------------------------------------------------------------------
  // Merging

  function Reversed<T>(s: seq<T>): (r: seq<T>)
    ensures |r| == |s|
    ensures forall i :: 0 <= i < |s| ==> r[i] == s[|s| - 1 - i]
  {
    if s == [] then [] else Reversed(s[1..]) + [s[0]]
  }

  /** A java.util.List of dictionaries that mergeReverseOrder reverses in place. */
  class DictionaryList {
    var items: seq<Dict>

    constructor ()
      ensures items == []
    {
      items := [];
    }

    method Add(d: Dict)
      modifies this
      ensures items == old(items) + [d]
    {
      items := items + [d];
    }

    /** Collections.reverse */
    method Reverse()
      modifies this
      ensures items == Reversed(old(items))
    {
      items := Reversed(items);
    }
  }

  /** The union of the dictionaries in which, for each key, the lowest-index dictionary holding it wins. */
  function FirstWins(ds: seq<Dict>): Dict
  {
    if ds == [] then map[] else FirstWins(ds[1..]) + ds[0]
  }

  /** Merging left to right, later dictionaries overwriting earlier ones. */
  function MergeAll(ds: seq<Dict>): Dict
  {
    if ds == [] then map[] else MergeAll(ds[..|ds| - 1]) + ds[|ds| - 1]
  }

  /** Merging the reversed list left to right makes the first dictionary win. */
  lemma {:induction false} MergeReversedIsFirstWins(ds: seq<Dict>)
    ensures MergeAll(Reversed(ds)) == FirstWins(ds)
  {
    if ds != [] {
      var rev := Reversed(ds);
      assert rev[..|rev| - 1] == Reversed(ds[1..]);
      MergeReversedIsFirstWins(ds[1..]);
    }
  }

  /** The merged key set is the union of the inputs' key sets. */
  lemma {:induction false} FirstWinsKeys(ds: seq<Dict>, key: string)
    ensures key in FirstWins(ds) <==> exists i :: 0 <= i < |ds| && key in ds[i]
  {
    if ds != [] {
      FirstWinsKeys(ds[1..], key);
      if key in FirstWins(ds[1..]) {
        var i :| 0 <= i < |ds[1..]| && key in ds[1..][i];
        assert key in ds[i + 1];
      }
      if exists i :: 0 <= i < |ds| && key in ds[i] {
        var i :| 0 <= i < |ds| && key in ds[i];
        if i > 0 {
          assert key in ds[1..][i - 1];
        }
      }
    }
  }

  /** Each key takes its value from the lowest-index dictionary that holds it. */
  lemma {:induction false} FirstWinsValue(ds: seq<Dict>, key: string, i: nat)
    requires i < |ds| && key in ds[i]
    requires forall j :: 0 <= j < i ==> key !in ds[j]
    ensures key in FirstWins(ds) && FirstWins(ds)[key] == ds[i][key]
  {
    if i > 0 {
      FirstWinsValue(ds[1..], key, i - 1);
    }
  }

  /** A single dictionary merges to itself. */
  lemma FirstWinsSingleton(d: Dict)
    ensures FirstWins([d]) == d
  {
    assert [d][1..] == [];
  }

  /** merge: every entry of `props` is put into `base`, overwriting. */
  method Merge(base: Hashtable, props: Dict)
    modifies base
    ensures base.entries == old(base.entries) + props
  {
    var pending := props.Keys;
    while pending != {}
      invariant pending <= props.Keys
      invariant base.entries == old(base.entries) + (map k | k in props && k !in pending :: props[k])
    {
      var key :| key in pending;
      var _ := base.Put(key, props[key]);
      pending := pending - {key};
    }
    assert (map k | k in props && k !in pending :: props[k]) == props;
  }

  /** mergeReverseOrder: reverses the caller's list, then merges it into a new table. */
  method MergeReverseOrder(propertiesList: DictionaryList) returns (properties: Dict)
    modifies propertiesList
    ensures propertiesList.items == Reversed(old(propertiesList.items))
    ensures properties == FirstWins(old(propertiesList.items))
  {
    ghost var original := propertiesList.items;
    propertiesList.Reverse();
    var table := new Hashtable(map[]);
    var i := 0;
    while i < |propertiesList.items|
      invariant 0 <= i <= |propertiesList.items|
      invariant propertiesList.items == Reversed(original)
      invariant table.entries == MergeAll(propertiesList.items[..i])
    {
      Merge(table, propertiesList.items[i]);
      assert propertiesList.items[..i + 1][..i] == propertiesList.items[..i];
      i := i + 1;
    }
    assert propertiesList.items[..i] == propertiesList.items;
    MergeReversedIsFirstWins(original);
    properties := table.entries;
  }

  // ---------------------------------------------------------------------------
  // Removing redundant properties

  /** Whether `key` of `properties` holds a non-null value that is the same as `base`'s. */
  predicate Redundant(properties: Dict, base: Dict, key: string)
  {
    key in properties && key in base && SameValue(Some(properties[key]), Some(base[key]))
  }

  /** The dictionary removeRedundantProperties leaves behind. */
  function WithoutRedundant(properties: Dict, base: Dict): (r: Dict)
    ensures forall k :: k in r <==> k in properties && !Redundant(properties, base, k)
    ensures forall k :: k in r ==> r[k] == properties[k]
  {
    map k | k in properties && !Redundant(properties, base, k) :: properties[k]
  }

  /** Removal is a restriction: nothing added, nothing changed, and a key with no base value always stays. */
  lemma WithoutRedundantOnlyRemoves(properties: Dict, base: Dict)
    ensures WithoutRedundant(properties, base).Keys <= properties.Keys
    ensures forall k :: k in properties && k !in base ==> k in WithoutRedundant(properties, base)
    ensures WithoutRedundant(properties, map[]) == properties
    ensures WithoutRedundant(WithoutRedundant(properties, base), base) == WithoutRedundant(properties, base)
  {
  }

  /** removeRedundantProperties: walks `base` and removes every key whose current value is the same. */
  method RemoveRedundantProperties(properties: Hashtable, base: Dict)
    modifies properties
    ensures properties.entries == WithoutRedundant(old(properties.entries), base)
  {
    ghost var original := properties.entries;
    var pending := base.Keys;
    while pending != {}
      invariant pending <= base.Keys
      invariant properties.entries ==
        map k | k in original && !(k !in pending && Redundant(original, base, k)) :: original[k]
    {
      var key :| key in pending;
      var value := base[key];
      var newValue := properties.Lookup(key);
      var same := IsSameValue(newValue, Some(value));
      if newValue.Some? && same {
        var _ := properties.Remove(key);
      }
      pending := pending - {key};
    }
  }

  // ---------------------------------------------------------------------------
  // Looking a configuration up in the store

  /** `(service.pid=<pid>)` */
  function PidFilter(pid: string): string
  {
    "(" + SERVICE_PID + "=" + Encode(pid) + ")"
  }

  /** `(&(service.factoryPid=<factoryPid>)(service.pid=<pid>))` */
  function FactoryPidFilter(factoryPid: string, pid: string): string
  {
    BothFilter(SERVICE_FACTORYPID, Encode(factoryPid), SERVICE_PID, Encode(pid))
  }

  /** The alias filter as getLegacyFactoryConfig writes it: the factory pid is not encoded. */
  function AliasFilterAsWritten(factoryPid: string, alias: string): string
  {
    BothFilter(SERVICE_FACTORYPID, factoryPid, ALIAS_KEY, Encode(alias))
  }

  /** The alias filter with the factory pid encoded like in the two filters before it. */
  function AliasFilter(factoryPid: string, alias: string): string
  {
    BothFilter(SERVICE_FACTORYPID, Encode(factoryPid), ALIAS_KEY, Encode(alias))
  }

  /** What a lookup asks of a record, in terms of the record rather than of a filter. */
  datatype Criterion =
    | PidIs(pid: string)
    | FactoryPidIs(factoryPid: string, pid: string)
    | AliasIs(factoryPid: string, alias: string)

  predicate Satisfies(c: Configuration, crit: Criterion)
  {
    Current(c) &&
    match crit
    case PidIs(pid) => c.pid == pid
    case FactoryPidIs(factoryPid, pid) => c.factoryPid == Some(factoryPid) && c.pid == pid
    case AliasIs(factoryPid, alias) => c.factoryPid == Some(factoryPid) && Property(c, ALIAS_KEY) == Some(alias)
  }

  function FilterOf(crit: Criterion): string
  {
    match crit
    case PidIs(pid) => PidFilter(pid)
    case FactoryPidIs(factoryPid, pid) => FactoryPidFilter(factoryPid, pid)
    case AliasIs(factoryPid, alias) => AliasFilter(factoryPid, alias)
  }

  /** The first record in store order that satisfies the criterion. */
  function FirstSatisfying(configs: seq<Configuration>, crit: Criterion): (r: Option<Configuration>)
    ensures r.Some? ==> r.value in configs && Satisfies(r.value, crit)
    ensures r.None? ==> forall c :: c in configs ==> !Satisfies(c, crit)
  {
    if configs == [] then None
    else if Satisfies(configs[0], crit) then Some(configs[0])
    else FirstSatisfying(configs[1..], crit)
  }

  /** Every filter the lookups build parses, and selects exactly the records satisfying its criterion. */
  lemma FilterMeansCriterion(crit: Criterion, c: Configuration)
    ensures Parse(FilterOf(crit)).Some?
    ensures Current(c) && Eval(Parse(FilterOf(crit)).value, Attributes(c)) <==> Satisfies(c, crit)
  {
    AttributeNamesArePlain();
    var attrs := Attributes(c);
    match crit
    case PidIs(pid) =>
      EncodedAssertionIsExact(SERVICE_PID, pid, attrs);
      ParsesWhole(Assertion(SERVICE_PID, Encode(pid)), Item(SERVICE_PID, Equal(Literal(pid))));
      assert PidFilter(pid) == Assertion(SERVICE_PID, Encode(pid));
    case FactoryPidIs(factoryPid, pid) =>
      EncodedAssertionIsExact(SERVICE_FACTORYPID, factoryPid, attrs);
      EncodedAssertionIsExact(SERVICE_PID, pid, attrs);
      EncodeParsesToLiteral(factoryPid);
      EncodeParsesToLiteral(pid);
      BothFilterParses(SERVICE_FACTORYPID, Encode(factoryPid), Literal(factoryPid), SERVICE_PID, Encode(pid), Literal(pid));
      EvalBoth(Item(SERVICE_FACTORYPID, Equal(Literal(factoryPid))), Item(SERVICE_PID, Equal(Literal(pid))), attrs);
    case AliasIs(factoryPid, alias) =>
      EncodedAssertionIsExact(SERVICE_FACTORYPID, factoryPid, attrs);
      EncodedAssertionIsExact(ALIAS_KEY, alias, attrs);
      EncodeParsesToLiteral(factoryPid);
      EncodeParsesToLiteral(alias);
      BothFilterParses(SERVICE_FACTORYPID, Encode(factoryPid), Literal(factoryPid), ALIAS_KEY, Encode(alias), Literal(alias));
      EvalBoth(Item(SERVICE_FACTORYPID, Equal(Literal(factoryPid))), Item(ALIAS_KEY, Equal(Literal(alias))), attrs);
  }

  /** The first listed record for a criterion's filter is the first record satisfying it. */
  lemma {:induction false} ListedHeadIsFirstSatisfying(configs: seq<Configuration>, crit: Criterion)
    ensures Parse(FilterOf(crit)).Some?
    ensures var listed := Listed(configs, Parse(FilterOf(crit)).value);
      (listed == [] <==> FirstSatisfying(configs, crit).None?) &&
      (listed != [] ==> listed[0] == FirstSatisfying(configs, crit).value)
  {
    FilterMeansCriterion(crit, Configuration("", None, None, None));
    if configs != [] {
      FilterMeansCriterion(crit, configs[0]);
      ListedHeadIsFirstSatisfying(configs[1..], crit);
    }
  }

  /** What one query answers: null when the filter selects nothing, else the first record it selects. */
  function ListedHead(configs: seq<Configuration>, filter: string): (r: Result<Option<Configuration>, Failure>)
    ensures Parse(filter).None? <==> r == Failure(SyntaxFailure)
    ensures r.Success? && r.value.Some? ==> r.value.value in configs && Current(r.value.value)
    ensures r.Success? && r.value.Some? ==> Eval(Parse(filter).value, Attributes(r.value.value))
    ensures r.Success? && r.value.None? ==>
      forall c :: c in configs && Current(c) ==> !Eval(Parse(filter).value, Attributes(c))
  {
    match Parse(filter)
    case None => Failure(SyntaxFailure)
    case Some(node) =>
      var listed := Listed(configs, node);
      if listed == [] then Success(None) else Success(Some(listed[0]))
  }

  /** One query with a given filter: the first record it selects, or null. */
  method QueryFirst(ca: ConfigurationAdmin, filter: string) returns (r: Result<Option<Configuration>, Failure>)
    ensures !ca.available ==> r == Failure(IOFailure)
    ensures ca.available ==> r == ListedHead(ca.configs, filter)
  {
    var configs := ca.ListConfigurations(filter);
    if configs.Failure? {
      return Failure(configs.error);
    }
    if |configs.value| > 0 {
      return Success(Some(configs.value[0]));
    }
    return Success(None);
  }

  /** One query for a criterion: the first record satisfying it, or null. */
  method FirstListed(ca: ConfigurationAdmin, crit: Criterion) returns (r: Result<Option<Configuration>, Failure>)
    ensures !ca.available ==> r == Failure(IOFailure)
    ensures ca.available ==> r == Success(FirstSatisfying(ca.configs, crit))
  {
    ListedHeadIsFirstSatisfying(ca.configs, crit);
    r := QueryFirst(ca, FilterOf(crit));
  }

  /** The record getOrCreateConfiguration finds without creating: by pid, or by factory pid and R7 pid. */
  function PrimaryCriterion(factoryPid: Option<string>, configPidOrName: string): Criterion
  {
    match factoryPid
    case None => PidIs(configPidOrName)
    case Some(f) => FactoryPidIs(f, GetPIDOfFactoryPID(f, configPidOrName))
  }

  /** getOrCreateConfiguration with createIfNeeded false: a single filtered query. */
  method FindConfiguration(ca: ConfigurationAdmin, factoryPid: Option<string>, configPidOrName: string)
    returns (r: Result<Option<Configuration>, Failure>)
    ensures !ca.available ==> r == Failure(IOFailure)
    ensures ca.available ==> r.Success?
    ensures r.Success? && r.value.Some? ==> r.value.value in ca.configs && Current(r.value.value)
    ensures r.Success? && r.value.Some? && factoryPid.None? ==> r.value.value.pid == configPidOrName
    ensures r.Success? && r.value.Some? && factoryPid.Some? ==>
      r.value.value.factoryPid == factoryPid &&
      r.value.value.pid == GetPIDOfFactoryPID(factoryPid.value, configPidOrName)
    ensures r.Success? && r.value.None? ==>
      forall c :: c in ca.configs ==> !Satisfies(c, PrimaryCriterion(factoryPid, configPidOrName))
  {
    r := FirstListed(ca, PrimaryCriterion(factoryPid, configPidOrName));
  }

  /** getOrCreateConfiguration with createIfNeeded true (createConfiguration). */
  method CreateConfiguration(ca: ConfigurationAdmin, factoryPid: Option<string>, configPidOrName: string, location: Option<string>)
    returns (r: Result<Configuration, Failure>)
    requires ca.Valid()
    modifies ca
    ensures ca.Valid() && ca.available == old(ca.available)
    ensures !old(ca.available) ==> r == Failure(IOFailure) && ca.configs == old(ca.configs)
    ensures old(ca.available) ==>
      var pid := if factoryPid.Some? then GetPIDOfFactoryPID(factoryPid.value, configPidOrName) else configPidOrName;
      var (c, after) := Obtain(old(ca.configs), pid, factoryPid, location);
      r == Success(c) && ca.configs == after
  {
    if factoryPid.None? {
      r := ca.GetConfiguration(configPidOrName, location);
    } else {
      r := ca.GetFactoryConfiguration(factoryPid.value, configPidOrName, location);
    }
  }

  /**
   * The answer getLegacyFactoryConfig gives, in terms of the records: the first
   * record of the factory with pid configPid, else with pid
   * `factoryPid.configPid`, else the first record the alias filter selects.
   * That filter carries the factory pid unencoded, so a special character in
   * it acts as filter syntax. A null configPid skips the first query, looks
   * for `factoryPid.null` and then fails in encode.
   */
  function LegacyLookup(configs: seq<Configuration>, factoryPid: string, configPid: Option<string>)
    : Result<Option<Configuration>, Failure>
  {
    var byPid := if configPid.Some? then FirstSatisfying(configs, FactoryPidIs(factoryPid, configPid.value)) else None;
    var dotted := factoryPid + "." + (if configPid.Some? then configPid.value else "null");
    var byDottedPid := FirstSatisfying(configs, FactoryPidIs(factoryPid, dotted));
    if byPid.Some? then Success(byPid)
    else if byDottedPid.Some? then Success(byDottedPid)
    else if configPid.None? then Failure(RuntimeFailure)
    else ListedHead(configs, AliasFilterAsWritten(factoryPid, configPid.value))
  }

  /** getLegacyFactoryConfig: up to three queries, each tried when the previous one found nothing. */
  method GetLegacyFactoryConfig(ca: ConfigurationAdmin, factoryPid: string, aliasPid: Option<string>, pid: Option<string>)
    returns (r: Result<Option<Configuration>, Failure>)
    ensures aliasPid.Some? && |aliasPid.value| < |factoryPid| + 1 ==> r == Failure(RuntimeFailure)
    ensures !(aliasPid.Some? && |aliasPid.value| < |factoryPid| + 1) && !ca.available ==> r == Failure(IOFailure)
    ensures !(aliasPid.Some? && |aliasPid.value| < |factoryPid| + 1) && ca.available ==>
      var configPid := if aliasPid.Some? then Some(aliasPid.value[|factoryPid| + 1..]) else pid;
      r == LegacyLookup(ca.configs, factoryPid, configPid)
  {
    if aliasPid.Some? && |aliasPid.value| < |factoryPid| + 1 {
      return Failure(RuntimeFailure);
    }
    var configPid := if aliasPid.Some? then Some(aliasPid.value[|factoryPid| + 1..]) else pid;
    var configs: Result<Option<Configuration>, Failure> := Success(None);
    if configPid.Some? {
      configs := FirstListed(ca, FactoryPidIs(factoryPid, configPid.value));
      if configs.Failure? {
        return configs;
      }
    }
    if configs.value.None? {
      var dotted := factoryPid + "." + (if configPid.Some? then configPid.value else "null");
      configs := FirstListed(ca, FactoryPidIs(factoryPid, dotted));
      if configs.Failure? {
        return configs;
      }
    }
    if configs.value.None? {
      if configPid.None? {
        return Failure(RuntimeFailure);
      }
      configs := QueryFirst(ca, AliasFilterAsWritten(factoryPid, configPid.value));
    }
    r := configs;
  }

  /** getConfiguration: the primary query, then the legacy lookup for a factory configuration not found. */
  method GetConfiguration(ca: ConfigurationAdmin, factoryPid: Option<string>, configPidOrName: string)
    returns (r: Result<Option<Configuration>, Failure>)
    ensures !ca.available ==> r == Failure(IOFailure)
    ensures ca.available ==>
      var primary := FirstSatisfying(ca.configs, PrimaryCriterion(factoryPid, configPidOrName));
      r == if primary.Some? || factoryPid.None? then Success(primary)
           else LegacyLookup(ca.configs, factoryPid.value, Some(configPidOrName))
  {
    r := FirstListed(ca, PrimaryCriterion(factoryPid, configPidOrName));
    if r.Success? && r.value.None? && factoryPid.Some? {
      r := GetLegacyFactoryConfig(ca, factoryPid.value, None, Some(configPidOrName));
    }
  }

  /**
   * Whatever the legacy lookup returns is a current record of the store. It
   * fails only in encode for a null pid, or with a syntax error when the
   * unencoded factory pid breaks the alias filter; and when the first two
   * queries find nothing, a broken alias filter does make it fail.
   */
  lemma LegacyLookupFindsStoredRecord(configs: seq<Configuration>, factoryPid: string, configPid: Option<string>)
    ensures var r := LegacyLookup(configs, factoryPid, configPid);
      (r.Success? && r.value.Some? ==> r.value.value in configs && Current(r.value.value)) &&
      (r.Failure? && configPid.None? ==> r.error == RuntimeFailure) &&
      (r.Failure? && configPid.Some? ==>
        r.error == SyntaxFailure && Parse(AliasFilterAsWritten(factoryPid, configPid.value)).None?) &&
      ((configPid.Some? &&
        FirstSatisfying(configs, FactoryPidIs(factoryPid, configPid.value)).None? &&
        FirstSatisfying(configs, FactoryPidIs(factoryPid, factoryPid + "." + configPid.value)).None? &&
        Parse(AliasFilterAsWritten(factoryPid, configPid.value)).None?)
       ==> r == Failure(SyntaxFailure))
  {
  }

  /** A factory pid none of whose characters is special in a filter. */
  predicate PlainValue(value: string)
  {
    forall i :: 0 <= i < |value| ==> !IsFilterSpecial(value[i])
  }

  lemma {:induction false} EscapedPlainValue(value: string)
    requires PlainValue(value)
    ensures Escaped(value) == value
  {
    if value != [] {
      EscapedPlainValue(value[1..]);
      assert value == [value[0]] + value[1..];
    }
  }

  /**
   * For a factory pid without special characters the alias filter as written
   * is the exact one, so the lookup never fails for a given pid and finds only
   * records of the asked-for factory: by pid, dotted pid or alias.
   */
  lemma PlainFactoryPidFindsOwnRecord(configs: seq<Configuration>, factoryPid: string, name: string)
    requires PlainValue(factoryPid)
    ensures var r := LegacyLookup(configs, factoryPid, Some(name));
      r.Success? && (r.value.Some? ==> r.value.value.factoryPid == Some(factoryPid)) &&
      (r.value.None? ==> forall c :: c in configs ==> !Satisfies(c, AliasIs(factoryPid, name)))
  {
    EscapedPlainValue(factoryPid);
    assert AliasFilterAsWritten(factoryPid, name) == FilterOf(AliasIs(factoryPid, name));
    ListedHeadIsFirstSatisfying(configs, AliasIs(factoryPid, name));
  }

  /**
   * The unencoded factory pid of the alias filter can widen it: a `*` in the
   * factory pid is a wildcard, so the filter selects another factory's record,
   * which the lookup then returns.
   */
  lemma AliasFilterAsWrittenMisreadsFactoryPid()
    ensures var stranger := Configuration("ab.1", Some("ab"), Some(map[ALIAS_KEY := StringValue("x")]), None);
      Parse(AliasFilterAsWritten("a*", "x")).Some? &&
      Eval(Parse(AliasFilterAsWritten("a*", "x")).value, Attributes(stranger)) &&
      !Satisfies(stranger, AliasIs("a*", "x")) &&
      LegacyLookup([stranger], "a*", Some("x")) == Success(Some(stranger))
  {
    var stranger := Configuration("ab.1", Some("ab"), Some(map[ALIAS_KEY := StringValue("x")]), None);
    WildcardAliasFilterParses();
    WildcardFilterSelects(stranger);
    WildcardLookupFindsStranger(stranger);
  }

  lemma WildcardAliasFilterParses()
    ensures Parse(AliasFilterAsWritten("a*", "x")) ==
      Some(And([Item(SERVICE_FACTORYPID, Equal([Lit('a'), Star])), Item(ALIAS_KEY, Equal(Literal("x")))]))
  {
    AttributeNamesArePlain();
    UnescapedValueParses("a*");
    assert PatternOf("a*") == [Lit('a'), Star] by {
      assert "a*"[1..] == "*" && "*"[1..] == [];
    }
    EncodeParsesToLiteral("x");
    BothFilterParses(SERVICE_FACTORYPID, "a*", [Lit('a'), Star], ALIAS_KEY, Encode("x"), Literal("x"));
  }

  lemma WildcardFilterSelects(stranger: Configuration)
    requires stranger == Configuration("ab.1", Some("ab"), Some(map[ALIAS_KEY := StringValue("x")]), None)
    ensures Current(stranger)
    ensures Eval(And([Item(SERVICE_FACTORYPID, Equal([Lit('a'), Star])), Item(ALIAS_KEY, Equal(Literal("x")))]), Attributes(stranger))
  {
    var attrs := Attributes(stranger);
    var wild := Item(SERVICE_FACTORYPID, Equal([Lit('a'), Star]));
    var alias := Item(ALIAS_KEY, Equal(Literal("x")));
    EvalBoth(wild, alias, attrs);
    LiteralMatchesExactly("x", "x");
    assert attrs[SERVICE_FACTORYPID] == "ab" && attrs[ALIAS_KEY] == "x";
    assert Matches([Star], "b") by {
      assert Matches([], "");
      assert "b"[1..] == "";
    }
    assert Matches([Lit('a'), Star], "ab") by {
      assert "ab"[1..] == "b";
      assert [Lit('a'), Star][1..] == [Star];
    }
  }

  lemma WildcardLookupFindsStranger(stranger: Configuration)
    requires stranger == Configuration("ab.1", Some("ab"), Some(map[ALIAS_KEY := StringValue("x")]), None)
    ensures !Satisfies(stranger, AliasIs("a*", "x")) && LegacyLookup([stranger], "a*", Some("x")) == Success(Some(stranger))
  {
    var nodes := [Item(SERVICE_FACTORYPID, Equal([Lit('a'), Star])), Item(ALIAS_KEY, Equal(Literal("x")))];
    WildcardAliasFilterParses();
    WildcardFilterSelects(stranger);
    LookupOfStrangerIsAliasQuery([stranger], "a*", "x");
    assert [stranger][1..] == [];
    assert Listed([stranger], And(nodes)) == [stranger];
  }

  /**
   * A parenthesis in the unencoded factory pid breaks the alias filter: `(`
   * inside a value is a syntax error, and `)` ends the first assertion and the
   * conjunction early, leaving text after the filter. The lookup then fails.
   */
  lemma AliasFilterAsWrittenBreaksOnParenthesis()
    ensures Parse(AliasFilterAsWritten("a(", "x")).None?
    ensures LegacyLookup([], "a(", Some("x")) == Failure(SyntaxFailure)
    ensures Parse(AliasFilterAsWritten("a)", "x")).None?
    ensures LegacyLookup([], "a)", Some("x")) == Failure(SyntaxFailure)
  {
    AttributeNamesArePlain();
    OpenParenthesisBreaksBothFilter(SERVICE_FACTORYPID, ALIAS_KEY, Encode("x"));
    CloseParenthesisBreaksBothFilter(SERVICE_FACTORYPID, ALIAS_KEY, Encode("x"));
  }

  /**
   * A factory pid can add assertions to the alias filter: with `a)(x=y` the
   * filter asks for factory `a`, for `x=y` and for the alias, so the lookup
   * returns a record of factory `a` that has x=y.
   */
  lemma AliasFilterAsWrittenInjectsAssertion()
    ensures var other := Configuration("a.1", Some("a"), Some(map["x" := StringValue("y"), ALIAS_KEY := StringValue("n")]), None);
      Parse(AliasFilterAsWritten("a)(x=y", "n")) == Some(And([
        Item(SERVICE_FACTORYPID, Equal(Literal("a"))), Item("x", Equal(Literal("y"))), Item(ALIAS_KEY, Equal(Literal("n")))])) &&
      !Satisfies(other, AliasIs("a)(x=y", "n")) &&
      LegacyLookup([other], "a)(x=y", Some("n")) == Success(Some(other))
  {
    var other := Configuration("a.1", Some("a"), Some(map["x" := StringValue("y"), ALIAS_KEY := StringValue("n")]), None);
    InjectedAliasFilterParses();
    InjectedLookupFindsOther(other);
  }

  lemma InjectedAliasFilterParses()
    ensures Parse(AliasFilterAsWritten("a)(x=y", "n")) == Some(And([
      Item(SERVICE_FACTORYPID, Equal(Literal("a"))), Item("x", Equal(Literal("y"))), Item(ALIAS_KEY, Equal(Literal("n")))]))
  {
    AttributeNamesArePlain();
    EncodeParsesToLiteral("n");
    InjectedFilterParses(SERVICE_FACTORYPID, ALIAS_KEY, Encode("n"), Literal("n"));
  }

  lemma InjectedLookupFindsOther(other: Configuration)
    requires other == Configuration("a.1", Some("a"), Some(map["x" := StringValue("y"), ALIAS_KEY := StringValue("n")]), None)
    ensures !Satisfies(other, AliasIs("a)(x=y", "n")) && LegacyLookup([other], "a)(x=y", Some("n")) == Success(Some(other))
  {
    var nodes := [Item(SERVICE_FACTORYPID, Equal(Literal("a"))), Item("x", Equal(Literal("y"))), Item(ALIAS_KEY, Equal(Literal("n")))];
    InjectedAliasFilterParses();
    InjectedFilterSelects(other, nodes);
    LookupOfStrangerIsAliasQuery([other], "a)(x=y", "n");
    assert [other][1..] == [];
    assert Listed([other], And(nodes)) == [other];
  }

  /** When no record belongs to the factory, the legacy lookup answers with the alias query. */
  lemma LookupOfStrangerIsAliasQuery(configs: seq<Configuration>, factoryPid: string, name: string)
    requires forall c :: c in configs ==> c.factoryPid != Some(factoryPid)
    ensures LegacyLookup(configs, factoryPid, Some(name)) == ListedHead(configs, AliasFilterAsWritten(factoryPid, name))
  {
  }

  lemma InjectedFilterSelects(other: Configuration, nodes: seq<Node>)
    requires other == Configuration("a.1", Some("a"), Some(map["x" := StringValue("y"), ALIAS_KEY := StringValue("n")]), None)
    requires nodes == [Item(SERVICE_FACTORYPID, Equal(Literal("a"))), Item("x", Equal(Literal("y"))), Item(ALIAS_KEY, Equal(Literal("n")))]
    ensures Current(other) && Eval(And(nodes), Attributes(other))
  {
    var attrs := Attributes(other);
    LiteralMatchesExactly("a", "a");
    LiteralMatchesExactly("y", "y");
    LiteralMatchesExactly("n", "n");
    assert attrs[SERVICE_FACTORYPID] == "a" && attrs["x"] == "y" && attrs[ALIAS_KEY] == "n";
    AllHoldEvery(nodes, attrs);
  }
}
