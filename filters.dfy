/**
 * The OSGi filter language (section 3.2.7 of the OSGi Core R7 specification)
 * as the framework's filter parser reads a filter string, and the matching of
 * a parsed filter against the string attributes of a configuration record.
 *
 * The parser reads the text left to right, as the framework's does: a filter
 * is `(` filter-comp `)`, and a filter-comp is `&` or `|` followed by one or
 * more filters, `!` followed by one filter, or an item `attr op value`.
 * Whitespace is skipped around filters and operators. In a value a backslash
 * makes the next character literal, an unescaped `)` ends the value, and an
 * unescaped `(` is a syntax error; in an equality value an unescaped `*` is a
 * wildcard. Text left over after the outermost filter, or input that ends
 * too early, is a syntax error too.
 *
 * The parse functions take the remaining input and return what they read
 * together with the input that is left; None is an InvalidSyntaxException.
 */
module Filters {
  import opened Wrappers
  import opened Values

  /** Character.isWhitespace: the space separators other than the non-breaking ones, line and paragraph separators, and the ASCII controls TAB, LF, VT, FF, CR and FS to US. */
  predicate IsWhitespace(c: char)
  {
    ('\t' <= c <= '\r') || ('\U{001C}' <= c <= ' ') || c == '\U{1680}' ||
    ('\U{2000}' <= c <= '\U{2006}') || ('\U{2008}' <= c <= '\U{200A}') ||
    c == '\U{2028}' || c == '\U{2029}' || c == '\U{205F}' || c == '\U{3000}'
  }

  /** A character that ends an attribute name. */
  predicate IsOperatorStart(c: char)
  {
    c == '~' || c == '<' || c == '>' || c == '=' || c == '(' || c == ')'
  }

  /** skipWhiteSpace */
  function SkipWhitespace(s: string): (r: string)
    ensures |r| <= |s|
    ensures r == [] || !IsWhitespace(r[0])
    ensures s == [] || !IsWhitespace(s[0]) ==> r == s
  {
    if s != [] && IsWhitespace(s[0]) then SkipWhitespace(s[1..]) else s
  }

  // ---------------------------------------------------------------------------
  // Parsed filters

  /** One position of an equality value. */
  datatype Token = Lit(c: char) | Star

  /** The comparison an item makes with the attribute's value. */
  datatype Operation =
    | Equal(pattern: seq<Token>)  // `=`: equality, or a substring match when the pattern holds a wildcard
    | Approx(value: string)       // `~=`
    | AtLeast(value: string)      // `>=`
    | AtMost(value: string)       // `<=`
    | Present                     // `=*`

  datatype Node =
    | And(operands: seq<Node>)
    | Or(operands: seq<Node>)
    | Not(operand: Node)
    | Item(attr: string, op: Operation)

  // ---------------------------------------------------------------------------
  // The parser

  /** The characters before the first one that ends an attribute name, and the rest. */
  function ScanAttr(s: string): (r: (string, string))
    ensures r.0 + r.1 == s
    ensures r.1 == [] || IsOperatorStart(r.1[0])
  {
    if s == [] || IsOperatorStart(s[0]) then ([], s)
    else
      var (name, rest) := ScanAttr(s[1..]);
      assert s == [s[0]] + s[1..];
      ([s[0]] + name, rest)
  }

  /** The name without its trailing whitespace. */
  function TrimEnd(s: string): (r: string)
    ensures |r| <= |s|
  {
    if s != [] && IsWhitespace(s[|s| - 1]) then TrimEnd(s[..|s| - 1]) else s
  }

  /** parse_attr: the trimmed name up to an operator; the input must go on after it, and the name must not be blank. */
  function ParseAttr(s: string): (r: Option<(string, string)>)
    ensures r.Some? ==> |r.value.1| < |s| && r.value.1 != [] && IsOperatorStart(r.value.1[0])
  {
    var (name, rest) := ScanAttr(SkipWhitespace(s));
    var attr := TrimEnd(name);
    if rest == [] || attr == [] then None else Some((attr, rest))
  }

  /** The characters of a value up to the `)` that ends it. */
  function ValueChars(s: string): (r: Option<(string, string)>)
    ensures r.Some? ==> |r.value.1| <= |s| && r.value.1 != [] && r.value.1[0] == ')'
  {
    if s == [] then None
    else if s[0] == ')' then Some(([], s))
    else if s[0] == '(' then None
    else if s[0] == '\\' then
      if |s| == 1 then None
      else match ValueChars(s[2..])
        case None => None
        case Some((value, rest)) => Some(([s[1]] + value, rest))
    else match ValueChars(s[1..])
      case None => None
      case Some((value, rest)) => Some(([s[0]] + value, rest))
  }

  /** parse_value, the value of `~=`, `>=` and `<=`: it must not be empty. */
  function ParseValue(s: string): (r: Option<(string, string)>)
    ensures r.Some? ==> |r.value.1| <= |s| && r.value.1 != [] && r.value.1[0] == ')'
  {
    match ValueChars(s)
    case None => None
    case Some((value, rest)) => if value == [] then None else Some((value, rest))
  }

  /** parse_substring, the value of `=`: like ValueChars, and an unescaped `*` is a wildcard. */
  function PatternTokens(s: string): (r: Option<(seq<Token>, string)>)
    ensures r.Some? ==> |r.value.1| <= |s| && r.value.1 != [] && r.value.1[0] == ')'
  {
    if s == [] then None
    else if s[0] == ')' then Some(([], s))
    else if s[0] == '(' then None
    else if s[0] == '\\' then
      if |s| == 1 then None
      else match PatternTokens(s[2..])
        case None => None
        case Some((pattern, rest)) => Some(([Lit(s[1])] + pattern, rest))
    else match PatternTokens(s[1..])
      case None => None
      case Some((pattern, rest)) => Some(([if s[0] == '*' then Star else Lit(s[0])] + pattern, rest))
  }

  /** The operator and value of an item, up to the `)` after them. */
  function ParseOperation(s: string): (r: Option<(Operation, string)>)
    ensures r.Some? ==> |r.value.1| < |s|
  {
    if |s| < 2 then None
    else if s[0] == '~' || s[0] == '>' || s[0] == '<' then
      if s[1] != '=' then None
      else match ParseValue(s[2..])
        case None => None
        case Some((value, after)) =>
          Some((if s[0] == '~' then Approx(value) else if s[0] == '>' then AtLeast(value) else AtMost(value), after))
    else if s[0] == '=' then
      var blank := SkipWhitespace(s[2..]);
      if s[1] == '*' && blank == [] then None
      else if s[1] == '*' && blank[0] == ')' then Some((Present, blank))
      else match PatternTokens(s[1..])
        case None => None
        case Some((pattern, after)) => Some((Equal(pattern), after))
    else None
  }

  /** parse_item: an attribute, an operator and a value, up to the `)` after it. */
  function ParseItem(s: string): (r: Option<(Node, string)>)
    ensures r.Some? ==> |r.value.1| < |s|
  {
    match ParseAttr(s)
    case None => None
    case Some((attr, rest)) =>
      match ParseOperation(rest)
      case None => None
      case Some((op, after)) => Some((Item(attr, op), after))
  }

  /** parse_filter: `(` filter-comp `)` and the whitespace after it. */
  function ParseFilter(s: string): (r: Option<(Node, string)>)
    ensures r.Some? ==> |r.value.1| < |s|
    decreases |s|, 0
  {
    var t := SkipWhitespace(s);
    if t == [] || t[0] != '(' then None
    else match ParseComp(t[1..])
      case None => None
      case Some((node, rest)) =>
        var u := SkipWhitespace(rest);
        if u == [] || u[0] != ')' then None
        else Some((node, SkipWhitespace(u[1..])))
  }

  /**
   * parse_filtercomp with parse_and, parse_or and parse_not: an operator not
   * followed by `(` is read back as the first character of an item's attribute.
   */
  function ParseComp(s: string): (r: Option<(Node, string)>)
    ensures r.Some? ==> |r.value.1| <= |s|
    decreases |s|, 0
  {
    var t := SkipWhitespace(s);
    if t == [] then None
    else if t[0] == '&' || t[0] == '|' || t[0] == '!' then
      var u := SkipWhitespace(t[1..]);
      if u == [] then None
      else if u[0] != '(' then ParseItem(t)
      else if t[0] == '!' then
        match ParseFilter(u)
        case None => None
        case Some((operand, rest)) => Some((Not(operand), rest))
      else
        match ParseOperands(u)
        case None => None
        case Some((operands, rest)) => Some((if t[0] == '&' then And(operands) else Or(operands), rest))
    else ParseItem(t)
  }

  /** The operands of `&` and `|`: filters as long as the next character is `(`. */
  function ParseOperands(s: string): (r: Option<(seq<Node>, string)>)
    ensures r.Some? ==> |r.value.1| < |s| && r.value.0 != []
    decreases |s|, 1
  {
    match ParseFilter(s)
    case None => None
    case Some((operand, rest)) =>
      if rest == [] then None
      else if rest[0] != '(' then Some(([operand], rest))
      else match ParseOperands(rest)
        case None => None
        case Some((more, after)) => Some(([operand] + more, after))
  }

  /** FrameworkUtil.createFilter: one filter and nothing after it. */
  function Parse(text: string): (r: Option<Node>)
  {
    match ParseFilter(text)
    case None => None
    case Some((node, rest)) => if rest == [] then Some(node) else None
  }

  // ---------------------------------------------------------------------------
  // Matching

  /** Does the attribute value `s` match the equality pattern? */
  function Matches(pattern: seq<Token>, s: string): bool
    decreases |pattern| + |s|
  {
    if pattern == [] then s == []
    else match pattern[0]
      case Star => Matches(pattern[1..], s) || (s != [] && Matches(pattern, s[1..]))
      case Lit(c) => s != [] && s[0] == c && Matches(pattern[1..], s[1..])
  }

  function WithoutWhitespace(s: string): (r: string)
    ensures |r| <= |s|
  {
    if s == [] then [] else (if IsWhitespace(s[0]) then [] else [s[0]]) + WithoutWhitespace(s[1..])
  }

  function UpperCase(c: char): char
  {
    if 'a' <= c <= 'z' then (c as int - 32) as char else c
  }

  /** String.equalsIgnoreCase, for the letters A to Z. */
  predicate SameIgnoringCase(a: string, b: string)
  {
    |a| == |b| && forall i :: 0 <= i < |a| ==> UpperCase(a[i]) == UpperCase(b[i])
  }

  /** How an item's operation compares a string attribute with its value. */
  predicate Compare(op: Operation, attribute: string)
  {
    match op
    case Equal(pattern) => Matches(pattern, attribute)
    case Approx(value) => SameIgnoringCase(WithoutWhitespace(attribute), WithoutWhitespace(value))
    case AtLeast(value) => !Less(attribute, value)
    case AtMost(value) => !Less(value, attribute)
    case Present => true
  }

  /** Filter.match against a record's string attributes; an absent attribute fails every item. */
  function Eval(node: Node, attributes: map<string, string>): bool
    decreases node
  {
    match node
    case And(operands) => AllHold(operands, attributes)
    case Or(operands) => AnyHolds(operands, attributes)
    case Not(operand) => !Eval(operand, attributes)
    case Item(attr, op) => attr in attributes && Compare(op, attributes[attr])
  }

  function AllHold(nodes: seq<Node>, attributes: map<string, string>): bool
    decreases nodes
  {
    nodes == [] || (Eval(nodes[0], attributes) && AllHold(nodes[1..], attributes))
  }

  function AnyHolds(nodes: seq<Node>, attributes: map<string, string>): bool
    decreases nodes
  {
    nodes != [] && (Eval(nodes[0], attributes) || AnyHolds(nodes[1..], attributes))
  }

  // ---------------------------------------------------------------------------
  // Writing filters that parse

  /** `(attr=value)` */
  function Assertion(attr: string, value: string): string
  {
    "(" + attr + "=" + value + ")"
  }

  /** Filters written one after another. */
  function Joined(texts: seq<string>): string
  {
    if texts == [] then [] else texts[0] + Joined(texts[1..])
  }

  /** `(&` filters `)` */
  function Conjunction(texts: seq<string>): string
  {
    "(&" + Joined(texts) + ")"
  }

  /** `text` is one filter that reads as `node`, whatever non-blank text follows it. */
  ghost predicate Parses(text: string, node: Node)
  {
    text != [] && text[0] == '(' &&
    forall rest {:trigger ParseFilter(text + rest)} :: (rest == [] || !IsWhitespace(rest[0])) ==> ParseFilter(text + rest) == Some((node, rest))
  }

  /** `text` reads as the equality pattern, up to any `)` that follows it. */
  ghost predicate ValueParses(text: string, pattern: seq<Token>)
  {
    forall tail {:trigger PatternTokens(text + tail)} :: tail != [] && tail[0] == ')' ==> PatternTokens(text + tail) == Some((pattern, tail))
  }

  /** A name that can stand as an attribute: not blank, no operator or whitespace, not starting with `&`, `|` or `!`. */
  predicate PlainAttr(attr: string)
  {
    attr != [] && attr[0] != '&' && attr[0] != '|' && attr[0] != '!' &&
    forall i :: 0 <= i < |attr| ==> !IsOperatorStart(attr[i]) && !IsWhitespace(attr[i])
  }

  /** The characters from index `from` on can stand in an attribute name (checks a literal one character at a time). */
  predicate NameCharsFrom(s: string, from: nat)
    decreases |s| - from
  {
    from >= |s| || (!IsOperatorStart(s[from]) && !IsWhitespace(s[from]) && NameCharsFrom(s, from + 1))
  }

  lemma {:induction false} NameCharsFromAll(s: string, from: nat)
    requires NameCharsFrom(s, from)
    ensures forall i :: from <= i < |s| ==> !IsOperatorStart(s[i]) && !IsWhitespace(s[i])
    decreases |s| - from
  {
    if from < |s| {
      NameCharsFromAll(s, from + 1);
    }
  }

  /** Two runs of name characters written one after the other are one run. */
  lemma NameCharsConcat(a: string, b: string)
    requires forall i :: 0 <= i < |a| ==> !IsOperatorStart(a[i]) && !IsWhitespace(a[i])
    requires forall i :: 0 <= i < |b| ==> !IsOperatorStart(b[i]) && !IsWhitespace(b[i])
    ensures forall i :: 0 <= i < |a + b| ==> !IsOperatorStart((a + b)[i]) && !IsWhitespace((a + b)[i])
  {
    forall i | 0 <= i < |a + b|
      ensures !IsOperatorStart((a + b)[i]) && !IsWhitespace((a + b)[i])
    {
      if i >= |a| {
        assert (a + b)[i] == b[i - |a|];
      }
    }
  }

  lemma {:induction false} ScanAttrStopsAtOperator(name: string, rest: string)
    requires forall i :: 0 <= i < |name| ==> !IsOperatorStart(name[i])
    requires rest == [] || IsOperatorStart(rest[0])
    ensures ScanAttr(name + rest) == (name, rest)
  {
    if name == [] {
      assert name + rest == rest;
    } else {
      var s := name + rest;
      assert s[0] == name[0] && s[1..] == name[1..] + rest;
      ScanAttrStopsAtOperator(name[1..], rest);
      assert [name[0]] + name[1..] == name;
    }
  }

  /** A plain attribute followed by an operator reads as itself. */
  lemma AttrParses(attr: string, rest: string)
    requires PlainAttr(attr)
    requires rest != [] && IsOperatorStart(rest[0])
    ensures ParseAttr(attr + rest) == Some((attr, rest))
  {
    assert (attr + rest)[0] == attr[0];
    ScanAttrStopsAtOperator(attr, rest);
  }

  /** The tokens of a value in which every character stands for itself. */
  function Literal(s: string): (r: seq<Token>)
    ensures |r| == |s|
    ensures forall i :: 0 <= i < |s| ==> r[i] == Lit(s[i])
  {
    if s == [] then [] else [Lit(s[0])] + Literal(s[1..])
  }

  /** A value made only of literal characters matches exactly that string. */
  lemma {:induction false} LiteralMatchesExactly(s: string, w: string)
    ensures Matches(Literal(s), w) <==> s == w
  {
    if s != [] && w != [] {
      LiteralMatchesExactly(s[1..], w[1..]);
      assert Literal(s)[1..] == Literal(s[1..]);
      if s[0] == w[0] && s[1..] == w[1..] {
        assert s == [s[0]] + s[1..] && w == [w[0]] + w[1..];
      }
    }
  }

  /** The tokens of an unescaped value: `*` is the wildcard, every other character stands for itself. */
  function PatternOf(s: string): (r: seq<Token>)
    ensures |r| == |s|
  {
    if s == [] then [] else [if s[0] == '*' then Star else Lit(s[0])] + PatternOf(s[1..])
  }

  /** A value without backslash or parenthesis reads as its characters, `*` being the wildcard. */
  lemma {:induction false} UnescapedValueParses(text: string)
    requires forall i :: 0 <= i < |text| ==> text[i] != '\\' && text[i] != '(' && text[i] != ')'
    ensures ValueParses(text, PatternOf(text))
  {
    if text != [] {
      UnescapedValueParses(text[1..]);
      forall tail | tail != [] && tail[0] == ')'
        ensures PatternTokens(text + tail) == Some((PatternOf(text), tail))
      {
        assert (text + tail)[1..] == text[1..] + tail;
      }
    } else {
      forall tail | tail != [] && tail[0] == ')'
        ensures PatternTokens(text + tail) == Some((PatternOf(text), tail))
      {
        assert text + tail == tail;
      }
    }
  }

  /** `(` filter-comp `)`: the filter reads as what the filter-comp reads as. */
  lemma FilterStep(comp: string, node: Node, rest: string)
    requires ParseComp(comp) == Some((node, ")" + rest))
    requires rest == [] || !IsWhitespace(rest[0])
    ensures ParseFilter("(" + comp) == Some((node, rest))
  {
    assert ("(" + comp)[1..] == comp;
    assert (")" + rest)[1..] == rest;
  }

  /** An item on a plain attribute: the attribute, then what its operation reads as. */
  lemma ItemStep(attr: string, operation: string, op: Operation, tail: string)
    requires PlainAttr(attr)
    requires operation != [] && IsOperatorStart(operation[0])
    requires ParseOperation(operation) == Some((op, tail))
    ensures ParseComp(attr + operation) == Some((Item(attr, op), tail))
  {
    assert (attr + operation)[0] == attr[0];
    AttrParses(attr, operation);
    assert ParseItem(attr + operation) == Some((Item(attr, op), tail));
  }

  /** `=value`: an equality pattern, when the value does not start with the wildcard. */
  lemma EqualOperationStep(value: string, pattern: seq<Token>, tail: string)
    requires ValueParses(value, pattern)
    requires value == [] || value[0] != '*'
    requires tail != [] && tail[0] == ')'
    ensures ParseOperation("=" + value + tail) == Some((Equal(pattern), tail))
  {
    var operation := "=" + value + tail;
    assert operation[1..] == value + tail;
    assert operation[1] != '*' by {
      if value == [] { assert operation[1] == tail[0]; } else { assert operation[1] == value[0]; }
    }
    assert PatternTokens(value + tail) == Some((pattern, tail));
  }

  lemma AssertionShape(attr: string, value: string, rest: string)
    ensures Assertion(attr, value) + rest == "(" + (attr + ("=" + value + (")" + rest)))
  {
  }

  lemma ConjunctionShape(texts: seq<string>, rest: string)
    ensures Conjunction(texts) + rest == "(" + ("&" + (Joined(texts) + (")" + rest)))
  {
  }

  /** An equality assertion on a plain attribute reads as that item, before any non-blank text. */
  lemma EqualityBefore(attr: string, value: string, pattern: seq<Token>, rest: string)
    requires PlainAttr(attr) && ValueParses(value, pattern)
    requires value == [] || value[0] != '*'
    requires rest == [] || !IsWhitespace(rest[0])
    ensures ParseFilter(Assertion(attr, value) + rest) == Some((Item(attr, Equal(pattern)), rest))
  {
    var tail := ")" + rest;
    var operation := "=" + value + tail;
    EqualOperationStep(value, pattern, tail);
    ItemStep(attr, operation, Equal(pattern), tail);
    AssertionShape(attr, value, rest);
    FilterStep(attr + operation, Item(attr, Equal(pattern)), rest);
  }

  /** An equality assertion on a plain attribute reads as that item, whatever follows. */
  lemma EqualityParses(attr: string, value: string, pattern: seq<Token>)
    requires PlainAttr(attr) && ValueParses(value, pattern)
    requires value == [] || value[0] != '*'
    ensures Parses(Assertion(attr, value), Item(attr, Equal(pattern)))
  {
    forall rest | rest == [] || !IsWhitespace(rest[0])
      ensures ParseFilter(Assertion(attr, value) + rest) == Some((Item(attr, Equal(pattern)), rest))
    {
      EqualityBefore(attr, value, pattern, rest);
    }
  }

  lemma {:induction false} JoinedStartsWithFirst(texts: seq<string>)
    requires texts != [] && texts[0] != []
    ensures Joined(texts) != [] && Joined(texts)[0] == texts[0][0]
  {
  }

  /** One operand, then either more operands or the end of the list. */
  lemma OperandStep(text: string, node: Node, after: string)
    requires Parses(text, node)
    requires after != [] && !IsWhitespace(after[0])
    ensures after[0] != '(' ==> ParseOperands(text + after) == Some(([node], after))
    ensures after[0] == '(' ==>
      ParseOperands(text + after) ==
        match ParseOperands(after)
        case None => None
        case Some((more, rest)) => Some(([node] + more, rest))
  {
    assert ParseFilter(text + after) == Some((node, after));
  }

  /** Filters written one after another read as the operands of `&` or `|`. */
  lemma {:induction false} OperandsParse(texts: seq<string>, nodes: seq<Node>, rest: string)
    requires |texts| == |nodes| > 0
    requires forall i :: 0 <= i < |texts| ==> Parses(texts[i], nodes[i])
    requires rest != [] && rest[0] != '(' && !IsWhitespace(rest[0])
    ensures ParseOperands(Joined(texts) + rest) == Some((nodes, rest))
  {
    assert Parses(texts[0], nodes[0]);
    var after := Joined(texts[1..]) + rest;
    assert Joined(texts) + rest == texts[0] + after;
    if |texts| == 1 {
      assert after == rest;
      OperandStep(texts[0], nodes[0], after);
      assert nodes == [nodes[0]];
    } else {
      assert Parses(texts[1], nodes[1]);
      JoinedStartsWithFirst(texts[1..]);
      assert after[0] == '(';
      OperandsParse(texts[1..], nodes[1..], rest);
      OperandStep(texts[0], nodes[0], after);
      assert nodes == [nodes[0]] + nodes[1..];
    }
  }

  /** `&` followed by operands. */
  lemma AndStep(operands: string, nodes: seq<Node>, tail: string)
    requires operands != [] && operands[0] == '('
    requires ParseOperands(operands) == Some((nodes, tail))
    ensures ParseComp("&" + operands) == Some((And(nodes), tail))
  {
    assert ("&" + operands)[1..] == operands;
  }

  /** A conjunction of filters reads as `&` of what they read as, before any non-blank text. */
  lemma ConjunctionBefore(texts: seq<string>, nodes: seq<Node>, rest: string)
    requires |texts| == |nodes| > 0
    requires forall i :: 0 <= i < |texts| ==> Parses(texts[i], nodes[i])
    requires rest == [] || !IsWhitespace(rest[0])
    ensures ParseFilter(Conjunction(texts) + rest) == Some((And(nodes), rest))
  {
    assert Parses(texts[0], nodes[0]);
    JoinedStartsWithFirst(texts);
    var tail := ")" + rest;
    var operands := Joined(texts) + tail;
    assert operands[0] == '(';
    OperandsParse(texts, nodes, tail);
    AndStep(operands, nodes, tail);
    ConjunctionShape(texts, rest);
    FilterStep("&" + operands, And(nodes), rest);
  }

  /** A conjunction of filters reads as `&` of what they read as. */
  lemma ConjunctionParses(texts: seq<string>, nodes: seq<Node>)
    requires |texts| == |nodes| > 0
    requires forall i :: 0 <= i < |texts| ==> Parses(texts[i], nodes[i])
    ensures Parses(Conjunction(texts), And(nodes))
  {
    forall rest | rest == [] || !IsWhitespace(rest[0])
      ensures ParseFilter(Conjunction(texts) + rest) == Some((And(nodes), rest))
    {
      ConjunctionBefore(texts, nodes, rest);
    }
  }

  /** `(&(<attr1>=<value1>)(<attr2>=<value2>))`, two assertions joined by `&`. */
  function BothFilter(attr1: string, value1: string, attr2: string, value2: string): string
  {
    "(&(" + attr1 + "=" + value1 + ")(" + attr2 + "=" + value2 + "))"
  }

  lemma BothFilterShape(attr1: string, value1: string, attr2: string, value2: string)
    ensures BothFilter(attr1, value1, attr2, value2) == Conjunction([Assertion(attr1, value1), Assertion(attr2, value2)])
  {
    var texts := [Assertion(attr1, value1), Assertion(attr2, value2)];
    assert Joined([texts[1]]) == texts[1] by {
      assert [texts[1]][1..] == [];
    }
    assert texts[1..] == [texts[1]];
  }

  /** Two equality assertions on plain attributes joined by `&` read as `&` of the two items. */
  lemma BothFilterParses(attr1: string, value1: string, pattern1: seq<Token>, attr2: string, value2: string, pattern2: seq<Token>)
    requires PlainAttr(attr1) && ValueParses(value1, pattern1) && (value1 == [] || value1[0] != '*')
    requires PlainAttr(attr2) && ValueParses(value2, pattern2) && (value2 == [] || value2[0] != '*')
    ensures Parse(BothFilter(attr1, value1, attr2, value2)) == Some(And([Item(attr1, Equal(pattern1)), Item(attr2, Equal(pattern2))]))
  {
    var texts := [Assertion(attr1, value1), Assertion(attr2, value2)];
    var nodes := [Item(attr1, Equal(pattern1)), Item(attr2, Equal(pattern2))];
    EqualityParses(attr1, value1, pattern1);
    EqualityParses(attr2, value2, pattern2);
    assert forall i :: 0 <= i < 2 ==> Parses(texts[i], nodes[i]);
    ConjunctionParses(texts, nodes);
    BothFilterShape(attr1, value1, attr2, value2);
    ParsesWhole(Conjunction(texts), And(nodes));
  }

  lemma EvalBoth(first: Node, second: Node, attributes: map<string, string>)
    ensures Eval(And([first, second]), attributes) <==> Eval(first, attributes) && Eval(second, attributes)
  {
    assert AllHold([second], attributes) == Eval(second, attributes) by {
      assert [second][1..] == [];
    }
    assert [first, second][1..] == [second];
  }

  /** `&` holds exactly when every operand does. */
  lemma {:induction false} AllHoldEvery(nodes: seq<Node>, attributes: map<string, string>)
    ensures AllHold(nodes, attributes) <==> forall i :: 0 <= i < |nodes| ==> Eval(nodes[i], attributes)
  {
    if nodes != [] {
      AllHoldEvery(nodes[1..], attributes);
      assert forall i :: 1 <= i < |nodes| ==> nodes[i] == nodes[1..][i - 1];
    }
  }

  // ---------------------------------------------------------------------------
  // Filters that do not parse

  /** An equality value that breaks off makes the item, and so the filter-comp, fail. */
  lemma ItemFails(attr: string, value: string, tail: string)
    requires PlainAttr(attr)
    requires value != [] && value[0] != '*'
    requires PatternTokens(value + tail) == None
    ensures ParseComp(attr + ("=" + (value + tail))) == None
  {
    var operation := "=" + (value + tail);
    AttrParses(attr, operation);
    assert (attr + operation)[0] == attr[0];
    assert operation[1..] == value + tail;
  }

  /** A filter-comp that fails makes the filter around it fail. */
  lemma FilterFails(comp: string)
    requires ParseComp(comp) == None
    ensures ParseFilter("(" + comp) == None
  {
    assert ("(" + comp)[1..] == comp;
  }

  /** `&` fails when its first operand does. */
  lemma AndFails(operands: string)
    requires operands != [] && operands[0] == '('
    requires ParseFilter(operands) == None
    ensures ParseComp("&" + operands) == None
  {
    assert ("&" + operands)[1..] == operands;
  }

  /** A `(` inside the first value of a two-assertion filter is a syntax error. */
  lemma OpenParenthesisBreaksBothFilter(attr1: string, attr2: string, value2: string)
    requires PlainAttr(attr1)
    ensures Parse(BothFilter(attr1, "a(", attr2, value2)).None?
  {
    var tail := ")(" + attr2 + "=" + value2 + "))";
    var item := attr1 + ("=" + ("a(" + tail));
    OpenParenthesisInValue(tail);
    ItemFails(attr1, "a(", tail);
    FilterFails(item);
    AndFails("(" + item);
    FilterFails("&" + ("(" + item));
    OpenParenthesisShape(attr1, attr2, value2);
  }

  lemma OpenParenthesisInValue(tail: string)
    ensures PatternTokens("a(" + tail) == None
  {
    assert ("a(" + tail)[0] == 'a' && ("a(" + tail)[1..] == "(" + tail;
  }

  lemma OpenParenthesisShape(attr1: string, attr2: string, value2: string)
    ensures BothFilter(attr1, "a(", attr2, value2) ==
      "(" + ("&" + ("(" + (attr1 + ("=" + ("a(" + (")(" + attr2 + "=" + value2 + "))"))))))
  {
  }

  /** A `)` inside the first value of a two-assertion filter closes the filter early, and text is left over. */
  lemma CloseParenthesisBreaksBothFilter(attr1: string, attr2: string, value2: string)
    requires PlainAttr(attr1)
    ensures Parse(BothFilter(attr1, "a)", attr2, value2)).None?
  {
    var rest := Assertion(attr2, value2) + ")";
    UnescapedValueParses("a");
    EqualityParses(attr1, "a", PatternOf("a"));
    ConjunctionBefore([Assertion(attr1, "a")], [Item(attr1, Equal(PatternOf("a")))], rest);
    CloseParenthesisShape(attr1, attr2, value2);
  }

  lemma CloseParenthesisShape(attr1: string, attr2: string, value2: string)
    ensures BothFilter(attr1, "a)", attr2, value2) == Conjunction([Assertion(attr1, "a")]) + (Assertion(attr2, value2) + ")")
  {
    var first := Assertion(attr1, "a");
    assert Joined([first]) == first by {
      assert [first][1..] == [];
    }
  }

  /** A first value `a)(x=y` turns a two-assertion filter into one of three assertions. */
  lemma InjectedFilterShape(attr1: string, attr2: string, value2: string)
    ensures BothFilter(attr1, "a)(x=y", attr2, value2) ==
      Conjunction([Assertion(attr1, "a"), Assertion("x", "y"), Assertion(attr2, value2)])
  {
    var texts := [Assertion(attr1, "a"), Assertion("x", "y"), Assertion(attr2, value2)];
    assert Joined([texts[2]]) == texts[2] by {
      assert [texts[2]][1..] == [];
    }
    assert Joined([texts[1], texts[2]]) == texts[1] + texts[2] by {
      assert [texts[1], texts[2]][1..] == [texts[2]];
    }
    assert texts[1..] == [texts[1], texts[2]];
  }

  lemma InjectedFilterParses(attr1: string, attr2: string, value2: string, pattern2: seq<Token>)
    requires PlainAttr(attr1) && PlainAttr(attr2) && ValueParses(value2, pattern2) && (value2 == [] || value2[0] != '*')
    ensures Parse(BothFilter(attr1, "a)(x=y", attr2, value2)) ==
      Some(And([Item(attr1, Equal(Literal("a"))), Item("x", Equal(Literal("y"))), Item(attr2, Equal(pattern2))]))
  {
    var texts := [Assertion(attr1, "a"), Assertion("x", "y"), Assertion(attr2, value2)];
    var nodes := [Item(attr1, Equal(Literal("a"))), Item("x", Equal(Literal("y"))), Item(attr2, Equal(pattern2))];
    NameCharsFromAll("x", 0);
    UnescapedValueParses("a");
    UnescapedValueParses("y");
    assert PatternOf("a") == Literal("a") && PatternOf("y") == Literal("y");
    EqualityParses(attr1, "a", Literal("a"));
    EqualityParses("x", "y", Literal("y"));
    EqualityParses(attr2, value2, pattern2);
    assert forall i :: 0 <= i < 3 ==> Parses(texts[i], nodes[i]);
    ConjunctionParses(texts, nodes);
    ParsesWhole(Conjunction(texts), And(nodes));
    InjectedFilterShape(attr1, attr2, value2);
  }

  /** A filter that reads as a node parses as that node on its own. */
  lemma ParsesWhole(text: string, node: Node)
    requires Parses(text, node)
    ensures Parse(text) == Some(node)
  {
    assert text + [] == text;
  }
}
