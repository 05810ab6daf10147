/**
 * The web console page that prints a stored configuration in a serialisation
 * format: it reads the request parameters, cleans the stored properties and
 * strips the properties the metatype, the declarative-services components
 * and the merged resources would supply anyway. The page's HTML and the
 * serialisers themselves are outside this model; what is modelled is the
 * decision about which properties get printed, the parameter defaulting,
 * and the XML escaping of text written into the page.
 */
module ConfigurationSerializerWebConsolePlugin {
  import opened Wrappers
  import opened Values
  import opened InstallerApi
  import opened ConfigAdmin
  import opened ConfigUtil
  import ConfigTaskCreator
  import MetatypeHandler

  // ---------------------------------------------------------------------------
  // Request parameters

  /** The serialisation formats the page offers. */
  datatype Format = JSON | CONFIG | PROPERTIES | PROPERTIES_XML

  function FormatName(f: Format): string
  {
    match f
    case JSON => "JSON"
    case CONFIG => "CONFIG"
    case PROPERTIES => "PROPERTIES"
    case PROPERTIES_XML => "PROPERTIES_XML"
  }

  /** Format.valueOf: the constant with exactly that name, or an IllegalArgumentException. */
  function FormatNamed(name: string): (r: Option<Format>)
    ensures r.Some? ==> FormatName(r.value) == name
    ensures r.None? ==> forall f: Format :: FormatName(f) != name
  {
    if name == "JSON" then Some(JSON)
    else if name == "CONFIG" then Some(CONFIG)
    else if name == "PROPERTIES" then Some(PROPERTIES)
    else if name == "PROPERTIES_XML" then Some(PROPERTIES_XML)
    else None
  }

  /** s.trim().isEmpty(): every character is a space or a control character. */
  predicate Blank(s: string)
  {
    forall i :: 0 <= i < |s| ==> s[i] <= ' '
  }

  /** The format printed in: JSON unless the parameter is non-blank and names a format. */
  function SerializationFormat(format: Option<string>): (f: Format)
    ensures format.None? || Blank(format.value) ==> f == JSON
    ensures format.Some? && !Blank(format.value) && FormatNamed(format.value).Some? ==>
      f == FormatNamed(format.value).value
    ensures format.Some? && FormatNamed(format.value).None? ==> f == JSON
  {
    if format.None? || Blank(format.value) then JSON
    else
      match FormatNamed(format.value)
      case Some(named) => named
      case None => JSON
  }

  /** Every format the page offers is selected by its own name. */
  lemma FormatNameRoundTrip(f: Format)
    ensures SerializationFormat(Some(FormatName(f))) == f
  {
    var name := FormatName(f);
    assert name[0] > ' ';
  }

  /** Which of the three kinds of default properties the page strips. */
  datatype RemovalFlags = RemovalFlags(metatype: bool, component: bool, merged: bool)

  /** On the first load (no format parameter) all three are stripped; later each follows its own parameter. */
  function Flags(format: Option<string>, metatypeParam: Option<string>, componentParam: Option<string>,
                 mergedParam: Option<string>): (r: RemovalFlags)
    ensures format.None? ==> r == RemovalFlags(true, true, true)
    ensures format.Some? ==>
      (r.metatype <==> ParseBoolean(metatypeParam)) &&
      (r.component <==> ParseBoolean(componentParam)) &&
      (r.merged <==> ParseBoolean(mergedParam))
  {
    if format.None? then RemovalFlags(true, true, true)
    else RemovalFlags(ParseBoolean(metatypeParam), ParseBoolean(componentParam), ParseBoolean(mergedParam))
  }

  // ---------------------------------------------------------------------------
  // XML escaping

  function EscapedXmlChar(c: char): string
  {
    if c == '&' then "&amp;"
    else if c == '<' then "&lt;"
    else if c == '>' then "&gt;"
    else if c == '"' then "&quot;"
    else if c == '\'' then "&apos;"
    else [c]
  }

  /** The text escapeXml produces: each character replaced by its escape. */
  function XmlEscaped(s: string): string
  {
    if s == [] then [] else EscapedXmlChar(s[0]) + XmlEscaped(s[1..])
  }

  lemma {:induction false} XmlEscapedAppend(s: string, c: char)
    ensures XmlEscaped(s + [c]) == XmlEscaped(s) + EscapedXmlChar(c)
  {
    if s != [] {
      assert (s + [c])[1..] == s[1..] + [c];
      XmlEscapedAppend(s[1..], c);
    }
  }

  /** escapeXml: null for null, else the input with the five markup characters escaped. */
  method EscapeXml(input: Option<string>) returns (output: Option<string>)
    ensures input.None? ==> output.None?
    ensures input.Some? ==> output == Some(XmlEscaped(input.value))
  {
    if input.None? {
      return None;
    }
    var s := input.value;
    var b: string := [];
    for i := 0 to |s|
      invariant b == XmlEscaped(s[..i])
    {
      var c := s[i];
      if c == '&' {
        b := b + "&amp;";
      } else if c == '<' {
        b := b + "&lt;";
      } else if c == '>' {
        b := b + "&gt;";
      } else if c == '"' {
        b := b + "&quot;";
      } else if c == '\'' {
        b := b + "&apos;";
      } else {
        b := b + [c];
      }
      XmlEscapedAppend(s[..i], c);
      assert s[..i + 1] == s[..i] + [c];
    }
    assert s[..|s|] == s;
    return Some(b);
  }

  predicate Markup(c: char)
  {
    c == '<' || c == '>' || c == '"' || c == '\''
  }

  /** Escaped text holds no raw markup character, and escaping leaves plain text as it is. */
  lemma {:induction false} XmlEscapedHasNoMarkup(s: string)
    ensures forall k :: 0 <= k < |XmlEscaped(s)| ==> !Markup(XmlEscaped(s)[k])
    ensures (forall k :: 0 <= k < |s| ==> !Markup(s[k]) && s[k] != '&') ==> XmlEscaped(s) == s
  {
    if s != [] {
      XmlEscapedHasNoMarkup(s[1..]);
      var head := EscapedXmlChar(s[0]);
      var r := head + XmlEscaped(s[1..]);
      forall k | 0 <= k < |r|
        ensures !Markup(r[k])
      {
        if k >= |head| {
          assert r[k] == XmlEscaped(s[1..])[k - |head|];
        }
      }
      if forall k :: 0 <= k < |s| ==> !Markup(s[k]) && s[k] != '&' {
        assert forall k :: 0 <= k < |s[1..]| ==> s[1..][k] == s[k + 1];
        assert s == [s[0]] + s[1..];
      }
    }
  }

  /** Reading the entities back: the inverse of escaping. */
  function XmlUnescaped(s: string): string
    decreases |s|
  {
    if s == [] then []
    else if s[0] != '&' then [s[0]] + XmlUnescaped(s[1..])
    else if |s| >= 5 && s[..5] == "&amp;" then "&" + XmlUnescaped(s[5..])
    else if |s| >= 4 && s[..4] == "&lt;" then "<" + XmlUnescaped(s[4..])
    else if |s| >= 4 && s[..4] == "&gt;" then ">" + XmlUnescaped(s[4..])
    else if |s| >= 6 && s[..6] == "&quot;" then "\"" + XmlUnescaped(s[6..])
    else if |s| >= 6 && s[..6] == "&apos;" then "'" + XmlUnescaped(s[6..])
    else [s[0]] + XmlUnescaped(s[1..])
  }

  lemma UnescapeOneCharacter(c: char, rest: string)
    ensures XmlUnescaped(EscapedXmlChar(c) + rest) == [c] + XmlUnescaped(rest)
  {
    if c == '&' || Markup(c) {
      UnescapeEntity(c, rest);
    } else {
      UnescapePlain(c, rest);
    }
  }

  lemma UnescapePlain(c: char, rest: string)
    requires c != '&' && !Markup(c)
    ensures XmlUnescaped([c] + rest) == [c] + XmlUnescaped(rest)
  {
    var s := [c] + rest;
    assert s[0] == c && s[1..] == rest;
  }

  /** The entity of an escaped character is read back as that character. */
  lemma UnescapeEntity(c: char, rest: string)
    requires c == '&' || Markup(c)
    ensures XmlUnescaped(EscapedXmlChar(c) + rest) == [c] + XmlUnescaped(rest)
  {
    var entity := EscapedXmlChar(c);
    var s := entity + rest;
    assert s[..|entity|] == entity && s[|entity|..] == rest;
    assert s[0] == '&' && s[1] == entity[1] && s[2] == entity[2];
  }

  /** Unescaping what escapeXml produced gives back the input. */
  lemma {:induction false} XmlEscapeRoundTrip(s: string)
    ensures XmlUnescaped(XmlEscaped(s)) == s
  {
    if s != [] {
      XmlEscapeRoundTrip(s[1..]);
      UnescapeOneCharacter(s[0], XmlEscaped(s[1..]));
      assert s == [s[0]] + s[1..];
    }
  }

  // ---------------------------------------------------------------------------
  // Component default properties

  /** What the page reads from a declarative-services component description. */
  datatype ComponentDescription = ComponentDescription(configurationPid: seq<string>, properties: Dict)

  /** The pid components are matched by: the factory pid when there is one. */
  function EffectivePid(pid: string, factoryPid: Option<string>): string
  {
    if factoryPid.Some? then factoryPid.value else pid
  }

  /** The components that name the pid among their configuration pids, in order. */
  function Relevant(components: seq<ComponentDescription>, effectivePid: string): (r: seq<ComponentDescription>)
    ensures forall c :: c in r <==> c in components && effectivePid in c.configurationPid
    ensures |r| <= |components|
  {
    if components == [] then []
    else
      (if effectivePid in components[0].configurationPid then [components[0]] else []) +
      Relevant(components[1..], effectivePid)
  }

  /** The removal test as written: every relevant component agrees and the merged properties lack the key. */
  predicate RemovableAsWritten(relevant: seq<ComponentDescription>, key: string, value: Value, merged: Dict)
  {
    forall c :: c in relevant ==> SameValue(Some(value), Get(c.properties, key)) && Get(merged, key).None?
  }

  /** The dictionary left by removeComponentDefaultProperties as written. */
  function WithoutComponentDefaultsAsWritten(dict: Dict, relevant: seq<ComponentDescription>, merged: Dict): (r: Dict)
    ensures forall k :: k in r <==> k in dict && !RemovableAsWritten(relevant, k, dict[k], merged)
  {
    map k | k in dict && !RemovableAsWritten(relevant, k, dict[k], merged) :: dict[k]
  }

  /**
   * With no component for the pid, the test as written holds vacuously for
   * every key, so the whole dictionary is dropped, including the keys the
   * merged properties set.
   */
  lemma AsWrittenDropsEverythingWithoutComponents(dict: Dict, merged: Dict)
    ensures WithoutComponentDefaultsAsWritten(dict, [], merged) == map[]
    ensures WithoutComponentDefaults(dict, [], merged) == dict
  {
  }

  /** A concrete instance: a configuration no component refers to loses the property the merged resources set. */
  lemma AsWrittenDropsMergedKey()
    ensures var dict := map["port" := StringValue("8080")];
      var merged := map["port" := StringValue("8080")];
      WithoutComponentDefaultsAsWritten(dict, Relevant([], "org.example.server"), merged) == map[] &&
      WithoutComponentDefaults(dict, Relevant([], "org.example.server"), merged) == dict
  {
    var dict := map["port" := StringValue("8080")];
    assert !RemovableAsWritten([], "port", dict["port"], dict) ==> "port" in WithoutComponentDefaultsAsWritten(dict, [], dict);
  }

  /**
   * The removal test as documented: there is at least one relevant
   * component, all of them declare the same value, and the merged
   * properties do not set the key.
   */
  predicate ComponentDefault(relevant: seq<ComponentDescription>, key: string, value: Value, merged: Dict)
  {
    relevant != [] && key !in merged &&
    forall c :: c in relevant ==> SameValue(Some(value), Get(c.properties, key))
  }

  /** The dictionary after the component defaults are removed. */
  function WithoutComponentDefaults(dict: Dict, relevant: seq<ComponentDescription>, merged: Dict): (r: Dict)
    ensures forall k :: k in r <==> k in dict && !ComponentDefault(relevant, k, dict[k], merged)
    ensures forall k :: k in r ==> r[k] == dict[k]
    ensures relevant == [] ==> r == dict
    ensures forall k :: k in dict && k in merged ==> k in r
  {
    map k | k in dict && !ComponentDefault(relevant, k, dict[k], merged) :: dict[k]
  }

  /**
   * removeComponentDefaultProperties: walks the keys and removes in place
   * every key the test as written accepts.
   */
  method RemoveComponentDefaultProperties(components: seq<ComponentDescription>, pid: string, factoryPid: Option<string>,
                                          dict: Hashtable, merged: Dict)
    modifies dict
    ensures dict.entries ==
      WithoutComponentDefaultsAsWritten(old(dict.entries), Relevant(components, EffectivePid(pid, factoryPid)), merged)
  {
    var relevant := Relevant(components, EffectivePid(pid, factoryPid));
    ghost var original := dict.entries;
    var pending := dict.entries.Keys;
    while pending != {}
      invariant pending <= original.Keys
      invariant dict.entries ==
        map k | k in original && !(k !in pending && RemovableAsWritten(relevant, k, original[k], merged)) :: original[k]
    {
      var key :| key in pending;
      var newValue := dict.Lookup(key);
      if RemovableAsWritten(relevant, key, newValue.value, merged) {
        var _ := dict.Remove(key);
      }
      pending := pending - {key};
    }
  }

  // ---------------------------------------------------------------------------
  // The printed properties

  /** The metatype stage: the stripping the MetatypeHandler does for the record, which may throw. */
  function MetatypeStripped(handler: MetatypeHandler.Handler, factoryPid: Option<string>, pid: string, props: Dict,
                            merged: Dict, convert: Value -> seq<string>): (r: MetatypeHandler.Stripping)
    ensures r.props.Keys <= props.Keys && forall k :: k in r.props ==> r.props[k] == props[k]
    ensures MetatypeHandler.DefinitionFor(handler.bundles, if factoryPid.Some? then factoryPid.value else pid).None? ==>
      r == MetatypeHandler.Stripping(props, false)
  {
    var ocd := MetatypeHandler.DefinitionFor(handler.bundles, if factoryPid.Some? then factoryPid.value else pid);
    if ocd.None? then MetatypeHandler.Stripping(props, false)
    else
      MetatypeHandler.StrippedOnlyRemoves(props, ocd.value.attributes, Some(merged), convert);
      MetatypeHandler.Stripped(props, ocd.value.attributes, Some(merged), convert)
  }

  /** What the page prints for a pid. */
  datatype Printout =
    | NoPid                    // no pid parameter: only the form
    | NoProperties             // the record has never been updated
    | Printed(properties: Dict)
    | SerializationError       // a stage threw; the page prints the error instead

  /** The web console plugin with the services it is wired to. */
  class WebConsolePlugin {
    const configurationAdmin: ConfigurationAdmin
    const metatype: MetatypeHandler.Handler
    /** What the service component runtime reports. */
    const components: seq<ComponentDescription>
    const mergeSchemes: Option<set<string>>
    const installed: seq<ResourceGroup>

    constructor (configurationAdmin: ConfigurationAdmin, metatype: MetatypeHandler.Handler,
                 components: seq<ComponentDescription>, mergeSchemes: Option<set<string>>, installed: seq<ResourceGroup>)
      ensures this.configurationAdmin == configurationAdmin && this.metatype == metatype
      ensures this.components == components && this.mergeSchemes == mergeSchemes && this.installed == installed
    {
      this.configurationAdmin := configurationAdmin;
      this.metatype := metatype;
      this.components := components;
      this.mergeSchemes := mergeSchemes;
      this.installed := installed;
    }

    /** The merged properties of the pid, empty when no merged resource provides any. */
    function MergedDefaults(pid: string): (r: Dict)
      ensures ConfigTaskCreator.DefaultProperties(mergeSchemes, installed, pid).None? ==> r == map[]
      ensures ConfigTaskCreator.DefaultProperties(mergeSchemes, installed, pid).Some? ==>
        r == ConfigTaskCreator.DefaultProperties(mergeSchemes, installed, pid).value
    {
      match ConfigTaskCreator.DefaultProperties(mergeSchemes, installed, pid)
      case None => map[]
      case Some(d) => d
    }

    /**
     * What the page prints for a record with properties: the cleaned
     * properties stripped of the metatype defaults, the component defaults
     * and the merged defaults, each stage when its flag is set; an exception
     * in a stage prints the error instead.
     */
    function PrintoutFor(config: Configuration, flags: RemovalFlags, merged: Dict,
                         convert: Value -> seq<string>): Printout
      requires Current(config)
    {
      var cleaned := Cleaned(config.properties.value);
      var afterMetatype :=
        if flags.metatype then MetatypeStripped(metatype, config.factoryPid, config.pid, cleaned, merged, convert)
        else MetatypeHandler.Stripping(cleaned, false);
      if afterMetatype.thrown then SerializationError
      else
        var afterComponents :=
          if flags.component
          then WithoutComponentDefaultsAsWritten(afterMetatype.props,
                 Relevant(components, EffectivePid(config.pid, config.factoryPid)), merged)
          else afterMetatype.props;
        Printed(if flags.merged then WithoutRedundant(afterComponents, merged) else afterComponents)
    }

    /**
     * Each stage only removes: what is printed is the cleaned properties
     * restricted to some of their keys, and with all stages off exactly the
     * cleaned properties. The error is printed only when the metatype stage
     * ran and a single-valued definition with an empty default applied.
     */
    lemma PrintedOnlyRemoves(config: Configuration, flags: RemovalFlags, merged: Dict, convert: Value -> seq<string>)
      requires Current(config)
      ensures var cleaned := Cleaned(config.properties.value);
        var r := PrintoutFor(config, flags, merged, convert);
        (r.Printed? ==> r.properties.Keys <= cleaned.Keys && forall k :: k in r.properties ==> r.properties[k] == cleaned[k]) &&
        (!flags.metatype && !flags.component && !flags.merged ==> r == Printed(cleaned)) &&
        (r.SerializationError? ==>
          var ocd := MetatypeHandler.DefinitionFor(metatype.bundles, if config.factoryPid.Some? then config.factoryPid.value else config.pid);
          flags.metatype && ocd.Some? &&
          exists ad :: ad in ocd.value.attributes && MetatypeHandler.Throws(cleaned, ad, Some(merged))) &&
        (r.Printed? || r.SerializationError?)
    {
      var cleaned := Cleaned(config.properties.value);
      if flags.metatype {
        var ocd := MetatypeHandler.DefinitionFor(metatype.bundles, if config.factoryPid.Some? then config.factoryPid.value else config.pid);
        if ocd.Some? {
          MetatypeHandler.StrippedOnlyRemoves(cleaned, ocd.value.attributes, Some(merged), convert);
        }
      }
      var afterMetatype :=
        if flags.metatype then MetatypeStripped(metatype, config.factoryPid, config.pid, cleaned, merged, convert)
        else MetatypeHandler.Stripping(cleaned, false);
      var afterComponents :=
        if flags.component
        then WithoutComponentDefaultsAsWritten(afterMetatype.props,
               Relevant(components, EffectivePid(config.pid, config.factoryPid)), merged)
        else afterMetatype.props;
      WithoutRedundantOnlyRemoves(afterComponents, merged);
    }

    /**
     * The merged defaults looked up as the request arrives, before the pid is
     * checked: with merge schemes set, a request without a pid makes the
     * lookup build its entity id from null and fail.
     */
    function RequestDefaults(pidParam: Option<string>): (r: Result<Dict, Failure>)
      ensures r.Failure? <==> pidParam.None? && mergeSchemes.Some?
      ensures r.Failure? ==> r.error == RuntimeFailure
      ensures pidParam.Some? ==> r == Success(MergedDefaults(pidParam.value))
    {
      if pidParam.None? then
        if mergeSchemes.Some? then Failure(RuntimeFailure) else Success(map[])
      else Success(MergedDefaults(pidParam.value))
    }

    /** The lookup as evidently intended: only for a pid the page prints, so that it never fails. */
    function PrintedPidDefaults(pidParam: Option<string>): (r: Dict)
      ensures pidParam.None? || Blank(pidParam.value) ==> r == map[]
    {
      if pidParam.None? || Blank(pidParam.value) then map[] else MergedDefaults(pidParam.value)
    }

    /**
     * The guarded lookup agrees with the lookup as written wherever a pid is
     * printed; the lookup as written additionally fails on the first page
     * load, which has no pid, as soon as merge schemes are configured.
     */
    lemma RequestDefaultsFailWithoutPid(pidParam: Option<string>)
      ensures pidParam.Some? && !Blank(pidParam.value) ==> RequestDefaults(pidParam) == Success(PrintedPidDefaults(pidParam))
      ensures mergeSchemes.Some? ==> RequestDefaults(None) == Failure(RuntimeFailure) && PrintedPidDefaults(None) == map[]
    {
    }

    /**
     * service: the format and, for a non-blank pid, what is printed for the
     * record getConfiguration(pid, null) returns (creating it when it does
     * not exist). The merged defaults are looked up first, which fails
     * without a pid once merge schemes are configured; an unreachable store
     * fails the request.
     */
    method Service(pidParam: Option<string>, formatParam: Option<string>, metatypeParam: Option<string>,
                   componentParam: Option<string>, mergedParam: Option<string>, convert: Value -> seq<string>)
      returns (format: Format, printout: Result<Printout, Failure>)
      requires configurationAdmin.Valid()
      modifies configurationAdmin
      ensures configurationAdmin.Valid() && configurationAdmin.available == old(configurationAdmin.available)
      ensures format == SerializationFormat(formatParam)
      ensures pidParam.None? && mergeSchemes.Some? ==>
        printout == Failure(RuntimeFailure) && configurationAdmin.configs == old(configurationAdmin.configs)
      ensures (pidParam.None? && mergeSchemes.None?) || (pidParam.Some? && Blank(pidParam.value)) ==>
        printout == Success(NoPid) && configurationAdmin.configs == old(configurationAdmin.configs)
      ensures pidParam.Some? && !Blank(pidParam.value) && !old(configurationAdmin.available) ==>
        printout == Failure(IOFailure) && configurationAdmin.configs == old(configurationAdmin.configs)
      ensures pidParam.Some? && !Blank(pidParam.value) && old(configurationAdmin.available) ==>
        var (config, after) := Obtain(old(configurationAdmin.configs), pidParam.value, None, None);
        configurationAdmin.configs == after &&
        printout == Success(
          if config.properties.None? then NoProperties
          else PrintoutFor(config, Flags(formatParam, metatypeParam, componentParam, mergedParam),
                           MergedDefaults(pidParam.value), convert))
    {
      var flags := Flags(formatParam, metatypeParam, componentParam, mergedParam);
      format := SerializationFormat(formatParam);
      var mergedProperties: Option<Dict> := None;
      if pidParam.Some? {
        mergedProperties := ConfigTaskCreator.GetDefaultProperties(mergeSchemes, installed, pidParam.value);
      } else if mergeSchemes.Some? {
        // The entity id is built by concatenating the null pid.
        return format, Failure(RuntimeFailure);
      }
      var merged := if mergedProperties.Some? then mergedProperties.value else map[];
      if pidParam.None? || Blank(pidParam.value) {
        return format, Success(NoPid);
      }
      var pid := pidParam.value;
      var found := configurationAdmin.GetConfiguration(pid, None);
      if found.Failure? {
        return format, Failure(found.error);
      }
      var config := found.value;
      if config.properties.None? {
        return format, Success(NoProperties);
      }
      var cleaned := CleanConfiguration(config.properties.value);
      var properties := new Hashtable(cleaned);
      if flags.metatype {
        var thrown := metatype.UpdateConfiguration(config.factoryPid, config.pid, properties, Some(merged), convert);
        if thrown.Some? {
          return format, Success(SerializationError);
        }
      }
      if flags.component {
        RemoveComponentDefaultProperties(components, config.pid, config.factoryPid, properties, merged);
      }
      if flags.merged {
        RemoveRedundantProperties(properties, merged);
      }
      return format, Success(Printed(properties.entries));
    }
  }
}
