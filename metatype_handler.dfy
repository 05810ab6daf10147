/**
 * MetatypeHandler: strips from a configuration the properties whose value is
 * what the metatype description of the configuration would supply anyway,
 * so that serialised configurations only list what was set on purpose.
 *
 * The MetaTypeService's answer for each installed bundle is part of the
 * handler's state; the converter from a property value to a string array is
 * a function parameter.
 */
module MetatypeHandler {
  import opened Wrappers
  import opened Values
  import opened ConfigAdmin

  /** An attribute definition: its id, cardinality and default value (null when absent). */
  datatype AttributeDefinition = AttributeDefinition(id: string, cardinality: int, defaultValue: Option<seq<string>>)

  /** The attribute definitions of an object class, in the order getAttributeDefinitions(ALL) returns them. */
  datatype ObjectClassDefinition = ObjectClassDefinition(attributes: seq<AttributeDefinition>)

  /** The metatype information of one bundle: the object class definitions by pid. */
  datatype MetaTypeInformation = MetaTypeInformation(definitions: map<string, ObjectClassDefinition>)

  /**
   * shouldSet(ad, String): whether a single value differs from what the
   * metatype supplies. It reads the first element of a non-null default, so an
   * empty default array fails with an index error.
   */
  function ShouldSetScalar(ad: AttributeDefinition, value: string): (r: Result<bool, Failure>)
    ensures r.Failure? <==> ad.defaultValue == Some([])
    ensures r.Failure? ==> r.error == RuntimeFailure
  {
    if value == [] && ad.defaultValue.None? then Success(false)
    else if ad.defaultValue.Some? && |ad.defaultValue.value| == 0 then Failure(RuntimeFailure)
    else if ad.defaultValue.Some? && value == ad.defaultValue.value[0] then Success(false)
    else Success(true)
  }

  /**
   * shouldSet(ad, String[]): whether an array value differs from what the
   * metatype supplies. On one value, where the default has at most one
   * element, it answers as the single-value overload does.
   */
  function ShouldSetArray(ad: AttributeDefinition, values: seq<string>): (r: bool)
    ensures |values| == 1 && (ad.defaultValue.None? || |ad.defaultValue.value| == 1) ==>
      ShouldSetScalar(ad, values[0]) == Success(r)
  {
    if ad.defaultValue.None? && (values == [] || values == [""]) then false
    else if ad.defaultValue.Some? && ad.defaultValue.value == values then false
    else true
  }

  /**
   * The two overloads agree on a single value wherever the default has at
   * most one element: both skip an empty value without a default, and a
   * value equal to the default.
   */
  lemma ShouldSetOverloadsAgree(ad: AttributeDefinition, value: string)
    requires ad.defaultValue.None? || |ad.defaultValue.value| == 1
    ensures ShouldSetScalar(ad, value) == Success(ShouldSetArray(ad, [value]))
    ensures ShouldSetScalar(ad, value) == Success(false) <==>
      (ad.defaultValue.None? && value == []) || (ad.defaultValue.Some? && ad.defaultValue.value == [value])
  {
    if ad.defaultValue.Some? {
      assert ad.defaultValue.value == [ad.defaultValue.value[0]];
    }
  }

  /**
   * With a longer default, the single-value check only looks at the first
   * default element; with an empty one it fails where the array check, which
   * compares whole arrays, keeps every value but the empty array.
   */
  lemma ShouldSetScalarReadsFirstDefault(ad: AttributeDefinition, value: string)
    ensures ad.defaultValue.Some? && |ad.defaultValue.value| > 1 && value == ad.defaultValue.value[0] ==>
      ShouldSetScalar(ad, value) == Success(false) && ShouldSetArray(ad, [value])
    ensures ad.defaultValue == Some([]) ==>
      ShouldSetScalar(ad, value) == Failure(RuntimeFailure) && ShouldSetArray(ad, [value]) && !ShouldSetArray(ad, [])
  {
    if ad.defaultValue.Some? && |ad.defaultValue.value| > 1 {
      assert |[value]| != |ad.defaultValue.value|;
    }
    if ad.defaultValue == Some([]) {
      assert |[value]| != |ad.defaultValue.value|;
    }
  }

  /** The definition getObjectClassDefinition finds: the first bundle whose metatype describes the pid. */
  function DefinitionFor(bundles: seq<Option<MetaTypeInformation>>, pid: string): (r: Option<ObjectClassDefinition>)
    ensures r.None? <==> forall i :: 0 <= i < |bundles| ==> bundles[i].None? || pid !in bundles[i].value.definitions
    ensures r.Some? ==>
      exists i :: 0 <= i < |bundles| && bundles[i].Some? && pid in bundles[i].value.definitions &&
        r.value == bundles[i].value.definitions[pid] &&
        forall j :: 0 <= j < i ==> bundles[j].None? || pid !in bundles[j].value.definitions
  {
    if bundles == [] then None
    else if bundles[0].Some? && pid in bundles[0].value.definitions then Some(bundles[0].value.definitions[pid])
    else
      var r := DefinitionFor(bundles[1..], pid);
      assert forall i :: 1 <= i < |bundles| ==> bundles[i] == bundles[1..][i - 1];
      if r.Some? then
        var i :| 0 <= i < |bundles[1..]| && bundles[1..][i].Some? && pid in bundles[1..][i].value.definitions &&
          r.value == bundles[1..][i].value.definitions[pid] &&
          forall j :: 0 <= j < i ==> bundles[1..][j].None? || pid !in bundles[1..][j].value.definitions;
        assert forall j :: 0 <= j < i + 1 ==> bundles[j].None? || pid !in bundles[j].value.definitions;
        r
      else r
  }

  /** Whether updateConfiguration looks at a definition's property: it is set and no default property protects it. */
  predicate Applies(props: Dict, ad: AttributeDefinition, defaultProps: Option<Dict>)
  {
    ad.id in props && (defaultProps.None? || ad.id !in defaultProps.value)
  }

  /**
   * Whether handling the definition throws: a single-valued definition whose
   * default is an empty array, applied to a property, makes the single-value
   * check read a first default that is not there, whatever the value.
   */
  predicate Throws(props: Dict, ad: AttributeDefinition, defaultProps: Option<Dict>)
  {
    Applies(props, ad, defaultProps) && ad.cardinality == 0 && ad.defaultValue == Some([])
  }

  /**
   * Whether updateConfiguration removes the property of one attribute
   * definition from `props`: the property applies and the metatype would
   * supply the same value. A single-valued attribute compares the value's
   * string form (an array value has no meaningful one and is kept); any
   * other compares the converted string array.
   */
  predicate Removes(props: Dict, ad: AttributeDefinition, defaultProps: Option<Dict>, convert: Value -> seq<string>)
  {
    Applies(props, ad, defaultProps) &&
    if ad.cardinality == 0 then props[ad.id].Scalar? && ShouldSetScalar(ad, props[ad.id].text) == Success(false)
    else !ShouldSetArray(ad, convert(props[ad.id]))
  }

  /** How far updateConfiguration got: the properties, and whether a definition threw. */
  datatype Stripping = Stripping(props: Dict, thrown: bool)

  /**
   * The properties after the attribute definitions were handled in order,
   * stopping at the first definition that throws.
   */
  function Stripped(props: Dict, ads: seq<AttributeDefinition>, defaultProps: Option<Dict>, convert: Value -> seq<string>)
    : Stripping
  {
    if ads == [] then Stripping(props, false)
    else
      var before := Stripped(props, ads[..|ads| - 1], defaultProps, convert);
      var ad := ads[|ads| - 1];
      if before.thrown then before
      else if Throws(before.props, ad, defaultProps) then Stripping(before.props, true)
      else if Removes(before.props, ad, defaultProps, convert) then Stripping(before.props - {ad.id}, false)
      else before
  }

  /**
   * Stripping only removes properties, keeps every property protected by a
   * default property, and removes nothing outside the attribute ids. It
   * throws only where a single-valued definition with an empty default
   * applies to one of the properties.
   */
  lemma {:induction false} StrippedOnlyRemoves(props: Dict, ads: seq<AttributeDefinition>, defaultProps: Option<Dict>,
                                               convert: Value -> seq<string>)
    ensures var r := Stripped(props, ads, defaultProps, convert);
      r.props.Keys <= props.Keys && (forall k :: k in r.props ==> r.props[k] == props[k]) &&
      (forall k :: k in props && defaultProps.Some? && k in defaultProps.value ==> k in r.props) &&
      (forall k :: k in props && (forall ad :: ad in ads ==> ad.id != k) ==> k in r.props) &&
      (r.thrown ==> exists ad :: ad in ads && Throws(props, ad, defaultProps))
  {
    if ads != [] {
      var init := ads[..|ads| - 1];
      assert forall ad :: ad in init ==> ad in ads;
      StrippedOnlyRemoves(props, init, defaultProps, convert);
      var before := Stripped(props, init, defaultProps, convert);
      var ad := ads[|ads| - 1];
      if !before.thrown && Throws(before.props, ad, defaultProps) {
        assert Throws(props, ad, defaultProps);
      }
    }
  }

  /** Once a definition has thrown, the later ones are not handled. */
  lemma {:induction false} ThrownStops(props: Dict, ads: seq<AttributeDefinition>, i: nat, defaultProps: Option<Dict>,
                                       convert: Value -> seq<string>)
    requires i <= |ads| && Stripped(props, ads[..i], defaultProps, convert).thrown
    ensures Stripped(props, ads, defaultProps, convert) == Stripped(props, ads[..i], defaultProps, convert)
  {
    if i < |ads| {
      assert ads[..|ads| - 1][..i] == ads[..i];
      ThrownStops(props, ads[..|ads| - 1], i, defaultProps, convert);
    } else {
      assert ads[..i] == ads;
    }
  }

  /** MetatypeHandler with the metatype each installed bundle provides (None when it provides none). */
  class Handler {
    const bundles: seq<Option<MetaTypeInformation>>

    constructor (bundles: seq<Option<MetaTypeInformation>>)
      ensures this.bundles == bundles
    {
      this.bundles := bundles;
    }

    /** getObjectClassDefinition: a search over the bundles in order. */
    method GetObjectClassDefinition(pid: string) returns (ocd: Option<ObjectClassDefinition>)
      ensures ocd == DefinitionFor(bundles, pid)
    {
      var i := 0;
      while i < |bundles|
        invariant 0 <= i <= |bundles|
        invariant DefinitionFor(bundles, pid) == DefinitionFor(bundles[i..], pid)
      {
        assert bundles[i..][0] == bundles[i] && bundles[i..][1..] == bundles[i + 1..];
        var mti := bundles[i];
        if mti.Some? && pid in mti.value.definitions {
          return Some(mti.value.definitions[pid]);
        }
        i := i + 1;
      }
      return None;
    }

    /**
     * updateConfiguration: looks the definition up by factory pid when there
     * is one, else by pid, and removes in place every property the metatype
     * would supply anyway. A definition that throws ends the walk with the
     * removals made so far and the runtime exception.
     */
    method UpdateConfiguration(factoryPid: Option<string>, pid: string, props: Hashtable, defaultProps: Option<Dict>,
                               convert: Value -> seq<string>)
      returns (thrown: Option<Failure>)
      modifies props
      ensures var ocd := DefinitionFor(bundles, if factoryPid.Some? then factoryPid.value else pid);
        (ocd.None? ==> props.entries == old(props.entries) && thrown.None?) &&
        (ocd.Some? ==>
          var r := Stripped(old(props.entries), ocd.value.attributes, defaultProps, convert);
          props.entries == r.props && (thrown.Some? <==> r.thrown) && (thrown.Some? ==> thrown.value == RuntimeFailure))
    {
      var ocd;
      if factoryPid.Some? {
        ocd := GetObjectClassDefinition(factoryPid.value);
      } else {
        ocd := GetObjectClassDefinition(pid);
      }
      if ocd.None? {
        return None;
      }
      thrown := StripAll(props, ocd.value.attributes, defaultProps, convert);
    }
  }

  /** updateConfiguration's loop: handles the definitions in order and stops at the first that throws. */
  method StripAll(props: Hashtable, ads: seq<AttributeDefinition>, defaultProps: Option<Dict>,
                  convert: Value -> seq<string>) returns (thrown: Option<Failure>)
    modifies props
    ensures var r := Stripped(old(props.entries), ads, defaultProps, convert);
      props.entries == r.props && (thrown.Some? <==> r.thrown) && (thrown.Some? ==> thrown.value == RuntimeFailure)
  {
    ghost var original := props.entries;
    for i := 0 to |ads|
      invariant Stripped(original, ads[..i], defaultProps, convert) == Stripping(props.entries, false)
    {
      assert ads[..i + 1][..i] == ads[..i] && ads[..i + 1][i] == ads[i];
      var failure := HandleDefinition(props, ads[i], defaultProps, convert);
      if failure.Some? {
        ThrownStops(original, ads, i + 1, defaultProps, convert);
        return failure;
      }
    }
    assert ads[..|ads|] == ads;
    return None;
  }

  /** One round of updateConfiguration's loop: handles the property of one definition in place. */
  method HandleDefinition(props: Hashtable, ad: AttributeDefinition, defaultProps: Option<Dict>,
                          convert: Value -> seq<string>) returns (thrown: Option<Failure>)
    modifies props
    ensures thrown.Some? <==> Throws(old(props.entries), ad, defaultProps)
    ensures thrown.Some? ==> thrown.value == RuntimeFailure && props.entries == old(props.entries)
    ensures thrown.None? ==>
      props.entries == if Removes(old(props.entries), ad, defaultProps, convert) then old(props.entries) - {ad.id}
                       else old(props.entries)
  {
    var propName := ad.id;
    var newValue := props.Lookup(propName);
    if newValue.Some? && (defaultProps.None? || Get(defaultProps.value, propName).None?) {
      if ad.cardinality == 0 {
        var text := if newValue.value.Scalar? then newValue.value.text else "";
        var verdict := ShouldSetScalar(ad, text);
        if verdict.Failure? {
          return Some(verdict.error);
        }
        if newValue.value.Scalar? && !verdict.value {
          var _ := props.Remove(propName);
        }
      } else {
        var values := convert(newValue.value);
        if !ShouldSetArray(ad, values) {
          var _ := props.Remove(propName);
        }
      }
    }
    return None;
  }

  /** A multi-valued definition with an empty default array is legal: it removes exactly the empty array. */
  lemma EmptyMultiValuedDefaultIsLegal(convert: Value -> seq<string>)
    requires convert(Arr(STRING, [])) == [] && convert(Arr(STRING, ["1"])) == ["1"]
    ensures var ads := [AttributeDefinition("x", 5, Some([]))];
      Stripped(map["x" := Arr(STRING, [])], ads, None, convert) == Stripping(map[], false) &&
      Stripped(map["x" := Arr(STRING, ["1"])], ads, None, convert) == Stripping(map["x" := Arr(STRING, ["1"])], false)
  {
    var ads := [AttributeDefinition("x", 5, Some([]))];
    assert ads[..0] == [];
    assert ["1"] != [];
  }

  /** A single-valued definition with an empty default array throws on any value it applies to. */
  lemma EmptySingleValuedDefaultThrows(props: Dict, id: string)
    requires id in props
    ensures var ads := [AttributeDefinition(id, 0, Some([]))];
      Stripped(props, ads, None, (v: Value) => []) == Stripping(props, true)
  {
    var ads := [AttributeDefinition(id, 0, Some([]))];
    assert ads[..0] == [];
  }

  /** The attribute definitions of the metatype handler's test: a to e single-valued, f and g multi-valued. */
  function ExampleDefinitions(): seq<AttributeDefinition>
  {
    [ AttributeDefinition("a", 1, Some(["1"])),
      AttributeDefinition("b", 1, Some(["2"])),
      AttributeDefinition("c", 1, Some(["3"])),
      AttributeDefinition("d", 1, Some(["4"])),
      AttributeDefinition("e", 1, Some(["5"])),
      AttributeDefinition("f", -100, Some(["/a", "/b"])),
      AttributeDefinition("g", -100, Some(["/x", "/y"])) ]
  }

  /**
   * The metatype handler's test: of a, c, d, e, f and g only a (not the
   * default), d (protected by a default property) and g (not the default)
   * survive.
   */
  lemma StrippedExample(convert: Value -> seq<string>)
    requires convert(Scalar(STRING, "2")) == ["2"] && convert(Scalar(STRING, "3")) == ["3"]
    requires convert(Scalar(INTEGER, "4")) == ["4"] && convert(Scalar(INTEGER, "5")) == ["5"]
    requires convert(Scalar(LIST, "[/a, /b]")) == ["/a", "/b"]
    ensures var props := map["a" := Scalar(STRING, "2"), "c" := Scalar(STRING, "3"), "d" := Scalar(INTEGER, "4"),
                             "e" := Scalar(INTEGER, "5"), "f" := Scalar(LIST, "[/a, /b]"), "g" := Scalar(LIST, "[/a, /b]")];
      var defaultProps := map["b" := Scalar(STRING, "5"), "d" := Scalar(INTEGER, "7")];
      Stripped(props, ExampleDefinitions(), Some(defaultProps), convert) ==
        Stripping(map["a" := Scalar(STRING, "2"), "d" := Scalar(INTEGER, "4"), "g" := Scalar(LIST, "[/a, /b]")], false)
  {
    var ads := ExampleDefinitions();
    var props := ExampleProperties();
    var dp := Some(map["b" := Scalar(STRING, "5"), "d" := Scalar(INTEGER, "7")]);
    var s5 := Stripped(props, ads[..5], dp, convert);
    StrippedExampleFirstFive(convert);
    assert ads[..6][..5] == ads[..5] && ads[..6][5] == ads[5];
    assert ads[..7][..6] == ads[..6] && ads[..7][6] == ads[6];
    assert ads[..7] == ads;
    assert ["/x", "/y"] != ["/a", "/b"] by {
      assert "/x"[1] != "/a"[1];
    }
    assert Removes(s5.props, ads[5], dp, convert);
    var s6 := Stripped(props, ads[..6], dp, convert);
    assert s6 == Stripping(s5.props - {"f"}, false);
    assert !Removes(s6.props, ads[6], dp, convert);
  }

  /** The first five definitions of the example remove c and e. */
  lemma StrippedExampleFirstFive(convert: Value -> seq<string>)
    requires convert(Scalar(STRING, "2")) == ["2"] && convert(Scalar(STRING, "3")) == ["3"]
    requires convert(Scalar(INTEGER, "4")) == ["4"] && convert(Scalar(INTEGER, "5")) == ["5"]
    ensures Stripped(ExampleProperties(), ExampleDefinitions()[..5],
                     Some(map["b" := Scalar(STRING, "5"), "d" := Scalar(INTEGER, "7")]), convert) ==
      Stripping(ExampleProperties() - {"c", "e"}, false)
  {
    var ads := ExampleDefinitions();
    var props := ExampleProperties();
    var dp := Some(map["b" := Scalar(STRING, "5"), "d" := Scalar(INTEGER, "7")]);
    var s3 := Stripped(props, ads[..3], dp, convert);
    StrippedExampleFirstThree(convert);
    assert ads[..4][..3] == ads[..3] && ads[..4][3] == ads[3];
    assert ads[..5][..4] == ads[..4] && ads[..5][4] == ads[4];
    assert ["5"] == ["5"];
    assert !Removes(s3.props, ads[3], dp, convert);
    var s4 := Stripped(props, ads[..4], dp, convert);
    assert s4 == s3;
    assert Removes(s4.props, ads[4], dp, convert);
  }

  function ExampleProperties(): Dict
  {
    map["a" := Scalar(STRING, "2"), "c" := Scalar(STRING, "3"), "d" := Scalar(INTEGER, "4"),
        "e" := Scalar(INTEGER, "5"), "f" := Scalar(LIST, "[/a, /b]"), "g" := Scalar(LIST, "[/a, /b]")]
  }

  /** The first three definitions of the example remove only c. */
  lemma StrippedExampleFirstThree(convert: Value -> seq<string>)
    requires convert(Scalar(STRING, "2")) == ["2"] && convert(Scalar(STRING, "3")) == ["3"]
    ensures Stripped(ExampleProperties(), ExampleDefinitions()[..3],
                     Some(map["b" := Scalar(STRING, "5"), "d" := Scalar(INTEGER, "7")]), convert) ==
      Stripping(ExampleProperties() - {"c"}, false)
  {
    var ads := ExampleDefinitions();
    var props := ExampleProperties();
    var dp := Some(map["b" := Scalar(STRING, "5"), "d" := Scalar(INTEGER, "7")]);
    assert ads[..0] == [];
    assert ads[..1][..0] == ads[..0] && ads[..1][0] == ads[0];
    assert ads[..2][..1] == ads[..1] && ads[..2][1] == ads[1];
    assert ads[..3][..2] == ads[..2] && ads[..3][2] == ads[2];
    assert ["1"] != ["2"] && ["3"] == ["3"] by {
      assert "1"[0] != "2"[0];
    }
    assert !Removes(props, ads[0], dp, convert);
    assert Stripped(props, ads[..0], dp, convert) == Stripping(props, false);
    var s1 := Stripped(props, ads[..1], dp, convert);
    assert s1 == Stripping(props, false);
    assert !Removes(s1.props, ads[1], dp, convert);
    var s2 := Stripped(props, ads[..2], dp, convert);
    assert s2 == Stripping(props, false);
    assert Removes(s2.props, ads[2], dp, convert);
  }
}
