/**
 * Configuration property values and dictionaries.
 *
 * A property value is either a single object or an array of objects. Every
 * comparison the configuration factory makes goes through String.valueOf, so
 * a value keeps its Java type name (kind) beside its string form: the Integer
 * 4 is Scalar("java.lang.Integer", "4") and the String "4" is
 * Scalar("java.lang.String", "4"). A non-array collection such as a List is a
 * Scalar whose text is its toString() form.
 */
module Values {
  import opened Wrappers

  type TypeName = string

  const STRING: TypeName := "java.lang.String"
  const INTEGER: TypeName := "java.lang.Integer"
  const BOOLEAN: TypeName := "java.lang.Boolean"
  const LIST: TypeName := "java.util.List"

  datatype Value =
    | Scalar(kind: TypeName, text: string)
    | Arr(kind: TypeName, items: seq<string>)

  /** A Hashtable never holds null keys or values, so a dictionary is a finite map. */
  type Dict = map<string, Value>

  function StringValue(s: string): Value
  {
    Scalar(STRING, s)
  }

  /** Dictionary.get: null when the key is absent. */
  function Get(d: Dict, key: string): (r: Option<Value>)
    ensures r.Some? <==> key in d
    ensures r.Some? ==> r.value == d[key]
  {
    if key in d then Some(d[key]) else None
  }

  /** String.indexOf(char): the first index of c, or -1. */
  function IndexOf(s: string, c: char): (n: int)
    ensures -1 <= n < |s|
    ensures n >= 0 ==> s[n] == c
    ensures forall k :: 0 <= k < |s| && (n == -1 || k < n) ==> s[k] != c
  {
    if s == [] then -1
    else if s[0] == c then 0
    else
      var n := IndexOf(s[1..], c);
      if n == -1 then -1 else n + 1
  }

  /** String.lastIndexOf(char): the last index of c, or -1. */
  function LastIndexOf(s: string, c: char): (n: int)
    ensures -1 <= n < |s|
    ensures n >= 0 ==> s[n] == c
    ensures forall k :: n < k < |s| ==> s[k] != c
  {
    if s == [] then -1
    else if s[|s| - 1] == c then |s| - 1
    else LastIndexOf(s[..|s| - 1], c)
  }

  /** String.compareTo(a, b) < 0: character by character, a proper prefix first. */
  predicate Less(a: string, b: string)
  {
    if a == [] then b != []
    else if b == [] then false
    else if a[0] != b[0] then a[0] < b[0]
    else Less(a[1..], b[1..])
  }

  /**
   * A java.util.Hashtable that some operation changes in place. Dictionaries
   * that are only read are passed around as Dict values.
   */
  class Hashtable {
    var entries: Dict

    constructor (initial: Dict)
      ensures entries == initial
    {
      entries := initial;
    }

    function Lookup(key: string): (r: Option<Value>)
      reads this
      ensures r == Get(entries, key)
    {
      if key in entries then Some(entries[key]) else None
    }

    /** Hashtable.put: returns the previous value. */
    method Put(key: string, value: Value) returns (previous: Option<Value>)
      modifies this
      ensures previous == Get(old(entries), key)
      ensures entries == old(entries)[key := value]
    {
      previous := Lookup(key);
      entries := entries[key := value];
    }

    /** Hashtable.remove: returns the removed value, or null when the key was absent. */
    method Remove(key: string) returns (previous: Option<Value>)
      modifies this
      ensures previous == Get(old(entries), key)
      ensures entries == old(entries) - {key}
    {
      previous := Lookup(key);
      entries := entries - {key};
    }
  }
}
