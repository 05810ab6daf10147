/**
 * SortedDictionary: a view on a Hashtable whose keys and elements are
 * enumerated in the natural (lexicographic) order of the keys. Every write
 * goes through to the delegate, so the view and the delegate always agree.
 */
module SortedDictionary {
  import opened Wrappers
  import opened Values

  lemma {:induction false} LessIrreflexive(a: string)
    ensures !Less(a, a)
  {
    if a != [] {
      LessIrreflexive(a[1..]);
    }
  }

  lemma {:induction false} LessTransitive(a: string, b: string, c: string)
    requires Less(a, b) && Less(b, c)
    ensures Less(a, c)
  {
    if a != [] && a[0] == b[0] && b[0] == c[0] {
      LessTransitive(a[1..], b[1..], c[1..]);
    }
  }

  lemma {:induction false} LessTotal(a: string, b: string)
    ensures a == b || Less(a, b) || Less(b, a)
  {
    if a != [] && b != [] && a[0] == b[0] {
      LessTotal(a[1..], b[1..]);
      if a[1..] == b[1..] {
        assert a == [a[0]] + a[1..] && b == [b[0]] + b[1..];
      }
    }
  }

  lemma LessAsymmetric(a: string, b: string)
    requires Less(a, b)
    ensures !Less(b, a)
  {
    if Less(b, a) {
      LessTransitive(a, b, a);
      LessIrreflexive(a);
    }
  }

  /** Ascending without repetition: the order a TreeSet enumerates in. */
  predicate StrictlySorted(s: seq<string>)
  {
    forall i, j :: 0 <= i < j < |s| ==> Less(s[i], s[j])
  }

  /**
   * TreeSet.add: places k at its position in the sorted sequence, and
   * leaves the sequence as it is when k is already there.
   */
  function Insert(s: seq<string>, k: string): (r: seq<string>)
    requires StrictlySorted(s)
    ensures StrictlySorted(r)
    ensures forall x :: x in r <==> x in s || x == k
    ensures |r| == if k in s then |s| else |s| + 1
  {
    if s == [] then [k]
    else if s[0] == k then s
    else if Less(k, s[0]) then
      InsertFrontSorted(s, k);
      [k] + s
    else
      LessTotal(k, s[0]);
      var r := [s[0]] + Insert(s[1..], k);
      assert forall j :: 0 < j < |r| ==> Less(s[0], r[j]) by {
        forall j | 0 < j < |r|
          ensures Less(s[0], r[j])
        {
          assert r[j] in s[1..] || r[j] == k;
        }
      }
      r
  }

  lemma InsertFrontSorted(s: seq<string>, k: string)
    requires StrictlySorted(s) && s != [] && Less(k, s[0])
    ensures StrictlySorted([k] + s)
    ensures k !in s
  {
    var r := [k] + s;
    forall j | 0 <= j < |s|
      ensures s[j] != k
    {
      if s[j] == k {
        LessIrreflexive(k);
        if j > 0 {
          LessAsymmetric(k, s[0]);
        }
      }
    }
    forall i, j | 0 <= i < j < |r|
      ensures Less(r[i], r[j])
    {
      if i == 0 && j > 1 {
        LessTransitive(k, s[0], s[j - 1]);
      }
    }
  }

  /**
   * A strictly sorted sequence is fixed by its elements: the sorted
   * enumeration does not depend on the order the delegate hands its keys out.
   */
  lemma {:induction false} SortedIsUnique(a: seq<string>, b: seq<string>)
    requires StrictlySorted(a) && StrictlySorted(b)
    requires forall x :: x in a <==> x in b
    ensures a == b
  {
    if a == [] {
      FirstIsMember(b);
    } else {
      assert a[0] in b && b != [];
      assert b[0] in a;
      var i :| 0 <= i < |a| && a[i] == b[0];
      var j :| 0 <= j < |b| && b[j] == a[0];
      if i > 0 && j > 0 {
        LessAsymmetric(a[0], b[0]);
      }
      assert a[0] == b[0];
      forall x
        ensures x in a[1..] <==> x in b[1..]
      {
        if x in a[1..] {
          var p :| 0 <= p < |a[1..]| && a[1..][p] == x;
          assert Less(a[0], a[p + 1]);
          LessIrreflexive(x);
          assert x in b && x != b[0];
        }
        if x in b[1..] {
          var p :| 0 <= p < |b[1..]| && b[1..][p] == x;
          assert Less(b[0], b[p + 1]);
          LessIrreflexive(x);
          assert x in a && x != a[0];
        }
      }
      SortedIsUnique(a[1..], b[1..]);
      assert a == [a[0]] + a[1..] && b == [b[0]] + b[1..];
    }
  }

  lemma FirstIsMember(s: seq<string>)
    ensures s != [] ==> s[0] in s
  {
  }

  /** The keys of a dictionary in ascending order, specified by insertion. */
  ghost function SortedKeys(keys: set<string>): (r: seq<string>)
    ensures StrictlySorted(r)
    ensures forall x :: x in r <==> x in keys
    ensures |r| == |keys|
    decreases keys
  {
    if keys == {} then []
    else
      var k :| k in keys;
      Insert(SortedKeys(keys - {k}), k)
  }

  /** The values of a dictionary listed in the ascending order of their keys. */
  ghost function SortedValues(d: Dict): (r: seq<Value>)
    ensures |r| == |d|
    ensures forall i :: 0 <= i < |r| ==> SortedKeys(d.Keys)[i] in d && r[i] == d[SortedKeys(d.Keys)[i]]
  {
    var ks := SortedKeys(d.Keys);
    seq(|ks|, i requires 0 <= i < |ks| => d[ks[i]])
  }

  lemma ListsSortedValues(d: Dict, ks: seq<string>, values: seq<Value>)
    requires ks == SortedKeys(d.Keys) && |values| == |ks|
    requires forall j :: 0 <= j < |ks| ==> values[j] == d[ks[j]]
    ensures values == SortedValues(d)
  {
  }

  class SortedDictionary {
    /** The dictionary this view reads from and writes to. */
    const delegate: Hashtable

    constructor (delegate: Hashtable)
      ensures this.delegate == delegate
    {
      this.delegate := delegate;
    }

    /** size(): the number of entries in the delegate. */
    function Size(): (n: nat)
      reads delegate
      ensures n == |delegate.entries.Keys|
    {
      |delegate.entries|
    }

    /** isEmpty(): the delegate has no entry. */
    function IsEmpty(): (r: bool)
      reads delegate
      ensures r <==> Size() == 0
      ensures r <==> delegate.entries == map[]
    {
      delegate.entries == map[]
    }

    /** get(key): the delegate's value, or null. */
    function Get(key: string): (r: Option<Value>)
      reads delegate
      ensures r.Some? <==> key in delegate.entries
      ensures r.Some? ==> r.value == delegate.entries[key]
    {
      delegate.Lookup(key)
    }

    /**
     * keys(): every key of the delegate exactly once, in ascending order,
     * gathered one at a time into a sorted set.
     */
    method Keys() returns (ks: seq<string>)
      ensures StrictlySorted(ks)
      ensures forall x :: x in ks <==> x in delegate.entries
      ensures |ks| == Size()
      ensures ks == SortedKeys(delegate.entries.Keys)
    {
      var sorted: seq<string> := [];
      var pending := delegate.entries.Keys;
      while pending != {}
        invariant pending <= delegate.entries.Keys
        invariant StrictlySorted(sorted)
        invariant forall x :: x in sorted <==> x in delegate.entries && x !in pending
        decreases pending
      {
        var key :| key in pending;
        sorted := Insert(sorted, key);
        pending := pending - {key};
      }
      ks := sorted;
      SortedIsUnique(ks, SortedKeys(delegate.entries.Keys));
    }

    /** elements(): the delegate's value for each key, in the order keys() gives. */
    method Elements() returns (values: seq<Value>)
      ensures values == SortedValues(delegate.entries)
    {
      var ks := Keys();
      values := ValuesOf(ks);
      ListsSortedValues(delegate.entries, ks, values);
    }

    /** The delegate's value for each of the given keys, fetched one at a time. */
    method ValuesOf(ks: seq<string>) returns (values: seq<Value>)
      requires forall x :: x in ks ==> x in delegate.entries
      ensures |values| == |ks|
      ensures forall j :: 0 <= j < |ks| ==> values[j] == delegate.entries[ks[j]]
    {
      values := [];
      for i := 0 to |ks|
        invariant |values| == i
        invariant forall j :: 0 <= j < i ==> values[j] == delegate.entries[ks[j]]
      {
        var value := Get(ks[i]);
        values := values + [value.value];
      }
    }

    /** put(key, value): writes through to the delegate and returns the previous value. */
    method Put(key: string, value: Value) returns (previous: Option<Value>)
      modifies delegate
      ensures previous == Values.Get(old(delegate.entries), key)
      ensures delegate.entries == old(delegate.entries)[key := value]
      ensures Get(key) == Some(value)
    {
      previous := delegate.Put(key, value);
    }

    /** remove(key): removes the key from the delegate and returns the value it had. */
    method Remove(key: string) returns (previous: Option<Value>)
      modifies delegate
      ensures previous == Values.Get(old(delegate.entries), key)
      ensures delegate.entries == old(delegate.entries) - {key}
      ensures Get(key) == None
    {
      previous := delegate.Remove(key);
    }

    /** equals(obj): two views are equal exactly when their delegates hold the same entries. */
    predicate Equals(other: SortedDictionary)
      reads delegate, other.delegate
    {
      this == other || delegate.entries == other.delegate.entries
    }
  }

  /** Two views are equal if and only if their delegates are. */
  lemma EqualsMeansSameEntries(a: SortedDictionary, b: SortedDictionary)
    ensures a.Equals(b) <==> a.delegate.entries == b.delegate.entries
  {
  }

  /** The view over {Z, A, B} lists its keys as A, B, Z. */
  lemma SortedKeysExample()
    ensures SortedKeys({"Z", "A", "B"}) == ["A", "B", "Z"]
  {
    var s := ["A", "B", "Z"];
    assert Less("A", "B") && Less("B", "Z") && Less("A", "Z");
    assert forall x :: x in s <==> x in {"Z", "A", "B"};
    SortedIsUnique(s, SortedKeys({"Z", "A", "B"}));
  }
}
