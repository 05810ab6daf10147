/**
 * The OSGi Configuration Admin service as the configuration factory sees it:
 * a store of configuration records that can be queried with filters, fetched
 * or created by pid, updated, re-bound and deleted.
 *
 * Records are kept in a sequence; the order is the (otherwise unspecified)
 * order in which listConfigurations reports them. A store that cannot reach
 * its persistent storage answers every call with an IOException.
 */
module ConfigAdmin {
  import opened Wrappers
  import opened Values
  import opened Filters
  import opened InstallerApi

  /** The exceptions the configuration factory tells apart. */
  datatype Failure =
    | IOFailure       // java.io.IOException: the persistent store cannot be reached
    | SyntaxFailure   // org.osgi.framework.InvalidSyntaxException: a malformed filter
    | StateFailure    // java.lang.IllegalStateException: the configuration was deleted
    | RuntimeFailure  // any other unchecked exception

  /**
   * A configuration record. `properties` is None for a configuration that has
   * been created but never updated; listConfigurations does not report those.
   */
  datatype Configuration = Configuration(
    pid: string,
    factoryPid: Option<string>,
    properties: Option<Dict>,
    bundleLocation: Option<string>)

  predicate Current(c: Configuration)
  {
    c.properties.Some?
  }

  /** The string form of a scalar property of a record, if it has one. */
  function Property(c: Configuration, key: string): Option<string>
  {
    if c.properties.Some? && key in c.properties.value && c.properties.value[key].Scalar?
    then Some(c.properties.value[key].text)
    else None
  }

  /** The attributes a filter is evaluated against: the scalar properties plus the record's own pids. */
  function Attributes(c: Configuration): (attrs: map<string, string>)
    ensures SERVICE_PID in attrs && attrs[SERVICE_PID] == c.pid
    ensures SERVICE_FACTORYPID in attrs <==> c.factoryPid.Some?
    ensures c.factoryPid.Some? ==> attrs[SERVICE_FACTORYPID] == c.factoryPid.value
    ensures forall k :: k != SERVICE_PID && k != SERVICE_FACTORYPID ==>
      (k in attrs <==> Property(c, k).Some?) && (k in attrs ==> attrs[k] == Property(c, k).value)
  {
    var props := if c.properties.Some? then c.properties.value else map[];
    var scalars := map k | k in props && props[k].Scalar? && k != SERVICE_FACTORYPID :: props[k].text;
    var withPid := scalars[SERVICE_PID := c.pid];
    if c.factoryPid.Some? then withPid[SERVICE_FACTORYPID := c.factoryPid.value] else withPid
  }

  /** The current records a parsed filter selects, in store order. */
  function Listed(configs: seq<Configuration>, filter: Node): (r: seq<Configuration>)
    ensures forall c :: c in r <==> c in configs && Current(c) && Eval(filter, Attributes(c))
  {
    if configs == [] then []
    else
      var head := configs[0];
      (if Current(head) && Eval(filter, Attributes(head)) then [head] else []) + Listed(configs[1..], filter)
  }

  /** No two records share a pid. */
  ghost predicate UniquePids(configs: seq<Configuration>)
  {
    forall i, j :: 0 <= i < j < |configs| ==> configs[i].pid != configs[j].pid
  }

  function Find(configs: seq<Configuration>, pid: string): (r: Option<Configuration>)
    ensures r.Some? <==> exists c :: c in configs && c.pid == pid
    ensures r.Some? ==> r.value in configs && r.value.pid == pid
  {
    if configs == [] then None
    else if configs[0].pid == pid then Some(configs[0])
    else Find(configs[1..], pid)
  }

  /** The record with the given pid, created without properties when there is none. */
  function Obtain(configs: seq<Configuration>, pid: string, factoryPid: Option<string>, location: Option<string>)
    : (r: (Configuration, seq<Configuration>))
    ensures r.0.pid == pid && r.0 in r.1
    ensures Find(configs, pid).Some? ==> r == (Find(configs, pid).value, configs)
    ensures Find(configs, pid).None? ==>
      r.0 == Configuration(pid, factoryPid, None, location) && r.1 == configs + [r.0]
  {
    match Find(configs, pid)
    case Some(c) => (c, configs)
    case None =>
      var c := Configuration(pid, factoryPid, None, location);
      (c, configs + [c])
  }

  /** The store after one record's properties or location were replaced. */
  function Replace(configs: seq<Configuration>, updated: Configuration): (r: seq<Configuration>)
    ensures |r| == |configs|
    ensures forall i :: 0 <= i < |r| ==>
      r[i] == (if configs[i].pid == updated.pid then updated else configs[i])
    ensures forall i :: 0 <= i < |r| ==> r[i].pid == configs[i].pid
  {
    if configs == [] then []
    else [if configs[0].pid == updated.pid then updated else configs[0]] + Replace(configs[1..], updated)
  }

  /** The store after the record with the given pid was deleted. */
  function Without(configs: seq<Configuration>, pid: string): (r: seq<Configuration>)
    ensures forall c :: c in r <==> c in configs && c.pid != pid
    ensures UniquePids(configs) ==> UniquePids(r)
  {
    if configs == [] then []
    else
      var rest := Without(configs[1..], pid);
      assert UniquePids(configs) ==> forall c :: c in rest ==> c.pid != configs[0].pid;
      if configs[0].pid == pid then rest else [configs[0]] + rest
  }

  /** With unique pids, a record of the store is the one its pid finds. */
  lemma {:induction false} FindsStoredRecord(configs: seq<Configuration>, c: Configuration)
    requires UniquePids(configs) && c in configs
    ensures Find(configs, c.pid) == Some(c)
  {
    if configs[0] != c {
      var j :| 0 <= j < |configs| && configs[j] == c;
      assert configs[1..][j - 1] == c;
      FindsStoredRecord(configs[1..], c);
    }
  }

  /** After a record is replaced, its pid finds the replacement. */
  lemma FindsReplacement(configs: seq<Configuration>, updated: Configuration)
    requires Find(configs, updated.pid).Some?
    ensures Find(Replace(configs, updated), updated.pid) == Some(updated)
    ensures UniquePids(configs) ==> UniquePids(Replace(configs, updated))
  {
    FindsReplacementFirst(configs, updated);
  }

  lemma {:induction false} FindsReplacementFirst(configs: seq<Configuration>, updated: Configuration)
    requires Find(configs, updated.pid).Some?
    ensures Find(Replace(configs, updated), updated.pid) == Some(updated)
  {
    if configs[0].pid != updated.pid {
      FindsReplacementFirst(configs[1..], updated);
      assert Replace(configs, updated)[1..] == Replace(configs[1..], updated);
    }
  }

  /** The record Obtain hands back is the one its pid finds afterwards, and pids stay unique. */
  lemma ObtainedIsFound(configs: seq<Configuration>, pid: string, factoryPid: Option<string>, location: Option<string>)
    ensures var (c, after) := Obtain(configs, pid, factoryPid, location);
      Find(after, pid) == Some(c) && (UniquePids(configs) ==> UniquePids(after))
  {
    if Find(configs, pid).None? {
      FindFirst(configs + [Configuration(pid, factoryPid, None, location)], pid, |configs|);
    }
  }

  /** The record Find returns is the first one with that pid. */
  lemma {:induction false} FindFirst(configs: seq<Configuration>, pid: string, i: nat)
    requires i < |configs| && configs[i].pid == pid
    requires forall j :: 0 <= j < i ==> configs[j].pid != pid
    ensures Find(configs, pid) == Some(configs[i])
  {
    if i > 0 {
      FindFirst(configs[1..], pid, i - 1);
    }
  }

  /** Replacing a record appended to a store without its pid replaces just that record. */
  lemma ReplaceAppended(configs: seq<Configuration>, c: Configuration, updated: Configuration)
    requires Find(configs, c.pid).None? && updated.pid == c.pid
    ensures Replace(configs + [c], updated) == configs + [updated]
  {
    forall i | 0 <= i < |configs|
      ensures configs[i].pid != c.pid
    {
      assert configs[i] in configs;
    }
  }

  class ConfigurationAdmin {
    var configs: seq<Configuration>
    var available: bool

    ghost predicate Valid()
      reads this
    {
      UniquePids(configs)
    }

    constructor (initial: seq<Configuration>, available: bool)
      requires UniquePids(initial)
      ensures Valid() && configs == initial && this.available == available
    {
      configs := initial;
      this.available := available;
    }

    /** listConfigurations(filter); an empty sequence stands for the null the service returns. */
    function ListConfigurations(filter: string): (r: Result<seq<Configuration>, Failure>)
      reads this
      ensures !available ==> r == Failure(IOFailure)
      ensures available && Parse(filter).None? ==> r == Failure(SyntaxFailure)
      ensures available && Parse(filter).Some? ==> r == Success(Listed(configs, Parse(filter).value))
    {
      if !available then Failure(IOFailure)
      else match Parse(filter)
        case None => Failure(SyntaxFailure)
        case Some(node) => Success(Listed(configs, node))
    }

    /** getConfiguration(pid, location): the record with that pid, created when there is none. */
    method GetConfiguration(pid: string, location: Option<string>) returns (r: Result<Configuration, Failure>)
      requires Valid()
      modifies this
      ensures Valid() && available == old(available)
      ensures !old(available) ==> r == Failure(IOFailure) && configs == old(configs)
      ensures old(available) ==>
        var (c, after) := Obtain(old(configs), pid, None, location);
        r == Success(c) && configs == after
    {
      if !available {
        return Failure(IOFailure);
      }
      var (c, after) := Obtain(configs, pid, None, location);
      configs := after;
      r := Success(c);
    }

    /** getFactoryConfiguration(factoryPid, name, location): the named factory configuration `factoryPid~name`. */
    method GetFactoryConfiguration(factoryPid: string, name: string, location: Option<string>)
      returns (r: Result<Configuration, Failure>)
      requires Valid()
      modifies this
      ensures Valid() && available == old(available)
      ensures !old(available) ==> r == Failure(IOFailure) && configs == old(configs)
      ensures old(available) ==>
        var (c, after) := Obtain(old(configs), factoryPid + "~" + name, Some(factoryPid), location);
        r == Success(c) && configs == after
    {
      if !available {
        return Failure(IOFailure);
      }
      var (c, after) := Obtain(configs, factoryPid + "~" + name, Some(factoryPid), location);
      configs := after;
      r := Success(c);
    }

    /** Configuration.update(properties) on the record with the given pid. */
    method Update(pid: string, properties: Dict) returns (thrown: Option<Failure>)
      requires Valid()
      modifies this
      ensures Valid() && available == old(available)
      ensures !old(available) ==> thrown == Some(IOFailure) && configs == old(configs)
      ensures old(available) && Find(old(configs), pid).None? ==>
        thrown == Some(StateFailure) && configs == old(configs)
      ensures old(available) && Find(old(configs), pid).Some? ==>
        thrown.None? &&
        configs == Replace(old(configs), Find(old(configs), pid).value.(properties := Some(properties)))
    {
      if !available {
        return Some(IOFailure);
      }
      match Find(configs, pid)
      case None =>
        thrown := Some(StateFailure);
      case Some(c) =>
        configs := Replace(configs, c.(properties := Some(properties)));
        thrown := None;
    }

    /** Configuration.setBundleLocation(location) on the record with the given pid. */
    method SetBundleLocation(pid: string, location: Option<string>) returns (thrown: Option<Failure>)
      requires Valid()
      modifies this
      ensures Valid() && available == old(available)
      ensures !old(available) ==> thrown == Some(IOFailure) && configs == old(configs)
      ensures old(available) && Find(old(configs), pid).None? ==>
        thrown == Some(StateFailure) && configs == old(configs)
      ensures old(available) && Find(old(configs), pid).Some? ==>
        thrown.None? &&
        configs == Replace(old(configs), Find(old(configs), pid).value.(bundleLocation := location))
    {
      if !available {
        return Some(IOFailure);
      }
      match Find(configs, pid)
      case None =>
        thrown := Some(StateFailure);
      case Some(c) =>
        configs := Replace(configs, c.(bundleLocation := location));
        thrown := None;
    }

    /** Configuration.delete() on the record with the given pid. */
    method Delete(pid: string) returns (thrown: Option<Failure>)
      requires Valid()
      modifies this
      ensures Valid() && available == old(available)
      ensures !old(available) ==> thrown == Some(IOFailure) && configs == old(configs)
      ensures old(available) && Find(old(configs), pid).None? ==>
        thrown == Some(StateFailure) && configs == old(configs)
      ensures old(available) && Find(old(configs), pid).Some? ==>
        thrown.None? && configs == Without(old(configs), pid)
    {
      if !available {
        return Some(IOFailure);
      }
      if Find(configs, pid).None? {
        return Some(StateFailure);
      }
      configs := Without(configs, pid);
      thrown := None;
    }
  }
}
