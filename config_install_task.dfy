/**
 * The task that installs a configuration resource: it finds or creates the
 * record, writes the resource's dictionary into it unless the record already
 * holds the same data, and notes every write in the shared ledger so that
 * the configuration listener does not report it back to the installer.
 */
module ConfigInstallTask {
  import opened Wrappers
  import opened Values
  import opened InstallerApi
  import opened ConfigAdmin
  import opened Coordination
  import opened ConfigUtil
  import opened AbstractConfigTask

  /** Configuration tasks run after the tasks whose sort keys start lower. */
  const CONFIG_INSTALL_ORDER := "20-"

  /** How execute leaves the task: a finished state, or unchanged so that the installer retries it. */
  datatype Outcome = Finished(state: ResourceState) | Retry

  /** The two catch blocks: a temporary failure is retried, any other marks the resource ignored. */
  function Settled(failure: Failure): (outcome: Outcome)
    ensures outcome == Retry <==> failure == IOFailure || failure == StateFailure
    ensures outcome != Retry ==> outcome == Finished(Ignored)
  {
    match failure
    case IOFailure => Retry
    case StateFailure => Retry
    case _ => Finished(Ignored)
  }

  /**
   * The bundle location the configuration is bound to: the default location
   * when the dictionary has none, unbound for the empty string, else the
   * given one. Reading it from a missing dictionary or casting a non-String
   * fails with a runtime exception.
   */
  function BundleLocation(dictionary: Option<Dict>, defaultLocation: Option<string>): (r: Result<Option<string>, Failure>)
    ensures dictionary.None? ==> r == Failure(RuntimeFailure)
    ensures dictionary.Some? && PROPERTY_BUNDLE_LOCATION !in dictionary.value ==> r == Success(defaultLocation)
    ensures dictionary.Some? && PROPERTY_BUNDLE_LOCATION in dictionary.value ==>
      var v := dictionary.value[PROPERTY_BUNDLE_LOCATION];
      (v == StringValue("") ==> r == Success(None)) &&
      (v.Scalar? && v.kind == STRING && v.text != "" ==> r == Success(Some(v.text))) &&
      (!(v.Scalar? && v.kind == STRING) ==> r == Failure(RuntimeFailure))
  {
    match dictionary
    case None => Failure(RuntimeFailure)
    case Some(d) =>
      if PROPERTY_BUNDLE_LOCATION !in d then Success(defaultLocation)
      else
        match d[PROPERTY_BUNDLE_LOCATION]
        case Scalar(kind, text) =>
          if kind != STRING then Failure(RuntimeFailure)
          else if text == "" then Success(None)
          else Success(Some(text))
        case Arr(_, _) => Failure(RuntimeFailure)
  }

  /**
   * What getConfiguration answers for the task when the store is reachable:
   * the record by pid or by factory pid and R7 pid, else for a factory
   * configuration the legacy lookup, which may fail on the alias filter.
   */
  function Existing(configs: seq<Configuration>, factoryPid: Option<string>, configPid: string)
    : (r: Result<Option<Configuration>, Failure>)
    ensures r.Success? && r.value.Some? ==> r.value.value in configs && Current(r.value.value)
    ensures r.Failure? ==> factoryPid.Some? && r.error == SyntaxFailure
    ensures factoryPid.None? ==> r == Success(FirstSatisfying(configs, PidIs(configPid)))
    ensures factoryPid.Some? && PlainValue(factoryPid.value) ==>
      r.Success? && (r.value.Some? ==> r.value.value.factoryPid == factoryPid)
    ensures FirstSatisfying(configs, PrimaryCriterion(factoryPid, configPid)).Some? ==>
      r == Success(FirstSatisfying(configs, PrimaryCriterion(factoryPid, configPid)))
  {
    var primary := FirstSatisfying(configs, PrimaryCriterion(factoryPid, configPid));
    if primary.Some? || factoryPid.None? then Success(primary)
    else
      var r := LegacyLookup(configs, factoryPid.value, Some(configPid));
      LegacyLookupFindsStoredRecord(configs, factoryPid.value, Some(configPid));
      assert PlainValue(factoryPid.value) ==> r.Success? && (r.value.Some? ==> r.value.value.factoryPid == factoryPid) by {
        if PlainValue(factoryPid.value) {
          PlainFactoryPidFindsOwnRecord(configs, factoryPid.value, configPid);
        }
      }
      r
  }

  /** What one execution does: how the task ends, the store afterwards, and what it adds to the ledger. */
  datatype Effect = Effect(outcome: Outcome, configs: seq<Configuration>, recorded: seq<Operation>)

  /**
   * The effect of execute on a store whose reachability does not change
   * during the call.
   */
  function Execution(configs: seq<Configuration>, available: bool, defaultLocation: Option<string>, task: ConfigTask)
    : (e: Effect)
    ensures BundleLocation(task.resource.dictionary, defaultLocation).Failure? ==>
      e == Effect(Finished(Ignored), configs, [])
    ensures BundleLocation(task.resource.dictionary, defaultLocation).Success? && !available ==>
      e == Effect(Retry, configs, [])
    ensures (BundleLocation(task.resource.dictionary, defaultLocation).Success? && available &&
             Existing(configs, task.factoryPid, task.configPid).Failure?) ==>
      e == Effect(Finished(Ignored), configs, [])
    ensures e.outcome != Finished(Installed) ==> e.configs == configs && e.recorded == []
    ensures e.recorded == [] ==> e.configs == configs
    ensures |e.recorded| <= 1
    ensures e.recorded != [] ==> e.outcome == Finished(Installed) && !e.recorded[0].isDelete
  {
    var location := BundleLocation(task.resource.dictionary, defaultLocation);
    if location.Failure? then Effect(Settled(location.error), configs, [])
    else if !available then Effect(Retry, configs, [])
    else
      var dict := task.resource.dictionary.value;
      match Existing(configs, task.factoryPid, task.configPid)
      case Failure(error) => Effect(Settled(error), configs, [])
      case Success(None) =>
        var (c, after) := Obtain(configs, RealPid(task), task.factoryPid, location.value);
        Effect(Finished(Installed), Replace(after, c.(properties := Some(dict))), [Operation(c.pid, c.factoryPid, false)])
      case Success(Some(c)) =>
        if SameData(c.properties, Some(dict)) then Effect(Finished(Installed), configs, [])
        else
          var moved := c.(bundleLocation := location.value);
          Effect(Finished(Installed), Replace(Replace(configs, moved), moved.(properties := Some(dict))),
                 [Operation(c.pid, c.factoryPid, false)])
  }

  /**
   * Once a task has installed, the store holds a record with the resource's
   * data; when the task wrote, the record the ledger entry names holds
   * exactly the resource's dictionary.
   */
  lemma InstalledHoldsResourceData(configs: seq<Configuration>, available: bool, defaultLocation: Option<string>, task: ConfigTask)
    requires UniquePids(configs)
    ensures var e := Execution(configs, available, defaultLocation, task);
      UniquePids(e.configs) &&
      (e.outcome == Finished(Installed) ==>
        exists c :: c in e.configs && SameData(c.properties, task.resource.dictionary)) &&
      (e.recorded != [] ==>
        Find(e.configs, e.recorded[0].pid).Some? &&
        Find(e.configs, e.recorded[0].pid).value.properties == task.resource.dictionary &&
        Find(e.configs, e.recorded[0].pid).value.factoryPid == e.recorded[0].factoryPid)
  {
    var location := BundleLocation(task.resource.dictionary, defaultLocation);
    if location.Success? && available {
      var dict := task.resource.dictionary.value;
      var e := Execution(configs, available, defaultLocation, task);
      SameDataReflexive(dict);
      match Existing(configs, task.factoryPid, task.configPid)
      case Failure(_) =>
      case Success(None) =>
        var (c, after) := Obtain(configs, RealPid(task), task.factoryPid, location.value);
        var written := c.(properties := Some(dict));
        ObtainAndWrite(configs, RealPid(task), task.factoryPid, location.value, dict);
        assert e == Effect(Finished(Installed), Replace(after, written), [Operation(c.pid, c.factoryPid, false)]);
        assert written in e.configs && SameData(written.properties, task.resource.dictionary);
      case Success(Some(c)) =>
        if !SameData(c.properties, Some(dict)) {
          var moved := c.(bundleLocation := location.value);
          var written := moved.(properties := Some(dict));
          MoveAndWrite(configs, c, location.value, dict);
          assert e == Effect(Finished(Installed), Replace(Replace(configs, moved), written), [Operation(c.pid, c.factoryPid, false)]);
          assert written in e.configs && SameData(written.properties, task.resource.dictionary);
        } else {
          assert e.configs == configs && c in configs;
        }
    }
  }

  lemma SameDataReflexive(d: Dict)
    ensures SameData(Some(d), Some(d))
  {
    forall k | k in RelevantKeys(d)
      ensures SameValue(Some(d[k]), Some(d[k]))
    {
      SameValueIsEquivalence(Some(d[k]), Some(d[k]), Some(d[k]));
    }
  }

  /** Writing the dictionary into the record Obtain hands back stores it under that record's pid. */
  lemma ObtainAndWrite(configs: seq<Configuration>, pid: string, factoryPid: Option<string>,
                       location: Option<string>, dict: Dict)
    requires UniquePids(configs)
    ensures var (c, after) := Obtain(configs, pid, factoryPid, location);
      var written := c.(properties := Some(dict));
      var s := Replace(after, written);
      UniquePids(s) && Find(s, c.pid) == Some(written) && written in s
  {
    var (c, after) := Obtain(configs, pid, factoryPid, location);
    ObtainedIsFound(configs, pid, factoryPid, location);
    FindsReplacement(after, c.(properties := Some(dict)));
  }

  /** Rebinding a stored record and then writing the dictionary into it stores both under its pid. */
  lemma MoveAndWrite(configs: seq<Configuration>, c: Configuration, location: Option<string>, dict: Dict)
    requires UniquePids(configs) && c in configs
    ensures var moved := c.(bundleLocation := location);
      var written := moved.(properties := Some(dict));
      var s := Replace(Replace(configs, moved), written);
      UniquePids(s) && Find(s, c.pid) == Some(written) && written in s
  {
    var moved := c.(bundleLocation := location);
    FindsStoredRecord(configs, c);
    FindsReplacement(configs, moved);
    FindsReplacement(Replace(configs, moved), moved.(properties := Some(dict)));
  }

  /**
   * A task for a new configuration creates the record under the task's real
   * pid and factory pid, bound to the location the resource asks for.
   */
  lemma NewRecordCarriesLocation(configs: seq<Configuration>, defaultLocation: Option<string>, task: ConfigTask)
    requires Existing(configs, task.factoryPid, task.configPid) == Success(None)
    requires Find(configs, RealPid(task)).None?
    requires BundleLocation(task.resource.dictionary, defaultLocation).Success?
    ensures var e := Execution(configs, true, defaultLocation, task);
      var location := BundleLocation(task.resource.dictionary, defaultLocation).value;
      e.outcome == Finished(Installed) &&
      e.configs == configs + [Configuration(RealPid(task), task.factoryPid, task.resource.dictionary, location)] &&
      e.recorded == [Operation(RealPid(task), task.factoryPid, false)]
  {
    var location := BundleLocation(task.resource.dictionary, defaultLocation).value;
    var c := Configuration(RealPid(task), task.factoryPid, None, location);
    var written := c.(properties := task.resource.dictionary);
    CreatesObtainedRecord(configs, defaultLocation, task);
    assert Obtain(configs, RealPid(task), task.factoryPid, location) == (c, configs + [c]);
    ReplaceAppended(configs, c, written);
  }

  /** Without a record to reuse, execute writes the dictionary into the record Obtain hands back. */
  lemma CreatesObtainedRecord(configs: seq<Configuration>, defaultLocation: Option<string>, task: ConfigTask)
    requires Existing(configs, task.factoryPid, task.configPid) == Success(None)
    requires BundleLocation(task.resource.dictionary, defaultLocation).Success?
    ensures var location := BundleLocation(task.resource.dictionary, defaultLocation).value;
      var (c, after) := Obtain(configs, RealPid(task), task.factoryPid, location);
      Execution(configs, true, defaultLocation, task) ==
        Effect(Finished(Installed), Replace(after, c.(properties := task.resource.dictionary)),
               [Operation(c.pid, c.factoryPid, false)])
  {
    var location := BundleLocation(task.resource.dictionary, defaultLocation);
    assert task.resource.dictionary == Some(task.resource.dictionary.value);
    assert location.Success? && location.value == BundleLocation(task.resource.dictionary, defaultLocation).value;
  }

  /**
   * A stored record that already holds the resource's data is left alone:
   * the store is unchanged, nothing enters the ledger, and the task still
   * counts as installed.
   */
  lemma SameDataSkipsWrite(configs: seq<Configuration>, defaultLocation: Option<string>, task: ConfigTask, c: Configuration)
    requires BundleLocation(task.resource.dictionary, defaultLocation).Success?
    requires Existing(configs, task.factoryPid, task.configPid) == Success(Some(c))
    requires SameData(c.properties, task.resource.dictionary)
    ensures Execution(configs, true, defaultLocation, task) == Effect(Finished(Installed), configs, [])
  {
  }

  /**
   * A stored record with other data is first bound to the resource's
   * location and then given the resource's dictionary under its own pid; the
   * ledger notes one update of that pid, and every other record is unchanged.
   */
  lemma DifferentDataRebindsRecord(configs: seq<Configuration>, defaultLocation: Option<string>, task: ConfigTask, c: Configuration)
    requires UniquePids(configs)
    requires BundleLocation(task.resource.dictionary, defaultLocation).Success?
    requires Existing(configs, task.factoryPid, task.configPid) == Success(Some(c))
    requires !SameData(c.properties, task.resource.dictionary)
    ensures var e := Execution(configs, true, defaultLocation, task);
      var location := BundleLocation(task.resource.dictionary, defaultLocation).value;
      e.outcome == Finished(Installed) &&
      Find(e.configs, c.pid) == Some(c.(bundleLocation := location, properties := task.resource.dictionary)) &&
      e.recorded == [Operation(c.pid, c.factoryPid, false)] &&
      |e.configs| == |configs| &&
      forall i :: 0 <= i < |configs| && configs[i].pid != c.pid ==> e.configs[i] == configs[i]
  {
    var location := BundleLocation(task.resource.dictionary, defaultLocation).value;
    var moved := c.(bundleLocation := location);
    MoveAndWrite(configs, c, location, task.resource.dictionary.value);
  }

  /** The installer's task object for one configuration resource. */
  class InstallTask {
    const task: ConfigTask
    const configAdmin: ConfigurationAdmin
    /** The state setFinishedState recorded; None while the task has not finished. */
    var finished: Option<ResourceState>

    constructor (group: TaskResourceGroup, configAdmin: ConfigurationAdmin)
      requires SERVICE_PID in group.active.attributes
      requires StringOrAbsent(group.active.attributes, SERVICE_PID)
      requires StringOrAbsent(group.active.attributes, SERVICE_FACTORYPID)
      ensures task == NewConfigTask(group) && this.configAdmin == configAdmin && finished.None?
    {
      task := NewConfigTask(group);
      this.configAdmin := configAdmin;
      finished := None;
    }

    /** getSortKey: the install order followed by the real pid. */
    function SortKey(): (key: string)
      ensures |key| == |CONFIG_INSTALL_ORDER| + |RealPid(task)|
      ensures key[..|CONFIG_INSTALL_ORDER|] == CONFIG_INSTALL_ORDER
      ensures key[|CONFIG_INSTALL_ORDER|..] == RealPid(task)
    {
      CONFIG_INSTALL_ORDER + RealPid(task)
    }

    /**
     * execute: install the resource's dictionary. The finished state is set
     * when the task installed or failed for good, and left as it was for a retry.
     */
    method Execute(ledger: Coordinator, defaultLocation: Option<string>)
      requires configAdmin.Valid()
      modifies this, configAdmin, ledger
      ensures configAdmin.Valid() && configAdmin.available == old(configAdmin.available)
      ensures var e := Execution(old(configAdmin.configs), old(configAdmin.available), defaultLocation, task);
        configAdmin.configs == e.configs &&
        ledger.operations == old(ledger.operations) + e.recorded &&
        finished == (if e.outcome.Finished? then Some(e.outcome.state) else old(finished))
    {
      var outcome := InstallResource(configAdmin, ledger, defaultLocation, task);
      if outcome.Finished? {
        finished := Some(outcome.state);
      }
    }
  }

  /** The body of execute: every step that can throw, and the catch blocks. */
  method InstallResource(ca: ConfigurationAdmin, ledger: Coordinator, defaultLocation: Option<string>, task: ConfigTask)
    returns (outcome: Outcome)
    requires ca.Valid()
    modifies ca, ledger
    ensures ca.Valid() && ca.available == old(ca.available)
    ensures var e := Execution(old(ca.configs), old(ca.available), defaultLocation, task);
      outcome == e.outcome && ca.configs == e.configs && ledger.operations == old(ledger.operations) + e.recorded
  {
    var location := BundleLocation(task.resource.dictionary, defaultLocation);
    if location.Failure? {
      return Settled(location.error);
    }
    var dict := task.resource.dictionary.value;
    var found := GetConfiguration(ca, task.factoryPid, task.configPid);
    if found.Failure? {
      return Settled(found.error);
    }
    assert found == Existing(ca.configs, task.factoryPid, task.configPid);
    var config: Option<Configuration> := found.value;
    if config.None? {
      var made := CreateConfiguration(ca, task.factoryPid, task.configPid, location.value);
      // The lookup reached the store, so creating the record cannot fail.
      assert made.Success?;
      config := Some(made.value);
      ObtainedIsFound(old(ca.configs), RealPid(task), task.factoryPid, location.value);
    } else {
      var same := IsSameData(config.value.properties, task.resource.dictionary);
      if same {
        config := None;
      } else {
        FindsStoredRecord(ca.configs, config.value);
        var thrown := ca.SetBundleLocation(config.value.pid, location.value);
        // The record was just found in a reachable store.
        assert thrown.None?;
        FindsReplacement(old(ca.configs), config.value.(bundleLocation := location.value));
      }
    }
    if config.Some? {
      var thrown := ca.Update(config.value.pid, dict);
      assert thrown.None?;
      ledger.Add(Operation(config.value.pid, config.value.factoryPid, false));
    }
    return Finished(Installed);
  }

  /** Sort keys of configuration tasks compare exactly as their real pids do. */
  lemma SortKeysOrderByRealPid(a: InstallTask, b: InstallTask)
    ensures Less(a.SortKey(), b.SortKey()) <==> Less(RealPid(a.task), RealPid(b.task))
  {
    assert a.SortKey() == CONFIG_INSTALL_ORDER + RealPid(a.task);
    assert b.SortKey() == CONFIG_INSTALL_ORDER + RealPid(b.task);
    CommonPrefixPreservesOrder(CONFIG_INSTALL_ORDER, RealPid(a.task), RealPid(b.task));
  }

  lemma {:induction false} CommonPrefixPreservesOrder(prefix: string, a: string, b: string)
    ensures Less(prefix + a, prefix + b) <==> Less(a, b)
  {
    if prefix != [] {
      assert (prefix + a)[1..] == prefix[1..] + a;
      assert (prefix + b)[1..] == prefix[1..] + b;
      CommonPrefixPreservesOrder(prefix[1..], a, b);
    } else {
      assert prefix + a == a && prefix + b == b;
    }
  }
}
