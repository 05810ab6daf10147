/**
 * ConfigTaskCreator: decides which task installs or removes a configuration
 * resource, turns a `.config`/`.cfg.json`/... resource into the attributes of
 * a configuration (its pid and factory pid), reports changes made directly
 * in the store back to the installer, and strips the properties a
 * configuration inherits from merged default resources.
 */
module ConfigTaskCreator {
  import opened Wrappers
  import opened Values
  import opened InstallerApi
  import opened ConfigAdmin
  import opened Coordination
  import opened ConfigUtil

  // ---------------------------------------------------------------------------
  // Task creation

  /** The kinds of task createTask returns; ChangeStateTask carries the state it sets. */
  datatype Task = ChangeStateTask(state: ResourceState) | ConfigRemoveTask | ConfigInstallTask

  /**
   * Whether an uninstalled resource is superseded by the next one: that one is
   * ignored, installed or about to be installed, and is not a template.
   */
  predicate NextResourceTakesOver(next: Option<TaskResource>)
  {
    next.Some? &&
    (next.value.state == Ignored || next.value.state == Installed || next.value.state == Install) &&
    (next.value.dictionary.None? || Get(next.value.dictionary.value, RESOURCE_IS_TEMPLATE).None?)
  }

  /** createTask: no task for other resource types; uninstall becomes a state change or a removal. */
  function CreateTask(group: TaskResourceGroup): (task: Option<Task>)
    ensures task.None? <==> group.active.resourceType != TYPE_CONFIG
    ensures task == Some(ChangeStateTask(Uninstalled)) <==>
      group.active.resourceType == TYPE_CONFIG && group.active.state == Uninstall &&
      NextResourceTakesOver(group.nextActive)
    ensures task == Some(ConfigRemoveTask) <==>
      group.active.resourceType == TYPE_CONFIG && group.active.state == Uninstall &&
      !NextResourceTakesOver(group.nextActive)
    ensures task == Some(ConfigInstallTask) <==>
      group.active.resourceType == TYPE_CONFIG && group.active.state != Uninstall
  {
    if group.active.resourceType != TYPE_CONFIG then None
    else if group.active.state == Uninstall then
      if NextResourceTakesOver(group.nextActive) then Some(ChangeStateTask(Uninstalled))
      else Some(ConfigRemoveTask)
    else Some(ConfigInstallTask)
  }

  // ---------------------------------------------------------------------------
  // Default properties from merged resources

  function EntityId(pid: string): string
  {
    TYPE_CONFIG + ":" + pid
  }

  predicate HoldsEntity(group: ResourceGroup, entityId: string)
  {
    exists k :: 0 <= k < |group.resources| && group.resources[k].entityId == entityId
  }

  /** The dictionaries of the resources for the entity whose scheme is a merge scheme, in order. */
  function Qualifying(resources: seq<Resource>, entityId: string, mergeSchemes: set<string>): (ds: seq<Dict>)
    ensures |ds| <= |resources|
  {
    if resources == [] then []
    else
      var last := resources[|resources| - 1];
      Qualifying(resources[..|resources| - 1], entityId, mergeSchemes) +
      (if last.entityId == entityId && last.scheme in mergeSchemes then [last.dictionary] else [])
  }

  /** The dictionaries collected from the groups up to and including the first one that holds the entity. */
  function Collected(groups: seq<ResourceGroup>, entityId: string, mergeSchemes: set<string>): seq<Dict>
  {
    if groups == [] then []
    else
      Qualifying(groups[0].resources, entityId, mergeSchemes) +
      (if HoldsEntity(groups[0], entityId) then [] else Collected(groups[1..], entityId, mergeSchemes))
  }

  /** The defaults getDefaultProperties promises: the first-wins merge of the collected dictionaries, or null. */
  function DefaultProperties(mergeSchemes: Option<set<string>>, installed: seq<ResourceGroup>, pid: string): Option<Dict>
  {
    if mergeSchemes.None? then None
    else
      var ds := Collected(installed, EntityId(pid), mergeSchemes.value);
      if ds == [] then None else Some(FirstWins(ds))
  }

  /** Groups after the first one holding the entity are never consulted. */
  lemma {:induction false} LaterGroupsIgnored(groups: seq<ResourceGroup>, later: seq<ResourceGroup>, entityId: string, mergeSchemes: set<string>)
    requires exists g :: g in groups && HoldsEntity(g, entityId)
    ensures Collected(groups + later, entityId, mergeSchemes) == Collected(groups, entityId, mergeSchemes)
  {
    assert groups != [];
    assert (groups + later)[0] == groups[0];
    if !HoldsEntity(groups[0], entityId) {
      assert (groups + later)[1..] == groups[1..] + later;
      var g :| g in groups && HoldsEntity(g, entityId);
      assert g in groups[1..];
      LaterGroupsIgnored(groups[1..], later, entityId, mergeSchemes);
    }
  }

  /** Without merge schemes, or without a qualifying resource, there are no default properties. */
  lemma {:induction false} NoQualifyingResourceNoDefaults(installed: seq<ResourceGroup>, pid: string, mergeSchemes: set<string>)
    requires forall g, r :: g in installed && r in g.resources && r.entityId == EntityId(pid) ==> r.scheme !in mergeSchemes
    ensures DefaultProperties(Some(mergeSchemes), installed, pid) == None
    ensures DefaultProperties(None, installed, pid) == None
  {
    NothingCollected(installed, EntityId(pid), mergeSchemes);
  }

  lemma {:induction false} NothingCollected(groups: seq<ResourceGroup>, entityId: string, mergeSchemes: set<string>)
    requires forall g, r :: g in groups && r in g.resources && r.entityId == entityId ==> r.scheme !in mergeSchemes
    ensures Collected(groups, entityId, mergeSchemes) == []
  {
    if groups != [] {
      NothingQualifies(groups[0].resources, entityId, mergeSchemes);
      NothingCollected(groups[1..], entityId, mergeSchemes);
    }
  }

  lemma {:induction false} NothingQualifies(resources: seq<Resource>, entityId: string, mergeSchemes: set<string>)
    requires forall r :: r in resources && r.entityId == entityId ==> r.scheme !in mergeSchemes
    ensures Qualifying(resources, entityId, mergeSchemes) == []
  {
    if resources != [] {
      NothingQualifies(resources[..|resources| - 1], entityId, mergeSchemes);
    }
  }

  /** Every collected dictionary is the dictionary of a qualifying resource of the entity. */
  lemma {:induction false} CollectedComeFromQualifyingResources(groups: seq<ResourceGroup>, entityId: string, mergeSchemes: set<string>, d: Dict)
    requires d in Collected(groups, entityId, mergeSchemes)
    ensures exists g, r :: g in groups && r in g.resources && r.entityId == entityId &&
                           r.scheme in mergeSchemes && r.dictionary == d
  {
    var g := groups[0];
    if d in Qualifying(g.resources, entityId, mergeSchemes) {
      QualifyingComeFromResources(g.resources, entityId, mergeSchemes, d);
      var r :| r in g.resources && r.entityId == entityId && r.scheme in mergeSchemes && r.dictionary == d;
      assert g in groups;
    } else {
      CollectedComeFromQualifyingResources(groups[1..], entityId, mergeSchemes, d);
      var g', r :| g' in groups[1..] && r in g'.resources && r.entityId == entityId &&
                  r.scheme in mergeSchemes && r.dictionary == d;
      assert g' in groups;
    }
  }

  lemma {:induction false} QualifyingComeFromResources(resources: seq<Resource>, entityId: string, mergeSchemes: set<string>, d: Dict)
    requires d in Qualifying(resources, entityId, mergeSchemes)
    ensures exists r :: r in resources && r.entityId == entityId && r.scheme in mergeSchemes && r.dictionary == d
  {
    var init := resources[..|resources| - 1];
    var last := resources[|resources| - 1];
    if d in Qualifying(init, entityId, mergeSchemes) {
      QualifyingComeFromResources(init, entityId, mergeSchemes, d);
      var r :| r in init && r.entityId == entityId && r.scheme in mergeSchemes && r.dictionary == d;
      assert r in resources;
    } else {
      assert last in resources;
    }
  }

  /** One more resource scanned: Qualifying grows by that resource's dictionary when it qualifies. */
  lemma QualifyingStep(resources: seq<Resource>, i: nat, entityId: string, mergeSchemes: set<string>)
    requires i < |resources|
    ensures Qualifying(resources[..i + 1], entityId, mergeSchemes) ==
      Qualifying(resources[..i], entityId, mergeSchemes) +
      (if resources[i].entityId == entityId && resources[i].scheme in mergeSchemes then [resources[i].dictionary] else [])
  {
    assert resources[..i + 1][..i] == resources[..i];
  }

  /** One more group scanned: Collected unfolds at position g. */
  lemma CollectedStep(groups: seq<ResourceGroup>, g: nat, entityId: string, mergeSchemes: set<string>)
    requires g < |groups|
    ensures Collected(groups[g..], entityId, mergeSchemes) ==
      Qualifying(groups[g].resources, entityId, mergeSchemes) +
      (if HoldsEntity(groups[g], entityId) then [] else Collected(groups[g + 1..], entityId, mergeSchemes))
  {
    assert groups[g..][0] == groups[g] && groups[g..][1..] == groups[g + 1..];
  }

  /** The inner loop of getDefaultProperties: scans one group, appending the qualifying dictionaries. */
  method ScanGroup(resources: seq<Resource>, entityId: string, schemes: set<string>, propertiesList: DictionaryList)
    returns (found: bool)
    modifies propertiesList
    ensures propertiesList.items == old(propertiesList.items) + Qualifying(resources, entityId, schemes)
    ensures found <==> exists k :: 0 <= k < |resources| && resources[k].entityId == entityId
  {
    found := false;
    var i := 0;
    while i < |resources|
      invariant 0 <= i <= |resources|
      invariant propertiesList.items == old(propertiesList.items) + Qualifying(resources[..i], entityId, schemes)
      invariant found <==> exists k :: 0 <= k < i && resources[k].entityId == entityId
    {
      var rsrc := resources[i];
      QualifyingStep(resources, i, entityId, schemes);
      if rsrc.entityId == entityId {
        found := true;
        if rsrc.scheme in schemes {
          propertiesList.Add(rsrc.dictionary);
        }
      }
      i := i + 1;
    }
    assert resources[..i] == resources;
  }

  /** getDefaultProperties: scans the groups up to the one holding the entity, then mergeReverseOrder over the collected list. */
  method GetDefaultProperties(mergeSchemes: Option<set<string>>, installed: seq<ResourceGroup>, pid: string)
    returns (defaults: Option<Dict>)
    ensures defaults == DefaultProperties(mergeSchemes, installed, pid)
  {
    if mergeSchemes.None? {
      return None;
    }
    var schemes := mergeSchemes.value;
    var propertiesList := new DictionaryList();
    var entityId := EntityId(pid);
    var done := false;
    var g := 0;
    while g < |installed| && !done
      invariant 0 <= g <= |installed|
      invariant !done ==>
        propertiesList.items + Collected(installed[g..], entityId, schemes) == Collected(installed, entityId, schemes)
      invariant done ==> propertiesList.items == Collected(installed, entityId, schemes)
    {
      CollectedStep(installed, g, entityId, schemes);
      done := ScanGroup(installed[g].resources, entityId, schemes, propertiesList);
      g := g + 1;
    }
    if !done {
      assert installed[g..] == [];
    }
    assert propertiesList.items == Collected(installed, EntityId(pid), schemes);
    if |propertiesList.items| > 0 {
      var merged := MergeReverseOrder(propertiesList);
      return Some(merged);
    }
    return None;
  }

  /** The dictionary removeDefaultProperties leaves behind. */
  function WithoutDefaults(mergeSchemes: Option<set<string>>, installed: seq<ResourceGroup>, pid: string, dict: Dict): Dict
  {
    match DefaultProperties(mergeSchemes, installed, pid)
    case None => dict
    case Some(defaults) => WithoutRedundant(dict, defaults)
  }

  /** Stripping the defaults only removes entries, and does nothing without merge schemes. */
  lemma WithoutDefaultsOnlyRemoves(mergeSchemes: Option<set<string>>, installed: seq<ResourceGroup>, pid: string, dict: Dict)
    ensures var r := WithoutDefaults(mergeSchemes, installed, pid, dict);
      r.Keys <= dict.Keys && (forall k :: k in r ==> r[k] == dict[k])
    ensures mergeSchemes.None? ==> WithoutDefaults(mergeSchemes, installed, pid, dict) == dict
  {
  }

  /** removeDefaultProperties: removeRedundantProperties against the defaults, when there are any. */
  method RemoveDefaultProperties(mergeSchemes: Option<set<string>>, installed: seq<ResourceGroup>, pid: string, dict: Hashtable)
    modifies dict
    ensures dict.entries == WithoutDefaults(mergeSchemes, installed, pid, old(dict.entries))
  {
    if mergeSchemes.Some? {
      var defaultProps := GetDefaultProperties(mergeSchemes, installed, pid);
      if defaultProps.Some? {
        RemoveRedundantProperties(dict, defaultProps.value);
      }
    }
  }

  // ---------------------------------------------------------------------------
  // Store events

  datatype EventType = Updated | Deleted | LocationChanged

  /** A ConfigurationEvent: its type, the pid of the record and its factory pid. */
  datatype Event = Event(eventType: EventType, pid: string, factoryPid: Option<string>)

  /** The call configurationEvent makes on the ResourceChangeListener, if any. */
  datatype ListenerCall =
    | NoCall
    | ResourceRemoved(resourceType: string, url: string)
    | ResourceAddedOrUpdated(resourceType: string, url: string, dict: Dict, attributes: map<string, Value>)

  /** The attributes handed to resourceAddedOrUpdated for a store record. */
  predicate DescribesRecord(attributes: map<string, Value>, pid: string, persist: bool,
                            location: Option<string>, factoryPid: Option<string>)
  {
    attributes.Keys <= {RESOURCE_PERSIST, SERVICE_PID, RESOURCE_URI_HINT, INSTALLATION_HINT, SERVICE_FACTORYPID} &&
    SERVICE_PID in attributes && attributes[SERVICE_PID] == StringValue(pid) &&
    RESOURCE_URI_HINT in attributes && attributes[RESOURCE_URI_HINT] == StringValue(pid) &&
    (RESOURCE_PERSIST in attributes <==> !persist) &&
    (RESOURCE_PERSIST in attributes ==> attributes[RESOURCE_PERSIST] == Scalar(BOOLEAN, "false")) &&
    (INSTALLATION_HINT in attributes <==> location.Some?) &&
    (location.Some? ==> attributes[INSTALLATION_HINT] == StringValue(location.value)) &&
    (SERVICE_FACTORYPID in attributes <==> factoryPid.Some?) &&
    (factoryPid.Some? ==> attributes[SERVICE_FACTORYPID] == StringValue(factoryPid.value))
  }

  /**
   * configurationEvent. `pid` is the R7 pid of the event's record, which
   * ConfigUtil.getPid computes (ConfigUtil.getPid is not part of this model).
   * A delete is reported unless the ledger holds a matching delete; an update
   * is reported when the record exists and the ledger holds no matching
   * update. A failing store query ends the call before the ledger is consulted.
   */
  method ConfigurationEvent(ca: ConfigurationAdmin, ledger: Coordinator, mergeSchemes: Option<set<string>>,
                            installed: seq<ResourceGroup>, event: Event, pid: string)
    returns (call: ListenerCall)
    modifies ledger
    ensures event.eventType == Deleted ==>
      var (op, rest) := Take(old(ledger.operations), event.pid, event.factoryPid, true);
      ledger.operations == rest &&
      call == if op.None? then ResourceRemoved(TYPE_CONFIG, pid) else NoCall
    ensures event.eventType == LocationChanged ==> call == NoCall && ledger.operations == old(ledger.operations)
    ensures event.eventType == Updated && !ca.available ==> call == NoCall && ledger.operations == old(ledger.operations)
    ensures event.eventType == Updated && ca.available ==>
      var config := FirstSatisfying(ca.configs, PidIs(event.pid));
      var (op, rest) := Take(old(ledger.operations), event.pid, event.factoryPid, false);
      ledger.operations == rest &&
      (call != NoCall <==> config.Some? && op.None?) &&
      (call != NoCall ==>
        var props := config.value.properties.value;
        call.ResourceAddedOrUpdated? && call.resourceType == TYPE_CONFIG && call.url == pid &&
        call.dict == WithoutDefaults(mergeSchemes, installed, event.pid, Cleaned(props)) &&
        DescribesRecord(call.attributes, pid, ToBoolean(Get(props, PROPERTY_PERSISTENCE), true),
                        config.value.bundleLocation, event.factoryPid))
  {
    call := NoCall;
    if event.eventType == Deleted {
      var op := ledger.Get(event.pid, event.factoryPid, true);
      if op.None? {
        call := ResourceRemoved(TYPE_CONFIG, pid);
      }
    } else if event.eventType == Updated {
      var config := GetConfiguration(ca, None, event.pid);
      if config.Failure? {
        return;
      }
      var op := ledger.Get(event.pid, event.factoryPid, false);
      if config.value.Some? && op.None? {
        var record := config.value.value;
        var props := record.properties.value;
        var persist := ToBoolean(Get(props, PROPERTY_PERSISTENCE), true);
        var cleaned := CleanConfiguration(props);
        var attrs: map<string, Value> := map[];
        if !persist {
          attrs := attrs[RESOURCE_PERSIST := Scalar(BOOLEAN, "false")];
        }
        attrs := attrs[SERVICE_PID := StringValue(pid)];
        attrs := attrs[RESOURCE_URI_HINT := StringValue(pid)];
        if record.bundleLocation.Some? {
          attrs := attrs[INSTALLATION_HINT := StringValue(record.bundleLocation.value)];
        }
        if event.factoryPid.Some? {
          attrs := attrs[SERVICE_FACTORYPID := StringValue(event.factoryPid.value)];
        }
        var dict := new Hashtable(cleaned);
        RemoveDefaultProperties(mergeSchemes, installed, event.pid, dict);
        call := ResourceAddedOrUpdated(TYPE_CONFIG, pid, dict.entries, attrs);
      }
    }
  }

  // ---------------------------------------------------------------------------
  // From a resource url to a configuration pid

  /** separatorsToUnix: null stays null, every backslash becomes a slash. */
  function SeparatorsToUnix(path: Option<string>): (r: Option<string>)
    ensures r.None? <==> path.None?
    ensures r.Some? ==> |r.value| == |path.value|
    ensures r.Some? ==> forall i :: 0 <= i < |r.value| ==> r.value[i] == (if path.value[i] == '\\' then '/' else path.value[i])
  {
    if path.None? || '\\' !in path.value then path
    else Some(seq(|path.value|, i requires 0 <= i < |path.value| => if path.value[i] == '\\' then '/' else path.value[i]))
  }

  /**
   * getResourceId: the part of the url (with unix separators) after its last
   * slash; without a slash, the part after its first colon; else the whole url.
   */
  function GetResourceId(rawUrl: string): (id: string)
    ensures var url := SeparatorsToUnix(Some(rawUrl)).value;
      |id| <= |url| && id == url[|url| - |id|..] &&
      (forall k :: 0 <= k < |id| ==> id[k] != '/' && id[k] != '\\') &&
      ((exists k :: 0 <= k < |url| && url[k] == '/') ==> |id| < |url| && url[|url| - |id| - 1] == '/') &&
      ((forall k :: 0 <= k < |url| ==> url[k] != '/') ==>
        (|id| < |url| ==> url[|url| - |id| - 1] == ':' && forall k :: 0 <= k < |url| - |id| - 1 ==> url[k] != ':') &&
        (|id| == |url| ==> forall k :: 0 <= k < |url| ==> url[k] != ':'))
  {
    var url := SeparatorsToUnix(Some(rawUrl)).value;
    var pos := LastIndexOf(url, '/');
    var pos' := if pos == -1 then IndexOf(url, ':') else pos;
    url[pos' + 1..]
  }

  const EXTENSIONS: seq<string> := [".config", ".properties", ".cfg", ".cfg.json"]

  predicate EndsWith(s: string, suffix: string)
  {
    |suffix| <= |s| && s[|s| - |suffix|..] == suffix
  }

  /** removeConfigExtension: strips the first of the known extensions the id ends with, at most one. */
  function RemoveConfigExtension(id: string): (r: string)
    ensures (forall e :: e in EXTENSIONS ==> !EndsWith(id, e)) ==> r == id
    ensures (exists e :: e in EXTENSIONS && EndsWith(id, e)) ==>
      exists i :: 0 <= i < |EXTENSIONS| && EndsWith(id, EXTENSIONS[i]) &&
                  (forall j :: 0 <= j < i ==> !EndsWith(id, EXTENSIONS[j])) &&
                  r == id[..|id| - |EXTENSIONS[i]|]
  {
    StripFirst(id, EXTENSIONS)
  }

  function StripFirst(id: string, exts: seq<string>): (r: string)
    ensures (forall e :: e in exts ==> !EndsWith(id, e)) ==> r == id
    ensures (exists e :: e in exts && EndsWith(id, e)) ==>
      exists i :: 0 <= i < |exts| && EndsWith(id, exts[i]) &&
                  (forall j :: 0 <= j < i ==> !EndsWith(id, exts[j])) && r == id[..|id| - |exts[i]|]
  {
    if exts == [] then id
    else if EndsWith(id, exts[0]) then id[..|id| - |exts[0]|]
    else
      var r := StripFirst(id, exts[1..]);
      StripFirstSkipsHead(id, exts, r);
      r
  }

  /** Carries the outcome of the search over the tail to the whole list when the head does not apply. */
  lemma StripFirstSkipsHead(id: string, exts: seq<string>, r: string)
    requires exts != [] && !EndsWith(id, exts[0])
    requires (forall e :: e in exts[1..] ==> !EndsWith(id, e)) ==> r == id
    requires (exists e :: e in exts[1..] && EndsWith(id, e)) ==>
      exists i :: 0 <= i < |exts[1..]| && EndsWith(id, exts[1..][i]) &&
                  (forall j :: 0 <= j < i ==> !EndsWith(id, exts[1..][j])) && r == id[..|id| - |exts[1..][i]|]
    ensures (forall e :: e in exts ==> !EndsWith(id, e)) ==> r == id
    ensures (exists e :: e in exts && EndsWith(id, e)) ==>
      exists i :: 0 <= i < |exts| && EndsWith(id, exts[i]) &&
                  (forall j :: 0 <= j < i ==> !EndsWith(id, exts[j])) && r == id[..|id| - |exts[i]|]
  {
    if exists e :: e in exts && EndsWith(id, e) {
      var e :| e in exts && EndsWith(id, e);
      assert e in exts[1..];
      var i :| 0 <= i < |exts[1..]| && EndsWith(id, exts[1..][i]) &&
               (forall j :: 0 <= j < i ==> !EndsWith(id, exts[1..][j])) && r == id[..|id| - |exts[1..][i]|];
      assert EndsWith(id, exts[i + 1]);
      assert forall j :: 0 <= j < i + 1 ==> !EndsWith(id, exts[j]) by {
        forall j | 0 <= j < i + 1 ensures !EndsWith(id, exts[j]) {
          if j > 0 { assert exts[j] == exts[1..][j - 1]; }
        }
      }
    } else {
      assert forall e :: e in exts[1..] ==> e in exts;
    }
  }

  /** A name given any one of the known extensions gets exactly that extension stripped. */
  lemma RemoveConfigExtensionRoundTrip(name: string, i: nat)
    requires i < |EXTENSIONS|
    ensures RemoveConfigExtension(name + EXTENSIONS[i]) == name
  {
    var id := name + EXTENSIONS[i];
    var n := |id|;
    var ext := EXTENSIONS[i];
    assert EndsWith(id, ext) by { assert id[n - |ext|..] == ext; }
    assert id[..n - |ext|] == name;
    assert id[n - 1] == ext[|ext| - 1] && id[n - 2] == ext[|ext| - 2];
    assert forall j :: 0 <= j < i ==> !EndsWith(id, EXTENSIONS[j]);
  }

  /** The result of transforming a properties resource: its id, type and attributes. */
  datatype TransformationResult = TransformationResult(id: string, resourceType: string, attributes: map<string, Value>)

  /** Where checkConfiguration splits a pid: the first `~`, else the first `-`; -1 when neither occurs. */
  function SplitIndex(pid: string): (n: int)
    ensures -1 <= n < |pid|
    ensures '~' in pid ==> n == IndexOf(pid, '~')
    ensures '~' !in pid ==> n == IndexOf(pid, '-')
  {
    var n := IndexOf(pid, '~');
    if n == -1 then IndexOf(pid, '-') else n
  }

  /** checkConfiguration for a resource url: the pid, split into factory pid and name when the split index is positive. */
  function CheckConfiguration(url: string): (r: TransformationResult)
    ensures var pid := RemoveConfigExtension(GetResourceId(url));
      var n := SplitIndex(pid);
      r.resourceType == TYPE_CONFIG &&
      (n > 0 ==>
        r.id == GetPIDOfFactoryPID(pid[..n], pid[n + 1..]) &&
        r.attributes == map[SERVICE_FACTORYPID := StringValue(pid[..n]), SERVICE_PID := StringValue(pid[n + 1..])]) &&
      (n <= 0 ==> r.id == pid && r.attributes == map[SERVICE_PID := StringValue(pid)])
  {
    var pid := RemoveConfigExtension(GetResourceId(url));
    var n := SplitIndex(pid);
    if n > 0 then
      var factoryPid := pid[..n];
      var configPid := pid[n + 1..];
      TransformationResult(GetPIDOfFactoryPID(factoryPid, configPid), TYPE_CONFIG,
        map[SERVICE_FACTORYPID := StringValue(factoryPid), SERVICE_PID := StringValue(configPid)])
    else
      TransformationResult(pid, TYPE_CONFIG, map[SERVICE_PID := StringValue(pid)])
  }

  /** transform: only properties resources are turned into configurations. */
  function Transform(resourceType: string, url: string): (r: Option<seq<TransformationResult>>)
    ensures r.Some? <==> resourceType == TYPE_PROPERTIES
    ensures r.Some? ==> r.value == [CheckConfiguration(url)]
  {
    if resourceType == TYPE_PROPERTIES then Some([CheckConfiguration(url)]) else None
  }

  /**
   * A file named after an R7 factory pid, with a factory pid free of `~` and
   * `/` and not empty, is split back into that factory pid and name.
   */
  lemma CheckConfigurationRoundTrip(dir: string, factoryPid: string, name: string, i: nat)
    requires factoryPid != [] && '~' !in factoryPid
    requires forall k :: 0 <= k < |factoryPid| ==> factoryPid[k] != '/' && factoryPid[k] != '\\'
    requires forall k :: 0 <= k < |name| ==> name[k] != '/' && name[k] != '\\'
    requires i < |EXTENSIONS|
    ensures var r := CheckConfiguration(dir + "/" + GetPIDOfFactoryPID(factoryPid, name) + EXTENSIONS[i]);
      r.id == GetPIDOfFactoryPID(factoryPid, name) &&
      r.attributes == map[SERVICE_FACTORYPID := StringValue(factoryPid), SERVICE_PID := StringValue(name)]
  {
    var pid := GetPIDOfFactoryPID(factoryPid, name);
    var ext := EXTENSIONS[i];
    var file := pid + ext;
    assert dir + "/" + pid + ext == dir + "/" + file;
    forall k | 0 <= k < |file|
      ensures file[k] != '/' && file[k] != '\\'
    {
      if k < |factoryPid| {
        assert file[k] == factoryPid[k];
      } else if k == |factoryPid| {
        assert file[k] == '~';
      } else if k < |pid| {
        assert file[k] == name[k - |factoryPid| - 1];
      } else {
        assert file[k] == ext[k - |pid|];
      }
    }
    ResourceIdOfPath(dir, file);
    RemoveConfigExtensionRoundTrip(pid, i);
    FactoryPidSplitsAtFirstTilde(factoryPid, name);
    FirstOccurrence(pid, '~', |factoryPid|);
    assert '~' in pid;
    assert SplitIndex(pid) == |factoryPid|;
  }

  /** The index of the first occurrence, when the character occurs there and nowhere before. */
  lemma FirstOccurrence(s: string, c: char, n: nat)
    requires n < |s| && s[n] == c && forall i :: 0 <= i < n ==> s[i] != c
    ensures IndexOf(s, c) == n
  {
  }

  /** A path whose last segment has no separator yields exactly that segment as its id. */
  lemma ResourceIdOfPath(dir: string, file: string)
    requires forall k :: 0 <= k < |file| ==> file[k] != '/' && file[k] != '\\'
    ensures GetResourceId(dir + "/" + file) == file
  {
    var raw := dir + "/" + file;
    var url := SeparatorsToUnix(Some(raw)).value;
    var id := GetResourceId(raw);
    var slash := |dir|;
    assert raw[slash] == '/';
    assert url[slash] == '/';
    assert |url| == slash + 1 + |file|;
    forall k | 0 <= k < |file|
      ensures url[slash + 1 + k] == file[k]
    {
      assert raw[slash + 1 + k] == file[k];
    }
    assert url[slash + 1..] == file;
  }
}
