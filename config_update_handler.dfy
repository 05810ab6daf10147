/**
 * ConfigUpdateHandler: migrates factory configurations that older installer
 * versions registered under a generated pid and an alias to the named
 * (R7) factory configurations `factoryPid~name`.
 *
 * A legacy group carries an alias `factoryPid.<generated pid>` and an id
 * `factoryPid.<name>`. The factory pid is recovered as the longest common
 * prefix of the two that ends right before a dot.
 */
module ConfigUpdateHandler {
  import opened Wrappers
  import opened Values
  import opened InstallerApi
  import opened ConfigAdmin
  import opened ConfigUtil

  // ---------------------------------------------------------------------------
  // Decoding a legacy alias

  /** The length of the longest common prefix of two strings. */
  function CommonPrefixLength(a: string, b: string): (n: nat)
    ensures n <= |a| && n <= |b| && a[..n] == b[..n]
    ensures n < |a| && n < |b| ==> a[n] != b[n]
  {
    if a == [] || b == [] || a[0] != b[0] then 0
    else
      var n := CommonPrefixLength(a[1..], b[1..]);
      assert a[..n + 1] == [a[0]] + a[1..][..n] && b[..n + 1] == [b[0]] + b[1..][..n];
      n + 1
  }

  /** The first position where two strings differ is their common prefix length. */
  lemma CommonPrefixIsFirstMismatch(a: string, b: string, n: nat)
    requires n < |a| && n < |b| && a[..n] == b[..n] && a[n] != b[n]
    ensures CommonPrefixLength(a, b) == n
  {
  }

  /**
   * What getFactoryPidAndPid needs to terminate normally: the strings differ
   * at a position inside both, and a dot occurs before that position.
   */
  predicate Decodable(alias: string, oldId: string)
  {
    var d := CommonPrefixLength(alias, oldId);
    d < |alias| && d < |oldId| && '.' in alias[..d]
  }

  /** The factory pid and pid getFactoryPidAndPid recovers: split at the last dot before the first difference. */
  function FactoryPidAndPid(alias: string, oldId: string): (r: (string, string))
    requires Decodable(alias, oldId)
    ensures var (factoryPid, pid) := r;
      |factoryPid| < CommonPrefixLength(alias, oldId) &&
      alias[..|factoryPid|] == factoryPid && alias[|factoryPid|] == '.' &&
      oldId == factoryPid + "." + pid &&
      forall k :: |factoryPid| < k < CommonPrefixLength(alias, oldId) ==> alias[k] != '.'
  {
    var d := CommonPrefixLength(alias, oldId);
    var p := LastIndexOf(alias[..d], '.');
    assert alias[..d][p] == '.';
    assert oldId[..p] == alias[..p] && oldId[p] == '.' by {
      assert alias[..d][..p] == oldId[..d][..p];
    }
    assert oldId == oldId[..p] + "." + oldId[p + 1..];
    (alias[..p], oldId[p + 1..])
  }

  /** getFactoryPidAndPid: walks forward over the common prefix, then back to the dot before it. */
  method GetFactoryPidAndPid(alias: string, oldId: string) returns (factoryPid: string, pid: string)
    requires Decodable(alias, oldId)
    ensures (factoryPid, pid) == FactoryPidAndPid(alias, oldId)
  {
    var d := CommonPrefixLength(alias, oldId);
    var pos := 0;
    while alias[pos] == oldId[pos]
      invariant 0 <= pos <= d
      invariant alias[..pos] == oldId[..pos]
      decreases d - pos
    {
      assert alias[..pos + 1] == alias[..pos] + [alias[pos]];
      assert oldId[..pos + 1] == oldId[..pos] + [oldId[pos]];
      pos := pos + 1;
    }
    assert pos == d;
    var last := LastIndexOf(alias[..d], '.');
    while alias[pos - 1] != '.'
      invariant last + 1 <= pos <= d
      invariant forall k :: pos <= k < d ==> alias[k] != '.'
      decreases pos
    {
      assert alias[..d][last] == '.';
      pos := pos - 1;
    }
    assert pos - 1 == last;
    factoryPid := alias[..pos - 1];
    pid := oldId[|factoryPid| + 1..];
  }

  /**
   * Decoding an id `F.R2` against an alias `F.R1`, where R1 and R2 first
   * differ at k and share no dot before it, gives back F and R2.
   */
  lemma {:induction false} NestedAliasDecodes(f: string, r1: string, r2: string, k: nat)
    requires k < |r1| && k < |r2| && r1[k] != r2[k]
    requires forall i :: 0 <= i < k ==> r1[i] == r2[i] && r1[i] != '.'
    ensures Decodable(f + "." + r1, f + "." + r2)
    ensures FactoryPidAndPid(f + "." + r1, f + "." + r2) == (f, r2)
  {
    var alias := f + "." + r1;
    var oldId := f + "." + r2;
    var d := |f| + 1 + k;
    assert r1[..k] == r2[..k];
    assert alias[..d] == f + "." + r1[..k];
    assert oldId[..d] == f + "." + r2[..k];
    assert alias[d] == r1[k] && oldId[d] == r2[k];
    CommonPrefixIsFirstMismatch(alias, oldId, d);
    assert alias[..d][|f|] == '.';
    var r := FactoryPidAndPid(alias, oldId);
    assert |r.0| == |f|;
    assert r.0 == alias[..|f|] == f;
    assert r.1 == oldId[|f| + 1..] == r2;
  }

  const LOGIN_ADMIN_WHITELIST_FRAGMENT: string :=
    "org.apache.sling" + ".jcr.base.internal" + ".LoginAdminWhitelist" + ".fragment"
  const UPGRADE_CONTENT_CLEANUP: string :=
    "com.apache.sling" + ".upgrades.cleanup.impl" + ".UpgradeContentCleanup"

  /** The first legacy id of the update handler's test decodes to the whitelist fragment factory and `my-platform`. */
  lemma LegacyAliasExampleFragment()
    ensures var f := LOGIN_ADMIN_WHITELIST_FRAGMENT;
      var alias := f + "." + f + "." + "43e4778d-3e72-460a-9da9-bca80558f1f7";
      Decodable(alias, f + "." + "my-platform") && FactoryPidAndPid(alias, f + "." + "my-platform") == (f, "my-platform")
  {
    var f := LOGIN_ADMIN_WHITELIST_FRAGMENT;
    var r1 := f + "." + "43e4778d-3e72-460a-9da9-bca80558f1f7";
    assert f[0] == 'o';
    assert r1[0] == 'o';
    assert f + "." + f + "." + "43e4778d-3e72-460a-9da9-bca80558f1f7" == f + "." + r1;
    NestedAliasDecodes(f, r1, "my-platform", 0);
  }

  /** The second legacy id decodes to the cleanup factory and `cloud`, a name that shares its first character with the factory pid. */
  lemma LegacyAliasExampleCloud()
    ensures var f := UPGRADE_CONTENT_CLEANUP;
      var alias := f + "." + f + "." + "08f330fd-63d2-4175-ad3c-79efa3c69e2f";
      Decodable(alias, f + "." + "cloud") && FactoryPidAndPid(alias, f + "." + "cloud") == (f, "cloud")
  {
    var f := UPGRADE_CONTENT_CLEANUP;
    var r1 := f + "." + "08f330fd-63d2-4175-ad3c-79efa3c69e2f";
    assert f[0] == 'c' && f[1] == 'o';
    assert r1[0] == 'c' && r1[1] == 'o';
    assert f + "." + f + "." + "08f330fd-63d2-4175-ad3c-79efa3c69e2f" == f + "." + r1;
    NestedAliasDecodes(f, r1, "cloud", 1);
  }

  /** The third legacy id decodes to the cleanup factory and `contentpackages`, a name that shares `co` with the factory pid. */
  lemma LegacyAliasExampleContentPackages()
    ensures var f := UPGRADE_CONTENT_CLEANUP;
      var alias := f + "." + f + "." + "3ba307f5-a5d0-40a4-98b6-8616b7a1d1e8";
      Decodable(alias, f + "." + "contentpackages") && FactoryPidAndPid(alias, f + "." + "contentpackages") == (f, "contentpackages")
  {
    var f := UPGRADE_CONTENT_CLEANUP;
    var r1 := f + "." + "3ba307f5-a5d0-40a4-98b6-8616b7a1d1e8";
    assert f[0] == 'c' && f[1] == 'o' && f[2] == 'm';
    assert r1[0] == 'c' && r1[1] == 'o' && r1[2] == 'm';
    assert f + "." + f + "." + "3ba307f5-a5d0-40a4-98b6-8616b7a1d1e8" == f + "." + r1;
    NestedAliasDecodes(f, r1, "contentpackages", 2);
  }

  // ---------------------------------------------------------------------------
  // Migrating the store

  /**
   * The store after a legacy record was migrated: the record is deleted, the
   * named factory configuration is fetched or created with the record's
   * location, and updated with the record's cleaned properties.
   */
  function Migrated(configs: seq<Configuration>, legacy: Configuration, factoryPid: string, name: string)
    : seq<Configuration>
    requires Current(legacy)
  {
    var rest := Without(configs, legacy.pid);
    var (named, created) := Obtain(rest, GetPIDOfFactoryPID(factoryPid, name), Some(factoryPid), legacy.bundleLocation);
    Replace(created, named.(properties := Some(Cleaned(legacy.properties.value))))
  }

  /**
   * When the named configuration does not exist yet, migration moves the
   * legacy record: its pid is gone, and the named configuration holds its
   * cleaned properties and its location, with the same data as before.
   */
  lemma MigrationMovesRecord(configs: seq<Configuration>, legacy: Configuration, factoryPid: string, name: string)
    requires Current(legacy) && legacy in configs
    requires legacy.pid != GetPIDOfFactoryPID(factoryPid, name)
    requires Find(configs, GetPIDOfFactoryPID(factoryPid, name)).None?
    ensures var after := Migrated(configs, legacy, factoryPid, name);
      Find(after, legacy.pid).None? &&
      Find(after, GetPIDOfFactoryPID(factoryPid, name)) ==
        Some(Configuration(GetPIDOfFactoryPID(factoryPid, name), Some(factoryPid),
                           Some(Cleaned(legacy.properties.value)), legacy.bundleLocation)) &&
      SameData(legacy.properties, Find(after, GetPIDOfFactoryPID(factoryPid, name)).value.properties)
  {
    var pid := GetPIDOfFactoryPID(factoryPid, name);
    var rest := Without(configs, legacy.pid);
    assert Find(rest, pid).None?;
    var named := Configuration(pid, Some(factoryPid), None, legacy.bundleLocation);
    var updated := named.(properties := Some(Cleaned(legacy.properties.value)));
    assert Obtain(rest, pid, Some(factoryPid), legacy.bundleLocation) == (named, rest + [named]);
    ReplaceAppended(rest, named, updated);
    var after := rest + [updated];
    assert Find(after, legacy.pid).None?;
    FindFirst(after, pid, |rest|);
    CleanedIsIdempotentAndSame(legacy.properties.value);
  }

  /**
   * The store after updateFactoryConfig: the legacy lookup uses the part of
   * the alias after the factory pid as the legacy pid; a record it finds is
   * migrated, and a failing store is left as it was.
   */
  function StoreAfterUpdate(configs: seq<Configuration>, available: bool, alias: string, factoryPid: string, name: string)
    : seq<Configuration>
    requires |factoryPid| < |alias|
  {
    var found := LegacyLookup(configs, factoryPid, Some(alias[|factoryPid| + 1..]));
    if available && found.Success? && found.value.Some? then
      LegacyLookupFindsStoredRecord(configs, factoryPid, Some(alias[|factoryPid| + 1..]));
      Migrated(configs, found.value.value, factoryPid, name)
    else configs
  }

  // ---------------------------------------------------------------------------
  // The handler

  /** The installer's view of a resource group that an updater may rename. */
  class UpdatableResourceGroup {
    var id: string
    var alias: Option<string>
    const resourceType: string
    /** How many times update() committed the group's changes. */
    var updates: nat

    constructor (id: string, alias: Option<string>, resourceType: string)
      ensures this.id == id && this.alias == alias && this.resourceType == resourceType && updates == 0
    {
      this.id := id;
      this.alias := alias;
      this.resourceType := resourceType;
      updates := 0;
    }

    method SetId(id: string)
      modifies this
      ensures this.id == id && alias == old(alias) && updates == old(updates)
    {
      this.id := id;
    }

    method SetAlias(alias: Option<string>)
      modifies this
      ensures this.alias == alias && id == old(id) && updates == old(updates)
    {
      this.alias := alias;
    }

    method Update()
      modifies this
      ensures updates == old(updates) + 1 && id == old(id) && alias == old(alias)
    {
      updates := updates + 1;
    }
  }

  /** The part of ServicesListener the handler uses: whether it is active, and its finishedUpdating notification. */
  class ServicesListener {
    var active: bool
    var finishedUpdates: nat

    constructor (active: bool)
      ensures this.active == active && finishedUpdates == 0
    {
      this.active := active;
      finishedUpdates := 0;
    }

    method FinishedUpdating()
      modifies this
      ensures finishedUpdates == old(finishedUpdates) + 1 && active == old(active)
    {
      finishedUpdates := finishedUpdates + 1;
    }
  }

  /** Whether update(group) migrates the group: a configuration group with an alias. */
  predicate Migrates(resourceType: string, alias: Option<string>)
  {
    resourceType == TYPE_CONFIG && alias.Some?
  }

  /**
   * What update(groups) does to one group, given whether the listener was
   * active: a migrating group is renamed to its factory pid and name, loses
   * its alias and is committed once; any other group is left alone.
   */
  twostate predicate Handled(g: UpdatableResourceGroup, active: bool)
    reads g
  {
    if active && Migrates(g.resourceType, old(g.alias)) && Decodable(old(g.alias.value), old(g.id)) then
      var (factoryPid, pid) := FactoryPidAndPid(old(g.alias.value), old(g.id));
      g.id == GetPIDOfFactoryPID(factoryPid, pid) && g.alias.None? && g.updates == old(g.updates) + 1
    else
      g.id == old(g.id) && g.alias == old(g.alias) && g.updates == old(g.updates)
  }

  class Handler {
    const configAdmin: ConfigurationAdmin
    const activator: ServicesListener

    constructor (configAdmin: ConfigurationAdmin, activator: ServicesListener)
      ensures this.configAdmin == configAdmin && this.activator == activator
    {
      this.configAdmin := configAdmin;
      this.activator := activator;
    }

    /**
     * updateFactoryConfig: renames the group to the R7 pid, clears its alias
     * and commits it; when the legacy lookup finds the old record, moves it to
     * the named factory configuration. Store failures are swallowed.
     */
    method UpdateFactoryConfig(group: UpdatableResourceGroup)
      requires group.alias.Some? && Decodable(group.alias.value, group.id)
      requires configAdmin.Valid()
      modifies group, configAdmin
      ensures configAdmin.Valid() && configAdmin.available == old(configAdmin.available)
      ensures var (factoryPid, pid) := FactoryPidAndPid(old(group.alias.value), old(group.id));
        group.id == GetPIDOfFactoryPID(factoryPid, pid) && group.alias.None? &&
        group.updates == old(group.updates) + 1
      ensures var (factoryPid, pid) := FactoryPidAndPid(old(group.alias.value), old(group.id));
        configAdmin.configs ==
          StoreAfterUpdate(old(configAdmin.configs), old(configAdmin.available), old(group.alias.value), factoryPid, pid)
    {
      var alias := group.alias.value;
      var oldId := group.id;
      var factoryPid, pid := GetFactoryPidAndPid(alias, oldId);
      var newId := GetPIDOfFactoryPID(factoryPid, pid);
      group.SetId(newId);
      group.SetAlias(None);

      MigrateLegacyRecord(alias, factoryPid, pid);
      group.Update();
    }

    /** The store part of updateFactoryConfig: look the legacy record up and move it when found. */
    method MigrateLegacyRecord(alias: string, factoryPid: string, pid: string)
      requires |factoryPid| < |alias| && configAdmin.Valid()
      modifies configAdmin
      ensures configAdmin.Valid() && configAdmin.available == old(configAdmin.available)
      ensures configAdmin.configs ==
        StoreAfterUpdate(old(configAdmin.configs), old(configAdmin.available), alias, factoryPid, pid)
    {
      var cfg := GetLegacyFactoryConfig(configAdmin, factoryPid, Some(alias), Some(pid));
      if cfg.Success? && cfg.value.Some? {
        LegacyLookupFindsStoredRecord(configAdmin.configs, factoryPid, Some(alias[|factoryPid| + 1..]));
        MoveLegacyRecord(cfg.value.value, factoryPid, pid);
      }
    }

    /**
     * The store part of updateFactoryConfig once the legacy record was found:
     * keep its location and cleaned properties, delete it, then fetch or
     * create the named factory configuration and update it.
     */
    method MoveLegacyRecord(legacy: Configuration, factoryPid: string, pid: string)
      requires configAdmin.Valid() && configAdmin.available
      requires Current(legacy) && legacy in configAdmin.configs
      modifies configAdmin
      ensures configAdmin.Valid() && configAdmin.available
      ensures configAdmin.configs == Migrated(old(configAdmin.configs), legacy, factoryPid, pid)
    {
      var location := legacy.bundleLocation;
      var dict := CleanConfiguration(legacy.properties.value);
      var _ := configAdmin.Delete(legacy.pid);
      ghost var rest := configAdmin.configs;
      var upCfg := configAdmin.GetFactoryConfiguration(factoryPid, pid, location);
      ObtainedIsFound(rest, GetPIDOfFactoryPID(factoryPid, pid), Some(factoryPid), location);
      var _ := configAdmin.Update(upCfg.value.pid, dict);
    }

    /** update(group): migrates the group when the listener is active and the group qualifies. */
    method UpdateGroup(group: UpdatableResourceGroup)
      requires Migrates(group.resourceType, group.alias) ==> Decodable(group.alias.value, group.id)
      requires configAdmin.Valid()
      modifies group, configAdmin
      ensures configAdmin.Valid() && configAdmin.available == old(configAdmin.available)
      ensures !(activator.active && Migrates(group.resourceType, old(group.alias))) ==>
        group.id == old(group.id) && group.alias == old(group.alias) && group.updates == old(group.updates) &&
        configAdmin.configs == old(configAdmin.configs)
      ensures activator.active && Migrates(group.resourceType, old(group.alias)) ==>
        var (factoryPid, pid) := FactoryPidAndPid(old(group.alias.value), old(group.id));
        group.id == GetPIDOfFactoryPID(factoryPid, pid) && group.alias.None? &&
        group.updates == old(group.updates) + 1 &&
        configAdmin.configs ==
          StoreAfterUpdate(old(configAdmin.configs), old(configAdmin.available), old(group.alias.value), factoryPid, pid)
    {
      if activator.active {
        if group.resourceType == TYPE_CONFIG && group.alias.Some? {
          UpdateFactoryConfig(group);
        }
      }
    }

    /**
     * update(groups): handles each group in turn, then notifies the listener
     * exactly once. Every group the listener's state lets through is renamed,
     * loses its alias and is committed once; the others are left alone.
     */
    method Update(groups: seq<UpdatableResourceGroup>)
      requires forall g :: g in groups && Migrates(g.resourceType, g.alias) ==> Decodable(g.alias.value, g.id)
      requires configAdmin.Valid()
      modifies (set g | g in groups), configAdmin, activator
      ensures configAdmin.Valid()
      ensures activator.active == old(activator.active) && configAdmin.available == old(configAdmin.available)
      ensures activator.finishedUpdates == old(activator.finishedUpdates) + 1
      ensures forall g :: g in groups ==> Handled(g, old(activator.active))
    {
      var i := 0;
      while i < |groups|
        invariant 0 <= i <= |groups|
        invariant configAdmin.Valid() && configAdmin.available == old(configAdmin.available)
        invariant activator.active == old(activator.active)
        invariant activator.finishedUpdates == old(activator.finishedUpdates)
        invariant forall g :: g in groups && g !in groups[..i] ==> Handled(g, false)
        invariant forall g :: g in groups[..i] ==> Handled(g, activator.active)
      {
        var group := groups[i];
        assert groups[..i + 1] == groups[..i] + [group];
        UpdateGroup(group);
        i := i + 1;
      }
      assert groups[..i] == groups;
      activator.FinishedUpdating();
    }
  }
}
