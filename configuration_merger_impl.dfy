/**
 * The ConfigurationMerger service: exposes to other components the default
 * properties a configuration inherits from merged resources, and strips them
 * from a dictionary. The installation state it reads and the merge schemes
 * configured at activation are fixed for the life of the object.
 */
module ConfigurationMergerImpl {
  import opened Wrappers
  import opened Values
  import opened ConfigUtil
  import opened InstallerApi
  import ConfigTaskCreator

  class ConfigurationMerger {
    /** The merge schemes read at activation; None when merging is off. */
    const mergeSchemes: Option<set<string>>
    /** The installed resource groups the InfoProvider reports. */
    const installed: seq<ResourceGroup>

    constructor (mergeSchemes: Option<set<string>>, installed: seq<ResourceGroup>)
      ensures this.mergeSchemes == mergeSchemes && this.installed == installed
    {
      this.mergeSchemes := mergeSchemes;
      this.installed := installed;
    }

    /** getDefaultProperties: the same scan as the task creator's, over this merger's installation state. */
    method GetDefaultProperties(pid: string) returns (defaults: Option<Dict>)
      ensures defaults == ConfigTaskCreator.DefaultProperties(mergeSchemes, installed, pid)
      ensures defaults.Some? ==> mergeSchemes.Some?
    {
      defaults := ConfigTaskCreator.GetDefaultProperties(mergeSchemes, installed, pid);
    }

    /**
     * removeDefaultProperties: walks the defaults and removes every key of
     * `dict` whose value is the same as the default's.
     */
    method RemoveDefaultProperties(pid: string, dict: Hashtable)
      modifies dict
      ensures dict.entries == ConfigTaskCreator.WithoutDefaults(mergeSchemes, installed, pid, old(dict.entries))
    {
      if mergeSchemes.None? {
        return;
      }
      var defaultProps := GetDefaultProperties(pid);
      if defaultProps.None? {
        return;
      }
      var base := defaultProps.value;
      ghost var original := dict.entries;
      var pending := base.Keys;
      while pending != {}
        invariant pending <= base.Keys
        invariant dict.entries ==
          map k | k in original && !(k !in pending && Redundant(original, base, k)) :: original[k]
      {
        var key :| key in pending;
        var value := base[key];
        var newValue := dict.Lookup(key);
        var same := IsSameValue(newValue, Some(value));
        if newValue.Some? && same {
          var _ := dict.Remove(key);
        }
        pending := pending - {key};
      }
    }
  }
}
