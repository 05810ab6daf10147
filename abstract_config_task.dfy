/**
 * What every configuration task knows about its resource: the configuration
 * pid and the factory pid, read once from the resource's attributes, and the
 * pid the configuration is stored under.
 */
module AbstractConfigTask {
  import opened Wrappers
  import opened Values
  import opened InstallerApi
  import opened ConfigUtil
  import ConfigTaskCreator

  /** An attribute that the task casts to String: absent, or a String. */
  predicate StringOrAbsent(attributes: map<string, Value>, key: string)
  {
    key in attributes ==> attributes[key].Scalar? && attributes[key].kind == STRING
  }

  /** The attribute value after the (String) cast; null when absent. */
  function StringAttribute(attributes: map<string, Value>, key: string): (r: Option<string>)
    requires StringOrAbsent(attributes, key)
    ensures r.Some? <==> key in attributes
    ensures r.Some? ==> attributes[key] == StringValue(r.value)
  {
    if key in attributes then Some(attributes[key].text) else None
  }

  /** The fields an AbstractConfigTask fixes in its constructor. */
  datatype ConfigTask = ConfigTask(resource: TaskResource, configPid: string, factoryPid: Option<string>)

  /**
   * A task for the group's active resource. The resource must carry a
   * String service.pid, and a service.factoryPid that is a String when present.
   */
  function NewConfigTask(group: TaskResourceGroup): (task: ConfigTask)
    requires SERVICE_PID in group.active.attributes
    requires StringOrAbsent(group.active.attributes, SERVICE_PID)
    requires StringOrAbsent(group.active.attributes, SERVICE_FACTORYPID)
    ensures task.resource == group.active
    ensures StringValue(task.configPid) == group.active.attributes[SERVICE_PID]
    ensures task.factoryPid == StringAttribute(group.active.attributes, SERVICE_FACTORYPID)
  {
    var attrs := group.active.attributes;
    ConfigTask(group.active, StringAttribute(attrs, SERVICE_PID).value, StringAttribute(attrs, SERVICE_FACTORYPID))
  }

  /** getRealPID: the pid the configuration is stored under. */
  function RealPid(task: ConfigTask): (pid: string)
    ensures task.factoryPid.None? ==> pid == task.configPid
    ensures task.factoryPid.Some? ==>
      var f := task.factoryPid.value;
      |pid| == |f| + 1 + |task.configPid| &&
      pid[..|f|] == f && pid[|f|] == '~' && pid[|f| + 1..] == task.configPid
  {
    match task.factoryPid
    case None => task.configPid
    case Some(f) => GetPIDOfFactoryPID(f, task.configPid)
  }

  /** getDictionary: the resource's dictionary, unchanged. */
  function Dictionary(task: ConfigTask): (d: Option<Dict>)
    ensures d == task.resource.dictionary
  {
    task.resource.dictionary
  }

  /**
   * A task made for a resource the transformer turned into a configuration
   * stores it under the id the transformer gave that resource.
   */
  lemma RealPidIsTransformationId(url: string, state: ResourceState, dictionary: Option<Dict>)
    ensures var t := ConfigTaskCreator.CheckConfiguration(url);
      var group := TaskResourceGroup(TaskResource(t.resourceType, state, dictionary, t.attributes), None);
      SERVICE_PID in t.attributes &&
      StringOrAbsent(t.attributes, SERVICE_PID) && StringOrAbsent(t.attributes, SERVICE_FACTORYPID) &&
      RealPid(NewConfigTask(group)) == t.id
  {
    var t := ConfigTaskCreator.CheckConfiguration(url);
    var pid := ConfigTaskCreator.RemoveConfigExtension(ConfigTaskCreator.GetResourceId(url));
    var n := ConfigTaskCreator.SplitIndex(pid);
    if n > 0 {
      FactoryResourceRealPid(t, state, dictionary, pid[..n], pid[n + 1..]);
    } else {
      PlainResourceRealPid(t, state, dictionary, pid);
    }
  }

  lemma FactoryResourceRealPid(t: ConfigTaskCreator.TransformationResult, state: ResourceState, dictionary: Option<Dict>,
                               factoryPid: string, configPid: string)
    requires t.attributes == map[SERVICE_FACTORYPID := StringValue(factoryPid), SERVICE_PID := StringValue(configPid)]
    requires t.id == GetPIDOfFactoryPID(factoryPid, configPid)
    ensures var group := TaskResourceGroup(TaskResource(t.resourceType, state, dictionary, t.attributes), None);
      SERVICE_PID in t.attributes &&
      StringOrAbsent(t.attributes, SERVICE_PID) && StringOrAbsent(t.attributes, SERVICE_FACTORYPID) &&
      RealPid(NewConfigTask(group)) == t.id
  {
    assert SERVICE_FACTORYPID != SERVICE_PID by {
      assert |SERVICE_PID| == 11 && |SERVICE_FACTORYPID| == 18;
    }
    var group := TaskResourceGroup(TaskResource(t.resourceType, state, dictionary, t.attributes), None);
    var task := NewConfigTask(group);
    assert task.configPid == configPid;
    assert task.factoryPid == Some(factoryPid);
  }

  lemma PlainResourceRealPid(t: ConfigTaskCreator.TransformationResult, state: ResourceState, dictionary: Option<Dict>,
                             pid: string)
    requires t.attributes == map[SERVICE_PID := StringValue(pid)] && t.id == pid
    ensures var group := TaskResourceGroup(TaskResource(t.resourceType, state, dictionary, t.attributes), None);
      SERVICE_PID in t.attributes &&
      StringOrAbsent(t.attributes, SERVICE_PID) && StringOrAbsent(t.attributes, SERVICE_FACTORYPID) &&
      RealPid(NewConfigTask(group)) == t.id
  {
    assert SERVICE_FACTORYPID != SERVICE_PID by {
      assert |SERVICE_PID| == 11 && |SERVICE_FACTORYPID| == 18;
    }
  }
}
