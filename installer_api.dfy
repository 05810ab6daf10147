/**
 * Names and types the configuration factory takes from the OSGi framework and
 * from the Sling installer API. They are declared outside the modelled files;
 * the constants carry the values of those APIs.
 */
module InstallerApi {
  import opened Wrappers
  import opened Values

  // org.osgi.framework.Constants and org.osgi.service.cm.ConfigurationAdmin
  const SERVICE_PID := "service.pid"
  const SERVICE_FACTORYPID := "service.factoryPid"

  // org.apache.sling.installer.api.InstallableResource
  const TYPE_CONFIG := "config"
  const TYPE_PROPERTIES := "properties"
  const RESOURCE_URI_HINT := "resource.uri.hint"
  const INSTALLATION_HINT := "installation.hint"
  const RESOURCE_IS_TEMPLATE := "org.apache.sling.installer.api.template"

  // org.apache.sling.installer.api.ResourceChangeListener
  const RESOURCE_PERSIST := "org.apache.sling.installer.api.persist"

  // org.apache.sling.installer.factories.configuration.ConfigurationConstants
  const PROPERTY_PERSISTENCE := "org.apache.sling.installer.configuration.persist"
  const PROPERTY_BUNDLE_LOCATION := "org.apache.sling.installer.configuration.bundlelocation"

  /** org.apache.sling.installer.api.tasks.ResourceState */
  datatype ResourceState = Install | Uninstall | Installed | Uninstalled | Ignored

  /** A resource handed to an install task: its type, state, dictionary and attributes. */
  datatype TaskResource = TaskResource(
    resourceType: string,
    state: ResourceState,
    dictionary: Option<Dict>,
    attributes: map<string, Value>)

  /** The group a task is created for: the active resource and the one that would follow it. */
  datatype TaskResourceGroup = TaskResourceGroup(active: TaskResource, nextActive: Option<TaskResource>)

  /** An installed resource as the InfoProvider reports it. */
  datatype Resource = Resource(entityId: string, scheme: string, dictionary: Dict)

  /** A group of installed resources for one entity, in priority order. */
  datatype ResourceGroup = ResourceGroup(resources: seq<Resource>)
}
