# RIoT2 node runtime: a verified model of the node's own startup and endpoint logic

This project models, in Dafny, the logic that the RIoT2 .NET node host implements
itself (as opposed to what it inherits from its core library):

- the **device status endpoint** `GET /api/device/status`: a loop over the registry's
  devices that skips devices in the `Unknown` state and copies id, name, state
  message and state of each other device, in registry order;
- the **configuration-template endpoint** `GET /api/device/configuration/templates`:
  a loop that asks each self-describing device for its template (logging an error and
  skipping it when the call throws) and synthesises a default template for every other device from its
  capability interfaces;
- **plugin loading** at startup: a `foreach` over the `*.dll` files of the plugin
  directory, wrapped in a single `try`, that registers each assembly as an
  application part and initialises its single plugin entry type;
- the **online message**, whose callback URLs are the node's base URL followed by the
  two endpoint routes, and the **configuration-updated handler**, which stops,
  configures and restarts all devices;
- the **configuration service**: the lazily built node configuration read from
  environment variables, the configuration-file lookup, and the debug-build load of
  the local device configuration.

Files: `wrappers.dfy` (Option), `device_model.dfy` (device records), `device_endpoints.dfy`,
`plugin_loading.dfy`, `node_startup.dfy`, `configuration_service.dfy`.

Each loop of the source is a Dafny `method` with a `while` loop, proved equal to a
recursive specification function; the properties the source promises are lemmas about
those functions (concatenation laws that fix registry/file order, counts, membership,
well-formedness of the event trace). State the source updates in place (the builder's
parts and initialised plugins, the configuration cache, the device service's calls) is
a `class` field updated by methods whose contracts give the whole new state.

Inputs that the source obtains from the outside world are parameters: the device list
(a snapshot of the registry), the successive values of `Guid.NewGuid` (`freshIds`),
the plugin directory listing with what loading each file would do, the environment
(a map; a missing variable reads as null), the file system (a map from existing paths
to what reading them does) and the JSON decoder (a partial function on bytes).

Behaviour of the code worth noting, which the model follows:
- a plugin file with no plugin entry type is skipped silently after its assembly part
  is registered (Program.cs:68-75);
- a single `try` wraps the whole plugin loop, so one exception ends plugin loading
  for all later files (Program.cs:52-86);
- an empty plugin directory only logs a warning and startup goes on (Program.cs:57-81);
- on any failure, `LoadDeviceConfiguration` logs the error and resets the cached
  *node* configuration to null (Services/ConfigurationService.cs:57-61);
- a self-describing device whose `GetConfigurationTemplate` returns null adds a null
  entry to the template list (Program.cs:162-163).

## Model

| member | source | states |
|---|---|---|
| DeviceEndpoints.StatusOf | Program.cs:141-146 | a status entry copies the device's id, name, state message and state unchanged |
| DeviceEndpoints.StatusList | Program.cs:136-147 | the status list has at most one entry per device; its exact contents are stated by the StatusList lemmas below |
| DeviceEndpoints.UnknownCount | Program.cs:138-139 | the number of devices the status endpoint skips is at most the number of devices |
| DeviceEndpoints.StatusListHasNoUnknown | Program.cs:137-139 | no entry of the status list is in the Unknown state |
| DeviceEndpoints.StatusListLength | Program.cs:136-147 | the status list has exactly one entry per device not in Unknown |
| DeviceEndpoints.StatusListMembership | Program.cs:136-147 | a status is listed iff some device outside Unknown has exactly that status |
| DeviceEndpoints.StatusListAppend | Program.cs:136-147 | registry order is kept: the list for a+b is the list for a followed by the list for b |
| DeviceEndpoints.StatusListSingle | Program.cs:138-146 | one device contributes nothing when Unknown, otherwise exactly its own status |
| DeviceEndpoints.DeviceStatuses | Program.cs:133-150 | the endpoint's loop returns exactly the status list of the registry's devices |
| DeviceEndpoints.DefaultTemplate | Program.cs:172-181 | type full name and short name copied, a fresh id, schedule "0 * * * *" iff refreshable else null, empty command templates iff command device else null, no report templates or parameters |
| DeviceEndpoints.DefaultCount | Program.cs:170-182 | the number of default templates, one fresh id each, is at most the number of devices |
| DeviceEndpoints.FailedCount | Program.cs:165-168 | the number of devices whose template call throws is at most the number of devices |
| DeviceEndpoints.TemplateList | Program.cs:156-183 | the template list has at most one entry per device; its exact contents are stated by the TemplateList lemmas below |
| DeviceEndpoints.TemplateListSingle | Program.cs:158-182 | a self-describing device contributes what its call returns (null included), or nothing when the call throws; any other device contributes a default template with the next fresh id |
| DeviceEndpoints.DefaultCountAppend | Program.cs:170-182 | the fresh ids consumed by a+b are those consumed by a plus those consumed by b |
| DeviceEndpoints.TemplateListAppend | Program.cs:155-184 | registry order is kept and each device's contribution is independent of the devices before it, apart from which fresh id it receives |
| DeviceEndpoints.FailedTemplateSkipped | Program.cs:160-168 | a device whose template call throws contributes nothing and the devices after it are still processed |
| DeviceEndpoints.TemplateListLength | Program.cs:155-184 | the template list's length is the device count minus the failed template calls |
| DeviceEndpoints.TemplateErrorLog | Program.cs:165-168 | one error is logged per device whose template call throws |
| DeviceEndpoints.TemplateErrorLogMembership | Program.cs:165-168 | an error naming a device's name and id is logged iff that device's template call throws |
| DeviceEndpoints.TemplateListUnfold | Program.cs:157-182 | one iteration: from device i on, the lists are device i's contribution followed by those of the later devices |
| DeviceEndpoints.ConfigurationTemplates | Program.cs:153-185 | the endpoint's loop returns exactly the template list, consuming one fresh id per default template, and logs exactly the template error log |
| PluginLoading.Aborts | Program.cs:62-74 | a file with more than one entry type throws (SingleOrDefault); a loadable file with no entry type does not; its meaning in events is FileTrace's contract |
| PluginLoading.Initializes | Program.cs:70-74 | Initialize is reached only on a file with one entry type, which throws iff Initialize throws; a file with one entry type that does not throw was initialised |
| PluginLoading.InitializedPluginsAppend | Program.cs:59-76 | the plugins initialised by two runs of events in sequence are those of the first followed by those of the second |
| PluginLoading.ExpectedInitialized | Program.cs:59-76 | at most one plugin is initialised per file; LoopInitializesExpected ties it to the loop |
| PluginLoading.FileTrace | Program.cs:61-75 | a file's assembly part is registered first iff it loads; more than one entry type registers the part and then fails; zero entry types only registers the part; a failure iff the file throws, and it is the last event |
| PluginLoading.FileTraceInitializes | Program.cs:69-75 | Initialize is invoked once, on the file's own plugin, exactly when the file has one entry type that can be instantiated |
| PluginLoading.FileTraceWellFormed | Program.cs:62-75 | within one file an error is the last event and Initialize directly follows the registration of the same assembly |
| PluginLoading.LoopTrace | Program.cs:59-76 | no files give no events; otherwise the first file's events come first |
| PluginLoading.LoopTraceUnfold | Program.cs:59-76 | one iteration: from file i on, the events are file i's, then those of the later files unless file i throws |
| PluginLoading.LoopTraceAppend | Program.cs:59-76 | files are processed in order: files that do not throw contribute their events in sequence |
| PluginLoading.LoopStopsAtFault | Program.cs:52-86 | an exception in any file ends the loop: later files produce no event at all |
| PluginLoading.LoopTraceWellFormed | Program.cs:59-86 | in the whole loop at most one error is logged and it is the last event; every Initialize directly follows the registration of its own assembly as a part |
| PluginLoading.LoopInitializesExpected | Program.cs:59-76 | the plugins initialised are exactly the single-entry-type files, in file order, up to the first file that throws |
| PluginLoading.StartupTrace | Program.cs:52-86 | a missing plugin directory logs one error; an empty one logs only the warning; a non-empty one gives exactly the loop's events |
| PluginLoading.StartupTraceWellFormed | Program.cs:52-86 | for every directory listing an error is the last event, every Initialize follows its own part, and a listed directory initialises exactly the expected plugins |
| PluginLoading.EmptyDirectoryOnlyWarns | Program.cs:57-81 | an empty file list produces only the warning and initialises no plugin |
| PluginLoading.NodeBuilder.ProcessFile | Program.cs:61-75 | one iteration appends exactly that file's events and reports whether it threw |
| PluginLoading.NodeBuilder.LoadFiles | Program.cs:59-76 | the loop appends exactly the loop trace of the files |
| PluginLoading.NodeBuilder.LoadPlugins | Program.cs:52-86 | the whole step appends exactly the startup trace of the directory listing |
| NodeStartup.OnlineMessageFor | Program.cs:116-121 | the template URL is the base URL + "/api/device/configuration/templates" and the status URL is the base URL + "/api/device/status", a null base reading as empty |
| NodeStartup.AnnouncedBaseRoundTrip | Program.cs:116-121 | the base URL is recovered from the announced status URL |
| NodeStartup.OnlineMessageInjective | Program.cs:116-121 | two base URLs give the same online message iff they read as the same text (null and "" coincide) |
| NodeStartup.OnlineMessageRoutes | Program.cs:119-120 | both callback URLs share the base and end with the routes the node serves |
| NodeStartup.AssignOnlineMessage | Program.cs:116-121 | reading the URL goes through the lazy Configuration getter; OnlineMessage is then set from that configuration's URL |
| NodeStartup.DeviceService.StopAllDevices | Program.cs:127 | records one stop-all call and nothing else |
| NodeStartup.DeviceService.ConfigureDevices | Program.cs:128 | records one configure call and nothing else |
| NodeStartup.DeviceService.StartAllDevices | Program.cs:129 | records one start-all call with its notify flag and nothing else |
| NodeStartup.OnDeviceConfigurationUpdated | Program.cs:124-130 | the handler issues exactly StopAllDevices, ConfigureDevices, StartAllDevices(true), each once, in that order |
| NodeConfigurationService.Variable | Services/ConfigurationService.cs:25-32 | an environment variable reads as its value when set and as null otherwise |
| NodeConfigurationService.BuildConfiguration | Services/ConfigurationService.cs:23-34 | Id and Mqtt.ClientId both come from RIOT2_NODE_ID; Url, Mqtt.ServerUrl, Mqtt.Username and Mqtt.Password from RIOT2_NODE_URL, RIOT2_MQTT_IP, RIOT2_MQTT_USERNAME, RIOT2_MQTT_PASSWORD; ApplicationFolder keeps its default |
| NodeConfigurationService.BuildableIff | Services/ConfigurationService.cs:23-34 | a configuration can be built from some environment iff its Id equals its Mqtt.ClientId (and it has the default folder) |
| NodeConfigurationService.BuildDependsOnlyOnVariables | Services/ConfigurationService.cs:23-34 | two environments build the same configuration iff they agree on the five variables |
| NodeConfigurationService.CachedOrBuilt | Services/ConfigurationService.cs:21-36 | a read returns the cached configuration when there is one, otherwise a fresh build |
| NodeConfigurationService.CombinePath | Services/ConfigurationService.cs:67 | Path.Combine: an empty name leaves the folder; a rooted name or an empty folder gives the name; otherwise a '/' is inserted unless the folder already ends with one |
| NodeConfigurationService.CombinePathBelow | Services/ConfigurationService.cs:67 | a relative name is combined below the folder: the path starts with the folder and ends with the name |
| NodeConfigurationService.LocateFile | Services/ConfigurationService.cs:65-73 | a null application folder throws; otherwise null exactly when ApplicationFolder/filename does not exist, and that existing file when it does |
| NodeConfigurationService.DebugLoadResult | Services/ConfigurationService.cs:45-56 | the try block fails for a null folder, iff the local file is missing, or when it cannot be read or decoded; it succeeds iff the file exists, is readable and decodes, yielding the decoded payload |
| NodeConfigurationService.ConfigurationService.Configuration | Services/ConfigurationService.cs:17-38 | never null; an empty cache is filled with a fresh build; a filled cache is returned unchanged whatever the environment |
| NodeConfigurationService.ConfigurationService.LoadConfigurationFile | Services/ConfigurationService.cs:65-74 | reads Configuration (filling the cache) and returns the lookup of the file in its application folder, a null folder throwing |
| NodeConfigurationService.ConfigurationService.LoadDeviceConfiguration | Services/ConfigurationService.cs:43-62 | on success SetDeviceConfiguration is called once with the decoded payload, the cache holds the configuration and nothing is logged; on any failure the fault is logged, the cache is null and SetDeviceConfiguration is not called; json and id are ignored |
| NodeConfigurationService.ConfigurationService.SetDeviceConfiguration | Services/ConfigurationService.cs:55 | records one call with the payload and nothing else |

## Left out

- Logging configuration, JSON serializer options and DI registration (Program.cs:13-50), `MapControllers`, `app.Run` and the developer exception page: host plumbing with no logic of its own.
- The device registry's behaviour (`DeviceServiceBase`): lifecycle state machine, scheduler, command routing and plugin self-update are in the core library, which is not part of this model; the device service is a recorder of the calls it receives.
- Reflection and isolated assembly loading: a plugin file is described by whether its assembly loads, whether its types enumerate, how many entry types it has and what activating the entry type does. A `GetMethod` that finds no public `Initialize` is not modelled.
- The log messages' texts and the exception objects: plugin loading records the kind of exception that ended it, the template endpoint the name and id of the device whose call threw, and the debug load the kind of fault; the warning for an empty plugin directory is an event of its own.
- `NodeConfigurationService.ConfigurationService.Configuration`: object identity of the cached configuration is modelled as value equality.
- The default value of `ApplicationFolder` comes from the core library's configuration type: it is a constructor parameter of the service, possibly null.
- `SetDeviceConfiguration` belongs to the base service (and raises `DeviceConfigurationUpdated`, whose handler is modelled separately); it is recorded as a call and assumed not to throw, so the composition of the debug load with the handler is not modelled.
- The device configuration payload is opaque, since its type belongs to the core library. JSON deserialisation and UTF-8 decoding are one opaque partial function `decode`; a decoder that yields null is not distinguished from success.
- `CombinePath` uses the '/' separator of .NET on Unix; Windows separators, drive roots and null or invalid-character arguments other than a null folder are not modelled.
- The other members of the online message (node type, online flag) are not set by this code and are not modelled.
- Async execution, `ApplicationStarted`/`ApplicationStopping` callbacks, subscription timing of the event handler and `#if DEBUG` switches (the debug load is modelled as always compiled in).
- `MqttBackgroundService` is a thin wrapper over the bus service; its shutdown stops devices before stopping the bus, which is not modelled further.
- The state enum of devices comes from the core library: the model uses Unknown, Stopped, Configuring, Running and Error; only Unknown is singled out by the code.
