/**
 * The node's configuration service: a lazily built node configuration read
 * from environment variables, and, in debug builds, a device configuration
 * loaded from a local file. The environment, the file system and the JSON
 * decoder are inputs.
 */
module NodeConfigurationService {
  import opened Wrappers

  /** The process environment: variable name to value; a missing name reads as null. */
  type Environment = map<string, string>

  /** Environment.GetEnvironmentVariable: the value, or None (null) when the variable is not set. */
  function Variable(env: Environment, name: string): (v: Option<string>)
    ensures v.Some? <==> name in env
    ensures v.Some? ==> v.value == env[name]
  {
    if name in env then Some(env[name]) else None
  }

  const NodeIdVariable := "RIOT2_NODE_ID"
  const NodeUrlVariable := "RIOT2_NODE_URL"
  const MqttServerVariable := "RIOT2_MQTT_IP"
  const MqttUsernameVariable := "RIOT2_MQTT_USERNAME"
  const MqttPasswordVariable := "RIOT2_MQTT_PASSWORD"

  /** Connection parameters of the message bus; None is a null member. */
  datatype MqttConfiguration = MqttConfiguration(
    clientId: Option<string>,
    serverUrl: Option<string>,
    username: Option<string>,
    password: Option<string>)

  /** The node configuration: identity, base URL, bus parameters and the application folder (None is null). */
  datatype NodeConfiguration = NodeConfiguration(
    id: Option<string>,
    url: Option<string>,
    mqtt: MqttConfiguration,
    applicationFolder: Option<string>)

  /** The handshake message the node announces; only its two callback URLs are set by the node itself. */
  datatype NodeOnlineMessage = NodeOnlineMessage(configurationTemplateUrl: string, deviceStateUrl: string)

  /**
   * A decoded device-configuration payload. This code never looks inside it:
   * it only hands it to SetDeviceConfiguration, so its shape is left opaque.
   */
  type NodeDeviceConfiguration

  /**
   * A freshly built configuration (ConfigurationService.cs:23-34). The application
   * folder is not set there: it keeps the default the configuration type gives it.
   */
  function BuildConfiguration(env: Environment, defaultFolder: Option<string>): (c: NodeConfiguration)
    ensures c.id == Variable(env, NodeIdVariable) && c.mqtt.clientId == Variable(env, NodeIdVariable)
    ensures c.url == Variable(env, NodeUrlVariable)
    ensures c.mqtt.serverUrl == Variable(env, MqttServerVariable)
    ensures c.mqtt.username == Variable(env, MqttUsernameVariable)
    ensures c.mqtt.password == Variable(env, MqttPasswordVariable)
    ensures c.applicationFolder == defaultFolder
  {
    NodeConfiguration(
      Variable(env, NodeIdVariable),
      Variable(env, NodeUrlVariable),
      MqttConfiguration(
        Variable(env, NodeIdVariable),
        Variable(env, MqttServerVariable),
        Variable(env, MqttUsernameVariable),
        Variable(env, MqttPasswordVariable)),
      defaultFolder)
  }

  /** The environment entry for an optional value: absent when the value is null. */
  function WithVariable(env: Environment, name: string, value: Option<string>): Environment
  {
    if value.Some? then env[name := value.value] else env - {name}
  }

  /** The smallest environment from which a configuration would be built. */
  function EnvironmentFor(c: NodeConfiguration): Environment
  {
    var e0 := WithVariable(map[], NodeIdVariable, c.id);
    var e1 := WithVariable(e0, NodeUrlVariable, c.url);
    var e2 := WithVariable(e1, MqttServerVariable, c.mqtt.serverUrl);
    var e3 := WithVariable(e2, MqttUsernameVariable, c.mqtt.username);
    WithVariable(e3, MqttPasswordVariable, c.mqtt.password)
  }

  /**
   * Exactly the configurations with equal node id and bus client id (and the
   * default folder) can be built from some environment: a built configuration
   * always has them equal, and any such configuration is rebuilt from EnvironmentFor.
   */
  lemma BuildableIff(c: NodeConfiguration, defaultFolder: Option<string>)
    ensures (exists env :: BuildConfiguration(env, defaultFolder) == c) <==>
            c.id == c.mqtt.clientId && c.applicationFolder == defaultFolder
  {
    if c.id == c.mqtt.clientId && c.applicationFolder == defaultFolder {
      var env := EnvironmentFor(c);
      assert Variable(env, NodeIdVariable) == c.id;
      assert Variable(env, NodeUrlVariable) == c.url;
      assert Variable(env, MqttServerVariable) == c.mqtt.serverUrl;
      assert Variable(env, MqttUsernameVariable) == c.mqtt.username;
      assert Variable(env, MqttPasswordVariable) == c.mqtt.password;
      assert BuildConfiguration(env, defaultFolder) == c;
    }
  }

  /** Two environments build the same configuration exactly when they agree on the five variables read. */
  lemma BuildDependsOnlyOnVariables(env1: Environment, env2: Environment, defaultFolder: Option<string>)
    ensures BuildConfiguration(env1, defaultFolder) == BuildConfiguration(env2, defaultFolder) <==>
      && Variable(env1, NodeIdVariable) == Variable(env2, NodeIdVariable)
      && Variable(env1, NodeUrlVariable) == Variable(env2, NodeUrlVariable)
      && Variable(env1, MqttServerVariable) == Variable(env2, MqttServerVariable)
      && Variable(env1, MqttUsernameVariable) == Variable(env2, MqttUsernameVariable)
      && Variable(env1, MqttPasswordVariable) == Variable(env2, MqttPasswordVariable)
  {
  }

  /** The configuration a read of the property returns: the cached one, or a fresh build when the cache is empty. */
  function CachedOrBuilt(cache: Option<NodeConfiguration>, env: Environment, defaultFolder: Option<string>): (c: NodeConfiguration)
    ensures cache.Some? ==> c == cache.value
    ensures cache.None? ==> c == BuildConfiguration(env, defaultFolder)
  {
    match cache
    case Some(cached) => cached
    case None => BuildConfiguration(env, defaultFolder)
  }

  // ---------------------------------------------------------------------------
  // Files

  /** What opening and reading a file does: yields its bytes, or throws. */
  datatype FileContent = Readable(bytes: seq<bv8>) | ReadFails

  /** The file system: the existing paths and what reading each does. */
  type FileSystem = map<string, FileContent>

  /** A FileInfo handle: the full path of an existing file. */
  datatype FileInfo = FileInfo(fullName: string)

  /** Path of the local device configuration used by debug builds. */
  const LocalConfigurationFile := "Data/local.configuration.json"

  /**
   * Path.Combine with '/' as the separator, for non-null arguments: an empty
   * second part leaves the first, an empty first part or a rooted second part
   * gives the second, and otherwise a separator is inserted only when the first
   * part does not already end with one.
   */
  function CombinePath(folder: string, name: string): (p: string)
    ensures name == [] ==> p == folder
    ensures name != [] && (folder == [] || name[0] == '/') ==> p == name
    ensures name != [] && name[0] != '/' && folder != [] && folder[|folder| - 1] == '/' ==> p == folder + name
    ensures name != [] && name[0] != '/' && folder != [] && folder[|folder| - 1] != '/' ==> p == folder + "/" + name
  {
    if name == [] then folder
    else if folder == [] || name[0] == '/' then name
    else if folder[|folder| - 1] == '/' then folder + name
    else folder + "/" + name
  }

  /** A relative path is combined below the folder: the result starts with the folder and ends with the name. */
  lemma CombinePathBelow(folder: string, name: string)
    requires |name| > 0 && name[0] != '/'
    ensures CombinePath(folder, name)[..|folder|] == folder
    ensures CombinePath(folder, name)[|CombinePath(folder, name)| - |name|..] == name
  {
    var p := CombinePath(folder, name);
    if folder != [] && folder[|folder| - 1] != '/' {
      assert p == folder + ("/" + name);
    }
  }

  /** What loadConfigurationFile does: throws (a null folder), returns null (no such file), or returns the file. */
  datatype FileLookup = PathFault | NotFound | Found(file: FileInfo)

  /**
   * loadConfigurationFile's result for a given application folder: Path.Combine
   * throws on a null folder; otherwise null exactly when the combined path does
   * not exist, and that existing file when it does.
   */
  function LocateFile(fs: FileSystem, folder: Option<string>, filename: string): (r: FileLookup)
    ensures r.PathFault? <==> folder.None?
    ensures folder.Some? ==> (r.NotFound? <==> CombinePath(folder.value, filename) !in fs)
    ensures r.Found? ==> r.file.fullName == CombinePath(folder.value, filename) && r.file.fullName in fs
  {
    match folder
    case None => PathFault
    case Some(dir) =>
      var path := CombinePath(dir, filename);
      if path in fs then Found(FileInfo(path)) else NotFound
  }

  /** Why the debug load's try block threw; each is logged and resets the cache. */
  datatype DebugLoadFault = FolderNull | FileMissing | ReadFailed | DecodeFailed

  /** The outcome of the debug load's try block. */
  datatype DebugLoadOutcome = Loaded(payload: NodeDeviceConfiguration) | Failed(fault: DebugLoadFault)

  /**
   * The outcome of the debug load's try block for a given application folder:
   * the decoded payload, or the fault that made it throw (a null folder, a
   * missing file dereferenced at File.Open, a read failure or a decoding failure).
   */
  function DebugLoadResult(fs: FileSystem, folder: Option<string>, decode: seq<bv8> -> Option<NodeDeviceConfiguration>): (r: DebugLoadOutcome)
    ensures r == Failed(FolderNull) <==> folder.None?
    ensures r == Failed(FileMissing) <==> folder.Some? && CombinePath(folder.value, LocalConfigurationFile) !in fs
    ensures r.Loaded? <==>
      && folder.Some?
      && CombinePath(folder.value, LocalConfigurationFile) in fs
      && fs[CombinePath(folder.value, LocalConfigurationFile)].Readable?
      && decode(fs[CombinePath(folder.value, LocalConfigurationFile)].bytes).Some?
    ensures r.Loaded? ==> Some(r.payload) == decode(fs[CombinePath(folder.value, LocalConfigurationFile)].bytes)
  {
    match LocateFile(fs, folder, LocalConfigurationFile)
    case PathFault => Failed(FolderNull)
    case NotFound => Failed(FileMissing)
    case Found(file) =>
      match fs[file.fullName]
      case ReadFails => Failed(ReadFailed)
      case Readable(bytes) =>
        match decode(bytes)
        case None => Failed(DecodeFailed)
        case Some(payload) => Loaded(payload)
  }

  /**
   * The configuration service. configuration is the lazily assigned cache
   * (null until first read); deviceConfigurationsSet records the calls of
   * SetDeviceConfiguration, errorsLogged the errors the debug load logs, and
   * onlineMessage is the OnlineMessage property.
   */
  class ConfigurationService {
    const defaultApplicationFolder: Option<string>
    var configuration: Option<NodeConfiguration>
    var deviceConfigurationsSet: seq<NodeDeviceConfiguration>
    var errorsLogged: seq<DebugLoadFault>
    var onlineMessage: Option<NodeOnlineMessage>

    constructor (defaultApplicationFolder: Option<string>)
      ensures this.defaultApplicationFolder == defaultApplicationFolder
      ensures configuration == None && deviceConfigurationsSet == [] && errorsLogged == [] && onlineMessage == None
    {
      this.defaultApplicationFolder := defaultApplicationFolder;
      configuration := None;
      deviceConfigurationsSet := [];
      errorsLogged := [];
      onlineMessage := None;
    }

    /** The Configuration getter (ConfigurationService.cs:17-38): never null, built and cached on the first read. */
    method Configuration(env: Environment) returns (c: NodeConfiguration)
      modifies this`configuration
      ensures c == CachedOrBuilt(old(configuration), env, defaultApplicationFolder)
      ensures old(configuration).Some? ==> c == old(configuration).value
      ensures configuration == Some(c)
    {
      if configuration.None? {
        configuration := Some(BuildConfiguration(env, defaultApplicationFolder));
      }
      c := configuration.value;
    }

    /**
     * loadConfigurationFile (ConfigurationService.cs:65-74): reads Configuration
     * for its folder, then looks the file up; PathFault stands for the exception
     * Path.Combine throws on a null folder.
     */
    method LoadConfigurationFile(filename: string, fs: FileSystem, env: Environment) returns (f: FileLookup)
      modifies this`configuration
      ensures configuration == Some(CachedOrBuilt(old(configuration), env, defaultApplicationFolder))
      ensures f == LocateFile(fs, configuration.value.applicationFolder, filename)
    {
      var c := Configuration(env);
      if c.applicationFolder.None? {
        return PathFault;
      }
      var fullPath := CombinePath(c.applicationFolder.value, filename);
      if fullPath !in fs {
        return NotFound;
      }
      f := Found(FileInfo(fullPath));
    }

    /**
     * The debug LoadDeviceConfiguration (ConfigurationService.cs:42-63). json and id
     * are ignored. On success the decoded payload is passed to SetDeviceConfiguration
     * once; on any failure the error is logged and the cached configuration is
     * reset to null.
     */
    method LoadDeviceConfiguration(json: string, id: string, fs: FileSystem, env: Environment,
                                   decode: seq<bv8> -> Option<NodeDeviceConfiguration>)
      modifies this`configuration, this`deviceConfigurationsSet, this`errorsLogged
      ensures var folder := CachedOrBuilt(old(configuration), env, defaultApplicationFolder).applicationFolder;
              match DebugLoadResult(fs, folder, decode)
              case Loaded(payload) =>
                && configuration == Some(CachedOrBuilt(old(configuration), env, defaultApplicationFolder))
                && deviceConfigurationsSet == old(deviceConfigurationsSet) + [payload]
                && errorsLogged == old(errorsLogged)
              case Failed(fault) =>
                && configuration == None
                && deviceConfigurationsSet == old(deviceConfigurationsSet)
                && errorsLogged == old(errorsLogged) + [fault]
    {
      var localConfigFile := LoadConfigurationFile(LocalConfigurationFile, fs, env);
      var fault: DebugLoadFault;
      match localConfigFile {
        case PathFault =>
          fault := FolderNull;
        case NotFound =>
          // File.Open on the null FileInfo throws
          fault := FileMissing;
        case Found(file) =>
          var content := fs[file.fullName];
          if content.ReadFails? {
            fault := ReadFailed;
          } else {
            var payload := decode(content.bytes);
            if payload.Some? {
              SetDeviceConfiguration(payload.value);
              return;
            }
            fault := DecodeFailed;
          }
      }
      errorsLogged := errorsLogged + [fault];
      configuration := None;
    }

    /** SetDeviceConfiguration of the base service (ConfigurationService.cs:55), observed as a recorded call. */
    method SetDeviceConfiguration(payload: NodeDeviceConfiguration)
      modifies this`deviceConfigurationsSet
      ensures deviceConfigurationsSet == old(deviceConfigurationsSet) + [payload]
    {
      deviceConfigurationsSet := deviceConfigurationsSet + [payload];
    }
  }
}
