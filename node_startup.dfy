/**
 * The node's startup wiring that has logic of its own: the online-message
 * callback URLs derived from the node's base URL, and the handler that
 * re-applies the device lifecycle when a new device configuration arrives.
 */
module NodeStartup {
  import opened Wrappers
  import opened DeviceEndpoints
  import opened NodeConfigurationService

  /** C# string concatenation with a possibly null left operand: null reads as the empty string. */
  function Text(s: Option<string>): string
  {
    s.GetOr("")
  }

  /** The online message built from the node's base URL (Program.cs:116-121): base URL followed by each endpoint's route. */
  function OnlineMessageFor(url: Option<string>): (m: NodeOnlineMessage)
    ensures m.configurationTemplateUrl == Text(url) + TemplatesRoute
    ensures m.deviceStateUrl == Text(url) + StatusRoute
  {
    NodeOnlineMessage(Text(url) + TemplatesRoute, Text(url) + StatusRoute)
  }

  /** The base URL an online message announces: its status URL without the status route. */
  function AnnouncedBase(m: NodeOnlineMessage): string
  {
    if |m.deviceStateUrl| >= |StatusRoute| then m.deviceStateUrl[..|m.deviceStateUrl| - |StatusRoute|] else ""
  }

  /** The announced base URL is the node's URL (a null URL announces the empty base). */
  lemma AnnouncedBaseRoundTrip(url: Option<string>)
    ensures AnnouncedBase(OnlineMessageFor(url)) == Text(url)
  {
    var m := OnlineMessageFor(url);
    assert m.deviceStateUrl[..|Text(url)|] == Text(url);
  }

  /** Two base URLs give the same online message exactly when they read as the same text. */
  lemma OnlineMessageInjective(u1: Option<string>, u2: Option<string>)
    ensures OnlineMessageFor(u1) == OnlineMessageFor(u2) <==> Text(u1) == Text(u2)
  {
    if OnlineMessageFor(u1) == OnlineMessageFor(u2) {
      AnnouncedBaseRoundTrip(u1);
      AnnouncedBaseRoundTrip(u2);
    }
  }

  /** Both callback URLs announce the same base, each followed by the route the node serves it on. */
  lemma OnlineMessageRoutes(url: Option<string>)
    ensures var m := OnlineMessageFor(url);
      && m.configurationTemplateUrl[..|Text(url)|] == m.deviceStateUrl[..|Text(url)|]
      && m.configurationTemplateUrl[|Text(url)|..] == TemplatesRoute
      && m.deviceStateUrl[|Text(url)|..] == StatusRoute
  {
    var m := OnlineMessageFor(url);
    assert m.configurationTemplateUrl[..|Text(url)|] == Text(url);
    assert m.deviceStateUrl[..|Text(url)|] == Text(url);
  }

  /** Assigning OnlineMessage at startup (Program.cs:116-121): reads Configuration (building it if needed) for its URL. */
  method AssignOnlineMessage(service: ConfigurationService, env: Environment)
    modifies service`configuration, service`onlineMessage
    ensures service.configuration == Some(CachedOrBuilt(old(service.configuration), env, service.defaultApplicationFolder))
    ensures service.onlineMessage == Some(OnlineMessageFor(service.configuration.value.url))
  {
    var configuration := service.Configuration(env);
    var url := configuration.url;
    service.onlineMessage := Some(OnlineMessageFor(url));
  }

  /** The operations asked of the device service. */
  datatype DeviceServiceCall = StopAll | ConfigureAll | StartAll(notify: bool)

  /** The device service, whose behaviour lives in a base class: observed as the sequence of calls it receives. */
  class DeviceService {
    var calls: seq<DeviceServiceCall>

    constructor ()
      ensures calls == []
    {
      calls := [];
    }

    /** StopAllDevices (Program.cs:127), recorded as one call. */
    method StopAllDevices()
      modifies this
      ensures calls == old(calls) + [StopAll]
    {
      calls := calls + [StopAll];
    }

    /** ConfigureDevices (Program.cs:128), recorded as one call. */
    method ConfigureDevices()
      modifies this
      ensures calls == old(calls) + [ConfigureAll]
    {
      calls := calls + [ConfigureAll];
    }

    /** StartAllDevices (Program.cs:129), recorded as one call with its notify flag. */
    method StartAllDevices(notify: bool)
      modifies this
      ensures calls == old(calls) + [StartAll(notify)]
    {
      calls := calls + [StartAll(notify)];
    }
  }

  /**
   * The handler of DeviceConfigurationUpdated (Program.cs:124-130): stop every
   * device, configure them, then start them with notification, each once.
   */
  method OnDeviceConfigurationUpdated(deviceService: DeviceService)
    modifies deviceService
    ensures deviceService.calls == old(deviceService.calls) + [StopAll, ConfigureAll, StartAll(true)]
  {
    deviceService.StopAllDevices();
    deviceService.ConfigureDevices();
    deviceService.StartAllDevices(true);
  }
}
