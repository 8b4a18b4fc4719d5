/**
 * The device records the node's HTTP endpoints read from the device registry.
 * The device classes themselves belong to the plugins; what the node sees of a
 * device is its identity, its lifecycle state, its runtime type names and which
 * capability interfaces it implements.
 */
module DeviceModel {
  import opened Wrappers

  /** Lifecycle states of a device; Unknown is the state the status endpoint skips (Program.cs:138). */
  datatype DeviceState = Unknown | Stopped | Configuring | Running | Error

  /** A command template of a device configuration (its contents are not interpreted by the node). */
  datatype CommandTemplate = CommandTemplate(id: string)

  /** A report template of a device configuration (its contents are not interpreted by the node). */
  datatype ReportTemplate = ReportTemplate(id: string)

  /**
   * A device configuration template. Null-valued C# members are None;
   * an empty C# list is Some([]) for the optional lists.
   */
  datatype DeviceConfiguration = DeviceConfiguration(
    classFullName: string,
    id: string,
    name: string,
    refreshSchedule: Option<string>,
    commandTemplates: Option<seq<CommandTemplate>>,
    reportTemplates: seq<ReportTemplate>,
    deviceParameters: map<string, string>)

  /**
   * What a call of GetConfigurationTemplate does: return a template, which is
   * None when the call returns null, or throw.
   */
  datatype TemplateOutcome = Returns(template: Option<DeviceConfiguration>) | Throws

  /**
   * A registered device. The three capability interfaces are explicit:
   * isRefreshable for IRefreshableReportDevice, isCommandDevice for ICommandDevice,
   * and configurationTemplate is None when the device does not implement
   * IDeviceWithConfiguration, otherwise the outcome of asking it for its template.
   */
  datatype Device = Device(
    id: string,
    name: string,
    stateMessage: string,
    state: DeviceState,
    typeFullName: string,
    typeName: string,
    isRefreshable: bool,
    isCommandDevice: bool,
    configurationTemplate: Option<TemplateOutcome>)

  /** One entry of the status endpoint's answer. */
  datatype DeviceStatus = DeviceStatus(id: string, name: string, message: string, state: DeviceState)
}
