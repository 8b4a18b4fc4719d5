/**
 * The two read endpoints the node maps over its device registry:
 * GET /api/device/status and GET /api/device/configuration/templates.
 * Each is a loop over the registry's devices appending to a list; each loop
 * is proved equal to a recursive specification function, and the properties
 * the endpoints promise are proved as lemmas about those functions.
 */
module DeviceEndpoints {
  import opened Wrappers
  import opened DeviceModel

  /** Route of the status endpoint. */
  const StatusRoute := "/api/device/status"

  /** Route of the configuration-template endpoint. */
  const TemplatesRoute := "/api/device/configuration/templates"

  /** The refresh schedule a default template gives a refreshable device (at minute 0 of every hour). */
  const DefaultRefreshSchedule := "0 * * * *"

  // ---------------------------------------------------------------------------
  // Status endpoint

  /** The status entry of one device: its fields copied unchanged. */
  function StatusOf(d: Device): (s: DeviceStatus)
    ensures s.id == d.id && s.name == d.name && s.message == d.stateMessage && s.state == d.state
  {
    DeviceStatus(d.id, d.name, d.stateMessage, d.state)
  }

  /** The status list for the given devices, in registry order, skipping devices in Unknown. */
  function StatusList(devices: seq<Device>): (r: seq<DeviceStatus>)
    ensures |r| <= |devices|
  {
    if devices == [] then []
    else if devices[0].state == Unknown then StatusList(devices[1..])
    else [StatusOf(devices[0])] + StatusList(devices[1..])
  }

  /** Number of devices in the Unknown state. */
  function UnknownCount(devices: seq<Device>): (n: nat)
    ensures n <= |devices|
  {
    if devices == [] then 0
    else (if devices[0].state == Unknown then 1 else 0) + UnknownCount(devices[1..])
  }

  /** The status list of a concatenation is the concatenation of the status lists: registry order is kept. */
  lemma {:induction false} StatusListAppend(a: seq<Device>, b: seq<Device>)
    ensures StatusList(a + b) == StatusList(a) + StatusList(b)
  {
    if a == [] {
      assert a + b == b;
    } else {
      assert (a + b)[1..] == a[1..] + b;
      StatusListAppend(a[1..], b);
    }
  }

  /** A single device contributes its status exactly when it is not in Unknown. */
  lemma StatusListSingle(d: Device)
    ensures StatusList([d]) == if d.state == Unknown then [] else [StatusOf(d)]
  {
    assert [d][1..] == [];
  }

  /** No entry of the status list is in the Unknown state. */
  lemma {:induction false} StatusListHasNoUnknown(devices: seq<Device>)
    ensures forall j :: 0 <= j < |StatusList(devices)| ==> StatusList(devices)[j].state != Unknown
  {
    if devices != [] {
      StatusListHasNoUnknown(devices[1..]);
    }
  }

  /** The status list has one entry per device outside Unknown. */
  lemma {:induction false} StatusListLength(devices: seq<Device>)
    ensures |StatusList(devices)| == |devices| - UnknownCount(devices)
  {
    if devices != [] {
      StatusListLength(devices[1..]);
    }
  }

  /** A status is listed exactly when some device outside Unknown has it as its status. */
  lemma {:induction false} StatusListMembership(devices: seq<Device>, s: DeviceStatus)
    ensures s in StatusList(devices) <==> exists i :: 0 <= i < |devices| && devices[i].state != Unknown && StatusOf(devices[i]) == s
  {
    if devices != [] {
      StatusListMembership(devices[1..], s);
      if s in StatusList(devices[1..]) {
        var i :| 0 <= i < |devices[1..]| && devices[1..][i].state != Unknown && StatusOf(devices[1..][i]) == s;
        assert devices[i + 1] == devices[1..][i];
      }
      if exists i :: 0 <= i < |devices| && devices[i].state != Unknown && StatusOf(devices[i]) == s {
        var i :| 0 <= i < |devices| && devices[i].state != Unknown && StatusOf(devices[i]) == s;
        if i > 0 {
          assert devices[1..][i - 1] == devices[i];
        }
      }
    }
  }

  /** The status endpoint's loop (Program.cs:135-149). */
  method DeviceStatuses(devices: seq<Device>) returns (states: seq<DeviceStatus>)
    ensures states == StatusList(devices)
  {
    states := [];
    var i := 0;
    while i < |devices|
      invariant 0 <= i <= |devices|
      invariant states == StatusList(devices[..i])
    {
      var d := devices[i];
      assert devices[..i + 1] == devices[..i] + [d];
      StatusListAppend(devices[..i], [d]);
      StatusListSingle(d);
      i := i + 1;
      if d.state == Unknown {
        continue;
      }
      states := states + [StatusOf(d)];
    }
    assert devices[..i] == devices;
  }

  // ---------------------------------------------------------------------------
  // Configuration-template endpoint

  /**
   * The template synthesised for a device that does not describe itself:
   * its type names, a fresh id, a schedule only for a refreshable device,
   * an empty command-template list only for a command device, and no report
   * templates or parameters.
   */
  function DefaultTemplate(d: Device, freshId: string): (t: DeviceConfiguration)
    ensures t.classFullName == d.typeFullName && t.name == d.typeName && t.id == freshId
    ensures t.refreshSchedule.Some? <==> d.isRefreshable
    ensures t.refreshSchedule.Some? ==> t.refreshSchedule.value == DefaultRefreshSchedule
    ensures t.commandTemplates.Some? <==> d.isCommandDevice
    ensures t.commandTemplates.Some? ==> t.commandTemplates.value == []
    ensures t.reportTemplates == [] && t.deviceParameters == map[]
  {
    DeviceConfiguration(
      d.typeFullName,
      freshId,
      d.typeName,
      if d.isRefreshable then Some(DefaultRefreshSchedule) else None,
      if d.isCommandDevice then Some([]) else None,
      [],
      map[])
  }

  /** Number of devices without a template of their own: each of them consumes one fresh id. */
  function DefaultCount(devices: seq<Device>): (n: nat)
    ensures n <= |devices|
  {
    if devices == [] then 0
    else (if devices[0].configurationTemplate.None? then 1 else 0) + DefaultCount(devices[1..])
  }

  /** Number of devices whose GetConfigurationTemplate throws. */
  function FailedCount(devices: seq<Device>): (n: nat)
    ensures n <= |devices|
  {
    if devices == [] then 0
    else (if devices[0].configurationTemplate == Some(Throws) then 1 else 0) + FailedCount(devices[1..])
  }

  /**
   * The template list for the given devices, in registry order; freshIds are the
   * successive values of Guid.NewGuid, one per default template. A null template
   * returned by a device is listed as None.
   */
  function TemplateList(devices: seq<Device>, freshIds: seq<string>): (r: seq<Option<DeviceConfiguration>>)
    requires DefaultCount(devices) <= |freshIds|
    ensures |r| <= |devices|
  {
    if devices == [] then []
    else
      match devices[0].configurationTemplate
      case Some(Returns(t)) => [t] + TemplateList(devices[1..], freshIds)
      case Some(Throws) => TemplateList(devices[1..], freshIds)
      case None => [Some(DefaultTemplate(devices[0], freshIds[0]))] + TemplateList(devices[1..], freshIds[1..])
  }

  /** Fresh ids are consumed additively over a concatenation. */
  lemma {:induction false} DefaultCountAppend(a: seq<Device>, b: seq<Device>)
    ensures DefaultCount(a + b) == DefaultCount(a) + DefaultCount(b)
  {
    if a == [] {
      assert a + b == b;
    } else {
      assert (a + b)[1..] == a[1..] + b;
      DefaultCountAppend(a[1..], b);
    }
  }

  /**
   * The template list of a concatenation is the concatenation of the template lists,
   * the second using the ids the first left over: registry order is kept and a
   * device's contribution does not depend on the devices before it.
   */
  lemma {:induction false} TemplateListAppend(a: seq<Device>, b: seq<Device>, freshIds: seq<string>)
    requires DefaultCount(a + b) <= |freshIds|
    ensures DefaultCount(a) + DefaultCount(b) <= |freshIds|
    ensures TemplateList(a + b, freshIds) == TemplateList(a, freshIds) + TemplateList(b, freshIds[DefaultCount(a)..])
  {
    DefaultCountAppend(a, b);
    if a == [] {
      assert a + b == b;
      assert freshIds[0..] == freshIds;
    } else {
      var ab := a + b;
      assert ab[0] == a[0];
      assert ab[1..] == a[1..] + b;
      DefaultCountAppend(a[1..], b);
      match a[0].configurationTemplate
      case Some(Returns(t)) =>
        TemplateListAppend(a[1..], b, freshIds);
        assert TemplateList(ab, freshIds) == [t] + TemplateList(a[1..] + b, freshIds);
        assert TemplateList(a, freshIds) == [t] + TemplateList(a[1..], freshIds);
      case Some(Throws) =>
        TemplateListAppend(a[1..], b, freshIds);
        assert TemplateList(ab, freshIds) == TemplateList(a[1..] + b, freshIds);
        assert TemplateList(a, freshIds) == TemplateList(a[1..], freshIds);
      case None =>
        var rest := freshIds[1..];
        TemplateListAppend(a[1..], b, rest);
        assert rest[DefaultCount(a[1..])..] == freshIds[DefaultCount(a)..];
        assert TemplateList(ab, freshIds) == [Some(DefaultTemplate(a[0], freshIds[0]))] + TemplateList(a[1..] + b, rest);
        assert TemplateList(a, freshIds) == [Some(DefaultTemplate(a[0], freshIds[0]))] + TemplateList(a[1..], rest);
    }
  }

  /** What a single device contributes: its own template, nothing when the call throws, or a default template. */
  lemma TemplateListSingle(d: Device, freshIds: seq<string>)
    requires DefaultCount([d]) <= |freshIds|
    ensures TemplateList([d], freshIds) ==
      match d.configurationTemplate
      case Some(Returns(t)) => [t]
      case Some(Throws) => []
      case None => [Some(DefaultTemplate(d, freshIds[0]))]
  {
    assert [d][1..] == [];
  }

  /**
   * A device whose GetConfigurationTemplate throws contributes nothing, and the
   * devices after it are still processed.
   */
  lemma FailedTemplateSkipped(a: seq<Device>, d: Device, b: seq<Device>, freshIds: seq<string>)
    requires d.configurationTemplate == Some(Throws)
    requires DefaultCount(a + [d] + b) <= |freshIds|
    ensures DefaultCount(a) + DefaultCount(b) <= |freshIds|
    ensures TemplateList(a + [d] + b, freshIds) == TemplateList(a, freshIds) + TemplateList(b, freshIds[DefaultCount(a)..])
  {
    assert [d][1..] == [];
    DefaultCountAppend(a + [d], b);
    DefaultCountAppend(a, [d]);
    assert DefaultCount(a + [d]) == DefaultCount(a);
    TemplateListAppend(a + [d], b, freshIds);
    TemplateListAppend(a, [d], freshIds);
    TemplateListSingle(d, freshIds[DefaultCount(a)..]);
    assert TemplateList(a + [d], freshIds) == TemplateList(a, freshIds);
  }

  /** Every device contributes one template except those whose call throws. */
  lemma {:induction false} TemplateListLength(devices: seq<Device>, freshIds: seq<string>)
    requires DefaultCount(devices) <= |freshIds|
    ensures |TemplateList(devices, freshIds)| == |devices| - FailedCount(devices)
  {
    if devices != [] {
      if devices[0].configurationTemplate.None? {
        TemplateListLength(devices[1..], freshIds[1..]);
      } else {
        TemplateListLength(devices[1..], freshIds);
      }
    }
  }

  /** The error the endpoint logs for a device whose GetConfigurationTemplate throws: its name and id. */
  datatype TemplateError = TemplateError(name: string, id: string)

  /** The errors logged while building the template list, in registry order. */
  function TemplateErrorLog(devices: seq<Device>): (r: seq<TemplateError>)
    ensures |r| == FailedCount(devices)
  {
    if devices == [] then []
    else
      (if devices[0].configurationTemplate == Some(Throws) then [TemplateError(devices[0].name, devices[0].id)] else [])
      + TemplateErrorLog(devices[1..])
  }

  /** An error is logged exactly for the devices whose template call throws, naming each of them. */
  lemma {:induction false} TemplateErrorLogMembership(devices: seq<Device>, e: TemplateError)
    ensures e in TemplateErrorLog(devices) <==>
      exists i :: 0 <= i < |devices| && devices[i].configurationTemplate == Some(Throws) && TemplateError(devices[i].name, devices[i].id) == e
  {
    if devices != [] {
      TemplateErrorLogMembership(devices[1..], e);
      if e in TemplateErrorLog(devices[1..]) {
        var i :| 0 <= i < |devices[1..]| && devices[1..][i].configurationTemplate == Some(Throws) && TemplateError(devices[1..][i].name, devices[1..][i].id) == e;
        assert devices[i + 1] == devices[1..][i];
      }
      if exists i :: 0 <= i < |devices| && devices[i].configurationTemplate == Some(Throws) && TemplateError(devices[i].name, devices[i].id) == e {
        var i :| 0 <= i < |devices| && devices[i].configurationTemplate == Some(Throws) && TemplateError(devices[i].name, devices[i].id) == e;
        if i > 0 {
          assert devices[1..][i - 1] == devices[i];
        }
      }
    }
  }

  /** The endpoint's lists from device i on: device i's part, then the rest. */
  lemma TemplateListUnfold(devices: seq<Device>, i: nat, ids: seq<string>)
    requires i < |devices| && DefaultCount(devices[i..]) <= |ids|
    ensures DefaultCount(devices[i..]) == (if devices[i].configurationTemplate.None? then 1 else 0) + DefaultCount(devices[i + 1..])
    ensures TemplateList(devices[i..], ids) ==
      match devices[i].configurationTemplate
      case Some(Returns(t)) => [t] + TemplateList(devices[i + 1..], ids)
      case Some(Throws) => TemplateList(devices[i + 1..], ids)
      case None => [Some(DefaultTemplate(devices[i], ids[0]))] + TemplateList(devices[i + 1..], ids[1..])
    ensures TemplateErrorLog(devices[i..]) ==
      (if devices[i].configurationTemplate == Some(Throws) then [TemplateError(devices[i].name, devices[i].id)] else [])
      + TemplateErrorLog(devices[i + 1..])
  {
    assert devices[i..][0] == devices[i];
    assert devices[i..][1..] == devices[i + 1..];
  }

  /**
   * The template endpoint's loop (Program.cs:155-184), returning the list and
   * the errors it logs for devices whose template call throws.
   */
  method ConfigurationTemplates(devices: seq<Device>, freshIds: seq<string>)
    returns (templates: seq<Option<DeviceConfiguration>>, errors: seq<TemplateError>)
    requires DefaultCount(devices) <= |freshIds|
    ensures templates == TemplateList(devices, freshIds)
    ensures errors == TemplateErrorLog(devices)
  {
    templates, errors := [], [];
    var ids := freshIds;
    var i := 0;
    assert devices[0..] == devices;
    while i < |devices|
      invariant 0 <= i <= |devices|
      invariant DefaultCount(devices[i..]) <= |ids|
      invariant templates + TemplateList(devices[i..], ids) == TemplateList(devices, freshIds)
      invariant errors + TemplateErrorLog(devices[i..]) == TemplateErrorLog(devices)
    {
      var d := devices[i];
      TemplateListUnfold(devices, i, ids);
      match d.configurationTemplate {
        case Some(outcome) =>
          match outcome {
            case Returns(t) =>
              templates := templates + [t];
            case Throws =>
              errors := errors + [TemplateError(d.name, d.id)];
          }
        case None =>
          var t := DefaultTemplate(d, ids[0]);
          templates := templates + [Some(t)];
          ids := ids[1..];
      }
      i := i + 1;
    }
  }
}
