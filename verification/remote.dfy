/**
 * The two remote services the event source talks to -- the device directory
 * ("services.device_manager") and the event store ("services.event_center")
 * -- seen only through the requests it sends and the replies it receives.
 */
module Remote {
  import opened Wrappers
  import opened Json
  import opened Tags

  /** The success code of every remote reply. */
  const Ok: int := 200

  /**
   * A device record from the directory, restricted to the fields this core
   * reads: `uuid`, `userId`, `owner`, `name`, `type.id` and `status.network`.
   */
  datatype Device = Device(
    uuid: Value,
    userId: Value,
    owner: Value,
    name: Value,
    typeId: Value,
    network: Value)

  /**
   * The `data` of a lookup reply: one record, an array whose entries are
   * records or null/undefined (`None`), or no data at all (null or missing).
   */
  datatype LookupData = One(device: Device) | Many(devices: seq<Option<Device>>) | NoData

  /** `data` that leaves `deviceInfo` null or undefined. */
  predicate HoldsNoDevice(data: LookupData) {
    || data.NoData?
    || (data.Many? && (|data.devices| == 0 || data.devices[0].None?))
  }

  /** Reply to `getDevice` (command code 0003). */
  datatype LookupReply = LookupReply(retCode: int, description: string, data: LookupData)

  /** Reply to `deviceUpdate` (0004) or `saveEvent` (0001). */
  datatype Status = Status(retCode: int, description: string)

  /** What a lookup yields to its caller. */
  datatype Resolution =
    | Found(device: Device)
      /** Success whose `data` holds no device: the device is null or `undefined`. */
    | NoRecord
      /** Any other code: the error `{errorId, errorMsg}` built from the reply. */
    | Failed(errorId: int, errorMsg: string)

  /** The reply handling of `getDevice`. */
  function Resolve(reply: LookupReply): (r: Resolution)
    ensures r.Failed? <==> reply.retCode != Ok
    ensures r.Failed? ==> r.errorId == reply.retCode && r.errorMsg == reply.description
    ensures reply.retCode == Ok && reply.data.One? ==> r == Found(reply.data.device)
    ensures reply.retCode == Ok && reply.data.Many? && |reply.data.devices| > 0 && reply.data.devices[0].Some? ==>
              r == Found(reply.data.devices[0].value)
    ensures r.NoRecord? <==> reply.retCode == Ok && HoldsNoDevice(reply.data)
  {
    if reply.retCode != Ok then Failed(reply.retCode, reply.description)
    else match reply.data
      case One(d) => Found(d)
      case Many(ds) => if |ds| > 0 && ds[0].Some? then Found(ds[0].value) else NoRecord
      case NoData => NoRecord
  }

  /**
   * Text of an audit description. Descriptions that append a runtime value
   * to a fixed text keep the value instead of its string conversion.
   */
  datatype Description =
      /** A fixed text. */
    | Text(text: string)
      /** The value itself, as `eventData.errorMSG` is used. */
    | Verbatim(value: Value)
      /** "device power report to " followed by the status. */
    | PowerReportTo(status: Value)
      /** "device power " followed by the power. */
    | DevicePower(power: Value)
      /** "device switch into " followed by the mode and " mode.". */
    | SwitchIntoMode(heatMode: Value)
      /** "device " followed by the network value and ".". */
    | DeviceNetworkIs(network: Value)

  /** The parameters of a `saveEvent` request. */
  datatype AuditEvent = AuditEvent(
    userUuid: Value,
    ownerUuid: Value,
    deviceUuid: Value,
    deviceName: Value,
    deviceType: Value,
    eventTag: Tag,
    eventLevel: int,
    eventDescription: Description)

  /** The parameters of a `deviceUpdate` request: the device and dotted-path fields. */
  datatype Update = Update(uuid: Value, fields: map<string, Value>)

  /** A remote request, in the order the core issues them. */
  datatype Call =
    | GetDevice(uuid: Value)
    | DeviceUpdate(update: Update)
    | SaveEvent(event: AuditEvent)

  /** The audit event for a resolved device: identity copied from the record, level 0. */
  function EventFor(d: Device, tag: Tag, description: Description): (e: AuditEvent)
    ensures DescribesDevice(e, d)
    ensures e.eventTag == tag && e.eventDescription == description
  {
    AuditEvent(d.userId, d.owner, d.uuid, d.name, d.typeId, tag, 0, description)
  }

  /** True when `e` was built from record `d`, as every audit event of this core is. */
  predicate DescribesDevice(e: AuditEvent, d: Device) {
    && e.userUuid == d.userId
    && e.ownerUuid == d.owner
    && e.deviceUuid == d.uuid
    && e.deviceName == d.name
    && e.deviceType == d.typeId
    && e.eventLevel == 0
  }

  /**
   * The directory's effect of an update on the one status field this core
   * reads back: a `status.network` entry replaces the stored network.
   */
  function Patch(d: Device, u: Update): Device {
    if "status.network" in u.fields then d.(network := u.fields["status.network"]) else d
  }
}
