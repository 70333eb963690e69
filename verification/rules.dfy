/**
 * The per-tag rule engine of `save` (lib/me-event-source.js:163-408): for a
 * validated event and the resolved device record, the device update to
 * request, the audit event to publish and the network fan-out to start.
 */
module Rules {
  import opened Wrappers
  import opened Json
  import opened Tags
  import opened Remote
  import opened Network

  /** Values of `status.switch`. */
  const On: string := "ON"
  const Off: string := "OFF"
  const Err: string := "ERR"

  /** What the branch for a tag does. */
  datatype RuleOutcome =
      /** The tag passed the gate but has no branch: the waterfall never continues. */
    | NoRule
      /** The branch ran: an optional update, an optional audit event, and network tasks started. */
    | Fires(update: Option<Update>, audit: Option<AuditEvent>, fanOut: seq<NetworkTask>)
      /** The network loop threw on an item; the tasks before it were already started. */
    | Throws(fanOut: seq<NetworkTask>)

  /** The five registered tags that the chain of branches does not handle. */
  predicate HasNoRule(tag: Tag) {
    tag in {MeReceiverException, MeReceiverPowerOn, MeThermostatPowerOn, MeThermostatMode, MeThermostatSetpoint}
  }

  /** The tags whose branch requests a device update. */
  predicate UpdatesDevice(tag: Tag) {
    tag in {MeBoostPowerOn, MeBoostException, MeBoostBasicStatus, MeBoostPower, MeReceiverBasicStatus, WaterException}
  }

  /** The MeBoost exception code table, 0xFFF1 to 0xFFF5. */
  const BoostExceptionTable: map<int, string> := map[
    0xFFF1 := "device voltage abnormal.",
    0xFFF2 := "device current abnormal.",
    0xFFF3 := "device power abnormal.",
    0xFFF4 := "device temperature abnormal.",
    0xFFF5 := "device unknown error."
  ]

  /** The `switch` on an exception code (lines 195-216): unknown codes keep the empty text. */
  function BoostExceptionText(status: Value): (text: string)
    ensures text != "" <==> status.Num? && 0xFFF1 <= status.n <= 0xFFF5
    ensures text == (if status.Num? && status.n in BoostExceptionTable then BoostExceptionTable[status.n] else "")
  {
    match status
    case Num(0xFFF1) => "device voltage abnormal."
    case Num(0xFFF2) => "device current abnormal."
    case Num(0xFFF3) => "device power abnormal."
    case Num(0xFFF4) => "device temperature abnormal."
    case Num(0xFFF5) => "device unknown error."
    case _ => ""
  }

  /** The MeBoost basic-status code table, 0x0001 to 0x0005: switch value and description. */
  const BoostModeTable: map<int, (string, string)> := map[
    0x0001 := (On, "Device switch into ECO mode."),
    0x0002 := (On, "Device switch into MAN mode."),
    0x0003 := (On, "Device heating finish."),
    0x0004 := (Off, "Device heating off."),
    0x0005 := (On, "device power adjusting")
  ]

  /** The `switch` on a basic-status code (lines 247-277): the switch value and the description. */
  function BoostMode(status: Value): (r: (string, string))
    ensures r.0 == Off <==> status == Num(4)
    ensures r.0 == On <==> status.Num? && status.n in {1, 2, 3, 5}
    ensures r.0 == Err <==> !(status.Num? && 1 <= status.n <= 5)
    ensures r == (if status.Num? && status.n in BoostModeTable then BoostModeTable[status.n]
                  else (Err, "device exception!"))
  {
    match status
    case Num(0x0001) => (On, "Device switch into ECO mode.")
    case Num(0x0002) => (On, "Device switch into MAN mode.")
    case Num(0x0003) => (On, "Device heating finish.")
    case Num(0x0004) => (Off, "Device heating off.")
    case Num(0x0005) => (On, "device power adjusting")
    case _ => (Err, "device exception!")
  }

  /** Receiver type ids whose switch is off at status 256, 768 and 1792 respectively. */
  const ReceiverIds256: set<Value> := {Str("040B09050101"), Str("040B09050111"), Str("040B09050201")}
  const ReceiverIds768: set<Value> := {Str("040B09050102"), Str("040B09050112"), Str("040B09050202")}
  const ReceiverIds1792: set<Value> := {Str("040B09050103"), Str("040B09050113"), Str("040B09050203")}

  /** The off-status of a receiver type id (lines 320-349), if the type has a switch at all. */
  function ReceiverThreshold(typeId: Value): (r: Option<int>)
    ensures r == Some(256) <==> typeId in ReceiverIds256
    ensures r == Some(768) <==> typeId in ReceiverIds768
    ensures r == Some(1792) <==> typeId in ReceiverIds1792
    ensures r.None? <==> typeId !in ReceiverIds256 + ReceiverIds768 + ReceiverIds1792
  {
    if typeId == Str("040B09050101") || typeId == Str("040B09050111") || typeId == Str("040B09050201") then Some(256)
    else if typeId == Str("040B09050102") || typeId == Str("040B09050112") || typeId == Str("040B09050202") then Some(768)
    else if typeId == Str("040B09050103") || typeId == Str("040B09050113") || typeId == Str("040B09050203") then Some(1792)
    else None
  }

  /** The `status.switch` a receiver report sets, if any. */
  function ReceiverSwitch(typeId: Value, status: Value): (r: Option<string>)
    ensures r.None? <==> ReceiverThreshold(typeId).None?
    ensures r == Some(Off) <==> ReceiverThreshold(typeId).Some? && status == Num(ReceiverThreshold(typeId).value)
    ensures r == Some(On) <==> ReceiverThreshold(typeId).Some? && status != Num(ReceiverThreshold(typeId).value)
  {
    match ReceiverThreshold(typeId)
    case None => None
    case Some(t) => if status == Num(t) then Some(Off) else Some(On)
  }

  /** The water heater's heating text (lines 393-398). */
  function HeatingText(status: Value): (text: string)
    ensures text == "device start heating." <==> status == Num(2)
    ensures text == "device heating off." <==> status != Num(2)
  {
    if status == Num(2) then "device start heating." else "device heating off."
  }

  /** A `deviceUpdate` of the resolved device. */
  function UpdateOf(d: Device, fields: map<string, Value>): Update {
    Update(d.uuid, fields)
  }

  /** The chain of branches at lines 174-408. */
  function Rule(tag: Tag, data: Value, d: Device): (r: RuleOutcome)
    ensures r.NoRule? <==> HasNoRule(tag)
    ensures r.Throws? ==> tag == ControlUpdateNetwork
    ensures r.Fires? ==> (r.update.Some? <==> UpdatesDevice(tag))
    ensures r.Fires? ==> (r.audit.Some? <==> tag != ControlUpdateNetwork)
    ensures r.Fires? && r.update.Some? ==> r.update.value.uuid == d.uuid
    ensures r.Fires? && r.audit.Some? ==> DescribesDevice(r.audit.value, d) && r.audit.value.eventTag == tag
    ensures (r.Fires? || r.Throws?) && r.fanOut != [] ==> tag == ControlUpdateNetwork
  {
    var status := Get(data, "status");
    match tag
    case MeBoostPowerOn =>
      Fires(Some(UpdateOf(d, map["status.switch" := Str(On)])),
            Some(EventFor(d, tag, Text("device power on"))), [])
    case MeBoostException =>
      Fires(Some(UpdateOf(d, map["status.switch" := Str(Err)])),
            Some(EventFor(d, tag, Text(BoostExceptionText(status)))), [])
    case MeBoostBasicStatus =>
      var (switch, text) := BoostMode(status);
      Fires(Some(UpdateOf(d, map["extra.items.mode" := status, "status.switch" := Str(switch)])),
            Some(EventFor(d, tag, Text(text))), [])
    case MeBoostPower =>
      Fires(Some(UpdateOf(d, map["status.switch" := Str(On), "extra.items.power" := Get(data, "power")])),
            Some(EventFor(d, tag, Text(""))), [])
    case MeReceiverBasicStatus =>
      var fields := match ReceiverSwitch(d.typeId, status)
        case None => map["extra.items.status" := status]
        case Some(switch) => map["extra.items.status" := status, "status.switch" := Str(switch)];
      Fires(Some(UpdateOf(d, fields)), Some(EventFor(d, tag, PowerReportTo(status))), [])
    case ControlUpdateNetwork =>
      var network := Get(data, "network");
      if !network.Arr? then Fires(None, None, [])
      else
        var f := Tasks(network.items);
        if f.halted then Throws(f.tasks) else Fires(None, None, f.tasks)
    case WaterException =>
      Fires(Some(UpdateOf(d, map["status.switch" := Str(Err)])),
            Some(EventFor(d, tag, Verbatim(Get(data, "errorMSG")))), [])
    case WaterPowerStatus =>
      Fires(None, Some(EventFor(d, tag, DevicePower(Get(data, "power")))), [])
    case WaterHeatingStatus =>
      Fires(None, Some(EventFor(d, tag, Text(HeatingText(status)))), [])
    case WaterHeatingMode =>
      Fires(None, Some(EventFor(d, tag, SwitchIntoMode(Get(data, "heat_mode")))), [])
    case WaterUpdateNetwork =>
      Fires(None, Some(EventFor(d, tag, DeviceNetworkIs(Get(data, "network")))), [])
    case _ => NoRule
  }

  /**
   * MeBoost basic status: the update sets exactly the mode and the switch.
   * The mode is always the reported code, and the switch is ON for 1, 2, 3 and 5, OFF for 4 and ERR for anything else.
   */
  lemma BoostBasicStatusRule(data: Value, d: Device)
    ensures var r := Rule(MeBoostBasicStatus, data, d);
            var status := Get(data, "status");
            && r.Fires? && r.update.Some? && r.audit.Some?
            && r.update.value.fields.Keys == {"extra.items.mode", "status.switch"}
            && "extra.items.mode" in r.update.value.fields
            && r.update.value.fields["extra.items.mode"] == status
            && "status.switch" in r.update.value.fields
            && (r.update.value.fields["status.switch"] == Str(On) <==> status.Num? && status.n in {1, 2, 3, 5})
            && (r.update.value.fields["status.switch"] == Str(Off) <==> status == Num(4))
            && (r.update.value.fields["status.switch"] == Str(Err) <==> !(status.Num? && 1 <= status.n <= 5))
            && r.audit.value.eventDescription == Text(BoostMode(status).1)
  {
  }

  /** Basic status 0x0004: the heater is switched off. */
  lemma BoostHeatingOffExample(data: Value, d: Device)
    requires Get(data, "status") == Num(0x0004)
    ensures Rule(MeBoostBasicStatus, data, d)
         == Fires(Some(Update(d.uuid, map["extra.items.mode" := Num(4), "status.switch" := Str("OFF")])),
                  Some(EventFor(d, MeBoostBasicStatus, Text("Device heating off."))), [])
  {
  }

  /**
   * MeBoost power-on and power reports switch the device ON; exception
   * reports switch it to ERR and describe only the codes of the table.
   */
  lemma BoostPowerAndExceptionRules(data: Value, d: Device)
    ensures Rule(MeBoostPowerOn, data, d)
         == Fires(Some(Update(d.uuid, map["status.switch" := Str(On)])),
                  Some(EventFor(d, MeBoostPowerOn, Text("device power on"))), [])
    ensures Rule(MeBoostPower, data, d)
         == Fires(Some(Update(d.uuid, map["status.switch" := Str(On), "extra.items.power" := Get(data, "power")])),
                  Some(EventFor(d, MeBoostPower, Text(""))), [])
    ensures var r := Rule(MeBoostException, data, d);
            var status := Get(data, "status");
            && r.Fires? && r.update == Some(Update(d.uuid, map["status.switch" := Str(Err)]))
            && r.audit.Some?
            && r.audit.value.eventDescription == Text(BoostExceptionText(status))
            && (r.audit.value.eventDescription == Text("") <==> !(status.Num? && status.n in BoostExceptionTable))
  {
  }

  /**
   * Receiver basic status: the update sets the status and possibly the
   * switch, nothing else. The status is always stored and reported; the
   * switch is set only for the nine known type ids, OFF exactly at the
   * type's threshold.
   */
  lemma ReceiverBasicStatusRule(data: Value, d: Device)
    ensures var r := Rule(MeReceiverBasicStatus, data, d);
            var status := Get(data, "status");
            var fields := r.update.value.fields;
            && r.Fires? && r.update.Some? && r.audit.Some?
            && r.audit.value.eventDescription == PowerReportTo(status)
            && fields.Keys <= {"extra.items.status", "status.switch"}
            && "extra.items.status" in fields && fields["extra.items.status"] == status
            && ("status.switch" in fields <==> d.typeId in ReceiverIds256 + ReceiverIds768 + ReceiverIds1792)
            && (d.typeId in ReceiverIds256 ==> (fields["status.switch"] == Str(Off) <==> status == Num(256)))
            && (d.typeId in ReceiverIds768 ==> (fields["status.switch"] == Str(Off) <==> status == Num(768)))
            && (d.typeId in ReceiverIds1792 ==> (fields["status.switch"] == Str(Off) <==> status == Num(1792)))
            && ("status.switch" in fields ==> fields["status.switch"] in {Str(On), Str(Off)})
  {
  }

  /** YueDong water exception: the device switches to ERR and the error text is the description. */
  lemma WaterExceptionRule(data: Value, d: Device)
    ensures Rule(WaterException, data, d)
         == Fires(Some(Update(d.uuid, map["status.switch" := Str(Err)])),
                  Some(EventFor(d, WaterException, Verbatim(Get(data, "errorMSG")))), [])
  {
  }

  /** The YueDong heating text is "device start heating." exactly for status 2; no update is requested. */
  lemma WaterHeatingRule(data: Value, d: Device)
    ensures var r := Rule(WaterHeatingStatus, data, d);
            && r.Fires? && r.update.None? && r.audit.Some? && r.fanOut == []
            && (r.audit.value.eventDescription == Text("device start heating.") <==> Get(data, "status") == Num(2))
            && (r.audit.value.eventDescription == Text("device heating off.") <==> Get(data, "status") != Num(2))
  {
  }

  /** The YueDong power, mode and network reports publish an audit event and request no update. */
  lemma WaterReportRules(data: Value, d: Device)
    ensures Rule(WaterPowerStatus, data, d)
         == Fires(None, Some(EventFor(d, WaterPowerStatus, DevicePower(Get(data, "power")))), [])
    ensures Rule(WaterHeatingMode, data, d)
         == Fires(None, Some(EventFor(d, WaterHeatingMode, SwitchIntoMode(Get(data, "heat_mode")))), [])
    ensures Rule(WaterUpdateNetwork, data, d)
         == Fires(None, Some(EventFor(d, WaterUpdateNetwork, DeviceNetworkIs(Get(data, "network")))), [])
  {
  }

  /**
   * The control network report neither updates nor audits; an array
   * `network` starts one task per item, in order, unless an item is null or
   * undefined.
   */
  lemma ControlNetworkRule(data: Value, d: Device)
    ensures var r := Rule(ControlUpdateNetwork, data, d);
            var network := Get(data, "network");
            && (!network.Arr? ==> r == Fires(None, None, []))
            && (network.Arr? && !Tasks(network.items).halted ==>
                  r == Fires(None, None, Tasks(network.items).tasks)
                  && |r.fanOut| == |network.items|)
            && (network.Arr? && Tasks(network.items).halted ==> r == Throws(Tasks(network.items).tasks))
  {
  }
}
