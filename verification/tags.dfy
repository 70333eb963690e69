/**
 * Event tags: the names an inbound event carries in `eventTag`, and the
 * enumeration the `save` schema accepts (lib/me-event-source.js:16-32).
 */
module Tags {
  import opened Wrappers

  /** Every tag the event source knows, including the one with a rule but no schema entry. */
  datatype Tag =
    | MeBoostPowerOn
    | MeBoostBasicStatus
    | MeBoostPower
    | MeBoostException
    | MeReceiverException
    | MeReceiverPowerOn
    | MeReceiverBasicStatus
    | MeThermostatPowerOn
    | MeThermostatMode
    | MeThermostatSetpoint
    | ControlUpdateNetwork
    | WaterException
    | WaterPowerStatus
    | WaterHeatingStatus
    | WaterHeatingMode
    | WaterUpdateNetwork

  /** The wire name of a tag. */
  function Name(t: Tag): string {
    match t
    case MeBoostPowerOn => "EVENT_DEV_MEBOOST_POWERON_REPORT"
    case MeBoostBasicStatus => "EVENT_DEV_MEBOOST_BASIC_STATUS_REPORT"
    case MeBoostPower => "EVENT_DEV_MEBOOST_POWER_REPORT"
    case MeBoostException => "EVENT_DEV_MEBOOST_EXCEPTION_REPORT"
    case MeReceiverException => "EVENT_DEV_MERECEIVER_EXCEPTION_REPORT"
    case MeReceiverPowerOn => "EVENT_DEV_MERECEIVER_POWERON_REPORT"
    case MeReceiverBasicStatus => "EVENT_DEV_MERECEIVER_BASIC_STATUS_REPORT"
    case MeThermostatPowerOn => "EVENT_DEV_METHERMOSTAT_POWERON_REPORT"
    case MeThermostatMode => "EVENT_DEV_METHERMOSTAT_MODE_REPORT"
    case MeThermostatSetpoint => "EVENT_DEV_METHERMOSTAT_SETPOINT_REPORT"
    case ControlUpdateNetwork => "EVENT_CONTROL_UPDATE_NETWORK"
    case WaterException => "EVENT_DEV_YUEDONG_WATER_EXCEPTION_REPORT"
    case WaterPowerStatus => "EVENT_DEV_YUEDONG_WATER_POWER_STATUS_REPORT"
    case WaterHeatingStatus => "EVENT_DEV_YUEDONG_WATER_HEATING_STATUS_REPORT"
    case WaterHeatingMode => "EVENT_DEV_YUEDONG_WATER_HEATING_MODE_REPORT"
    case WaterUpdateNetwork => "EVENT_DEV_YUEDONG_WATER_UPDATE_NETWORK"
  }

  /** Recognises a wire name; `None` for any string that names no tag. */
  function Parse(s: string): (r: Option<Tag>)
    ensures r.Some? ==> Name(r.value) == s
    ensures r.None? ==> forall t :: Name(t) != s
  {
    if s == "EVENT_DEV_MEBOOST_POWERON_REPORT" then Some(MeBoostPowerOn)
    else if s == "EVENT_DEV_MEBOOST_BASIC_STATUS_REPORT" then Some(MeBoostBasicStatus)
    else if s == "EVENT_DEV_MEBOOST_POWER_REPORT" then Some(MeBoostPower)
    else if s == "EVENT_DEV_MEBOOST_EXCEPTION_REPORT" then Some(MeBoostException)
    else if s == "EVENT_DEV_MERECEIVER_EXCEPTION_REPORT" then Some(MeReceiverException)
    else if s == "EVENT_DEV_MERECEIVER_POWERON_REPORT" then Some(MeReceiverPowerOn)
    else if s == "EVENT_DEV_MERECEIVER_BASIC_STATUS_REPORT" then Some(MeReceiverBasicStatus)
    else if s == "EVENT_DEV_METHERMOSTAT_POWERON_REPORT" then Some(MeThermostatPowerOn)
    else if s == "EVENT_DEV_METHERMOSTAT_MODE_REPORT" then Some(MeThermostatMode)
    else if s == "EVENT_DEV_METHERMOSTAT_SETPOINT_REPORT" then Some(MeThermostatSetpoint)
    else if s == "EVENT_CONTROL_UPDATE_NETWORK" then Some(ControlUpdateNetwork)
    else if s == "EVENT_DEV_YUEDONG_WATER_EXCEPTION_REPORT" then Some(WaterException)
    else if s == "EVENT_DEV_YUEDONG_WATER_POWER_STATUS_REPORT" then Some(WaterPowerStatus)
    else if s == "EVENT_DEV_YUEDONG_WATER_HEATING_STATUS_REPORT" then Some(WaterHeatingStatus)
    else if s == "EVENT_DEV_YUEDONG_WATER_HEATING_MODE_REPORT" then Some(WaterHeatingMode)
    else if s == "EVENT_DEV_YUEDONG_WATER_UPDATE_NETWORK" then Some(WaterUpdateNetwork)
    else None
  }

  /** The `enum` of the `save` schema, in the order it is declared. */
  const SchemaEnum: seq<string> := [
    "EVENT_DEV_MEBOOST_POWERON_REPORT",
    "EVENT_DEV_MEBOOST_BASIC_STATUS_REPORT",
    "EVENT_DEV_MEBOOST_POWER_REPORT",
    "EVENT_DEV_MERECEIVER_EXCEPTION_REPORT",
    "EVENT_DEV_MERECEIVER_POWERON_REPORT",
    "EVENT_DEV_MERECEIVER_BASIC_STATUS_REPORT",
    "EVENT_DEV_METHERMOSTAT_POWERON_REPORT",
    "EVENT_DEV_METHERMOSTAT_MODE_REPORT",
    "EVENT_DEV_METHERMOSTAT_SETPOINT_REPORT",
    "EVENT_CONTROL_UPDATE_NETWORK",
    "EVENT_DEV_YUEDONG_WATER_EXCEPTION_REPORT",
    "EVENT_DEV_YUEDONG_WATER_POWER_STATUS_REPORT",
    "EVENT_DEV_YUEDONG_WATER_HEATING_STATUS_REPORT",
    "EVENT_DEV_YUEDONG_WATER_HEATING_MODE_REPORT",
    "EVENT_DEV_YUEDONG_WATER_UPDATE_NETWORK"
  ]

  /** Tags the schema lets through: all but the MeBoost exception report. */
  predicate Registered(t: Tag) {
    t != MeBoostException
  }

  /** The MeBoost exception report has a rule but no place in the schema. */
  lemma BoostExceptionOutsideSchema()
    ensures Name(MeBoostException) !in SchemaEnum
  {
  }

  /** The schema enumeration holds exactly the wire names of the registered tags. */
  lemma SchemaEnumIsRegistered(s: string)
    ensures s in SchemaEnum <==> Parse(s).Some? && Registered(Parse(s).value)
  {
  }
}
