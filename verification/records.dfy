/** The records the bridge reads from the thermostat, the records it keeps in
    its state cache, and the records it exports to the web layer. */
module Records {
  import opened Bytes

  datatype Option<+T> = None | Some(value: T)

  /** The fields of the thermostat's zone-parameters register block that
      the bridge uses. */
  datatype TStatZoneParams = TStatZoneParams(
    z1FanMode: byte,
    zoneHold: byte,
    z1HeatSetpoint: byte,
    z1CoolSetpoint: byte)

  /** The fields of the thermostat's current-parameters register block that
      the bridge uses. */
  datatype TStatCurrentParams = TStatCurrentParams(
    z1CurrentTemp: byte,
    z1CurrentHumidity: byte,
    outdoorAirTemp: byte,
    mode: byte)

  /** The thermostat configuration built from both register blocks. `hold`
      stands for the source's `*bool`: None is a nil pointer. */
  datatype TStatZoneConfig = TStatZoneConfig(
    currentTemp: byte,
    currentHumidity: byte,
    outdoorTemp: byte,
    mode: string,
    stage: byte,
    fanMode: string,
    hold: Option<bool>,
    heatSetpoint: byte,
    coolSetpoint: byte,
    rawMode: byte)

  datatype AirHandlerBlower = AirHandlerBlower(blowerRPM: uint16)

  datatype AirHandlerDuct = AirHandlerDuct(airFlowCFM: uint16, elecHeat: bool)

  datatype AirHandlerData = AirHandlerData(blowerRPM: uint16, airFlowCFM: uint16, elecHeat: bool)

  /** Heat-pump temperatures, kept as the raw 16-bit wire values; the
      temperature in degrees is `Degrees` of each. */
  datatype HeatPump = HeatPump(coilTemp: uint16, outsideTemp: uint16)

  datatype HeatPumpStage = HeatPumpStage(stage: byte)

  datatype HeatPumpData = HeatPumpData(coilTemp: uint16, outsideTemp: uint16, stage: byte)

  /** A value held by the state cache: one case per record type stored. */
  datatype Record =
    | TStat(config: TStatZoneConfig)
    | Blower(blower: AirHandlerBlower)
    | Duct(duct: AirHandlerDuct)
    | HeatPumpTemps(heatPump: HeatPump)
    | HeatPumpStageRec(heatPumpStage: HeatPumpStage)

  /** The last-value-wins state cache, keyed by logical name. */
  type Cache = map<string, Record>

  const TStatKey: string := "tstat"
  const BlowerKey: string := "blower"
  const DuctKey: string := "duct"
  const HeatPumpKey: string := "heatpump"
  const HeatPumpStageKey: string := "heatpumpstage"

  /** The cache lookup: the last value written under `key`, or None if the
      key was never written. */
  function Get(c: Cache, key: string): (r: Option<Record>)
    ensures r.Some? <==> key in c
    ensures r.Some? ==> r.value == c[key]
  {
    if key in c then Some(c[key]) else None
  }

  /** Each key the bridge writes holds only the record type written under it,
      so the type assertions of the export functions fail only on absence. */
  ghost predicate WellTyped(c: Cache) {
    && (TStatKey in c ==> c[TStatKey].TStat?)
    && (BlowerKey in c ==> c[BlowerKey].Blower?)
    && (DuctKey in c ==> c[DuctKey].Duct?)
    && (HeatPumpKey in c ==> c[HeatPumpKey].HeatPumpTemps?)
    && (HeatPumpStageKey in c ==> c[HeatPumpStageKey].HeatPumpStageRec?)
  }

  /** A raw temperature in sixteenths of a degree, in degrees. The source
      converts to float32 and divides by 16; for a 16-bit raw value both steps
      are exact in float32, so the real quotient is the same number. */
  function Degrees(raw: uint16): (t: real)
    ensures t * 16.0 == raw as real
    ensures 0.0 <= t < 4096.0
  {
    raw as real / 16.0
  }
}
