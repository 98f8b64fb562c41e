/** Reading the thermostat: two register-block transactions combined into one
    TStatZoneConfig, with the bit-packed mode byte and hold byte decoded. */
module Thermostat {
  import opened Bytes
  import opened Records

  /** Low nibble of the mode byte: the operating-mode code. */
  const ModeMask: byte := 0x0f
  /** Bits 5 to 7 of the mode byte: the active stage. */
  const StageShift: bv8 := 5
  /** Bit 0 of the zone-hold byte: hold is on. */
  const HoldMask: byte := 0x01

  /** The operating-mode code: the mode byte modulo 16. */
  function ModeNibble(m: byte): (n: byte)
    ensures n as int == m as int % 16
    ensures n <= 15
  {
    m & ModeMask
  }

  /** The active stage: the mode byte's top three bits, so at most 7. */
  function StageOf(m: byte): (s: byte)
    ensures s as int == m as int / 32
    ensures s <= 7
  {
    m >> StageShift
  }

  /** Whether hold is on: exactly when the zone-hold byte is odd. */
  function HoldOf(zoneHold: byte): (h: bool)
    ensures h <==> zoneHold as int % 2 == 1
  {
    zoneHold & HoldMask == 1
  }

  /** The mode byte is fully recovered from the stage, bit 4 and the mode
      code. Bit 4 is carried by neither the mode code nor the stage; it
      reaches the caller only through the raw mode byte. */
  lemma ModeByteSplit(m: byte)
    ensures (StageOf(m) << StageShift) | (m & 0x10) | ModeNibble(m) == m
  {
  }

  /** Mode byte 0x25 decodes to mode code 5 and stage 1. */
  lemma ModeByteExample()
    ensures ModeNibble(0x25) == 0x5 && StageOf(0x25) == 1
  {
  }

  /** What every configuration built by DecodeConfig satisfies: the stage and
      mode name agree with the raw mode byte, and hold is present. */
  ghost predicate Consistent(c: TStatZoneConfig, modeName: byte -> string) {
    && c.stage == StageOf(c.rawMode)
    && c.mode == modeName(ModeNibble(c.rawMode))
    && c.hold.Some?
  }

  /** The configuration built from the two register blocks. `modeName` and
      `fanModeName` stand for the source's rawModeToString and
      rawFanModeToString, which are not part of this model. */
  function DecodeConfig(
    cfg: TStatZoneParams, params: TStatCurrentParams,
    modeName: byte -> string, fanModeName: byte -> string): (c: TStatZoneConfig)
    ensures Consistent(c, modeName)
    ensures c.rawMode == params.mode
    ensures c.stage as int == params.mode as int / 32 && c.stage <= 7
    ensures c.hold == Some(cfg.zoneHold as int % 2 == 1)
    ensures c.fanMode == fanModeName(cfg.z1FanMode)
    ensures c.heatSetpoint == cfg.z1HeatSetpoint && c.coolSetpoint == cfg.z1CoolSetpoint
    ensures c.currentTemp == params.z1CurrentTemp
    ensures c.currentHumidity == params.z1CurrentHumidity
    ensures c.outdoorTemp == params.outdoorAirTemp
  {
    TStatZoneConfig(
      currentTemp := params.z1CurrentTemp,
      currentHumidity := params.z1CurrentHumidity,
      outdoorTemp := params.outdoorAirTemp,
      mode := modeName(ModeNibble(params.mode)),
      stage := StageOf(params.mode),
      fanMode := fanModeName(cfg.z1FanMode),
      hold := Some(HoldOf(cfg.zoneHold)),
      heatSetpoint := cfg.z1HeatSetpoint,
      coolSetpoint := cfg.z1CoolSetpoint,
      rawMode := params.mode)
  }

  /** Two pairs of register blocks that agree on every field read, the
      zone-hold bytes only in bit 0, decode to the same configuration,
      whatever the two namings are. */
  lemma DecodeConfigAgreement(
    cfg: TStatZoneParams, params: TStatCurrentParams,
    cfg': TStatZoneParams, params': TStatCurrentParams,
    modeName: byte -> string, fanModeName: byte -> string)
    requires params == params' && cfg.z1FanMode == cfg'.z1FanMode
    requires cfg.z1HeatSetpoint == cfg'.z1HeatSetpoint && cfg.z1CoolSetpoint == cfg'.z1CoolSetpoint
    requires HoldOf(cfg.zoneHold) == HoldOf(cfg'.zoneHold)
    ensures DecodeConfig(cfg, params, modeName, fanModeName) == DecodeConfig(cfg', params', modeName, fanModeName)
  {
  }

  /** The converse needs an injective fan-mode naming (a property of
      rawFanModeToString, which is not part of this model): then two pairs
      of register blocks decode to the same configuration exactly when they
      agree on every field read, the zone-hold bytes only in bit 0. */
  lemma DecodeConfigInjective(
    cfg: TStatZoneParams, params: TStatCurrentParams,
    cfg': TStatZoneParams, params': TStatCurrentParams,
    modeName: byte -> string, fanModeName: byte -> string)
    requires forall a, b :: fanModeName(a) == fanModeName(b) ==> a == b
    ensures DecodeConfig(cfg, params, modeName, fanModeName) == DecodeConfig(cfg', params', modeName, fanModeName)
        <==> params == params' && cfg.z1FanMode == cfg'.z1FanMode
             && cfg.z1HeatSetpoint == cfg'.z1HeatSetpoint && cfg.z1CoolSetpoint == cfg'.z1CoolSetpoint
             && HoldOf(cfg.zoneHold) == HoldOf(cfg'.zoneHold)
  {
  }

  /** The register blocks a thermostat read can ask for. */
  datatype Table = ZoneParamsTable | CurrentParamsTable

  /** The transaction side of the bus, as seen by the poller: each read either
      returns its register block or fails (timeout, bad response), and every
      read issued is logged in order. */
  class Bus {
    var requests: seq<Table>
    var zoneReply: Option<TStatZoneParams>
    var currentReply: Option<TStatCurrentParams>

    constructor (zoneReply: Option<TStatZoneParams>, currentReply: Option<TStatCurrentParams>)
      ensures this.zoneReply == zoneReply && this.currentReply == currentReply
      ensures requests == []
    {
      this.zoneReply := zoneReply;
      this.currentReply := currentReply;
      requests := [];
    }

    method ReadZoneParams() returns (r: Option<TStatZoneParams>)
      modifies this`requests
      ensures requests == old(requests) + [ZoneParamsTable]
      ensures r == zoneReply
    {
      requests := requests + [ZoneParamsTable];
      r := zoneReply;
    }

    method ReadCurrentParams() returns (r: Option<TStatCurrentParams>)
      modifies this`requests
      ensures requests == old(requests) + [CurrentParamsTable]
      ensures r == currentReply
    {
      requests := requests + [CurrentParamsTable];
      r := currentReply;
    }
  }

  /** Reads zone parameters, then current parameters, and decodes them.
      Fails when either read fails; when the first fails, the second is
      never issued. */
  method GetConfig(bus: Bus, modeName: byte -> string, fanModeName: byte -> string)
    returns (c: Option<TStatZoneConfig>)
    modifies bus`requests
    ensures bus.requests == old(bus.requests)
      + (if bus.zoneReply.None? then [ZoneParamsTable] else [ZoneParamsTable, CurrentParamsTable])
    ensures c.Some? <==> bus.zoneReply.Some? && bus.currentReply.Some?
    ensures c.Some? ==>
      c.value == DecodeConfig(bus.zoneReply.value, bus.currentReply.value, modeName, fanModeName)
  {
    var cfg := bus.ReadZoneParams();
    if cfg.None? {
      return None;
    }
    var params := bus.ReadCurrentParams();
    if params.None? {
      return None;
    }
    c := Some(DecodeConfig(cfg.value, params.value, modeName, fanModeName));
  }
}
