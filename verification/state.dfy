/** The bridge's shared state: the state cache, written by the two snoop
    handlers on the read thread and by the thermostat poller. */
module State {
  import opened Bytes
  import opened Records
  import opened Thermostat
  import opened Snoop

  class Bridge {
    /** The last-value-wins state cache. */
    var cache: Cache

    ghost predicate Valid()
      reads this
    {
      WellTyped(cache)
    }

    constructor ()
      ensures Valid() && cache == map[]
    {
      cache := map[];
    }

    /** The cache update: `rec` replaces whatever `key` held. */
    method Update(key: string, rec: Record)
      requires Valid() && WellTyped(cache[key := rec])
      modifies this
      ensures Valid()
      ensures cache == old(cache)[key := rec]
    {
      cache := cache[key := rec];
    }

    /** The heat-pump snoop handler: decode the payload and, for a
        temperature or stage report, write its one key. */
    method OnHeatPumpFrame(data: seq<byte>)
      requires Valid() && HeatPumpReadable(data)
      modifies this
      ensures Valid()
      ensures cache == Apply(old(cache), HeatPumpReport(data))
      ensures forall k :: k != HeatPumpKey && k != HeatPumpStageKey ==> Get(cache, k) == Get(old(cache), k)
    {
      var w := HeatPumpReport(data);
      if w.Some? {
        Update(w.value.key, w.value.rec);
      }
    }

    /** The air-handler snoop handler: decode the payload and, for a blower
        or duct report, write its one key. */
    method OnAirHandlerFrame(data: seq<byte>)
      requires Valid() && AirHandlerReadable(data)
      modifies this
      ensures Valid()
      ensures cache == Apply(old(cache), AirHandlerReport(data))
      ensures forall k :: k != BlowerKey && k != DuctKey ==> Get(cache, k) == Get(old(cache), k)
    {
      var w := AirHandlerReport(data);
      if w.Some? {
        Update(w.value.key, w.value.rec);
      }
    }

    /** Dispatch of one observed frame to every handler whose window holds
        its address, in registration order: heat pump, then air handler. */
    method OnFrame(f: Frame)
      requires Valid() && Readable(f)
      modifies this
      ensures Valid()
      ensures cache == SnoopFrame(old(cache), f)
    {
      if InWindow(f.addr, HeatPumpWindow) {
        OnHeatPumpFrame(f.data);
      }
      if InWindow(f.addr, AirHandlerWindow) {
        OnAirHandlerFrame(f.data);
      }
    }

    /** One cycle of the poller: read the thermostat configuration and, only
        if both reads succeed, write it under "tstat". */
    method PollStep(bus: Bus, modeName: byte -> string, fanModeName: byte -> string)
      requires Valid()
      modifies this, bus`requests
      ensures Valid()
      ensures bus.requests == old(bus.requests)
        + (if bus.zoneReply.None? then [ZoneParamsTable] else [ZoneParamsTable, CurrentParamsTable])
      ensures bus.zoneReply.Some? && bus.currentReply.Some? ==>
        cache == old(cache)[TStatKey := TStat(DecodeConfig(bus.zoneReply.value, bus.currentReply.value, modeName, fanModeName))]
      ensures bus.zoneReply.None? || bus.currentReply.None? ==> cache == old(cache)
    {
      var c := GetConfig(bus, modeName, fanModeName);
      if c.Some? {
        Update(TStatKey, TStat(c.value));
      }
    }
  }
}
