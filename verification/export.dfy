/** The state exported to the web layer: air-handler and heat-pump data, each
    composed from two cache entries and absent until both have been written. */
module Export {
  import opened Bytes
  import opened Records
  import opened Snoop

  /** Blower RPM and duct report together; absent unless "blower" holds a
      blower record and "duct" holds a duct record. */
  function FanCoil(c: Cache): (r: Option<AirHandlerData>)
    ensures r.Some? <==> BlowerKey in c && c[BlowerKey].Blower? && DuctKey in c && c[DuctKey].Duct?
    ensures r.Some? ==>
      && r.value.blowerRPM == c[BlowerKey].blower.blowerRPM
      && r.value.airFlowCFM == c[DuctKey].duct.airFlowCFM
      && r.value.elecHeat == c[DuctKey].duct.elecHeat
  {
    match Get(c, BlowerKey)
    case Some(Blower(tb)) =>
      (match Get(c, DuctKey)
       case Some(Duct(td)) => Some(AirHandlerData(tb.blowerRPM, td.airFlowCFM, td.elecHeat))
       case _ => None)
    case _ => None
  }

  /** Heat-pump temperatures and stage together; absent unless "heatpump"
      holds a temperature record and "heatpumpstage" a stage record. */
  function HeatPumpState(c: Cache): (r: Option<HeatPumpData>)
    ensures r.Some? <==>
      HeatPumpKey in c && c[HeatPumpKey].HeatPumpTemps?
      && HeatPumpStageKey in c && c[HeatPumpStageKey].HeatPumpStageRec?
    ensures r.Some? ==>
      && r.value.coilTemp == c[HeatPumpKey].heatPump.coilTemp
      && r.value.outsideTemp == c[HeatPumpKey].heatPump.outsideTemp
      && r.value.stage == c[HeatPumpStageKey].heatPumpStage.stage
  {
    match Get(c, HeatPumpKey)
    case Some(HeatPumpTemps(tp)) =>
      (match Get(c, HeatPumpStageKey)
       case Some(HeatPumpStageRec(ts)) => Some(HeatPumpData(tp.coilTemp, tp.outsideTemp, ts.stage))
       case _ => None)
    case _ => None
  }

  /** FanCoil depends on the "blower" and "duct" entries alone. */
  lemma FanCoilReadsOnlyItsKeys(c: Cache, c': Cache)
    requires Get(c, BlowerKey) == Get(c', BlowerKey) && Get(c, DuctKey) == Get(c', DuctKey)
    ensures FanCoil(c) == FanCoil(c')
  {
  }

  /** HeatPumpState depends on the "heatpump" and "heatpumpstage" entries alone. */
  lemma HeatPumpStateReadsOnlyItsKeys(c: Cache, c': Cache)
    requires Get(c, HeatPumpKey) == Get(c', HeatPumpKey)
    requires Get(c, HeatPumpStageKey) == Get(c', HeatPumpStageKey)
    ensures HeatPumpState(c) == HeatPumpState(c')
  {
  }

  /** In a well-typed cache an export is absent exactly while one of its two
      keys has never been written. */
  lemma ExportsPresentOnceWritten(c: Cache)
    requires WellTyped(c)
    ensures FanCoil(c).Some? <==> BlowerKey in c && DuctKey in c
    ensures HeatPumpState(c).Some? <==> HeatPumpKey in c && HeatPumpStageKey in c
  {
  }

  /** A blower report followed by a duct report makes the air-handler data
      present, carrying the values on the wire, whatever the cache held. */
  lemma FanCoilAfterReports(c: Cache, b: AirHandlerBlower, d: AirHandlerDuct, addr1: int, addr2: int)
    requires InWindow(addr1, AirHandlerWindow) && InWindow(addr2, AirHandlerWindow)
    ensures Readable(Frame(addr1, BlowerFrame(b))) && Readable(Frame(addr2, DuctFrame(d)))
    ensures FanCoil(SnoopFrame(SnoopFrame(c, Frame(addr1, BlowerFrame(b))), Frame(addr2, DuctFrame(d))))
      == Some(AirHandlerData(b.blowerRPM, d.airFlowCFM, d.elecHeat))
  {
    WindowsDisjoint(addr1);
    WindowsDisjoint(addr2);
    BlowerRoundTrip(b);
    DuctRoundTrip(d);
  }

  /** A temperature report followed by a stage report makes the heat-pump data
      present, carrying the values on the wire, whatever the cache held. */
  lemma HeatPumpAfterReports(c: Cache, h: HeatPump, s: byte, addr1: int, addr2: int)
    requires InWindow(addr1, HeatPumpWindow) && InWindow(addr2, HeatPumpWindow)
    requires s <= 127
    ensures Readable(Frame(addr1, HeatPumpTempFrame(h))) && Readable(Frame(addr2, HeatPumpStageFrame(s)))
    ensures HeatPumpState(SnoopFrame(SnoopFrame(c, Frame(addr1, HeatPumpTempFrame(h))), Frame(addr2, HeatPumpStageFrame(s))))
      == Some(HeatPumpData(h.coilTemp, h.outsideTemp, s))
  {
    WindowsDisjoint(addr1);
    WindowsDisjoint(addr2);
    HeatPumpTempRoundTrip(h);
    HeatPumpStageRoundTrip(s);
  }

  /** Once present, both exports stay present however many frames are
      snooped afterwards: entries are replaced, never removed or retyped. */
  lemma ExportsStayPresent(c: Cache, fs: seq<Frame>)
    requires WellTyped(c) && AllReadable(fs)
    ensures FanCoil(c).Some? ==> FanCoil(SnoopFrames(c, fs)).Some?
    ensures HeatPumpState(c).Some? ==> HeatPumpState(SnoopFrames(c, fs)).Some?
  {
    SnoopFramesGrowWellTyped(c, fs);
    ExportsPresentOnceWritten(c);
    ExportsPresentOnceWritten(SnoopFrames(c, fs));
  }
}
