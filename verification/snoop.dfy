/** The two passive snoop handlers: each decodes the reports seen in its
    address window from a 3-byte discriminator and fixed payload offsets,
    and writes one record under one cache key. */
module Snoop {
  import opened Bytes
  import opened Records

  /** An inclusive window of bus addresses a handler is registered for. */
  datatype Window = Window(low: int, high: int)

  predicate InWindow(addr: int, w: Window) {
    w.low <= addr <= w.high
  }

  const HeatPumpWindow: Window := Window(0x5000, 0x51ff)
  const AirHandlerWindow: Window := Window(0x4000, 0x42ff)

  /** No address lies in both windows, so a frame reaches at most one handler. */
  lemma WindowsDisjoint(addr: int)
    ensures !(InWindow(addr, HeatPumpWindow) && InWindow(addr, AirHandlerWindow))
  {
  }

  const HeatPumpTempPrefix: seq<byte> := [0x00, 0x3e, 0x01]
  const HeatPumpStagePrefix: seq<byte> := [0x00, 0x3e, 0x02]
  const BlowerPrefix: seq<byte> := [0x00, 0x03, 0x06]
  const DuctPrefix: seq<byte> := [0x00, 0x03, 0x16]

  /** Status bits of the duct report that flag electric heat. */
  const ElecHeatMask: byte := 0x03

  /** The keys the snoop handlers write. */
  const SnoopKeys: set<string> := {HeatPumpKey, HeatPumpStageKey, BlowerKey, DuctKey}

  /** One cache update: `rec` replaces whatever `key` held. */
  datatype Write = Write(key: string, rec: Record)

  /** The cache after an optional update. */
  function Apply(c: Cache, w: Option<Write>): (c': Cache)
    ensures w.Some? ==> w.value.key in c' && c'[w.value.key] == w.value.rec
    ensures forall k :: (w.None? || k != w.value.key) ==> Get(c', k) == Get(c, k)
    ensures c'.Keys == c.Keys + (if w.Some? then {w.value.key} else {})
  {
    if w.Some? then c[w.value.key := w.value.rec] else c
  }

  /** Payloads the heat-pump handler reads without running off the end: a
      discriminator, and every byte the report it selects reads. */
  predicate HeatPumpReadable(data: seq<byte>) {
    && |data| >= 3
    && (data[..3] == HeatPumpTempPrefix ==> |data| >= 7)
    && (data[..3] == HeatPumpStagePrefix ==> |data| >= 4)
  }

  /** The update the heat-pump handler makes for a payload: outside and coil
      temperatures (raw sixteenths) from a temperature report, the stage from
      a stage report, nothing for any other discriminator. */
  function HeatPumpReport(data: seq<byte>): (w: Option<Write>)
    requires HeatPumpReadable(data)
    ensures w.None? <==> data[..3] != HeatPumpTempPrefix && data[..3] != HeatPumpStagePrefix
    ensures data[..3] == HeatPumpTempPrefix ==>
      && w.Some? && w.value.key == HeatPumpKey && w.value.rec.HeatPumpTemps?
      && w.value.rec.heatPump.outsideTemp == data[3] as int * 256 + data[4] as int
      && w.value.rec.heatPump.coilTemp == data[5] as int * 256 + data[6] as int
    ensures data[..3] == HeatPumpStagePrefix ==>
      && w.Some? && w.value.key == HeatPumpStageKey && w.value.rec.HeatPumpStageRec?
      && w.value.rec.heatPumpStage.stage as int == data[3] as int / 2
      && w.value.rec.heatPumpStage.stage <= 127
  {
    var body := data[3..];
    if data[..3] == HeatPumpTempPrefix then
      var coil := BigEndianUint16(body[2..4]);
      var outside := BigEndianUint16(body[0..2]);
      Some(Write(HeatPumpKey, HeatPumpTemps(HeatPump(coilTemp := coil, outsideTemp := outside))))
    else if data[..3] == HeatPumpStagePrefix then
      Some(Write(HeatPumpStageKey, HeatPumpStageRec(HeatPumpStage(body[0] >> 1))))
    else
      None
  }

  /** Payloads the air-handler handler reads without running off the end.
      The bounds are those of the slices the handler takes (`data[1:5]`,
      `data[4:8]` after the discriminator), which reach past the two bytes
      each 16-bit read uses. */
  predicate AirHandlerReadable(data: seq<byte>) {
    && |data| >= 3
    && (data[..3] == BlowerPrefix ==> |data| >= 8)
    && (data[..3] == DuctPrefix ==> |data| >= 11)
  }

  /** The update the air-handler handler makes for a payload: blower RPM from
      a blower report, airflow and the electric-heat flag from a duct report,
      nothing for any other discriminator. */
  function AirHandlerReport(data: seq<byte>): (w: Option<Write>)
    requires AirHandlerReadable(data)
    ensures w.None? <==> data[..3] != BlowerPrefix && data[..3] != DuctPrefix
    ensures data[..3] == BlowerPrefix ==>
      && w.Some? && w.value.key == BlowerKey && w.value.rec.Blower?
      && w.value.rec.blower.blowerRPM == data[4] as int * 256 + data[5] as int
    ensures data[..3] == DuctPrefix ==>
      && w.Some? && w.value.key == DuctKey && w.value.rec.Duct?
      && w.value.rec.duct.airFlowCFM == data[7] as int * 256 + data[8] as int
      && (w.value.rec.duct.elecHeat <==> data[3] as int % 4 != 0)
  {
    var body := data[3..];
    if data[..3] == BlowerPrefix then
      Some(Write(BlowerKey, Blower(AirHandlerBlower(BigEndianUint16(body[1..5])))))
    else if data[..3] == DuctPrefix then
      var airFlow := BigEndianUint16(body[4..8]);
      var elecHeat := body[0] & ElecHeatMask != 0;
      Some(Write(DuctKey, Duct(AirHandlerDuct(airFlow, elecHeat))))
    else
      None
  }

  /** A frame as the snoop dispatcher sees it: the address matched against
      the windows, and the payload. */
  datatype Frame = Frame(addr: int, data: seq<byte>)

  /** Every handler the frame reaches can read its payload. */
  predicate Readable(f: Frame) {
    && (InWindow(f.addr, HeatPumpWindow) ==> HeatPumpReadable(f.data))
    && (InWindow(f.addr, AirHandlerWindow) ==> AirHandlerReadable(f.data))
  }

  /** The cache after one observed frame: each handler whose window holds the
      frame's address runs, in the order they were registered. */
  function SnoopFrame(c: Cache, f: Frame): (c': Cache)
    requires Readable(f)
    ensures forall k :: k !in SnoopKeys ==> Get(c', k) == Get(c, k)
    ensures c.Keys <= c'.Keys
    ensures WellTyped(c) ==> WellTyped(c')
    ensures !InWindow(f.addr, HeatPumpWindow) && !InWindow(f.addr, AirHandlerWindow) ==> c' == c
  {
    var c1 := if InWindow(f.addr, HeatPumpWindow) then Apply(c, HeatPumpReport(f.data)) else c;
    if InWindow(f.addr, AirHandlerWindow) then Apply(c1, AirHandlerReport(f.data)) else c1
  }

  /** A frame whose discriminator is none of the four known ones changes no
      cache entry, whichever window it is in. */
  lemma UnknownReportIgnored(c: Cache, f: Frame)
    requires |f.data| >= 3
    requires f.data[..3] != HeatPumpTempPrefix && f.data[..3] != HeatPumpStagePrefix
    requires f.data[..3] != BlowerPrefix && f.data[..3] != DuctPrefix
    ensures Readable(f) && SnoopFrame(c, f) == c
  {
  }

  predicate AllReadable(fs: seq<Frame>) {
    forall i :: 0 <= i < |fs| ==> Readable(fs[i])
  }

  /** Dropping the first frame of a readable stream leaves a readable stream. */
  lemma AllReadableTail(fs: seq<Frame>)
    requires fs != [] && AllReadable(fs)
    ensures AllReadable(fs[1..])
  {
    forall i | 0 <= i < |fs[1..]| ensures Readable(fs[1..][i]) {
      assert fs[1..][i] == fs[i + 1];
    }
  }

  /** The cache after a stream of observed frames, handled in arrival order. */
  function SnoopFrames(c: Cache, fs: seq<Frame>): Cache
    requires AllReadable(fs)
    decreases |fs|
  {
    if fs == [] then c else SnoopFrames(SnoopFrame(c, fs[0]), fs[1..])
  }

  /** However many frames are snooped, keys outside the snoop keys (the
      poller's "tstat" among them) keep their value or their absence. */
  lemma {:induction false} SnoopFramesOnlySnoopKeys(c: Cache, fs: seq<Frame>, k: string)
    requires AllReadable(fs)
    requires k !in SnoopKeys
    ensures Get(SnoopFrames(c, fs), k) == Get(c, k)
    decreases |fs|
  {
    if fs != [] {
      AllReadableTail(fs);
      SnoopFramesOnlySnoopKeys(SnoopFrame(c, fs[0]), fs[1..], k);
    }
  }

  /** Snooping never removes a key and never stores a record of the wrong
      type under a key. */
  lemma {:induction false} SnoopFramesGrowWellTyped(c: Cache, fs: seq<Frame>)
    requires AllReadable(fs)
    ensures c.Keys <= SnoopFrames(c, fs).Keys
    ensures WellTyped(c) ==> WellTyped(SnoopFrames(c, fs))
    decreases |fs|
  {
    if fs != [] {
      AllReadableTail(fs);
      SnoopFramesGrowWellTyped(SnoopFrame(c, fs[0]), fs[1..]);
    }
  }

  /** The poller's write and a snooped frame touch different keys, so their
      order does not matter. */
  lemma PollAndSnoopCommute(c: Cache, cfg: TStatZoneConfig, f: Frame)
    requires Readable(f)
    ensures SnoopFrame(c[TStatKey := TStat(cfg)], f) == SnoopFrame(c, f)[TStatKey := TStat(cfg)]
  {
  }

  // Reference encoders: the reports as a device would put them on the wire.

  /** A heat-pump temperature report: outside temperature, then coil
      temperature, each big-endian. */
  function HeatPumpTempFrame(h: HeatPump): (data: seq<byte>)
    ensures |data| == 7 && data[..3] == HeatPumpTempPrefix
  {
    HeatPumpTempPrefix + PutUint16(h.outsideTemp) + PutUint16(h.coilTemp)
  }

  lemma HeatPumpTempRoundTrip(h: HeatPump)
    ensures HeatPumpReadable(HeatPumpTempFrame(h))
    ensures HeatPumpReport(HeatPumpTempFrame(h)) == Some(Write(HeatPumpKey, HeatPumpTemps(h)))
  {
    var data := HeatPumpTempFrame(h);
    assert data[3..5] == PutUint16(h.outsideTemp);
    assert data[5..7] == PutUint16(h.coilTemp);
    PutThenRead(h.outsideTemp);
    PutThenRead(h.coilTemp);
  }

  /** Every byte the temperature report reads is determined by the record it
      decodes to. */
  lemma HeatPumpTempFrameOf(data: seq<byte>)
    requires HeatPumpReadable(data) && data[..3] == HeatPumpTempPrefix
    ensures HeatPumpTempFrame(HeatPumpReport(data).value.rec.heatPump) == data[..7]
  {
    ReadThenPut(data[3..5]);
    ReadThenPut(data[5..7]);
    assert data[..7] == data[..3] + data[3..5] + data[5..7];
  }

  /** A heat-pump stage report: the stage in bits 1 to 7 of the status byte. */
  function HeatPumpStageFrame(s: byte): (data: seq<byte>)
    requires s <= 127
    ensures |data| == 4 && data[..3] == HeatPumpStagePrefix
  {
    HeatPumpStagePrefix + [s << 1]
  }

  lemma HeatPumpStageRoundTrip(s: byte)
    requires s <= 127
    ensures HeatPumpReadable(HeatPumpStageFrame(s))
    ensures HeatPumpReport(HeatPumpStageFrame(s)) == Some(Write(HeatPumpStageKey, HeatPumpStageRec(HeatPumpStage(s))))
  {
  }

  /** The stage report reads all of the status byte except bit 0. */
  lemma HeatPumpStageFrameOf(data: seq<byte>)
    requires HeatPumpReadable(data) && data[..3] == HeatPumpStagePrefix
    ensures HeatPumpStageFrame(HeatPumpReport(data).value.rec.heatPumpStage.stage)
      == data[..3] + [data[3] & 0xfe]
  {
  }

  /** A blower report: RPM big-endian at payload bytes 4 and 5. */
  function BlowerFrame(b: AirHandlerBlower): (data: seq<byte>)
    ensures |data| == 8 && data[..3] == BlowerPrefix
  {
    BlowerPrefix + [0x00] + PutUint16(b.blowerRPM) + [0x00, 0x00]
  }

  lemma BlowerRoundTrip(b: AirHandlerBlower)
    ensures AirHandlerReadable(BlowerFrame(b))
    ensures AirHandlerReport(BlowerFrame(b)) == Some(Write(BlowerKey, Blower(b)))
  {
    var data := BlowerFrame(b);
    assert data[4..6] == PutUint16(b.blowerRPM);
    PutThenRead(b.blowerRPM);
  }

  /** The blower report reads exactly payload bytes 4 and 5 beyond the
      discriminator. */
  lemma BlowerFrameOf(data: seq<byte>)
    requires AirHandlerReadable(data) && data[..3] == BlowerPrefix
    ensures BlowerFrame(AirHandlerReport(data).value.rec.blower)[4..6] == data[4..6]
  {
    var b := AirHandlerReport(data).value.rec.blower;
    assert b.blowerRPM == BigEndianUint16(data[4..6]);
    assert BlowerFrame(b)[4..6] == PutUint16(b.blowerRPM);
    ReadThenPut(data[4..6]);
  }

  /** A duct report: status byte 3 (electric heat in bits 0 and 1) and
      airflow big-endian at payload bytes 7 and 8. */
  function DuctFrame(d: AirHandlerDuct): (data: seq<byte>)
    ensures |data| == 11 && data[..3] == DuctPrefix
  {
    DuctPrefix + [if d.elecHeat then 0x01 else 0x00, 0x00, 0x00, 0x00]
      + PutUint16(d.airFlowCFM) + [0x00, 0x00]
  }

  lemma DuctRoundTrip(d: AirHandlerDuct)
    ensures AirHandlerReadable(DuctFrame(d))
    ensures AirHandlerReport(DuctFrame(d)) == Some(Write(DuctKey, Duct(d)))
  {
    var data := DuctFrame(d);
    assert data[7..9] == PutUint16(d.airFlowCFM);
    PutThenRead(d.airFlowCFM);
  }

  /** The duct report reads airflow from payload bytes 7 and 8 and only
      whether bits 0 and 1 of the status byte are clear. */
  lemma DuctFrameOf(data: seq<byte>)
    requires AirHandlerReadable(data) && data[..3] == DuctPrefix
    ensures DuctFrame(AirHandlerReport(data).value.rec.duct)[7..9] == data[7..9]
    ensures DuctFrame(AirHandlerReport(data).value.rec.duct)[3] & ElecHeatMask
      == (if data[3] & ElecHeatMask != 0 then 0x01 else 0x00)
  {
    var d := AirHandlerReport(data).value.rec.duct;
    assert d.airFlowCFM == BigEndianUint16(data[7..9]);
    assert d.elecHeat == (data[3] & ElecHeatMask != 0);
    assert DuctFrame(d)[7..9] == PutUint16(d.airFlowCFM);
    ReadThenPut(data[7..9]);
  }

  /** Coil bytes 0x01 0x00 are 256 sixteenths, 16.0 degrees. */
  lemma CoilTempExample(outsideHi: byte, outsideLo: byte)
    ensures HeatPumpReadable([0x00, 0x3e, 0x01, outsideHi, outsideLo, 0x01, 0x00])
    ensures var w := HeatPumpReport([0x00, 0x3e, 0x01, outsideHi, outsideLo, 0x01, 0x00]);
      w.Some? && w.value.rec.HeatPumpTemps? && Degrees(w.value.rec.heatPump.coilTemp) == 16.0
  {
  }

  /** Stage status byte 0x05 decodes to stage 2. */
  lemma StageExample()
    ensures HeatPumpReadable([0x00, 0x3e, 0x02, 0x05])
    ensures HeatPumpReport([0x00, 0x3e, 0x02, 0x05]) == Some(Write(HeatPumpStageKey, HeatPumpStageRec(HeatPumpStage(2))))
  {
    var data: seq<byte> := [0x00, 0x3e, 0x02, 0x05];
    assert data[..3][2] != HeatPumpTempPrefix[2];
  }
}
