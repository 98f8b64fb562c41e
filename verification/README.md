# infinitive: decoding and state composition, modelled in Dafny

The infinitive bridge talks to a residential HVAC controller bus. It polls
the thermostat for its configuration, and it passively snoops heat-pump and
air-handler reports off the bus. Both sources go into one keyed,
last-value-wins state cache. A web layer reads state composed from that cache.
This project models the decoding and composition layer of `infinitive.go`:

- **Thermostat decode** (`Thermostat`). Two register blocks, zone parameters
  and current parameters, are combined into a `TStatZoneConfig`. The mode code
  is the low nibble of the mode byte and the stage is its top three bits. Hold
  is bit 0 of the zone-hold byte. The register reads are modelled by a `Bus`
  object that returns a given outcome per block and logs every read issued.
  `GetConfig` therefore states that the current-parameters read is never
  issued when the zone-parameters read fails.
- **Snoop handlers** (`Snoop`). There are two handlers, registered on the
  address windows `[0x5000, 0x51ff]` (heat pump) and `[0x4000, 0x42ff]` (air
  handler). Each matches a 3-byte discriminator, reads big-endian 16-bit fields
  or bit fields at fixed payload offsets, and writes one record under one key.
  Unknown discriminators change nothing. Reference encoders (`HeatPumpTempFrame`,
  `HeatPumpStageFrame`, `BlowerFrame`, `DuctFrame`) give the wire layout, and
  round-trip lemmas tie them to the decoders in both directions.
- **State export** (`Export`). `FanCoil` and `HeatPumpState` each compose two
  cache entries. Each is absent unless both keys hold records of the right type.
- **Shared state** (`State.Bridge`). This class holds the cache as a `map`.
  Its methods are the two handler closures, the dispatch of a frame to them,
  and one cycle of the poller. Its invariant `WellTyped` says that each key
  holds only the record type written under it.

Bytes are `bv8`, so masks and shifts are written as the source writes them.
16-bit fields are integers below 2^16. Heat-pump temperatures are kept as raw
sixteenths of a degree. `Degrees` gives the value in degrees: the source's
`float32(raw) / 16` is exact for every 16-bit raw value, so the real quotient
is the same number. The cache key for the thermostat is `"tstat"`, as the
code writes it.

## Model

| member | source | states |
|---|---|---|
| Bytes.BigEndianUint16 | infinitive.go:146-147 | the 16-bit value has the first byte as quotient by 256 and the second as remainder |
| Bytes.PutThenRead | infinitive.go:146-147 | reading back the two big-endian bytes of a 16-bit value gives the value |
| Bytes.ReadThenPut | infinitive.go:146-147 | re-encoding a read value gives back exactly the two bytes read |
| Records.Get | infinitive.go:90-93 | a cache lookup is present exactly when the key was written, and then gives the last value |
| Records.Degrees | infinitive.go:146-147 | the temperature times 16 is the raw value, so it lies in [0, 4096) |
| Thermostat.ModeNibble | infinitive.go:79 | the mode code is the mode byte modulo 16, at most 15 |
| Thermostat.StageOf | infinitive.go:80 | the stage is the mode byte divided by 32, so at most 7 |
| Thermostat.HoldOf | infinitive.go:72-73 | hold is on exactly when the zone-hold byte is odd |
| Thermostat.ModeByteSplit | infinitive.go:79-85 | stage, bit 4 and mode code reassemble the raw mode byte; bit 4 is in neither the mode code nor the stage, and reaches the caller only through the raw mode |
| Thermostat.ModeByteExample | infinitive.go:79-80 | mode byte 0x25 gives mode code 5 and stage 1 |
| Thermostat.DecodeConfig | infinitive.go:72-86 | raw mode kept unchanged, stage = mode/32 ≤ 7, mode name of the low nibble, hold always present and equal to bit 0, setpoints, temperatures, humidity and fan mode copied from their blocks |
| Thermostat.DecodeConfigAgreement | infinitive.go:75-85 | with any namings, two register pairs that agree on every field read (the hold byte only in bit 0) decode alike |
| Thermostat.DecodeConfigInjective | infinitive.go:75-85 | for an injective fan-mode naming only: two register pairs decode alike exactly when they agree on every field read, the hold byte only in bit 0 |
| Thermostat.Bus.ReadZoneParams | infinitive.go:61 | a zone-parameters read is logged and returns the bus's outcome for that block |
| Thermostat.Bus.ReadCurrentParams | infinitive.go:67 | a current-parameters read is logged and returns the bus's outcome for that block |
| Thermostat.GetConfig | infinitive.go:59-87 | success exactly when both reads succeed, with the decoded configuration; the second read is issued only when the first succeeds |
| Snoop.WindowsDisjoint | infinitive.go:142-162 | the heat-pump and air-handler windows share no address |
| Snoop.Apply | infinitive.go:148-156 | after a write the key holds the new record, and every other key keeps its value or absence |
| Snoop.HeatPumpReport | infinitive.go:142-157 | prefix 00 3e 01 gives outside = bytes 3..4 and coil = bytes 5..6 big-endian under "heatpump"; 00 3e 02 gives stage = byte 3 / 2 ≤ 127 under "heatpumpstage"; any other prefix gives no write |
| Snoop.AirHandlerReport | infinitive.go:162-175 | prefix 00 03 06 gives RPM = bytes 4..5 under "blower"; 00 03 16 gives airflow = bytes 7..8 and electric heat iff byte 3 mod 4 ≠ 0 under "duct"; any other prefix gives no write |
| Snoop.SnoopFrame | infinitive.go:142-176 | one frame changes only snoop keys, removes none, keeps the cache well typed, and changes nothing outside both windows |
| Snoop.UnknownReportIgnored | infinitive.go:145-175 | a frame with none of the four discriminators leaves the cache unchanged |
| Snoop.AllReadableTail | infinitive.go:142-176 | a stream of frames the handlers can read stays readable once its first frame is handled |
| Snoop.SnoopFramesOnlySnoopKeys | infinitive.go:142-176 | any stream of snooped frames leaves every non-snoop key, "tstat" included, as it was |
| Snoop.SnoopFramesGrowWellTyped | infinitive.go:142-176 | any stream of snooped frames removes no key and keeps the cache well typed |
| Snoop.PollAndSnoopCommute | infinitive.go:129-176 | the poller's "tstat" write and a snooped frame commute |
| Snoop.HeatPumpTempRoundTrip | infinitive.go:145-149 | an encoded temperature report decodes to the same temperatures under "heatpump" |
| Snoop.HeatPumpTempFrameOf | infinitive.go:145-149 | re-encoding a decoded temperature report gives back its first seven bytes |
| Snoop.HeatPumpStageRoundTrip | infinitive.go:153-156 | an encoded stage report for any stage ≤ 127 decodes to that stage |
| Snoop.HeatPumpStageFrameOf | infinitive.go:153-156 | re-encoding a decoded stage report gives back the status byte with bit 0 cleared |
| Snoop.BlowerRoundTrip | infinitive.go:165-168 | an encoded blower report decodes to the same RPM under "blower" |
| Snoop.BlowerFrameOf | infinitive.go:165-168 | re-encoding a decoded blower report gives back payload bytes 4..5 |
| Snoop.DuctRoundTrip | infinitive.go:169-174 | an encoded duct report decodes to the same airflow and electric-heat flag under "duct" |
| Snoop.DuctFrameOf | infinitive.go:169-174 | re-encoding a decoded duct report gives back bytes 7..8 and whether status bits 0-1 are set |
| Snoop.CoilTempExample | infinitive.go:145-149 | coil bytes 01 00 decode to 16.0 degrees |
| Snoop.StageExample | infinitive.go:153-156 | stage status byte 0x05 decodes to stage 2 |
| Export.FanCoil | infinitive.go:89-107 | present exactly when "blower" holds a blower record and "duct" a duct record, and then carries their RPM, airflow and electric-heat values |
| Export.HeatPumpState | infinitive.go:109-127 | present exactly when "heatpump" and "heatpumpstage" hold records of their types, and then carries their temperatures and stage |
| Export.FanCoilReadsOnlyItsKeys | infinitive.go:89-107 | the air-handler export depends on "blower" and "duct" only |
| Export.HeatPumpStateReadsOnlyItsKeys | infinitive.go:109-127 | the heat-pump export depends on "heatpump" and "heatpumpstage" only |
| Export.ExportsPresentOnceWritten | infinitive.go:89-127 | in a well-typed cache each export is absent exactly while one of its keys was never written |
| Export.FanCoilAfterReports | infinitive.go:89-107 | after a blower report and then a duct report, the air-handler export carries the reported values |
| Export.HeatPumpAfterReports | infinitive.go:109-127 | after a temperature report and then a stage report, the heat-pump export carries the reported values |
| Export.ExportsStayPresent | infinitive.go:89-127 | once present, each export stays present after any stream of snooped frames |
| State.Bridge.Update | infinitive.go:133 | the key now holds the record, the rest of the cache is unchanged, and the cache stays well typed (the record must fit its key) |
| State.Bridge.OnHeatPumpFrame | infinitive.go:142-159 | the cache becomes the old cache with the heat-pump report's write applied; no key but "heatpump" and "heatpumpstage" changes; the cache stays well typed |
| State.Bridge.OnAirHandlerFrame | infinitive.go:162-176 | the cache becomes the old cache with the air-handler report's write applied; no key but "blower" and "duct" changes; the cache stays well typed |
| State.Bridge.OnFrame | infinitive.go:140-178 | a frame goes to each handler whose window holds its address, in registration order |
| State.Bridge.PollStep | infinitive.go:129-138 | a successful configuration read writes "tstat" with the decoded configuration; a failed one leaves the cache unchanged; the reads issued are logged |

## Left out

- The frame codec, checksum, serial transport, transaction manager and the
  snoop registry's matching code are not part of this model. A register read is
  an outcome given to `Bus` (a block, or failure). A snooped frame is an address
  and a payload. The model matches the address against the two windows with
  inclusive bounds.
- The internals of the cache (locking, the `get`/`update` implementation) are
  not part of this model. The cache is a plain `map` from keys to records.
- `rawModeToString` and `rawFanModeToString` are not part of this model. They
  are the function parameters `modeName` and `fanModeName`.
- `TStatZoneParams` and `TStatCurrentParams` carry only the fields the decoder
  reads. Their other fields are not part of this model.
- The float32 temperatures are kept as raw 16-bit values. `Degrees` gives
  their exact value in degrees.
- `statePoller` is modelled as one cycle (`PollStep`). The endless loop, the
  one-second sleep and the goroutine are left out.
- Concurrency between the read thread, the poller and HTTP readers is left out.
  Each handler call and each poll step is modelled as one atomic cache update.
- `main` is left out: flag parsing, usage and exit, log level, and the panic on
  an open failure. So are `webserver` and the `log.Debugf` calls, which have no
  effect on state.
- HeatPumpReadable: a payload of fewer than 3 bytes, in either window, makes
  the source panic on `frame.data[3:]`; the model excludes it by precondition.
  A slice expression in Go needs only enough capacity, but the model requires
  enough length. This affects only the temperature report's slices
  `data[0:2]` and `data[2:4]`; the stage report's read of `data[0]` needs
  the length, exactly as the model requires.
- AirHandlerReadable: the same holds for the discriminator. For the blower and
  duct reports the model requires the full extent of the slices `data[1:5]`
  and `data[4:8]`, which go two bytes past the bytes `Uint16` actually reads,
  where Go needs only that much capacity. A frame too short for the report its
  discriminator selects would make the handler panic, and the model excludes
  such frames by precondition.
