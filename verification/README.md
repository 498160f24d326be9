# Avionics interface simulators: a Dafny model of the core logic

The repository is a set of avionics interface simulators: a fire-control
radar with image/radar track fusion, communication/navigation/identification
(CNI), infrared search and track (IRST), a distributed aperture system
(DAS), electronic warfare (EW), stores management and weapon release, a
head-up display and a multi-function display. Most of it is user
interface, sockets and threads. This project models the logic underneath
and proves properties of it in Dafny:

- **Binary frame codecs.** These are the radar interface frame
  (`RadarCodec`), the CNI frame and hex dump (`CniProtocol`), the IRST and
  DAS packets (`IrstProtocol`, `DasProtocol`), the 64-byte EW signal
  struct and its JSON form (`EwModels`), the CAN frame (`CanProtocol`) and
  the radar connection tool's Length formula and JSON builder
  (`RadarConnect`). Floating-point fields are opaque 4- or 8-byte blocks,
  so the properties are about byte counts, offsets, ids, counts,
  rejections and round trips.
- **Track tables.** These are the radar fusion tracker with its ordered
  track dictionary, aging and fire-control answers (`RadarFusion`), the C
  radar pipeline (`RadarPipeline`), and the two nearest-neighbour gate
  trackers (`GateTracking`, `DasTracker`, `IrstTracker`).
- **State machines and decision rules.** These are the radar mode and
  antenna state (`RadarCore`) and the weapon models, release controller,
  bus rate limiter and pylon chain (`WeaponModels`, `WeaponRelease`,
  `WeaponBus`, `WeaponPylon`). They also include the CNI slot table and
  processing step (`CniUdp`, `CniSim`, `CniCore`), the HUD frame (`Hud`),
  the EW detector and report numbering (`EwSim`) and the MFD waypoint,
  lock and ICD filter (`Mfd`).
- **Sensor helpers.** These are the IRST projection and detector
  (`IrstSensor`, `IrstDetector`), weighted position fusion (`DasFusion`)
  and EW effects on sensor data (`EwInjection`).

Each core source file has its own module, in the form of its source. A
Python object or C struct that is updated in place is a Dafny `class`. Its
methods are proved against specification functions, and the properties
are lemmas about those functions. Pure code is functions and lemmas.

Reals are exact; the model never interprets IEEE arithmetic. Clocks,
random draws, trigonometry, `log10`/`sqrt`, geodesy and `sscanf` number
scanning are parameters of the operations that use them. A clock that
the source reads several times in one operation gets one parameter per
reading: the radar fusion age-out reads `time.time()` once per track, so
it takes one reading per track (`RadarFusion.AgeOut`).

Where the protocol description and the code disagree, the model follows
the code:

- **Radar frame length field.** The description says the length byte
  counts every byte after it, capped at 255. The code writes
  30·images + 18·radars + requests + 3 while emitting 58- and 34-byte
  records (`RadarCodec.LengthFieldShortfall`). When the value exceeds 255
  it raises `struct.error` rather than capping (`RadarCodec.EncodeFrame`).
- **Truncated radar frames.** The description says a truncated section is
  parsed partially. The code's 30/18-byte guards let a record shorter than
  58/34 bytes through, and the whole decode then returns None
  (`RadarCodec.TruncatedImageRecordRejected`,
  `RadarCodec.TruncatedRadarRecordRejected`).
- **Fused tracks.** The description expects a nearby image target with
  another id to produce one fused track. In the code every image id is
  already in `updated_ids`, so the merge loop never acts and two tracks
  result (`RadarFusion.FusionScenario`).

## Model

| member | source | states |
|---|---|---|
| RadarCodec.ImageRecord | src/PythonProgram/radar/radar_core.py:121-129 | an image target packs to 58 bytes: id and type bytes, then seven float64 fields |
| RadarCodec.RadarRecord | src/PythonProgram/radar/radar_core.py:135-140 | a radar target packs to 34 bytes: id, a zero reserved byte, then four float64 fields |
| RadarCodec.ImageBlock | src/PythonProgram/radar/radar_core.py:121-129 | the image records of a list take 58 bytes per target |
| RadarCodec.RadarBlock | src/PythonProgram/radar/radar_core.py:135-140 | the radar records of a list take 34 bytes per target |
| RadarCodec.ByteBlock | src/PythonProgram/radar/radar_core.py:146-147 | request ids pack one byte each, each byte equal to its id |
| RadarCodec.EncodeImages | src/PythonProgram/radar/radar_core.py:121-129 | the image loop succeeds exactly when every id and type fits a byte, and then yields the image block |
| RadarCodec.EncodeRadars | src/PythonProgram/radar/radar_core.py:135-140 | the radar loop succeeds exactly when every id fits a byte, and then yields the radar block |
| RadarCodec.EncodeIds | src/PythonProgram/radar/radar_core.py:146-147 | the request-id loop succeeds exactly when every id fits a byte, and then yields those bytes |
| RadarCodec.Encoding | src/PythonProgram/radar/radar_core.py:99-149 | an encoded frame is 7 + 58n + 34m + k bytes, with the target byte at offset 2 and the written length field at offset 3 |
| RadarCodec.EncodeFrame | src/PythonProgram/radar/radar_core.py:99-149 | encode_frame always overwrites frame.length with 30n+18m+k+3; it returns the encoding exactly when every packed value fits its field, and struct.error otherwise |
| RadarCodec.ParseImagesShape | src/PythonProgram/radar/radar_core.py:180-208 | a successful image parse returns at most count targets and advances 58 bytes per target, staying inside the buffer |
| RadarCodec.ParseRadarsShape | src/PythonProgram/radar/radar_core.py:215-235 | a successful radar parse returns at most count targets and advances 34 bytes per target, staying inside the buffer |
| RadarCodec.ParseIdsShape | src/PythonProgram/radar/radar_core.py:242-247 | the id parse returns at most count ids, the bytes following the count, and stops short only at the end of the buffer |
| RadarCodec.ReadImageSection | src/PythonProgram/radar/radar_core.py:176-208 | the image section of decode_frame computes the image-section specification |
| RadarCodec.ReadRadarSection | src/PythonProgram/radar/radar_core.py:211-235 | the radar section of decode_frame computes the radar-section specification |
| RadarCodec.ReadIdSection | src/PythonProgram/radar/radar_core.py:238-247 | the request-id section of decode_frame computes the id-section specification |
| RadarCodec.Decode | src/PythonProgram/radar/radar_core.py:152-252 | fewer than four bytes decode to None; a decoded frame has header 0xAA55 and takes its target and length from bytes 2 and 3 |
| RadarCodec.DecodeFrame | src/PythonProgram/radar/radar_core.py:152-252 | decode_frame computes Decode, whose properties are the lemmas below |
| RadarCodec.EncodingSize | src/PythonProgram/radar/radar_core.py:117-147 | an encoded frame is 7 + 58n + 34m + k bytes long |
| RadarCodec.HeaderBytes | src/PythonProgram/radar/radar_core.py:109 | 0xAA55 packs big-endian as 0xAA, 0x55 |
| RadarCodec.EncodingStart | src/PythonProgram/radar/radar_core.py:109-115 | an encoded frame opens with 0xAA, 0x55, the target byte and the length byte |
| RadarCodec.LengthFieldShortfall | src/PythonProgram/radar/radar_core.py:102-104 | the length field falls short of the bytes after it by 28 per image target and 16 per radar target, because it counts 30/18 while 58/34 are written |
| RadarCodec.ImageAtRecord | src/PythonProgram/radar/radar_core.py:184-208 | unpacking the bytes of an image record gives back its target |
| RadarCodec.RadarAtRecord | src/PythonProgram/radar/radar_core.py:219-235 | unpacking the bytes of a radar record gives back its target |
| RadarCodec.ParseImagesOfBlock | src/PythonProgram/radar/radar_core.py:180-208 | parsing an image block of n records with count n gives back the n targets and the offset after them |
| RadarCodec.ParseRadarsOfBlock | src/PythonProgram/radar/radar_core.py:215-235 | parsing a radar block of n records with count n gives back the n targets and the offset after them |
| RadarCodec.ParseIdsOfBlock | src/PythonProgram/radar/radar_core.py:242-247 | parsing k id bytes with count k gives back the ids and the offset after them |
| RadarCodec.EncodingParts | src/PythonProgram/radar/radar_core.py:109-147 | an encoded frame is the four header bytes, then each block after its count byte |
| RadarCodec.EncodingLayout | src/PythonProgram/radar/radar_core.py:109-147 | every part of an encoded frame sits at its computed offset |
| RadarCodec.ImagesOfLayout | src/PythonProgram/radar/radar_core.py:176-208 | the image section of a laid-out frame decodes to its image list, ending where the radar count sits |
| RadarCodec.RadarsOfLayout | src/PythonProgram/radar/radar_core.py:211-235 | the radar section of a laid-out frame decodes to its radar list, ending where the id count sits |
| RadarCodec.IdsOfLayout | src/PythonProgram/radar/radar_core.py:238-247 | the id section of a laid-out frame decodes to its request ids, ending at the end of the buffer |
| RadarCodec.DecodeOfLayout | src/PythonProgram/radar/radar_core.py:152-249 | any buffer laid out as an encoded frame decodes to that frame, with the length the encoder wrote |
| RadarCodec.RoundTrip | src/PythonProgram/radar/radar_core.py:99-249 | decode(encode(f)) == f for an encodable frame with header 0xAA55 and counts equal to list lengths; length holds the value encode wrote |
| RadarCodec.DecodeRejects | src/PythonProgram/radar/radar_core.py:154-165 | fewer than four bytes, or a header other than 0xAA55, decode to None |
| RadarCodec.DecodeHeaderOnly | src/PythonProgram/radar/radar_core.py:168-176 | a bare four-byte valid header decodes to zero counts and empty lists |
| RadarCodec.TruncatedImageRecordRejected | src/PythonProgram/radar/radar_core.py:181-200 | an image record cut off after 30 to 57 bytes passes the 30-byte guard and the whole decode returns None |
| RadarCodec.TruncatedRadarRecordRejected | src/PythonProgram/radar/radar_core.py:216-229 | a radar record cut off after 18 to 33 bytes passes the 18-byte guard and the whole decode returns None |
| RadarCodec.ImageSectionShape | src/PythonProgram/radar/radar_core.py:176-208 | a decoded image section holds at most its count of targets and ends inside the buffer |
| RadarCodec.RadarSectionShape | src/PythonProgram/radar/radar_core.py:211-235 | a decoded radar section holds at most its count of targets and ends inside the buffer |
| RadarCodec.IdSectionShape | src/PythonProgram/radar/radar_core.py:238-247 | a decoded id section holds at most its count of ids, each a byte |
| RadarCodec.DecodedWithinCounts | src/PythonProgram/radar/radar_core.py:173-249 | every decoded frame has header 0xAA55, lists no longer than their counts, and byte-sized request ids |
| RadarCore.GetModeConfig | src/PythonProgram/radar/radar_core.py:575-594 | get_mode_config agrees with set_mode's table on scan rate and frequency, describes each mode by its name, and gives 60 deg/s, 9.4 GHz, "默认模式" for unlisted modes |
| RadarCore.SweptAngle | src/PythonProgram/radar/radar_core.py:407-411 | the antenna angle after one tick is in [0, 360) when the scan rate is positive and unchanged otherwise |
| RadarCore.RadarSimulator.constructor | src/PythonProgram/radar/radar_core.py:258-273 | a new core starts in range-search mode with the initial status |
| RadarCore.RadarSimulator.SetMode | src/PythonProgram/radar/radar_core.py:286-309 | set_mode records the mode and copies its scan rate and frequency; a mode missing from the table (IDENTIFY) leaves the status unchanged |
| RadarCore.RadarSimulator.UpdateAntennaAngle | src/PythonProgram/radar/radar_core.py:407-411 | only the antenna angle changes; it lands in [0, 360) when the scan rate is positive, and nothing changes otherwise |
| RadarCore.RadarSimulator.GetRadarStatusData | src/PythonProgram/radar/radar_core.py:413-416 | one antenna tick, then a copy of the new status; the current mode is unchanged |
| RadarFusion.Values | src/PythonProgram/radar/radar_simulation.py:207 | list(tracks.values()) lists one track per key, in insertion order |
| RadarFusion.RadarIndex | src/PythonProgram/radar/radar_simulation.py:108 | radar_by_id holds exactly the radar ids, each mapped to a target with that id from the list |
| RadarFusion.FreshKeys | src/PythonProgram/radar/radar_simulation.py:187-190 | the keys kept by the age-out are exactly the listed keys whose track is at most 5 s old at the clock reading taken for that key |
| RadarFusion.StaleKeys | src/PythonProgram/radar/radar_simulation.py:188 | stale_ids holds exactly the listed keys whose track is more than 5 s old at the clock reading taken for that key |
| RadarFusion.SplitByAge | src/PythonProgram/radar/radar_simulation.py:187-190 | the age-out scan reads the clock once per key and returns the fresh keys and the stale keys, each in table order |
| RadarFusion.ThreatScore | src/PythonProgram/radar/radar_simulation.py:193-204 | every threat score is in [0, 1.5]; outside AirCombat, with a non-negative distance and RCS in [-20, 20], it is at most 1 |
| RadarFusion.NearestIndex | src/PythonProgram/radar/radar_simulation.py:219 | min by distance picks a track no farther than any other, and the first of equals |
| RadarFusion.NearestFrom | src/PythonProgram/radar/radar_simulation.py:219 | the scan behind min keeps the first nearest track seen so far |
| RadarFusion.Respond | src/PythonProgram/radar/radar_simulation.py:211-220 | the answer is OK with the tracked id exactly when the id is tracked, NO_TARGET with no selection exactly when the table is empty, and otherwise FALLBACK to a nearest track |
| RadarFusion.FusionSimulator.constructor | src/PythonProgram/radar/radar_simulation.py:63-69 | a new core has no tracks, frame counter 0 and mode "Search" |
| RadarFusion.FusionSimulator.ImagePhase | src/PythonProgram/radar/radar_simulation.py:111-127 | the image loop updates the table as the image pass specifies and adds every image id to updated_ids, so the merge loop at lines 153-155 skips every image target |
| RadarFusion.FusionSimulator.RadarPhase | src/PythonProgram/radar/radar_simulation.py:130-150 | the radar loop updates the table as the radar pass specifies |
| RadarFusion.FusionSimulator.AgeOutPhase | src/PythonProgram/radar/radar_simulation.py:186-190 | the age-out deletes exactly the tracks stale at their own clock reading |
| RadarFusion.FusionSimulator.FuseAndTrack | src/PythonProgram/radar/radar_simulation.py:105-207 | fuse_and_track computes Fuse on the table, adds exactly 1 to frame_counter and returns the tracks in order |
| RadarFusion.FusionSimulator.HandleFireControlRequest | src/PythonProgram/radar/radar_simulation.py:209-221 | one response per requested id, in order, each the answer for that id; the table is not changed |
| RadarFusion.FusionSimulator.Nearest | src/PythonProgram/radar/radar_simulation.py:219 | the strict-less scan finds the first nearest track |
| RadarFusion.ImageStepValid | src/PythonProgram/radar/radar_simulation.py:111-127 | an image update keeps the key list and the table in step |
| RadarFusion.RadarStepValid | src/PythonProgram/radar/radar_simulation.py:130-150 | a radar update keeps the key list and the table in step |
| RadarFusion.AgeOutValid | src/PythonProgram/radar/radar_simulation.py:187-190 | the age-out keeps the key list and the table in step |
| RadarFusion.ImageStep | src/PythonProgram/radar/radar_simulation.py:112-127 | the image id ends up tracked, stamped with the call's timestamp and source "image" |
| RadarFusion.ImageStepEffect | src/PythonProgram/radar/radar_simulation.py:112-127 | an image update stamps the track with the call's time and source "image"; an existing track keeps its RCS, a new one takes the RCS of the radar target with its id, if any; no other track changes |
| RadarFusion.RadarStep | src/PythonProgram/radar/radar_simulation.py:131-150 | the radar id ends up tracked with the call's timestamp, source "radar" and the radar's RCS; a new id is appended to the key order |
| RadarFusion.RadarStepEffect | src/PythonProgram/radar/radar_simulation.py:131-150 | a radar update stamps the track, sets source "radar" and overwrites the RCS; no other track changes |
| RadarFusion.ImagePassCovers | src/PythonProgram/radar/radar_simulation.py:111-127 | after the image loop every image id has a track with the call's timestamp, and no track is lost |
| RadarFusion.RadarPassCovers | src/PythonProgram/radar/radar_simulation.py:130-150 | after the radar loop every radar id has a radar track with the call's timestamp and the RCS of the last radar target with that id; tracks with other ids are untouched |
| RadarFusion.AgeOut | src/PythonProgram/radar/radar_simulation.py:186-190 | a track survives, unchanged, exactly when it is at most 5 s old at its own clock reading; the key order keeps exactly the surviving keys |
| RadarFusion.AgeOutBetweenReadings | src/PythonProgram/radar/radar_simulation.py:188 | with every per-track reading in [lo, hi], a track fresh at hi survives, a survivor is fresh at lo, and a track stale at lo leaves both the table and the key order |
| RadarFusion.AgeOutKeepsFresh | src/PythonProgram/radar/radar_simulation.py:187-190 | the age-out keeps exactly the tracks refreshed within 5 s of their own clock reading, unchanged |
| RadarFusion.ScoreAllEffect | src/PythonProgram/radar/radar_simulation.py:193-204 | scoring changes only threat_score, and every score is in [0, 1.5] |
| RadarFusion.Fuse | src/PythonProgram/radar/radar_simulation.py:105-204 | every track left after a call has a threat score in [0, 1.5] and is fresh at its own age-out reading |
| RadarFusion.FuseEffect | src/PythonProgram/radar/radar_simulation.py:105-204 | after fuse_and_track, every image or radar id whose age-out clock reading is within 5 s of the timestamp is tracked with the call's timestamp; radar ids carry radar tracks and other image ids image tracks; every score is in [0, 1.5] and every track is fresh at its own reading |
| RadarFusion.ImagePassValid | src/PythonProgram/radar/radar_simulation.py:111-127 | the image loop keeps the key list and the table in step |
| RadarFusion.RadarPassValid | src/PythonProgram/radar/radar_simulation.py:130-150 | the radar loop keeps the key list and the table in step |
| RadarFusion.ImagePassSource | src/PythonProgram/radar/radar_simulation.py:119-125 | after the image loop every image id has an image track |
| RadarFusion.FusionScenario | src/PythonProgram/radar/radar_simulation.py:152-184 | a radar target and a nearby image target with another id give an image track and a radar track, and no fused track |
| RadarPipeline.CountEffectiveBounds | src/CProgram/radar/radar_sim.c:90-95 | the effective count is at most the threat count; it equals it exactly when every threat moves faster than 0.1 m/s or is within 100 km, and is 0 exactly when none does |
| RadarPipeline.Selection | src/CProgram/radar/radar_sim.c:111-143 | the fire-control answer is the first radar target with the requested id; failing that the first target of minimal distance; with no radar targets, id -1 at zero distance and azimuth |
| RadarPipeline.FirstWithId | src/CProgram/radar/radar_sim.c:111-117 | the search loop finds the first index holding the requested id, or none exactly when no target has it |
| RadarPipeline.NearestFrom | src/CProgram/radar/radar_sim.c:126-134 | the fallback scan ends on a target no farther than any other, the first of equals |
| RadarPipeline.PipelineOutputs.constructor | src/CProgram/radar/radar_sim.c:169-171 | fresh output structures with zero counts |
| RadarPipeline.PipelineOutputs.Process | src/CProgram/radar/radar_sim.c:74-144 | threat_count = min(img_count, 64) with the threats copied in order, 0 <= effective_count <= threat_count, radar_count = min(radar_count, 128) with the targets copied in order and the rest of each array untouched, the snapshot caption, and the fire-control selection |
| RadarPipeline.PipelineOutputs.CopyThreats | src/CProgram/radar/radar_sim.c:85-88 | at most 64 threats are copied, in input order, and the rest of the array is untouched |
| RadarPipeline.PipelineOutputs.CountEffectiveThreats | src/CProgram/radar/radar_sim.c:90-95 | effective_count counts the effective threats among the copied ones, so it is at most threat_count |
| RadarPipeline.PipelineOutputs.CopyRadarTargets | src/CProgram/radar/radar_sim.c:100-103 | at most 128 radar targets are copied, in input order, and the rest of the array is untouched |
| RadarPipeline.SelectTarget | src/CProgram/radar/radar_sim.c:111-143 | stage 3 computes the fire-control selection over the whole radar list |
| RadarPipeline.FindRequested | src/CProgram/radar/radar_sim.c:111-117 | the loop with break finds the first matching index |
| RadarPipeline.NearestRadar | src/CProgram/radar/radar_sim.c:126-134 | the strict-less loop finds the first nearest target |
| RadarPipeline.DemoSelection | src/CProgram/radar/radar_sim.c:157-166 | with the demo's three radar targets, request 101 selects target 101 and an absent id falls back to the 5000 m target 201 |
| CniProtocol.TargetRecord | src/PythonProgram/cni_sim/protocol.py:21-34 | a target record is 30 bytes, with id and IFF code masked to 8 bits at either end |
| CniProtocol.TargetsBlockSize | src/PythonProgram/cni_sim/protocol.py:20-35 | the target block is 30 bytes per target |
| CniProtocol.TargetsBlockLayout | src/PythonProgram/cni_sim/protocol.py:20-35 | record i of the target block sits at bytes 30i to 30i+30 |
| CniProtocol.RecordInBlock | src/PythonProgram/cni_sim/protocol.py:22-34 | one record's place in the target block |
| CniProtocol.PackTargets | src/PythonProgram/cni_sim/protocol.py:7-35 | _pack_targets appends one record per target, in order, 30 bytes each |
| CniProtocol.CommAltBlock | src/PythonProgram/cni_sim/protocol.py:38-60 | the comm/altimeter block is 19 bytes, with the ids and the altimeter flag masked to 8 bits |
| CniProtocol.Vec3Bytes | src/PythonProgram/cni_sim/protocol.py:84-92 | a three-float vector packs to 12 bytes |
| CniProtocol.NavBlock | src/PythonProgram/cni_sim/protocol.py:63-96 | the nav block is 64 bytes and ends with two zero reserved floats |
| CniProtocol.BuildFrame | src/PythonProgram/cni_sim/protocol.py:99-129 | a frame is 5 + 30n + 83 bytes and starts with 0x55 0xAA |
| CniProtocol.FrameLayout | src/PythonProgram/cni_sim/protocol.py:117-129 | a frame is 5 + 30n + 83 bytes: 0x55 0xAA, the masked mode, (30n + 83) mod 256, n mod 256, then the three blocks in order |
| CniProtocol.FrameHeader | src/PythonProgram/cni_sim/protocol.py:122-128 | the header is five bytes: little-endian 0xAA55, the masked mode, the masked payload length and the masked count |
| CniProtocol.LengthFieldWraps | src/PythonProgram/cni_sim/protocol.py:120-126 | the length byte equals the payload length exactly when there are at most 5 targets |
| CniProtocol.IdMasked | src/PythonProgram/cni_sim/protocol.py:25-33 | ids and IFF codes differing by 256 pack to the same record |
| CniProtocol.Hex | src/PythonProgram/cni_sim/protocol.py:143 | bytes.hex() gives two hex digits per byte |
| CniProtocol.HexDecodes | src/PythonProgram/cni_sim/protocol.py:143 | each pair of hex digits reads back as its byte |
| CniProtocol.Unspaced | src/PythonProgram/cni_sim/protocol.py:146 | removing spaces never lengthens a string |
| CniProtocol.UngroupGrouped | src/PythonProgram/cni_sim/protocol.py:146 | removing the spaces from a grouped space-free string gives it back |
| CniProtocol.GroupedAt | src/PythonProgram/cni_sim/protocol.py:146 | a grouped string is chunks of w characters of the input, in order, each followed by one space except the last |
| CniProtocol.FrameToHex | src/PythonProgram/cni_sim/protocol.py:132-146 | group <= 1 gives two characters per byte, and an empty frame gives the empty string |
| CniProtocol.FrameToHexShape | src/PythonProgram/cni_sim/protocol.py:143-146 | with group <= 1 the result is 2·len(frame) characters with no spaces; with any group, removing the spaces gives the plain hex |
| CniProtocol.FrameToHexExample | src/PythonProgram/cni_sim/protocol.py:146 | group 2 on three bytes gives "55aa 01" |
| IrstProtocol.RecordHead | src/PythonProgram/IRST_NEW/protocol.py:54-61 | the head of a target record holds id, type, a zero reserved word and width, height, depth, format, with defaults 0, 0, 64, 64, 8, 0 |
| IrstProtocol.RecordMeasures | src/PythonProgram/IRST_NEW/protocol.py:62-67 | the six measurement floats, the confidence defaulting to 0.9 |
| IrstProtocol.RecordTail | src/PythonProgram/IRST_NEW/protocol.py:68-74 | threat, stealth, a zero reserved word, the track command and the three pointing floats |
| IrstProtocol.OutputRecord | src/PythonProgram/IRST_NEW/protocol.py:54-75 | each output target record is 51 bytes |
| IrstProtocol.OutputRecords | src/PythonProgram/IRST_NEW/protocol.py:49-75 | the target records take 51 bytes per target |
| IrstProtocol.OutputPrefix | src/PythonProgram/IRST_NEW/protocol.py:36-47 | the 22 bytes before the records: little-endian 0xAA55, message type 1, length 16 + 1 + 51n + 4, the globals and the count |
| IrstProtocol.OutputPacket | src/PythonProgram/IRST_NEW/protocol.py:18-81 | struct.error exactly for more than 255 targets or an unpackable record field; otherwise 5 + payload-length bytes with the target count at byte 21 |
| IrstProtocol.PackOutput | src/PythonProgram/IRST_NEW/protocol.py:18-81 | pack_output computes the output-packet specification |
| IrstProtocol.PackRecords | src/PythonProgram/IRST_NEW/protocol.py:49-75 | the target loop succeeds exactly when every record field fits, and then yields the records in order |
| IrstProtocol.OutputRecordsAt | src/PythonProgram/IRST_NEW/protocol.py:49-75 | record i sits at bytes 51i to 51(i+1) of the record block |
| IrstProtocol.OutputLayout | src/PythonProgram/IRST_NEW/protocol.py:36-80 | a packed output is 5 + (16 + 1 + 51n + 4) bytes, starts 0x55 0xAA 0x01, its length field counts exactly the bytes after it, the count byte is n and record i sits at 22 + 51i |
| IrstProtocol.RecordsPlaced | src/PythonProgram/IRST_NEW/protocol.py:47-49 | records placed from offset 22 sit at 22 + 51i |
| IrstProtocol.OutputFailsExactly | src/PythonProgram/IRST_NEW/protocol.py:47-75 | pack_output raises struct.error exactly when there are more than 255 targets or a record field is out of range |
| IrstProtocol.InTargets | src/PythonProgram/IRST_NEW/protocol.py:116-127 | the parse loop yields exactly as many targets as the count byte |
| IrstProtocol.ParseInput | src/PythonProgram/IRST_NEW/protocol.py:84-139 | fewer than five bytes give None and the only exception is struct.error; a parsed packet has header 0xAA55, passes the length check, covers its records and has as many targets as its count byte |
| IrstProtocol.UnpackInput | src/PythonProgram/IRST_NEW/protocol.py:84-139 | unpack_input computes the input-parse specification |
| IrstProtocol.InTargetBytes | src/PythonProgram/IRST_NEW/protocol.py:118-119 | an input target record is 37 bytes |
| IrstProtocol.InTargetsBytes | src/PythonProgram/IRST_NEW/protocol.py:114-127 | input records take 37 bytes per target |
| IrstProtocol.InTargetsBytesAt | src/PythonProgram/IRST_NEW/protocol.py:116-127 | input record i sits at bytes 37i to 37(i+1) |
| IrstProtocol.InTargetAtBytes | src/PythonProgram/IRST_NEW/protocol.py:118-126 | unpacking the bytes of an input record gives back its target |
| IrstProtocol.InTargetBytesFields | src/PythonProgram/IRST_NEW/protocol.py:117-119 | where each field of an input record sits |
| IrstProtocol.InputPacketLayout | src/PythonProgram/IRST_NEW/protocol.py:92-130 | where the header, position, count, records and FOV centre of an input packet sit |
| IrstProtocol.ParseInputPacket | src/PythonProgram/IRST_NEW/protocol.py:84-139 | round trip: a well-formed input packet parses back to what was sent |
| IrstProtocol.ParseOfLayout | src/PythonProgram/IRST_NEW/protocol.py:92-139 | any buffer laid out as an input packet parses to that input |
| IrstProtocol.InputRejects | src/PythonProgram/IRST_NEW/protocol.py:89-100 | unpack_input returns None for fewer than 5 bytes, a header other than 0xAA55, or fewer than 5 + length bytes |
| IrstProtocol.ShortTargetsRaise | src/PythonProgram/IRST_NEW/protocol.py:116-130 | a packet whose count byte announces more records than its bytes hold passes every check and raises struct.error |
| DasProtocol.ImageBytes | src/PythonProgram/DAS_New/das_protocol.py:45-48 | a missing image becomes w·h zero bytes (none when the product is not positive); a given image is sent as it is |
| DasProtocol.ControlBytes | src/PythonProgram/DAS_New/das_protocol.py:21-61 | the fixed control block is 7 bytes and ends with the sub-module count 2 |
| DasProtocol.SensorBytes | src/PythonProgram/DAS_New/das_protocol.py:36-68 | the sensor block is 7 bytes with width and height little-endian at offsets 1 and 3, defaulting to 64 |
| DasProtocol.TargetRecord | src/PythonProgram/DAS_New/das_protocol.py:77-82 | a target record is 13 bytes, led by its id (default 0) |
| DasProtocol.TargetRecords | src/PythonProgram/DAS_New/das_protocol.py:75-82 | the target block takes 13 bytes per target |
| DasProtocol.TailBytes | src/PythonProgram/DAS_New/das_protocol.py:85-92 | the tail is 18 bytes |
| DasProtocol.OutputPacket | src/PythonProgram/DAS_New/das_protocol.py:8-94 | struct.error exactly when some field does not pack; otherwise the 5 header bytes plus the payload length |
| DasProtocol.PackOutput | src/PythonProgram/DAS_New/das_protocol.py:8-94 | pack_output computes the output-packet specification |
| DasProtocol.PackTargets | src/PythonProgram/DAS_New/das_protocol.py:75-82 | the target loop yields the records in order |
| DasProtocol.TargetRecordsAt | src/PythonProgram/DAS_New/das_protocol.py:75-82 | record i of the target block sits at bytes 13i to 13(i+1) |
| DasProtocol.OutputLayout | src/PythonProgram/DAS_New/das_protocol.py:54-94 | a packed output is 7 + (7 + 3·2 + 7 + len(img) + 1 + 13m + 18) bytes: 0x55 0xAA 0x02, a length field counting the bytes after the header, the caller's sequence, the sub-modules, the image at offset 27, then the count and the target block |
| DasProtocol.OutputHead | src/PythonProgram/DAS_New/das_protocol.py:58 | the '<HBH H' header reads back as 0xAA55, message type 2, the length and the sequence |
| DasProtocol.MissingImageIsBlank | src/PythonProgram/DAS_New/das_protocol.py:45-71 | without an image, w·h zero bytes follow offset 27 |
| DasProtocol.OutputOverflows | src/PythonProgram/DAS_New/das_protocol.py:55-74 | a 256th target, or a 64 x 1024 blank image whose length overflows the 16-bit length field, makes pack_output raise struct.error |
| DasProtocol.InTargets | src/PythonProgram/DAS_New/das_protocol.py:111-118 | the parse loop yields exactly as many targets as the tgt_num byte |
| DasProtocol.ParseInput | src/PythonProgram/DAS_New/das_protocol.py:97-135 | fewer than 7 bytes give None and the only exception is struct.error; a parsed packet has the header, covers its records, has tgt_num targets and a non-zero EW byte only when a byte follows the records |
| DasProtocol.UnpackInput | src/PythonProgram/DAS_New/das_protocol.py:97-135 | unpack_input computes the input-parse specification |
| DasProtocol.InTargetBytes | src/PythonProgram/DAS_New/das_protocol.py:114 | an input target record is 13 bytes |
| DasProtocol.InTargetsBytes | src/PythonProgram/DAS_New/das_protocol.py:112-118 | input records take 13 bytes per target |
| DasProtocol.InTargetsBytesAt | src/PythonProgram/DAS_New/das_protocol.py:112-118 | input record i sits at bytes 13i to 13(i+1) |
| DasProtocol.InputPacketLayout | src/PythonProgram/DAS_New/das_protocol.py:103-124 | where the header, control bytes, records and optional EW byte of an input packet sit |
| DasProtocol.InTargetAtBytes | src/PythonProgram/DAS_New/das_protocol.py:114-117 | unpacking the bytes of an input record gives back its target |
| DasProtocol.ParseInputPacket | src/PythonProgram/DAS_New/das_protocol.py:97-135 | round trip: an input packet parses back to what was sent, with EW 0 when the trailing byte is absent |
| DasProtocol.InTargetsOfLayout | src/PythonProgram/DAS_New/das_protocol.py:111-118 | records laid out from offset 13 parse back to the targets |
| DasProtocol.ParseOfLayout | src/PythonProgram/DAS_New/das_protocol.py:101-135 | any buffer laid out as an input packet parses to that input |
| DasProtocol.InputRejects | src/PythonProgram/DAS_New/das_protocol.py:101-104 | fewer than 7 bytes, or a header other than 0xAA55, give None |
| EwModels.SignalTypeOf | src/PythonProgram/ew/models.py:8-21 | SignalType(n) succeeds exactly for 1..3, giving the member with that value, and raises ValueError otherwise |
| EwModels.ModulationOf | src/PythonProgram/ew/models.py:24-47 | Modulation(n) succeeds exactly for 0..7, giving the member with that value, and raises ValueError otherwise |
| EwModels.EnumCodesInvert | src/PythonProgram/ew/models.py:19-47 | every enumeration member converts back from its own value |
| EwModels.WithSingleFields | src/PythonProgram/ew/models.py:80-86 | replacing the seven float32 fields yields a record holding exactly those fields |
| EwModels.ReadI32 | src/PythonProgram/ew/models.py:50 | an 'i' field reads as a signed 32-bit value |
| EwModels.I32 | src/PythonProgram/ew/models.py:50 | an 'i' field packs to 4 bytes that read back as the value |
| EwModels.ReadLE64 | src/PythonProgram/ew/models.py:50 | a 'Q' field reads as an unsigned 64-bit value |
| EwModels.LE64 | src/PythonProgram/ew/models.py:50 | a 'Q' field packs to 8 bytes that read back as the value |
| EwModels.LE64OfRead | src/PythonProgram/ew/models.py:50 | packing the value read from 8 bytes gives those bytes back |
| EwModels.I32OfRead | src/PythonProgram/ew/models.py:50 | packing the value read from 4 bytes gives those bytes back |
| EwModels.SingleBlock | src/PythonProgram/ew/models.py:50 | seven float32 fields take 28 bytes |
| EwModels.SinglesAt | src/PythonProgram/ew/models.py:50 | seven float32 fields are read from 28 bytes |
| EwModels.SinglesOfBlock | src/PythonProgram/ew/models.py:50 | reading the float32 block gives back the packed fields |
| EwModels.BlockOfSingles | src/PythonProgram/ew/models.py:50 | packing the float32 fields read from 28 bytes gives those bytes back |
| EwModels.Narrowed | src/PythonProgram/ew/models.py:117-123 | narrowing gives seven float32 values |
| EwModels.ToBinary | src/PythonProgram/ew/models.py:101-125 | packs exactly when the source id fits uint32, the timestamp uint64 and every float32 field narrows; struct.error for the first two, OverflowError for the third; 64 bytes |
| EwModels.FromBinary | src/PythonProgram/ew/models.py:156-181 | struct.error unless 64 bytes; then success exactly for a type code 1..3 at offset 4 and a modulation 0..7 at offset 60, ValueError otherwise, the decoded enums carrying those codes |
| EwModels.BinaryLayout | src/PythonProgram/ew/models.py:50-125 | to_binary emits 64 bytes: source id at 0, type at 4, timestamp at 8, the two doubles at 16 and 24, the float32 fields at 32 and the modulation at 60 |
| EwModels.BinaryRoundTrip | src/PythonProgram/ew/models.py:110-181 | from_binary(to_binary(s)) gives back source id, type, timestamp, the doubles and modulation; each float32 field comes back narrowed and widened |
| EwModels.BinaryRoundTripExact | src/PythonProgram/ew/models.py:110-181 | when narrowing loses nothing, the binary form round-trips exactly |
| EwModels.BinaryRepack | src/PythonProgram/ew/models.py:110-181 | a 64-byte buffer that decodes packs back to the same bytes |
| EwModels.RenarrowSingles | src/PythonProgram/ew/models.py:117-179 | the float32 fields of a decoded buffer narrow back to their bytes |
| EwModels.BinaryRejects | src/PythonProgram/ew/models.py:166-180 | from_binary of 64 bytes fails, with ValueError, exactly on a type outside 1..3 or a modulation outside 0..7 |
| EwModels.SeventyTwoByteMismatch | src/PythonProgram/ew/models.py:104-166 | the struct is 64 bytes, not the 72 the comments announce: a 72-byte buffer such as the UDP receiver's slice is refused with struct.error, and every packed record is shorter than 72 bytes |
| EwModels.ToJson | src/PythonProgram/ew/models.py:96-99 | to_json writes type and modulation as their integer values |
| EwModels.FloatFields | src/PythonProgram/ew/models.py:143-151 | the float fields are converted in order, each by float(data[key]) |
| EwModels.JsonRoundTrip | src/PythonProgram/ew/models.py:89-153 | from_json(to_json(s)) == s |
| EwModels.FloatFieldsOfObject | src/PythonProgram/ew/models.py:143-151 | float keys holding floats convert to those floats |
| EwModels.FromJson | src/PythonProgram/ew/models.py:128-153 | KeyError without source_id; a decoded signal carries int() of source_id, type, timestamp_ms and modulation and float() of snr_db |
| EwModels.JsonRejects | src/PythonProgram/ew/models.py:138-153 | with every key present and well typed, from_json fails, with ValueError, exactly on an unknown type or modulation value |
| EwModels.JsonMissingSource | src/PythonProgram/ew/models.py:140 | without "source_id" from_json raises KeyError |
| RadarConnect.ComputeLength | src/PythonProgram/Radar_Connect/radar_connect_ui.py:89-102 | for non-negative counts at least 3, and exactly 3 only with no items |
| RadarConnect.LengthAgreesWithCodec | src/PythonProgram/Radar_Connect/radar_connect_ui.py:89-102 | compute_length(n, m, k) = 30n + 18m + k + 3 is the value the radar frame encoder writes into its length byte (radar_core.py lines 102-104) |
| RadarConnect.LengthSteps | src/PythonProgram/Radar_Connect/radar_connect_ui.py:102 | the length is 3 for no items and grows by 30, 18 and 1 per image target, radar target and request |
| RadarConnect.Counted | src/PythonProgram/Radar_Connect/radar_connect_ui.py:134-148 | each group's count is the length of its item list, with its item size |
| RadarConnect.BuildProtocolJson | src/PythonProgram/Radar_Connect/radar_connect_ui.py:105-150 | counts equal the list lengths, item sizes are 30/18/1, the items keep their order (request ids included), Length = compute_length of the counts, and a missing card becomes "" |
| RadarConnect.ProtocolLengthIsItemBytes | src/PythonProgram/Radar_Connect/radar_connect_ui.py:122-148 | the announced Length is the sum of count x item_size over the three groups plus 3 |
| RadarConnect.ItemDefaults | src/PythonProgram/Radar_Connect/radar_connect_ui.py:166-198 | missing keys read as zero, whole-number ids and types are kept, and int() truncates a fractional id toward zero |
| RadarConnect.ConvertImageTargets | src/PythonProgram/Radar_Connect/radar_connect_ui.py:153-177 | one image item per raw target, in order |
| RadarConnect.ConvertRadarTargets | src/PythonProgram/Radar_Connect/radar_connect_ui.py:180-199 | one radar item per raw target, in order |
| RadarConnect.Or | src/PythonProgram/Radar_Connect/radar_connect_ui.py:219-220 | Python's x or y: x when truthy, else y |
| RadarConnect.DeviceConfig | src/PythonProgram/Radar_Connect/radar_connect_ui.py:230-237 | the output keeps every key of the configuration and adds only the derived keys, leaving the other values unchanged |
| RadarConnect.InterfaceRule | src/PythonProgram/Radar_Connect/radar_connect_ui.py:217-223 | the interface is "udp" when IP and Port are both set, else "ieee1394" when a card is configured, else "udp" |
| RadarConnect.PortRule | src/PythonProgram/Radar_Connect/radar_connect_ui.py:225-228 | remote_port is 8888 when Port is missing or cannot be converted, and the converted Port otherwise |
| RadarConnect.CardRule | src/PythonProgram/Radar_Connect/radar_connect_ui.py:219-235 | card is Card when truthy, else the first of a non-empty Cards list, else "" |
| GateTracking.SqDist | src/PythonProgram/dist_aperture_sim/sim/tracker.py:54-67 | the squared distance behind math.hypot is never negative |
| GateTracking.NearestFrom | src/PythonProgram/dist_aperture_sim/sim/tracker.py:92-100 | the nearest-neighbour scan only ever picks an unused observation |
| GateTracking.NearestFromSound | src/PythonProgram/dist_aperture_sim/sim/tracker.py:92-100 | the scan finds nothing exactly when every observation is used, and otherwise finds the first unused observation of least distance |
| GateTracking.Pick | src/PythonProgram/dist_aperture_sim/sim/tracker.py:92-103 | a track takes only an unused observation within the gate |
| GateTracking.PickSound | src/PythonProgram/dist_aperture_sim/sim/tracker.py:92-103 | a pick is no farther than any other unused observation, and no pick means no unused observation lies within the gate |
| GateTracking.UsedSnoc | src/PythonProgram/dist_aperture_sim/sim/tracker.py:103 | a hit adds its observation to the used set and a miss adds nothing |
| GateTracking.Assign | src/PythonProgram/dist_aperture_sim/sim/tracker.py:91-111 | the association loop makes one pick per track |
| GateTracking.AssignSnoc | src/PythonProgram/dist_aperture_sim/sim/tracker.py:91-111 | one more track appends its pick, made against the observations taken before it |
| GateTracking.AssignTake | src/PythonProgram/dist_aperture_sim/sim/tracker.py:91-111 | the picks of the first i tracks do not depend on later tracks |
| GateTracking.AssignPrefix | src/PythonProgram/dist_aperture_sim/sim/tracker.py:91-111 | track i's pick is made against the observations the tracks before it took |
| GateTracking.UsedMembers | src/PythonProgram/dist_aperture_sim/sim/tracker.py:89-103 | the used set holds exactly the picked observations |
| GateTracking.FreshPicksCount | src/PythonProgram/dist_aperture_sim/sim/tracker.py:89-103 | when no pick repeats an earlier one, the used set has as many members as there are hits |
| GateTracking.AssignSound | src/PythonProgram/dist_aperture_sim/sim/tracker.py:89-111 | every pick is an observation within its track's gate, no observation is taken twice, and the used observations number exactly the hits |
| GateTracking.Unused | src/PythonProgram/dist_aperture_sim/sim/tracker.py:114-116 | the observations left for new tracks are indices of the observation list |
| GateTracking.UnusedSound | src/PythonProgram/dist_aperture_sim/sim/tracker.py:114-116 | the loop over the rest visits exactly the unused observations, each once, in increasing order |
| GateTracking.UsedBelow | src/PythonProgram/dist_aperture_sim/sim/tracker.py:89 | the used indices below a bound |
| GateTracking.UnusedCount | src/PythonProgram/dist_aperture_sim/sim/tracker.py:114-119 | unused and used observations together number all the observations |
| GateTracking.AllUsedBelow | src/PythonProgram/dist_aperture_sim/sim/tracker.py:103 | every used index is an observation index |
| GateTracking.TrackNamesDistinct | src/PythonProgram/dist_aperture_sim/sim/tracker.py:117 | f"TRK_{n}" keys are equal exactly when the numbers are, so a new track never overwrites an old one |
| GateTracking.BlendShrinks | src/PythonProgram/dist_aperture_sim/sim/tracker.py:105-107 | the 0.6 pull leaves a track 0.4 times as far from its observation |
| GateTracking.Raise | src/PythonProgram/dist_aperture_sim/sim/tracker.py:108 | a hit raises confidence by 0.05, capped at 1, keeping it in [0, 1] |
| GateTracking.Lower | src/PythonProgram/dist_aperture_sim/sim/tracker.py:111 | a miss lowers confidence by 0.1, floored at 0, keeping it in [0, 1] |
| GateTracking.FindNearest | src/PythonProgram/dist_aperture_sim/sim/tracker.py:92-100 | the inner loop computes the nearest unused observation and its distance |
| GateTracking.GatedNearest | src/PythonProgram/dist_aperture_sim/sim/tracker.py:92-101 | one track's search and gate test compute its pick |
| DasTracker.Positions | src/PythonProgram/dist_aperture_sim/sim/tracker.py:91-97 | the positions the association loop measures from are the tracks' own positions, one per track, in table order |
| DasTracker.Predicted | src/PythonProgram/dist_aperture_sim/sim/tracker.py:76-78 | prediction neither adds nor removes a track |
| DasTracker.Spawned | src/PythonProgram/dist_aperture_sim/sim/tracker.py:114-119 | the creation loop makes exactly one track per observation that association left unused |
| DasTracker.Settled | src/PythonProgram/dist_aperture_sim/sim/tracker.py:91-111 | association neither adds nor removes a track |
| DasTracker.SettledSnoc | src/PythonProgram/dist_aperture_sim/sim/tracker.py:91-111 | settling one more track appends that track settled with the pick made against the observations the earlier tracks left |
| DasTracker.PositionsTake | src/PythonProgram/dist_aperture_sim/sim/tracker.py:91 | the positions of the first i tracks are the first i positions |
| DasTracker.PositionsSnoc | src/PythonProgram/dist_aperture_sim/sim/tracker.py:91 | one more track adds its position at the end |
| DasTracker.SettledPick | src/PythonProgram/dist_aperture_sim/sim/tracker.py:91-111 | track i after association is track i updated with the nearest observation the tracks before it did not take |
| DasTracker.SettledAt | src/PythonProgram/dist_aperture_sim/sim/tracker.py:91-111 | track i's entry in the association equals its pick against the earlier tracks' used set, and its settled copy uses that entry |
| DasTracker.SettledKeeps | src/PythonProgram/dist_aperture_sim/sim/tracker.py:105-111 | association never changes a track's id or velocity and keeps a confidence in [0, 1] within [0, 1] |
| DasTracker.Associate | src/PythonProgram/dist_aperture_sim/sim/tracker.py:89-111 | the association loop yields the settled tracks and exactly the set of observation indices some track took |
| DasTracker.AssociateOne | src/PythonProgram/dist_aperture_sim/sim/tracker.py:92-111 | one pass of the loop picks the nearest unused observation within the gate, or none, and pulls or decays the track accordingly |
| DasTracker.SpawnTracks | src/PythonProgram/dist_aperture_sim/sim/tracker.py:114-119 | the creation loop builds the new tracks for the unused observations, numbered consecutively from the counter |
| DasTracker.Tracker.constructor | src/PythonProgram/dist_aperture_sim/sim/tracker.py:49-52 | a new tracker has no tracks, the counter at 1 and the given gate |
| DasTracker.Tracker.Predict | src/PythonProgram/dist_aperture_sim/sim/tracker.py:69-78 | predict moves every track by velocity times dt, keeps the counter and the table invariant |
| DasTracker.Tracker.Update | src/PythonProgram/dist_aperture_sim/sim/tracker.py:80-119 | update leaves the table as association followed by creation defines it and keeps the table invariant |
| DasTracker.UpdatedValid | src/PythonProgram/dist_aperture_sim/sim/tracker.py:80-119 | update keeps track numbers strictly increasing and below the counter, and confidences within [0, 1] |
| DasTracker.UpdatedCount | src/PythonProgram/dist_aperture_sim/sim/tracker.py:89-119 | no track is removed, the old tracks keep their place and number, and the table and the counter grow by the number of observations no track took |
| DasTracker.UpdatedOldTracks | src/PythonProgram/dist_aperture_sim/sim/tracker.py:101-111 | an old track that took an observation is within the gate of it, moves 60% of the way (its squared distance shrinks to 16%) and gains 0.05 confidence up to 1; one that took none stays put and loses 0.1 confidence down to 0; velocity never changes |
| DasTracker.SpawnedAt | src/PythonProgram/dist_aperture_sim/sim/tracker.py:114-119 | the m-th unused observation becomes the track after the old ones plus m, numbered counter + m, at rest, with confidence 0.6 |
| DasTracker.ObservationsTakenOnce | src/PythonProgram/dist_aperture_sim/sim/tracker.py:95-103 | no observation is taken by two tracks, and an observation is in the used set exactly when some track took it |
| DasTracker.ObservationsSpawned | src/PythonProgram/dist_aperture_sim/sim/tracker.py:113-119 | an observation becomes a new track exactly when no track took it, exactly once, at its position with zero velocity and confidence 0.6 |
| DasTracker.PredictKeepsStillTracks | src/PythonProgram/dist_aperture_sim/sim/tracker.py:76-119 | a track at rest, as every created track is, stays where it is under predict |
| DasTracker.TestCreation | src/PythonProgram/dist_aperture_sim/tests/test_tracker.py:13-17 | two observations into an empty tracker create TRK_1 and TRK_2 at their positions |
| DasTracker.TestFirstPick | src/PythonProgram/dist_aperture_sim/tests/test_tracker.py:23 | the track at the origin takes the observation 10 m away |
| DasTracker.TestAssociation | src/PythonProgram/dist_aperture_sim/tests/test_tracker.py:23 | the observation at (10, 0) goes to the first track and the second track finds none left |
| DasTracker.TestPrediction | src/PythonProgram/dist_aperture_sim/tests/test_tracker.py:20 | predict(1.0) leaves the two new tracks where they are |
| DasTracker.TestSettled | src/PythonProgram/dist_aperture_sim/tests/test_tracker.py:23 | after the second update the first track is settled with the observation at (10, 0) |
| DasTracker.TestNothingSpawned | src/PythonProgram/dist_aperture_sim/tests/test_tracker.py:23-24 | the second update creates no track |
| DasTracker.TestSecondUpdate | src/PythonProgram/dist_aperture_sim/tests/test_tracker.py:23-27 | the second update pulls TRK_1 to (6, 0) and keeps two tracks |
| DasTracker.TestScenario | src/PythonProgram/dist_aperture_sim/tests/test_tracker.py:13-27 | the whole unit test: two tracks are created, and after predict and the second update a track lies within 6 m of x = 10 |
| IrstTracker.Positions | src/PythonProgram/irst/sim/tracker.py:37-43 | the positions the association loop measures from are the tracks' own positions, one per track, in table order |
| IrstTracker.Spawned | src/PythonProgram/irst/sim/tracker.py:57-62 | the creation loop makes exactly one track per point that association left unused |
| IrstTracker.Settled | src/PythonProgram/irst/sim/tracker.py:37-55 | association neither adds nor removes a track |
| IrstTracker.SettledSnoc | src/PythonProgram/irst/sim/tracker.py:37-55 | settling one more track appends that track settled with the pick made against the points the earlier tracks left |
| IrstTracker.PositionsTake | src/PythonProgram/irst/sim/tracker.py:37 | the positions of the first i tracks are the first i positions |
| IrstTracker.PositionsSnoc | src/PythonProgram/irst/sim/tracker.py:37 | one more track adds its position at the end |
| IrstTracker.SettledPick | src/PythonProgram/irst/sim/tracker.py:37-55 | track i after association is track i updated with the nearest point the tracks before it did not take |
| IrstTracker.SettledAt | src/PythonProgram/irst/sim/tracker.py:37-55 | track i's entry in the association equals its pick against the earlier tracks' used set, and its settled copy uses that entry |
| IrstTracker.SettledKeeps | src/PythonProgram/irst/sim/tracker.py:50-55 | association never changes a track's id and keeps a confidence in [0, 1] within [0, 1] |
| IrstTracker.Associate | src/PythonProgram/irst/sim/tracker.py:36-55 | the association loop yields the settled tracks and exactly the set of point indices some track took |
| IrstTracker.AssociateStep | src/PythonProgram/irst/sim/tracker.py:37-55 | one more pass appends the settled track and adds its pick, which is a valid point index, to the used set |
| IrstTracker.AssociateOne | src/PythonProgram/irst/sim/tracker.py:38-55 | one pass of the loop picks the nearest unused point within the gate, or none, and pulls or decays the track accordingly |
| IrstTracker.SpawnTracks | src/PythonProgram/irst/sim/tracker.py:57-62 | the creation loop builds the new tracks for the unused points, numbered consecutively from the counter |
| IrstTracker.Tracker.constructor | src/PythonProgram/irst/sim/tracker.py:23-26 | a new tracker has no tracks, the counter at 1 and the given gate |
| IrstTracker.Tracker.Update | src/PythonProgram/irst/sim/tracker.py:33-62 | update leaves the table as association followed by creation defines it and keeps the table invariant |
| IrstTracker.UpdatedValid | src/PythonProgram/irst/sim/tracker.py:33-62 | update keeps track numbers strictly increasing and below the counter, and confidences within [0, 1] |
| IrstTracker.UpdatedCount | src/PythonProgram/irst/sim/tracker.py:36-62 | no track is removed, the old tracks keep their place and number, and the table and the counter grow by the number of points no track took |
| IrstTracker.UpdatedOldTracks | src/PythonProgram/irst/sim/tracker.py:47-55 | an old track that took a point is within the gate of it, moves 60% of the way (its squared distance shrinks to 16%) and gains 0.05 confidence up to 1; one that took none stays put and loses 0.1 confidence down to 0 |
| IrstTracker.SpawnedAt | src/PythonProgram/irst/sim/tracker.py:57-62 | the m-th unused point becomes the track after the old ones plus m, numbered counter + m, with confidence 0.7 |
| IrstTracker.ObservationsTakenOnce | src/PythonProgram/irst/sim/tracker.py:41-49 | no point is taken by two tracks, and a point is in the used set exactly when some track took it |
| IrstTracker.ObservationsSpawned | src/PythonProgram/irst/sim/tracker.py:57-62 | a point becomes a new track exactly when no track took it, exactly once, at its position with confidence 0.7 |
| IrstTracker.TestCreation | src/PythonProgram/irst/tests/test_tracker.py:11-13 | two points into an empty tracker create TRK_1 and TRK_2 at their positions |
| IrstTracker.TestFirstPick | src/PythonProgram/irst/tests/test_tracker.py:14 | the track at the origin takes the point 10 m away |
| IrstTracker.TestAssociation | src/PythonProgram/irst/tests/test_tracker.py:14 | the point at (10, 0) goes to the first track and the second track finds none left |
| IrstTracker.TestUsedAfterFirst | src/PythonProgram/irst/tests/test_tracker.py:14 | after the first track takes point 0, the used set is {0} and stays so when the second takes none |
| IrstTracker.TestSecondPick | src/PythonProgram/irst/tests/test_tracker.py:14 | once the only point is taken, the track at (100, 0) picks nothing |
| IrstTracker.TestSettled | src/PythonProgram/irst/tests/test_tracker.py:14 | after the second update the first track is settled with the point at (10, 0) |
| IrstTracker.TestNothingSpawned | src/PythonProgram/irst/tests/test_tracker.py:14 | the second update creates no track |
| IrstTracker.TestSecondUpdate | src/PythonProgram/irst/tests/test_tracker.py:14-16 | the second update pulls TRK_1 to (6, 0) and keeps two tracks |
| IrstTracker.TestScenario | src/PythonProgram/irst/tests/test_tracker.py:11-16 | the whole unit test: two tracks are created and after the second update a track lies within 6 m of x = 10 |
| WeaponModels.NextTemperatureApproaches | src/PythonProgram/weapon/sim_core/models.py:75-79 | one temperature step moves 5% of the way toward the target (ambient for an external store, ambient + 5 otherwise): it never overshoots, the gap shrinks to 95%, and it stays put only at the target |
| WeaponModels.WeaponSystem.constructor | src/PythonProgram/weapon/sim_core/models.py:55-61 | the system holds the given rack, ejector and weapon |
| WeaponModels.WeaponSystem.StepTemperature | src/PythonProgram/weapon/sim_core/models.py:75-79 | step_temperature changes only the weapon's temperature, to the next step toward its target |
| WeaponRelease.ReleaseController.constructor | src/PythonProgram/weapon/sim_core/release.py:24-30 | a new controller drives the given system with an empty log and no release running |
| WeaponRelease.ReleaseController.Log | src/PythonProgram/weapon/sim_core/release.py:32-35 | _log appends one timestamped entry and leaves the rest of the controller alone |
| WeaponRelease.ReleaseController.UnlockRack | src/PythonProgram/weapon/sim_core/release.py:37-41 | unlock_rack unlocks the rack and logs it, nothing else changes |
| WeaponRelease.ReleaseController.ArmFuze | src/PythonProgram/weapon/sim_core/release.py:43-47 | arm_fuze arms the weapon's fuze and logs it, nothing else changes |
| WeaponRelease.ReleaseController.StartRelease | src/PythonProgram/weapon/sim_core/release.py:49-58 | start_release returns and leaves the state that the release-start rule gives |
| WeaponRelease.ReleaseController.Step | src/PythonProgram/weapon/sim_core/release.py:60-68 | step leaves the state that the step rule gives |
| WeaponRelease.ReleaseController.Reset | src/PythonProgram/weapon/sim_core/release.py:70-76 | reset leaves the state that the reset rule gives |
| WeaponRelease.StartedIffReleasable | src/PythonProgram/weapon/sim_core/release.py:49-58 | start_release succeeds exactly when can_release holds; a refusal only logs a warning; a success sets running and the releasing state and logs one entry, leaving rack, ejector and fuze alone |
| WeaponRelease.NoDoubleRelease | src/PythonProgram/weapon/sim_core/release.py:49-58 | a release cannot be started twice: after a successful start the weapon is no longer mounted |
| WeaponRelease.SteppedSeparates | src/PythonProgram/weapon/sim_core/release.py:60-68 | step does nothing unless a release is running; then it separates the weapon, logs once and stops running |
| WeaponRelease.ResetBlocksRelease | src/PythonProgram/weapon/sim_core/release.py:70-76 | after reset the weapon is mounted with a safe fuze and the rack locked, so no release can start; running is left as it was |
| WeaponRelease.ResetThenStepSeparates | src/PythonProgram/weapon/sim_core/release.py:60-76 | reset does not clear running, so a step after a reset issued during a release separates the remounted weapon |
| WeaponRelease.OneEntryPerOperation | src/PythonProgram/weapon/sim_core/release.py:32-76 | every operation appends exactly one log entry and keeps the earlier log, except a step with no release running, which logs nothing |
| WeaponRelease.TestReleaseFlow | src/PythonProgram/weapon/tests/test_release.py:12-18 | the unit test: release is refused while the rack is locked, accepted once it is unlocked, and one step separates the weapon |
| WeaponRelease.ReleaseFlowScenario | src/PythonProgram/weapon/tests/test_release.py:12-18 | the same scenario run on the controller object gives refused, accepted, separated |
| WeaponBus.Recent | src/PythonProgram/weapon/sim_core/bus.py:57-59 | keeping the last 200 entries leaves min(length, 200) of them |
| WeaponBus.RecentSnoc | src/PythonProgram/weapon/sim_core/bus.py:55-59 | after appending an entry and trimming, the new entry is last and the rest is a suffix of the old history |
| WeaponBus.BusSimulator.constructor | src/PythonProgram/weapon/sim_core/bus.py:39-41 | a new bus has the given configuration and zeroed statistics with empty, equal-length histories |
| WeaponBus.BusSimulator.SendFrame | src/PythonProgram/weapon/sim_core/bus.py:43-60 | send_frame returns and leaves the statistics that the budget rule gives for the clock reading |
| WeaponBus.SendDropped | src/PythonProgram/weapon/sim_core/bus.py:49-51 | a frame over the byte budget is dropped: the result is false, drops grows by one and nothing else changes |
| WeaponBus.SendAccepted | src/PythonProgram/weapon/sim_core/bus.py:52-60 | a frame within the budget is accepted: bytes grow by the payload, packets by one, the clock reading is stored, drops stay, and the histories end with the new total and clock reading after the kept older entries |
| WeaponBus.AcceptedState | src/PythonProgram/weapon/sim_core/bus.py:52-60 | an accepted frame updates exactly the counters, the timestamp and the two trimmed histories |
| WeaponBus.SendKeepsHistory | src/PythonProgram/weapon/sim_core/bus.py:55-59 | the two histories stay equal in length and at most 200 long |
| WeaponBus.SendMonotone | src/PythonProgram/weapon/sim_core/bus.py:43-60 | with a non-negative payload the byte, packet and drop counters never decrease |
| WeaponBus.NegativePayloadLowersCount | src/PythonProgram/weapon/sim_core/bus.py:49-52 | a negative payload size always passes the budget test (while the count is within budget) and lowers the byte count |
| CanProtocol.Pack | src/PythonProgram/weapon/protocols/can.py:8-11 | pack succeeds exactly for identifiers in [0, 2^32) and otherwise raises OverflowError; the frame is 4 identifier bytes followed by the first 8 data bytes |
| CanProtocol.Unpack | src/PythonProgram/weapon/protocols/can.py:14-17 | the identifier read from the first four bytes is below 2^32 |
| CanProtocol.Pow256Grows | src/PythonProgram/weapon/protocols/can.py:17 | a shorter big-endian field never holds a larger bound |
| CanProtocol.UnpackSplits | src/PythonProgram/weapon/protocols/can.py:14-17 | unpack splits a frame at byte 4 so that the identifier bytes and the data reassemble it; a frame of at most 4 bytes has no data |
| CanProtocol.UnpackPack | src/PythonProgram/weapon/protocols/can.py:8-17 | unpack(pack(id, data)) gives id and the first 8 data bytes for every identifier pack accepts |
| CanProtocol.PackUnpack | src/PythonProgram/weapon/protocols/can.py:8-17 | pack(unpack(frame)) gives back every frame of 4 to 12 bytes |
| CniCore.NormalizeHeading | src/CProgram/cni/cni_sim.c:21-25 | the heading loops return the heading modulo 360, always in [0, 360) |
| CniCore.IffClass | src/CProgram/cni/cni_sim.c:171-174 | the IFF class is one of 0, 1 and 2 |
| CniCore.IffClassOfSign | src/CProgram/cni/cni_sim.c:171-174 | the class depends only on the sign of the IFF code and tells the three signs apart: 0 exactly for code 0 |
| CniCore.EstimateTarget | src/CProgram/cni/cni_sim.c:151-182 | keeps the id and velocity; the estimated altitude plus vd·dt is the target's altitude; the IFF class is 0, 1 or 2, and 0 exactly for code 0 |
| CniCore.EstimateTargetKeeps | src/CProgram/cni/cni_sim.c:151-182 | an estimate keeps the target's id and velocity, lowers the altitude by the down velocity times dt (unchanged for dt = 0) and carries the IFF class |
| CniCore.GenerateNavOutput | src/CProgram/cni/cni_sim.c:207-219 | the nav output copies position, speeds, attitude and time, with heading the yaw modulo 360, in [0, 360), equal to the yaw when the yaw already is |
| CniCore.Bounded | src/CProgram/cni/cni_sim.c:199-200 | the strncpy into the 256-byte buffer keeps at most 255 characters and a shorter payload whole |
| CniCore.DecodeShortwave | src/CProgram/cni/cni_sim.c:185-204 | keeps ids and time; SNR plus path loss is the transmit power; undecodable at or below -10 dB, otherwise a payload of at most 255 characters |
| CniCore.DecodeShortwaveRule | src/CProgram/cni/cni_sim.c:185-204 | a comm output keeps the packet's ids and time, its SNR is the transmit power less the path loss, and the payload (at most 255 characters of it, all of a short one) comes through exactly when the SNR exceeds -10 dB, else "[UNDECODABLE]" |
| CniCore.EstimatesAt | src/CProgram/cni/cni_sim.c:228-229 | the track loop makes one estimate per target, entry i estimating target i |
| CniCore.EstimatesSnoc | src/CProgram/cni/cni_sim.c:228-229 | one more target appends its estimate |
| CniCore.CniOutputs.constructor | src/CProgram/cni/cni_sim.c:243-245 | the zeroed output container has 128 empty tracks, a zero nav record, no tracks counted and an empty comm record |
| CniSim.Visited | src/CProgram/cni/cni_sim.c:228 | the track loop visits the declared count of entries kept within 0 and 128 |
| CniSim.ProcessStep | src/CProgram/cni/cni_sim.c:222-236 | a step writes the nav output, the estimates of the visited targets over the start of the track array (leaving the rest), copies the declared count through, and decodes the packet |
| CniSim.EstimateInto | src/CProgram/cni/cni_sim.c:228-230 | the estimates of the first n targets overwrite the first n entries and leave the rest |
| CniSim.CountOverrunsTracks | src/CProgram/cni/cni_sim.c:227-228 | with more than 128 declared targets the reported count exceeds the entries written |
| CniSim.TrackOfTarget | src/CProgram/cni/cni_sim.c:151-174 | each written track carries its target's id, down velocity and IFF class |
| CniUdp.ValidTargets | src/CProgram/cni/cni_udp_sim.c:226-232 | the listed targets are never more than the slots |
| CniUdp.ValidTargetsMembers | src/CProgram/cni/cni_udp_sim.c:226-232 | a target is listed exactly when some valid slot holds it |
| CniUdp.ValidCountUpdate | src/CProgram/cni/cni_udp_sim.c:299-302 | writing one slot changes the valid count by the change in that slot's flag |
| CniUdp.FindId | src/CProgram/cni/cni_udp_sim.c:284-285 | a found slot is valid, holds the id and lies at or after the start |
| CniUdp.FindFree | src/CProgram/cni/cni_udp_sim.c:284-286 | a found free slot is not valid and lies at or after the start |
| CniUdp.FindIdSound | src/CProgram/cni/cni_udp_sim.c:284-285 | the search finds the first slot holding the id, and none only when no slot does |
| CniUdp.FindFreeSound | src/CProgram/cni/cni_udp_sim.c:286 | the search finds the first free slot, and none only when every slot is valid |
| CniUdp.SlotForSound | src/CProgram/cni/cni_udp_sim.c:283-287 | the slot a TARGET line writes is the valid one already holding the id when there is one, else the first free one; there is none exactly when the table is full without the id |
| CniUdp.StoredTargetUnique | src/CProgram/cni/cni_udp_sim.c:283-299 | storing a target keeps the ids of the valid slots unique, and afterwards only the written slot holds the id |
| CniUdp.StoredTargetCount | src/CProgram/cni/cni_udp_sim.c:283-302 | storing a target keeps the table size and grows the valid count by one exactly when a new id takes a free slot |
| CniUdp.ValidTargetsDistinct | src/CProgram/cni/cni_udp_sim.c:226-232 | with unique ids the listed targets carry distinct ids |
| CniUdp.Trimmed | src/CProgram/cni/cni_udp_sim.c:268-271 | the trimmed line is a prefix of the line without a trailing line ending, and only line endings were removed |
| CniUdp.TrimmedRule | src/CProgram/cni/cni_udp_sim.c:268-271 | trimming is idempotent, and appended line endings are all removed |
| CniUdp.TrimNewline | src/CProgram/cni/cni_udp_sim.c:268-271 | trim_newline overwrites the trailing line endings with NULs, returns the trimmed length, and leaves the rest of the buffer alone |
| CniUdp.AfterLineWellFormed | src/CProgram/cni/cni_udp_sim.c:274-364 | every incoming line keeps 128 slots, unique ids and the count equal to the valid slots |
| CniUdp.TargetLineStores | src/CProgram/cni/cni_udp_sim.c:279-303 | a complete TARGET line with a slot lands in the slot holding its id, else the first free one, is then the only valid entry with that id, grows the count only for a new id and changes nothing else |
| CniUdp.TargetLineTableFull | src/CProgram/cni/cni_udp_sim.c:304-306 | a full table with no slot for the id drops the target and changes nothing |
| CniUdp.BadLinesChangeNothing | src/CProgram/cni/cni_udp_sim.c:307-362 | a TARGET or COMM_PKT line with too few fields, or a line of unknown kind, changes nothing |
| CniUdp.ShortInertialOverwrites | src/CProgram/cni/cni_udp_sim.c:316-327 | an INERTIAL line with only some fields scanned overwrites those leading fields and nothing else, without marking the inputs valid |
| CniUdp.CommOf | src/CProgram/cni/cni_udp_sim.c:184-198 | with no packet received the comm output has ids -1 and "[NO_PKT]"; otherwise it carries the packet's ids |
| CniUdp.CniInputs.constructor | src/CProgram/cni/cni_udp_sim.c:397 | the zeroed inputs have every slot free, no count, no packet, no inertial data and zero time |
| CniUdp.CniInputs.FindSlot | src/CProgram/cni/cni_udp_sim.c:283-287 | the slot loop returns the slot the TARGET rule chooses, or -1 |
| CniUdp.CniInputs.Recount | src/CProgram/cni/cni_udp_sim.c:301-302 | the recount sets the count to the number of valid slots and changes nothing else |
| CniUdp.CniInputs.HandleTargetLine | src/CProgram/cni/cni_udp_sim.c:274-310 | handle_target_line leaves the inputs the TARGET rule gives |
| CniUdp.CniInputs.HandleInertialLine | src/CProgram/cni/cni_udp_sim.c:313-328 | handle_inertial_line leaves the inputs the INERTIAL rule gives |
| CniUdp.CniInputs.HandleCommLine | src/CProgram/cni/cni_udp_sim.c:331-353 | handle_comm_pkt_line leaves the inputs the COMM_PKT rule gives |
| CniUdp.CniInputs.HandleIncomingLine | src/CProgram/cni/cni_udp_sim.c:356-364 | handle_incoming_line dispatches on the line's prefix and leaves the inputs the dispatch rule gives |
| CniUdp.CniInputs.ProcessStep | src/CProgram/cni/cni_udp_sim.c:222-235 | a step writes the nav output, one track per valid slot in slot order over the start of the track array (the rest kept), counts them, and the count equals the recorded target count |
| CniUdp.CniInputs.Tracks | src/CProgram/cni/cni_udp_sim.c:225-233 | the track loop writes the estimates of the valid slots in order and returns how many |
| CniUdp.EstimateAt | src/CProgram/cni/cni_udp_sim.c:228 | one estimate is written after the earlier entries, leaving the later ones |
| CniUdp.ValidTargetsSnoc | src/CProgram/cni/cni_udp_sim.c:226-231 | one more slot adds its target when it is valid |
| CniUdp.NoValidSlots | src/CProgram/cni/cni_udp_sim.c:397 | a table of free slots lists no targets and has unique ids |
| CniUdp.StepTracksDistinct | src/CProgram/cni/cni_udp_sim.c:222-233 | the tracks of a step carry distinct ids, each from a valid slot |
| Hud.Clamp01 | src/CProgram/hud/hud_sim.c:220-224 | the clamp lands in [0, 1] and leaves a coordinate already there alone |
| Hud.MapTargetToSymbol | src/CProgram/hud/hud_sim.c:200-237 | a missing target gives -1 and no symbol; a present one gives 0 and its symbol |
| Hud.MapTarget | src/CProgram/hud/hud_sim.c:200-234 | visible exactly within ±60° azimuth and ±30° elevation, always on screen, symbol id 100, 110 or 120 |
| Hud.MapTargetRules | src/CProgram/hud/hud_sim.c:203-234 | a symbol is visible exactly within 60 degrees of azimuth and 30 of elevation, lies on the screen, is the unclamped linear projection when visible, and has id 100 for radar, 120 for IR and 110 otherwise |
| Hud.BoresightIsCentre | src/CProgram/hud/hud_sim.c:217-218 | a target dead ahead is visible at the screen centre |
| Hud.PageFor | src/CProgram/hud/hud_sim.c:246-248 | the page is 0, 1 or 3 |
| Hud.PageRule | src/CProgram/hud/hud_sim.c:246-248 | page 3 exactly when armed with stores, else page 1 exactly when airborne, else page 0 |
| Hud.NumericsRule | src/CProgram/hud/hud_sim.c:251-267 | three numeric fields (1, 2, 3) all valid when the INS status is 1, otherwise only field 1, invalid |
| Hud.VisibleSymbols | src/CProgram/hud/hud_sim.c:270-276 | the symbol loop lists no more symbols than targets |
| Hud.VisibleSymbolsSound | src/CProgram/hud/hud_sim.c:270-276 | every listed symbol is visible, and every target's visible symbol is listed |
| Hud.VisibleSymbolsAppend | src/CProgram/hud/hud_sim.c:270-276 | symbols of consecutive runs of targets are listed run after run |
| Hud.StringsRule | src/CProgram/hud/hud_sim.c:279-300 | at most two texts: the armed-no-stores text exactly when armed with no stores, the fuel text exactly when fuel is below 20% |
| Hud.HudOutputs.constructor | src/CProgram/hud/hud_sim.c:159-168 | a new output packet has the three fixed-size arrays, freshly allocated |
| Hud.HudOutputs.Reset | src/CProgram/hud/hud_sim.c:184-188 | outputs_reset zeroes the timestamp, page, counts and every array entry |
| Hud.HudOutputs.Process | src/CProgram/hud/hud_sim.c:240-303 | a frame writes the input's timestamp and page, and each array holds its frame's entries first and zeros after, with matching counts |
| Hud.HudOutputs.EmitNumerics | src/CProgram/hud/hud_sim.c:251-267 | the numeric step writes the frame's numeric fields and changes no other part |
| Hud.HudOutputs.EmitDynamics | src/CProgram/hud/hud_sim.c:270-276 | the symbol loop writes the visible symbols of the counted targets and changes no other part |
| Hud.HudOutputs.AppendSymbol | src/CProgram/hud/hud_sim.c:274 | one symbol is stored after the earlier ones and counted |
| Hud.HudOutputs.EmitStrings | src/CProgram/hud/hud_sim.c:279-300 | the warning step writes the frame's texts and changes no other part |
| Hud.ProcessFrame | src/CProgram/hud/hud_sim.c:240-303 | process_frame returns 0 and writes the frame exactly when both pointers are present, else -1 with an existing output block left untouched |
| Hud.DynamicsFit | src/CProgram/hud/hud_sim.c:270 | at most 128 targets are read, so the 256-entry symbol array never fills and every stored symbol is visible |
| EwSim.SnrScore | src/CProgram/ew/ew_sim.c:88-92 | the SNR contribution lies in [0, 0.6] |
| EwSim.FeatureScore | src/CProgram/ew/ew_sim.c:94-108 | the type-specific contribution lies in [0, 0.4] |
| EwSim.DetectionOf | src/CProgram/ew/ew_sim.c:79-114 | score in [0, 1], detected exactly at the 0.2 threshold, geometry copied from the input |
| EwSim.DetectSignal | src/CProgram/ew/ew_sim.c:79-114 | detect_signal gives a score in [0, 1], detects exactly at 0.2 or more, and copies the geometry and frequency |
| EwSim.ScoreMonotoneInSnr | src/CProgram/ew/ew_sim.c:88-111 | a stronger signal never scores lower, other things equal |
| EwSim.WeakSignalNeedsFeatures | src/CProgram/ew/ew_sim.c:88-113 | at or below 0 dB only the type features count, so a communications signal is detected exactly when it is modulated |
| EwSim.ClassifyThreat | src/CProgram/ew/ew_sim.c:117-135 | every signal type gets a known threat class |
| EwSim.ClassifyRule | src/CProgram/ew/ew_sim.c:117-135 | jammer exactly for jamming, comms exactly for communications, tracking radar exactly for a narrow-pulse, high-SNR, short-PRI radar, plain radar for any other radar |
| EwSim.AssessAlertLevel | src/CProgram/ew/ew_sim.c:138-147 | INFO without a detection, CRITICAL for a detected tracking radar, WARN only above 0.7 for other threats |
| EwSim.AlertRule | src/CProgram/ew/ew_sim.c:138-147 | no detection gives INFO; CRITICAL exactly for a detected tracking radar or a close strong signal; WARN exactly for another detection scoring above 0.7 |
| EwSim.Tags | src/CProgram/ew/ew_sim.c:162-165 | only the two low tag bits can be set |
| EwSim.TagBits | src/CProgram/ew/ew_sim.c:164-165 | bit 0 exactly for a pulse shorter than 50 us, bit 1 exactly for a bandwidth above 100 kHz |
| EwSim.RecommendedAction | src/CProgram/ew/ew_sim.c:167-171 | a non-empty text shorter than the 64-byte field, LOG_ONLY exactly for INFO |
| EwSim.ActionOnlyFromLevel | src/CProgram/ew/ew_sim.c:167-171 | each alert level has its own action text, shorter than the 64-byte field |
| EwSim.ReportOf | src/CProgram/ew/ew_sim.c:150-175 | the given number, time and source; a known threat class; confidence equal to the detection score; the action of its alert level; INFO without detection; only two tag bits |
| EwSim.ReportConsistent | src/CProgram/ew/ew_sim.c:150-175 | a report's confidence is its detection score in [0, 1], its action follows its alert level, an alert above INFO means a detection, and its geometry is the signal's |
| EwSim.ReportIds.constructor | src/CProgram/ew/ew_sim.c:73 | report numbering starts at 1000 |
| EwSim.ReportIds.NextReportId | src/CProgram/ew/ew_sim.c:72-75 | each call returns the counter and advances it by one |
| EwSim.ReportIds.BuildReport | src/CProgram/ew/ew_sim.c:150-175 | build_report fills in the report for the next number and advances the counter |
| EwSim.ReportNumbering | src/CProgram/ew/ew_sim.c:72-75 | the first two reports are numbered 1000 and 1001 |
| EwSim.IdsIncrease | src/CProgram/ew/ew_sim.c:72-75 | successive report numbers strictly increase |
| WeaponPylon.Pylon.constructor | src/CProgram/weapon/main.c:8-18 | the global records start zeroed |
| WeaponPylon.Pylon.CalcInterceptDecision | src/CProgram/weapon/main.c:20-25 | the decision is 1 exactly when the target is within 15 km and time to go is positive, and nothing else changes |
| WeaponPylon.Pylon.CalcInterceptParam | src/CProgram/weapon/main.c:27-31 | the parameters follow the lead, launch and intercept-time rule, and nothing else changes |
| WeaponPylon.Pylon.CalcFireCommand | src/CProgram/weapon/main.c:33-38 | fire is 1 exactly when the stored decision allows it and ammunition remains, and nothing else changes |
| WeaponPylon.Pylon.Process | src/CProgram/weapon/main.c:41-45 | the chain computes the decision first, so the fire command is 1 exactly when this cycle's inputs allow an intercept and ammunition remains |
| WeaponPylon.ParamsRule | src/CProgram/weapon/main.c:27-31 | the lead is a tenth of the azimuth, launch is at 1.2 s, intercept time times 300 m/s is the distance, and a farther target never takes less time |
| WeaponPylon.Demonstration | src/CProgram/weapon/main.c:47-62 | the demonstration at 12 km and 30 degrees with two rounds never sets time to go, so the decision is 0, the lead 3 and no fire |
| Mfd.PyInt | src/PythonProgram/mfd_sim/sim_core.py:173 | int() of a string of decimal digits is that number, and int() of the empty string raises ValueError |
| Mfd.NextIndex | src/PythonProgram/mfd_sim/sim_core.py:172-174 | the next waypoint number, when int() accepts the name's suffix, is between 1 and 5 |
| Mfd.NextDistance | src/PythonProgram/mfd_sim/sim_core.py:176 | the next distance is at least 1000 m: 500 m less from 1500 m up, 1000 m below that |
| Mfd.AllDigitsDecimal | src/PythonProgram/mfd_sim/sim_core.py:175 | the number written after "WP" is all digits |
| Mfd.WaypointsCycle | src/PythonProgram/mfd_sim/sim_core.py:172-175 | WP1 to WP5 step to the next number, WP5 back to WP1 |
| Mfd.OtherNamesGoToWp2 | src/PythonProgram/mfd_sim/sim_core.py:173-174 | a name that does not start with "WP" moves to WP2 |
| Mfd.BadWaypointRaises | src/PythonProgram/mfd_sim/sim_core.py:173 | "WP" with an empty or non-numeric suffix raises ValueError |
| Mfd.NegativeWaypointNumber | src/PythonProgram/mfd_sim/sim_core.py:174 | Python's floored % sends WP-2 to WP4 |
| Mfd.Bandwidth | src/PythonProgram/mfd_sim/sim_core.py:100-106 | 0 without a link; otherwise the figure times the link speed is length × rate × 800 |
| Mfd.BandwidthRule | src/PythonProgram/mfd_sim/sim_core.py:100-106 | no link gives 0%; otherwise the figure times the link speed is length × rate × 800, it is non-negative for non-negative inputs, 100% exactly when the stream's bits per second equal the link speed, and doubling the length doubles it |
| Mfd.Lookup | src/PythonProgram/mfd_sim/sim_core.py:90-91 | a found value belongs to an entry with that key; nothing is found only when no entry has the key |
| Mfd.Split | src/PythonProgram/mfd_sim/sim_core.py:86 | name.split(".") always gives at least one piece |
| Mfd.JoinSplit | src/PythonProgram/mfd_sim/sim_core.py:86 | joining the pieces with dots gives back the name |
| Mfd.SplitNoDot | src/PythonProgram/mfd_sim/sim_core.py:86 | a name without a dot is a single piece |
| Mfd.SplitTwo | src/PythonProgram/mfd_sim/sim_core.py:86 | "a.b" splits into a and b when neither has a dot |
| Mfd.KeyIndex | src/PythonProgram/mfd_sim/sim_core.py:96 | the index found holds the key, or the key is absent |
| Mfd.Assign | src/PythonProgram/mfd_sim/sim_core.py:96 | filtered[name] = value leaves the key present, keeps every other entry and adds no entry but (name, value) |
| Mfd.Resolve | src/PythonProgram/mfd_sim/sim_core.py:86-94 | an empty path gives the value itself; a resolved non-empty path goes through an object holding its first key |
| Mfd.Filtered | src/PythonProgram/mfd_sim/sim_core.py:80-96 | each collected entry is a listed non-empty field name paired with the value its dotted path resolves to |
| Mfd.FilteredSound | src/PythonProgram/mfd_sim/sim_core.py:80-96 | the filter keeps exactly the non-empty field names whose dotted path resolves in the payload, each with the value the path leads to |
| Mfd.KeyOf | src/PythonProgram/mfd_sim/sim_core.py:96 | an entry's key is among the keys |
| Mfd.OutputMultiplexer.constructor | src/PythonProgram/mfd_sim/sim_core.py:16-18 | a new multiplexer has the given link speed and no ICD fields |
| Mfd.OutputMultiplexer.FilterFields | src/PythonProgram/mfd_sim/sim_core.py:81-96 | the filter loop collects the filtered entries the rule defines |
| Mfd.OutputMultiplexer.Encode | src/PythonProgram/mfd_sim/sim_core.py:44-97 | the payload encode serialises is the filtered entries when some ICD field resolves, otherwise the full payload |
| Mfd.FilteredSingle | src/PythonProgram/mfd_sim/sim_core.py:80-96 | a single resolvable field name filters the payload down to that one entry |
| Mfd.SplitAltitudeName | src/PythonProgram/mfd_sim/sim_core.py:86 | "flight.altitude_m" splits into "flight" and "altitude_m" |
| Mfd.LookupFlight | src/PythonProgram/mfd_sim/sim_core.py:51-60 | the payload's "flight" key holds the flight record |
| Mfd.LookupAltitude | src/PythonProgram/mfd_sim/sim_core.py:53 | the flight record's "altitude_m" key holds the altitude |
| Mfd.ResolveAltitude | src/PythonProgram/mfd_sim/sim_core.py:86-94 | the path "flight.altitude_m" leads to the altitude |
| Mfd.AltitudeOnly | src/PythonProgram/mfd_sim/sim_core.py:80-97 | an ICD naming only flight.altitude_m reduces the frame to that one entry |
| Mfd.FallbackRule | src/PythonProgram/mfd_sim/sim_core.py:97 | the full payload is sent exactly when no ICD field name resolves |
| Mfd.MfdSimulator.constructor | src/PythonProgram/mfd_sim/sim_core.py:128-135 | a new simulator has the default records and page "overview" |
| Mfd.MfdSimulator.SetPage | src/PythonProgram/mfd_sim/sim_core.py:159-162 | set_page changes only the page |
| Mfd.MfdSimulator.ToggleLock | src/PythonProgram/mfd_sim/sim_core.py:164-167 | toggle_lock negates the lock flag and changes nothing else |
| Mfd.MfdSimulator.NextWaypoint | src/PythonProgram/mfd_sim/sim_core.py:169-176 | next_waypoint moves to the next name in the WP1..WP5 cycle and a distance 500 m shorter but at least 1000 m; a WP name whose suffix int() rejects raises ValueError before anything changes |
| Mfd.ToggleTwice | src/PythonProgram/mfd_sim/sim_core.py:164-167 | two toggles restore the lock flag and the flight record |
| IrstSensor.SnrOf | src/PythonProgram/irst/sim/irst_sensor.py:48-49 | the SNR is at least 1: either 1 or 20 dB falling 0.01 dB per metre scaled by the signature left after stealth |
| IrstSensor.ConfidenceOf | src/PythonProgram/irst/sim/irst_sensor.py:50 | the confidence is at most 1, at least 0.52 for an SNR of at least 1, and otherwise 0.5 plus 0.02 per dB |
| IrstSensor.ObservationsSound | src/PythonProgram/irst/sim/irst_sensor.py:36-52 | no more detections than targets; every detection comes from an in-view target at its index, with SNR at least 1, confidence in [0.52, 1] and angles within half the field of view; every in-view target gives one |
| IrstSensor.DetectionIds | src/PythonProgram/irst/sim/irst_sensor.py:51 | a detection's id is "D_" followed by its target's index, which can be read back |
| IrstSensor.Observe | src/PythonProgram/irst/sim/irst_sensor.py:36-52 | observe appends, in target order, a detection for every target whose look falls within the field of view |
| IrstSensor.ClampPixel | src/PythonProgram/irst/sim/irst_sensor.py:60 | max(0, min(hi, v)) is never negative, never above a non-negative hi, and leaves an in-range value alone |
| IrstSensor.ProjectToImage | src/PythonProgram/irst/sim/irst_sensor.py:54-60 | projection fails with ZeroDivisionError exactly for a zero field of view; otherwise the pixel lies within the image |
| IrstSensor.TruncMonotone | src/PythonProgram/irst/sim/irst_sensor.py:58 | int() truncation keeps order |
| IrstSensor.ClampMonotone | src/PythonProgram/irst/sim/irst_sensor.py:60 | the clamp keeps order |
| IrstSensor.ScaleMonotone | src/PythonProgram/irst/sim/irst_sensor.py:58 | scaling by a positive half field of view and a non-negative half width keeps order |
| IrstSensor.PixelMonotone | src/PythonProgram/irst/sim/irst_sensor.py:58 | the unclamped pixel coordinate keeps the order of angles for a positive field of view |
| IrstSensor.ProjectMonotone | src/PythonProgram/irst/sim/irst_sensor.py:57-60 | with a positive field of view a larger azimuth never lands further left |
| IrstSensor.BoresightIsCentre | src/PythonProgram/irst/sim/irst_sensor.py:57-60 | the boresight projects onto the image centre (w // 2, h // 2) |
| IrstSensor.HalfTrunc | src/PythonProgram/irst/sim/irst_sensor.py:58 | int(n / 2) is n // 2 for a positive n |
| IrstDetector.BoxesRule | src/PythonProgram/irst/sim/detector.py:10-18 | the conversion fails with ZeroDivisionError exactly when there is a detection and a zero field of view; otherwise box i is detection i's pixel shifted by box_size // 2, box_size square, with its confidence |
| IrstDetector.BoxCoversPixel | src/PythonProgram/irst/sim/detector.py:16-17 | a box of positive size contains the pixel it was drawn around |
| IrstDetector.DetectionsToBoxes | src/PythonProgram/irst/sim/detector.py:13-18 | the loop builds the boxes the rule defines, stopping at the first failing projection |
| IrstDetector.PrefixFailure | src/PythonProgram/irst/sim/detector.py:14-15 | once a prefix of the detections fails, the whole conversion fails with the same error |
| DasFusion.FusePositions | src/PythonProgram/dist_aperture_sim/sim/fusion.py:23-28 | a weight sum of at most 1e-9 gives the origin; otherwise each coordinate times the weight sum is the weighted sum of that coordinate |
| DasFusion.SingleSample | src/PythonProgram/dist_aperture_sim/sim/fusion.py:23-28 | one sample with more than the minimum weight fuses to its own position |
| DasFusion.WeightedXBounds | src/PythonProgram/dist_aperture_sim/sim/fusion.py:26 | with non-negative weights the weighted x sum lies between the x bounds times the weight sum |
| DasFusion.WeightedYBounds | src/PythonProgram/dist_aperture_sim/sim/fusion.py:27 | with non-negative weights the weighted y sum lies between the y bounds times the weight sum |
| DasFusion.DivideBounds | src/PythonProgram/dist_aperture_sim/sim/fusion.py:26-27 | dividing bounds on a weighted sum by the positive weight sum bounds the average |
| DasFusion.FusedWithinRange | src/PythonProgram/dist_aperture_sim/sim/fusion.py:23-28 | with non-negative weights and a non-origin result, the fused position lies within the samples' x and y ranges |
| EwInjection.UniformWithin | src/PythonProgram/dist_aperture_sim/sim/ew_simulator.py:28 | uniform(-s, s) lies within abs(s) of zero |
| EwInjection.FalsePoints | src/PythonProgram/dist_aperture_sim/sim/ew_simulator.py:25-28 | one false point per draw |
| EwInjection.InjectFalsePoints | src/PythonProgram/dist_aperture_sim/sim/ew_simulator.py:24-29 | the result is a copy of the points followed by one false point per round, and none when there is no point to copy |
| EwInjection.InjectedRule | src/PythonProgram/irst/sim/ew.py:15-23 | each false point lies within abs(spread) of its chosen original on both axes |
| EwInjection.JammedSnr | src/PythonProgram/dist_aperture_sim/sim/ew_simulator.py:32-43 | the jammed SNR is never negative and is either 0 or the SNR less the reduction |
| EwInjection.JammingRule | src/PythonProgram/dist_aperture_sim/sim/ew_simulator.py:43 | jamming keeps the order of SNRs, never raises a non-negative SNR under a non-negative reduction, and a reduction of at least the SNR gives 0 |
| EwInjection.AngleBiasBounded | src/PythonProgram/irst/sim/ew.py:9-12 | the bias moves each angle by at most abs(bias), and a mid-range draw leaves the angle unchanged |
| Common.TruncToInt | src/PythonProgram/irst/sim/irst_sensor.py:58 | int() of a real truncates toward zero: the result's magnitude is within one below the value's, with the same sign |
| Common.FloorMod | src/PythonProgram/mfd_sim/sim_core.py:174 | a floored modulo by a positive number lies in [0, m) and leaves a value already there alone |
| Common.Decimal | src/PythonProgram/irst/sim/irst_sensor.py:51 | a decimal rendering is a non-empty string of digits |
| Common.ParseDecimalOfDecimal | src/PythonProgram/irst/sim/irst_sensor.py:51 | reading back a decimal rendering gives the number |
| Common.ToBE | src/PythonProgram/weapon/protocols/can.py:11 | the n-byte big-endian encoding has n bytes and reads back as the value |
| Common.ToBEFromBE | src/PythonProgram/weapon/protocols/can.py:17 | every n-byte sequence is the big-endian encoding of what it reads as |

## Left out

- User interfaces (PyQt, matplotlib and pyqtgraph windows, panels and entry scripts) are not modelled. They are rendering only.
- Sockets, threads and timers are not modelled. This covers `NetworkInterface` in radar_core.py, the UDP/TCP senders and listeners, the `cni_udp_sim.c` main loop and `send_report`, and the MFD `_on_tick` timer step and `send`. They are I/O and concurrency, and `_on_tick` is driven by the clock and `math.sin`.
- The random target generators (`generate_*` in radar_core.py and radar_simulation.py) are not modelled. Random draws elsewhere (`random.choice`, `random.uniform`, `random.gauss`) are parameters: the chosen index and the unit variate.
- Trigonometry, `sqrt`, `log10` and geodesy are parameters. This covers the radar fusion azimuth blend, the IRST `observe` line-of-sight geometry (each target's look is given), the CNI lat/lon offset and track SNR, and the CNI short-wave path loss.
- IEEE single and double precision is not modelled. Codec float fields are opaque byte blocks. Narrowing a double into a 4-byte field and widening it back are parameters. Elsewhere, float arithmetic is exact real arithmetic, so rounding, NaN and infinity are outside the model.
- Text serialisation is not modelled. This covers `json.dumps`/`json.loads` (JSON values are modelled as structured data), the printf/snprintf formatting of the C simulators (the "FUEL LOW" text keeps only its value), the EW JSON text and `load_icd`'s file reading.
- `sscanf` is not modelled. A received CNI line comes with the fields sscanf would have scanned from it.
- Integer parsing is only partly modelled. Python `int()` on strings covers an optional sign and decimal digits only, without whitespace or underscores. In the radar connection tool's config it is a parameter.
- The `default_*_library` tables in ew/models.py are not modelled. They are constant data.
- Null-pointer guards of the C functions are modelled only where they change a result (`Hud.ProcessFrame`, `Hud.MapTargetToSymbol`). `detect_signal`, `classify_threat`, `assess_alert_level` and `build_report` are modelled for present arguments.
- EwSim.ReportIds.NextReportId: the 64-bit wrap-around of the static counter is not modelled, because it takes 2^64 reports.
- Hud.HudOutputs.Process: the 16-bit counts are modelled as unbounded; `target_count` above 128 reads past the target array in C, so the model requires a count within the array.
- CniUdp.CniInputs.ProcessStep: the break at 128 tracks is modelled (in `CniUdp.CniInputs.Tracks`), but it is never taken, since there are only 128 slots and each adds at most one track.
- IrstSensor.ProjectToImage: `int()` of NaN or infinity (raising ValueError or OverflowError in Python) is outside the real-number model.
- WeaponBus.Recent: its own contract gives only the length; the content of the trimmed history is stated by `WeaponBus.RecentSnoc`.
- DasTracker.Tracker.GetTracks and IrstTracker.Tracker.List return the track sequence in insertion order and carry no contract beyond that.
- RadarConnect.BuildProtocolJson: the port and the frame id arrive as integers. The `int()` conversions of radar_connect_ui.py lines 129 and 132, and the ValueError they raise for text that is not a number, are not modelled.
- Mfd.OutputMultiplexer.FilterFields: each ICD field entry arrives as its "name" value, or None when it has none. An entry that is not a dictionary, or a name that is not a string, raises AttributeError in the source (`f.get`, `name.split`); that case is not modelled.
- WeaponModels.WeaponSystem.CanRelease reads the six interlocks directly. Its meaning is stated through `WeaponRelease.StartedIffReleasable`.
