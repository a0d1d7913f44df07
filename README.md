# pamixermidicontrol — device protocol, rule resolution and dispatch in Dafny

pamixermidicontrol maps the pads, knobs, sliders and transport buttons of a
MIDI controller to PulseAudio actions (set a volume, toggle a mute, change
the default output). The MIDI parameters of each control are not written in
the configuration. At start-up the program asks the controller for its
current program or scene over SysEx and reads them from the dump. This
project models that layer and proves properties of it:

- `KorgSysEx` (`korg_sysex.dfy`): Korg's MIDI-safe 8→7 encoding. Each 8-byte
  chunk carries a collector byte with the top bits of the 7 bytes that follow.
  `MidiDataToData` is a method with nested loops, proved equal to the
  specification `Unpacked`. `DataToMidiData` is modelled as written and
  always returns the empty sequence. A corrected encoder is proved to
  round-trip (see Findings).
- `Device` (`sysex_message.dfy`): the SysEx exchange. A `SysExMessage` pairs
  a request frame with the handler that checks and decodes the response. The
  MIDI port is a `Link` oracle that maps a request to the one frame the
  device answers with, or to a driver failure.
- `NanoKontrol2` (`nanokontrol2.dfy`) and `Lpd8` (`lpd8.dfy`): the two device
  adapters. Each has its request frames, its length-checking response
  handlers and `UpdateRules`. `UpdateRules` fetches the dump and then keeps,
  resolves or drops each rule of the device. The path grammars (`GroupN/...`,
  `Transport/...`, `PadN/...`, `KnobN`) are explicit parsers, proved to
  accept exactly the paths the regular expressions accept. The offsets are
  proved to stay inside the 339-byte scene and the 57-byte program.
- `RuleResolution` (`rule_resolution.dfy`): the loop shape both `UpdateRules`
  share. Rules of other devices are omitted. Rules with an empty path pass
  through unchanged. The output keeps input order.
- `MidiClient` (`midi_client.dfy`): `onMessage` matches a decoded Note,
  ControlChange or ProgramChange message against the rules. `doActions` runs
  a matching rule's actions in order. The PulseAudio calls are returned as a
  trace of `MixerCall` records.
- `EndToEnd` (`end_to_end.dfy`): the choice of adapter by device type, and
  two scenarios that go from a symbolic rule to the calls a live message makes.
- `Configuration` (`configuration.dfy`): the records of
  `src/configuration/types.go` as datatypes. A Go `byte`/`uint8` is `bv8`,
  so byte arithmetic wraps as it does in Go.

Behaviours of the code that the model keeps, where a description of the
design would suggest otherwise:

- A nanoKONTROL2 button whose assign-type byte is neither 1 nor 2 is not
  dropped. It is emitted with no type (`NoType`), and such a rule never fires.
- `Transport/Rec` reads its assign type one byte after its record start
  (313), where every other transport control reads the first byte of its record.
- The bottom transport row reads the transport channel twice. The result is
  the same as reading it once.
- The volume is `value / (max - min)`, computed on bytes, with `value` not
  offset by `min`. For min 32, max 96 and value 64 the divisor is 64, so the
  volume is 1, not the 0.5 a range mapping would give. An unset maximum
  stands for 0x7F.
- Note messages match on the rule's `controller` field, not its `note` field.
  A program change fires every program-change rule on its channel, whatever
  the program number, and always with the value 0x7F.
- `doActions` switches on a `Mute` constant that the configuration types do
  not declare. It is modelled as `ToggleMute`. With trigger value 0, a
  toggle-mute or default-output action returns from `doActions`, so the
  rule's later actions do not run. Unknown action kinds are skipped.
- The LPD8 active-program handler reports its length error under the mode
  response's name. The LPD8 program handler reports its length error under
  the scene dump's name.
- Go's `regexp` does not let `.` match a line feed, and its `$` anchors at the
  end of the text. So `PadN/<suffix>` needs a suffix without a line feed, and
  `Transport/` is a prefix test.

## Model

| member | source | states |
|---|---|---|
| `KorgSysEx.MidiDataToData` | src/device/korg/sysex.go:9-18 | the nested chunk/byte loops return exactly `Unpacked(midiData)`, the concatenation of the per-chunk decodings |
| `KorgSysEx.Chunk` | src/device/korg/sysex.go:11 | `lo.Chunk`: every chunk is non-empty and at most `size` long |
| `KorgSysEx.ChunkJoin` | src/device/korg/sysex.go:11 | chunking loses and reorders nothing; only the last chunk may be short |
| `KorgSysEx.ChunkCount` | src/device/korg/sysex.go:11 | n bytes make ⌈n/size⌉ chunks |
| `KorgSysEx.UnpackByteBits` | src/device/korg/sysex.go:14 | output byte i is `((chunk[0] >> i) & 1) << 7` plus the data byte, mod 256; for a 7-bit data byte, bit 7 is bit i of the collector and the low 7 bits are the data byte |
| `KorgSysEx.UnpackChunksAppend` | src/device/korg/sysex.go:12-16 | decoding a list of chunks is the concatenation of the decodings of its parts |
| `KorgSysEx.UnpackChunksLength` | src/device/korg/sysex.go:12-16 | a chunk of k bytes yields k − 1 bytes |
| `KorgSysEx.UnpackedLength` | src/device/korg/sysex.go:9-18 | n input bytes decode to n − ⌈n/8⌉ bytes; empty decodes to empty |
| `KorgSysEx.SceneDumpDecodedLength` | src/device/korg/nanokontrol2/KorgNanoKontrol2.go:128-129 | the 388 MIDI-safe scene bytes decode to 339 bytes |
| `KorgSysEx.ChunkAppend` | src/device/korg/sysex.go:11 | a prefix whose length is a multiple of 8 is chunked on its own |
| `KorgSysEx.UnpackedAppend` | src/device/korg/sysex.go:9-18 | decode(a ++ b) = decode(a) ++ decode(b) whenever \|a\| is a multiple of 8 |
| `KorgSysEx.UnpackedAt` | src/device/korg/sysex.go:12-14 | output position 7k + i comes from collector byte 8k and data byte 8k + i + 1 |
| `KorgSysEx.TrailingCollectorIgnored` | src/device/korg/sysex.go:13 | a trailing 1-byte chunk contributes nothing |
| `KorgSysEx.TrailingPartialChunk` | src/device/korg/sysex.go:12-14 | a trailing partial chunk is decoded from the bytes present only |
| `KorgSysEx.SingleChunk` | src/device/korg/sysex.go:11-16 | an input of at most one chunk decodes as that chunk |
| `KorgSysEx.UnpackChunksSingleton` | src/device/korg/sysex.go:12-16 | a one-chunk list decodes as its chunk |
| `KorgSysEx.DataToMidiData` | src/device/korg/sysex.go:20-34 | as written, the result is empty for every input, because it chunks its own empty accumulator |
| `KorgSysEx.AsWrittenRoundTripFails` | src/device/korg/sysex.go:22 | decoding what `DataToMidiData` returns gives back no non-empty input |
| `KorgSysEx.AppendPackedChunks` | src/device/korg/sysex.go:23-32 | the encoder's chunk loop appends, for each chunk, its collector byte and its 7-bit data bytes |
| `KorgSysEx.PackOneChunk` | src/device/korg/sysex.go:24-29 | one chunk of the encoder loop yields its collector byte followed by its 7-bit data bytes, as `PackChunk` |
| `KorgSysEx.MsbsBits` | src/device/korg/sysex.go:26-27 | bit i of the accumulated collector is bit 7 of byte i; no higher bit is set |
| `KorgSysEx.PackChunk` | src/device/korg/sysex.go:24-31 | a chunk of k bytes packs to k + 1 bytes |
| `KorgSysEx.DataToMidiDataCorrected` | src/device/korg/sysex.go:20-34 | with `lo.Chunk(data, 7)`, the encoder returns `Packed(data)` |
| `KorgSysEx.PackedIsMidiSafe` | src/device/korg/sysex.go:20-34 | the corrected encoder emits n + ⌈n/7⌉ bytes, all below 0x80 |
| `KorgSysEx.UnpackPackChunk` | src/device/korg/sysex.go:13-14 | unpacking a packed chunk gives the chunk back |
| `KorgSysEx.UnpackPackByte` | src/device/korg/sysex.go:14 | a packed byte and its collector bit restore the original byte |
| `KorgSysEx.RestoreByte` | src/device/korg/sysex.go:14 | the collector bit and the 7-bit part restore a byte |
| `KorgSysEx.ByteFromHalves` | src/device/korg/sysex.go:14 | a byte is determined by bit 7 and its low 7 bits |
| `KorgSysEx.UnpackedPackedRoundTrip` | src/device/korg/sysex.go:9-34 | `MidiDataToData` undoes the corrected encoder: unpack(pack(x)) = x for every x |
| `Device.EchoOfLength` | src/device/korg/nanokontrol2/KorgNanoKontrol2.go:94-107 | an informational reply is accepted exactly at its expected length and handed back raw with no payload; otherwise it is rejected with empty data |
| `Device.Send` | src/device/sysexmessage.go:33-48 | a driver failure is the only failure (the source panics); otherwise the one response frame the link delivers for the request is handed to the message's handler, whose reply is returned |
| `NanoKontrol2.ChannelByte` | src/device/korg/nanokontrol2/KorgNanoKontrol2.go:87 | byte 2 is 0x40 + (channel & 0x0F) and lies in 0x40..0x4F |
| `NanoKontrol2.DumpRequest` | src/device/korg/nanokontrol2/KorgNanoKontrol2.go:84-93 | an 11-byte 0xF0…0xF7 frame: Korg header, command 0x1F, function code at byte 8 |
| `NanoKontrol2.ModeRequest` | src/device/korg/nanokontrol2/KorgNanoKontrol2.go:84-93 | 11 bytes, 0xF0…0xF7, byte 8 = 0x12 |
| `NanoKontrol2.SceneDumpRequest` | src/device/korg/nanokontrol2/KorgNanoKontrol2.go:112-121 | 11 bytes, 0xF0…0xF7, byte 8 = 0x10 |
| `NanoKontrol2.SceneWriteRequest` | src/device/korg/nanokontrol2/KorgNanoKontrol2.go:169-178 | 11 bytes, 0xF0…0xF7, byte 8 = 0x11 |
| `NanoKontrol2.ChannelHighBitsIgnored` | src/device/korg/nanokontrol2/KorgNanoKontrol2.go:87 | only the low nibble of the channel reaches the request frames |
| `NanoKontrol2.SearchDeviceRequest` | src/device/korg/nanokontrol2/KorgNanoKontrol2.go:55-59 | the 6-byte frame 0xF0 0x42 0x50 0x00 ID 0xF7 with the echo-back ID at byte 4; well formed exactly when the ID is a 7-bit byte |
| `NanoKontrol2.IdentityResponse` | src/device/korg/nanokontrol2/KorgNanoKontrol2.go:33-50 | accepted exactly at 13 bytes |
| `NanoKontrol2.SearchDeviceResponse` | src/device/korg/nanokontrol2/KorgNanoKontrol2.go:60-79 | accepted exactly at 13 bytes |
| `NanoKontrol2.ModeResponse` | src/device/korg/nanokontrol2/KorgNanoKontrol2.go:94-107 | accepted exactly at 9 bytes |
| `NanoKontrol2.SceneAckResponse` | src/device/korg/nanokontrol2/KorgNanoKontrol2.go:155-188 | the handlers of `sceneDumpMessage` (155-164) and `sceneWriteMessage` (179-188) are the same: each accepts exactly 9 bytes |
| `NanoKontrol2.SceneDumpResponse` | src/device/korg/nanokontrol2/KorgNanoKontrol2.go:122-131 | accepted exactly at 400 bytes, with raw = input and payload = `Unpacked(bytes[12..])` of 339 bytes; otherwise an error with empty raw and payload |
| `NanoKontrol2.SceneDumpHeader` | src/device/korg/nanokontrol2/KorgNanoKontrol2.go:140-151 | the 13-byte header of a scene dump: the Korg header, then 0x7F 0x7F 0x02 0x03 0x05 (the data dump command) and 0x40 (current scene data) |
| `NanoKontrol2.ModeMessage` | src/device/korg/nanokontrol2/KorgNanoKontrol2.go:83-109 | the mode message sends the mode request |
| `NanoKontrol2.SceneDumpRequestMessage` | src/device/korg/nanokontrol2/KorgNanoKontrol2.go:111-133 | the scene dump request message sends the 0x10 request |
| `NanoKontrol2.SceneWriteMessage` | src/device/korg/nanokontrol2/KorgNanoKontrol2.go:168-190 | the scene write message sends the 0x11 request |
| `NanoKontrol2.SearchDeviceMessage` | src/device/korg/nanokontrol2/KorgNanoKontrol2.go:54-81 | the search message sends the search request |
| `NanoKontrol2.SceneDumpMessage` | src/device/korg/nanokontrol2/KorgNanoKontrol2.go:135-166 | scene data of any length but 339 is refused; otherwise the frame is header ++ scene ++ [0xF7], 353 bytes |
| `NanoKontrol2.SceneDumpFrameIsMidiSafe` | src/device/korg/nanokontrol2/KorgNanoKontrol2.go:139-154 | the unpacked scene is sent as it is, so the frame is well formed exactly when every scene byte is below 0x80 |
| `NanoKontrol2.AssignTypeToMidiMessageType` | src/device/korg/nanokontrol2/KorgNanoKontrol2.go:202-209 | ControlChange exactly for 1, Note exactly for 2, never ProgramChange |
| `NanoKontrol2.GroupControlOf` | src/device/korg/nanokontrol2/KorgNanoKontrol2.go:219 | recognises exactly the five group control names |
| `NanoKontrol2.TransportControlOf` | src/device/korg/nanokontrol2/KorgNanoKontrol2.go:221-224 | recognises exactly the eleven transport control names |
| `NanoKontrol2.GroupPathShape` | src/device/korg/nanokontrol2/KorgNanoKontrol2.go:219 | a group path is `Group`, one digit, `/`, a control name, and is no transport path |
| `NanoKontrol2.ParseControlPath` | src/device/korg/nanokontrol2/KorgNanoKontrol2.go:219-373 | first match: a group path, else a transport path, else a `Transport/` path naming no control, else unmatched, each classified with its grammar's exact language |
| `NanoKontrol2.ParseGroupPath` | src/device/korg/nanokontrol2/KorgNanoKontrol2.go:227-231 | `GroupN/<control>` parses to group N and that control |
| `NanoKontrol2.TransportControlOfName` | src/device/korg/nanokontrol2/KorgNanoKontrol2.go:221-224 | every transport control's name is recognised as that control |
| `NanoKontrol2.ParseTransportPath` | src/device/korg/nanokontrol2/KorgNanoKontrol2.go:264-323 | every transport path parses to its control |
| `NanoKontrol2.GroupIndex` | src/device/korg/nanokontrol2/KorgNanoKontrol2.go:232 | base = 3 + (N − 1)·31 lies in 3..220 |
| `NanoKontrol2.GroupIndexNoWrap` | src/device/korg/nanokontrol2/KorgNanoKontrol2.go:232 | the byte arithmetic of the group index does not wrap for N in 1..8 |
| `NanoKontrol2.GroupIndexByte` | src/device/korg/nanokontrol2/KorgNanoKontrol2.go:229-232 | the group index as computed on bytes equals 3 + (N − 1)·31 |
| `NanoKontrol2.ControllerOffset` | src/device/korg/nanokontrol2/KorgNanoKontrol2.go:239-262 | a group control's controller byte is at base + 3, 9, 15, 21 or 27 |
| `NanoKontrol2.AssignTypeOffset` | src/device/korg/nanokontrol2/KorgNanoKontrol2.go:247-262 | only Solo, Mute and Record read an assign type, two bytes before their controller |
| `NanoKontrol2.TransportIndex` | src/device/korg/nanokontrol2/KorgNanoKontrol2.go:274-360 | transport records start at 252, 258, …, 312 |
| `NanoKontrol2.ChannelOrGlobal` | src/device/korg/nanokontrol2/KorgNanoKontrol2.go:235-238 | a channel byte of 16 is replaced by the global channel; any other is kept |
| `NanoKontrol2.ResolvedIffInGrammar` | src/device/korg/nanokontrol2/KorgNanoKontrol2.go:219-373 | a rule is resolved exactly when its path is in the group or transport grammars; unmatched paths are dropped |
| `NanoKontrol2.ResolutionKeepsIdentity` | src/device/korg/nanokontrol2/KorgNanoKontrol2.go:233-263 | resolution keeps the actions, device name, path and program |
| `NanoKontrol2.GroupFaderResolution` | src/device/korg/nanokontrol2/KorgNanoKontrol2.go:227-246 | a slider or knob is a ControlChange on the group's channel with controller/min/max at base + 3..5 or base + 9..11 |
| `NanoKontrol2.GroupButtonResolution` | src/device/korg/nanokontrol2/KorgNanoKontrol2.go:247-263 | Solo/Mute/Record take their type from base + 13/19/25 (1 → ControlChange, 2 → Note, other → no type) and controller/min/max from the three bytes after the next; the rule is emitted even when it has no type |
| `NanoKontrol2.Group2Slider` | src/device/korg/nanokontrol2/KorgNanoKontrol2.go:232-242 | `Group2/Slider` reads its channel at 34 and its controller, min and max at 37, 38 and 39 |
| `NanoKontrol2.TransportResolution` | src/device/korg/nanokontrol2/KorgNanoKontrol2.go:264-367 | channel from byte 251 (16 → global); type from the record's byte 0 (byte 1 for Rec); note = controller = byte 2; min, max = bytes 3, 4; every read is at most 316 |
| `NanoKontrol2.TransportPlay` | src/device/korg/nanokontrol2/KorgNanoKontrol2.go:352-358 | `Transport/Play` reads its record at 306..310 |
| `NanoKontrol2.FetchSceneData` | src/device/korg/nanokontrol2/KorgNanoKontrol2.go:197-201 | the scene is the decoded reply to a channel-0 scene dump request; a driver failure or a wrong length is a failure |
| `NanoKontrol2.ReadChannel` | src/device/korg/nanokontrol2/KorgNanoKontrol2.go:235-238 | a control's channel is its channel byte, with 16 replaced by the global channel |
| `NanoKontrol2.UpdateGroupRule` | src/device/korg/nanokontrol2/KorgNanoKontrol2.go:227-263 | the field-by-field updates of the group branch give the group resolution |
| `NanoKontrol2.UpdateTransportRule` | src/device/korg/nanokontrol2/KorgNanoKontrol2.go:264-367 | the field-by-field updates of the transport branches give the transport resolution |
| `NanoKontrol2.UpdateRule` | src/device/korg/nanokontrol2/KorgNanoKontrol2.go:217-373 | a rule with a path is resolved by its grammar or dropped |
| `NanoKontrol2.UpdateRules` | src/device/korg/nanokontrol2/KorgNanoKontrol2.go:192-379 | the loop returns the scene-based resolution of the rules, or the error the source panics with |
| `RuleResolution.ResolveRules` | src/device/korg/nanokontrol2/KorgNanoKontrol2.go:213-376 | the rules both `UpdateRules` loops return (one or none per input rule), so never more rules than went in |
| `RuleResolution.ResolvedRulesOrigin` | src/device/akai/lpd8/AkaiLpd8.go:116-167 | every output rule is an input rule of this device, kept unchanged when its path is empty and resolved otherwise |
| `RuleResolution.ResolveRulesSnoc` | src/device/akai/lpd8/AkaiLpd8.go:116-167 | one more input rule appends what the loop emits for it |
| `RuleResolution.ResolveRulesAppend` | src/device/korg/nanokontrol2/KorgNanoKontrol2.go:213-377 | rules are processed one by one, in input order |
| `RuleResolution.ResolveSingle` | src/device/akai/lpd8/AkaiLpd8.go:116-167 | a one-rule list yields what the loop emits for that rule |
| `RuleResolution.ResolveRulesSplit` | src/device/korg/nanokontrol2/KorgNanoKontrol2.go:213-376 | each rule is kept, resolved or dropped at its own place; the rules around it are unaffected |
| `RuleResolution.ConcreteRulesPassThrough` | src/device/akai/lpd8/AkaiLpd8.go:164-166 | rules of this device with an empty path come back unchanged and in order |
| `RuleResolution.ForeignRulesOmitted` | src/device/akai/lpd8/AkaiLpd8.go:117-119 | rules naming another device are omitted |
| `Lpd8.ActiveProgramRequest` | src/device/akai/lpd8/AkaiLpd8.go:55-61 | the fixed 8-byte frame 0xF0 0x47 0x7F 0x75 0x64 0x00 0x00 0xF7 (Akai LPD8, request active program) |
| `Lpd8.ProgramRequest` | src/device/akai/lpd8/AkaiLpd8.go:75-81 | the 9-byte frame 0xF0 0x47 0x7F 0x75 0x63 0x00 0x01 N 0xF7, with the program number N at index 7; well formed exactly when N is a 7-bit byte |
| `Lpd8.IdentityResponse` | src/device/akai/lpd8/AkaiLpd8.go:33-50 | accepted exactly at 33 bytes |
| `Lpd8.ActiveProgramResponse` | src/device/akai/lpd8/AkaiLpd8.go:62-70 | accepted exactly at 7 bytes, with payload [bytes[6]]; otherwise an error with empty raw and payload |
| `Lpd8.ProgramResponse` | src/device/akai/lpd8/AkaiLpd8.go:82-91 | accepted exactly at 64 bytes, with payload bytes[7..] of 57 bytes; otherwise an error with empty raw and payload |
| `Lpd8.ActiveProgramRequestMessage` | src/device/akai/lpd8/AkaiLpd8.go:54-72 | the message sends the active program request |
| `Lpd8.ProgramRequestMessage` | src/device/akai/lpd8/AkaiLpd8.go:74-93 | the message sends the program request for the given number |
| `Lpd8.ParseControlPath` | src/device/akai/lpd8/AkaiLpd8.go:122-163 | pad grammar first, then knob grammar, each classified with its grammar's exact language; anything else, Pad9 and Knob9 included, is unmatched |
| `Lpd8.PadPathShape` | src/device/akai/lpd8/AkaiLpd8.go:122 | a pad path is `Pad`, one digit, `/`, the suffix |
| `Lpd8.KnobPathShape` | src/device/akai/lpd8/AkaiLpd8.go:126 | a knob path is `Knob` and one digit |
| `Lpd8.ParsePadPath` | src/device/akai/lpd8/AkaiLpd8.go:129-132 | `PadN/<suffix>` parses to pad N with that suffix |
| `Lpd8.ParseKnobPath` | src/device/akai/lpd8/AkaiLpd8.go:149-152 | `KnobN` parses to knob N |
| `Lpd8.PadIndex` | src/device/akai/lpd8/AkaiLpd8.go:133 | padIndex = 1 + (N − 1)·4, computed on bytes |
| `Lpd8.KnobIndex` | src/device/akai/lpd8/AkaiLpd8.go:153 | knobIndex = 33 + (N − 1)·3, computed on bytes |
| `Lpd8.PadIndexNoWrap` | src/device/akai/lpd8/AkaiLpd8.go:133 | the byte arithmetic of the pad index does not wrap |
| `Lpd8.KnobIndexNoWrap` | src/device/akai/lpd8/AkaiLpd8.go:153 | the byte arithmetic of the knob index does not wrap |
| `Lpd8.LayoutInBounds` | src/device/akai/lpd8/AkaiLpd8.go:133-159 | pads read bytes 1..32 and knobs bytes 33..56 of the 57-byte program; Pad1 → 1, Pad8 → 29, Knob1 → 33, Knob8 → 54 |
| `Lpd8.ResolvedIffInGrammar` | src/device/akai/lpd8/AkaiLpd8.go:129-163 | a rule is resolved exactly when its path is a pad or knob path for 1..8; otherwise it is dropped |
| `Lpd8.PadResolution` | src/device/akai/lpd8/AkaiLpd8.go:129-148 | note, program, controller = data[padIndex], data[padIndex+1], data[padIndex+2]; min 0, max 0x7F; global channel; Note/ControlChange/ProgramChange suffix sets the type, any other suffix keeps the configured type |
| `Lpd8.KnobResolution` | src/device/akai/lpd8/AkaiLpd8.go:149-160 | ControlChange on the global channel with controller/min/max = data[idx..idx+2]; note and program kept |
| `Lpd8.ResolutionKeepsIdentity` | src/device/akai/lpd8/AkaiLpd8.go:135-160 | resolution keeps the actions, device name and path |
| `Lpd8.PadAndKnobRange` | src/device/akai/lpd8/AkaiLpd8.go:122-163 | `Pad8/Note` reads byte 29; `Pad9/Note`, `Pad0/Note`, `Knob9` and `Foo/Bar` are dropped |
| `Lpd8.FetchProgramData` | src/device/akai/lpd8/AkaiLpd8.go:100-111 | the program data is the reply to a request for exactly the program number the first reply carried; a driver failure or a wrong length is a failure |
| `Lpd8.UpdatePadRule` | src/device/akai/lpd8/AkaiLpd8.go:129-148 | the field-by-field updates of the pad branch give the pad resolution |
| `Lpd8.UpdateKnobRule` | src/device/akai/lpd8/AkaiLpd8.go:149-160 | the field-by-field updates of the knob branch give the knob resolution |
| `Lpd8.UpdateRules` | src/device/akai/lpd8/AkaiLpd8.go:95-169 | the loop returns the program-based resolution of the rules, or the error the source panics with |
| `MidiClient.VolumeRange` | src/midi/midiclient.go:118-130 | the divisor is max − min on bytes, where an unset max is 0x7F |
| `MidiClient.DoActions` | src/midi/midiclient.go:114-152 | the action loop, with its early returns, makes exactly the calls `ActionCalls` describes |
| `MidiClient.ActionCallsAppend` | src/midi/midiclient.go:115 | with a non-zero value, the actions run in declared order with no early return |
| `MidiClient.GatedActionEndsRule` | src/midi/midiclient.go:134-147 | with value 0, a toggle-mute or default-output action and all later actions make no call |
| `MidiClient.UnknownActionSkipped` | src/midi/midiclient.go:148-149 | an unknown action kind makes no call, and processing continues with the next action |
| `MidiClient.ActionCallsShape` | src/midi/midiclient.go:117-147 | each call names one of the rule's actions of the matching kind; volume calls carry the value itself and the rule's divisor; gated calls need a non-zero value |
| `MidiClient.AllKnownActionsRun` | src/midi/midiclient.go:115-149 | with a non-zero value, every known action makes exactly one call |
| `MidiClient.VolumeDenominatorDefaults` | src/midi/midiclient.go:117-131 | the defaults of min (0) and max (0x7F); min 32 and max 96 divide by 64; min 0x7F with max unset divides by 0 |
| `MidiClient.OnMessage` | src/midi/midiclient.go:153-207 | the three rule loops with their filters make exactly the calls `Dispatched` describes; SysEx bytes are forwarded to the exchange |
| `MidiClient.DispatchedAppend` | src/midi/midiclient.go:161-171 | rules are visited in list order |
| `MidiClient.DispatchedSplit` | src/midi/midiclient.go:161-202 | each rule contributes its own calls at its own place |
| `MidiClient.NothingMatches` | src/midi/midiclient.go:161-206 | an event that passes no rule's filters makes no call |
| `MidiClient.NeverFiring` | src/midi/midiclient.go:161-206 | SysEx and other messages make no call, and rules with no type never fire |
| `MidiClient.ChannelExact` | src/midi/midiclient.go:165-167 | rules on any channel other than the event's never fire |
| `MidiClient.NoteMatching` | src/midi/midiclient.go:156-172 | a note message fires exactly the Note rules on its channel whose controller (not note) is the key, with the velocity; Note On and Note Off alike |
| `MidiClient.ControlChangeMatching` | src/midi/midiclient.go:173-189 | a control change fires exactly the ControlChange rules on its channel and controller, with its value |
| `MidiClient.ProgramChangeMatching` | src/midi/midiclient.go:190-202 | a program change fires a rule exactly when it is a ProgramChange rule on the event's channel, whatever the program number, with the value 0x7F |
| `MidiClient.ProgramChangeIgnoresProgram` | src/midi/midiclient.go:190-202 | over a rule list, the program number is irrelevant: every ProgramChange rule on the channel fires with the value 0x7F, and every other rule makes no call |
| `EndToEnd.ClientRules` | src/midi/midiclient.go:217-227 | the device type picks the adapter: a nanoKONTROL2 or LPD8 replaces the rules by their resolution against the fetched dump, failing exactly when the fetch fails; a generic device keeps the rules |
| `EndToEnd.GenericDeviceKeepsRules` | src/midi/midiclient.go:217-227 | a generic device sends no request and keeps its rules unchanged |
| `EndToEnd.AdapterKeepsOwnRules` | src/midi/midiclient.go:217-227 | with an adapter, every rule the client dispatches on names the configured device and carries the actions of some configured rule |
| `EndToEnd.Group2SliderFires` | src/device/korg/nanokontrol2/KorgNanoKontrol2.go:227-242 | a `Group2/Slider` rule resolves to controller byte 37, and a control change there runs its actions with the message's value |
| `EndToEnd.Pad3NoteFires` | src/device/akai/lpd8/AkaiLpd8.go:129-148 | a `Pad3/Note` rule resolves to note byte 9 and controller byte 11, and a note on the global channel with key = byte 11 runs its actions |

## Findings

| source | as written | input that shows it | evidently intended | confidence | as-written member | corrected member |
|---|---|---|---|---|---|---|
| src/device/korg/sysex.go:22 | `lo.Chunk(midiData, 7)` chunks the empty output buffer, so the encoder always returns an empty sequence | any non-empty data, e.g. [0x80]: the result is [] and decoding it gives [] | `lo.Chunk(data, 7)`, so that `MidiDataToData` undoes the encoder | high (not executed) | `KorgSysEx.AsWrittenRoundTripFails` | `KorgSysEx.UnpackedPackedRoundTrip` |

## Left out

- `Send` (src/device/sysexmessage.go): the MIDI driver write and the blocking
  wait on the SysEx channel. They are replaced by a `Link` oracle that yields
  one response frame per request. A failed send, and the adapters' `panic(err)`,
  are `Failure` results. A hang on a device that never answers is not modelled.
- Identity requests: their frames come from the MIDI library's
  `sysex.IdentityRequest`, which is not part of this model. Only the length
  checks of their replies are modelled.
- The informational fields that the identity, search and mode handlers and
  the scene acknowledgements only log (little-endian IDs, version strings,
  result codes). Only their length checks are modelled.
- Logging of unknown control paths, length errors and unknown action kinds.
  Logging has no effect on the result.
- The MIDI library's message decoding (`GetNoteOn`, `GetControlChange`,
  `GetProgramChange`). The decoded channel and data bytes are inputs, so what
  the library reports for a Note Off message is not modelled.
- The float32 division of the volume, and the PulseAudio client behind
  `ProcessVolumeAction`, `ProcessToggleMute` and `SetDefaultOutput`. They are
  recorded as calls with (value, divisor), and the errors the client returns
  are only logged in the source. A divisor of 0 (for example min = max) gives
  an infinite float in the source, or NaN when the value is also 0 (volume
  actions are not gated, so a value of 0 reaches the division); the model
  stops at the divisor.
- Message types other than the three known ones. In the configuration the
  message type is a free string, so a rule may carry any unknown name. The
  model represents every unknown type string as `NoType`. This covers the
  type an LPD8 pad keeps when its suffix names no known type. Dispatch is
  unaffected, because a rule of an unknown type fires on no message, just as
  a `NoType` rule does.
- `MidiClient.Run`'s port lookup, opening and closing, `midi.ListenTo`, the
  goroutine per device and `select {}`. Only the choice of adapter is modelled.
- Configuration loading, YAML decoding and JSON-schema validation, CLI parsing
  and the PulseAudio client (src/configuration/configuration.go,
  src/pamixermidicontrol.go, src/pulseaudio/paclient.go) are not part of this
  model.
- Go's regular-expression engine. The fixed path grammars are explicit parsers
  instead.
