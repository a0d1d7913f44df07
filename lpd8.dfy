/**
 * The Akai LPD8 adapter (src/device/akai/lpd8/AkaiLpd8.go): the two SysEx
 * requests that fetch the active program, the handlers that check their
 * replies, and `UpdateRules`, which turns `PadN/...` and `KnobN` control
 * paths into the channel, type, note, controller and range the program
 * assigns to that pad or knob. The LPD8 dump is not 7-bit packed.
 */
module Lpd8 {
  import opened Wrappers
  import opened Configuration
  import opened Device
  import opened RuleResolution

  /** The 57 bytes of one program: global channel, 8 pads of 4 bytes, 8 knobs of 3 bytes. */
  type ProgramData = s: seq<Byte> | |s| == 57 witness seq(57, i => 0)

  // ---------------------------------------------------------------------
  // Request frames and response handlers
  // ---------------------------------------------------------------------

  /** Akai (0x47), LPD8 (0x7F 0x75), "request active program" (0x64 0x00 0x00). */
  function ActiveProgramRequest(): (frame: seq<Byte>)
    ensures |frame| == 8 && IsSysExFrame(frame)
    ensures frame[1..4] == [0x47, 0x7F, 0x75] && frame[4] == 0x64 && frame[5..7] == [0x00, 0x00]
  {
    [0xF0, 0x47, 0x7F, 0x75, 0x64, 0x00, 0x00, 0xF7]
  }

  /** "Request program" (0x63 0x00 0x01) for `programNumber`, carried in byte 7. */
  function ProgramRequest(programNumber: Byte): (frame: seq<Byte>)
    ensures |frame| == 9 && frame[0] == 0xF0 && frame[8] == 0xF7
    ensures frame[1..4] == [0x47, 0x7F, 0x75] && frame[4] == 0x63 && frame[5..7] == [0x00, 0x01]
    ensures frame[7] == programNumber
    ensures IsSysExFrame(frame) <==> programNumber < 0x80
  {
    var frame := [0xF0, 0x47, 0x7F, 0x75, 0x63, 0x00, 0x01, programNumber, 0xF7];
    assert frame[7] == programNumber;
    frame
  }

  /** Identity reply: 33 bytes between the framing bytes, else rejected. */
  function IdentityResponse(bytes: seq<Byte>): (reply: Reply)
    ensures reply.err == None <==> |bytes| == 33
  {
    EchoOfLength("identity response", 33, bytes)
  }

  /**
   * Active program reply: 7 bytes between the framing bytes, the program
   * number in the last of them; any other length is rejected. (The source
   * reports this rejection under the mode response's name.)
   */
  function ActiveProgramResponse(bytes: seq<Byte>): (reply: Reply)
    ensures reply.err == None <==> |bytes| == 7
    ensures reply.err == None ==> reply.rawData == bytes && reply.processedData == [bytes[6]]
    ensures reply.err != None ==> reply.rawData == [] && reply.processedData == []
  {
    if |bytes| != 7 then Rejected("mode response", |bytes|)
    else Reply(bytes, [bytes[6]], None)
  }

  /**
   * Program reply: 64 bytes between the framing bytes, a 7-byte header and
   * the 57-byte program; any other length is rejected.
   */
  function ProgramResponse(bytes: seq<Byte>): (reply: Reply)
    ensures reply.err == None <==> |bytes| == 64
    ensures reply.err == None ==>
      && reply.rawData == bytes
      && |reply.processedData| == 57
      && forall i :: 0 <= i < 57 ==> reply.processedData[i] == bytes[7 + i]
    ensures reply.err != None ==> reply.rawData == [] && reply.processedData == []
  {
    if |bytes| != 64 then Rejected("scene dump request response", |bytes|)
    else Reply(bytes, bytes[7..], None)
  }

  function ActiveProgramRequestMessage(): (m: SysExMessage)
    ensures m.request == ActiveProgramRequest()
  {
    SysExMessage(ActiveProgramRequest(), ActiveProgramResponse)
  }

  function ProgramRequestMessage(programNumber: Byte): (m: SysExMessage)
    ensures m.request == ProgramRequest(programNumber)
  {
    SysExMessage(ProgramRequest(programNumber), ProgramResponse)
  }

  // ---------------------------------------------------------------------
  // Control paths
  // ---------------------------------------------------------------------

  /** The decimal digit for a pad or knob number. */
  function DigitChar(n: Byte): char
    requires n <= 9
  {
    ((n as int) + ('0' as int)) as char
  }

  /** `PadN/<suffix>`: what `^Pad([1-8])/.*$` matches (`.` stops at a line feed). */
  function PadPath(padNumber: Byte, suffix: string): string
    requires 1 <= padNumber <= 8
  {
    "Pad" + [DigitChar(padNumber)] + "/" + suffix
  }

  /** `KnobN`: what `^Knob([1-8])$` matches. */
  function KnobPath(knobNumber: Byte): string
    requires 1 <= knobNumber <= 8
  {
    "Knob" + [DigitChar(knobNumber)]
  }

  datatype ControlPath =
    | PadPathOf(padNumber: Byte, suffix: string)
    | KnobPathOf(knobNumber: Byte)
    | Unmatched

  /** The pad pattern is tried first, then the knob pattern. */
  function ParseControlPath(path: string): (p: ControlPath)
    ensures p.PadPathOf? ==>
      1 <= p.padNumber <= 8 && '\n' !in p.suffix && path == PadPath(p.padNumber, p.suffix)
    ensures p.KnobPathOf? ==> 1 <= p.knobNumber <= 8 && path == KnobPath(p.knobNumber)
    ensures p.Unmatched? ==>
      && (forall n: Byte, s :: 1 <= n <= 8 && '\n' !in s ==> path != PadPath(n, s))
      && (forall n: Byte :: 1 <= n <= 8 ==> path != KnobPath(n))
  {
    if |path| >= 5 && path[..3] == "Pad" && '1' <= path[3] <= '8' && path[4] == '/' && '\n' !in path[5..] then
      var n := (path[3] as int - '0' as int) as Byte;
      assert path == "Pad" + [DigitChar(n)] + "/" + path[5..];
      PadPathOf(n, path[5..])
    else if |path| == 5 && path[..4] == "Knob" && '1' <= path[4] <= '8' then
      var n := (path[4] as int - '0' as int) as Byte;
      assert path == "Knob" + [DigitChar(n)];
      KnobPathOf(n)
    else
      NoPadPath(path);
      NoKnobPath(path);
      Unmatched
  }

  /** A path the pad pattern refuses is no pad path. */
  lemma NoPadPath(path: string)
    requires !(|path| >= 5 && path[..3] == "Pad" && '1' <= path[3] <= '8' && path[4] == '/' && '\n' !in path[5..])
    ensures forall n: Byte, s :: 1 <= n <= 8 && '\n' !in s ==> path != PadPath(n, s)
  {
    forall n: Byte, s | 1 <= n <= 8 && '\n' !in s
      ensures path != PadPath(n, s)
    {
      PadPathShape(n, s);
    }
  }

  /** A path the knob pattern refuses is no knob path. */
  lemma NoKnobPath(path: string)
    requires !(|path| == 5 && path[..4] == "Knob" && '1' <= path[4] <= '8')
    ensures forall n: Byte :: 1 <= n <= 8 ==> path != KnobPath(n)
  {
    forall n: Byte | 1 <= n <= 8
      ensures path != KnobPath(n)
    {
      KnobPathShape(n);
    }
  }

  lemma PadPathShape(padNumber: Byte, suffix: string)
    requires 1 <= padNumber <= 8
    ensures var path := PadPath(padNumber, suffix);
      && |path| >= 5
      && path[..3] == "Pad" && path[3] == DigitChar(padNumber) && path[4] == '/'
      && path[5..] == suffix
  {
    var path := PadPath(padNumber, suffix);
    assert path[..3] == "Pad";
    assert path[5..] == suffix;
  }

  lemma KnobPathShape(knobNumber: Byte)
    requires 1 <= knobNumber <= 8
    ensures var path := KnobPath(knobNumber);
      && |path| == 5 && path[..4] == "Knob" && path[4] == DigitChar(knobNumber) && path[0] != 'P'
  {
    var path := KnobPath(knobNumber);
    assert path[..4] == "Knob";
  }

  /** Every pad path is recognised as that pad with that suffix. */
  lemma ParsePadPath(padNumber: Byte, suffix: string)
    requires 1 <= padNumber <= 8 && '\n' !in suffix
    ensures ParseControlPath(PadPath(padNumber, suffix)) == PadPathOf(padNumber, suffix)
  {
    PadPathShape(padNumber, suffix);
  }

  /** Every knob path is recognised as that knob. */
  lemma ParseKnobPath(knobNumber: Byte)
    requires 1 <= knobNumber <= 8
    ensures ParseControlPath(KnobPath(knobNumber)) == KnobPathOf(knobNumber)
  {
    KnobPathShape(knobNumber);
  }

  // ---------------------------------------------------------------------
  // Program data layout
  // ---------------------------------------------------------------------

  /** Pad N's 4-byte record (note, program change, controller, toggle) starts at 1 + (N - 1) * 4. */
  function PadIndex(padNumber: Byte): (index: Byte)
    requires 1 <= padNumber <= 8
    ensures index as int == 1 + (padNumber as int - 1) * 4
  {
    PadIndexNoWrap(padNumber);
    1 + (padNumber - 1) * 4
  }

  /** Knob N's 3-byte record (controller, minimum, maximum) starts at 33 + (N - 1) * 3. */
  function KnobIndex(knobNumber: Byte): (index: Byte)
    requires 1 <= knobNumber <= 8
    ensures index as int == 33 + (knobNumber as int - 1) * 3
  {
    KnobIndexNoWrap(knobNumber);
    33 + (knobNumber - 1) * 3
  }

  lemma PadIndexNoWrap(padNumber: Byte)
    requires 1 <= padNumber <= 8
    ensures (1 + (padNumber - 1) * 4) as int == 1 + (padNumber as int - 1) * 4
  {
    if padNumber == 1 {
    } else if padNumber == 2 {
    } else if padNumber == 3 {
    } else if padNumber == 4 {
    } else if padNumber == 5 {
    } else if padNumber == 6 {
    } else if padNumber == 7 {
    } else {
    }
  }

  lemma KnobIndexNoWrap(knobNumber: Byte)
    requires 1 <= knobNumber <= 8
    ensures (33 + (knobNumber - 1) * 3) as int == 33 + (knobNumber as int - 1) * 3
  {
    if knobNumber == 1 {
    } else if knobNumber == 2 {
    } else if knobNumber == 3 {
    } else if knobNumber == 4 {
    } else if knobNumber == 5 {
    } else if knobNumber == 6 {
    } else if knobNumber == 7 {
    } else {
    }
  }

  /**
   * The pad records cover bytes 1 to 32 and the knob records 33 to 56 without
   * overlap, so every byte `UpdateRules` reads lies in the 57-byte program.
   */
  lemma LayoutInBounds(n: Byte)
    requires 1 <= n <= 8
    ensures 1 <= PadIndex(n) as int && PadIndex(n) as int + 3 <= 32
    ensures 33 <= KnobIndex(n) as int && KnobIndex(n) as int + 2 <= 56
    ensures n == 1 ==> PadIndex(n) == 1 && KnobIndex(n) == 33
    ensures n == 8 ==> PadIndex(n) == 29 && KnobIndex(n) == 54
  {
  }

  // ---------------------------------------------------------------------
  // Rule resolution
  // ---------------------------------------------------------------------

  /** A pad suffix naming a message type sets it; any other suffix keeps the configured type. */
  function PadMessageType(suffix: string, configured: MidiMessageType): MidiMessageType
  {
    if suffix == "Note" then Note
    else if suffix == "ControlChange" then ControlChange
    else if suffix == "ProgramChange" then ProgramChange
    else configured
  }

  function ResolvePad(rule: Rule, programData: ProgramData, padNumber: Byte, suffix: string): Rule
    requires 1 <= padNumber <= 8
  {
    var index := PadIndex(padNumber) as int;
    rule.(midiMessage := rule.midiMessage.(
      channel := programData[0],
      messageType := PadMessageType(suffix, rule.midiMessage.messageType),
      note := programData[index],
      controller := programData[index + 2],
      program := programData[index + 1],
      minValue := 0x00,
      maxValue := 0x7F))
  }

  function ResolveKnob(rule: Rule, programData: ProgramData, knobNumber: Byte): Rule
    requires 1 <= knobNumber <= 8
  {
    var index := KnobIndex(knobNumber) as int;
    rule.(midiMessage := rule.midiMessage.(
      channel := programData[0],
      messageType := ControlChange,
      controller := programData[index],
      minValue := programData[index + 1],
      maxValue := programData[index + 2]))
  }

  /** What `UpdateRules` makes of a rule of this device with a non-empty path. */
  function ResolveRule(rule: Rule, programData: ProgramData): Option<Rule>
  {
    match ParseControlPath(rule.midiMessage.deviceControlPath)
    case PadPathOf(n, suffix) => Some(ResolvePad(rule, programData, n, suffix))
    case KnobPathOf(n) => Some(ResolveKnob(rule, programData, n))
    case Unmatched => None
  }

  function Resolver(programData: ProgramData): Resolver
  {
    rule => ResolveRule(rule, programData)
  }

  /** A rule is resolved exactly when its path is a pad or knob path of 1 to 8; otherwise it is dropped. */
  lemma ResolvedIffInGrammar(rule: Rule, programData: ProgramData)
    ensures ResolveRule(rule, programData).Some?
        <==> (|| (exists n: Byte, s :: 1 <= n <= 8 && '\n' !in s && rule.midiMessage.deviceControlPath == PadPath(n, s))
              || (exists n: Byte :: 1 <= n <= 8 && rule.midiMessage.deviceControlPath == KnobPath(n)))
  {
    var path := rule.midiMessage.deviceControlPath;
    if n: Byte, s :| 1 <= n <= 8 && '\n' !in s && path == PadPath(n, s) {
      ParsePadPath(n, s);
    } else if n: Byte :| 1 <= n <= 8 && path == KnobPath(n) {
      ParseKnobPath(n);
    }
  }

  /**
   * A pad reads note, program and controller from its record at
   * 1 + (N - 1) * 4, takes the program's global channel and the full 0..127
   * range; the suffix decides the type.
   */
  lemma PadResolution(rule: Rule, programData: ProgramData, padNumber: Byte, suffix: string)
    requires 1 <= padNumber <= 8 && '\n' !in suffix
    requires rule.midiMessage.deviceControlPath == PadPath(padNumber, suffix)
    ensures var index := 1 + (padNumber as int - 1) * 4;
      var m := ResolveRule(rule, programData).value.midiMessage;
      && ResolveRule(rule, programData).Some?
      && 1 <= index <= 29
      && m.channel == programData[0]
      && m.note == programData[index]
      && m.program == programData[index + 1]
      && m.controller == programData[index + 2]
      && m.minValue == 0 && m.maxValue == 0x7F
      && (suffix == "Note" ==> m.messageType == Note)
      && (suffix == "ControlChange" ==> m.messageType == ControlChange)
      && (suffix == "ProgramChange" ==> m.messageType == ProgramChange)
      && (suffix !in {"Note", "ControlChange", "ProgramChange"} ==> m.messageType == rule.midiMessage.messageType)
  {
    ParsePadPath(padNumber, suffix);
  }

  /**
   * A knob is a control change on the global channel whose controller,
   * minimum and maximum are its record at 33 + (N - 1) * 3.
   */
  lemma KnobResolution(rule: Rule, programData: ProgramData, knobNumber: Byte)
    requires 1 <= knobNumber <= 8
    requires rule.midiMessage.deviceControlPath == KnobPath(knobNumber)
    ensures var index := 33 + (knobNumber as int - 1) * 3;
      var m := ResolveRule(rule, programData).value.midiMessage;
      && ResolveRule(rule, programData).Some?
      && 33 <= index <= 54
      && m.messageType == ControlChange
      && m.channel == programData[0]
      && m.controller == programData[index]
      && m.minValue == programData[index + 1]
      && m.maxValue == programData[index + 2]
      && m.note == rule.midiMessage.note
      && m.program == rule.midiMessage.program
  {
    ParseKnobPath(knobNumber);
  }

  /** Resolution rewrites only MIDI message fields; device, path and actions stay. */
  lemma ResolutionKeepsIdentity(rule: Rule, programData: ProgramData)
    requires ResolveRule(rule, programData).Some?
    ensures var r := ResolveRule(rule, programData).value;
      && r.actions == rule.actions
      && r.midiMessage.deviceName == rule.midiMessage.deviceName
      && r.midiMessage.deviceControlPath == rule.midiMessage.deviceControlPath
  {
  }

  /** `Pad8/Note` reads the last pad record; `Pad9/Note`, `Knob9` and `Foo/Bar` are dropped. */
  lemma PadAndKnobRange(rule: Rule, programData: ProgramData)
    ensures rule.midiMessage.deviceControlPath == "Pad8/Note" ==>
      && ResolveRule(rule, programData).Some?
      && ResolveRule(rule, programData).value.midiMessage.note == programData[29]
      && ResolveRule(rule, programData).value.midiMessage.messageType == Note
    ensures rule.midiMessage.deviceControlPath in {"Pad9/Note", "Knob9", "Pad0/Note", "Foo/Bar"} ==>
      ResolveRule(rule, programData) == None
  {
    if rule.midiMessage.deviceControlPath == "Pad8/Note" {
      assert PadPath(8, "Note") == "Pad8/Note";
      PadResolution(rule, programData, 8, "Note");
    }
  }

  // ---------------------------------------------------------------------
  // UpdateRules
  // ---------------------------------------------------------------------

  /**
   * The two exchanges of `UpdateRules`: the active program number, then that
   * program's data. A driver failure or a rejected reply is the error the
   * source panics with.
   */
  function FetchProgramData(link: Link): (r: Result<ProgramData, Error>)
    ensures r.Success? <==>
      && link(ActiveProgramRequest()).Delivered?
      && |link(ActiveProgramRequest()).frame| == 7
      && link(ProgramRequest(link(ActiveProgramRequest()).frame[6])).Delivered?
      && |link(ProgramRequest(link(ActiveProgramRequest()).frame[6])).frame| == 64
    ensures r.Success? ==>
      r.value == link(ProgramRequest(link(ActiveProgramRequest()).frame[6])).frame[7..]
    ensures link(ActiveProgramRequest()).DriverFailed? ==> r == Failure(DriverFailure)
  {
    match Send(ActiveProgramRequestMessage(), link)
    case Failure(e) => Failure(e)
    case Success(active) =>
      if active.err.Some? then Failure(active.err.value)
      else
        match Send(ProgramRequestMessage(active.processedData[0]), link)
        case Failure(e) => Failure(e)
        case Success(program) =>
          if program.err.Some? then Failure(program.err.value) else Success(program.processedData)
  }

  /** The result of `UpdateRules`, or the error it panics with. */
  function UpdatedRules(deviceName: string, rules: seq<Rule>, link: Link): Result<seq<Rule>, Error>
  {
    match FetchProgramData(link)
    case Failure(e) => Failure(e)
    case Success(programData) => Success(ResolveRules(deviceName, rules, Resolver(programData)))
  }

  /** The `PadN/...` branch of the loop of `UpdateRules`, field by field. */
  method UpdatePadRule(rule: Rule, programData: ProgramData, padNumber: Byte, suffix: string)
    returns (updated: Rule)
    requires 1 <= padNumber <= 8
    ensures updated == ResolvePad(rule, programData, padNumber, suffix)
  {
    var m := rule.midiMessage;
    var globalMidiChannel := programData[0];
    var padIndex := PadIndex(padNumber) as int;
    m := m.(channel := globalMidiChannel);
    if suffix == "Note" {
      m := m.(messageType := Note);
    } else if suffix == "ControlChange" {
      m := m.(messageType := ControlChange);
    } else if suffix == "ProgramChange" {
      m := m.(messageType := ProgramChange);
    }
    assert m.messageType == PadMessageType(suffix, rule.midiMessage.messageType);
    m := m.(note := programData[padIndex]);
    m := m.(controller := programData[padIndex + 2]);
    m := m.(program := programData[padIndex + 1]);
    m := m.(minValue := 0x00);
    m := m.(maxValue := 0x7F);
    assert m == ResolvePad(rule, programData, padNumber, suffix).midiMessage;
    updated := rule.(midiMessage := m);
  }

  /** The `KnobN` branch of the loop of `UpdateRules`, field by field. */
  method UpdateKnobRule(rule: Rule, programData: ProgramData, knobNumber: Byte)
    returns (updated: Rule)
    requires 1 <= knobNumber <= 8
    ensures updated == ResolveKnob(rule, programData, knobNumber)
  {
    var m := rule.midiMessage;
    var globalMidiChannel := programData[0];
    var knobIndex := KnobIndex(knobNumber) as int;
    m := m.(channel := globalMidiChannel);
    m := m.(messageType := ControlChange);
    m := m.(controller := programData[knobIndex]);
    m := m.(minValue := programData[knobIndex + 1]);
    m := m.(maxValue := programData[knobIndex + 2]);
    updated := rule.(midiMessage := m);
  }

  /**
   * `UpdateRules`: fetch the active program (a failed exchange or a rejected
   * reply is the error the source panics with), then keep, resolve or drop
   * each rule of this device in order.
   */
  method UpdateRules(deviceName: string, rules: seq<Rule>, link: Link) returns (result: Result<seq<Rule>, Error>)
    ensures result == UpdatedRules(deviceName, rules, link)
  {
    var sent := Send(ActiveProgramRequestMessage(), link);
    if sent.Failure? {
      return Failure(sent.error);
    }
    if sent.value.err.Some? {
      return Failure(sent.value.err.value);
    }
    var activeProgram := sent.value.processedData;
    sent := Send(ProgramRequestMessage(activeProgram[0]), link);
    if sent.Failure? {
      return Failure(sent.error);
    }
    if sent.value.err.Some? {
      return Failure(sent.value.err.value);
    }
    var programData: ProgramData := sent.value.processedData;
    var updatedRules: seq<Rule> := [];
    for i := 0 to |rules|
      invariant updatedRules == ResolveRules(deviceName, rules[..i], Resolver(programData))
    {
      var rule := rules[i];
      assert rules[..i + 1][..i] == rules[..i];
      if rule.midiMessage.deviceName != deviceName {
        continue;
      }
      if rule.midiMessage.deviceControlPath != "" {
        match ParseControlPath(rule.midiMessage.deviceControlPath) {
        case PadPathOf(padNumber, suffix) =>
          var updated := UpdatePadRule(rule, programData, padNumber, suffix);
          updatedRules := updatedRules + [updated];
        case KnobPathOf(knobNumber) =>
          var updated := UpdateKnobRule(rule, programData, knobNumber);
          updatedRules := updatedRules + [updated];
        case Unmatched =>
        }
      } else {
        updatedRules := updatedRules + [rule];
      }
    }
    assert rules[..|rules|] == rules;
    return Success(updatedRules);
  }
}
