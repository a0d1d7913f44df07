/**
 * The Korg nanoKONTROL2 adapter (src/device/korg/nanokontrol2/KorgNanoKontrol2.go):
 * the SysEx frames it sends, the handlers that check and decode the replies,
 * and `UpdateRules`, which reads the current scene from the device and turns
 * symbolic control paths (`Group2/Slider`, `Transport/Play`, ...) into the
 * channel, message type, controller and range the scene assigns to them.
 */
module NanoKontrol2 {
  import opened Wrappers
  import opened Configuration
  import opened Device
  import KorgSysEx
  import opened RuleResolution

  /** The decoded current-scene dump. */
  type SceneData = s: seq<Byte> | |s| == 339 witness seq(339, i => 0)

  // ---------------------------------------------------------------------
  // Request frames and response handlers
  // ---------------------------------------------------------------------

  /** Byte 2 of the scene-related requests: 0x40 plus the low nibble of the channel. */
  function ChannelByte(channel: Byte): (b: Byte)
    ensures 0x40 <= b <= 0x4F
    ensures b - 0x40 == channel & 0x0F
  {
    0x40 + (channel & 0x0F)
  }

  /** The Korg header of every nanoKONTROL2 scene frame: manufacturer 0x42, channel, product ID 00 01 13 00. */
  predicate HasKorgHeader(frame: seq<Byte>, channel: Byte)
  {
    && |frame| >= 7
    && frame[..7] == [0xF0, 0x42, ChannelByte(channel), 0x00, 0x01, 0x13, 0x00]
  }

  /** A data dump request (command 0x1F) for the given function code. */
  function DumpRequest(channel: Byte, code: Byte): (frame: seq<Byte>)
    requires code < 0x80
    ensures |frame| == 11 && IsSysExFrame(frame)
    ensures HasKorgHeader(frame, channel) && frame[7] == 0x1F && frame[8] == code && frame[9] == 0x00
  {
    [0xF0, 0x42, ChannelByte(channel), 0x00, 0x01, 0x13, 0x00, 0x1F, code, 0x00, 0xF7]
  }

  /** Mode request: an 11-byte frame with function code 0x12. */
  function ModeRequest(channel: Byte): (frame: seq<Byte>)
    ensures |frame| == 11 && IsSysExFrame(frame)
    ensures HasKorgHeader(frame, channel) && frame[7] == 0x1F && frame[8] == 0x12 && frame[9] == 0x00
  {
    DumpRequest(channel, 0x12)
  }

  /** Current scene data dump request: an 11-byte frame with function code 0x10. */
  function SceneDumpRequest(channel: Byte): (frame: seq<Byte>)
    ensures |frame| == 11 && IsSysExFrame(frame)
    ensures HasKorgHeader(frame, channel) && frame[7] == 0x1F && frame[8] == 0x10 && frame[9] == 0x00
  {
    DumpRequest(channel, 0x10)
  }

  /** Scene write request: an 11-byte frame with function code 0x11. */
  function SceneWriteRequest(channel: Byte): (frame: seq<Byte>)
    ensures |frame| == 11 && IsSysExFrame(frame)
    ensures HasKorgHeader(frame, channel) && frame[7] == 0x1F && frame[8] == 0x11 && frame[9] == 0x00
  {
    DumpRequest(channel, 0x11)
  }

  /** Only the low nibble of the channel reaches the frame. */
  lemma ChannelHighBitsIgnored(channel: Byte)
    ensures ModeRequest(channel) == ModeRequest(channel & 0x0F)
    ensures SceneDumpRequest(channel) == SceneDumpRequest(channel & 0x0F)
    ensures SceneWriteRequest(channel) == SceneWriteRequest(channel & 0x0F)
  {
    assert ChannelByte(channel) == ChannelByte(channel & 0x0F);
  }

  /** The search-device request carrying an echo-back ID. */
  function SearchDeviceRequest(echoBackID: Byte): (frame: seq<Byte>)
    ensures |frame| == 6 && frame[0] == 0xF0 && frame[5] == 0xF7
    ensures frame[1..4] == [0x42, 0x50, 0x00] && frame[4] == echoBackID
    ensures IsSysExFrame(frame) <==> echoBackID < 0x80
  {
    assert [0xF0, 0x42, 0x50, 0x00, echoBackID, 0xF7][4] == echoBackID;
    [0xF0, 0x42, 0x50, 0x00, echoBackID, 0xF7]
  }

  /** Identity reply: 13 bytes between the framing bytes, else rejected. */
  function IdentityResponse(bytes: seq<Byte>): (reply: Reply)
    ensures reply.err == None <==> |bytes| == 13
  {
    EchoOfLength("identity response", 13, bytes)
  }

  /**
   * Search-device reply: 13 bytes between the framing bytes, else rejected.
   * Same shape as `IdentityResponse`; the source has two separate handlers.
   */
  function SearchDeviceResponse(bytes: seq<Byte>): (reply: Reply)
    ensures reply.err == None <==> |bytes| == 13
  {
    EchoOfLength("search device response", 13, bytes)
  }

  /** Mode reply: 9 bytes between the framing bytes, else rejected. */
  function ModeResponse(bytes: seq<Byte>): (reply: Reply)
    ensures reply.err == None <==> |bytes| == 9
  {
    EchoOfLength("mode response", 9, bytes)
  }

  /**
   * Scene dump and scene write acknowledgements: 9 bytes, else rejected.
   * Same shape as `ModeResponse`; the source repeats this handler in
   * `sceneDumpMessage` and `sceneWriteMessage`.
   */
  function SceneAckResponse(bytes: seq<Byte>): (reply: Reply)
    ensures reply.err == None <==> |bytes| == 9
  {
    EchoOfLength("scene dump response", 9, bytes)
  }

  /**
   * Scene dump reply: 400 bytes between the framing bytes, a 12-byte header
   * and then 388 MIDI-safe bytes that decode to the 339-byte scene.
   */
  function SceneDumpResponse(bytes: seq<Byte>): (reply: Reply)
    ensures reply.err == None <==> |bytes| == 400
    ensures reply.err == None ==>
      && reply.rawData == bytes
      && reply.processedData == KorgSysEx.Unpacked(bytes[12..])
      && |reply.processedData| == 339
    ensures reply.err != None ==> reply == Rejected("scene dump request response", |bytes|)
  {
    if |bytes| != 400 then Rejected("scene dump request response", |bytes|)
    else
      KorgSysEx.SceneDumpDecodedLength(bytes[12..]);
      Reply(bytes, KorgSysEx.Unpacked(bytes[12..]), None)
  }

  /** The 13 bytes that precede the scene data in a scene dump. */
  function SceneDumpHeader(channel: Byte): (header: seq<Byte>)
    ensures |header| == 13 && HasKorgHeader(header, channel)
    ensures header[7..] == [0x7F, 0x7F, 0x02, 0x03, 0x05, 0x40]
  {
    [0xF0, 0x42, ChannelByte(channel), 0x00, 0x01, 0x13, 0x00, 0x7F, 0x7F, 0x02, 0x03, 0x05, 0x40]
  }

  function ModeMessage(channel: Byte): (m: SysExMessage)
    ensures m.request == ModeRequest(channel)
  {
    SysExMessage(ModeRequest(channel), ModeResponse)
  }

  function SceneDumpRequestMessage(channel: Byte): (m: SysExMessage)
    ensures m.request == SceneDumpRequest(channel)
  {
    SysExMessage(SceneDumpRequest(channel), SceneDumpResponse)
  }

  function SceneWriteMessage(channel: Byte): (m: SysExMessage)
    ensures m.request == SceneWriteRequest(channel)
  {
    SysExMessage(SceneWriteRequest(channel), SceneAckResponse)
  }

  function SearchDeviceMessage(echoBackID: Byte): (m: SysExMessage)
    ensures m.request == SearchDeviceRequest(echoBackID)
  {
    SysExMessage(SearchDeviceRequest(echoBackID), SearchDeviceResponse)
  }

  /**
   * `sceneDumpMessage`: scene data of any length but 339 is refused (a
   * panic in the source); otherwise the frame is the header, the data as
   * given and 0xF7.
   */
  function SceneDumpMessage(channel: Byte, sceneData: seq<Byte>): (r: Result<SysExMessage, Error>)
    ensures r.Success? <==> |sceneData| == 339
    ensures r.Failure? ==> r.error == BadSceneDataLength(|sceneData|)
    ensures r.Success? ==>
      && |r.value.request| == 353
      && r.value.request[..13] == SceneDumpHeader(channel)
      && r.value.request[13..352] == sceneData
      && r.value.request[352] == 0xF7
  {
    if |sceneData| != 339 then Failure(BadSceneDataLength(|sceneData|))
    else
      var request := SceneDumpHeader(channel) + sceneData + [0xF7];
      assert request[..13] == SceneDumpHeader(channel);
      assert request[13..352] == sceneData;
      Success(SysExMessage(request, SceneAckResponse))
  }

  /**
   * The scene is sent as it is, with no 7-bit packing, so the frame is a
   * well-formed SysEx frame exactly when no scene byte has bit 7 set.
   */
  lemma SceneDumpFrameIsMidiSafe(channel: Byte, sceneData: seq<Byte>)
    requires |sceneData| == 339
    ensures IsSysExFrame(SceneDumpMessage(channel, sceneData).value.request)
        <==> forall i :: 0 <= i < 339 ==> sceneData[i] < 0x80
  {
    var frame := SceneDumpMessage(channel, sceneData).value.request;
    assert forall i :: 0 <= i < 339 ==> frame[13 + i] == sceneData[i] by {
      forall i | 0 <= i < 339
        ensures frame[13 + i] == sceneData[i]
      {
        assert frame[13..352][i] == frame[13 + i];
      }
    }
    assert forall i :: 0 < i < 13 ==> frame[i] == SceneDumpHeader(channel)[i] by {
      forall i | 0 < i < 13
        ensures frame[i] == SceneDumpHeader(channel)[i]
      {
        assert frame[..13][i] == frame[i];
      }
    }
    if forall i :: 0 <= i < 339 ==> sceneData[i] < 0x80 {
      forall i | 0 < i < |frame| - 1
        ensures frame[i] < 0x80
      {
        if i >= 13 {
          assert frame[13 + (i - 13)] == sceneData[i - 13];
        }
      }
    }
  }

  // ---------------------------------------------------------------------
  // Control paths
  // ---------------------------------------------------------------------

  /** `assignTypeToMidiMessageType`: 1 is a control change, 2 a note, anything else no type. */
  function AssignTypeToMidiMessageType(assignType: Byte): (t: MidiMessageType)
    ensures t == ControlChange <==> assignType == 1
    ensures t == Note <==> assignType == 2
    ensures t != ProgramChange
  {
    if assignType == 1 then ControlChange
    else if assignType == 2 then Note
    else NoType
  }

  datatype GroupControl = Slider | Knob | Solo | Mute | Record

  datatype TransportControl =
    | TrackPrev | TrackNext | Cycle | MarkerSet | MarkerPrev | MarkerNext
    | Rewind | FastForward | Stop | Play | Rec

  function GroupControlName(control: GroupControl): string
  {
    match control
    case Slider => "Slider"
    case Knob => "Knob"
    case Solo => "Solo"
    case Mute => "Mute"
    case Record => "Record"
  }

  function TransportControlName(control: TransportControl): string
  {
    match control
    case TrackPrev => "Track/Prev"
    case TrackNext => "Track/Next"
    case Cycle => "Cycle"
    case MarkerSet => "Marker/Set"
    case MarkerPrev => "Marker/Prev"
    case MarkerNext => "Marker/Next"
    case Rewind => "Rewind"
    case FastForward => "FastForward"
    case Stop => "Stop"
    case Play => "Play"
    case Rec => "Rec"
  }

  function GroupControlOf(name: string): (control: Option<GroupControl>)
    ensures control.Some? ==> GroupControlName(control.value) == name
    ensures control.None? ==> forall c :: GroupControlName(c) != name
  {
    if name == "Slider" then Some(Slider)
    else if name == "Knob" then Some(Knob)
    else if name == "Solo" then Some(Solo)
    else if name == "Mute" then Some(Mute)
    else if name == "Record" then Some(Record)
    else None
  }

  function TransportControlOf(name: string): (control: Option<TransportControl>)
    ensures control.Some? ==> TransportControlName(control.value) == name
    ensures control.None? ==> forall c :: TransportControlName(c) != name
  {
    if name == "Track/Prev" then Some(TrackPrev)
    else if name == "Track/Next" then Some(TrackNext)
    else if name == "Cycle" then Some(Cycle)
    else if name == "Marker/Set" then Some(MarkerSet)
    else if name == "Marker/Prev" then Some(MarkerPrev)
    else if name == "Marker/Next" then Some(MarkerNext)
    else if name == "Rewind" then Some(Rewind)
    else if name == "FastForward" then Some(FastForward)
    else if name == "Stop" then Some(Stop)
    else if name == "Play" then Some(Play)
    else if name == "Rec" then Some(Rec)
    else None
  }

  /** The decimal digit for a group number. */
  function DigitChar(n: Byte): char
    requires n <= 9
  {
    ((n as int) + ('0' as int)) as char
  }

  /** `GroupN/<control>`, the paths `^Group([1-8])/(Slider|Knob|Solo|Mute|Record)$` matches. */
  function GroupPath(groupNumber: Byte, control: GroupControl): string
    requires 1 <= groupNumber <= 8
  {
    "Group" + [DigitChar(groupNumber)] + "/" + GroupControlName(control)
  }

  /** The paths one of the four transport grammars matches. */
  function TransportPath(control: TransportControl): string
  {
    "Transport/" + TransportControlName(control)
  }

  /** What `^Transport/.*` matches: every path that starts with `Transport/`. */
  predicate IsTransportPath(path: string)
  {
    |path| >= 10 && path[..10] == "Transport/"
  }

  lemma GroupPathShape(groupNumber: Byte, control: GroupControl)
    requires 1 <= groupNumber <= 8
    ensures var path := GroupPath(groupNumber, control);
      && |path| >= 7
      && path[..5] == "Group"
      && path[5] == DigitChar(groupNumber)
      && path[6] == '/'
      && path[7..] == GroupControlName(control)
      && !IsTransportPath(path)
  {
    var path := GroupPath(groupNumber, control);
    assert path[..5] == "Group";
    assert path[7..] == GroupControlName(control);
    assert path[0] == 'G';
  }

  /** Which grammar of `UpdateRules` a non-empty control path falls under. */
  datatype ControlPath =
    | GroupPathOf(groupNumber: Byte, groupControl: GroupControl)
    | TransportPathOf(transportControl: TransportControl)
    /** Starts with `Transport/` but names no transport control. */
    | UnknownTransport
    | Unmatched

  /**
   * The regular expressions of `UpdateRules` as a parser. Go's `$` anchors at
   * the end of the text, so the group and transport grammars match whole
   * paths, while the outer transport pattern only needs the prefix.
   */
  function ParseControlPath(path: string): (p: ControlPath)
    ensures p.GroupPathOf? ==>
      1 <= p.groupNumber <= 8 && path == GroupPath(p.groupNumber, p.groupControl)
    ensures p.TransportPathOf? ==> path == TransportPath(p.transportControl)
    ensures p.UnknownTransport? ==>
      IsTransportPath(path) && forall c :: path != TransportPath(c)
    ensures p.Unmatched? ==>
      && !IsTransportPath(path)
      && forall n: Byte, c :: 1 <= n <= 8 ==> path != GroupPath(n, c)
  {
    if |path| >= 7 && path[..5] == "Group" && '1' <= path[5] <= '8' && path[6] == '/'
       && GroupControlOf(path[7..]).Some?
    then
      var n := (path[5] as int - '0' as int) as Byte;
      assert path == "Group" + [DigitChar(n)] + "/" + path[7..];
      GroupPathOf(n, GroupControlOf(path[7..]).value)
    else if IsTransportPath(path) then
      assert path == "Transport/" + path[10..];
      match TransportControlOf(path[10..])
      case Some(c) => TransportPathOf(c)
      case None =>
        assert forall c :: path != TransportPath(c) by {
          forall c
            ensures path != TransportPath(c)
          {
            assert TransportPath(c)[10..] == TransportControlName(c);
          }
        }
        UnknownTransport
    else
      assert forall n: Byte, c :: 1 <= n <= 8 ==> path != GroupPath(n, c) by {
        forall n: Byte, c | 1 <= n <= 8
          ensures path != GroupPath(n, c)
        {
          GroupPathShape(n, c);
        }
      }
      Unmatched
  }

  /** Every group path is recognised as itself. */
  lemma ParseGroupPath(groupNumber: Byte, control: GroupControl)
    requires 1 <= groupNumber <= 8
    ensures ParseControlPath(GroupPath(groupNumber, control)) == GroupPathOf(groupNumber, control)
  {
    var path := GroupPath(groupNumber, control);
    GroupPathShape(groupNumber, control);
    match ParseControlPath(path)
    case GroupPathOf(n, c) =>
      GroupPathShape(n, c);
      assert GroupControlName(c) == GroupControlName(control);
      assert c == control by {
        assert GroupControlOf(GroupControlName(c)) == Some(c) by {
          match c
          case Slider =>
          case Knob =>
          case Solo =>
          case Mute =>
          case Record =>
        }
      }
  }

  lemma TransportControlOfName(c: TransportControl)
    ensures TransportControlOf(TransportControlName(c)) == Some(c)
  {
  }

  /** Every transport path is recognised as itself. */
  lemma ParseTransportPath(control: TransportControl)
    ensures ParseControlPath(TransportPath(control)) == TransportPathOf(control)
  {
    var path := TransportPath(control);
    assert path[..10] == "Transport/";
    assert path[10..] == TransportControlName(control);
    assert path[0] == 'T';
    TransportControlOfName(control);
  }

  // ---------------------------------------------------------------------
  // Scene data layout
  // ---------------------------------------------------------------------

  /** Group N's parameters start at 3 + (N - 1) * 31 in the scene. */
  function GroupIndex(groupNumber: Byte): (index: nat)
    requires 1 <= groupNumber <= 8
    ensures 3 <= index <= 220 && (index - 3) % 31 == 0
  {
    3 + (groupNumber as int - 1) * 31
  }

  /** The source computes the group index on bytes; for groups 1 to 8 it does not wrap. */
  lemma GroupIndexNoWrap(groupNumber: Byte)
    requires 1 <= groupNumber <= 8
    ensures (3 + (groupNumber - 1) * 31) as int == GroupIndex(groupNumber)
  {
    if groupNumber == 1 {
    } else if groupNumber == 2 {
    } else if groupNumber == 3 {
    } else if groupNumber == 4 {
    } else if groupNumber == 5 {
    } else if groupNumber == 6 {
    } else if groupNumber == 7 {
    } else {
    }
  }

  /** The group index as the source computes it, on bytes. */
  function GroupIndexByte(groupNumber: Byte): (index: Byte)
    requires 1 <= groupNumber <= 8
    ensures index as int == GroupIndex(groupNumber)
  {
    GroupIndexNoWrap(groupNumber);
    3 + (groupNumber - 1) * 31
  }

  /** Each control of a group is a 6-byte record; slot k holds the controller number at 3 + 6k. */
  function GroupSlot(control: GroupControl): nat
  {
    match control
    case Slider => 0
    case Knob => 1
    case Solo => 2
    case Mute => 3
    case Record => 4
  }

  function ControllerOffset(control: GroupControl): (offset: nat)
    ensures 3 <= offset <= 27
  {
    3 + 6 * GroupSlot(control)
  }

  /** The buttons read their assign type two bytes before the controller number. */
  function AssignTypeOffset(control: GroupControl): (offset: Option<nat>)
    ensures offset.Some? <==> control in {Solo, Mute, Record}
    ensures offset.Some? ==> offset.value + 2 == ControllerOffset(control)
  {
    if GroupSlot(control) >= 2 then Some(ControllerOffset(control) - 2) else None
  }

  /** The transport controls are 6-byte records from 252 on, in this order. */
  function TransportSlot(control: TransportControl): nat
  {
    match control
    case TrackPrev => 0
    case TrackNext => 1
    case Cycle => 2
    case MarkerSet => 3
    case MarkerPrev => 4
    case MarkerNext => 5
    case Rewind => 6
    case FastForward => 7
    case Stop => 8
    case Play => 9
    case Rec => 10
  }

  function TransportIndex(control: TransportControl): (index: nat)
    ensures 252 <= index <= 312 && (index - 252) % 6 == 0
  {
    252 + 6 * TransportSlot(control)
  }

  /** The transport channel byte. */
  const TransportChannelIndex: nat := 251

  /** A channel byte of 16 stands for the scene's global channel. */
  function ChannelOrGlobal(channel: Byte, globalChannel: Byte): (c: Byte)
    ensures channel != 16 ==> c == channel
    ensures channel == 16 ==> c == globalChannel
  {
    if channel == 16 then globalChannel else channel
  }

  // ---------------------------------------------------------------------
  // Rule resolution
  // ---------------------------------------------------------------------

  function ResolveGroup(rule: Rule, sceneData: SceneData, groupNumber: Byte, control: GroupControl): Rule
    requires 1 <= groupNumber <= 8
  {
    var base := GroupIndex(groupNumber);
    var controller := base + ControllerOffset(control);
    var messageType := match AssignTypeOffset(control)
      case None => ControlChange
      case Some(offset) => AssignTypeToMidiMessageType(sceneData[base + offset]);
    rule.(midiMessage := rule.midiMessage.(
      messageType := messageType,
      channel := ChannelOrGlobal(sceneData[base], sceneData[0]),
      controller := sceneData[controller],
      minValue := sceneData[controller + 1],
      maxValue := sceneData[controller + 2]))
  }

  function ResolveTransport(rule: Rule, sceneData: SceneData, control: TransportControl): Rule
  {
    var index := TransportIndex(control);
    var typeIndex := if control == Rec then index + 1 else index;
    rule.(midiMessage := rule.midiMessage.(
      messageType := AssignTypeToMidiMessageType(sceneData[typeIndex]),
      channel := ChannelOrGlobal(sceneData[TransportChannelIndex], sceneData[0]),
      note := sceneData[index + 2],
      controller := sceneData[index + 2],
      minValue := sceneData[index + 3],
      maxValue := sceneData[index + 4]))
  }

  /** What `UpdateRules` makes of a rule of this device with a non-empty path. */
  function ResolveRule(rule: Rule, sceneData: SceneData): Option<Rule>
  {
    match ParseControlPath(rule.midiMessage.deviceControlPath)
    case GroupPathOf(n, c) => Some(ResolveGroup(rule, sceneData, n, c))
    case TransportPathOf(c) => Some(ResolveTransport(rule, sceneData, c))
    case UnknownTransport => None
    case Unmatched => None
  }

  function Resolver(sceneData: SceneData): Resolver
  {
    rule => ResolveRule(rule, sceneData)
  }

  /** A rule is resolved exactly when its path is in one of the grammars; otherwise it is dropped. */
  lemma ResolvedIffInGrammar(rule: Rule, sceneData: SceneData)
    ensures ResolveRule(rule, sceneData).Some?
        <==> (|| (exists n: Byte, c :: 1 <= n <= 8 && rule.midiMessage.deviceControlPath == GroupPath(n, c))
              || (exists c :: rule.midiMessage.deviceControlPath == TransportPath(c)))
  {
    var path := rule.midiMessage.deviceControlPath;
    if n: Byte, c :| 1 <= n <= 8 && path == GroupPath(n, c) {
      ParseGroupPath(n, c);
    } else if c :| path == TransportPath(c) {
      ParseTransportPath(c);
    }
  }

  /** Resolution rewrites only the MIDI message fields the scene assigns; the rest of the rule stays. */
  lemma ResolutionKeepsIdentity(rule: Rule, sceneData: SceneData)
    requires ResolveRule(rule, sceneData).Some?
    ensures var r := ResolveRule(rule, sceneData).value;
      && r.actions == rule.actions
      && r.midiMessage.deviceName == rule.midiMessage.deviceName
      && r.midiMessage.deviceControlPath == rule.midiMessage.deviceControlPath
      && r.midiMessage.program == rule.midiMessage.program
  {
  }

  /**
   * Sliders and knobs are control changes on the group channel, with
   * controller, minimum and maximum at base + 3..5 (slider) or base + 9..11 (knob).
   */
  lemma GroupFaderResolution(rule: Rule, sceneData: SceneData, groupNumber: Byte, control: GroupControl)
    requires 1 <= groupNumber <= 8 && control in {Slider, Knob}
    requires rule.midiMessage.deviceControlPath == GroupPath(groupNumber, control)
    ensures var base := 3 + (groupNumber as int - 1) * 31;
      var first := if control == Slider then base + 3 else base + 9;
      var m := ResolveRule(rule, sceneData).value.midiMessage;
      && ResolveRule(rule, sceneData).Some?
      && m.messageType == ControlChange
      && m.channel == (if sceneData[base] == 16 then sceneData[0] else sceneData[base])
      && m.controller == sceneData[first]
      && m.minValue == sceneData[first + 1]
      && m.maxValue == sceneData[first + 2]
      && m.note == rule.midiMessage.note
  {
    ParseGroupPath(groupNumber, control);
  }

  /**
   * The solo, mute and record buttons take their type from the assign-type
   * byte at base + 13, 19 or 25 and their controller, minimum and maximum
   * from the three bytes two further on.
   */
  lemma GroupButtonResolution(rule: Rule, sceneData: SceneData, groupNumber: Byte, control: GroupControl)
    requires 1 <= groupNumber <= 8 && control in {Solo, Mute, Record}
    requires rule.midiMessage.deviceControlPath == GroupPath(groupNumber, control)
    ensures var base := 3 + (groupNumber as int - 1) * 31;
      var assign := base + (if control == Solo then 13 else if control == Mute then 19 else 25);
      var m := ResolveRule(rule, sceneData).value.midiMessage;
      && ResolveRule(rule, sceneData).Some?
      && (m.messageType == ControlChange <==> sceneData[assign] == 1)
      && (m.messageType == Note <==> sceneData[assign] == 2)
      && (m.messageType == NoType <==> sceneData[assign] !in {1, 2})
      && m.channel == (if sceneData[base] == 16 then sceneData[0] else sceneData[base])
      && m.controller == sceneData[assign + 2]
      && m.minValue == sceneData[assign + 3]
      && m.maxValue == sceneData[assign + 4]
  {
    ParseGroupPath(groupNumber, control);
  }

  /** Group 2's slider: channel at 34, controller, minimum and maximum at 37, 38 and 39. */
  lemma Group2Slider(rule: Rule, sceneData: SceneData)
    requires rule.midiMessage.deviceControlPath == "Group2/Slider"
    ensures var m := ResolveRule(rule, sceneData).value.midiMessage;
      && ResolveRule(rule, sceneData).Some?
      && m.channel == (if sceneData[34] == 16 then sceneData[0] else sceneData[34])
      && m.controller == sceneData[37] && m.minValue == sceneData[38] && m.maxValue == sceneData[39]
  {
    assert GroupPath(2, Slider) == "Group2/Slider";
    GroupFaderResolution(rule, sceneData, 2, Slider);
  }

  /**
   * A transport control reads the transport channel at 251 and its 6-byte
   * record at 252 + 6k: the type from byte 0 (byte 1 for Rec), the note and
   * controller from byte 2, minimum and maximum from bytes 3 and 4.
   */
  lemma TransportResolution(rule: Rule, sceneData: SceneData, control: TransportControl)
    requires rule.midiMessage.deviceControlPath == TransportPath(control)
    ensures var index := 252 + 6 * TransportSlot(control);
      var m := ResolveRule(rule, sceneData).value.midiMessage;
      && ResolveRule(rule, sceneData).Some?
      && index + 4 <= 316
      && m.messageType == AssignTypeToMidiMessageType(sceneData[if control == Rec then index + 1 else index])
      && m.channel == (if sceneData[251] == 16 then sceneData[0] else sceneData[251])
      && m.note == sceneData[index + 2]
      && m.controller == sceneData[index + 2]
      && m.minValue == sceneData[index + 3]
      && m.maxValue == sceneData[index + 4]
  {
    ParseTransportPath(control);
  }

  /** `Transport/Play` reads its record at 306. */
  lemma TransportPlay(rule: Rule, sceneData: SceneData)
    requires rule.midiMessage.deviceControlPath == "Transport/Play"
    ensures var m := ResolveRule(rule, sceneData).value.midiMessage;
      && ResolveRule(rule, sceneData).Some?
      && m.messageType == AssignTypeToMidiMessageType(sceneData[306])
      && m.controller == sceneData[308] && m.note == sceneData[308]
      && m.minValue == sceneData[309] && m.maxValue == sceneData[310]
  {
    assert TransportPath(Play) == "Transport/Play";
    TransportResolution(rule, sceneData, Play);
  }

  // ---------------------------------------------------------------------
  // UpdateRules
  // ---------------------------------------------------------------------

  /** The scene `UpdateRules` works on: the decoded reply to a scene dump request on channel 0. */
  function FetchSceneData(link: Link): (r: Result<SceneData, Error>)
    ensures r.Success? <==> link(SceneDumpRequest(0)).Delivered? && |link(SceneDumpRequest(0)).frame| == 400
    ensures r.Success? ==> r.value == KorgSysEx.Unpacked(link(SceneDumpRequest(0)).frame[12..])
    ensures link(SceneDumpRequest(0)).DriverFailed? ==> r == Failure(DriverFailure)
  {
    match Send(SceneDumpRequestMessage(0), link)
    case Failure(e) => Failure(e)
    case Success(reply) =>
      if reply.err.Some? then Failure(reply.err.value) else Success(reply.processedData)
  }

  /** The result of `UpdateRules`, or the error it panics with. */
  function UpdatedRules(deviceName: string, rules: seq<Rule>, link: Link): Result<seq<Rule>, Error>
  {
    match FetchSceneData(link)
    case Failure(e) => Failure(e)
    case Success(sceneData) => Success(ResolveRules(deviceName, rules, Resolver(sceneData)))
  }

  /** A control's channel byte, with 16 standing for the global channel in byte 0. */
  method ReadChannel(sceneData: SceneData, index: nat) returns (channel: Byte)
    requires index < 339
    ensures channel == ChannelOrGlobal(sceneData[index], sceneData[0])
  {
    var globalMidiChannel := sceneData[0];
    channel := sceneData[index];
    if channel == 16 {
      channel := globalMidiChannel;
    }
  }

  /** The `GroupN/...` branch of the loop of `UpdateRules`, field by field. */
  method UpdateGroupRule(rule: Rule, sceneData: SceneData, groupNumber: Byte, control: GroupControl)
    returns (updated: Rule)
    requires 1 <= groupNumber <= 8
    ensures updated == ResolveGroup(rule, sceneData, groupNumber, control)
  {
    var m := rule.midiMessage;
    var base := GroupIndexByte(groupNumber) as int;
    m := m.(messageType := ControlChange);
    var channel := ReadChannel(sceneData, base);
    m := m.(channel := channel);
    match control {
    case Slider =>
      assert ControllerOffset(Slider) == 3 && AssignTypeOffset(Slider) == None;
      m := m.(controller := sceneData[base + 3]);
      m := m.(minValue := sceneData[base + 4]);
      m := m.(maxValue := sceneData[base + 5]);
    case Knob =>
      assert ControllerOffset(Knob) == 9 && AssignTypeOffset(Knob) == None;
      m := m.(controller := sceneData[base + 9]);
      m := m.(minValue := sceneData[base + 10]);
      m := m.(maxValue := sceneData[base + 11]);
    case Solo =>
      assert ControllerOffset(Solo) == 15 && AssignTypeOffset(Solo) == Some(13);
      m := m.(messageType := AssignTypeToMidiMessageType(sceneData[base + 13]));
      m := m.(controller := sceneData[base + 15]);
      m := m.(minValue := sceneData[base + 16]);
      m := m.(maxValue := sceneData[base + 17]);
    case Mute =>
      assert ControllerOffset(Mute) == 21 && AssignTypeOffset(Mute) == Some(19);
      m := m.(messageType := AssignTypeToMidiMessageType(sceneData[base + 19]));
      m := m.(controller := sceneData[base + 21]);
      m := m.(minValue := sceneData[base + 22]);
      m := m.(maxValue := sceneData[base + 23]);
    case Record =>
      assert ControllerOffset(Record) == 27 && AssignTypeOffset(Record) == Some(25);
      m := m.(messageType := AssignTypeToMidiMessageType(sceneData[base + 25]));
      m := m.(controller := sceneData[base + 27]);
      m := m.(minValue := sceneData[base + 28]);
      m := m.(maxValue := sceneData[base + 29]);
    }
    updated := rule.(midiMessage := m);
  }

  /** The `Transport/...` branch of the loop of `UpdateRules`, field by field. */
  method UpdateTransportRule(rule: Rule, sceneData: SceneData, control: TransportControl)
    returns (updated: Rule)
    ensures updated == ResolveTransport(rule, sceneData, control)
  {
    var m := rule.midiMessage;
    var sceneDataTransportIndex := TransportChannelIndex;
    var channel := ReadChannel(sceneData, sceneDataTransportIndex);
    m := m.(channel := channel);
    if control in {Rewind, FastForward, Stop, Play, Rec} {
      // the bottom row reads the transport channel a second time
      channel := ReadChannel(sceneData, sceneDataTransportIndex);
      m := m.(channel := channel);
    }
    var sceneDataIndex: nat;
    match control {
    case TrackPrev => sceneDataIndex := 252;
    case TrackNext => sceneDataIndex := 258;
    case Cycle => sceneDataIndex := 264;
    case MarkerSet => sceneDataIndex := 270;
    case MarkerPrev => sceneDataIndex := 276;
    case MarkerNext => sceneDataIndex := 282;
    case Rewind => sceneDataIndex := 288;
    case FastForward => sceneDataIndex := 294;
    case Stop => sceneDataIndex := 300;
    case Play => sceneDataIndex := 306;
    case Rec => sceneDataIndex := 312;
    }
    assert sceneDataIndex == TransportIndex(control);
    if control == Rec {
      m := m.(messageType := AssignTypeToMidiMessageType(sceneData[sceneDataIndex + 1]));
    } else {
      m := m.(messageType := AssignTypeToMidiMessageType(sceneData[sceneDataIndex]));
    }
    m := m.(note := sceneData[sceneDataIndex + 2]);
    m := m.(controller := sceneData[sceneDataIndex + 2]);
    m := m.(minValue := sceneData[sceneDataIndex + 3]);
    m := m.(maxValue := sceneData[sceneDataIndex + 4]);
    updated := rule.(midiMessage := m);
  }

  /** The body of the loop of `UpdateRules` for a rule with a non-empty path. */
  method UpdateRule(rule: Rule, sceneData: SceneData) returns (updated: Option<Rule>)
    ensures updated == ResolveRule(rule, sceneData)
  {
    match ParseControlPath(rule.midiMessage.deviceControlPath) {
    case GroupPathOf(groupNumber, control) =>
      var r := UpdateGroupRule(rule, sceneData, groupNumber, control);
      updated := Some(r);
    case TransportPathOf(control) =>
      var r := UpdateTransportRule(rule, sceneData, control);
      updated := Some(r);
    case UnknownTransport =>
      updated := None;
    case Unmatched =>
      updated := None;
    }
  }

  /**
   * `UpdateRules`: fetch the scene (a failed exchange or a rejected reply is
   * the error the source panics with), then keep, resolve or drop each rule
   * of this device in order.
   */
  method UpdateRules(deviceName: string, rules: seq<Rule>, link: Link) returns (result: Result<seq<Rule>, Error>)
    ensures result == UpdatedRules(deviceName, rules, link)
  {
    var sent := Send(SceneDumpRequestMessage(0), link);
    if sent.Failure? {
      return Failure(sent.error);
    }
    var reply := sent.value;
    if reply.err.Some? {
      return Failure(reply.err.value);
    }
    var sceneData: SceneData := reply.processedData;
    var updatedRules: seq<Rule> := [];
    for i := 0 to |rules|
      invariant updatedRules == ResolveRules(deviceName, rules[..i], Resolver(sceneData))
    {
      var rule := rules[i];
      assert rules[..i + 1][..i] == rules[..i];
      if rule.midiMessage.deviceName != deviceName {
        continue;
      }
      if rule.midiMessage.deviceControlPath != "" {
        var updated := UpdateRule(rule, sceneData);
        if updated.Some? {
          updatedRules := updatedRules + [updated.value];
        }
      } else {
        updatedRules := updatedRules + [rule];
      }
    }
    assert rules[..|rules|] == rules;
    return Success(updatedRules);
  }
}
