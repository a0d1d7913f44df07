/**
 * The configuration records of src/configuration/types.go. They carry no
 * behaviour; the adapters fill in their MIDI message fields and the MIDI
 * client matches live events against them.
 */
module Configuration {

  /** A Go `byte` / `uint8`: arithmetic on it wraps modulo 256. */
  type Byte = bv8

  datatype MidiDeviceType = Generic | AkaiLpd8 | KorgNanoKontrol2

  datatype MidiDevice = MidiDevice(
    name: string,
    deviceType: MidiDeviceType,
    midiInName: string,
    midiOutName: string)

  /** `None` is the empty string in the source: a rule whose type is not set. */
  datatype MidiMessageType = NoType | Note | ControlChange | ProgramChange

  datatype MidiMessage = MidiMessage(
    deviceName: string,
    deviceControlPath: string,
    messageType: MidiMessageType,
    channel: Byte,
    note: Byte,
    controller: Byte,
    program: Byte,
    minValue: Byte,
    maxValue: Byte)

  /**
   * The action kinds. The configuration may hold any string here, so kinds
   * the client does not know are kept as `OtherAction`.
   */
  datatype ActionType = SetVolume | ToggleMute | SetDefaultOutput | OtherAction(name: string)

  datatype TargetType = PlaybackStream | RecordStream | OutputDevice | InputDevice

  /** The `interface{}` target of an action, as the tagged variant it is decoded to. */
  datatype Target = Named(name: string) | Typed(targetType: TargetType, name: string)

  datatype Action = Action(actionType: ActionType, target: Target)

  datatype Rule = Rule(midiMessage: MidiMessage, actions: seq<Action>)

  datatype Config = Config(midiDevices: seq<MidiDevice>, rules: seq<Rule>)
}
