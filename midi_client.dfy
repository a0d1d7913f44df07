/**
 * The event dispatcher of src/midi/midiclient.go: the `onMessage` callback
 * matches each decoded Note, ControlChange and ProgramChange message against
 * the resolved rules, and `doActions` runs the actions of each matching rule
 * in order. The PulseAudio client is not called: the calls it would receive
 * are returned as a trace of `MixerCall` records.
 */
module MidiClient {
  import opened Wrappers
  import opened Configuration

  /**
   * A MIDI message as the MIDI library decodes it: channel and data bytes of
   * channel voice messages, the bytes of a SysEx message.
   */
  datatype MidiEvent =
    | NoteOn(channel: Byte, key: Byte, velocity: Byte)
    | NoteOff(channel: Byte, key: Byte, velocity: Byte)
    | ControlChangeEvent(channel: Byte, controller: Byte, value: Byte)
    | ProgramChangeEvent(channel: Byte, program: Byte)
    | SysExEvent(bytes: seq<Byte>)
    | OtherEvent

  /**
   * A call on the PulseAudio client. A volume call carries the trigger value
   * and the denominator the source divides it by (as a float) to get the
   * volume fraction.
   */
  datatype MixerCall =
    | VolumeAction(action: Action, value: Byte, denominator: Byte)
    | ToggleMuteAction(action: Action)
    | DefaultOutputAction(action: Action)

  // ---------------------------------------------------------------------
  // doActions
  // ---------------------------------------------------------------------

  /** The lower bound of a volume range: the rule's minimum, 0 when unset. */
  function RangeMin(m: MidiMessage): Byte
  {
    if m.minValue != 0 then m.minValue else 0
  }

  /** The upper bound of a volume range: the rule's maximum, 0x7F when unset (0). */
  function RangeMax(m: MidiMessage): Byte
  {
    if m.maxValue != 0 then m.maxValue else 0x7F
  }

  /** The volume denominator, `maxValue - minValue` on bytes (so it wraps when min > max). */
  function VolumeDenominator(m: MidiMessage): Byte
  {
    RangeMax(m) - RangeMin(m)
  }

  /** The `minValue` / `maxValue` defaults of the `SetVolume` case and the divisor made of them. */
  method VolumeRange(m: MidiMessage) returns (denominator: Byte)
    ensures denominator == VolumeDenominator(m)
  {
    var minValue: Byte;
    var maxValue: Byte;
    if m.minValue != 0 {
      minValue := m.minValue;
    } else {
      minValue := 0;
    }
    if m.maxValue != 0 {
      maxValue := m.maxValue;
    } else {
      maxValue := 0x7F;
    }
    denominator := maxValue - minValue;
  }

  /** An action that only runs for a non-zero trigger value and otherwise ends the rule. */
  predicate IsGated(action: Action)
  {
    action.actionType == ToggleMute || action.actionType == SetDefaultOutput
  }

  /**
   * The calls `doActions` makes for `actions` with trigger value `value`:
   * one per known action in order; a gated action with value 0 returns from
   * `doActions`, so it and every later action make no call; unknown action
   * kinds are skipped.
   */
  function ActionCalls(m: MidiMessage, actions: seq<Action>, value: Byte): seq<MixerCall>
  {
    if actions == [] then []
    else
      var action := actions[0];
      match action.actionType
      case SetVolume => [VolumeAction(action, value, VolumeDenominator(m))] + ActionCalls(m, actions[1..], value)
      case ToggleMute => if value == 0 then [] else [ToggleMuteAction(action)] + ActionCalls(m, actions[1..], value)
      case SetDefaultOutput => if value == 0 then [] else [DefaultOutputAction(action)] + ActionCalls(m, actions[1..], value)
      case OtherAction(_) => ActionCalls(m, actions[1..], value)
  }

  /**
   * `doActions(rule, value)`, action by action. The source's `Mute` case
   * names a constant the configuration types do not declare; it is read as
   * `ToggleMute`, the only mute action there is.
   */
  method DoActions(rule: Rule, value: Byte) returns (calls: seq<MixerCall>)
    ensures calls == ActionCalls(rule.midiMessage, rule.actions, value)
  {
    calls := [];
    var actions := rule.actions;
    for i := 0 to |actions|
      invariant calls + ActionCalls(rule.midiMessage, actions[i..], value)
             == ActionCalls(rule.midiMessage, actions, value)
    {
      var action := actions[i];
      ActionCallsFrom(rule.midiMessage, actions, i, value);
      match action.actionType {
      case SetVolume =>
        var denominator := VolumeRange(rule.midiMessage);
        assert ActionCalls(rule.midiMessage, actions[i..], value)
            == [VolumeAction(action, value, denominator)] + ActionCalls(rule.midiMessage, actions[i + 1..], value);
        assert (calls + [VolumeAction(action, value, denominator)]) + ActionCalls(rule.midiMessage, actions[i + 1..], value)
            == calls + ActionCalls(rule.midiMessage, actions[i..], value);
        calls := calls + [VolumeAction(action, value, denominator)];
      case ToggleMute =>
        if value == 0 {
          // a gated action with value 0 ends the rule: nothing after it runs
          assert ActionCalls(rule.midiMessage, actions[i..], value) == [];
          assert calls + [] == calls == ActionCalls(rule.midiMessage, actions, value);
          return;
        }
        assert ActionCalls(rule.midiMessage, actions[i..], value)
            == [ToggleMuteAction(action)] + ActionCalls(rule.midiMessage, actions[i + 1..], value);
        assert (calls + [ToggleMuteAction(action)]) + ActionCalls(rule.midiMessage, actions[i + 1..], value)
            == calls + ActionCalls(rule.midiMessage, actions[i..], value);
        calls := calls + [ToggleMuteAction(action)];
      case SetDefaultOutput =>
        if value == 0 {
          // a gated action with value 0 ends the rule: nothing after it runs
          assert ActionCalls(rule.midiMessage, actions[i..], value) == [];
          assert calls + [] == calls == ActionCalls(rule.midiMessage, actions, value);
          return;
        }
        assert ActionCalls(rule.midiMessage, actions[i..], value)
            == [DefaultOutputAction(action)] + ActionCalls(rule.midiMessage, actions[i + 1..], value);
        assert (calls + [DefaultOutputAction(action)]) + ActionCalls(rule.midiMessage, actions[i + 1..], value)
            == calls + ActionCalls(rule.midiMessage, actions[i..], value);
        calls := calls + [DefaultOutputAction(action)];
      case OtherAction(_) =>
        // logged as an unknown action type; the next action still runs
        assert ActionCalls(rule.midiMessage, actions[i..], value) == ActionCalls(rule.midiMessage, actions[i + 1..], value);
      }
    }
    assert actions[|actions|..] == [];
  }

  /** The calls from action `i` on: that action's own calls, then (unless it ends the rule) those of the rest. */
  lemma ActionCallsFrom(m: MidiMessage, actions: seq<Action>, i: nat, value: Byte)
    requires i < |actions|
    ensures ActionCalls(m, actions[i..], value) ==
      match actions[i].actionType
      case SetVolume => [VolumeAction(actions[i], value, VolumeDenominator(m))] + ActionCalls(m, actions[i + 1..], value)
      case ToggleMute => if value == 0 then [] else [ToggleMuteAction(actions[i])] + ActionCalls(m, actions[i + 1..], value)
      case SetDefaultOutput => if value == 0 then [] else [DefaultOutputAction(actions[i])] + ActionCalls(m, actions[i + 1..], value)
      case OtherAction(_) => ActionCalls(m, actions[i + 1..], value)
  {
    assert actions[i..][0] == actions[i] && actions[i..][1..] == actions[i + 1..];
  }

  /** Without an early return, the actions of a sequence run as its two halves do. */
  lemma {:induction false} ActionCallsAppend(m: MidiMessage, a: seq<Action>, b: seq<Action>, value: Byte)
    requires value != 0
    ensures ActionCalls(m, a + b, value) == ActionCalls(m, a, value) + ActionCalls(m, b, value)
  {
    if a == [] {
      assert a + b == b;
    } else {
      assert (a + b)[0] == a[0] && (a + b)[1..] == a[1..] + b;
      ActionCallsAppend(m, a[1..], b, value);
    }
  }

  /**
   * With value 0, a toggle-mute or default-output action ends the rule: it
   * and every action after it make no call.
   */
  lemma {:induction false} GatedActionEndsRule(m: MidiMessage, a: seq<Action>, gated: Action, b: seq<Action>)
    requires IsGated(gated)
    ensures ActionCalls(m, a + [gated] + b, 0) == ActionCalls(m, a, 0)
  {
    if a == [] {
      assert a + [gated] + b == [gated] + b;
    } else {
      assert (a + [gated] + b)[0] == a[0];
      assert (a + [gated] + b)[1..] == a[1..] + [gated] + b;
      GatedActionEndsRule(m, a[1..], gated, b);
    }
  }

  /** An action of unknown kind makes no call and does not stop the ones after it. */
  lemma {:induction false} UnknownActionSkipped(m: MidiMessage, a: seq<Action>, unknown: Action, b: seq<Action>, value: Byte)
    requires unknown.actionType.OtherAction?
    ensures ActionCalls(m, a + [unknown] + b, value) == ActionCalls(m, a + b, value)
  {
    if a == [] {
      assert a + [unknown] + b == [unknown] + b;
      assert ([unknown] + b)[1..] == b;
      assert a + b == b;
    } else {
      assert (a + [unknown] + b)[0] == a[0] && (a + b)[0] == a[0];
      assert (a + [unknown] + b)[1..] == a[1..] + [unknown] + b;
      assert (a + b)[1..] == a[1..] + b;
      UnknownActionSkipped(m, a[1..], unknown, b, value);
    }
  }

  /**
   * Every call names one of the rule's actions of the matching kind; volume
   * calls carry the trigger value itself (not offset by the minimum) and the
   * rule's denominator; gated calls only happen for a non-zero value.
   */
  lemma {:induction false} ActionCallsShape(m: MidiMessage, actions: seq<Action>, value: Byte)
    ensures forall c :: c in ActionCalls(m, actions, value) ==>
      && c.action in actions
      && (c.VolumeAction? ==>
            c.action.actionType == SetVolume && c.value == value && c.denominator == VolumeDenominator(m))
      && (c.ToggleMuteAction? ==> c.action.actionType == ToggleMute && value != 0)
      && (c.DefaultOutputAction? ==> c.action.actionType == SetDefaultOutput && value != 0)
  {
    if actions != [] {
      ActionCallsShape(m, actions[1..], value);
      assert forall x :: x in actions[1..] ==> x in actions;
    }
  }

  /** With a non-zero value every known action makes exactly one call. */
  lemma {:induction false} AllKnownActionsRun(m: MidiMessage, actions: seq<Action>, value: Byte)
    requires value != 0
    ensures |ActionCalls(m, actions, value)| == KnownActions(actions)
  {
    if actions != [] {
      AllKnownActionsRun(m, actions[1..], value);
    }
  }

  /** How many actions are of a kind the client knows. */
  function KnownActions(actions: seq<Action>): nat
  {
    if actions == [] then 0
    else (if actions[0].actionType.OtherAction? then 0 else 1) + KnownActions(actions[1..])
  }

  /**
   * An unset maximum stands for 0x7F and an unset minimum for 0; with
   * minimum 32 and maximum 96 a value of 64 is divided by 64, not mapped
   * onto the middle of the range.
   */
  lemma VolumeDenominatorDefaults(m: MidiMessage)
    ensures m.maxValue == 0 ==> VolumeDenominator(m) == 0x7F - m.minValue
    ensures m.maxValue != 0 ==> VolumeDenominator(m) == m.maxValue - m.minValue
    ensures m.minValue == 0 && m.maxValue == 0 ==> VolumeDenominator(m) == 0x7F
    ensures m.minValue == 32 && m.maxValue == 96 ==> VolumeDenominator(m) == 64
    ensures m.minValue == 0x7F && m.maxValue == 0 ==> VolumeDenominator(m) == 0
  {
  }

  // ---------------------------------------------------------------------
  // onMessage
  // ---------------------------------------------------------------------

  /**
   * The value `onMessage` passes to `doActions` for `rule`, or None when one
   * of its filters skips the rule. Note messages are matched on the rule's
   * `controller` field, not on its `note`; program changes only on the
   * channel, and always with the value 0x7F.
   */
  function TriggerValue(rule: Rule, event: MidiEvent): Option<Byte>
  {
    var m := rule.midiMessage;
    match event
    case NoteOn(channel, key, velocity) =>
      if m.messageType == Note && channel == m.channel && key == m.controller then Some(velocity) else None
    case NoteOff(channel, key, velocity) =>
      if m.messageType == Note && channel == m.channel && key == m.controller then Some(velocity) else None
    case ControlChangeEvent(channel, controller, value) =>
      if m.messageType == ControlChange && channel == m.channel && controller == m.controller then Some(value) else None
    case ProgramChangeEvent(channel, _) =>
      if m.messageType == ProgramChange && channel == m.channel then Some(0x7F) else None
    case SysExEvent(_) => None
    case OtherEvent => None
  }

  /** The calls one rule makes for an event. */
  function RuleCalls(rule: Rule, event: MidiEvent): seq<MixerCall>
  {
    match TriggerValue(rule, event)
    case None => []
    case Some(value) => ActionCalls(rule.midiMessage, rule.actions, value)
  }

  /** The calls an event makes: every rule in list order, each contributing its own calls. */
  function Dispatched(rules: seq<Rule>, event: MidiEvent): seq<MixerCall>
  {
    if rules == [] then []
    else Dispatched(rules[..|rules| - 1], event) + RuleCalls(rules[|rules| - 1], event)
  }

  /**
   * `onMessage` for a decoded message: the loop over the rules with the
   * source's `continue` filters, `doActions` for every rule that passes them,
   * and SysEx messages handed on to the channel the SysEx exchange waits on.
   */
  method OnMessage(rules: seq<Rule>, event: MidiEvent) returns (calls: seq<MixerCall>, forwarded: Option<seq<Byte>>)
    ensures calls == Dispatched(rules, event)
    ensures forwarded == if event.SysExEvent? then Some(event.bytes) else None
  {
    calls := [];
    forwarded := None;
    match event {
    case NoteOn(_, _, _) | NoteOff(_, _, _) =>
      var channel, note, velocity := event.channel, event.key, event.velocity;
      for i := 0 to |rules|
        invariant calls == Dispatched(rules[..i], event)
      {
        var rule := rules[i];
        DispatchedStep(rules, i, event);
        if rule.midiMessage.messageType != Note {
          continue;
        }
        if channel != rule.midiMessage.channel {
          continue;
        }
        if note != rule.midiMessage.controller {
          continue;
        }
        var actionCalls := DoActions(rule, velocity);
        calls := calls + actionCalls;
      }
    case ControlChangeEvent(channel, controller, ccValue) =>
      for i := 0 to |rules|
        invariant calls == Dispatched(rules[..i], event)
      {
        var rule := rules[i];
        DispatchedStep(rules, i, event);
        if rule.midiMessage.messageType != ControlChange {
          continue;
        }
        if channel != rule.midiMessage.channel {
          continue;
        }
        if controller != rule.midiMessage.controller {
          continue;
        }
        var actionCalls := DoActions(rule, ccValue);
        calls := calls + actionCalls;
      }
    case ProgramChangeEvent(channel, _) =>
      for i := 0 to |rules|
        invariant calls == Dispatched(rules[..i], event)
      {
        var rule := rules[i];
        DispatchedStep(rules, i, event);
        if rule.midiMessage.messageType != ProgramChange {
          continue;
        }
        if channel != rule.midiMessage.channel {
          continue;
        }
        var actionCalls := DoActions(rule, 0x7F);
        calls := calls + actionCalls;
      }
    case SysExEvent(bytes) =>
      NothingMatches(rules, event);
      forwarded := Some(bytes);
    case OtherEvent =>
      NothingMatches(rules, event);
    }
    assert rules[..|rules|] == rules;
  }

  // ---------------------------------------------------------------------
  // Properties of dispatch
  // ---------------------------------------------------------------------

  /** One more rule of the list adds that rule's calls. */
  lemma DispatchedStep(rules: seq<Rule>, i: nat, event: MidiEvent)
    requires i < |rules|
    ensures Dispatched(rules[..i + 1], event) == Dispatched(rules[..i], event) + RuleCalls(rules[i], event)
    ensures RuleCalls(rules[i], event) == [] ==> Dispatched(rules[..i + 1], event) == Dispatched(rules[..i], event)
  {
    assert rules[..i + 1][..i] == rules[..i];
  }

  /** Rules are visited in list order: the calls for `a + b` are those for `a`, then those for `b`. */
  lemma {:induction false} DispatchedAppend(a: seq<Rule>, b: seq<Rule>, event: MidiEvent)
    ensures Dispatched(a + b, event) == Dispatched(a, event) + Dispatched(b, event)
    decreases |b|
  {
    if b == [] {
      assert a + b == a;
    } else {
      var front, last := b[..|b| - 1], b[|b| - 1];
      assert (a + b)[..|a + b| - 1] == a + front;
      DispatchedAppend(a, front, event);
    }
  }

  /** Each rule contributes its own calls at its own place, whatever the other rules do. */
  lemma DispatchedSplit(a: seq<Rule>, rule: Rule, b: seq<Rule>, event: MidiEvent)
    ensures Dispatched(a + [rule] + b, event)
         == Dispatched(a, event) + RuleCalls(rule, event) + Dispatched(b, event)
  {
    DispatchedAppend(a + [rule], b, event);
    DispatchedAppend(a, [rule], event);
    assert [rule][..0] == [];
  }

  /** When no rule passes the filters, an event makes no call. */
  lemma {:induction false} NothingMatches(rules: seq<Rule>, event: MidiEvent)
    requires forall k :: 0 <= k < |rules| ==> TriggerValue(rules[k], event) == None
    ensures Dispatched(rules, event) == []
  {
    if rules != [] {
      NothingMatches(rules[..|rules| - 1], event);
    }
  }

  /** SysEx and other messages match no rule, and rules without a type never fire. */
  lemma NeverFiring(rules: seq<Rule>, event: MidiEvent)
    requires || event.SysExEvent? || event.OtherEvent?
             || forall k :: 0 <= k < |rules| ==> rules[k].midiMessage.messageType == NoType
    ensures Dispatched(rules, event) == []
  {
    NothingMatches(rules, event);
  }

  /** The channel must match exactly: rules on other channels than the event's never fire. */
  lemma ChannelExact(rules: seq<Rule>, event: MidiEvent)
    requires event.NoteOn? || event.NoteOff? || event.ControlChangeEvent? || event.ProgramChangeEvent?
    requires forall k :: 0 <= k < |rules| ==> rules[k].midiMessage.channel != event.channel
    ensures Dispatched(rules, event) == []
  {
    NothingMatches(rules, event);
  }

  /**
   * A note message fires a rule exactly when it is a note rule on the same
   * channel whose controller (not note) field is the key, with the velocity
   * as value; Note On and Note Off are handled alike.
   */
  lemma NoteMatching(rule: Rule, channel: Byte, key: Byte, velocity: Byte)
    ensures var m := rule.midiMessage;
      && RuleCalls(rule, NoteOn(channel, key, velocity)) == RuleCalls(rule, NoteOff(channel, key, velocity))
      && (m.messageType == Note && m.channel == channel && m.controller == key ==>
            RuleCalls(rule, NoteOn(channel, key, velocity)) == ActionCalls(m, rule.actions, velocity))
      && (m.messageType != Note || m.channel != channel || m.controller != key ==>
            RuleCalls(rule, NoteOn(channel, key, velocity)) == []
            && RuleCalls(rule, NoteOff(channel, key, velocity)) == [])
  {
  }

  /** A control change fires exactly the control-change rules on its channel and controller, with its value. */
  lemma ControlChangeMatching(rule: Rule, channel: Byte, controller: Byte, value: Byte)
    ensures var m := rule.midiMessage;
      && (m.messageType == ControlChange && m.channel == channel && m.controller == controller ==>
            RuleCalls(rule, ControlChangeEvent(channel, controller, value)) == ActionCalls(m, rule.actions, value))
      && (m.messageType != ControlChange || m.channel != channel || m.controller != controller ==>
            RuleCalls(rule, ControlChangeEvent(channel, controller, value)) == [])
  {
  }

  /**
   * A program change fires a rule exactly when it is a program-change rule
   * on the same channel, whatever the program number, with the value 0x7F.
   */
  lemma ProgramChangeMatching(rule: Rule, channel: Byte, program: Byte)
    ensures var m := rule.midiMessage;
      && (m.messageType == ProgramChange && m.channel == channel ==>
            RuleCalls(rule, ProgramChangeEvent(channel, program)) == ActionCalls(m, rule.actions, 0x7F))
      && (m.messageType != ProgramChange || m.channel != channel ==>
            RuleCalls(rule, ProgramChangeEvent(channel, program)) == [])
  {
  }

  /**
   * A program change fires every program-change rule on its channel,
   * whatever the program number, with the value 0x7F.
   */
  lemma {:induction false} ProgramChangeIgnoresProgram(rules: seq<Rule>, channel: Byte, p: Byte, q: Byte)
    ensures Dispatched(rules, ProgramChangeEvent(channel, p)) == Dispatched(rules, ProgramChangeEvent(channel, q))
    ensures forall k :: 0 <= k < |rules| && rules[k].midiMessage.messageType == ProgramChange
                          && rules[k].midiMessage.channel == channel ==>
      RuleCalls(rules[k], ProgramChangeEvent(channel, p)) == ActionCalls(rules[k].midiMessage, rules[k].actions, 0x7F)
    ensures forall k :: 0 <= k < |rules| && (rules[k].midiMessage.messageType != ProgramChange
                          || rules[k].midiMessage.channel != channel) ==>
      RuleCalls(rules[k], ProgramChangeEvent(channel, p)) == []
  {
    if rules != [] {
      ProgramChangeIgnoresProgram(rules[..|rules| - 1], channel, p, q);
    }
  }
}
