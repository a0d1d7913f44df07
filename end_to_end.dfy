/**
 * How the pieces meet in `MidiClient.Run` (src/midi/midiclient.go:217-227):
 * the configured device type picks the adapter whose `UpdateRules` replaces
 * the rule list, and the live messages are then matched against the
 * resolved rules.
 */
module EndToEnd {
  import opened Wrappers
  import opened Configuration
  import opened Device
  import RuleResolution
  import NanoKontrol2
  import Lpd8
  import MidiClient

  /** The rules the client dispatches on: resolved by the device's adapter, or kept for a generic device. */
  function ClientRules(device: MidiDevice, rules: seq<Rule>, link: Link): (r: Result<seq<Rule>, Error>)
    ensures device.deviceType == Generic ==> r == Success(rules)
    ensures device.deviceType == KorgNanoKontrol2 ==>
      && (r.Success? <==> NanoKontrol2.FetchSceneData(link).Success?)
      && (r.Success? ==> r.value == RuleResolution.ResolveRules(device.name, rules, NanoKontrol2.Resolver(NanoKontrol2.FetchSceneData(link).value)))
    ensures device.deviceType == AkaiLpd8 ==>
      && (r.Success? <==> Lpd8.FetchProgramData(link).Success?)
      && (r.Success? ==> r.value == RuleResolution.ResolveRules(device.name, rules, Lpd8.Resolver(Lpd8.FetchProgramData(link).value)))
    ensures r.Success? ==> |r.value| <= |rules|
  {
    match device.deviceType
    case AkaiLpd8 => Lpd8.UpdatedRules(device.name, rules, link)
    case KorgNanoKontrol2 => NanoKontrol2.UpdatedRules(device.name, rules, link)
    case Generic => Success(rules)
  }

  /** A generic device sends no request and keeps every rule, other devices' rules included. */
  lemma GenericDeviceKeepsRules(device: MidiDevice, rules: seq<Rule>, link: Link)
    requires device.deviceType == Generic
    ensures ClientRules(device, rules, link) == Success(rules)
  {
  }

  /**
   * With an adapter, only the rules naming the configured device survive,
   * each kept or resolved with its actions unchanged.
   */
  lemma {:induction false} AdapterKeepsOwnRules(device: MidiDevice, rules: seq<Rule>, link: Link)
    requires device.deviceType != Generic
    requires ClientRules(device, rules, link).Success?
    ensures var out := ClientRules(device, rules, link).value;
      forall j :: 0 <= j < |out| ==>
        && out[j].midiMessage.deviceName == device.name
        && exists k :: 0 <= k < |rules| && out[j].actions == rules[k].actions
  {
    var out := ClientRules(device, rules, link).value;
    if device.deviceType == KorgNanoKontrol2 {
      var sceneData := NanoKontrol2.FetchSceneData(link).value;
      var resolver := NanoKontrol2.Resolver(sceneData);
      RuleResolution.ResolvedRulesOrigin(device.name, rules, resolver);
      forall j | 0 <= j < |out|
        ensures out[j].midiMessage.deviceName == device.name
        ensures exists k :: 0 <= k < |rules| && out[j].actions == rules[k].actions
      {
        var k :| 0 <= k < |rules| && RuleResolution.EmittedFrom(device.name, rules[k], out[j], resolver);
        if rules[k].midiMessage.deviceControlPath != "" {
          NanoKontrol2.ResolutionKeepsIdentity(rules[k], sceneData);
        }
      }
    } else {
      var programData := Lpd8.FetchProgramData(link).value;
      var resolver := Lpd8.Resolver(programData);
      RuleResolution.ResolvedRulesOrigin(device.name, rules, resolver);
      forall j | 0 <= j < |out|
        ensures out[j].midiMessage.deviceName == device.name
        ensures exists k :: 0 <= k < |rules| && out[j].actions == rules[k].actions
      {
        var k :| 0 <= k < |rules| && RuleResolution.EmittedFrom(device.name, rules[k], out[j], resolver);
        if rules[k].midiMessage.deviceControlPath != "" {
          Lpd8.ResolutionKeepsIdentity(rules[k], programData);
        }
      }
    }
  }

  /**
   * A nanoKONTROL2 rule on `Group2/Slider` resolves against the scene to a
   * control-change rule on the group's channel and controller (bytes 34 and
   * 37 of the scene), and a control change there runs the rule's actions
   * with the message's value.
   */
  lemma {:induction false} Group2SliderFires(rule: Rule, sceneData: NanoKontrol2.SceneData, value: Byte)
    requires rule.midiMessage.deviceControlPath == "Group2/Slider"
    ensures var resolved := RuleResolution.ResolveRules(rule.midiMessage.deviceName, [rule], NanoKontrol2.Resolver(sceneData));
      var channel := if sceneData[34] == 16 then sceneData[0] else sceneData[34];
      && |resolved| == 1
      && resolved[0].midiMessage.controller == sceneData[37]
      && MidiClient.Dispatched(resolved, MidiClient.ControlChangeEvent(channel, sceneData[37], value))
         == MidiClient.ActionCalls(resolved[0].midiMessage, rule.actions, value)
  {
    var name := rule.midiMessage.deviceName;
    var resolver := NanoKontrol2.Resolver(sceneData);
    RuleResolution.ResolveSingle(name, rule, resolver);
    NanoKontrol2.Group2Slider(rule, sceneData);
    assert NanoKontrol2.GroupPath(2, NanoKontrol2.Slider) == "Group2/Slider";
    NanoKontrol2.GroupFaderResolution(rule, sceneData, 2, NanoKontrol2.Slider);
    var resolved := RuleResolution.ResolveRules(name, [rule], resolver);
    assert resolved == [NanoKontrol2.ResolveRule(rule, sceneData).value];
    NanoKontrol2.ResolutionKeepsIdentity(rule, sceneData);
    assert resolved[..0] == [];
  }

  /**
   * An LPD8 rule on `Pad3/Note` resolves to a note rule on the program's
   * global channel whose controller field is pad 3's controller byte (byte
   * 11), and the dispatcher matches note messages on that field.
   */
  lemma {:induction false} Pad3NoteFires(rule: Rule, programData: Lpd8.ProgramData, velocity: Byte)
    requires rule.midiMessage.deviceControlPath == "Pad3/Note"
    ensures var resolved := RuleResolution.ResolveRules(rule.midiMessage.deviceName, [rule], Lpd8.Resolver(programData));
      && |resolved| == 1
      && resolved[0].midiMessage.note == programData[9]
      && resolved[0].midiMessage.controller == programData[11]
      && MidiClient.Dispatched(resolved, MidiClient.NoteOn(programData[0], programData[11], velocity))
         == MidiClient.ActionCalls(resolved[0].midiMessage, rule.actions, velocity)
  {
    var name := rule.midiMessage.deviceName;
    var resolver := Lpd8.Resolver(programData);
    RuleResolution.ResolveSingle(name, rule, resolver);
    assert Lpd8.PadPath(3, "Note") == "Pad3/Note";
    Lpd8.PadResolution(rule, programData, 3, "Note");
    var resolved := RuleResolution.ResolveRules(name, [rule], resolver);
    assert resolved == [Lpd8.ResolveRule(rule, programData).value];
    Lpd8.ResolutionKeepsIdentity(rule, programData);
    assert resolved[..0] == [];
  }
}
