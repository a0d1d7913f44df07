/**
 * The loop both adapters' `UpdateRules` share
 * (src/device/akai/lpd8/AkaiLpd8.go:116-166,
 * src/device/korg/nanokontrol2/KorgNanoKontrol2.go:213-376): rules of other
 * devices are skipped, rules without a control path are kept as they are,
 * and every other rule is resolved against the device dump or dropped.
 * `resolve` stands for the adapter's path grammar over its decoded dump.
 */
module RuleResolution {
  import opened Wrappers
  import opened Configuration

  type Resolver = Rule -> Option<Rule>

  /** What one iteration of the loop appends for `rule`. */
  function Emitted(deviceName: string, rule: Rule, resolve: Resolver): seq<Rule>
  {
    if rule.midiMessage.deviceName != deviceName then []
    else if rule.midiMessage.deviceControlPath == "" then [rule]
    else match resolve(rule)
      case Some(resolved) => [resolved]
      case None => []
  }

  /** `out` is what the loop appends for `rule`: the rule itself, or its resolution. */
  ghost predicate EmittedFrom(deviceName: string, rule: Rule, out: Rule, resolve: Resolver)
  {
    && rule.midiMessage.deviceName == deviceName
    && (if rule.midiMessage.deviceControlPath == "" then out == rule
        else resolve(rule) == Some(out))
  }

  /** The rules `UpdateRules` returns, for a dump the resolver reads. */
  function ResolveRules(deviceName: string, rules: seq<Rule>, resolve: Resolver): (out: seq<Rule>)
    ensures |out| <= |rules|
  {
    if rules == [] then []
    else ResolveRules(deviceName, rules[..|rules| - 1], resolve) + Emitted(deviceName, rules[|rules| - 1], resolve)
  }

  /** Every returned rule is an input rule of this device, kept or resolved. */
  lemma {:induction false} ResolvedRulesOrigin(deviceName: string, rules: seq<Rule>, resolve: Resolver)
    ensures forall j :: 0 <= j < |ResolveRules(deviceName, rules, resolve)| ==>
      exists k :: 0 <= k < |rules| && EmittedFrom(deviceName, rules[k], ResolveRules(deviceName, rules, resolve)[j], resolve)
  {
    if rules == [] {
      assert ResolveRules(deviceName, rules, resolve) == [];
    } else {
      var front := rules[..|rules| - 1];
      var prefix := ResolveRules(deviceName, front, resolve);
      var out := ResolveRules(deviceName, rules, resolve);
      ResolvedRulesOrigin(deviceName, front, resolve);
      forall j | 0 <= j < |out|
        ensures exists k :: 0 <= k < |rules| && EmittedFrom(deviceName, rules[k], out[j], resolve)
      {
        if j < |prefix| {
          var k :| 0 <= k < |front| && EmittedFrom(deviceName, front[k], prefix[j], resolve);
          assert out == prefix + Emitted(deviceName, rules[|rules| - 1], resolve);
          assert rules[k] == front[k] && out[j] == prefix[j];
          assert EmittedFrom(deviceName, rules[k], out[j], resolve);
        } else {
          var last := rules[|rules| - 1];
          assert out == prefix + Emitted(deviceName, last, resolve);
          assert out[j] == Emitted(deviceName, last, resolve)[0];
          assert EmittedFrom(deviceName, last, out[j], resolve);
        }
      }
    }
  }

  /** Appending a rule appends what the loop emits for it. */
  lemma ResolveRulesSnoc(deviceName: string, rules: seq<Rule>, rule: Rule, resolve: Resolver)
    ensures ResolveRules(deviceName, rules + [rule], resolve)
         == ResolveRules(deviceName, rules, resolve) + Emitted(deviceName, rule, resolve)
  {
    assert (rules + [rule])[..|rules|] == rules;
  }

  /** Rules are resolved one by one, in input order. */
  lemma {:induction false} ResolveRulesAppend(deviceName: string, a: seq<Rule>, b: seq<Rule>, resolve: Resolver)
    ensures ResolveRules(deviceName, a + b, resolve)
         == ResolveRules(deviceName, a, resolve) + ResolveRules(deviceName, b, resolve)
    decreases |b|
  {
    if b == [] {
      assert a + b == a;
    } else {
      var front, last := b[..|b| - 1], b[|b| - 1];
      assert b == front + [last];
      assert a + b == (a + front) + [last];
      calc {
        ResolveRules(deviceName, a + b, resolve);
        { ResolveRulesSnoc(deviceName, a + front, last, resolve); }
        ResolveRules(deviceName, a + front, resolve) + Emitted(deviceName, last, resolve);
        { ResolveRulesAppend(deviceName, a, front, resolve); }
        ResolveRules(deviceName, a, resolve) + ResolveRules(deviceName, front, resolve) + Emitted(deviceName, last, resolve);
        { ResolveRulesSnoc(deviceName, front, last, resolve); }
        ResolveRules(deviceName, a, resolve) + ResolveRules(deviceName, b, resolve);
      }
    }
  }

  lemma ResolveSingle(deviceName: string, rule: Rule, resolve: Resolver)
    ensures ResolveRules(deviceName, [rule], resolve) == Emitted(deviceName, rule, resolve)
  {
    assert [rule][..0] == [];
  }

  /**
   * Each rule contributes what `Emitted` says at its own place: kept,
   * resolved or dropped, with the rules around it unaffected.
   */
  lemma ResolveRulesSplit(deviceName: string, a: seq<Rule>, rule: Rule, b: seq<Rule>, resolve: Resolver)
    ensures ResolveRules(deviceName, a + [rule] + b, resolve)
         == ResolveRules(deviceName, a, resolve) + Emitted(deviceName, rule, resolve)
          + ResolveRules(deviceName, b, resolve)
  {
    ResolveRulesAppend(deviceName, a + [rule], b, resolve);
    ResolveRulesAppend(deviceName, a, [rule], resolve);
    ResolveSingle(deviceName, rule, resolve);
  }

  /** Rules of this device without a control path all come back unchanged and in order. */
  lemma {:induction false} ConcreteRulesPassThrough(deviceName: string, rules: seq<Rule>, resolve: Resolver)
    requires forall k :: 0 <= k < |rules| ==>
      rules[k].midiMessage.deviceName == deviceName && rules[k].midiMessage.deviceControlPath == ""
    ensures ResolveRules(deviceName, rules, resolve) == rules
  {
    if rules != [] {
      ConcreteRulesPassThrough(deviceName, rules[..|rules| - 1], resolve);
      assert rules == rules[..|rules| - 1] + [rules[|rules| - 1]];
    }
  }

  /** Rules naming another device contribute nothing. */
  lemma {:induction false} ForeignRulesOmitted(deviceName: string, rules: seq<Rule>, resolve: Resolver)
    requires forall k :: 0 <= k < |rules| ==> rules[k].midiMessage.deviceName != deviceName
    ensures ResolveRules(deviceName, rules, resolve) == []
  {
    if rules != [] {
      ForeignRulesOmitted(deviceName, rules[..|rules| - 1], resolve);
    }
  }
}
