/** The rule list `toConfig` returns, assembled in the order both generations use: for
    each base key in declaration order its main rule, its separated-map rules and its
    separated-layer rules; then the flat rules; then the exclusion pass over all of it.
    The two generations differ here only in what a base key sends when tapped alone. */
module Compile {
  import opened Common
  import opened Keys
  import opened Karabiner
  import opened Graph
  import opened Lowering
  import opened Assembly
  import opened PostPass

  /** The current generation (`configer.ts`) or the older one (`builder.ts`). */
  datatype Generation = Current | Older

  /** `to_if_alone`: escape, unless the current generation's `ifAlone` recorded a key; its
      hold time is written only when it is not 0. */
  function TapOutput(rb: RuleBased, gen: Generation): (a: Alone)
    ensures gen.Current? && rb.onAlone.Some? && rb.onAlone.value.key != "" ==>
      && a.keyCode == rb.onAlone.value.key
      && (a.holdDownMilliseconds.Some? <==> rb.onAlone.value.holdMs != 0)
      && (a.holdDownMilliseconds.Some? ==> a.holdDownMilliseconds.value == rb.onAlone.value.holdMs)
    ensures !(gen.Current? && rb.onAlone.Some? && rb.onAlone.value.key != "") ==> a == Alone(Escape, None)
  {
    if gen.Current? && rb.onAlone.Some? && rb.onAlone.value.key != "" then
      var s := rb.onAlone.value;
      Alone(s.key, if s.holdMs != 0 then Some(s.holdMs) else None)
    else Alone(Escape, None)
  }

  /** `procTrigMrs` of each generation. */
  function ProcTrigMrs(rb: RuleBased, gen: Generation): seq<Manipulator>
    requires WellFormed(rb)
  {
    TriggerRecords(rb, TapOutput(rb, gen))
  }

  // ---------------------------------------------------------------- the loops of one base key

  /** `procLayerMr`: the toggle, guarded by the base variable and the parent's path, then the
      content of the layer's non-separated maps. */
  method ProcLayerMr(rbs: seq<RuleBased>, r: nat, i: nat) returns (mrs: seq<Manipulator>)
    requires AllWellFormed(rbs) && r < |rbs| && i < |rbs[r].layers|
    ensures mrs == LayerRecords(rbs, r, i)
  {
    var rb := rbs[r];
    var lay := rb.layers[i];
    var parentConds: seq<string> := [];
    if lay.parent.Some? {
      parentConds := GetLayConds(rb, lay.parent.value);
    }
    var vName := VName(rb, i);
    var toggle := Manipulator("Toggle layer " + lay.key, FromEvent(lay.key, Some(Optional([ModAny]))),
      [SetVariable(vName, 1)], Some([SetVariable(vName, 0)]), None,
      Some(MkConds(Some(BaseVar(rb)), parentConds, [])));
    var layConsNow := GetLayConds(rb, i);
    var exclLays := Without(AllLayerNames(rbs), layConsNow);
    var content := ProcKeyMaps(ItemsOf(Select(lay.maps, false), layConsNow), Some(BaseVar(rb)), exclLays);
    mrs := [toggle] + content;
  }

  /** The loop of `procSepLayers` over a separated layer's non-separated maps, one
      `procKeyMaps` call per map. */
  method ProcContentByMap(rbs: seq<RuleBased>, r: nat, i: nat) returns (mrs: seq<Manipulator>)
    requires AllWellFormed(rbs) && r < |rbs| && i < |rbs[r].layers|
    ensures mrs == LayerContent(rbs, r, i)
  {
    var rb := rbs[r];
    var path := LayPath(rb, i);
    var items := ItemsOf(Select(rb.layers[i].maps, false), path);
    mrs := [];
    for k := 0 to |items|
      invariant mrs == KeyMapRecords(items[..k], Some(BaseVar(rb)), Exclusions(rbs, r, i))
    {
      mrs := ProcContentStep(rbs, r, i, items, k, mrs);
    }
    assert items[..|items|] == items;
  }

  /** One iteration of that loop: the layer's conditions and exclusions, then `procKeyMaps` on
      map `k` alone. */
  method ProcContentStep(rbs: seq<RuleBased>, r: nat, i: nat, items: seq<KeyMapItem>, k: nat,
                         acc: seq<Manipulator>) returns (mrs: seq<Manipulator>)
    requires AllWellFormed(rbs) && r < |rbs| && i < |rbs[r].layers| && k < |items|
    requires acc == KeyMapRecords(items[..k], Some(BaseVar(rbs[r])), Exclusions(rbs, r, i))
    ensures mrs == KeyMapRecords(items[..k + 1], Some(BaseVar(rbs[r])), Exclusions(rbs, r, i))
  {
    var rb := rbs[r];
    var currentLayerConds := GetLayConds(rb, i);
    var excludeLayers := Without(AllLayerNames(rbs), currentLayerConds);
    assert excludeLayers == Exclusions(rbs, r, i);
    var rs := ProcKeyMaps([items[k]], Some(BaseVar(rb)), excludeLayers);
    mrs := acc + rs;
    KeyMapRecordsSnoc(items, k, Some(BaseVar(rb)), excludeLayers);
  }

  /** One iteration of `procSepLayers`: the layer's own rule, then a rule per destination of
      each separated map of the layer, guarded by the path but not the base variable. */
  method ProcSepLayer(rbs: seq<RuleBased>, r: nat, i: nat) returns (rus: seq<KaraRule>)
    requires AllWellFormed(rbs) && r < |rbs| && i < |rbs[r].layers|
    ensures rus == SepLayerRule(rbs, r, i)
  {
    var rb := rbs[r];
    var lay := rb.layers[i];
    var parentConds: seq<string> := [];
    if lay.parent.Some? {
      parentConds := GetLayConds(rb, lay.parent.value);
    }
    var vName := VName(rb, i);
    var toggle := Manipulator("Toggle layer " + lay.key, FromEvent(lay.key, Some(Optional([ModAny]))),
      [SetVariable(vName, 1)], Some([SetVariable(vName, 0)]), None,
      Some(MkConds(Some(BaseVar(rb)), parentConds, [])));
    var content := ProcContentByMap(rbs, r, i);
    var nonSepMaps := Select(lay.maps, false);
    var desc := LayerDscFul(rb, i);
    rus := [KaraRule(if |nonSepMaps| > 0 then Decorated(desc) else Plain(desc), [toggle] + content)];
    var layerConds := GetLayConds(rb, i);
    var excludeLayers := Without(AllLayerNames(rbs), layerConds);
    var sepMrs := ProcKeyMaps(ItemsOf(Select(lay.maps, true), layerConds), None, excludeLayers);
    var sepRus := OneRulePerRecord(sepMrs);
    rus := rus + sepRus;
  }

  /** `procSepLayers`: the rules of every separated layer, in layer order. */
  method ProcSepLayers(rbs: seq<RuleBased>, r: nat) returns (rus: seq<KaraRule>)
    requires AllWellFormed(rbs) && r < |rbs|
    ensures rus == SepLayerRules(rbs, r, |rbs[r].layers|)
  {
    rus := [];
    for i := 0 to |rbs[r].layers|
      invariant rus == SepLayerRules(rbs, r, i)
    {
      if rbs[r].layers[i].separated {
        var own := ProcSepLayer(rbs, r, i);
        rus := rus + own;
      }
    }
  }

  /** The records of the main rule: the trigger records, the non-separated base-key maps, then
      the records of every non-separated layer. */
  method ProcMainRecords(rbs: seq<RuleBased>, r: nat, trig: seq<Manipulator>) returns (mrs: seq<Manipulator>)
    requires AllWellFormed(rbs) && r < |rbs|
    ensures mrs == MainRecords(rbs, r, trig)
  {
    var rb := rbs[r];
    var based := ProcKeyMaps(ItemsOf(Select(rb.maps, false), []), Some(BaseVar(rb)), []);
    var layerMrs := ProcLayers(rbs, r);
    mrs := trig + based + layerMrs;
  }

  /** The loop over the non-separated layers of a base key. */
  method ProcLayers(rbs: seq<RuleBased>, r: nat) returns (mrs: seq<Manipulator>)
    requires AllWellFormed(rbs) && r < |rbs|
    ensures mrs == NonSepLayerRecords(rbs, r, |rbs[r].layers|)
  {
    mrs := [];
    for i := 0 to |rbs[r].layers|
      invariant mrs == NonSepLayerRecords(rbs, r, i)
    {
      mrs := ProcLayerStep(rbs, r, i, mrs);
    }
  }

  /** One iteration: the records of layer `i` are appended unless it is separated. */
  method ProcLayerStep(rbs: seq<RuleBased>, r: nat, i: nat, acc: seq<Manipulator>) returns (mrs: seq<Manipulator>)
    requires AllWellFormed(rbs) && r < |rbs| && i < |rbs[r].layers|
    requires acc == NonSepLayerRecords(rbs, r, i)
    ensures mrs == NonSepLayerRecords(rbs, r, i + 1)
  {
    mrs := acc;
    if !rbs[r].layers[i].separated {
      var own := ProcLayerMr(rbs, r, i);
      mrs := mrs + own;
    }
  }

  /** One iteration of the base-key loop of `toConfig`. */
  method ProcBasedKey(rbs: seq<RuleBased>, r: nat, gen: Generation) returns (rus: seq<KaraRule>)
    requires AllWellFormed(rbs) && r < |rbs|
    ensures rus == BasedRules(rbs, r, TriggerRecords(rbs[r], TapOutput(rbs[r], gen)))
  {
    var rub := rbs[r];
    var mrs := ProcMainRecords(rbs, r, ProcTrigMrs(rub, gen));
    rus := [KaraRule(MainDesc(rub), mrs)];
    var sepMaps := ProSepMaps(rub);
    var sepLayers := ProcSepLayers(rbs, r);
    rus := rus + sepMaps + sepLayers;
  }

  // ---------------------------------------------------------------- the whole output

  /** The tap output of every base key. */
  function Taps(rbs: seq<RuleBased>, gen: Generation): (ts: seq<Alone>)
    ensures |ts| == |rbs|
    ensures forall r :: 0 <= r < |rbs| ==> ts[r] == TapOutput(rbs[r], gen)
  {
    if |rbs| == 0 then [] else Taps(rbs[..|rbs| - 1], gen) + [TapOutput(rbs[|rbs| - 1], gen)]
  }

  /** The rules of the first `n` base keys, given their tap outputs. */
  function AllBasedRules(rbs: seq<RuleBased>, n: nat, taps: seq<Alone>): seq<KaraRule>
    requires AllWellFormed(rbs) && n <= |rbs| && |taps| == |rbs|
  {
    if n == 0 then []
    else AllBasedRules(rbs, n - 1, taps) + BasedRules(rbs, n - 1, TriggerRecords(rbs[n - 1], taps[n - 1]))
  }

  /** The rules before the exclusion pass: base keys first, then flat rules. */
  function Lowered(rbs: seq<RuleBased>, rules: seq<Rule>, gen: Generation): seq<KaraRule>
    requires AllWellFormed(rbs)
  {
    AllBasedRules(rbs, |rbs|, Taps(rbs, gen)) + FlatRules(rules)
  }

  /** The `complex_modifications.rules` of the output. */
  function CompiledRules(rbs: seq<RuleBased>, rules: seq<Rule>, gen: Generation): seq<KaraRule>
    requires AllWellFormed(rbs)
  {
    PostPassSpec(Lowered(rbs, rules, gen))
  }

  method LowerBased(rbs: seq<RuleBased>, gen: Generation) returns (rus: seq<KaraRule>)
    requires AllWellFormed(rbs)
    ensures rus == AllBasedRules(rbs, |rbs|, Taps(rbs, gen))
  {
    rus := [];
    for r := 0 to |rbs|
      invariant rus == AllBasedRules(rbs, r, Taps(rbs, gen))
    {
      var own := ProcBasedKey(rbs, r, gen);
      rus := rus + own;
    }
  }

  /** The flat-rule loop of `toConfig`. */
  method LowerFlat(rules: seq<Rule>) returns (rus: seq<KaraRule>)
    ensures rus == FlatRules(rules)
  {
    rus := [];
    for k := 0 to |rules|
      invariant rus == FlatRules(rules[..k])
    {
      var ru := rules[k];
      var mrs := ProcKeyMaps(ItemsOf(ru.maps, []), None, []);
      var desc := RuleDscFul(ru);
      rus := rus + [KaraRule(if |ru.maps| > 1 then Decorated(desc) else Plain(desc), mrs)];
      FlatRulesSnoc(rules, k);
    }
    assert rules[..|rules|] == rules;
  }

  lemma FlatRulesSnoc(rules: seq<Rule>, k: nat)
    requires k < |rules|
    ensures FlatRules(rules[..k + 1]) == FlatRules(rules[..k]) + [FlatRule(rules[k])]
  {
    assert rules[..k + 1][..k] == rules[..k];
  }

  /** The rule-building part of `toConfig`, exclusion pass included. */
  method BuildRules(rbs: seq<RuleBased>, rules: seq<Rule>, gen: Generation) returns (rus: seq<KaraRule>)
    requires AllWellFormed(rbs)
    ensures rus == CompiledRules(rbs, rules, gen)
  {
    var based := LowerBased(rbs, gen);
    var flat := LowerFlat(rules);
    rus := RunPostPass(based + flat);
  }

  // ---------------------------------------------------------------- properties

  /** Without an `ifAlone` key the two generations produce the same rules. */
  lemma SameOutputWithoutIfAlone(rbs: seq<RuleBased>, rules: seq<Rule>)
    requires AllWellFormed(rbs)
    requires forall r :: 0 <= r < |rbs| ==> rbs[r].onAlone.None? || rbs[r].onAlone.value.key == ""
    ensures CompiledRules(rbs, rules, Current) == CompiledRules(rbs, rules, Older)
  {
    var cur, older := Taps(rbs, Current), Taps(rbs, Older);
    assert cur == older by {
      forall r | 0 <= r < |rbs| ensures cur[r] == older[r] {
        assert cur[r] == TapOutput(rbs[r], Current);
      }
    }
  }

  /** The flat rules come last and leave the exclusion pass exactly as they were built: their
      records carry no conditions. */
  lemma FlatRulesUntouched(rbs: seq<RuleBased>, rules: seq<Rule>, gen: Generation)
    requires AllWellFormed(rbs)
    ensures |CompiledRules(rbs, rules, gen)| == |AllBasedRules(rbs, |rbs|, Taps(rbs, gen))| + |rules|
    ensures CompiledRules(rbs, rules, gen)[|AllBasedRules(rbs, |rbs|, Taps(rbs, gen))|..] == FlatRules(rules)
  {
    FlatRulesLast(AllBasedRules(rbs, |rbs|, Taps(rbs, gen)), rules);
  }

  /** Whatever precedes them, flat rules pass the exclusion pass unchanged. */
  lemma FlatRulesLast(pre: seq<KaraRule>, rules: seq<Rule>)
    ensures var out := PostPassSpec(pre + FlatRules(rules));
      |out| == |pre| + |rules| && out[|pre|..] == FlatRules(rules)
  {
    var low := pre + FlatRules(rules);
    assert low[|pre|..] == FlatRules(rules);
    FlatTailSurvives(low, |pre|, rules);
  }

  /** Flat rules at the end of the output pass the exclusion pass unchanged. */
  lemma FlatTailSurvives(low: seq<KaraRule>, b: nat, rules: seq<Rule>)
    requires b <= |low| && low[b..] == FlatRules(rules)
    ensures PostPassSpec(low)[b..] == low[b..]
  {
    forall x | b <= x < |low| ensures PostPassSpec(low)[x] == low[x] {
      FlatRulesElement(rules, x - b);
      assert low[x] == FlatRules(rules)[x - b];
      FlatRuleIn(low, x, rules[x - b]);
    }
  }

  /** A flat rule anywhere in the output comes out of the pass as it went in. */
  lemma FlatRuleIn(low: seq<KaraRule>, x: nat, ru: Rule)
    requires x < |low| && low[x] == FlatRule(ru)
    ensures PostPassSpec(low)[x] == low[x]
  {
    FlatRuleSurvives(ru, low);
    RuleSurvives(low, x);
  }

  /** A rule whose records the pass leaves alone comes out of the pass as it went in. */
  lemma RuleSurvives(low: seq<KaraRule>, x: nat)
    requires x < |low| && PostRecords(low[x].manipulators, low) == low[x].manipulators
    ensures PostPassSpec(low)[x] == low[x]
  {
    assert PostRules(low, low)[x] == low[x].(manipulators := PostRecords(low[x].manipulators, low));
  }

  /** The records of one flat rule pass the exclusion pass unchanged. */
  lemma FlatRuleSurvives(ru: Rule, rus: seq<KaraRule>)
    ensures PostRecords(FlatRule(ru).manipulators, rus) == FlatRule(ru).manipulators
  {
    var mrs := FlatRule(ru).manipulators;
    FlatRuleUnconditioned(ru);
    forall k | 0 <= k < |mrs| ensures PostRecords(mrs, rus)[k] == mrs[k] {
      assert OneEvent(mrs[k], None);
    }
  }

  lemma {:induction false} FlatRulesElement(rules: seq<Rule>, j: nat)
    requires j < |rules|
    ensures FlatRules(rules)[j] == FlatRule(rules[j])
  {
    if j < |rules| - 1 {
      FlatRulesElement(rules[..|rules| - 1], j);
    }
  }

  /** After the exclusion pass, a layer toggle found anywhere in the output requires its own
      variable to be 0, so holding the layer key again does not re-toggle it. */
  lemma ToggleGuardsItself(rus: seq<KaraRule>, x: nat, k: nat, rb: RuleBased, i: nat)
    requires WellFormed(rb) && i < |rb.layers|
    requires x < |rus| && k < |rus[x].manipulators| && rus[x].manipulators[k] == LayerToggle(rb, i)
    ensures VariableIf(VName(rb, i), 0) in PostPassSpec(rus)[x].manipulators[k].conditions.value
  {
    var mr := LayerToggle(rb, i);
    var n := VName(rb, i);
    var cs := mr.conditions.value;
    assert Truthy(Some(BaseVar(rb)));
    assert cs[0] == VariableIf(BaseVar(rb), 1);
    VNameHasLayerPrefix(rb, i);
    assert SetsPrefixed(mr, LayerPrefixOf(BaseVar(rb)));
    LayerToggleShape(rb, i);
    VNameNotOnParentPath(rb, i);
    assert BaseVar(rb) != n by {
      assert BaseVar(rb)[0] == 'v';
      assert n[0] == LayerPrefix(rb)[0] == 'l';
    }
    assert !HasName(cs, n) by {
      forall j | 0 <= j < |cs| ensures cs[j].name != n {
        assert cs[j] in cs;
      }
    }
    ToggleExcludesItself(rus, x, k, 0);
  }

  /** The prefix match of the exclusion pass reaches across base keys: a base key with
      modifiers whose key is another base key's key puts its layer variables under that other
      base key's prefix, so records guarded by the other base key are excluded by them too. */
  lemma PrefixReachesOtherBaseKey(plain: RuleBased, moded: RuleBased, i: nat)
    requires plain.baseKey == moded.baseKey && |plain.baseMods| == 0 && |moded.baseMods| > 0
    requires WellFormed(moded) && i < |moded.layers|
    ensures LayerPrefixOf(BaseVar(plain)) <= VName(moded, i)
    ensures BaseVar(plain) != BaseVar(moded)
  {
    VNameHasLayerPrefix(moded, i);
    var j := Join(moded.baseMods, "_");
    assert LayerPrefix(moded) == LayerPrefixOf(BaseVar(plain)) + j + "_";
    assert |BaseVar(plain)| < |BaseVar(moded)|;
  }

  /** The content records of a separated layer's separated maps require no base variable, so the
      exclusion pass never touches them. */
  lemma SepLayerMapsSkipped(rus: seq<KaraRule>, x: nat, k: nat, rbs: seq<RuleBased>, r: nat, i: nat, j: nat)
    requires AllWellFormed(rbs) && r < |rbs| && i < |rbs[r].layers|
    requires var rb := rbs[r];
      var mrs := KeyMapRecords(ItemsOf(Select(rb.layers[i].maps, true), LayPath(rb, i)), None, Exclusions(rbs, r, i));
      j < |mrs| && x < |rus| && k < |rus[x].manipulators| && rus[x].manipulators[k] == mrs[j]
    ensures PostPassSpec(rus)[x].manipulators[k] == rus[x].manipulators[k]
  {
    SepLayerMapsUnguarded(rbs, r, i);
    PostPassSkipsUnguarded(rus, x, k);
  }
}
