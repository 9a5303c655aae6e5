/** The builder of the current generation: `Config` and the rule, base-key, layer and map
    objects it hands out. The source hands out references to those objects and mutates them
    in place; here they are addressed by their position in the builder's lists, and every
    method states the builder's whole new state. */
module Configer {
  import opened Common
  import opened Karabiner
  import opened Graph
  import opened Registry
  import opened Assembly
  import opened GraphEdit
  import opened Output
  import opened Compile

  /** The profile name when none is given. */
  const DefaultProfile := "Default"

  /** The hold time `ifAlone` records when none is given. */
  const DefaultHoldMs := 100

  /** Everything the builder holds apart from its registry. */
  datatype State = State(
    profName: string,
    showInMenuBar: bool,
    rules: seq<Rule>,
    ruleBsds: seq<RuleBased>,
    simples: seq<SimpleKeyMap>,
    devices: seq<Device>)

  class Config {
    var profName: string
    var showInMenuBar: bool
    var rules: seq<Rule>
    var ruleBsds: seq<RuleBased>
    var simples: seq<SimpleKeyMap>
    var devices: seq<Device>
    const keyMap: KeyRegistry

    ghost function Snapshot(): State
      reads this
    {
      State(profName, showInMenuBar, rules, ruleBsds, simples, devices)
    }

    /** Layers name earlier layers as parents, and every base key and base-key map is in the
        registry. */
    ghost predicate Valid()
      reads this, keyMap
    {
      AllWellFormed(ruleBsds) && Registered(keyMap.scopes, ruleBsds)
    }

    constructor (profName: string := DefaultProfile)
      ensures Valid() && fresh(keyMap)
      ensures Snapshot() == State(profName, false, [], [], [], []) && keyMap.scopes == map[]
    {
      this.profName := profName;
      showInMenuBar := false;
      rules := [];
      ruleBsds := [];
      simples := [];
      devices := [];
      keyMap := new KeyRegistry();
    }

    // ------------------------------------------------------------ Config

    /** `rule(desc)`: a new flat rule. */
    method NewRule(desc: string) returns (r: nat)
      requires Valid()
      modifies this
      ensures Valid()
      ensures r == |old(rules)|
      ensures Snapshot() == old(Snapshot()).(rules := old(rules) + [Rule(Some(desc), [])])
    {
      r := |rules|;
      rules := rules + [Rule(Some(desc), [])];
    }

    /** `map(key, mods)`: a new simple map, without a target yet. */
    method Map(key: string, mods: seq<string> := []) returns (j: nat)
      requires Valid()
      modifies this
      ensures Valid()
      ensures j == |old(simples)|
      ensures Snapshot() == old(Snapshot()).(simples := old(simples) + [SimpleKeyMap(key, mods, None)])
    {
      j := |simples|;
      simples := simples + [SimpleKeyMap(key, mods, None)];
    }

    /** `ruleBaseBy(key, mods)`: refused when the key+modifiers is registered in any scope;
        otherwise registered globally and added as a new base key. */
    method RuleBaseBy(key: string, mods: seq<string> := []) returns (res: Result<nat>)
      requires Valid()
      modifies this, keyMap
      ensures Valid()
      ensures res.Err? <==> RegisteredAnywhere(old(keyMap.scopes), KeyId(key, mods))
      ensures res.Err? ==>
        res.msg == DupMessage(key, mods, None) && Snapshot() == old(Snapshot()) && keyMap.scopes == old(keyMap.scopes)
      ensures res.Ok? ==>
        && res.value == |old(ruleBsds)|
        && Snapshot() == old(Snapshot()).(ruleBsds := old(ruleBsds) + [NewRuleBased(key, mods)])
        && Check(Pass, keyMap.scopes) == ChkDup(old(keyMap.scopes), key, mods, [], Some("ruleBaseBy"))
    {
      var found := keyMap.AnyScopeHas(KeyId(key, mods));
      if found {
        return Err(DupMessage(key, mods, None));
      }
      ghost var s0 := keyMap.scopes;
      var st := keyMap.ChkDupKey(key, mods, [], Some("ruleBaseBy"));
      assert st == Pass;
      AddBase(keyMap.scopes, ruleBsds, key, mods) by {
        RegisteredGrows(s0, keyMap.scopes, ruleBsds);
      }
      res := Ok(|ruleBsds|);
      ruleBsds := ruleBsds + [NewRuleBased(key, mods)];
    }

    /** `device(idf, ignore)`: the identifiers are marked as both keyboard and pointing device. */
    method AddDevice(idf: DeviceIdentifiers, ignore: bool := false)
      requires Valid()
      modifies this
      ensures Valid()
      ensures Snapshot() == old(Snapshot()).(devices := old(devices)
        + [Device(idf.(isKeyboard := Some(true), isPointingDevice := Some(true)), ignore)])
    {
      devices := devices + [Device(idf.(isKeyboard := Some(true), isPointingDevice := Some(true)), ignore)];
    }

    /** `toJSON()`: the compiled configuration, or the error `toConfig` throws. */
    method ToJSON() returns (res: Result<KaraCfg>)
      requires Valid()
      modifies keyMap
      ensures Valid()
      ensures Outcome(res, keyMap.scopes)
        == ConfigOutput(old(keyMap.scopes), profName, showInMenuBar, rules, ruleBsds, simples, devices)
    {
      ghost var s0 := keyMap.scopes;
      res := EmitConfig(keyMap, profName, showInMenuBar, rules, ruleBsds, simples, devices);
      RegisterSimplesScopes(s0, simples);
      RegisteredGrows(s0, keyMap.scopes, ruleBsds);
    }

    // ------------------------------------------------------------ SimpleKeyMap

    /** `SimpleKeyMap.to(dst, mods)`: sets (or replaces) the target. */
    method SimpleTo(j: nat, dst: Dest, mods: seq<string> := [])
      requires Valid() && j < |simples|
      modifies this
      ensures Valid()
      ensures Snapshot() == old(Snapshot()).(simples := old(simples)[j := SimpleKeyMap(old(simples)[j].key,
        old(simples)[j].mods, Some(KeyDefine(dst, mods)))])
    {
      simples := simples[j := simples[j].(dst := Some(KeyDefine(dst, mods)))];
    }

    // ------------------------------------------------------------ Rule

    /** `Rule.map(key, mods)`: a new map of a flat rule; flat-rule keys are not registered. */
    method RuleMap(r: nat, key: string, mods: seq<string> := []) returns (k: nat)
      requires Valid() && r < |rules|
      modifies this
      ensures Valid()
      ensures k == |old(rules)[r].maps|
      ensures Snapshot() == old(Snapshot()).(rules := old(rules)[r := old(rules)[r].(maps := old(rules)[r].maps + [NewMap(key, mods)])])
    {
      k := |rules[r].maps|;
      rules := rules[r := rules[r].(maps := rules[r].maps + [NewMap(key, mods)])];
    }

    /** `Rule.desc(d)`. */
    method DescRule(r: nat, d: string)
      requires Valid() && r < |rules|
      modifies this
      ensures Valid()
      ensures Snapshot() == old(Snapshot()).(rules := old(rules)[r := old(rules)[r].(dsc := Some(d))])
    {
      rules := rules[r := rules[r].(dsc := Some(d))];
    }

    // ------------------------------------------------------------ RuleBased

    /** Replaces base key `b` by a version that differs only in settings or map contents. */
    method SetBase(b: nat, y: RuleBased)
      requires Valid() && b < |ruleBsds| && SameBase(ruleBsds[b], y)
      modifies this
      ensures Valid()
      ensures Snapshot() == old(Snapshot()).(ruleBsds := old(ruleBsds)[b := y])
    {
      EditOneBase(keyMap.scopes, ruleBsds, b, y);
      ruleBsds := ruleBsds[b := y];
    }

    /** `RuleBased.map(key, mods)`: the key+modifiers is registered in the scope of the base
        variable, and a duplicate there is refused. */
    method BaseMap(b: nat, key: string, mods: seq<string> := []) returns (res: Result<nat>)
      requires Valid() && b < |ruleBsds|
      modifies this, keyMap
      ensures Valid()
      ensures var rb := old(ruleBsds)[b];
        var c := ChkDup(old(keyMap.scopes), key, mods, [BaseVar(rb)], Some(BaseMapCtx(rb, key)));
        && keyMap.scopes == c.scopes
        && (res.Err? <==> c.status.Fail?)
        && (res.Err? ==> res.msg == c.status.msg && Snapshot() == old(Snapshot()))
        && (res.Ok? ==>
              && res.value == |rb.maps|
              && Snapshot() == old(Snapshot()).(ruleBsds := old(ruleBsds)[b := rb.(maps := rb.maps + [NewMap(key, mods)])]))
    {
      var rb := ruleBsds[b];
      ghost var s0 := keyMap.scopes;
      var st := keyMap.ChkDupKey(key, mods, [BaseVar(rb)], Some(BaseMapCtx(rb, key)));
      if st.Fail? {
        return Err(st.msg);
      }
      RegisteredGrows(s0, keyMap.scopes, ruleBsds);
      AddBaseMap(keyMap.scopes, ruleBsds, b, NewMap(key, mods));
      assert AllWellFormed(ruleBsds[b := rb.(maps := rb.maps + [NewMap(key, mods)])]) by {
        assert WellFormed(rb);
      }
      res := Ok(|rb.maps|);
      ruleBsds := ruleBsds[b := rb.(maps := rb.maps + [NewMap(key, mods)])];
    }

    /** `RuleBased.layer(key)`: a new top-level layer. */
    method BaseLayer(b: nat, key: string) returns (i: nat)
      requires Valid() && b < |ruleBsds|
      modifies this
      ensures Valid()
      ensures i == |old(ruleBsds)[b].layers|
      ensures Snapshot() == old(Snapshot()).(ruleBsds := old(ruleBsds)[b := old(ruleBsds)[b].(layers :=
        old(ruleBsds)[b].layers + [Layer(key, None, false, [], None)])])
    {
      var rb := ruleBsds[b];
      i := |rb.layers|;
      AddLayer(b, Layer(key, None, false, [], None));
    }

    /** `Layer.layer(key)`: a sub-layer of layer `i`, appended to the base key's layer list. */
    method SubLayer(b: nat, i: nat, key: string) returns (j: nat)
      requires Valid() && b < |ruleBsds| && i < |ruleBsds[b].layers|
      modifies this
      ensures Valid()
      ensures j == |old(ruleBsds)[b].layers| && i < j
      ensures Snapshot() == old(Snapshot()).(ruleBsds := old(ruleBsds)[b := old(ruleBsds)[b].(layers :=
        old(ruleBsds)[b].layers + [Layer(key, Some(i), false, [], None)])])
    {
      var rb := ruleBsds[b];
      j := |rb.layers|;
      AddLayer(b, Layer(key, Some(i), false, [], None));
    }

    /** Appends a layer whose parent, if any, is already in the list. */
    method AddLayer(b: nat, l: Layer)
      requires Valid() && b < |ruleBsds| && ParentBefore(l, |ruleBsds[b].layers|)
      modifies this
      ensures Valid()
      ensures Snapshot() == old(Snapshot()).(ruleBsds := old(ruleBsds)[b := old(ruleBsds)[b].(layers := old(ruleBsds)[b].layers + [l])])
    {
      var rb := ruleBsds[b];
      var rb' := rb.(layers := rb.layers + [l]);
      assert WellFormed(rb') by {
        assert WellFormed(rb);
      }
      ruleBsds := ruleBsds[b := rb'];
      assert BaseVar(rb') == BaseVar(rb);
    }

    /** `RuleBased.ifAlone(key, holdMs)`: what a tap of the base key sends. */
    method IfAlone(b: nat, key: string, holdMs: int := DefaultHoldMs)
      requires Valid() && b < |ruleBsds|
      modifies this
      ensures Valid()
      ensures Snapshot() == old(Snapshot()).(ruleBsds := old(ruleBsds)[b := old(ruleBsds)[b].(onAlone := Some(AloneSetting(key, holdMs)))])
    {
      SetBase(b, ruleBsds[b].(onAlone := Some(AloneSetting(key, holdMs))));
    }

    /** `RuleBased.mapTo(key, mods)`: switches combo mode on with this target. */
    method MapTo(b: nat, key: string, mods: seq<string>)
      requires Valid() && b < |ruleBsds|
      modifies this
      ensures Valid()
      ensures Snapshot() == old(Snapshot()).(ruleBsds := old(ruleBsds)[b := old(ruleBsds)[b].(combo := Some(Combo(key, mods)))])
    {
      SetBase(b, ruleBsds[b].(combo := Some(Combo(key, mods))));
    }

    /** `RuleBased.desc(d)`. */
    method DescBase(b: nat, d: string)
      requires Valid() && b < |ruleBsds|
      modifies this
      ensures Valid()
      ensures Snapshot() == old(Snapshot()).(ruleBsds := old(ruleBsds)[b := old(ruleBsds)[b].(dsc := Some(d))])
    {
      SetBase(b, ruleBsds[b].(dsc := Some(d)));
    }

    // ------------------------------------------------------------ Layer

    /** `Layer.map(key, mods)`: a new map of layer `i`; layer keys are not registered. */
    method LayerMap(b: nat, i: nat, key: string, mods: seq<string> := []) returns (k: nat)
      requires Valid() && b < |ruleBsds| && i < |ruleBsds[b].layers|
      modifies this
      ensures Valid()
      ensures k == |old(ruleBsds)[b].layers[i].maps|
      ensures var rb := old(ruleBsds)[b]; var l := rb.layers[i];
        Snapshot() == old(Snapshot()).(ruleBsds := old(ruleBsds)[b := rb.(layers := rb.layers[i := l.(maps := l.maps + [NewMap(key, mods)])])])
    {
      var rb := ruleBsds[b];
      var l := rb.layers[i];
      k := |l.maps|;
      SetLayer(b, i, l.(maps := l.maps + [NewMap(key, mods)]));
    }

    /** `Layer.separate()`. */
    method SeparateLayer(b: nat, i: nat)
      requires Valid() && b < |ruleBsds| && i < |ruleBsds[b].layers|
      modifies this
      ensures Valid()
      ensures var rb := old(ruleBsds)[b];
        Snapshot() == old(Snapshot()).(ruleBsds := old(ruleBsds)[b := rb.(layers := rb.layers[i := rb.layers[i].(separated := true)])])
    {
      SetLayer(b, i, ruleBsds[b].layers[i].(separated := true));
    }

    /** `Layer.desc(d)`. */
    method DescLayer(b: nat, i: nat, d: string)
      requires Valid() && b < |ruleBsds| && i < |ruleBsds[b].layers|
      modifies this
      ensures Valid()
      ensures var rb := old(ruleBsds)[b];
        Snapshot() == old(Snapshot()).(ruleBsds := old(ruleBsds)[b := rb.(layers := rb.layers[i := rb.layers[i].(dsc := Some(d))])])
    {
      SetLayer(b, i, ruleBsds[b].layers[i].(dsc := Some(d)));
    }

    /** Replaces layer `i` of base key `b` by a version with the same key and parent. */
    method SetLayer(b: nat, i: nat, l: Layer)
      requires Valid() && b < |ruleBsds| && i < |ruleBsds[b].layers|
      requires l.key == ruleBsds[b].layers[i].key && l.parent == ruleBsds[b].layers[i].parent
      modifies this
      ensures Valid()
      ensures Snapshot() == old(Snapshot()).(ruleBsds := old(ruleBsds)[b := old(ruleBsds)[b].(layers := old(ruleBsds)[b].layers[i := l])])
    {
      var rb := ruleBsds[b];
      SetBase(b, rb.(layers := rb.layers[i := l]));
    }

    // ------------------------------------------------------------ maps of every kind

    /** Replaces the map at `ref` by one with the same key and modifiers. */
    method SetMap(ref: MapRef, m: KeyMap)
      requires Valid() && RefOk(rules, ruleBsds, ref)
      requires m.key == MapAt(rules, ruleBsds, ref).key && m.mods == MapAt(rules, ruleBsds, ref).mods
      modifies this
      ensures Valid()
      ensures Snapshot() == old(Snapshot()).(rules := RulesWith(old(rules), ref, m), ruleBsds := BasedWith(old(ruleBsds), ref, m))
    {
      ReplaceMapKeepsBases(ruleBsds, ref, m);
      RegisteredSameBases(keyMap.scopes, ruleBsds, BasedWith(ruleBsds, ref, m));
      SameBasesWellFormed(ruleBsds, BasedWith(ruleBsds, ref, m));
      rules := RulesWith(rules, ref, m);
      ruleBsds := BasedWith(ruleBsds, ref, m);
    }

    /** `IMap.to(dst, mods)`: appends a target to the map. */
    method To(ref: MapRef, dst: Dest, mods: seq<string> := [])
      requires Valid() && RefOk(rules, ruleBsds, ref)
      modifies this
      ensures Valid()
      ensures var m := MapAt(old(rules), old(ruleBsds), ref).(keys := MapAt(old(rules), old(ruleBsds), ref).keys + [KeyDefine(dst, mods)]);
        Snapshot() == old(Snapshot()).(rules := RulesWith(old(rules), ref, m), ruleBsds := BasedWith(old(ruleBsds), ref, m))
    {
      var m := MapAt(rules, ruleBsds, ref);
      SetMap(ref, m.(keys := m.keys + [KeyDefine(dst, mods)]));
    }

    /** `IMap.desc(d)`, also what `RuleKeyMapHoldInfo.desc(d)` does to its map. */
    method DescMap(ref: MapRef, d: string)
      requires Valid() && RefOk(rules, ruleBsds, ref)
      modifies this
      ensures Valid()
      ensures var m := MapAt(old(rules), old(ruleBsds), ref).(dsc := Some(d));
        Snapshot() == old(Snapshot()).(rules := RulesWith(old(rules), ref, m), ruleBsds := BasedWith(old(ruleBsds), ref, m))
    {
      SetMap(ref, MapAt(rules, ruleBsds, ref).(dsc := Some(d)));
    }

    /** `BasedKeyMap.separate()` and `LayerKeyMap.separate()`; flat-rule maps have no such method. */
    method Separate(ref: MapRef)
      requires Valid() && RefOk(rules, ruleBsds, ref) && !ref.InRule?
      modifies this
      ensures Valid()
      ensures var m := MapAt(old(rules), old(ruleBsds), ref).(separated := true);
        Snapshot() == old(Snapshot()).(ruleBsds := BasedWith(old(ruleBsds), ref, m))
    {
      SetMap(ref, MapAt(rules, ruleBsds, ref).(separated := true));
    }

    /** `RuleKeyMap.onHold(key)`: a fresh hold record without parameters. */
    method OnHold(r: nat, k: nat, key: string)
      requires Valid() && r < |rules| && k < |rules[r].maps|
      modifies this
      ensures Valid()
      ensures var m := old(rules)[r].maps[k].(holdInfo := Some(HoldInfo(key, None, None)));
        Snapshot() == old(Snapshot()).(rules := RulesWith(old(rules), InRule(r, k), m))
    {
      SetMap(InRule(r, k), rules[r].maps[k].(holdInfo := Some(HoldInfo(key, None, None))));
    }

    /** `RuleKeyMapHoldInfo.setParam(p, v)` on the hold record of a flat-rule map. */
    method SetParam(r: nat, k: nat, p: HoldParam, v: int)
      requires Valid() && r < |rules| && k < |rules[r].maps| && rules[r].maps[k].holdInfo.Some?
      modifies this
      ensures Valid()
      ensures var h := old(rules)[r].maps[k].holdInfo.value;
        var h' := if p.DelayedActionMs? then h.(delayedActionMs := Some(v)) else h.(thresholdMs := Some(v));
        Snapshot() == old(Snapshot()).(rules := RulesWith(old(rules), InRule(r, k), old(rules)[r].maps[k].(holdInfo := Some(h'))))
    {
      var h := rules[r].maps[k].holdInfo.value;
      var h' := if p.DelayedActionMs? then h.(delayedActionMs := Some(v)) else h.(thresholdMs := Some(v));
      SetMap(InRule(r, k), rules[r].maps[k].(holdInfo := Some(h')));
    }
  }

  /** Left to their defaults, `new Config()` names its profile "Default", `ruleBaseBy(key)` takes
      no modifiers, and `ifAlone(tap)` records a hold time of 100 ms, which the current generation
      emits as `hold_down_milliseconds: 100`. */
  method DefaultsApply(key: string, tap: string) returns (cfg: Config, b: nat)
    requires tap != ""
    ensures cfg.profName == "Default" && b < |cfg.ruleBsds|
    ensures cfg.ruleBsds[b].baseKey == key && cfg.ruleBsds[b].baseMods == []
    ensures cfg.ruleBsds[b].onAlone == Some(AloneSetting(tap, 100))
    ensures TapOutput(cfg.ruleBsds[b], Current) == Alone(tap, Some(100))
  {
    cfg := new Config();
    var res := cfg.RuleBaseBy(key);
    assert res.Ok?;
    b := res.value;
    cfg.IfAlone(b, tap);
  }
}
