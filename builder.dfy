/** The builder of the older generation: the same builder surface without simple maps,
    devices, `ifAlone` and hold settings, and a `toJSON` that neither checks nor registers.
    As in the current generation, the objects it hands out are addressed by position. */
module Builder {
  import opened Common
  import opened Karabiner
  import opened Graph
  import opened Registry
  import opened Assembly
  import opened GraphEdit
  import opened Compile
  import opened Output

  /** The profile name when none is given. */
  const DefaultProfile := "Default"

  /** No base key records a tap setting. */
  ghost predicate NoTaps(rbs: seq<RuleBased>)
  {
    forall b :: 0 <= b < |rbs| ==> rbs[b].onAlone.None?
  }

  /** No base key records a (truthy) `ifAlone` key. */
  ghost predicate NoTapKeys(rbs: seq<RuleBased>)
  {
    forall b :: 0 <= b < |rbs| ==> rbs[b].onAlone.None? || rbs[b].onAlone.value.key == ""
  }

  /** Where the current generation accepts a graph, there are no simple maps or devices, and no
      base key records an `ifAlone` key, the two generations emit the same configuration. */
  lemma GenerationsAgree(s: Scopes, profName: string, show: bool, rules: seq<Rule>, rbs: seq<RuleBased>)
    requires AllWellFormed(rbs) && NoTapKeys(rbs)
    requires forall r :: 0 <= r < |rbs| ==> RolesDisjoint(rbs[r]) && NoSelfMap(rbs[r])
    ensures ConfigOutput(s, profName, show, rules, rbs, [], []).result == Ok(OlderOutput(profName, show, rules, rbs))
  {
    ConfigOutputSucceeds(s, profName, show, rules, rbs, [], []);
    SameOutputWithoutIfAlone(rbs, rules);
  }

  /** A graph with a key both mapped and triggering a layer, or a layer mapping its own key, is
      compiled by the older generation but refused by the current one, with the first failure. */
  lemma CurrentRefusesWhatOlderEmits(s: Scopes, profName: string, show: bool, rules: seq<Rule>, rbs: seq<RuleBased>, r: nat)
    requires AllWellFormed(rbs) && r < |rbs| && !(RolesDisjoint(rbs[r]) && NoSelfMap(rbs[r]))
    ensures ValidateBases(rbs).Fail?
    ensures ConfigOutput(s, profName, show, rules, rbs, [], []).result == Err(ValidateBases(rbs).msg)
  {
    ConfigOutputSucceeds(s, profName, show, rules, rbs, [], []);
    ValidateBasesSpec(rbs);
  }

  /** Everything the builder holds apart from its registry. */
  datatype State = State(
    profName: string,
    showInMenuBar: bool,
    rules: seq<Rule>,
    ruleBsds: seq<RuleBased>)

  class Config {
    var profName: string
    var showInMenuBar: bool
    var rules: seq<Rule>
    var ruleBsds: seq<RuleBased>
    const keyMap: KeyRegistry

    ghost function Snapshot(): State
      reads this
    {
      State(profName, showInMenuBar, rules, ruleBsds)
    }

    /** Layers name earlier layers as parents, every base key and base-key map is in the
        registry, and no base key has a tap setting (this generation cannot record one). */
    ghost predicate Valid()
      reads this, keyMap
    {
      AllWellFormed(ruleBsds) && Registered(keyMap.scopes, ruleBsds) && NoTaps(ruleBsds)
    }

    constructor (profName: string := DefaultProfile)
      ensures Valid() && fresh(keyMap)
      ensures Snapshot() == State(profName, false, [], []) && keyMap.scopes == map[]
    {
      this.profName := profName;
      showInMenuBar := false;
      rules := [];
      ruleBsds := [];
      keyMap := new KeyRegistry();
    }

    // ------------------------------------------------------------ Config

    /** `rule(desc)`: a new flat rule. */
    method NewRule(desc: string) returns (r: nat)
      requires Valid()
      modifies this
      ensures Valid()
      ensures r == |old(rules)|
      ensures Snapshot() == old(Snapshot()).(rules := old(rules) + [Rule(Some(desc), [])])
    {
      r := |rules|;
      rules := rules + [Rule(Some(desc), [])];
    }

    /** `ruleBaseBy(key, mods)`: refused when the key+modifiers is registered in any scope;
        otherwise registered globally and added as a new base key. */
    method RuleBaseBy(key: string, mods: seq<string> := []) returns (res: Result<nat>)
      requires Valid()
      modifies this, keyMap
      ensures Valid()
      ensures res.Err? <==> RegisteredAnywhere(old(keyMap.scopes), KeyId(key, mods))
      ensures res.Err? ==>
        res.msg == DupMessage(key, mods, None) && Snapshot() == old(Snapshot()) && keyMap.scopes == old(keyMap.scopes)
      ensures res.Ok? ==>
        && res.value == |old(ruleBsds)|
        && Snapshot() == old(Snapshot()).(ruleBsds := old(ruleBsds) + [NewRuleBased(key, mods)])
        && Check(Pass, keyMap.scopes) == ChkDup(old(keyMap.scopes), key, mods, [], Some("ruleBaseBy"))
    {
      var found := keyMap.AnyScopeHas(KeyId(key, mods));
      if found {
        return Err(DupMessage(key, mods, None));
      }
      ghost var s0 := keyMap.scopes;
      var st := keyMap.ChkDupKey(key, mods, [], Some("ruleBaseBy"));
      assert st == Pass;
      AddBase(keyMap.scopes, ruleBsds, key, mods) by {
        RegisteredGrows(s0, keyMap.scopes, ruleBsds);
      }
      res := Ok(|ruleBsds|);
      ruleBsds := ruleBsds + [NewRuleBased(key, mods)];
    }

    /** `toJSON()`: the compiled configuration; this generation never throws here. */
    method ToJSON() returns (cfg: KaraCfg)
      requires Valid()
      ensures cfg == OlderOutput(profName, showInMenuBar, rules, ruleBsds)
    {
      cfg := EmitOlder(profName, showInMenuBar, rules, ruleBsds);
    }

    // ------------------------------------------------------------ Rule

    /** `Rule.map(key, mods)`: a new map of a flat rule; flat-rule keys are not registered. */
    method RuleMap(r: nat, key: string, mods: seq<string> := []) returns (k: nat)
      requires Valid() && r < |rules|
      modifies this
      ensures Valid()
      ensures k == |old(rules)[r].maps|
      ensures Snapshot() == old(Snapshot()).(rules := old(rules)[r := old(rules)[r].(maps := old(rules)[r].maps + [NewMap(key, mods)])])
    {
      k := |rules[r].maps|;
      rules := rules[r := rules[r].(maps := rules[r].maps + [NewMap(key, mods)])];
    }

    /** `Rule.desc(d)`. */
    method DescRule(r: nat, d: string)
      requires Valid() && r < |rules|
      modifies this
      ensures Valid()
      ensures Snapshot() == old(Snapshot()).(rules := old(rules)[r := old(rules)[r].(dsc := Some(d))])
    {
      rules := rules[r := rules[r].(dsc := Some(d))];
    }

    // ------------------------------------------------------------ RuleBased

    /** Replaces base key `b` by a version that differs only in settings or map contents. */
    method SetBase(b: nat, y: RuleBased)
      requires Valid() && b < |ruleBsds| && SameBase(ruleBsds[b], y) && y.onAlone.None?
      modifies this
      ensures Valid()
      ensures Snapshot() == old(Snapshot()).(ruleBsds := old(ruleBsds)[b := y])
    {
      EditOneBase(keyMap.scopes, ruleBsds, b, y);
      ruleBsds := ruleBsds[b := y];
    }

    /** `RuleBased.map(key, mods)`: the key+modifiers is registered in the scope of the base
        variable, and a duplicate there is refused. */
    method BaseMap(b: nat, key: string, mods: seq<string> := []) returns (res: Result<nat>)
      requires Valid() && b < |ruleBsds|
      modifies this, keyMap
      ensures Valid()
      ensures var rb := old(ruleBsds)[b];
        var c := ChkDup(old(keyMap.scopes), key, mods, [BaseVar(rb)], Some(BaseMapCtx(rb, key)));
        && keyMap.scopes == c.scopes
        && (res.Err? <==> c.status.Fail?)
        && (res.Err? ==> res.msg == c.status.msg && Snapshot() == old(Snapshot()))
        && (res.Ok? ==>
              && res.value == |rb.maps|
              && Snapshot() == old(Snapshot()).(ruleBsds := old(ruleBsds)[b := rb.(maps := rb.maps + [NewMap(key, mods)])]))
    {
      var rb := ruleBsds[b];
      ghost var s0 := keyMap.scopes;
      var st := keyMap.ChkDupKey(key, mods, [BaseVar(rb)], Some(BaseMapCtx(rb, key)));
      if st.Fail? {
        return Err(st.msg);
      }
      RegisteredGrows(s0, keyMap.scopes, ruleBsds);
      AddBaseMap(keyMap.scopes, ruleBsds, b, NewMap(key, mods));
      assert AllWellFormed(ruleBsds[b := rb.(maps := rb.maps + [NewMap(key, mods)])]) by {
        assert WellFormed(rb);
      }
      res := Ok(|rb.maps|);
      ruleBsds := ruleBsds[b := rb.(maps := rb.maps + [NewMap(key, mods)])];
    }

    /** `RuleBased.layer(key)`: a new top-level layer. */
    method BaseLayer(b: nat, key: string) returns (i: nat)
      requires Valid() && b < |ruleBsds|
      modifies this
      ensures Valid()
      ensures i == |old(ruleBsds)[b].layers|
      ensures Snapshot() == old(Snapshot()).(ruleBsds := old(ruleBsds)[b := old(ruleBsds)[b].(layers :=
        old(ruleBsds)[b].layers + [Layer(key, None, false, [], None)])])
    {
      var rb := ruleBsds[b];
      i := |rb.layers|;
      AddLayer(b, Layer(key, None, false, [], None));
    }

    /** `Layer.layer(key)`: a sub-layer of layer `i`, appended to the base key's layer list. */
    method SubLayer(b: nat, i: nat, key: string) returns (j: nat)
      requires Valid() && b < |ruleBsds| && i < |ruleBsds[b].layers|
      modifies this
      ensures Valid()
      ensures j == |old(ruleBsds)[b].layers| && i < j
      ensures Snapshot() == old(Snapshot()).(ruleBsds := old(ruleBsds)[b := old(ruleBsds)[b].(layers :=
        old(ruleBsds)[b].layers + [Layer(key, Some(i), false, [], None)])])
    {
      var rb := ruleBsds[b];
      j := |rb.layers|;
      AddLayer(b, Layer(key, Some(i), false, [], None));
    }

    /** Appends a layer whose parent, if any, is already in the list. */
    method AddLayer(b: nat, l: Layer)
      requires Valid() && b < |ruleBsds| && ParentBefore(l, |ruleBsds[b].layers|)
      modifies this
      ensures Valid()
      ensures Snapshot() == old(Snapshot()).(ruleBsds := old(ruleBsds)[b := old(ruleBsds)[b].(layers := old(ruleBsds)[b].layers + [l])])
    {
      var rb := ruleBsds[b];
      var rb' := rb.(layers := rb.layers + [l]);
      assert WellFormed(rb') by {
        assert WellFormed(rb);
      }
      ruleBsds := ruleBsds[b := rb'];
      assert BaseVar(rb') == BaseVar(rb);
    }

    /** `RuleBased.mapTo(key, mods)`: switches combo mode on with this target. */
    method MapTo(b: nat, key: string, mods: seq<string>)
      requires Valid() && b < |ruleBsds|
      modifies this
      ensures Valid()
      ensures Snapshot() == old(Snapshot()).(ruleBsds := old(ruleBsds)[b := old(ruleBsds)[b].(combo := Some(Combo(key, mods)))])
    {
      SetBase(b, ruleBsds[b].(combo := Some(Combo(key, mods))));
    }

    /** `RuleBased.desc(d)`. */
    method DescBase(b: nat, d: string)
      requires Valid() && b < |ruleBsds|
      modifies this
      ensures Valid()
      ensures Snapshot() == old(Snapshot()).(ruleBsds := old(ruleBsds)[b := old(ruleBsds)[b].(dsc := Some(d))])
    {
      SetBase(b, ruleBsds[b].(dsc := Some(d)));
    }

    // ------------------------------------------------------------ Layer

    /** `Layer.map(key, mods)`: a new map of layer `i`; layer keys are not registered. */
    method LayerMap(b: nat, i: nat, key: string, mods: seq<string> := []) returns (k: nat)
      requires Valid() && b < |ruleBsds| && i < |ruleBsds[b].layers|
      modifies this
      ensures Valid()
      ensures k == |old(ruleBsds)[b].layers[i].maps|
      ensures var rb := old(ruleBsds)[b]; var l := rb.layers[i];
        Snapshot() == old(Snapshot()).(ruleBsds := old(ruleBsds)[b := rb.(layers := rb.layers[i := l.(maps := l.maps + [NewMap(key, mods)])])])
    {
      var rb := ruleBsds[b];
      var l := rb.layers[i];
      k := |l.maps|;
      SetLayer(b, i, l.(maps := l.maps + [NewMap(key, mods)]));
    }

    /** `Layer.separate()`. */
    method SeparateLayer(b: nat, i: nat)
      requires Valid() && b < |ruleBsds| && i < |ruleBsds[b].layers|
      modifies this
      ensures Valid()
      ensures var rb := old(ruleBsds)[b];
        Snapshot() == old(Snapshot()).(ruleBsds := old(ruleBsds)[b := rb.(layers := rb.layers[i := rb.layers[i].(separated := true)])])
    {
      SetLayer(b, i, ruleBsds[b].layers[i].(separated := true));
    }

    /** `Layer.desc(d)`. */
    method DescLayer(b: nat, i: nat, d: string)
      requires Valid() && b < |ruleBsds| && i < |ruleBsds[b].layers|
      modifies this
      ensures Valid()
      ensures var rb := old(ruleBsds)[b];
        Snapshot() == old(Snapshot()).(ruleBsds := old(ruleBsds)[b := rb.(layers := rb.layers[i := rb.layers[i].(dsc := Some(d))])])
    {
      SetLayer(b, i, ruleBsds[b].layers[i].(dsc := Some(d)));
    }

    /** Replaces layer `i` of base key `b` by a version with the same key and parent. */
    method SetLayer(b: nat, i: nat, l: Layer)
      requires Valid() && b < |ruleBsds| && i < |ruleBsds[b].layers|
      requires l.key == ruleBsds[b].layers[i].key && l.parent == ruleBsds[b].layers[i].parent
      modifies this
      ensures Valid()
      ensures Snapshot() == old(Snapshot()).(ruleBsds := old(ruleBsds)[b := old(ruleBsds)[b].(layers := old(ruleBsds)[b].layers[i := l])])
    {
      var rb := ruleBsds[b];
      SetBase(b, rb.(layers := rb.layers[i := l]));
    }

    // ------------------------------------------------------------ maps of every kind

    /** Replaces the map at `ref` by one with the same key and modifiers. */
    method SetMap(ref: MapRef, m: KeyMap)
      requires Valid() && RefOk(rules, ruleBsds, ref)
      requires m.key == MapAt(rules, ruleBsds, ref).key && m.mods == MapAt(rules, ruleBsds, ref).mods
      modifies this
      ensures Valid()
      ensures Snapshot() == old(Snapshot()).(rules := RulesWith(old(rules), ref, m), ruleBsds := BasedWith(old(ruleBsds), ref, m))
    {
      ReplaceMapKeepsBases(ruleBsds, ref, m);
      RegisteredSameBases(keyMap.scopes, ruleBsds, BasedWith(ruleBsds, ref, m));
      SameBasesWellFormed(ruleBsds, BasedWith(ruleBsds, ref, m));
      rules := RulesWith(rules, ref, m);
      ruleBsds := BasedWith(ruleBsds, ref, m);
    }

    /** `IMap.to(dst, mods)`: appends a target to the map. */
    method To(ref: MapRef, dst: Dest, mods: seq<string> := [])
      requires Valid() && RefOk(rules, ruleBsds, ref)
      modifies this
      ensures Valid()
      ensures var m := MapAt(old(rules), old(ruleBsds), ref).(keys := MapAt(old(rules), old(ruleBsds), ref).keys + [KeyDefine(dst, mods)]);
        Snapshot() == old(Snapshot()).(rules := RulesWith(old(rules), ref, m), ruleBsds := BasedWith(old(ruleBsds), ref, m))
    {
      var m := MapAt(rules, ruleBsds, ref);
      SetMap(ref, m.(keys := m.keys + [KeyDefine(dst, mods)]));
    }

    /** `IMap.desc(d)`. */
    method DescMap(ref: MapRef, d: string)
      requires Valid() && RefOk(rules, ruleBsds, ref)
      modifies this
      ensures Valid()
      ensures var m := MapAt(old(rules), old(ruleBsds), ref).(dsc := Some(d));
        Snapshot() == old(Snapshot()).(rules := RulesWith(old(rules), ref, m), ruleBsds := BasedWith(old(ruleBsds), ref, m))
    {
      SetMap(ref, MapAt(rules, ruleBsds, ref).(dsc := Some(d)));
    }

    /** `BasedKeyMap.separate()` and `LayerKeyMap.separate()`; flat-rule maps have no such method. */
    method Separate(ref: MapRef)
      requires Valid() && RefOk(rules, ruleBsds, ref) && !ref.InRule?
      modifies this
      ensures Valid()
      ensures var m := MapAt(old(rules), old(ruleBsds), ref).(separated := true);
        Snapshot() == old(Snapshot()).(ruleBsds := BasedWith(old(ruleBsds), ref, m))
    {
      SetMap(ref, MapAt(rules, ruleBsds, ref).(separated := true));
    }
  }
}
