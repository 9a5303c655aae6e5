/** The rules generated for one base key and for one flat rule, shared by both
    compiler generations: the trigger records, the layer toggles and layer
    content, the stand-alone rules of separated maps and separated layers,
    and the main rule that holds everything else. A base key is addressed by
    its index `r` in the list of all base keys, because layer content is
    guarded against the layers of every base key. */
module Assembly {
  import opened Common
  import opened Keys
  import opened Karabiner
  import opened Graph
  import opened Lowering

  ghost predicate AllWellFormed(rbs: seq<RuleBased>)
  {
    forall r :: 0 <= r < |rbs| ==> WellFormed(rbs[r])
  }

  // ---------------------------------------------------------------- names and filters

  /** `getLayConds`: walks from the layer up to its root, putting each variable in front. */
  method GetLayConds(rb: RuleBased, i: nat) returns (names: seq<string>)
    requires WellFormed(rb) && i < |rb.layers|
    ensures names == LayPath(rb, i)
  {
    names := [];
    var cur: Option<nat> := Some(i);
    while cur.Some?
      invariant cur.Some? ==> cur.value < |rb.layers|
      invariant (if cur.Some? then LayPath(rb, cur.value) else []) + names == LayPath(rb, i)
      decreases if cur.Some? then cur.value + 1 else 0
    {
      LayPathStep(rb, cur.value, names);
      names := [VName(rb, cur.value)] + names;
      cur := rb.layers[cur.value].parent;
    }
  }

  lemma LayPathStep(rb: RuleBased, c: nat, names: seq<string>)
    requires WellFormed(rb) && c < |rb.layers|
    ensures var up := rb.layers[c].parent;
      LayPath(rb, c) + names == (if up.None? then [] else LayPath(rb, up.value)) + ([VName(rb, c)] + names)
  {
    var up := rb.layers[c].parent;
    var above := if up.None? then [] else LayPath(rb, up.value);
    assert LayPath(rb, c) == above + [VName(rb, c)];
  }

  /** `ru.layers.map(l => l.vName)` */
  function LayerNames(rb: RuleBased, n: nat): (ns: seq<string>)
    requires WellFormed(rb) && n <= |rb.layers|
    ensures |ns| == n
    ensures forall j :: 0 <= j < n ==> ns[j] == VName(rb, j)
  {
    if n == 0 then [] else LayerNames(rb, n - 1) + [VName(rb, n - 1)]
  }

  /** `ruleBsds.flatMap(rb => rb.layers).map(l => l.vName)`: every layer variable of every base key. */
  function AllLayerNames(rbs: seq<RuleBased>): seq<string>
    requires AllWellFormed(rbs)
  {
    if |rbs| == 0 then []
    else
      var last := rbs[|rbs| - 1];
      AllLayerNames(rbs[..|rbs| - 1]) + LayerNames(last, |last.layers|)
  }

  /** Every layer variable of every base key is in the list of all layer variables. */
  lemma {:induction false} InAllLayerNames(rbs: seq<RuleBased>, r: nat, j: nat)
    requires AllWellFormed(rbs) && r < |rbs| && j < |rbs[r].layers|
    ensures VName(rbs[r], j) in AllLayerNames(rbs)
  {
    var init, last := rbs[..|rbs| - 1], rbs[|rbs| - 1];
    assert AllLayerNames(rbs) == AllLayerNames(init) + LayerNames(last, |last.layers|);
    if r < |rbs| - 1 {
      assert init[r] == rbs[r];
      InAllLayerNames(init, r, j);
    } else {
      assert LayerNames(last, |last.layers|)[j] == VName(rbs[r], j);
    }
  }

  /** The list of all layer variables holds nothing but layer variables. */
  lemma {:induction false} AllLayerNamesAreLayers(rbs: seq<RuleBased>, name: string)
    requires AllWellFormed(rbs)
    requires name in AllLayerNames(rbs)
    ensures exists r, j :: 0 <= r < |rbs| && 0 <= j < |rbs[r].layers| && name == VName(rbs[r], j)
  {
    var init, last := rbs[..|rbs| - 1], rbs[|rbs| - 1];
    var own := LayerNames(last, |last.layers|);
    assert AllLayerNames(rbs) == AllLayerNames(init) + own;
    if name in own {
      var j :| 0 <= j < |own| && own[j] == name;
      assert name == VName(rbs[|rbs| - 1], j);
    } else {
      AllLayerNamesAreLayers(init, name);
      var r, j :| 0 <= r < |init| && 0 <= j < |init[r].layers| && name == VName(init[r], j);
      assert init[r] == rbs[r];
    }
  }

  /** `names.filter(n => !path.includes(n))`, keeping the order. */
  function Without(names: seq<string>, path: seq<string>): (out: seq<string>)
    ensures |out| <= |names|
    ensures forall n :: n in out <==> n in names && n !in path
  {
    if |names| == 0 then []
    else
      var init, last := names[..|names| - 1], names[|names| - 1];
      assert names == init + [last];
      Without(init, path) + (if last in path then [] else [last])
  }

  /** The variables a record of layer `i` of base key `r` requires to be 0: every layer
      variable of every base key that is not on the layer's ancestor path. */
  function Exclusions(rbs: seq<RuleBased>, r: nat, i: nat): seq<string>
    requires AllWellFormed(rbs) && r < |rbs| && i < |rbs[r].layers|
  {
    Without(AllLayerNames(rbs), LayPath(rbs[r], i))
  }

  /** `maps.filter(m => m.separated == sep)` */
  function Select(maps: seq<KeyMap>, sep: bool): (out: seq<KeyMap>)
    ensures |out| <= |maps|
    ensures forall k :: 0 <= k < |out| ==> out[k].separated == sep
    ensures forall m :: m in out <==> m in maps && m.separated == sep
  {
    if |maps| == 0 then []
    else
      var init, last := maps[..|maps| - 1], maps[|maps| - 1];
      assert maps == init + [last];
      Select(init, sep) + (if last.separated == sep then [last] else [])
  }

  /** The entries a list of maps hands to `procKeyMaps`, each with its own description
      and the given layer path. */
  function ItemsOf(maps: seq<KeyMap>, path: seq<string>): (items: seq<KeyMapItem>)
    ensures |items| == |maps|
    ensures forall k :: 0 <= k < |maps| ==>
      items[k] == KeyMapItem(maps[k].key, maps[k].mods, maps[k].keys, MapDscFul(maps[k]), path)
  {
    if |maps| == 0 then []
    else ItemsOf(maps[..|maps| - 1], path) + [ItemOf(maps[|maps| - 1], path)]
  }

  function ItemOf(m: KeyMap, path: seq<string>): KeyMapItem
  {
    KeyMapItem(m.key, m.mods, m.keys, MapDscFul(m), path)
  }

  /** The entries of separated base-key maps, described by `BasedKeyMap.dscFull`. */
  function BasedItems(rb: RuleBased, maps: seq<KeyMap>): (items: seq<KeyMapItem>)
    ensures |items| == |maps|
    ensures forall k :: 0 <= k < |maps| ==> items[k].layPath == []
  {
    if |maps| == 0 then []
    else
      var m := maps[|maps| - 1];
      BasedItems(rb, maps[..|maps| - 1]) + [KeyMapItem(m.key, m.mods, m.keys, BasedMapDscFull(rb, m), [])]
  }

  // ---------------------------------------------------------------- trigger

  /** The trigger's `from`: the base modifiers as mandatory, or any modifier when there are none. */
  function TriggerFrom(rb: RuleBased): FromEvent
  {
    FromEvent(rb.baseKey, Some(if |rb.baseMods| > 0 then Mandatory(rb.baseMods) else Optional([ModAny])))
  }

  /** The trigger's conditions: 0 for every layer of the base key, absent when it has none. */
  function TriggerConds(rb: RuleBased): Option<seq<Condition>>
    requires WellFormed(rb)
  {
    if |rb.layers| > 0 then Some(MkConds(None, [], LayerNames(rb, |rb.layers|))) else None
  }

  /** `procTrigMrs` given the tap output: the record that sets the base variable while the base
      key is held, and in combo mode a second one that also sends the combo key. */
  function TriggerRecords(rb: RuleBased, alone: Alone): seq<Manipulator>
    requires WellFormed(rb)
  {
    if rb.combo.None? then [SetterRecord(rb, alone)] else [SetterRecord(rb, alone), ComboRecord(rb, alone)]
  }

  /** The record that holds the base variable at 1 while the base key is down. */
  function SetterRecord(rb: RuleBased, alone: Alone): Manipulator
    requires WellFormed(rb)
  {
    var v := BaseVar(rb);
    Manipulator(rb.baseKey + " -> Set " + v + " variable", TriggerFrom(rb),
      [SetVariable(v, 1)], Some([SetVariable(v, 0)]), Some([alone]), TriggerConds(rb))
  }

  /** The combo-mode record: as the setter, and also sends the combo key with its modifiers. */
  function ComboRecord(rb: RuleBased, alone: Alone): Manipulator
    requires WellFormed(rb) && rb.combo.Some?
  {
    var v := BaseVar(rb);
    var c := rb.combo.value;
    Manipulator(rb.baseKey + " -> " + c.key + " + mods", TriggerFrom(rb),
      [SetVariable(v, 1), KeyCode(c.key, Some(c.mods))], Some([SetVariable(v, 0)]), Some([alone]), TriggerConds(rb))
  }

  /** `name` is the variable of some layer of `rb`. */
  ghost predicate IsLayerVar(rb: RuleBased, name: string)
    requires WellFormed(rb)
  {
    exists j :: 0 <= j < |rb.layers| && name == VName(rb, j)
  }

  /** The trigger is disabled exactly while some layer of its own base key is active: its only
      conditions are a 0-condition for each of those layers. */
  lemma TriggerCondsExactlyLayers(rb: RuleBased)
    requires WellFormed(rb)
    ensures TriggerConds(rb).Some? <==> |rb.layers| > 0
    ensures TriggerConds(rb).Some? ==>
      forall c :: c in TriggerConds(rb).value <==> c.value == 0 && IsLayerVar(rb, c.name)
  {
    var names := LayerNames(rb, |rb.layers|);
    var cs := MkConds(None, [], names);
    forall c | c in cs ensures c.value == 0 && IsLayerVar(rb, c.name) {
      assert c.name in names;
      var j :| 0 <= j < |names| && names[j] == c.name;
      assert c.name == VName(rb, j);
    }
    forall c: Condition | c.value == 0 && IsLayerVar(rb, c.name) ensures c in cs {
      var j :| 0 <= j < |rb.layers| && c.name == VName(rb, j);
      assert names[j] == c.name;
    }
    assert |rb.layers| > 0 ==> TriggerConds(rb) == Some(cs);
  }

  /** Every trigger record fires on the base key (with the base modifiers mandatory, or any
      modifier when there are none), holds the base variable at 1 while the key is down and resets
      it on release, sends the tap output when the key is pressed alone, and carries the trigger
      conditions. The first record sends nothing else; in combo mode the second also sends the
      combo key and its modifiers. */
  lemma TriggerShape(rb: RuleBased, alone: Alone)
    requires WellFormed(rb)
    ensures var mrs, v := TriggerRecords(rb, alone), BaseVar(rb);
      && |mrs| == (if rb.combo.Some? then 2 else 1)
      && (forall k :: 0 <= k < |mrs| ==>
            && mrs[k].from.keyCode == rb.baseKey
            && (|rb.baseMods| > 0 ==> mrs[k].from.modifiers == Some(Mandatory(rb.baseMods)))
            && (|rb.baseMods| == 0 ==> mrs[k].from.modifiers == Some(Optional([ModAny])))
            && |mrs[k].to| > 0 && mrs[k].to[0] == SetVariable(v, 1)
            && mrs[k].toAfterKeyUp == Some([SetVariable(v, 0)])
            && mrs[k].toIfAlone == Some([alone])
            && mrs[k].conditions == TriggerConds(rb))
      && mrs[0].to == [SetVariable(v, 1)]
      && (rb.combo.Some? ==> mrs[1].to == [SetVariable(v, 1), KeyCode(rb.combo.value.key, Some(rb.combo.value.mods))])
  {
    var mrs, v := TriggerRecords(rb, alone), BaseVar(rb);
    TriggerRecordShape(rb, alone, 0);
    forall k | 0 <= k < |mrs|
      ensures && mrs[k].from.keyCode == rb.baseKey
              && (|rb.baseMods| > 0 ==> mrs[k].from.modifiers == Some(Mandatory(rb.baseMods)))
              && (|rb.baseMods| == 0 ==> mrs[k].from.modifiers == Some(Optional([ModAny])))
              && |mrs[k].to| > 0 && mrs[k].to[0] == SetVariable(v, 1)
              && mrs[k].toAfterKeyUp == Some([SetVariable(v, 0)])
              && mrs[k].toIfAlone == Some([alone])
              && mrs[k].conditions == TriggerConds(rb)
    {
      TriggerRecordShape(rb, alone, k);
    }
  }

  lemma TriggerRecordShape(rb: RuleBased, alone: Alone, k: nat)
    requires WellFormed(rb) && k < |TriggerRecords(rb, alone)|
    ensures var m, v := TriggerRecords(rb, alone)[k], BaseVar(rb);
      && m.from.keyCode == rb.baseKey
      && (|rb.baseMods| > 0 ==> m.from.modifiers == Some(Mandatory(rb.baseMods)))
      && (|rb.baseMods| == 0 ==> m.from.modifiers == Some(Optional([ModAny])))
      && (k == 0 ==> m.to == [SetVariable(v, 1)])
      && |m.to| > 0 && m.to[0] == SetVariable(v, 1)
      && m.toAfterKeyUp == Some([SetVariable(v, 0)])
      && m.toIfAlone == Some([alone])
      && m.conditions == TriggerConds(rb)
  {
    if k == 0 {
      assert TriggerRecords(rb, alone)[k] == SetterRecord(rb, alone);
    } else {
      assert TriggerRecords(rb, alone)[k] == ComboRecord(rb, alone);
    }
  }

  // ---------------------------------------------------------------- layers

  /** The toggle record of layer `i`: while the base key and every ancestor are held, holding the
      layer key sets the layer variable; releasing it clears the variable. */
  function LayerToggle(rb: RuleBased, i: nat): Manipulator
    requires WellFormed(rb) && i < |rb.layers|
  {
    var l := rb.layers[i];
    Manipulator("Toggle layer " + l.key, FromEvent(l.key, Some(Optional([ModAny]))),
      [SetVariable(VName(rb, i), 1)], Some([SetVariable(VName(rb, i), 0)]), None,
      Some(MkConds(Some(BaseVar(rb)), ParentPath(rb, i), [])))
  }

  /** `procLayerMr`: the toggle, then the layer's content. */
  function LayerRecords(rbs: seq<RuleBased>, r: nat, i: nat): seq<Manipulator>
    requires AllWellFormed(rbs) && r < |rbs| && i < |rbs[r].layers|
  {
    [LayerToggle(rbs[r], i)] + LayerContent(rbs, r, i)
  }

  /** The records of the layer's non-separated maps, guarded by the base variable, the whole
      ancestor path, and 0 for every other layer of every base key. */
  function LayerContent(rbs: seq<RuleBased>, r: nat, i: nat): seq<Manipulator>
    requires AllWellFormed(rbs) && r < |rbs| && i < |rbs[r].layers|
  {
    var rb := rbs[r];
    KeyMapRecords(ItemsOf(Select(rb.layers[i].maps, false), LayPath(rb, i)), Some(BaseVar(rb)), Exclusions(rbs, r, i))
  }

  /** The conditions every content record of layer `i` carries. */
  function ContentConds(rbs: seq<RuleBased>, r: nat, i: nat): seq<Condition>
    requires AllWellFormed(rbs) && r < |rbs| && i < |rbs[r].layers|
  {
    MkConds(Some(BaseVar(rbs[r])), LayPath(rbs[r], i), Exclusions(rbs, r, i))
  }

  /** The toggle of a layer sets the layer variable while the layer key is held and clears it on
      release; it is guarded by the base variable and exactly the variables of the ancestors. */
  lemma LayerToggleShape(rb: RuleBased, i: nat)
    requires WellFormed(rb) && i < |rb.layers|
    ensures var mr := LayerToggle(rb, i);
      && mr.to == [SetVariable(VName(rb, i), 1)]
      && mr.toAfterKeyUp == Some([SetVariable(VName(rb, i), 0)])
      && mr.conditions.Some?
      && forall c :: c in mr.conditions.value <==>
           c == VariableIf(BaseVar(rb), 1) || (c.value == 1 && c.name in ParentPath(rb, i))
  {
    assert Truthy(Some(BaseVar(rb)));
  }

  /** A layer's content holds one plain record per destination of its non-separated maps, each
      carrying the layer's content conditions. */
  lemma LayerContentShape(rbs: seq<RuleBased>, r: nat, i: nat)
    requires AllWellFormed(rbs) && r < |rbs| && i < |rbs[r].layers|
    ensures var mrs, rb := LayerContent(rbs, r, i), rbs[r];
      && |mrs| == ItemDstCount(ItemsOf(Select(rb.layers[i].maps, false), LayPath(rb, i)))
      && forall k :: 0 <= k < |mrs| ==> OneEvent(mrs[k], Some(ContentConds(rbs, r, i)))
  {
    var rb := rbs[r];
    var items := ItemsOf(Select(rb.layers[i].maps, false), LayPath(rb, i));
    KeyMapRecordsShape(items, Some(BaseVar(rb)), Exclusions(rbs, r, i), LayPath(rb, i));
    assert Truthy(Some(BaseVar(rb)));
  }

  /** A content record of a layer pins every layer variable of the whole configuration: the
      variables on the layer's ancestor path must be 1, every other one must be 0. So content of
      a layer fires only in that exact layer context. */
  lemma LayerContentPinsEveryLayer(rbs: seq<RuleBased>, r: nat, i: nat, s: nat, j: nat)
    requires AllWellFormed(rbs) && r < |rbs| && i < |rbs[r].layers|
    requires s < |rbs| && j < |rbs[s].layers|
    ensures var cs, n := ContentConds(rbs, r, i), VName(rbs[s], j);
      && VariableIf(BaseVar(rbs[r]), 1) in cs
      && (n in LayPath(rbs[r], i) ==> VariableIf(n, 1) in cs)
      && (n !in LayPath(rbs[r], i) ==> VariableIf(n, 0) in cs)
  {
    InAllLayerNames(rbs, s, j);
    assert Truthy(Some(BaseVar(rbs[r])));
  }

  /** Sibling layers (same parent, different keys) exclude each other: content of one carries
      the other's variable at 0. */
  lemma SiblingContentExcluded(rbs: seq<RuleBased>, r: nat, i: nat, j: nat)
    requires AllWellFormed(rbs) && r < |rbs| && i < |rbs[r].layers| && j < |rbs[r].layers|
    requires rbs[r].layers[i].parent == rbs[r].layers[j].parent
    requires rbs[r].layers[i].key != rbs[r].layers[j].key
    ensures VariableIf(VName(rbs[r], j), 0) in ContentConds(rbs, r, i)
  {
    SiblingOffPath(rbs[r], i, j);
    LayerContentPinsEveryLayer(rbs, r, i, r, j);
  }

  /** Content of a nested layer requires every ancestor layer to be active. */
  lemma NestedContentGuarded(rbs: seq<RuleBased>, r: nat, a: nat, i: nat)
    requires AllWellFormed(rbs) && r < |rbs| && i < |rbs[r].layers|
    requires AncestorOrSelf(rbs[r], a, i)
    ensures a < |rbs[r].layers| && VariableIf(VName(rbs[r], a), 1) in ContentConds(rbs, r, i)
  {
    AncestorOnPath(rbs[r], a, i);
  }

  // ---------------------------------------------------------------- separated maps and layers

  /** One rule per record, described like its record. */
  function AsRules(mrs: seq<Manipulator>): (rus: seq<KaraRule>)
    ensures |rus| == |mrs|
    ensures forall k :: 0 <= k < |mrs| ==> rus[k] == KaraRule(Plain(mrs[k].description), [mrs[k]])
  {
    if |mrs| == 0 then []
    else AsRules(mrs[..|mrs| - 1]) + [KaraRule(Plain(mrs[|mrs| - 1].description), [mrs[|mrs| - 1]])]
  }

  /** The loop that wraps each record into a rule of its own. */
  method OneRulePerRecord(mrs: seq<Manipulator>) returns (rus: seq<KaraRule>)
    ensures rus == AsRules(mrs)
  {
    rus := [];
    for k := 0 to |mrs|
      invariant rus == AsRules(mrs[..k])
    {
      rus := rus + [KaraRule(Plain(mrs[k].description), [mrs[k]])];
      assert mrs[..k + 1][..k] == mrs[..k];
    }
    assert mrs[..|mrs|] == mrs;
  }

  /** `proSepMaps`: one stand-alone rule per destination of each separated base-key map. */
  function SepMapRules(rb: RuleBased): seq<KaraRule>
  {
    AsRules(KeyMapRecords(BasedItems(rb, Select(rb.maps, true)), Some(BaseVar(rb)), []))
  }

  /** Each separated base-key rule holds one plain record guarded by the base variable alone. */
  lemma SepMapRulesShape(rb: RuleBased)
    ensures var rus := SepMapRules(rb);
      forall k :: 0 <= k < |rus| ==>
        && |rus[k].manipulators| == 1
        && rus[k].description == Plain(rus[k].manipulators[0].description)
        && OneEvent(rus[k].manipulators[0], Some([VariableIf(BaseVar(rb), 1)]))
  {
    var items := BasedItems(rb, Select(rb.maps, true));
    KeyMapRecordsShape(items, Some(BaseVar(rb)), [], []);
    assert MkConds(Some(BaseVar(rb)), [], []) == [VariableIf(BaseVar(rb), 1)];
  }

  method ProSepMaps(rb: RuleBased) returns (rus: seq<KaraRule>)
    ensures rus == SepMapRules(rb)
  {
    var mrs := ProcKeyMaps(BasedItems(rb, Select(rb.maps, true)), Some(BaseVar(rb)), []);
    rus := OneRulePerRecord(mrs);
  }

  /** The rules of separated layer `i`: one rule with the toggle and the non-separated content,
      then one stand-alone rule per destination of each separated map of the layer. */
  function SepLayerRule(rbs: seq<RuleBased>, r: nat, i: nat): seq<KaraRule>
    requires AllWellFormed(rbs) && r < |rbs| && i < |rbs[r].layers|
  {
    var rb := rbs[r];
    var l := rb.layers[i];
    var dsc := LayerDscFul(rb, i);
    [KaraRule(if |Select(l.maps, false)| > 0 then Decorated(dsc) else Plain(dsc), LayerRecords(rbs, r, i))]
      + AsRules(KeyMapRecords(ItemsOf(Select(l.maps, true), LayPath(rb, i)), None, Exclusions(rbs, r, i)))
  }

  /** `procSepLayers` over the first `n` layers. */
  function SepLayerRules(rbs: seq<RuleBased>, r: nat, n: nat): seq<KaraRule>
    requires AllWellFormed(rbs) && r < |rbs| && n <= |rbs[r].layers|
  {
    if n == 0 then []
    else SepLayerRules(rbs, r, n - 1) + (if rbs[r].layers[n - 1].separated then SepLayerRule(rbs, r, n - 1) else [])
  }

  /** The stand-alone rules of a separated layer's separated maps are guarded by the layer path
      and the exclusions but not by the base variable: no condition requires a `var_` variable. */
  lemma SepLayerMapsUnguarded(rbs: seq<RuleBased>, r: nat, i: nat)
    requires AllWellFormed(rbs) && r < |rbs| && i < |rbs[r].layers|
    ensures var rb := rbs[r];
      var mrs := KeyMapRecords(ItemsOf(Select(rb.layers[i].maps, true), LayPath(rb, i)), None, Exclusions(rbs, r, i));
      forall k :: 0 <= k < |mrs| ==>
        && OneEvent(mrs[k], Some(MkConds(None, LayPath(rb, i), Exclusions(rbs, r, i))))
        && forall c :: c in mrs[k].conditions.value ==> !(c.value == 1 && "var_" <= c.name)
  {
    var rb := rbs[r];
    var path := LayPath(rb, i);
    KeyMapRecordsShape(ItemsOf(Select(rb.layers[i].maps, true), path), None, Exclusions(rbs, r, i), path);
    LayPathShape(rb, i);
    forall n | n in path ensures !("var_" <= n) {
      assert "lay_" <= n;
    }
  }

  // ---------------------------------------------------------------- the rules of a base key

  /** The records of the main rule of base key `r`, after the trigger records `trig`: the
      non-separated base-key maps, then each non-separated layer's records (layers `< n`). */
  function NonSepLayerRecords(rbs: seq<RuleBased>, r: nat, n: nat): seq<Manipulator>
    requires AllWellFormed(rbs) && r < |rbs| && n <= |rbs[r].layers|
  {
    if n == 0 then []
    else NonSepLayerRecords(rbs, r, n - 1) + (if rbs[r].layers[n - 1].separated then [] else LayerRecords(rbs, r, n - 1))
  }

  function MainRecords(rbs: seq<RuleBased>, r: nat, trig: seq<Manipulator>): seq<Manipulator>
    requires AllWellFormed(rbs) && r < |rbs|
  {
    var rb := rbs[r];
    trig
      + KeyMapRecords(ItemsOf(Select(rb.maps, false), []), Some(BaseVar(rb)), [])
      + NonSepLayerRecords(rbs, r, |rb.layers|)
  }

  /** The main rule's description: the combo summary in combo mode, otherwise `dscFul`. */
  function MainDesc(rb: RuleBased): RuleDesc
  {
    if rb.combo.Some? then Decorated(Str(rb.dsc)) else Plain(RuleBasedDscFul(rb))
  }

  /** What one iteration of the base-key loop of `toConfig` appends: the main rule, then the
      separated base-key map rules, then the separated layer rules. */
  function BasedRules(rbs: seq<RuleBased>, r: nat, trig: seq<Manipulator>): seq<KaraRule>
    requires AllWellFormed(rbs) && r < |rbs|
  {
    [KaraRule(MainDesc(rbs[r]), MainRecords(rbs, r, trig))]
      + SepMapRules(rbs[r])
      + SepLayerRules(rbs, r, |rbs[r].layers|)
  }

  /** The rule of a flat rule: every map, no conditions. */
  function FlatRule(ru: Rule): KaraRule
  {
    var dsc := RuleDscFul(ru);
    KaraRule(if |ru.maps| > 1 then Decorated(dsc) else Plain(dsc), KeyMapRecords(ItemsOf(ru.maps, []), None, []))
  }

  /** The flat-rule loop of `toConfig`. */
  function FlatRules(rules: seq<Rule>): (rus: seq<KaraRule>)
    ensures |rus| == |rules|
  {
    if |rules| == 0 then [] else FlatRules(rules[..|rules| - 1]) + [FlatRule(rules[|rules| - 1])]
  }

  /** A flat rule has one unconditional plain record per destination of its maps. */
  lemma FlatRuleUnconditioned(ru: Rule)
    ensures |FlatRule(ru).manipulators| == ItemDstCount(ItemsOf(ru.maps, []))
    ensures forall k :: 0 <= k < |FlatRule(ru).manipulators| ==> OneEvent(FlatRule(ru).manipulators[k], None)
  {
    KeyMapRecordsShape(ItemsOf(ru.maps, []), None, [], []);
    assert MkConds(None, [], []) == [];
  }
}
