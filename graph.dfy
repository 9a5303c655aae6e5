/** The rule graph a user script builds: flat rules, base keys ("hyper" keys)
    with their maps and layers, and simple maps. A base key's layers, nested
    ones included, live in one flat list; a nested layer names its parent by
    its index in that list, and a parent always comes before its children.
    This module also holds the derived names: the base variable, the layer
    variables, the ancestor path of a layer, and the description getters. */
module Graph {
  import opened Common
  import opened Keys

  /** The target of `.to(...)`: one key, mouse button or shell string, or an array of them. */
  datatype Dest = One(value: string) | Many(values: seq<string>)

  /** `Array.isArray(dst) ? dst : [dst]` */
  function Dsts(d: Dest): (r: seq<string>)
    ensures d.One? ==> r == [d.value]
    ensures d.Many? ==> r == d.values
  {
    match d
    case One(v) => [v]
    case Many(vs) => vs
  }

  /** One `.to(dst, mods)` entry; an omitted `mods` is the empty list. */
  datatype KeyDefine = KeyDefine(dst: Dest, mods: seq<string>)

  /** The two keys `RuleKeyMapHoldInfo.setParam` accepts. */
  datatype HoldParam = DelayedActionMs | ThresholdMs

  /** Hold information recorded by `onHold`; the compiler never reads it. */
  datatype HoldInfo = HoldInfo(key: string, delayedActionMs: Option<int>, thresholdMs: Option<int>)

  /** A key map of any kind: of a flat rule, of a base key, of a layer.
      `separated` is only ever set on base-key and layer maps, `holdInfo` only on
      flat-rule maps of the current generation. */
  datatype KeyMap = KeyMap(
    key: string,
    mods: seq<string>,
    keys: seq<KeyDefine>,
    dsc: Option<string>,
    separated: bool,
    holdInfo: Option<HoldInfo>)

  datatype Layer = Layer(
    key: string,
    parent: Option<nat>,
    separated: bool,
    maps: seq<KeyMap>,
    dsc: Option<string>)

  /** The key+modifiers a combo-mode base key also emits (`mapTo`). */
  datatype Combo = Combo(key: string, mods: seq<string>)

  /** What `ifAlone(key, holdMs)` recorded. */
  datatype AloneSetting = AloneSetting(key: string, holdMs: int)

  /** A base key. `combo` is `Some` exactly when combo mode is on (both are set together by `mapTo`). */
  datatype RuleBased = RuleBased(
    baseKey: string,
    baseMods: seq<string>,
    maps: seq<KeyMap>,
    layers: seq<Layer>,
    combo: Option<Combo>,
    onAlone: Option<AloneSetting>,
    dsc: Option<string>)

  datatype Rule = Rule(dsc: Option<string>, maps: seq<KeyMap>)

  datatype SimpleKeyMap = SimpleKeyMap(key: string, mods: seq<string>, dst: Option<KeyDefine>)

  function NewMap(key: string, mods: seq<string>): KeyMap
  {
    KeyMap(key, mods, [], None, false, None)
  }

  function NewRuleBased(key: string, mods: seq<string>): RuleBased
  {
    RuleBased(key, mods, [], [], None, None, None)
  }

  /** Every nested layer names an earlier layer of the same list as its parent. */
  ghost predicate WellFormed(rb: RuleBased)
  {
    forall i :: 0 <= i < |rb.layers| ==> ParentBefore(rb.layers[i], i)
  }

  predicate ParentBefore(l: Layer, i: nat)
  {
    l.parent.Some? ==> l.parent.value < i
  }

  // ---------------------------------------------------------------- names

  /** The base variable: `var_<key>`, or `var_<key>_<mods joined by '_'>`. */
  function BaseVar(rb: RuleBased): (v: string)
    ensures "var_" + rb.baseKey <= v
    ensures |rb.baseMods| == 0 ==> v == "var_" + rb.baseKey
    ensures |rb.baseMods| > 0 ==> v == "var_" + rb.baseKey + "_" + Join(rb.baseMods, "_")
  {
    if |rb.baseMods| == 0 then "var_" + rb.baseKey
    else "var_" + rb.baseKey + "_" + Join(rb.baseMods, "_")
  }

  /** The prefix shared by the variables of every layer of a base key. */
  function LayerPrefix(rb: RuleBased): string
  {
    "lay_" + BaseVar(rb) + "_"
  }

  /** A layer's variable: `lay_<baseVar>_<key>` at the top, `<parent vName>_<key>` when nested. */
  function VName(rb: RuleBased, i: nat): string
    requires WellFormed(rb) && i < |rb.layers|
    decreases i
  {
    var l := rb.layers[i];
    if l.parent.None? then LayerPrefix(rb) + l.key
    else VName(rb, l.parent.value) + "_" + l.key
  }

  /** `getLayConds`: the variables from the root ancestor down to the layer itself. */
  function LayPath(rb: RuleBased, i: nat): seq<string>
    requires WellFormed(rb) && i < |rb.layers|
    decreases i
  {
    var l := rb.layers[i];
    (if l.parent.None? then [] else LayPath(rb, l.parent.value)) + [VName(rb, i)]
  }

  /** The ancestor path of the parent, or nothing for a top-level layer (the toggle's guard). */
  function ParentPath(rb: RuleBased, i: nat): seq<string>
    requires WellFormed(rb) && i < |rb.layers|
  {
    var l := rb.layers[i];
    if l.parent.None? then [] else LayPath(rb, l.parent.value)
  }

  /** `a` is `i` or one of its ancestors. */
  ghost predicate AncestorOrSelf(rb: RuleBased, a: nat, i: nat)
    requires WellFormed(rb) && i < |rb.layers|
    decreases i
  {
    a == i || (rb.layers[i].parent.Some? && AncestorOrSelf(rb, a, rb.layers[i].parent.value))
  }

  /** Every layer variable of a base key starts with `lay_<baseVar>_`. */
  lemma {:induction false} VNameHasLayerPrefix(rb: RuleBased, i: nat)
    requires WellFormed(rb) && i < |rb.layers|
    ensures LayerPrefix(rb) <= VName(rb, i)
    decreases i
  {
    var l := rb.layers[i];
    if l.parent.Some? {
      VNameHasLayerPrefix(rb, l.parent.value);
      assert VName(rb, i) == VName(rb, l.parent.value) + ("_" + l.key);
    }
  }

  /** The ancestor path runs from the root layer down to the layer itself: it ends with the
      layer's own variable, starts with a top-level layer's variable, and each entry followed
      by '_' begins the next one (a child's variable extends its parent's). */
  lemma {:induction false} LayPathShape(rb: RuleBased, i: nat)
    requires WellFormed(rb) && i < |rb.layers|
    ensures var p := LayPath(rb, i);
      && |p| > 0
      && p[|p| - 1] == VName(rb, i)
      && (exists t :: 0 <= t < |rb.layers| && rb.layers[t].parent.None? && p[0] == VName(rb, t))
      && (forall k :: 0 <= k < |p| - 1 ==> p[k] + "_" <= p[k + 1])
      && (forall k :: 0 <= k < |p| ==> LayerPrefix(rb) <= p[k])
    decreases i
  {
    var l := rb.layers[i];
    var p := LayPath(rb, i);
    VNameHasLayerPrefix(rb, i);
    if l.parent.None? {
      assert p == [VName(rb, i)];
    } else {
      var q := l.parent.value;
      LayPathShape(rb, q);
      var pq := LayPath(rb, q);
      assert p == pq + [VName(rb, i)];
      assert pq[|pq| - 1] + "_" <= VName(rb, i) by {
        assert VName(rb, i) == (VName(rb, q) + "_") + l.key;
      }
      assert p[0] == pq[0];
    }
  }

  /** Strictly longer names further down the path. */
  lemma {:induction false} LayPathLengths(rb: RuleBased, i: nat)
    requires WellFormed(rb) && i < |rb.layers|
    ensures forall a, b :: 0 <= a < b < |LayPath(rb, i)| ==> |LayPath(rb, i)[a]| < |LayPath(rb, i)[b]|
  {
    LayPathShape(rb, i);
    var p := LayPath(rb, i);
    forall a, b | 0 <= a < b < |p| ensures |p[a]| < |p[b]| {
      var k := a;
      while k < b
        invariant a <= k <= b
        invariant |p[a]| + (k - a) <= |p[k]|
      {
        assert p[k] + "_" <= p[k + 1];
        k := k + 1;
      }
    }
  }

  /** A layer's own variable is not among its ancestors' variables. */
  lemma VNameNotOnParentPath(rb: RuleBased, i: nat)
    requires WellFormed(rb) && i < |rb.layers|
    ensures VName(rb, i) !in ParentPath(rb, i)
  {
    LayPathLengths(rb, i);
    var path := LayPath(rb, i);
    var parents := ParentPath(rb, i);
    assert path == parents + [VName(rb, i)];
    forall p | 0 <= p < |parents| ensures parents[p] != VName(rb, i) {
      assert path[p] == parents[p];
      assert path[|path| - 1] == VName(rb, i);
      assert |path[p]| < |path[|path| - 1]|;
    }
  }

  /** Every ancestor's variable is on the layer's path (nested layers are guarded by all of them). */
  lemma {:induction false} AncestorOnPath(rb: RuleBased, a: nat, i: nat)
    requires WellFormed(rb) && i < |rb.layers|
    requires AncestorOrSelf(rb, a, i)
    ensures a < |rb.layers| && VName(rb, a) in LayPath(rb, i)
    decreases i
  {
    if a != i {
      AncestorOnPath(rb, a, rb.layers[i].parent.value);
    }
  }

  /** Two sibling layers with different trigger keys: neither sibling's variable is on the
      other's path, so each sibling's content is excluded while the other is active. */
  lemma SiblingOffPath(rb: RuleBased, i: nat, j: nat)
    requires WellFormed(rb) && i < |rb.layers| && j < |rb.layers|
    requires rb.layers[i].parent == rb.layers[j].parent
    requires rb.layers[i].key != rb.layers[j].key
    ensures VName(rb, j) !in LayPath(rb, i)
  {
    var p := LayPath(rb, i);
    var l := rb.layers[i];
    var head := if l.parent.None? then LayerPrefix(rb) else VName(rb, l.parent.value) + "_";
    assert VName(rb, i) == head + rb.layers[i].key;
    assert VName(rb, j) == head + rb.layers[j].key;
    LayPathLengths(rb, i);
    if l.parent.Some? {
      var pq := LayPath(rb, l.parent.value);
      LayPathLengths(rb, l.parent.value);
      LayPathShape(rb, l.parent.value);
      assert p == pq + [VName(rb, i)];
      forall k | 0 <= k < |p| - 1 ensures p[k] != VName(rb, j) {
        assert p[k] == pq[k];
        assert |pq[k]| <= |pq[|pq| - 1]|;
      }
    } else {
      assert p == [VName(rb, i)];
    }
    assert VName(rb, j) != VName(rb, i) by {
      assert VName(rb, j)[|head|..] == rb.layers[j].key;
      assert VName(rb, i)[|head|..] == rb.layers[i].key;
    }
  }

  // ---------------------------------------------------------------- descriptions

  /** `IMap.dscFul`: the description, or `IMap: <key>` when it is missing or empty. */
  function MapDscFul(m: KeyMap): string
  {
    if m.dsc.Some? && m.dsc.value != "" then m.dsc.value else "IMap: " + m.key
  }

  /** `BasedKeyMap.dscFull`: `<rule dsc> + [ <key> ] ： <dsc>`, an absent part rendering as "undefined". */
  function BasedMapDscFull(rb: RuleBased, m: KeyMap): string
  {
    Str(rb.dsc) + " + [ " + m.key + " ] \U{FF1A} " + Str(m.dsc)
  }

  /** `RuleBased.dscFul`. */
  function RuleBasedDscFul(rb: RuleBased): string
  {
    if rb.dsc.Some? && rb.dsc.value != "" then rb.dsc.value else "RuleBased: " + rb.baseKey
  }

  /** `Layer.dscFul`: the parent's (or the base key's) description, then this layer's. */
  function LayerDscFul(rb: RuleBased, i: nat): string
    requires WellFormed(rb) && i < |rb.layers|
    decreases i
  {
    var l := rb.layers[i];
    var parentDesc := if l.parent.None? then RuleBasedDscFul(rb) else LayerDscFul(rb, l.parent.value);
    parentDesc + " + [ " + l.key + " ] \U{FF1A} " + Str(l.dsc)
  }

  /** `Rule.dscFul`. */
  function RuleDscFul(ru: Rule): string
  {
    if ru.dsc.Some? && ru.dsc.value != "" then ru.dsc.value
    else "Rule: Non-Desc, Maps[ " + NatToString(|ru.maps|) + " ]"
  }
}
