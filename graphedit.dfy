/** What the builder methods of both generations do to the rule graph. A map is
    reached through its owner (a flat rule, a base key, or a layer of a base key)
    and its position there, where the source holds a reference to the map object.
    The registry invariant lives here too: every base key is registered in the
    global scope and every base-key map in its base variable's scope. */
module GraphEdit {
  import opened Common
  import opened Graph
  import opened Registry
  import opened Assembly

  /** Where a map lives. */
  datatype MapRef = InRule(r: nat, k: nat) | InBase(b: nat, k: nat) | InLayer(b: nat, i: nat, k: nat)

  predicate RefOk(rules: seq<Rule>, rbs: seq<RuleBased>, ref: MapRef)
  {
    match ref
    case InRule(r, k) => r < |rules| && k < |rules[r].maps|
    case InBase(b, k) => b < |rbs| && k < |rbs[b].maps|
    case InLayer(b, i, k) => b < |rbs| && i < |rbs[b].layers| && k < |rbs[b].layers[i].maps|
  }

  function MapAt(rules: seq<Rule>, rbs: seq<RuleBased>, ref: MapRef): KeyMap
    requires RefOk(rules, rbs, ref)
  {
    match ref
    case InRule(r, k) => rules[r].maps[k]
    case InBase(b, k) => rbs[b].maps[k]
    case InLayer(b, i, k) => rbs[b].layers[i].maps[k]
  }

  /** The flat rules after the map at `ref` is replaced by `m`. */
  function RulesWith(rules: seq<Rule>, ref: MapRef, m: KeyMap): seq<Rule>
    requires ref.InRule? ==> ref.r < |rules| && ref.k < |rules[ref.r].maps|
  {
    if ref.InRule? then rules[ref.r := rules[ref.r].(maps := rules[ref.r].maps[ref.k := m])] else rules
  }

  /** The base keys after the map at `ref` is replaced by `m`. */
  function BasedWith(rbs: seq<RuleBased>, ref: MapRef, m: KeyMap): seq<RuleBased>
    requires ref.InBase? ==> ref.b < |rbs| && ref.k < |rbs[ref.b].maps|
    requires ref.InLayer? ==> ref.b < |rbs| && ref.i < |rbs[ref.b].layers| && ref.k < |rbs[ref.b].layers[ref.i].maps|
  {
    match ref
    case InRule(_, _) => rbs
    case InBase(b, k) => rbs[b := rbs[b].(maps := rbs[b].maps[k := m])]
    case InLayer(b, i, k) =>
      var l := rbs[b].layers[i];
      rbs[b := rbs[b].(layers := rbs[b].layers[i := l.(maps := l.maps[k := m])])]
  }

  /** Replacing one map changes that map and nothing else: every other map is where it was, no
      owner gains or loses maps, and the layer tree, base keys and descriptions are untouched. */
  lemma ReplaceMapFrame(rules: seq<Rule>, rbs: seq<RuleBased>, ref: MapRef, m: KeyMap, other: MapRef)
    requires RefOk(rules, rbs, ref)
    ensures var rules', rbs' := RulesWith(rules, ref, m), BasedWith(rbs, ref, m);
      && |rules'| == |rules| && |rbs'| == |rbs|
      && RefOk(rules', rbs', ref) && MapAt(rules', rbs', ref) == m
      && (RefOk(rules, rbs, other) <==> RefOk(rules', rbs', other))
      && (RefOk(rules, rbs, other) && other != ref ==> MapAt(rules', rbs', other) == MapAt(rules, rbs, other))
  {
  }

  /** Replacing a map by one with the same key and modifiers keeps every base key's layer tree,
      keys and modifiers. */
  lemma ReplaceMapKeepsBases(rbs: seq<RuleBased>, ref: MapRef, m: KeyMap)
    requires ref.InBase? ==> ref.b < |rbs| && ref.k < |rbs[ref.b].maps|
    requires ref.InLayer? ==> ref.b < |rbs| && ref.i < |rbs[ref.b].layers| && ref.k < |rbs[ref.b].layers[ref.i].maps|
    requires ref.InBase? ==> m.key == rbs[ref.b].maps[ref.k].key && m.mods == rbs[ref.b].maps[ref.k].mods
    ensures |BasedWith(rbs, ref, m)| == |rbs|
    ensures forall b :: 0 <= b < |rbs| ==> SameBase(rbs[b], BasedWith(rbs, ref, m)[b])
  {
    var rbs' := BasedWith(rbs, ref, m);
    forall b | 0 <= b < |rbs| ensures SameBase(rbs[b], rbs'[b]) {
      var x, y := rbs[b], rbs'[b];
      if ref.InLayer? && b == ref.b {
        assert forall i :: 0 <= i < |x.layers| ==> y.layers[i].key == x.layers[i].key && y.layers[i].parent == x.layers[i].parent;
      } else if ref.InBase? && b == ref.b {
        assert forall k :: 0 <= k < |x.maps| && k != ref.k ==> y.maps[k] == x.maps[k];
      }
    }
  }

  /** Two versions of a base key that agree on everything but map contents. */
  predicate SameBase(x: RuleBased, y: RuleBased)
  {
    && x.baseKey == y.baseKey && x.baseMods == y.baseMods
    && |x.maps| == |y.maps|
    && (forall k :: 0 <= k < |x.maps| ==> x.maps[k].key == y.maps[k].key && x.maps[k].mods == y.maps[k].mods)
    && |x.layers| == |y.layers|
    && (forall i :: 0 <= i < |x.layers| ==> x.layers[i].key == y.layers[i].key && x.layers[i].parent == y.layers[i].parent)
  }

  // ---------------------------------------------------------------- the registry invariant

  /** The context a base-key map names when its key is a duplicate: `<dsc or RuleBased>.map(<key>)`. */
  function BaseMapCtx(rb: RuleBased, key: string): string
  {
    (if rb.dsc.Some? && rb.dsc.value != "" then rb.dsc.value else "RuleBased") + ".map(" + key + ")"
  }

  /** Every base key is registered in the global scope, every base-key map in the scope of its
      base variable. */
  ghost predicate Registered(s: Scopes, rbs: seq<RuleBased>)
  {
    forall b :: 0 <= b < |rbs| ==>
      && Holds(s, ScopeId([]), KeyId(rbs[b].baseKey, rbs[b].baseMods))
      && forall k :: 0 <= k < |rbs[b].maps| ==>
           Holds(s, ScopeId([BaseVar(rbs[b])]), KeyId(rbs[b].maps[k].key, rbs[b].maps[k].mods))
  }

  /** The invariant survives growth of the registry. */
  lemma RegisteredGrows(s: Scopes, t: Scopes, rbs: seq<RuleBased>)
    requires Registered(s, rbs) && Grows(s, t)
    ensures Registered(t, rbs)
  {
  }

  /** The invariant depends on base keys, modifiers and map keys only. */
  lemma RegisteredSameBases(s: Scopes, rbs: seq<RuleBased>, rbs': seq<RuleBased>)
    requires Registered(s, rbs)
    requires |rbs'| == |rbs| && forall b :: 0 <= b < |rbs| ==> SameBase(rbs[b], rbs'[b])
    ensures Registered(s, rbs')
  {
    forall b | 0 <= b < |rbs'|
      ensures BaseVar(rbs'[b]) == BaseVar(rbs[b])
    {
    }
  }

  /** Layer edits that keep parents before children keep the tree well formed. */
  lemma SameBasesWellFormed(rbs: seq<RuleBased>, rbs': seq<RuleBased>)
    requires AllWellFormed(rbs)
    requires |rbs'| == |rbs| && forall b :: 0 <= b < |rbs| ==> SameBase(rbs[b], rbs'[b])
    ensures AllWellFormed(rbs')
  {
    forall b, i | 0 <= b < |rbs'| && 0 <= i < |rbs'[b].layers|
      ensures ParentBefore(rbs'[b].layers[i], i)
    {
      assert ParentBefore(rbs[b].layers[i], i);
    }
  }
  /** Editing one base key without touching its keys, modifiers or layer tree keeps both the
      registry invariant and the parent-before-child order. */
  lemma EditOneBase(s: Scopes, rbs: seq<RuleBased>, b: nat, y: RuleBased)
    requires Registered(s, rbs) && b < |rbs| && SameBase(rbs[b], y)
    requires AllWellFormed(rbs)
    ensures Registered(s, rbs[b := y])
    ensures AllWellFormed(rbs[b := y])
  {
    var rbs' := rbs[b := y];
    assert forall r :: 0 <= r < |rbs| && r != b ==> rbs'[r] == rbs[r];
    RegisteredSameBases(s, rbs, rbs');
    SameBasesWellFormed(rbs, rbs');
  }

  /** A map whose key is registered in its base variable's scope may join that base key. */
  lemma AddBaseMap(s: Scopes, rbs: seq<RuleBased>, b: nat, m: KeyMap)
    requires Registered(s, rbs) && b < |rbs|
    requires Holds(s, ScopeId([BaseVar(rbs[b])]), KeyId(m.key, m.mods))
    ensures Registered(s, rbs[b := rbs[b].(maps := rbs[b].maps + [m])])
  {
    var rbs' := rbs[b := rbs[b].(maps := rbs[b].maps + [m])];
    assert BaseVar(rbs'[b]) == BaseVar(rbs[b]);
  }

  /** A base key registered in the global scope may join the list. */
  lemma AddBase(s: Scopes, rbs: seq<RuleBased>, key: string, mods: seq<string>)
    requires Registered(s, rbs)
    requires Holds(s, ScopeId([]), KeyId(key, mods))
    ensures Registered(s, rbs + [NewRuleBased(key, mods)])
  {
  }
}
