/** The top level of `toConfig`: the current generation registers the keys of the simple
    maps, checks the rule graph, then assembles the profile around the compiled rules, its
    devices and its `simple_modifications`; the older generation only assembles. */
module Output {
  import opened Common
  import opened Keys
  import opened Karabiner
  import opened Graph
  import opened Registry
  import opened Assembly
  import opened Compile

  // ---------------------------------------------------------------- registering simple maps

  /** The context `toConfig` names when a simple map's key is a duplicate. */
  function SimpleCtx(key: string): string
  {
    "Config.map(" + key + ")"
  }

  function SimpleId(sm: SimpleKeyMap): string
  {
    KeyId(sm.key, sm.mods)
  }

  /** The opening loop of `toConfig`: every simple map with a target is registered in the
      global scope, in order, and the first duplicate throws. */
  function RegisterSimples(s: Scopes, sims: seq<SimpleKeyMap>): Check
  {
    if |sims| == 0 then Check(Pass, s)
    else
      var prev := RegisterSimples(s, sims[..|sims| - 1]);
      var sm := sims[|sims| - 1];
      if prev.status.Fail? || sm.dst.None? then prev
      else ChkDup(prev.scopes, sm.key, sm.mods, [], Some(SimpleCtx(sm.key)))
  }

  /** Simple map `j` has a target and its key+modifiers was already registered globally, or
      belongs to an earlier simple map with a target. */
  ghost predicate Clashes(s: Scopes, sims: seq<SimpleKeyMap>, j: nat)
    requires j < |sims|
  {
    && sims[j].dst.Some?
    && (|| Holds(s, "", SimpleId(sims[j]))
        || exists i :: 0 <= i < j && sims[i].dst.Some? && SimpleId(sims[i]) == SimpleId(sims[j]))
  }

  /** Registration only ever adds, and only to the global scope; when it passes, the global
      scope has gained exactly the keys of the simple maps with a target. */
  lemma RegisterSimplesScopes(s: Scopes, sims: seq<SimpleKeyMap>)
    ensures Grows(s, RegisterSimples(s, sims).scopes)
    ensures forall sc :: sc in RegisterSimples(s, sims).scopes && sc != "" ==>
      sc in s && RegisterSimples(s, sims).scopes[sc] == s[sc]
    ensures RegisterSimples(s, sims).status.Pass? ==>
      forall sk :: Holds(RegisterSimples(s, sims).scopes, "", sk) <==>
        Holds(s, "", sk) || exists j :: 0 <= j < |sims| && sims[j].dst.Some? && sk == SimpleId(sims[j])
  {
    RegisterSimplesFrame(s, sims);
    RegisterSimplesGlobal(s, sims);
  }

  lemma {:induction false} RegisterSimplesFrame(s: Scopes, sims: seq<SimpleKeyMap>)
    ensures Grows(s, RegisterSimples(s, sims).scopes)
    ensures forall sc :: sc in RegisterSimples(s, sims).scopes && sc != "" ==>
      sc in s && RegisterSimples(s, sims).scopes[sc] == s[sc]
  {
    if |sims| > 0 {
      var n := |sims|;
      var prev := RegisterSimples(s, sims[..n - 1]);
      var sm := sims[n - 1];
      RegisterSimplesFrame(s, sims[..n - 1]);
      if prev.status.Pass? && sm.dst.Some? {
        assert ScopeId([]) == "";
        assert RegisterSimples(s, sims) == ChkDup(prev.scopes, sm.key, sm.mods, [], Some(SimpleCtx(sm.key)));
      }
    }
  }

  lemma {:induction false} RegisterSimplesGlobal(s: Scopes, sims: seq<SimpleKeyMap>)
    ensures RegisterSimples(s, sims).status.Pass? ==>
      forall sk :: Holds(RegisterSimples(s, sims).scopes, "", sk) <==>
        Holds(s, "", sk) || exists j :: 0 <= j < |sims| && sims[j].dst.Some? && sk == SimpleId(sims[j])
  {
    if |sims| > 0 {
      var n := |sims|;
      var init := sims[..n - 1];
      var prev := RegisterSimples(s, init);
      var sm := sims[n - 1];
      var c := RegisterSimples(s, sims);
      RegisterSimplesGlobal(s, init);
      if c.status.Pass? {
        assert prev.status.Pass?;
        if sm.dst.Some? {
          assert ScopeId([]) == "";
          assert c == ChkDup(prev.scopes, sm.key, sm.mods, [], Some(SimpleCtx(sm.key)));
        }
        forall sk ensures Holds(c.scopes, "", sk) <==>
          Holds(s, "", sk) || exists j :: 0 <= j < n && sims[j].dst.Some? && sk == SimpleId(sims[j])
        {
          if Holds(c.scopes, "", sk) && !Holds(s, "", sk) && !(sm.dst.Some? && sk == SimpleId(sm)) {
            assert Holds(prev.scopes, "", sk);
            var j :| 0 <= j < n - 1 && init[j].dst.Some? && sk == SimpleId(init[j]);
            assert sims[j].dst.Some? && sk == SimpleId(sims[j]);
          }
          if !Holds(s, "", sk) && exists j :: 0 <= j < n && sims[j].dst.Some? && sk == SimpleId(sims[j]) {
            var j :| 0 <= j < n && sims[j].dst.Some? && sk == SimpleId(sims[j]);
            if j < n - 1 {
              assert init[j].dst.Some? && sk == SimpleId(init[j]);
              assert Holds(prev.scopes, "", sk);
            }
          }
        }
      }
    }
  }

  /** Registration fails exactly when some simple map clashes, with the message of the first
      one that does. */
  lemma {:induction false} RegisterSimplesSpec(s: Scopes, sims: seq<SimpleKeyMap>)
    ensures RegisterSimples(s, sims).status.Pass? <==> forall j :: 0 <= j < |sims| ==> !Clashes(s, sims, j)
    ensures RegisterSimples(s, sims).status.Fail? ==>
      exists j :: 0 <= j < |sims| && Clashes(s, sims, j) && (forall i :: 0 <= i < j ==> !Clashes(s, sims, i))
        && RegisterSimples(s, sims).status.msg == DupMessage(sims[j].key, sims[j].mods, Some(SimpleCtx(sims[j].key)))
  {
    if |sims| == 0 {
      return;
    }
    var n := |sims|;
    var init := sims[..n - 1];
    var prev := RegisterSimples(s, init);
    var c := RegisterSimples(s, sims);
    var sm := sims[n - 1];
    RegisterSimplesSpec(s, init);
    forall j | 0 <= j < n - 1 ensures Clashes(s, init, j) <==> Clashes(s, sims, j) {
      ClashesInPrefix(s, sims, n - 1, j);
    }
    if prev.status.Fail? {
      assert c == prev;
      var j :| 0 <= j < n - 1 && Clashes(s, init, j) && (forall i :: 0 <= i < j ==> !Clashes(s, init, i))
        && prev.status.msg == DupMessage(init[j].key, init[j].mods, Some(SimpleCtx(init[j].key)));
      assert init[j] == sims[j];
      assert Clashes(s, sims, j) && forall i :: 0 <= i < j ==> !Clashes(s, sims, i);
    } else if sm.dst.None? {
      assert c == prev;
      assert !Clashes(s, sims, n - 1);
    } else {
      assert ScopeId([]) == "";
      assert c == ChkDup(prev.scopes, sm.key, sm.mods, [], Some(SimpleCtx(sm.key)));
      LastClashes(s, sims);
      assert forall i :: 0 <= i < n - 1 ==> !Clashes(s, sims, i);
    }
  }

  /** Whether a simple map clashes depends only on the maps before it. */
  lemma ClashesInPrefix(s: Scopes, sims: seq<SimpleKeyMap>, n: nat, j: nat)
    requires j < n <= |sims|
    ensures Clashes(s, sims[..n], j) <==> Clashes(s, sims, j)
  {
    assert forall i :: 0 <= i < n ==> sims[..n][i] == sims[i];
  }

  /** After a passing prefix, the last simple map clashes exactly when its key is already in the
      global scope. */
  lemma LastClashes(s: Scopes, sims: seq<SimpleKeyMap>)
    requires |sims| > 0 && sims[|sims| - 1].dst.Some?
    requires RegisterSimples(s, sims[..|sims| - 1]).status.Pass?
    ensures Holds(RegisterSimples(s, sims[..|sims| - 1]).scopes, "", SimpleId(sims[|sims| - 1]))
        <==> Clashes(s, sims, |sims| - 1)
  {
    var n := |sims|;
    var init := sims[..n - 1];
    var prev := RegisterSimples(s, init);
    var sk := SimpleId(sims[n - 1]);
    RegisterSimplesScopes(s, init);
    if Holds(prev.scopes, "", sk) && !Holds(s, "", sk) {
      var j :| 0 <= j < n - 1 && init[j].dst.Some? && sk == SimpleId(init[j]);
      assert sims[j].dst.Some? && SimpleId(sims[j]) == sk;
    }
    if Clashes(s, sims, n - 1) && !Holds(s, "", sk) {
      var i :| 0 <= i < n - 1 && sims[i].dst.Some? && SimpleId(sims[i]) == sk;
      assert init[i].dst.Some? && sk == SimpleId(init[i]);
    }
  }

  /** Once registration has failed on a prefix, the rest of the list is never looked at. */
  lemma {:induction false} RegisterSimplesFailSticks(s: Scopes, sims: seq<SimpleKeyMap>, n: nat)
    requires n <= |sims| && RegisterSimples(s, sims[..n]).status.Fail?
    ensures RegisterSimples(s, sims) == RegisterSimples(s, sims[..n])
    decreases |sims| - n
  {
    if n < |sims| {
      assert sims[..n + 1][..n] == sims[..n];
      RegisterSimplesFailSticks(s, sims, n + 1);
    } else {
      assert sims[..n] == sims;
    }
  }

  /** The registration loop, on the live registry. */
  method RegisterSimplesIn(reg: KeyRegistry, sims: seq<SimpleKeyMap>) returns (st: Status)
    modifies reg
    ensures Check(st, reg.scopes) == RegisterSimples(old(reg.scopes), sims)
  {
    ghost var s0 := reg.scopes;
    st := Pass;
    for j := 0 to |sims|
      invariant st == Pass && Check(Pass, reg.scopes) == RegisterSimples(s0, sims[..j])
    {
      assert sims[..j + 1][..j] == sims[..j];
      var sm := sims[j];
      if sm.dst.Some? {
        st := reg.ChkDupKey(sm.key, sm.mods, [], Some(SimpleCtx(sm.key)));
        if st.Fail? {
          RegisterSimplesFailSticks(s0, sims, j + 1);
          return;
        }
      }
    }
    assert sims[..|sims|] == sims;
  }

  // ---------------------------------------------------------------- checking the rule graph

  /** The keys that trigger a layer of the base key. */
  function LayerKeys(rb: RuleBased): set<string>
  {
    set i | 0 <= i < |rb.layers| :: rb.layers[i].key
  }

  /** The first of the first `n` maps of the base key whose key also triggers one of its layers. */
  function FirstMappedTrigger(rb: RuleBased, n: nat): (o: Option<nat>)
    requires n <= |rb.maps|
    ensures o.Some? ==> o.value < n && rb.maps[o.value].key in LayerKeys(rb)
    ensures forall k :: 0 <= k < (if o.Some? then o.value else n) ==> rb.maps[k].key !in LayerKeys(rb)
  {
    if n == 0 then None
    else
      var p := FirstMappedTrigger(rb, n - 1);
      if p.Some? then p
      else if rb.maps[n - 1].key in LayerKeys(rb) then Some(n - 1)
      else None
  }

  function RoleMessage(rb: RuleBased, key: string): string
  {
    "Key conflict in rule \"" + RuleBasedDscFul(rb) + "\": key \"" + key
    + "\" cannot be both mapped and used as layer trigger"
  }

  /** A key may not be both mapped by the base key and trigger one of its layers. */
  function RoleCheck(rb: RuleBased): Status
  {
    var o := FirstMappedTrigger(rb, |rb.maps|);
    if o.Some? then Fail(RoleMessage(rb, rb.maps[o.value].key)) else Pass
  }

  predicate MapsKey(maps: seq<KeyMap>, key: string)
  {
    exists k :: 0 <= k < |maps| && maps[k].key == key
  }

  /** The first of the first `n` layers that maps its own trigger key. */
  function FirstSelfMapped(rb: RuleBased, n: nat): (o: Option<nat>)
    requires n <= |rb.layers|
    ensures o.Some? ==> o.value < n && MapsKey(rb.layers[o.value].maps, rb.layers[o.value].key)
    ensures forall i :: 0 <= i < (if o.Some? then o.value else n) ==> !MapsKey(rb.layers[i].maps, rb.layers[i].key)
  {
    if n == 0 then None
    else
      var p := FirstSelfMapped(rb, n - 1);
      if p.Some? then p
      else if MapsKey(rb.layers[n - 1].maps, rb.layers[n - 1].key) then Some(n - 1)
      else None
  }

  function SelfMapMessage(rb: RuleBased, i: nat): string
    requires WellFormed(rb) && i < |rb.layers|
  {
    "Invalid mapping in layer \"" + LayerDscFul(rb, i) + "\": cannot map key \"" + rb.layers[i].key
    + "\" within the same layer that is triggered by this key"
  }

  /** A layer may not map the key that triggers it. */
  function SelfMapCheck(rb: RuleBased): Status
    requires WellFormed(rb)
  {
    var o := FirstSelfMapped(rb, |rb.layers|);
    if o.Some? then Fail(SelfMapMessage(rb, o.value)) else Pass
  }

  /** Both checks of one base key, the role check first. */
  function CheckBase(rb: RuleBased): Status
    requires WellFormed(rb)
  {
    if RoleCheck(rb).Fail? then RoleCheck(rb) else SelfMapCheck(rb)
  }

  /** The status of every base key. */
  function BaseChecks(rbs: seq<RuleBased>): (sts: seq<Status>)
    requires AllWellFormed(rbs)
    ensures |sts| == |rbs|
    ensures forall r :: 0 <= r < |rbs| ==> sts[r] == CheckBase(rbs[r])
  {
    if |rbs| == 0 then [] else BaseChecks(rbs[..|rbs| - 1]) + [CheckBase(rbs[|rbs| - 1])]
  }

  /** The first failure of a sequence of checks, or `Pass`. */
  function FirstFailure(sts: seq<Status>): Status
  {
    if |sts| == 0 then Pass
    else
      var prev := FirstFailure(sts[..|sts| - 1]);
      if prev.Fail? then prev else sts[|sts| - 1]
  }

  lemma {:induction false} FirstFailureSpec(sts: seq<Status>)
    ensures FirstFailure(sts).Pass? <==> forall r :: 0 <= r < |sts| ==> sts[r].Pass?
    ensures FirstFailure(sts).Fail? ==>
      exists r :: 0 <= r < |sts| && FirstFailure(sts) == sts[r] && forall q :: 0 <= q < r ==> sts[q].Pass?
  {
    if |sts| > 0 {
      var init := sts[..|sts| - 1];
      FirstFailureSpec(init);
      assert forall r :: 0 <= r < |init| ==> init[r] == sts[r];
    }
  }

  /** Once a check has failed, later checks are never looked at. */
  lemma {:induction false} FirstFailureSticks(sts: seq<Status>, n: nat)
    requires n <= |sts| && FirstFailure(sts[..n]).Fail?
    ensures FirstFailure(sts) == FirstFailure(sts[..n])
    decreases |sts| - n
  {
    if n < |sts| {
      assert sts[..n + 1][..n] == sts[..n];
      FirstFailureSticks(sts, n + 1);
    } else {
      assert sts[..n] == sts;
    }
  }

  /** The graph checks of `toConfig`, base key by base key, stopping at the first failure. */
  function ValidateBases(rbs: seq<RuleBased>): Status
    requires AllWellFormed(rbs)
  {
    FirstFailure(BaseChecks(rbs))
  }

  /** No key is both mapped by the base key and a trigger of one of its layers. */
  ghost predicate RolesDisjoint(rb: RuleBased)
  {
    forall k, i :: 0 <= k < |rb.maps| && 0 <= i < |rb.layers| ==> rb.maps[k].key != rb.layers[i].key
  }

  /** No layer maps its own trigger key. */
  ghost predicate NoSelfMap(rb: RuleBased)
  {
    forall i, k :: 0 <= i < |rb.layers| && 0 <= k < |rb.layers[i].maps| ==> rb.layers[i].maps[k].key != rb.layers[i].key
  }

  /** The role check passes exactly when no map key triggers a layer; otherwise it names the
      first map whose key does. */
  lemma RoleCheckSpec(rb: RuleBased)
    ensures RoleCheck(rb).Pass? <==> RolesDisjoint(rb)
    ensures !RolesDisjoint(rb) ==>
      && FirstMappedTrigger(rb, |rb.maps|).Some?
      && RoleCheck(rb) == Fail(RoleMessage(rb, rb.maps[FirstMappedTrigger(rb, |rb.maps|).value].key))
  {
    if !RolesDisjoint(rb) {
      var k, i :| 0 <= k < |rb.maps| && 0 <= i < |rb.layers| && rb.maps[k].key == rb.layers[i].key;
      assert rb.maps[k].key in LayerKeys(rb);
    } else {
      forall k | 0 <= k < |rb.maps| ensures rb.maps[k].key !in LayerKeys(rb) {
      }
    }
  }

  /** The self-map check passes exactly when no layer maps its own key; otherwise it names the
      first layer that does. */
  lemma SelfMapCheckSpec(rb: RuleBased)
    requires WellFormed(rb)
    ensures SelfMapCheck(rb).Pass? <==> NoSelfMap(rb)
    ensures !NoSelfMap(rb) ==>
      && FirstSelfMapped(rb, |rb.layers|).Some?
      && SelfMapCheck(rb) == Fail(SelfMapMessage(rb, FirstSelfMapped(rb, |rb.layers|).value))
  {
    if !NoSelfMap(rb) {
      var i, k :| 0 <= i < |rb.layers| && 0 <= k < |rb.layers[i].maps| && rb.layers[i].maps[k].key == rb.layers[i].key;
      assert MapsKey(rb.layers[i].maps, rb.layers[i].key);
    } else {
      forall i | 0 <= i < |rb.layers| ensures !MapsKey(rb.layers[i].maps, rb.layers[i].key) {
      }
    }
  }

  /** One base key passes exactly when both properties hold. A failure names the first map
      whose key triggers a layer, or, when there is none, the first layer that maps its own key
      (which map and which layer come first is what the two searches' contracts state). */
  lemma CheckBaseSpec(rb: RuleBased)
    requires WellFormed(rb)
    ensures CheckBase(rb).Pass? <==> RolesDisjoint(rb) && NoSelfMap(rb)
    ensures !RolesDisjoint(rb) ==>
      && FirstMappedTrigger(rb, |rb.maps|).Some?
      && CheckBase(rb) == Fail(RoleMessage(rb, rb.maps[FirstMappedTrigger(rb, |rb.maps|).value].key))
    ensures RolesDisjoint(rb) && !NoSelfMap(rb) ==>
      && FirstSelfMapped(rb, |rb.layers|).Some?
      && CheckBase(rb) == Fail(SelfMapMessage(rb, FirstSelfMapped(rb, |rb.layers|).value))
  {
    RoleCheckSpec(rb);
    SelfMapCheckSpec(rb);
  }

  /** The graph check passes exactly when every base key has both properties; a failure is the
      failure of the first base key that lacks one. */
  lemma ValidateBasesSpec(rbs: seq<RuleBased>)
    requires AllWellFormed(rbs)
    ensures ValidateBases(rbs).Pass? <==> forall r :: 0 <= r < |rbs| ==> RolesDisjoint(rbs[r]) && NoSelfMap(rbs[r])
    ensures ValidateBases(rbs).Fail? ==>
      exists r :: 0 <= r < |rbs| && ValidateBases(rbs) == CheckBase(rbs[r]) && forall q :: 0 <= q < r ==> CheckBase(rbs[q]).Pass?
  {
    var sts := BaseChecks(rbs);
    FirstFailureSpec(sts);
    forall r | 0 <= r < |rbs| ensures sts[r].Pass? <==> RolesDisjoint(rbs[r]) && NoSelfMap(rbs[r]) {
      CheckBaseSpec(rbs[r]);
    }
  }

  /** `new Set(rub.layers.map(l => l.key))` */
  method CollectLayerKeys(rb: RuleBased) returns (lays: set<string>)
    ensures lays == LayerKeys(rb)
  {
    lays := {};
    for i := 0 to |rb.layers|
      invariant lays == set j | 0 <= j < i :: rb.layers[j].key
    {
      lays := lays + {rb.layers[i].key};
    }
  }

  /** The role check over the base key's map keys. */
  method CheckRoles(rb: RuleBased) returns (st: Status)
    ensures st == RoleCheck(rb)
  {
    var lays := CollectLayerKeys(rb);
    for k := 0 to |rb.maps|
      invariant forall q :: 0 <= q < k ==> rb.maps[q].key !in lays
    {
      if rb.maps[k].key in lays {
        st := Fail(RoleMessage(rb, rb.maps[k].key));
        return;
      }
    }
    st := Pass;
  }

  /** Whether a layer's maps include its own trigger key. */
  method LayerMapsOwnKey(maps: seq<KeyMap>, key: string) returns (found: bool)
    ensures found <==> MapsKey(maps, key)
  {
    for k := 0 to |maps|
      invariant forall q :: 0 <= q < k ==> maps[q].key != key
    {
      if maps[k].key == key {
        return true;
      }
    }
    return false;
  }

  /** The self-map check over the base key's layers. */
  method CheckSelfMaps(rb: RuleBased) returns (st: Status)
    requires WellFormed(rb)
    ensures st == SelfMapCheck(rb)
  {
    for i := 0 to |rb.layers|
      invariant forall q :: 0 <= q < i ==> !MapsKey(rb.layers[q].maps, rb.layers[q].key)
    {
      var found := LayerMapsOwnKey(rb.layers[i].maps, rb.layers[i].key);
      if found {
        st := Fail(SelfMapMessage(rb, i));
        return;
      }
    }
    st := Pass;
  }

  /** The validation loop of `toConfig`, base key by base key. */
  method ValidateAll(rbs: seq<RuleBased>) returns (st: Status)
    requires AllWellFormed(rbs)
    ensures st == ValidateBases(rbs)
  {
    ghost var sts := BaseChecks(rbs);
    for r := 0 to |rbs|
      invariant FirstFailure(sts[..r]) == Pass
    {
      assert sts[..r + 1][..r] == sts[..r];
      st := CheckRoles(rbs[r]);
      if st.Pass? {
        st := CheckSelfMaps(rbs[r]);
      }
      if st.Fail? {
        FirstFailureSticks(sts, r + 1);
        return;
      }
    }
    assert sts[..|rbs|] == sts;
    st := Pass;
  }

  // ---------------------------------------------------------------- simple_modifications

  /** The `simple_modifications` entry of one simple map, or `None` when it is skipped: it has no
      target, or its target is one name that is not a key code. */
  function SimpleModOf(sm: SimpleKeyMap): (o: Option<SimpleMod>)
    ensures o.Some? <==> sm.dst.Some? && (sm.dst.value.dst.Many? || IsKey(sm.dst.value.dst.value))
    ensures o.Some? ==> o.value.from.keyCode == sm.key && (o.value.to.KeyCode? || o.value.to.KeyCodeList?)
    ensures o.Some? && o.value.to.KeyCode? ==> IsKey(o.value.to.keyCode)
    ensures o.Some? && sm.dst.value.dst.One? ==> o.value.to.KeyCode? && o.value.to.keyCode == sm.dst.value.dst.value
    ensures o.Some? && sm.dst.value.dst.Many? ==> o.value.to.KeyCodeList? && o.value.to.keyCodes == sm.dst.value.dst.values
    ensures o.Some? ==> (o.value.to.modifiers.Some? <==> |sm.dst.value.mods| > 0)
    ensures o.Some? && o.value.to.modifiers.Some? ==> o.value.to.modifiers.value == sm.dst.value.mods
    ensures o.Some? ==> o.value.from.modifiers == (if |sm.mods| > 0 then Some(Mandatory(sm.mods)) else None)
  {
    if sm.dst.None? then None
    else
      var d := sm.dst.value;
      if d.dst.One? && !IsKey(d.dst.value) then None
      else
        var from := FromEvent(sm.key, if |sm.mods| > 0 then Some(Mandatory(sm.mods)) else None);
        var mods := if |d.mods| > 0 then Some(d.mods) else None;
        Some(SimpleMod(from, if d.dst.One? then KeyCode(d.dst.value, mods) else KeyCodeList(d.dst.values, mods)))
  }

  /** `procSimpleMods`: the entries of the simple maps that are not skipped, in order. */
  function SimpleMods(sims: seq<SimpleKeyMap>): (out: seq<SimpleMod>)
    ensures |out| <= |sims|
  {
    if |sims| == 0 then []
    else
      var o := SimpleModOf(sims[|sims| - 1]);
      SimpleMods(sims[..|sims| - 1]) + (if o.Some? then [o.value] else [])
  }

  /** An entry is in the list exactly when some simple map produces it. */
  lemma {:induction false} SimpleModsMembers(sims: seq<SimpleKeyMap>)
    ensures forall e :: e in SimpleMods(sims) <==> exists j :: 0 <= j < |sims| && SimpleModOf(sims[j]) == Some(e)
  {
    if |sims| > 0 {
      var init := sims[..|sims| - 1];
      SimpleModsMembers(init);
      assert forall j :: 0 <= j < |init| ==> init[j] == sims[j];
      forall e | exists j :: 0 <= j < |sims| && SimpleModOf(sims[j]) == Some(e)
        ensures e in SimpleMods(sims)
      {
        var j :| 0 <= j < |sims| && SimpleModOf(sims[j]) == Some(e);
        if j < |init| {
          assert SimpleModOf(init[j]) == Some(e);
        }
      }
    }
  }

  method ProcSimpleMods(sims: seq<SimpleKeyMap>) returns (smods: seq<SimpleMod>)
    ensures smods == SimpleMods(sims)
  {
    smods := [];
    for j := 0 to |sims|
      invariant smods == SimpleMods(sims[..j])
    {
      assert sims[..j + 1][..j] == sims[..j];
      var o := SimpleModOf(sims[j]);
      if o.Some? {
        smods := smods + [o.value];
      }
    }
    assert sims[..|sims|] == sims;
  }

  // ---------------------------------------------------------------- the profile

  /** The one profile: the device list and `simple_modifications` appear only when non-empty. */
  function MakeProfile(name: string, devices: seq<Device>, smods: seq<SimpleMod>, rules: seq<KaraRule>): Profile
  {
    Profile(name,
      if |devices| > 0 then Some(devices) else None,
      if |smods| > 0 then Some(smods) else None,
      rules, "ansi")
  }

  /** What `toConfig` returns (or throws), and the registry it leaves behind. */
  datatype Outcome = Outcome(result: Result<KaraCfg>, scopes: Scopes)

  /** The current generation's `toConfig` as a function of the builder's state. */
  function ConfigOutput(s: Scopes, profName: string, show: bool, rules: seq<Rule>, rbs: seq<RuleBased>,
                        sims: seq<SimpleKeyMap>, devices: seq<Device>): Outcome
    requires AllWellFormed(rbs)
  {
    var reg := RegisterSimples(s, sims);
    if reg.status.Fail? then Outcome(Err(reg.status.msg), reg.scopes)
    else
      var v := ValidateBases(rbs);
      if v.Fail? then Outcome(Err(v.msg), reg.scopes)
      else
        var profile := MakeProfile(profName, devices, SimpleMods(sims), CompiledRules(rbs, rules, Current));
        Outcome(Ok(KaraCfg(show, [profile])), reg.scopes)
  }

  /** The older generation's `toConfig`: no checks, no devices, no simple maps. */
  function OlderOutput(profName: string, show: bool, rules: seq<Rule>, rbs: seq<RuleBased>): (cfg: KaraCfg)
    requires AllWellFormed(rbs)
    ensures cfg.showInMenuBar == show && |cfg.profiles| == 1
    ensures cfg.profiles[0].name == profName && cfg.profiles[0].keyboardTypeV2 == "ansi"
    ensures cfg.profiles[0].devices.None? && cfg.profiles[0].simpleModifications.None?
    ensures cfg.profiles[0].rules == CompiledRules(rbs, rules, Older)
  {
    KaraCfg(show, [Profile(profName, None, None, CompiledRules(rbs, rules, Older), "ansi")])
  }

  method EmitConfig(reg: KeyRegistry, profName: string, show: bool, rules: seq<Rule>, rbs: seq<RuleBased>,
                    sims: seq<SimpleKeyMap>, devices: seq<Device>) returns (res: Result<KaraCfg>)
    requires AllWellFormed(rbs)
    modifies reg
    ensures Outcome(res, reg.scopes) == ConfigOutput(old(reg.scopes), profName, show, rules, rbs, sims, devices)
  {
    var st := RegisterSimplesIn(reg, sims);
    if st.Fail? {
      return Err(st.msg);
    }
    st := ValidateAll(rbs);
    if st.Fail? {
      return Err(st.msg);
    }
    var rus := BuildRules(rbs, rules, Current);
    var smods := ProcSimpleMods(sims);
    res := Ok(KaraCfg(show, [MakeProfile(profName, devices, smods, rus)]));
  }

  method EmitOlder(profName: string, show: bool, rules: seq<Rule>, rbs: seq<RuleBased>) returns (cfg: KaraCfg)
    requires AllWellFormed(rbs)
    ensures cfg == OlderOutput(profName, show, rules, rbs)
  {
    var rus := BuildRules(rbs, rules, Older);
    cfg := KaraCfg(show, [Profile(profName, None, None, rus, "ansi")]);
  }

  // ---------------------------------------------------------------- properties

  /** `toConfig` succeeds exactly when no simple map clashes and the graph passes both checks. */
  lemma ConfigOutputSucceeds(s: Scopes, profName: string, show: bool, rules: seq<Rule>, rbs: seq<RuleBased>,
                             sims: seq<SimpleKeyMap>, devices: seq<Device>)
    requires AllWellFormed(rbs)
    ensures ConfigOutput(s, profName, show, rules, rbs, sims, devices).result.Ok? <==>
      && (forall j :: 0 <= j < |sims| ==> !Clashes(s, sims, j))
      && (forall r :: 0 <= r < |rbs| ==> RolesDisjoint(rbs[r]) && NoSelfMap(rbs[r]))
  {
    RegisterSimplesSpec(s, sims);
    ValidateBasesSpec(rbs);
  }

  /** On success the one profile carries the builder's profile name, the compiled rules and the
      `ansi` keyboard type; the devices exactly when there are any, and `simple_modifications`,
      holding the entries of the simple maps in order, only when some simple map produces an
      entry. */
  lemma ConfigOutputProfile(s: Scopes, profName: string, show: bool, rules: seq<Rule>, rbs: seq<RuleBased>,
                            sims: seq<SimpleKeyMap>, devices: seq<Device>)
    requires AllWellFormed(rbs)
    requires ConfigOutput(s, profName, show, rules, rbs, sims, devices).result.Ok?
    ensures var cfg := ConfigOutput(s, profName, show, rules, rbs, sims, devices).result.value;
      && cfg.showInMenuBar == show && |cfg.profiles| == 1
      && cfg.profiles[0].name == profName
      && cfg.profiles[0].keyboardTypeV2 == "ansi"
      && cfg.profiles[0].rules == CompiledRules(rbs, rules, Current)
      && (cfg.profiles[0].devices.Some? <==> |devices| > 0)
      && (|devices| > 0 ==> cfg.profiles[0].devices == Some(devices))
      && (cfg.profiles[0].simpleModifications.Some? <==> exists j :: 0 <= j < |sims| && SimpleModOf(sims[j]).Some?)
      && (cfg.profiles[0].simpleModifications.Some? ==> cfg.profiles[0].simpleModifications.value == SimpleMods(sims))
  {
    var smods := SimpleMods(sims);
    SimpleModsMembers(sims);
    if |smods| > 0 {
      assert smods[0] in smods;
    }
    forall j | 0 <= j < |sims| && SimpleModOf(sims[j]).Some? ensures SimpleModOf(sims[j]).value in smods {
    }
  }

  /** A second `toConfig` on the same builder throws as soon as there is a simple map with a
      target: the first call registered it. The message names the first such map. */
  lemma SecondOutputFails(s: Scopes, profName: string, show: bool, rules: seq<Rule>, rbs: seq<RuleBased>,
                          sims: seq<SimpleKeyMap>, devices: seq<Device>, j: nat)
    requires AllWellFormed(rbs)
    requires ConfigOutput(s, profName, show, rules, rbs, sims, devices).result.Ok?
    requires j < |sims| && sims[j].dst.Some? && forall i :: 0 <= i < j ==> sims[i].dst.None?
    ensures var again := ConfigOutput(ConfigOutput(s, profName, show, rules, rbs, sims, devices).scopes,
                                      profName, show, rules, rbs, sims, devices);
      again.result == Err(DupMessage(sims[j].key, sims[j].mods, Some(SimpleCtx(sims[j].key))))
  {
    var t := RegisterSimples(s, sims).scopes;
    RegisterSimplesScopes(s, sims);
    RegisterSimplesSpec(t, sims);
    assert Holds(t, "", SimpleId(sims[j]));
    assert Clashes(t, sims, j);
    assert RegisterSimples(t, sims).status.Fail?;
    var w :| 0 <= w < |sims| && Clashes(t, sims, w) && (forall i :: 0 <= i < w ==> !Clashes(t, sims, i))
      && RegisterSimples(t, sims).status.msg == DupMessage(sims[w].key, sims[w].mods, Some(SimpleCtx(sims[w].key)));
    assert w == j;
  }
}
