/** The pass `toConfig` makes over its whole output before returning it: every record
    whose conditions require a base variable (`var_...` at 1) also gets a 0-condition for
    each layer variable that some record of the output toggles and whose name begins with
    `lay_<that base variable>_`, unless the record already has a condition on that name.
    So a base key's own maps are disabled while one of its layers is active. Both
    compiler generations run the same pass. */
module PostPass {
  import opened Common
  import opened Karabiner

  /** The variable the first event of a record sets (`omr.to[0]?.set_variable?.name`). */
  function SetName(mr: Manipulator): Option<string>
  {
    if |mr.to| > 0 && mr.to[0].SetVariable? then Some(mr.to[0].name) else None
  }

  predicate SetsPrefixed(mr: Manipulator, prefix: string)
  {
    SetName(mr).Some? && prefix <= SetName(mr).value
  }

  /** A condition that requires a base variable: `name.startsWith('var_') && value === 1`. */
  predicate IsBaseCond(c: Condition)
  {
    "var_" <= c.name && c.value == 1
  }

  /** The prefix of the layer variables of a base variable. */
  function LayerPrefixOf(baseVar: string): string
  {
    "lay_" + baseVar + "_"
  }

  /** `conds.find(c => c.name === n)` finds something. */
  predicate HasName(cs: seq<Condition>, n: string)
  {
    exists j :: 0 <= j < |cs| && cs[j].name == n
  }

  // ---------------------------------------------------------------- the scan for toggles

  /** The names, in record order, that the records of one rule set and that carry the prefix. */
  function Toggles(mrs: seq<Manipulator>, prefix: string): (names: seq<string>)
    ensures forall n :: n in names ==> prefix <= n
    ensures forall k :: 0 <= k < |mrs| && SetsPrefixed(mrs[k], prefix) ==> SetName(mrs[k]).value in names
  {
    if |mrs| == 0 then []
    else
      var init, last := mrs[..|mrs| - 1], mrs[|mrs| - 1];
      assert forall k :: 0 <= k < |init| ==> init[k] == mrs[k];
      Toggles(init, prefix) + (if SetsPrefixed(last, prefix) then [SetName(last).value] else [])
  }

  /** The same over every record of every rule, in output order. */
  function RuleToggles(rus: seq<KaraRule>, prefix: string): (names: seq<string>)
    ensures forall n :: n in names ==> prefix <= n
    ensures forall r, k ::
      0 <= r < |rus| && 0 <= k < |rus[r].manipulators| && SetsPrefixed(rus[r].manipulators[k], prefix) ==>
        SetName(rus[r].manipulators[k]).value in names
  {
    if |rus| == 0 then []
    else
      var init, last := rus[..|rus| - 1], rus[|rus| - 1];
      assert forall r :: 0 <= r < |init| ==> init[r] == rus[r];
      RuleToggles(init, prefix) + Toggles(last.manipulators, prefix)
  }

  method ScanRecords(mrs: seq<Manipulator>, prefix: string) returns (names: seq<string>)
    ensures names == Toggles(mrs, prefix)
  {
    names := [];
    for k := 0 to |mrs|
      invariant names == Toggles(mrs[..k], prefix)
    {
      var name := SetName(mrs[k]);
      if name.Some? && prefix <= name.value {
        names := names + [name.value];
      }
      assert mrs[..k + 1][..k] == mrs[..k];
    }
    assert mrs[..|mrs|] == mrs;
  }

  /** The inner two loops of the pass: every record of every rule whose first event sets a
      variable with the prefix. */
  method ScanToggles(rus: seq<KaraRule>, prefix: string) returns (names: seq<string>)
    ensures names == RuleToggles(rus, prefix)
  {
    names := [];
    for r := 0 to |rus|
      invariant names == RuleToggles(rus[..r], prefix)
    {
      var own := ScanRecords(rus[r].manipulators, prefix);
      names := names + own;
      assert rus[..r + 1][..r] == rus[..r];
    }
    assert rus[..|rus|] == rus;
  }

  // ---------------------------------------------------------------- extending one condition list

  /** Appends a 0-condition for each name, in order, that no condition carries yet. */
  function AppendMissing(cs: seq<Condition>, names: seq<string>): (out: seq<Condition>)
    ensures |cs| <= |out| && out[..|cs|] == cs
    ensures forall j :: |cs| <= j < |out| ==> out[j].value == 0 && out[j].name in names && !HasName(cs, out[j].name)
    ensures forall a, b :: |cs| <= a < b < |out| ==> out[a].name != out[b].name
    ensures forall n :: n in names ==> HasName(out, n)
    ensures (forall n :: n in names ==> HasName(cs, n)) ==> out == cs
  {
    if |names| == 0 then cs
    else
      var prev := AppendMissing(cs, names[..|names| - 1]);
      var n := names[|names| - 1];
      assert forall m :: m in names ==> m in names[..|names| - 1] || m == n;
      if HasName(prev, n) then prev
      else
        var out := prev + [VariableIf(n, 0)];
        assert out[..|prev|] == prev;
        assert forall m :: HasName(prev, m) ==> HasName(out, m) by {
          forall m | HasName(prev, m) ensures HasName(out, m) {
            var j :| 0 <= j < |prev| && prev[j].name == m;
            assert out[j] == prev[j];
          }
        }
        assert out[|prev|].name == n;
        out
  }

  method AddMissing(cs: seq<Condition>, names: seq<string>) returns (out: seq<Condition>)
    ensures out == AppendMissing(cs, names)
  {
    out := cs;
    for k := 0 to |names|
      invariant out == AppendMissing(cs, names[..k])
    {
      assert names[..k + 1][..k] == names[..k];
      if !HasName(out, names[k]) {
        out := out + [VariableIf(names[k], 0)];
      }
    }
    assert names[..|names|] == names;
  }

  /** The condition list of a record after the pass has visited its first `k` conditions, given
      the whole output `rus` (the pass only reads the first events of `rus`, which it never
      changes). */
  function Extend(orig: seq<Condition>, k: nat, rus: seq<KaraRule>): seq<Condition>
    requires k <= |orig|
  {
    if k == 0 then orig
    else
      var prev := Extend(orig, k - 1, rus);
      var c := orig[k - 1];
      if IsBaseCond(c) then AppendMissing(prev, RuleToggles(rus, LayerPrefixOf(c.name))) else prev
  }

  /** The pass only appends; what it appends is a 0-condition on a toggled layer variable of a
      base variable the record requires, new to the record, at most once per name. Every such
      variable ends up named by the record. */
  lemma {:induction false} ExtendShape(orig: seq<Condition>, k: nat, rus: seq<KaraRule>)
    requires k <= |orig|
    ensures var out := Extend(orig, k, rus);
      && |orig| <= |out| && out[..|orig|] == orig
      && (forall j :: |orig| <= j < |out| ==>
            && out[j].value == 0
            && !HasName(orig, out[j].name)
            && exists b :: 0 <= b < k && IsBaseCond(orig[b]) && out[j].name in RuleToggles(rus, LayerPrefixOf(orig[b].name)))
      && (forall a, b :: |orig| <= a < b < |out| ==> out[a].name != out[b].name)
      && (forall b, n :: 0 <= b < k && IsBaseCond(orig[b]) && n in RuleToggles(rus, LayerPrefixOf(orig[b].name)) ==> HasName(out, n))
  {
    if k > 0 {
      ExtendShape(orig, k - 1, rus);
      var prev := Extend(orig, k - 1, rus);
      var c := orig[k - 1];
      if IsBaseCond(c) {
        var out := AppendMissing(prev, RuleToggles(rus, LayerPrefixOf(c.name)));
        assert out[..|prev|] == prev;
        assert forall j :: 0 <= j < |prev| ==> out[j] == prev[j];
        forall b, n | 0 <= b < k && IsBaseCond(orig[b]) && n in RuleToggles(rus, LayerPrefixOf(orig[b].name))
          ensures HasName(out, n)
        {
          if b < k - 1 {
            assert HasName(prev, n);
            var i :| 0 <= i < |prev| && prev[i].name == n;
            assert out[i] == prev[i];
          }
        }
      }
    }
  }

  /** A record that requires no base variable keeps its conditions. */
  lemma {:induction false} ExtendWithoutBase(orig: seq<Condition>, k: nat, rus: seq<KaraRule>)
    requires k <= |orig|
    requires forall j :: 0 <= j < |orig| ==> !IsBaseCond(orig[j])
    ensures Extend(orig, k, rus) == orig
  {
    if k > 0 {
      ExtendWithoutBase(orig, k - 1, rus);
    }
  }

  /** The loop over a record's conditions. The list grows while it is walked, as in the
      source; the entries it appends are 0-conditions, which never match. */
  method ExtendConditions(orig: seq<Condition>, rus: seq<KaraRule>) returns (cs: seq<Condition>)
    ensures cs == Extend(orig, |orig|, rus)
  {
    cs := orig;
    var k := 0;
    while k < |cs|
      invariant k <= |cs|
      invariant cs == Extend(orig, if k <= |orig| then k else |orig|, rus)
      invariant k >= |orig| ==> cs == Extend(orig, |orig|, rus)
      decreases |orig| - (if k <= |orig| then k else |orig|), |cs| - k
    {
      ExtendShape(orig, if k <= |orig| then k else |orig|, rus);
      var c := cs[k];
      if IsBaseCond(c) {
        var names := ScanToggles(rus, LayerPrefixOf(c.name));
        cs := AddMissing(cs, names);
      }
      k := k + 1;
    }
    ExtendShape(orig, if k <= |orig| then k else |orig|, rus);
  }

  // ---------------------------------------------------------------- the whole output

  function PostRecord(mr: Manipulator, rus: seq<KaraRule>): Manipulator
  {
    if mr.conditions.None? then mr
    else mr.(conditions := Some(Extend(mr.conditions.value, |mr.conditions.value|, rus)))
  }

  function PostRecords(mrs: seq<Manipulator>, rus: seq<KaraRule>): (out: seq<Manipulator>)
    ensures |out| == |mrs|
    ensures forall k :: 0 <= k < |mrs| ==> out[k] == PostRecord(mrs[k], rus)
  {
    if |mrs| == 0 then []
    else PostRecords(mrs[..|mrs| - 1], rus) + [PostRecord(mrs[|mrs| - 1], rus)]
  }

  function PostRules(rs: seq<KaraRule>, rus: seq<KaraRule>): (out: seq<KaraRule>)
    ensures |out| == |rs|
    ensures forall r :: 0 <= r < |rs| ==> out[r] == rs[r].(manipulators := PostRecords(rs[r].manipulators, rus))
  {
    if |rs| == 0 then []
    else
      var last := rs[|rs| - 1];
      PostRules(rs[..|rs| - 1], rus) + [last.(manipulators := PostRecords(last.manipulators, rus))]
  }

  /** The pass over the whole output. */
  function PostPassSpec(rus: seq<KaraRule>): seq<KaraRule>
  {
    PostRules(rus, rus)
  }

  method PostPassRecords(mrs: seq<Manipulator>, rus: seq<KaraRule>) returns (out: seq<Manipulator>)
    ensures out == PostRecords(mrs, rus)
  {
    out := [];
    for k := 0 to |mrs|
      invariant out == PostRecords(mrs[..k], rus)
    {
      var mr := mrs[k];
      if mr.conditions.Some? {
        var cs := ExtendConditions(mr.conditions.value, rus);
        mr := mr.(conditions := Some(cs));
      }
      out := out + [mr];
      assert mrs[..k + 1][..k] == mrs[..k];
    }
    assert mrs[..|mrs|] == mrs;
  }

  /** The pass, over the rules `toConfig` has built. */
  method RunPostPass(rus: seq<KaraRule>) returns (out: seq<KaraRule>)
    ensures out == PostPassSpec(rus)
  {
    out := [];
    for r := 0 to |rus|
      invariant out == PostRules(rus[..r], rus)
    {
      var mrs := PostPassRecords(rus[r].manipulators, rus);
      out := out + [rus[r].(manipulators := mrs)];
      assert rus[..r + 1][..r] == rus[..r];
    }
    assert rus[..|rus|] == rus;
  }

  // ---------------------------------------------------------------- properties of the pass

  /** The pass changes conditions and nothing else: the same rules, descriptions and records,
      and a record without conditions keeps none. */
  lemma PostPassKeepsAllButConditions(rus: seq<KaraRule>)
    ensures var out := PostPassSpec(rus);
      && |out| == |rus|
      && forall r :: 0 <= r < |rus| ==>
           && out[r].description == rus[r].description
           && |out[r].manipulators| == |rus[r].manipulators|
           && forall k :: 0 <= k < |rus[r].manipulators| ==>
                && out[r].manipulators[k].(conditions := None) == rus[r].manipulators[k].(conditions := None)
                && (out[r].manipulators[k].conditions.Some? <==> rus[r].manipulators[k].conditions.Some?)
  {
  }

  /** Every record's original conditions stay first, in order, and what follows them is
      0-conditions on new names, each name once, each the variable of a layer toggled somewhere
      in the output under a base variable the record requires. */
  lemma PostPassOnlyAppends(rus: seq<KaraRule>, r: nat, k: nat)
    requires r < |rus| && k < |rus[r].manipulators| && rus[r].manipulators[k].conditions.Some?
    ensures var cs, out := rus[r].manipulators[k].conditions.value, PostPassSpec(rus)[r].manipulators[k].conditions.value;
      && |cs| <= |out| && out[..|cs|] == cs
      && (forall j :: |cs| <= j < |out| ==>
            && out[j].value == 0
            && !HasName(cs, out[j].name)
            && exists b :: 0 <= b < |cs| && IsBaseCond(cs[b]) && out[j].name in RuleToggles(rus, LayerPrefixOf(cs[b].name)))
      && (forall a, b :: |cs| <= a < b < |out| ==> out[a].name != out[b].name)
  {
    var cs := rus[r].manipulators[k].conditions.value;
    ExtendShape(cs, |cs|, rus);
  }

  /** Completeness: a record that requires base variable `v` names, after the pass, every
      variable that some record of the output sets and that begins with `lay_<v>_`. */
  lemma PostPassNamesEveryLayer(rus: seq<KaraRule>, r: nat, k: nat, b: nat, s: nat, t: nat)
    requires r < |rus| && k < |rus[r].manipulators| && rus[r].manipulators[k].conditions.Some?
    requires var cs := rus[r].manipulators[k].conditions.value; b < |cs| && IsBaseCond(cs[b])
    requires s < |rus| && t < |rus[s].manipulators|
    requires SetsPrefixed(rus[s].manipulators[t], LayerPrefixOf(rus[r].manipulators[k].conditions.value[b].name))
    ensures HasName(PostPassSpec(rus)[r].manipulators[k].conditions.value, SetName(rus[s].manipulators[t]).value)
  {
    var cs := rus[r].manipulators[k].conditions.value;
    ExtendShape(cs, |cs|, rus);
  }

  /** A record that requires no base variable is left as it is. */
  lemma PostPassSkipsUnguarded(rus: seq<KaraRule>, r: nat, k: nat)
    requires r < |rus| && k < |rus[r].manipulators|
    requires var mr := rus[r].manipulators[k];
      mr.conditions.Some? ==> forall j :: 0 <= j < |mr.conditions.value| ==> !IsBaseCond(mr.conditions.value[j])
    ensures PostPassSpec(rus)[r].manipulators[k] == rus[r].manipulators[k]
  {
    var mr := rus[r].manipulators[k];
    if mr.conditions.Some? {
      ExtendWithoutBase(mr.conditions.value, |mr.conditions.value|, rus);
    }
  }

  /** A layer toggle guarded by its base variable gets a 0-condition on its own variable: once
      the layer is on, pressing its key again does not toggle it a second time. */
  lemma ToggleExcludesItself(rus: seq<KaraRule>, r: nat, k: nat, b: nat)
    requires r < |rus| && k < |rus[r].manipulators|
    requires var mr := rus[r].manipulators[k];
      && mr.conditions.Some? && b < |mr.conditions.value| && IsBaseCond(mr.conditions.value[b])
      && SetsPrefixed(mr, LayerPrefixOf(mr.conditions.value[b].name))
      && !HasName(mr.conditions.value, SetName(mr).value)
    ensures var mr := rus[r].manipulators[k];
      VariableIf(SetName(mr).value, 0) in PostPassSpec(rus)[r].manipulators[k].conditions.value
  {
    var mr := rus[r].manipulators[k];
    var cs := mr.conditions.value;
    var n := SetName(mr).value;
    ExtendShape(cs, |cs|, rus);
    assert n in RuleToggles(rus, LayerPrefixOf(cs[b].name));
    var out := Extend(cs, |cs|, rus);
    assert HasName(out, n);
    var j :| 0 <= j < |out| && out[j].name == n;
    assert out[j] == VariableIf(n, 0);
  }
}
