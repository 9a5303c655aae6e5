/** Lowering of the rule graph into manipulator records, as both compiler
    generations do it: destination classification, condition lists, the
    per-destination records of a list of key maps, layer toggles and layer
    content, and the stand-alone rules of separated maps and layers.
    Each function here is the specification; the loops of the source are the
    methods at the end of each section, proved equal to them. */
module Lowering {
  import opened Common
  import opened Keys
  import opened Karabiner
  import opened Graph

  // ---------------------------------------------------------------- events and conditions

  /** `fmtDest`: the three standard mouse buttons become pointing-button events, any other
      string that is not a key name becomes a shell command, and a key name becomes a
      key-code event carrying the modifiers only when there are some. */
  function FmtDest(dst: string, dstMods: seq<string>): (e: ToEvent)
    ensures e.PointingButton? <==> dst in PointingButtons
    ensures e.ShellCommand? <==> dst !in PointingButtons && dst !in KeyValues
    ensures e.KeyCode? <==> dst !in PointingButtons && dst in KeyValues
    ensures e.PointingButton? ==> e.button == dst
    ensures e.ShellCommand? ==> e.command == dst
    ensures e.KeyCode? ==> e.keyCode == dst && (e.modifiers.Some? <==> |dstMods| > 0)
                            && (e.modifiers.Some? ==> e.modifiers.value == dstMods)
  {
    if dst in PointingButtons then PointingButton(dst)
    else if dst !in KeyValues then ShellCommand(dst)
    else KeyCode(dst, if |dstMods| > 0 then Some(dstMods) else None)
  }

  /** One `variable_if` condition per name, all with the same value, in order. */
  function VarIfs(names: seq<string>, value: int): (cs: seq<Condition>)
    ensures |cs| == |names|
    ensures forall k :: 0 <= k < |names| ==> cs[k] == VariableIf(names[k], value)
    ensures forall c :: c in cs <==> c.value == value && c.name in names
  {
    if |names| == 0 then []
    else
      var cs := VarIfs(names[..|names| - 1], value) + [VariableIf(names[|names| - 1], value)];
      assert names == names[..|names| - 1] + [names[|names| - 1]];
      cs
  }

  /** Whether an optional name is present and non-empty (a JavaScript truthy string). */
  predicate Truthy(o: Option<string>)
  {
    o.Some? && o.value != ""
  }

  /** `mkConds`: the base variable must be 1 (only when it is given and non-empty), then every
      path variable must be 1, then every excluded variable must be 0. */
  function MkConds(base: Option<string>, lays: seq<string>, excl: seq<string>): (cs: seq<Condition>)
    ensures var b := if Truthy(base) then 1 else 0;
      && |cs| == b + |lays| + |excl|
      && (Truthy(base) ==> cs[0] == VariableIf(base.value, 1))
      && cs[b..b + |lays|] == VarIfs(lays, 1)
      && cs[b + |lays|..] == VarIfs(excl, 0)
    ensures forall c :: c in cs <==>
      || (Truthy(base) && c == VariableIf(base.value, 1))
      || (c.value == 1 && c.name in lays)
      || (c.value == 0 && c.name in excl)
  {
    var head := if Truthy(base) then [VariableIf(base.value, 1)] else [];
    var cs := head + VarIfs(lays, 1) + VarIfs(excl, 0);
    assert cs[|head|..|head| + |lays|] == VarIfs(lays, 1);
    assert cs[|head| + |lays|..] == VarIfs(excl, 0);
    cs
  }

  /** `conds.length > 0 ? conds : undefined` */
  function NonEmpty(cs: seq<Condition>): Option<seq<Condition>>
  {
    if |cs| > 0 then Some(cs) else None
  }

  /** The `from` of an ordinary record: the modifiers are mandatory, and absent when empty. */
  function MkFrom(key: string, mods: seq<string>): FromEvent
  {
    FromEvent(key, if |mods| > 0 then Some(Mandatory(mods)) else None)
  }

  /** `mkMr` */
  function MkMr(desc: string, key: string, mods: seq<string>, toEvent: ToEvent, conds: Option<seq<Condition>>): Manipulator
  {
    Manipulator(desc, MkFrom(key, mods), [toEvent], None, None, conds)
  }

  // ---------------------------------------------------------------- procKeyMaps

  /** An entry of the list `procKeyMaps` receives; `layPath` is the ancestor path of the
      layer the map belongs to, empty for maps outside layers. */
  datatype KeyMapItem = KeyMapItem(key: string, mods: seq<string>, keys: seq<KeyDefine>, desc: string, layPath: seq<string>)

  function ItemRecord(it: KeyMapItem, dst: string, dstMods: seq<string>, base: Option<string>, excl: seq<string>): Manipulator
  {
    MkMr(it.desc, it.key, it.mods, FmtDest(dst, dstMods), NonEmpty(MkConds(base, it.layPath, excl)))
  }

  /** The records of one `.to(...)` entry, one per destination. */
  function DstRecords(it: KeyMapItem, dsts: seq<string>, dstMods: seq<string>, base: Option<string>, excl: seq<string>): seq<Manipulator>
  {
    if |dsts| == 0 then []
    else DstRecords(it, dsts[..|dsts| - 1], dstMods, base, excl) + [ItemRecord(it, dsts[|dsts| - 1], dstMods, base, excl)]
  }

  /** The records of the `.to(...)` entries `kds` of one map. */
  function DefineRecords(it: KeyMapItem, kds: seq<KeyDefine>, base: Option<string>, excl: seq<string>): seq<Manipulator>
  {
    if |kds| == 0 then []
    else
      var kd := kds[|kds| - 1];
      DefineRecords(it, kds[..|kds| - 1], base, excl) + DstRecords(it, Dsts(kd.dst), kd.mods, base, excl)
  }

  /** What `procKeyMaps(items, base, excl)` returns: one record per map, per `.to(...)`
      entry and per destination, in that order. */
  function KeyMapRecords(items: seq<KeyMapItem>, base: Option<string>, excl: seq<string>): seq<Manipulator>
  {
    if |items| == 0 then []
    else
      var it := items[|items| - 1];
      KeyMapRecords(items[..|items| - 1], base, excl) + DefineRecords(it, it.keys, base, excl)
  }

  /** The number of destinations of a list of `.to(...)` entries. */
  function DstCount(kds: seq<KeyDefine>): nat
  {
    if |kds| == 0 then 0 else DstCount(kds[..|kds| - 1]) + |Dsts(kds[|kds| - 1].dst)|
  }

  function ItemDstCount(items: seq<KeyMapItem>): nat
  {
    if |items| == 0 then 0 else ItemDstCount(items[..|items| - 1]) + DstCount(items[|items| - 1].keys)
  }

  /** A record as `mkMr` makes it: one event that is not a variable change, nothing on
      key-up or when alone, and the given conditions. */
  predicate OneEvent(mr: Manipulator, conds: Option<seq<Condition>>)
  {
    && |mr.to| == 1
    && !mr.to[0].SetVariable?
    && mr.toAfterKeyUp.None?
    && mr.toIfAlone.None?
    && mr.conditions == conds
  }

  lemma {:induction false} DstRecordsShape(it: KeyMapItem, dsts: seq<string>, dstMods: seq<string>, base: Option<string>, excl: seq<string>)
    ensures var rs := DstRecords(it, dsts, dstMods, base, excl);
      && |rs| == |dsts|
      && forall k :: 0 <= k < |rs| ==> OneEvent(rs[k], NonEmpty(MkConds(base, it.layPath, excl)))
  {
    if |dsts| > 0 {
      DstRecordsShape(it, dsts[..|dsts| - 1], dstMods, base, excl);
    }
  }

  lemma {:induction false} DefineRecordsShape(it: KeyMapItem, kds: seq<KeyDefine>, base: Option<string>, excl: seq<string>)
    ensures var rs := DefineRecords(it, kds, base, excl);
      && |rs| == DstCount(kds)
      && forall k :: 0 <= k < |rs| ==> OneEvent(rs[k], NonEmpty(MkConds(base, it.layPath, excl)))
  {
    if |kds| > 0 {
      var kd := kds[|kds| - 1];
      DefineRecordsShape(it, kds[..|kds| - 1], base, excl);
      DstRecordsShape(it, Dsts(kd.dst), kd.mods, base, excl);
    }
  }

  /** `procKeyMaps` emits exactly one record per destination; when all maps sit on the same
      layer path, every record is a plain one-event record carrying that path's conditions. */
  lemma {:induction false} KeyMapRecordsShape(items: seq<KeyMapItem>, base: Option<string>, excl: seq<string>, path: seq<string>)
    requires forall j :: 0 <= j < |items| ==> items[j].layPath == path
    ensures var rs := KeyMapRecords(items, base, excl);
      && |rs| == ItemDstCount(items)
      && forall k :: 0 <= k < |rs| ==> OneEvent(rs[k], NonEmpty(MkConds(base, path, excl)))
  {
    if |items| > 0 {
      var it := items[|items| - 1];
      KeyMapRecordsShape(items[..|items| - 1], base, excl, path);
      DefineRecordsShape(it, it.keys, base, excl);
    }
  }

  /** Processing two lists of maps one after the other is processing their concatenation. */
  lemma {:induction false} KeyMapRecordsAppend(a: seq<KeyMapItem>, b: seq<KeyMapItem>, base: Option<string>, excl: seq<string>)
    ensures KeyMapRecords(a + b, base, excl) == KeyMapRecords(a, base, excl) + KeyMapRecords(b, base, excl)
    decreases |b|
  {
    if |b| > 0 {
      var b' := b[..|b| - 1];
      assert (a + b)[..|a + b| - 1] == a + b';
      KeyMapRecordsAppend(a, b', base, excl);
    } else {
      assert a + b == a;
    }
  }

  /** The records of the first `k + 1` items extend those of the first `k` by the records of
      item `k` alone. */
  lemma KeyMapRecordsSnoc(items: seq<KeyMapItem>, k: nat, base: Option<string>, excl: seq<string>)
    requires k < |items|
    ensures KeyMapRecords(items[..k + 1], base, excl) == KeyMapRecords(items[..k], base, excl) + KeyMapRecords([items[k]], base, excl)
  {
    assert items[..k + 1] == items[..k] + [items[k]];
    KeyMapRecordsAppend(items[..k], [items[k]], base, excl);
  }

  lemma DstRecordsStep(it: KeyMapItem, dsts: seq<string>, d: nat, dstMods: seq<string>, base: Option<string>, excl: seq<string>)
    requires d < |dsts|
    ensures DstRecords(it, dsts[..d + 1], dstMods, base, excl)
         == DstRecords(it, dsts[..d], dstMods, base, excl) + [ItemRecord(it, dsts[d], dstMods, base, excl)]
  {
    assert dsts[..d + 1][..d] == dsts[..d];
  }

  lemma DefineRecordsStep(it: KeyMapItem, kds: seq<KeyDefine>, j: nat, base: Option<string>, excl: seq<string>)
    requires j < |kds|
    ensures DefineRecords(it, kds[..j + 1], base, excl)
         == DefineRecords(it, kds[..j], base, excl) + DstRecords(it, Dsts(kds[j].dst), kds[j].mods, base, excl)
  {
    assert kds[..j + 1][..j] == kds[..j];
  }

  lemma KeyMapRecordsStep(items: seq<KeyMapItem>, i: nat, base: Option<string>, excl: seq<string>)
    requires i < |items|
    ensures KeyMapRecords(items[..i + 1], base, excl)
         == KeyMapRecords(items[..i], base, excl) + DefineRecords(items[i], items[i].keys, base, excl)
  {
    assert items[..i + 1][..i] == items[..i];
  }

  /** The innermost loop of `procKeyMaps`: one record per destination of one `.to(...)` entry. */
  method ProcDsts(m: KeyMapItem, dsts: seq<string>, dstMods: seq<string>, base: Option<string>, excl: seq<string>)
    returns (mrs: seq<Manipulator>)
    ensures mrs == DstRecords(m, dsts, dstMods, base, excl)
  {
    mrs := [];
    for d := 0 to |dsts|
      invariant mrs == DstRecords(m, dsts[..d], dstMods, base, excl)
    {
      var toEvent := FmtDest(dsts[d], dstMods);
      var conds := MkConds(base, m.layPath, excl);
      mrs := mrs + [MkMr(m.desc, m.key, m.mods, toEvent, if |conds| > 0 then Some(conds) else None)];
      DstRecordsStep(m, dsts, d, dstMods, base, excl);
    }
    assert dsts[..|dsts|] == dsts;
  }

  /** The middle loop of `procKeyMaps`: the records of every `.to(...)` entry of one map. */
  method ProcDefines(m: KeyMapItem, base: Option<string>, excl: seq<string>) returns (mrs: seq<Manipulator>)
    ensures mrs == DefineRecords(m, m.keys, base, excl)
  {
    mrs := [];
    for j := 0 to |m.keys|
      invariant mrs == DefineRecords(m, m.keys[..j], base, excl)
    {
      var mapk := m.keys[j];
      var rs := ProcDsts(m, Dsts(mapk.dst), mapk.mods, base, excl);
      mrs := mrs + rs;
      DefineRecordsStep(m, m.keys, j, base, excl);
    }
    assert m.keys[..|m.keys|] == m.keys;
  }

  /** `procKeyMaps` */
  method ProcKeyMaps(maps: seq<KeyMapItem>, base: Option<string>, excl: seq<string>) returns (mrs: seq<Manipulator>)
    ensures mrs == KeyMapRecords(maps, base, excl)
  {
    mrs := [];
    for i := 0 to |maps|
      invariant mrs == KeyMapRecords(maps[..i], base, excl)
    {
      var rs := ProcDefines(maps[i], base, excl);
      mrs := mrs + rs;
      KeyMapRecordsStep(maps, i, base, excl);
    }
    assert maps[..|maps|] == maps;
  }
}
