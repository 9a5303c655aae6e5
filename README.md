# karabiner-ts-config: the configuration compiler, modelled in Dafny

karabiner-ts-config lets a TypeScript script build a rule graph and compiles it into the
`karabiner.json` structure that Karabiner-Elements reads. The graph lives in a `Config` builder. It
holds four kinds of entries:

- flat rules;
- base keys ("hyper" keys, `ruleBaseBy`), each with its own maps and arbitrarily nested layers;
- simple maps;
- devices.

Compilation (`toConfig`) runs in five steps:

1. It registers every simple map in the duplicate-key registry.
2. It checks the graph.
3. It lowers every base key into one or more rules:
   - trigger records that set the base variable `var_…`;
   - a toggle record per layer that sets the layer variable `lay_…`;
   - content records, each guarded by `variable_if` conditions;
   - stand-alone rules for separated maps and layers.
4. It lowers the flat rules.
5. It makes an exclusion pass over the whole output, then wraps the rules in one profile.

Two generations of the compiler exist:

- the current one (`src/configer.ts`);
- an older one (`src/builder.ts`), which has no graph check, no simple maps, no devices and no tap override.

The project follows that structure.

| module | what it holds |
|---|---|
| `Common` | `Option`, `Result`, `Status` (a statement that may throw), `Array.join`, number rendering |
| `Keys` | the values of the `Key` enumeration, the three standard mouse buttons, `Mod.any`, `escape` |
| `Karabiner` | the records of the output file |
| `Graph` | the rule graph as values, the variable names (`baseVar`, `vName`, `getLayConds`) and the description getters |
| `Registry` | the duplicate-key registry: the `KeyRegistry` class over `map<string, set<string>>` and the function `ChkDup` that specifies it |
| `Lowering` | `fmtDest`, `mkConds`, `mkMr` and `procKeyMaps` |
| `Assembly` | triggers, layer toggles and content, separated maps and layers, the main rule, flat rules |
| `PostPass` | the exclusion pass |
| `Compile` | the rule list of both generations (`Generation = Current \| Older`) |
| `Output` | the registration of simple maps, the graph check, `procSimpleMods`, the profile, and the whole `toConfig` of both generations |
| `GraphEdit` | how builder calls change the graph, and the registry invariant |
| `Configer` | the current generation's builder as a class |
| `Builder` | the older generation's builder as a class, and the comparison of the two generations |

Wherever the source runs a `for` or `while` loop, the model has a method with a loop; the `forEach`,
`find`, `filter` and `map` calls of the source are modelled as recursive functions. Each loop method is proved equal to a
specification function (`ProcKeyMaps` equals `KeyMapRecords`, `RunPostPass` equals `PostPassSpec`, `ValidateAll` equals
`ValidateBases`, …). The properties are proved as lemmas about those functions.

The builder objects that the source hands out (rules, base keys, layers, maps) are references that the
user's script mutates in place. In the model they are values held in the `Config` class's sequences,
addressed by position. A nested layer names its parent by index, and the parent always comes earlier
in its base key's layer list, because `Layer.layer` appends sub-layers to that list. Every `Config`
method states the builder's whole new state. Every method keeps `Valid()`, which says:

- the layer tree is well formed;
- every base key is in the registry's global scope;
- every base-key map is in its base variable's scope.

## Model

| member | source | states |
|---|---|---|
| Registry.ChkDup | src/configer.ts:461-473 | fails exactly when `key+mods.join(',')` is already in the scope `conds.join(',')`. A failure carries the `Duplicate key combination` message and leaves the registry unchanged. A success adds the key to that scope (creating the scope if needed) and leaves every other scope as it was |
| Registry.KeyRegistry.ChkDupKey | src/configer.ts:461-473 | the in-place `chkDupKey` returns the status and leaves the registry that `ChkDup` specifies |
| Registry.KeyRegistry.AnyScopeHas | src/configer.ts:446-448 | the scan over every scope finds the key exactly when some scope holds it |
| Registry.KeyIdInjective | src/configer.ts:462 | for keys without `+` and non-empty modifiers without `,`, equal registry strings mean the same key and the same modifiers in the same order |
| Registry.ModifierOrderMatters | src/configer.ts:462 | the same two modifiers in the other order give a different registry string |
| Graph.BaseVar | src/configer.ts:552-555 | the base variable starts with `var_<key>`; it is exactly that without modifiers, and otherwise `_` followed by the modifiers joined by `_` is appended |
| Graph.VNameHasLayerPrefix | src/configer.ts:611-614 | every layer variable, at any depth, starts with `lay_<baseVar>_` |
| Graph.LayPathShape | src/configer.ts:50-58 | the ancestor path is non-empty and ends with the layer's own variable. It starts at a top-level layer, each entry followed by `_` is a prefix of the next, and every entry carries the base key's layer prefix |
| Graph.LayPathLengths | src/configer.ts:611-614 | names grow strictly longer down the ancestor path |
| Graph.VNameNotOnParentPath | src/configer.ts:141-142 | a layer's own variable is not among the variables of its ancestors, which guard its toggle |
| Graph.AncestorOnPath | src/configer.ts:50-58 | every ancestor's variable is on the layer's path |
| Graph.SiblingOffPath | src/configer.ts:611-614 | a sibling layer with another key is not on the layer's path |
| Lowering.FmtDest | src/configer.ts:33-40 | classifies a destination in both directions. The three standard mouse buttons become pointing-button events. Any other non-key string becomes a shell command. A key name becomes a key code that carries the modifiers exactly when there are some |
| Lowering.MkConds | src/configer.ts:42-48 | the base condition is present only when the base name is non-empty. Next come the path variables at 1, in order, then the excluded variables at 0, in order. A condition belongs to the list exactly when it is one of these |
| Lowering.KeyMapRecordsShape | src/configer.ts:60-74 | `procKeyMaps` emits exactly one record per destination. Each record sends one event, which never sets a variable, and carries the conditions only when there are some |
| Lowering.KeyMapRecordsAppend | src/configer.ts:204-211 | calling `procKeyMaps` once per map and concatenating the results equals one call over all the maps |
| Lowering.ProcDsts | src/configer.ts:65-70 | the innermost loop equals `DstRecords` |
| Lowering.ProcDefines | src/configer.ts:63-71 | the middle loop equals `DefineRecords` |
| Lowering.ProcKeyMaps | src/configer.ts:60-74 | the whole loop nest equals `KeyMapRecords`: one record per map, per `.to()` entry and per destination, in declaration order |
| Assembly.GetLayConds | src/configer.ts:50-58 | walking up the parents and putting each variable in front yields the root-first path `LayPath` |
| Assembly.LayerNames | src/configer.ts:78 | the list holds the variables of a base key's layers, in layer order |
| Assembly.InAllLayerNames | src/configer.ts:160 | every layer variable of every base key is in the configuration-wide list |
| Assembly.AllLayerNamesAreLayers | src/configer.ts:160 | the configuration-wide list holds layer variables only |
| Assembly.Without | src/configer.ts:162 | the exclusion list holds exactly the names that are not on the path |
| Assembly.TriggerCondsExactlyLayers | src/configer.ts:76-136 | the trigger has conditions exactly when its base key has layers. Those conditions are exactly a 0-condition for each of its own layer variables |
| Assembly.TriggerShape | src/configer.ts:76-136 | one trigger record, or two in combo mode. Each fires on the base key, with the base modifiers mandatory or, when there are none, any modifier optional. Each sets the base variable on press, clears it on release, sends the tap output when the key is tapped alone, and carries the trigger conditions. The first record's `to` is exactly the set-variable event; the combo record also sends the combo key and its modifiers |
| Assembly.TriggerRecordShape | src/configer.ts:76-136 | each trigger record, the setter and the combo record alike, fires on the base key with the base modifiers mandatory (or any modifier optional when there are none), sets the base variable first (the setter sends nothing else), clears it on release, sends the tap output when tapped alone, and carries the trigger conditions |
| Assembly.LayerToggleShape | src/configer.ts:138-151 | the toggle sets the layer variable on press and clears it on release. Its conditions are exactly the base variable at 1 and the strict ancestors at 1 |
| Assembly.LayerContentShape | src/configer.ts:153-163 | layer content has one plain record per destination of the non-separated maps, each carrying base, path and exclusion conditions |
| Assembly.LayerContentPinsEveryLayer | src/configer.ts:153-163 | a content record requires the base variable. For every layer of every base key, it requires the variable to be 1 when the layer is on its path and 0 otherwise |
| Assembly.SiblingContentExcluded | src/configer.ts:153-163 | content of a layer requires each sibling layer (same parent, other key) to be off |
| Assembly.NestedContentGuarded | src/configer.ts:153-163 | content of a nested layer requires every ancestor to be on |
| Assembly.OneRulePerRecord | src/configer.ts:168-182 | each record is wrapped in a rule of its own that has the record's description |
| Assembly.SepMapRulesShape | src/configer.ts:168-182 | each rule of a separated base-key map holds one plain record guarded by the base variable alone |
| Assembly.ProSepMaps | src/configer.ts:168-182 | the loop equals `SepMapRules` |
| Assembly.SepLayerMapsUnguarded | src/configer.ts:225-236 | the records of a separated layer's separated maps carry the path and the exclusions, and no condition requires a `var_` variable |
| Assembly.FlatRuleUnconditioned | src/configer.ts:321-344 | a flat rule has one record per destination, and none of its records has conditions |
| PostPass.Toggles | src/configer.ts:353-357 | every name it collects has the prefix. Every record whose first event sets a variable with the prefix contributes that name |
| PostPass.RuleToggles | src/configer.ts:353-357 | the same, over every record of every rule |
| PostPass.ScanRecords | src/configer.ts:354-357 | the loop over one rule's records equals `Toggles` |
| PostPass.ScanToggles | src/configer.ts:353-357 | the loop over all rules equals `RuleToggles` |
| PostPass.AppendMissing | src/configer.ts:355-358 | only appends. What it appends is 0-conditions on names that are new, each name once, and afterwards every name is present; when every name was already present, nothing changes |
| PostPass.AddMissing | src/configer.ts:355-358 | the loop equals `AppendMissing` |
| PostPass.ExtendShape | src/configer.ts:349-362 | over a record's conditions, the pass keeps the original conditions first and in order. Every appended condition is a 0-condition on a new name, each name once, and is a toggled layer variable of a base variable that the record requires. Every such variable ends up named |
| PostPass.ExtendWithoutBase | src/configer.ts:349-351 | a condition list with no base-variable condition is unchanged |
| PostPass.ExtendConditions | src/configer.ts:350-362 | the loop over a list that grows while it is walked equals `Extend` |
| PostPass.PostPassRecords | src/configer.ts:348-364 | the loop over one rule's records equals `PostRecords` |
| PostPass.RunPostPass | src/configer.ts:347-366 | the pass over the whole output equals `PostPassSpec` |
| PostPass.PostPassKeepsAllButConditions | src/configer.ts:347-366 | the pass keeps the rules, their descriptions and their records; only conditions change |
| PostPass.PostPassOnlyAppends | src/configer.ts:347-366 | per record, the original conditions stay first and in order. What follows is 0-conditions on new names, each once, each a toggled layer variable under a base variable the record requires |
| PostPass.PostPassNamesEveryLayer | src/configer.ts:347-366 | a record that requires base variable `v` ends up naming every variable that some record of the output sets with prefix `lay_<v>_` |
| PostPass.PostPassSkipsUnguarded | src/configer.ts:349-351 | a record that requires no base variable is left as it was |
| PostPass.ToggleExcludesItself | src/configer.ts:347-366 | a guarded toggle of a layer under its base variable gains a 0-condition on its own variable |
| Compile.TapOutput | src/configer.ts:81-85 | the tap output is the `ifAlone` key, with its hold time exactly when that time is non-zero. Otherwise it is `escape`. The older generation always sends `escape` |
| Compile.ProcLayerMr | src/configer.ts:138-166 | `procLayerMr` equals the toggle followed by the layer content |
| Compile.ProcContentByMap | src/configer.ts:204-211 | calling `procKeyMaps` once per map gives the layer content |
| Compile.ProcContentStep | src/configer.ts:204-211 | one iteration: the records of the first `k + 1` maps are those of the first `k` followed by those of map `k` alone, under the layer's path and exclusions |
| Compile.ProcSepLayer | src/configer.ts:186-238 | one iteration of `procSepLayers` equals `SepLayerRule` |
| Compile.ProcSepLayers | src/configer.ts:184-241 | the loop equals `SepLayerRules` over the separated layers, in layer order |
| Compile.ProcMainRecords | src/configer.ts:301-315 | the main rule's records are the trigger records, then the non-separated base-key maps, then the records of every non-separated layer |
| Compile.ProcLayers | src/configer.ts:313 | the loop over the layers appends the toggle and content of every non-separated layer, in layer order |
| Compile.ProcLayerStep | src/configer.ts:313 | one iteration adds layer `i`'s toggle and content when it is not separated and nothing otherwise |
| Compile.ProcBasedKey | src/configer.ts:294-319 | one base key yields its main rule, then its separated-map rules, then its separated-layer rules |
| Compile.LowerBased | src/configer.ts:294-319 | the loop over base keys equals `AllBasedRules` |
| Compile.LowerFlat | src/configer.ts:321-345 | the loop over flat rules equals `FlatRules` |
| Compile.BuildRules | src/configer.ts:292-366 | the rule list is the base-key rules, then the flat rules, then the exclusion pass over all of them |
| Compile.SameOutputWithoutIfAlone | src/builder.ts:67-119 | without an `ifAlone` key, the two generations compile the same rules |
| Compile.FlatRulesUntouched | src/configer.ts:321-366 | the flat rules come last and pass the exclusion pass unchanged |
| Compile.FlatRulesLast | src/configer.ts:347-366 | whatever precedes them, flat rules pass the exclusion pass unchanged |
| Compile.FlatTailSurvives | src/configer.ts:347-366 | flat rules at the end of the output come out of the exclusion pass as they went in |
| Compile.FlatRuleSurvives | src/configer.ts:347-366 | the exclusion pass leaves every record of a flat rule alone, because none of them carries a condition |
| Compile.ToggleGuardsItself | src/configer.ts:347-366 | after the pass, every layer toggle in the output requires its own layer variable to be 0 |
| Compile.PrefixReachesOtherBaseKey | src/configer.ts:355 | matching by prefix crosses base keys: the layers of `f16+left_command` fall under the prefix of a plain `f16` base key |
| Compile.SepLayerMapsSkipped | src/configer.ts:232 | the records of a separated layer's separated maps pass the exclusion pass unchanged |
| Output.RegisterSimplesScopes | src/configer.ts:270-275 | registering simple maps only adds, and only to the global scope. On success, the global scope gains exactly the keys of the simple maps that have a target |
| Output.RegisterSimplesGlobal | src/configer.ts:270-275 | after a passing registration, a key is in the global scope exactly when it was before or some simple map with a target has it |
| Output.RegisterSimplesSpec | src/configer.ts:270-275 | registration fails exactly when some simple map clashes (it has a target and its key is already registered globally or registered by an earlier map). The message names the first map that clashes |
| Output.LastClashes | src/configer.ts:270-275 | after a passing prefix, the next simple map with a target is refused exactly when it clashes |
| Output.RegisterSimplesFailSticks | src/configer.ts:270-275 | after the first failure, later maps are not looked at |
| Output.RegisterSimplesIn | src/configer.ts:270-275 | the loop over the live registry returns the status and leaves the registry that `RegisterSimples` specifies |
| Output.FirstMappedTrigger | src/configer.ts:278-283 | the first map whose key triggers a layer; no earlier map's key does |
| Output.FirstSelfMapped | src/configer.ts:285-289 | the first layer that maps its own key; no earlier layer does |
| Output.CheckBaseSpec | src/configer.ts:277-290 | a base key passes exactly when no map key triggers a layer and no layer maps its own key. Otherwise it fails with the first role conflict, or, when there is none, with the first self-mapping layer |
| Output.RoleCheckSpec | src/configer.ts:278-283 | the role check passes exactly when no map key of the base key triggers one of its layers. Otherwise its message names the first such key |
| Output.SelfMapCheckSpec | src/configer.ts:285-289 | the self-map check passes exactly when no layer maps its own key. Otherwise its message names the first such layer |
| Output.FirstFailureSpec | src/configer.ts:277-290 | checking base keys in order passes exactly when every check passes. Otherwise the result is the first failure |
| Output.ValidateBasesSpec | src/configer.ts:277-290 | the graph check passes exactly when every base key has both properties. Otherwise it is the failure of the first base key that lacks one |
| Output.CollectLayerKeys | src/configer.ts:279 | the loop collects the set of layer keys |
| Output.CheckRoles | src/configer.ts:278-283 | the loop over map keys equals `RoleCheck` |
| Output.LayerMapsOwnKey | src/configer.ts:286-288 | the loop finds the layer's own key exactly when one of its maps has it |
| Output.CheckSelfMaps | src/configer.ts:285-289 | the loop over layers equals `SelfMapCheck` |
| Output.ValidateAll | src/configer.ts:277-290 | the validation loop equals `ValidateBases` |
| Output.SimpleModOf | src/configer.ts:245-263 | a simple map yields an entry exactly when it has a target that is an array or a key name. The entry maps the map's key, with its modifiers mandatory when there are some, to the target: its key name as a key code or its array as a key list, with the target's modifiers exactly when there are some |
| Output.SimpleModsMembers | src/configer.ts:243-266 | an entry is in `simple_modifications` exactly when some simple map yields it |
| Output.ProcSimpleMods | src/configer.ts:243-266 | the loop equals `SimpleMods` |
| Output.EmitConfig | src/configer.ts:268-380 | the current `toConfig` on the live registry returns the result and leaves the registry that `ConfigOutput` specifies |
| Output.EmitOlder | src/builder.ts:229-315 | the older `toConfig` equals `OlderOutput` |
| Output.OlderOutput | src/builder.ts:307-313 | the older profile carries the profile name, the rules and keyboard type `ansi`, and never devices or simple modifications |
| Output.ConfigOutputSucceeds | src/configer.ts:268-290 | `toConfig` returns a configuration exactly when no simple map clashes and every base key passes both graph checks |
| Output.ConfigOutputProfile | src/configer.ts:368-379 | on success there is one profile. It carries the builder's profile name, the compiled rules, keyboard type `ansi`, the devices exactly when there are some, and `simple_modifications`, holding the entries of the simple maps in order, exactly when some simple map yields an entry |
| Output.SecondOutputFails | src/configer.ts:270-275 | after a successful `toConfig`, a second one on the same builder throws when any simple map has a target. The message names the first such map |
| GraphEdit.ReplaceMapFrame | src/configer.ts:654-657 | replacing one map changes that map and nothing else |
| GraphEdit.ReplaceMapKeepsBases | src/configer.ts:654-657 | replacing a map with one that has the same key and modifiers keeps every base key's keys, modifiers and layer tree |
| GraphEdit.RegisteredGrows | src/configer.ts:461-473 | the registry invariant survives registrations |
| GraphEdit.RegisteredSameBases | src/configer.ts:566-570 | the registry invariant depends only on base keys, modifiers and map keys |
| GraphEdit.SameBasesWellFormed | src/configer.ts:621-625 | edits that keep every layer's parent keep the tree well formed |
| GraphEdit.EditOneBase | src/configer.ts:561-582 | editing a base key's settings keeps the registry invariant and the tree order |
| GraphEdit.AddBaseMap | src/configer.ts:690-695 | a map registered in its base variable's scope may join that base key |
| GraphEdit.AddBase | src/configer.ts:545-550 | a base key registered in the global scope may join the list |
| Configer.Config.constructor | src/configer.ts:427-429 | a new builder is empty, is not shown in the menu bar, and has an empty registry; its profile name defaults to `Default` |
| Configer.Config.NewRule | src/configer.ts:431-435 | `rule(desc)` appends a described flat rule and nothing else changes |
| Configer.Config.Map | src/configer.ts:437-441 | `map(key, mods)` appends a simple map without a target |
| Configer.Config.RuleBaseBy | src/configer.ts:443-452 | refused exactly when the key and modifiers are registered in any scope, with the scan's message and no change. Otherwise the key is registered globally, as `chkDupKey` does, and a new base key is appended |
| Configer.Config.AddDevice | src/configer.ts:454-459 | `device` appends the identifiers, marked as both keyboard and pointing device |
| Configer.Config.ToJSON | src/configer.ts:475-477 | `toJSON` returns the result and leaves the registry that `ConfigOutput` specifies. The builder stays valid |
| Configer.Config.SimpleTo | src/configer.ts:676-679 | `SimpleKeyMap.to` sets or replaces the target |
| Configer.Config.RuleMap | src/configer.ts:525-529 | `Rule.map` appends an unregistered map to the flat rule |
| Configer.Config.DescRule | src/configer.ts:494-497 | `desc` sets the rule's description |
| Configer.Config.BaseMap | src/configer.ts:690-695 | `RuleBased.map` registers the key in the base variable's scope with context `<dsc or RuleBased>.map(<key>)`. A duplicate throws and adds no map; otherwise the map is appended |
| Configer.Config.BaseLayer | src/configer.ts:572-576 | `RuleBased.layer` appends a top-level layer |
| Configer.Config.SubLayer | src/configer.ts:621-625 | `Layer.layer` appends the sub-layer to the base key's own layer list, after its parent |
| Configer.Config.IfAlone | src/configer.ts:561-564 | `ifAlone` records the tap key and hold time, 100 ms unless given |
| Configer.DefaultsApply | src/configer.ts:561-564 | with every default left in place, the profile is named `Default`, `ruleBaseBy` takes no modifiers, and `ifAlone(tap)` makes the tap output carry `hold_down_milliseconds` 100 |
| Configer.Config.MapTo | src/configer.ts:578-582 | `mapTo` switches combo mode on with the target |
| Configer.Config.DescBase | src/configer.ts:494-497 | `desc` sets the base key's description |
| Configer.Config.LayerMap | src/configer.ts:627-631 | `Layer.map` appends an unregistered map to the layer |
| Configer.Config.SeparateLayer | src/configer.ts:606-609 | `Layer.separate` marks the layer separated |
| Configer.Config.DescLayer | src/configer.ts:494-497 | `desc` sets the layer's description |
| Configer.Config.To | src/configer.ts:654-657 | `IMap.to` appends a target to the map and changes nothing else |
| Configer.Config.DescMap | src/configer.ts:741-743 | `desc` on a map, and `RuleKeyMapHoldInfo.desc`, set the map's description |
| Configer.Config.Separate | src/configer.ts:701-704 | `separate` marks a base-key or layer map as separated |
| Configer.Config.OnHold | src/configer.ts:756-759 | `onHold` replaces any hold record with a fresh one without parameters |
| Configer.Config.SetParam | src/configer.ts:737-739 | `setParam` writes one parameter of the hold record |
| Builder.GenerationsAgree | src/builder.ts:229-315 | when the current generation accepts a graph with no simple maps, no devices and no base key that records an `ifAlone` key, the two generations emit the same configuration |
| Builder.CurrentRefusesWhatOlderEmits | src/builder.ts:229-315 | a graph with a role conflict or a self-mapping layer is refused by the current generation with the first failure. The older generation compiles it |
| Builder.Config.constructor | src/builder.ts:360-362 | a new builder is empty and has an empty registry |
| Builder.Config.NewRule | src/builder.ts:364-368 | `rule(desc)` appends a described flat rule |
| Builder.Config.RuleBaseBy | src/builder.ts:370-379 | as in the current generation: refused exactly when registered in any scope, otherwise registered globally and appended |
| Builder.Config.ToJSON | src/builder.ts:395-397 | `toJSON` never throws and equals `OlderOutput` |
| Builder.Config.RuleMap | src/builder.ts:445-449 | `Rule.map` appends an unregistered map |
| Builder.Config.BaseMap | src/builder.ts:590-595 | `RuleBased.map` registers the key in the base variable's scope, and a duplicate throws without adding the map |
| Builder.Config.BaseLayer | src/builder.ts:484-488 | `RuleBased.layer` appends a top-level layer |
| Builder.Config.SubLayer | src/builder.ts:533-537 | `Layer.layer` appends the sub-layer to the base key's layer list |
| Builder.Config.MapTo | src/builder.ts:490-494 | `mapTo` switches combo mode on |
| Builder.Config.LayerMap | src/builder.ts:539-543 | `Layer.map` appends a map to the layer |
| Builder.Config.SeparateLayer | src/builder.ts:518-521 | `Layer.separate` marks the layer separated |
| Builder.Config.To | src/builder.ts:566-569 | `IMap.to` appends a target to the map |
| Builder.Config.Separate | src/builder.ts:601-604 | `separate` marks a base-key or layer map as separated |
| Builder.Config.DescRule | src/builder.ts:414-417 | `desc` sets the flat rule's description |
| Builder.Config.DescBase | src/builder.ts:414-417 | `desc` sets the base key's description |
| Builder.Config.DescLayer | src/builder.ts:414-417 | `desc` sets the layer's description |
| Builder.Config.DescMap | src/builder.ts:414-417 | `desc` sets the map's description |

## Left out

- `fmtVal` and `toString` (the pretty-printer over untyped values) are not modelled. They only format text.
- Descriptions built with the `icon` table are not modelled: the icon module is not part of this model. This covers the combo-mode main rule, flat rules with more than one map, and separated layers with content. Those descriptions appear as `Decorated(head)`, with the head the source starts from.
- `mkCmd_OsaOpen` and `toOsaOpen` are not modelled. Their result is an ordinary shell string, and the model takes any string as a target.
- The command-line tool `src/bin/cli.ts` is not modelled: it does file I/O.
- Object identity is not modelled. The model addresses builder objects by position, so it does not capture a script that keeps a reference to an object and mutates it later through another path.
- `device(idf)` marks the caller's identifier object in place; the model stores a marked copy.
- JavaScript truthiness is modelled as it applies to each value:
  - an empty description counts as absent;
  - an empty `ifAlone` key is ignored;
  - a hold time of 0 writes no `hold_down_milliseconds`;
  - NaN and non-number hold times are outside the model, which types them as integers.
- The `setParam` value is typed as an integer; the source accepts any value.
- An omitted `mods` argument of `.to()` is modelled by the default `[]`: the source leaves it undefined, and `fmtDest` and `procSimpleMods` treat undefined and empty alike.
- Lowering.FmtDest: the claim that `button4`..`button8` become shell commands is not proved for those five literals. It follows from the contract once those names are shown to be absent from `KeyValues`, a 132-entry list, and that fact is not proved here.
- Output.CheckRoles: the source walks the `Set` of map keys in insertion order; the model walks the maps in order. Both find the same first conflicting key, because a `Set` keeps first-insertion order.
- Lowering.KeyMapRecordsShape: states the count, the single event and the conditions of each record. The exact `from` of each record is given by `KeyMapRecords` itself, not restated as a lemma.
- Device-scoped conditions and hold or tap lowering (`to_if_held_down`, `to_delayed_action`) are not part of this source. The hold record is stored and never read by `toConfig`.
