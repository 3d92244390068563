# Conditional effects for Daggerheart: a Dafny model of the effect engine

The module lets a game master build a catalog of *conditional effects*. Each
effect is a condition (a status, an attribute comparison, a weapon slot, …)
paired with a modifier (advantage, a roll bonus, a damage bonus, an evasion
or threshold bonus, …). Effects are assigned to actors, to their items, or to
every player character in a scene. Whenever the host system prepares an
actor or rolls dice, the engine does three things:

- it resolves which catalog entries are in scope for each actor;
- it evaluates their conditions;
- it applies the modifiers.

This project models that engine, `scripts/config.js` and `scripts/main.js`,
with the host abstracted away:

- **Catalog and scene** (`Definitions`, `SceneToggles`, `EffectCrud`).
  - The catalog setting is the `effects` field of an `EffectStore` class.
  - The active scene's flags are a `SceneFlags` value held by a `SceneStore`
    class, whose setters reassign it.
  - `resolveApplyTo`, `isEffectActive`, `defaultEffect` and the save
    handler's `apply_status` duration fix are functions.
- **Scope** (`Actors`, `Scope`).
  - `_isItemActive` is a function.
  - `_getActorConditionalEffects` is a method with the source's loops. It is
    proved equal to the specification function `ResolvedEffects`, whose
    properties are lemmas.
- **Conditions** (`Conditions`). `_evaluateCondition` and `_getAttributeValue`
  are functions over datatypes for condition types, attribute IDs and
  operators.
- **Selection** (`Selection`). The hooks' own/incoming selection loops are
  methods, proved equal to `SelectedEffects`.
- **Rolls and damage** (`Rolls`, `DamageBonus`). The roll and damage
  configurations are classes (`RollConfig`, `DamageConfig`). Their fields are
  updated in place by `_applyRollEffect`, `_applyDamageBonusToFormulas` and
  the pre-roll hooks. Each method is proved against a function of the old
  state.
- **Derived stats** (`DerivedStats`). `_applyEvasionBonus` and
  `_applyThresholdBonus` update a `DerivedActor` object, which holds the
  actor and its `_dceLastApplied` record.
- **Summaries** (`Summaries`). `summarizeCondition` and `summarizeEffect` are
  string builders over the label tables of `scripts/config.js`, with the
  labels copied exactly.

Two rules decide an effect's side, and the model keeps both:

- `resolveApplyTo` in `scripts/config.js` treats an unset `beneficial` flag
  as "self".
- The hooks in `scripts/main.js` treat only `beneficial === true` as the
  actor's own effect.

`Selection.SideRulesAgree` proves the two agree when the effect sets no
explicit `applyTo`, is not a derived-stat type (defense bonus, damage
reduction, proficiency bonus) and sets the flag. Outside those conditions
they can disagree even with the flag set: an explicit `applyTo: "self"` with
`beneficial: false`, or a defense bonus with `beneficial: false`, is "self"
for `resolveApplyTo` but never applied by the hooks as the actor's own.
`Selection.SideRulesDisagreeOnUnsetBeneficial` proves they disagree on a
freshly created effect, which leaves the flag unset.

The derived-stat step computes `base = current - prev`, but uses `current`
as it is when there is no bonus now and a positive bonus was recorded. Which
convention is right depends on whether the host rebuilds `evasion` from
scratch before each run, and the host is not part of this model. So
`DerivedStats.BonusStepOnKeptValue` and `DerivedStats.BonusStepOnResetValue`
state exactly when the step yields "base plus current bonus" under each
convention. Under "kept", a positive bonus that falls to zero leaves the old
bonus in place. Under "reset", any recorded non-zero bonus is subtracted from
the fresh base, changed or not, except when a positive bonus has just fallen
to zero; so an unchanged bonus cancels itself out on every run after the
first (`DerivedStats.BonusStepOnResetSubtractsRecorded`).

An actor whose system has no `evasion` key is skipped. One whose `evasion`
is present but unset is treated as evasion 0 and gets the bonus written.
Resources draw the same line for their `value`: a percentage attribute of a
resource whose `value` is `null` reads 0%, while a missing `value` divides
to `NaN`, which no condition accepts.

Damage-bonus summaries put the dice and the signed flat bonus side by side
with no separator (`1d6+2`). The formula added to a damage part joins them
with ` + `. Both follow the code.

## Model

| member | source | states |
|---|---|---|
| Definitions.ResolveApplyTo | scripts/config.js:207-212 | an explicit `applyTo` is returned unchanged; otherwise derived-stat types give "self", and any other type gives "incoming" exactly when `beneficial` is explicitly false |
| Definitions.IsEffectActive | scripts/config.js:630-638 | a scene force-disable makes an effect inactive whatever else holds; otherwise a legacy override decides, else `enabled`; active implies not disabled and (enabled or overridden) |
| Definitions.SubmittedEffect | scripts/config.js:1155-1159 | an `apply_status` effect with a non-empty duration mode is saved with mode "permanent"; any other effect is saved unchanged; nothing but the duration mode ever changes |
| Definitions.SubmittedEffectIdempotent | scripts/config.js:1155-1159 | saving an already-saved effect changes nothing |
| Definitions.FilterKeepsUniqueIds | scripts/config.js:541 | filtering a catalog with unique IDs keeps the IDs unique |
| SceneToggles.WithId | scripts/config.js:566-567 | after adding, the ID is present; an ID already present leaves the list unchanged, otherwise it is appended once at the end |
| SceneToggles.WithoutIdCounts | scripts/config.js:568-570 | removing drops every occurrence of the ID and keeps every other ID exactly as many times |
| SceneToggles.WithoutIdKeepsOrder | scripts/config.js:568-570 | removing keeps the other IDs in their relative order (a subsequence) and distributes over concatenation |
| SceneToggles.ToggledMembership | scripts/config.js:563-614 | after a toggle the ID is present exactly when it was switched on; every other ID's membership is unchanged |
| SceneToggles.ToggledIdempotent | scripts/config.js:563-614 | repeating the same toggle writes the same list |
| SceneToggles.ToggledKeepsNoDuplicates | scripts/config.js:563-614 | a toggle never introduces a duplicate ID |
| SceneToggles.ToggleOnOffRestores | scripts/config.js:563-614 | switching an absent ID on and then off restores the list exactly |
| SceneToggles.DisableDeactivates | scripts/config.js:563-572 | force-disabling an effect makes it inactive, whatever its legacy override or `enabled` flag |
| SceneToggles.DisableTouchesOnlyItsId | scripts/config.js:563-572 | toggling one ID's force-disable leaves every other effect's activity unchanged |
| SceneToggles.DisableThenEnableRestoresActivity | scripts/config.js:563-572 | disabling and re-enabling an effect that was not disabled changes no effect's activity |
| SceneToggles.SceneStore.SetSceneDisabled | scripts/config.js:563-572 | with no active scene nothing changes; otherwise only the disabled list changes, to the toggled list |
| SceneToggles.SceneStore.SetPcToggle | scripts/config.js:584-593 | with no active scene nothing changes; otherwise only the player-character toggle list changes, to the toggled list |
| SceneToggles.SceneStore.SetNpcToggle | scripts/config.js:605-614 | with no active scene nothing changes; otherwise only the adversary toggle list changes, to the toggled list |
| SceneToggles.SceneStore.SetSceneOverride | scripts/config.js:545-551 | with no active scene nothing changes; a null value deletes the effect's legacy override and any other value sets it |
| SceneToggles.SceneStore.ClearSceneOverrides | scripts/config.js:616-628 | all four scene flags are cleared together, after which every effect's activity is its own `enabled` flag |
| EffectCrud.FindIndex | scripts/config.js:534 | the first index whose entry has the ID, or none exactly when no entry has it |
| EffectCrud.DeleteRemovesExactly | scripts/config.js:541 | deletion keeps exactly the entries with another ID, in order, and shortens the list by the number of entries with the ID |
| EffectCrud.DeleteKeepsUniqueIds | scripts/config.js:541 | deletion keeps catalog IDs unique |
| EffectCrud.CreateKeepsUniqueIds | scripts/config.js:523-530 | creating with an ID no entry has keeps catalog IDs unique |
| EffectCrud.UpdateKeepsUniqueIds | scripts/config.js:532-539 | an update whose changes carry no ID keeps catalog IDs unique |
| EffectCrud.EffectStore.CreateEffect | scripts/config.js:523-530 | the defaults merged with the data and given the fresh ID are appended as exactly one new last entry, and returned |
| EffectCrud.EffectStore.UpdateEffect | scripts/config.js:532-539 | an unknown ID returns none and leaves the catalog unchanged; otherwise only the first matching entry is replaced by the merge and returned, and the length is kept |
| EffectCrud.EffectStore.DeleteEffect | scripts/config.js:541 | the catalog becomes the entries whose ID differs, in order |
| Scope.IsItemActive | scripts/main.js:180-188 | weapons and armor count exactly when equipped, domain cards exactly when explicitly out of the vault, features always, any other item type never |
| Scope.ItemAssignedIdsMembership | scripts/main.js:150-155 | an ID comes from the items exactly when some applicable, active item carries it |
| Scope.AssignedIdsMembership | scripts/main.js:141-158 | an ID is assigned exactly when it is a scene player-character toggle and the actor is a character, or it is on an applicable active item, or it is on the actor |
| Scope.ResolvedEffectsSpec | scripts/main.js:137-163 | the result is a subsequence of the active catalog, which is a subsequence of the catalog; it holds exactly the active entries with an assigned ID; it is empty when nothing is assigned; it has unique IDs when the catalog has |
| Scope.NonCharacterIgnoresPcToggles | scripts/main.js:144-147 | a non-character actor's resolved effects do not depend on the scene's player-character toggles |
| Scope.AddIds | scripts/main.js:144-158 | adding a list of IDs to the set yields the set united with the list's members |
| Scope.GetActorConditionalEffects | scripts/main.js:137-163 | the loops compute exactly the resolved effects (none for a missing actor) |
| Conditions.RoundedPercent | scripts/main.js:241-246 | the result is `value*100/max` rounded to the nearest integer, halves upward |
| Conditions.RoundsToUnique | scripts/main.js:241-246 | that rounding determines a single integer |
| Conditions.Percentage | scripts/main.js:241-246 | none exactly when the resource or its max is missing, the max is 0, or the `value` key is missing (`NaN`); otherwise the rounded percentage, with a `null` value dividing as 0, so a `null` or 0 value reads 0 |
| Conditions.UnsetValuePercentCondition | scripts/main.js:220-246 | with a non-zero max and no value, a percentage condition compares 0 when the value is `null` and never holds when the value key is missing |
| Conditions.PercentageOfFullAndEmpty | scripts/main.js:241-246 | a full resource reads 100 and an empty one 0 |
| Conditions.GetAttributeValue | scripts/main.js:237-259 | unknown IDs read none; hope, stress, hit points and hit-point max read the resource's value or max, none when unset; evasion and proficiency read the system field, none when unset; percentages as stated for `Percentage`, a `null` value reading 0%; a trait reads the actor's score exactly when it has one; armor score falls back from the armor's value to `armorScore` |
| Conditions.IndexOf | scripts/main.js:208 | the first position of the item among the equipped weapons, or -1 exactly when absent |
| Conditions.EvaluateCondition | scripts/main.js:190-235 | `always` holds; a weapon condition holds for slot `any`, an unknown slot or a missing action item, and otherwise exactly when the item is the first (primary) or second (secondary) equipped weapon; a missing subject makes every other condition false; status holds exactly when the subject has it; an attribute condition holds exactly when the value exists and compares true under a known operator; every other condition type is false |
| Conditions.WeaponSlotsExclusive | scripts/main.js:202-212 | the primary and secondary weapon conditions never both hold for one action item |
| Selection.SelectedMembership | scripts/main.js:518-531 | an effect is applied exactly when it is the actor's own beneficial effect of the hook's family whose condition holds against the first target, or some target's non-beneficial one whose condition holds with the actor as its target; every applied effect is of the hook's family |
| Selection.NoTargetsOnlyOwn | scripts/main.js:515-523 | with no targets only the actor's own matching effects are applied, evaluated with no target |
| Selection.SideRulesAgree | scripts/main.js:520 | with no explicit side, a type that is not a derived stat and a set `beneficial`, the hooks' own-side rule agrees with `resolveApplyTo` |
| Selection.SideRulesDisagreeOnUnsetBeneficial | scripts/config.js:207-262 | a freshly created effect is "self" for `resolveApplyTo` but never the actor's own effect for the hooks |
| Selection.PushMatching | scripts/main.js:566-570 | one selection loop appends exactly the effects its filter keeps, in order |
| Selection.TargetSelectionIs | scripts/main.js:572-578 | one target's contribution is its resolved effects filtered by the incoming rule, with roles swapped |
| Selection.PushIncoming | scripts/main.js:572-579 | the nested target loop appends every target's contribution, in target order |
| Selection.CollectEffects | scripts/main.js:564-579 | the collected bonus effects are exactly the specified selection |
| Rolls.AfterRollEffect | scripts/main.js:535-547 | advantage sets ADVANTAGE; disadvantage sets DISADVANTAGE unless the mode is ADVANTAGE; other types keep the mode; only a non-zero roll bonus touches the modifiers, appending exactly one entry |
| Rolls.AfterRollEffectsConcat | scripts/main.js:518-530 | applying two runs of effects one after the other is applying their concatenation |
| Rolls.RollModeIsFinalMode | scripts/main.js:535-540 | after any sequence of effects the mode is ADVANTAGE exactly when it started so or some effect grants it, else DISADVANTAGE when some effect imposes it, else the starting mode |
| Rolls.RollModeOrderIndependent | scripts/main.js:535-540 | the final mode does not depend on the order of the effects |
| Rolls.ModifiersAppended | scripts/main.js:541-546 | after any sequence of effects, the base modifiers are the old ones followed by one entry per non-zero roll bonus, in order |
| Rolls.RollConfig.ApplyRollEffect | scripts/main.js:535-547 | the roll state becomes the specified single-effect result |
| Rolls.RollConfig.ApplyMatching | scripts/main.js:518-522 | the roll state becomes the result of the filtered effects, in order |
| Rolls.RollConfig.ApplyIncoming | scripts/main.js:524-530 | the roll state becomes the result of every target's incoming selection, in order |
| Rolls.RollConfig.OnPreRoll | scripts/main.js:510-531 | without a source actor or a roll nothing changes; otherwise the roll becomes the result of the whole selection |
| DamageBonus.MergeType | scripts/main.js:654-670 | the type is in the result; a Set stays a Set and every other shape becomes an array; the type occurs once if it was missing, and as often as before if present; other types keep their counts; the old types are a prefix of the new |
| DamageBonus.MergeTypeKeepsDistinct | scripts/main.js:654-670 | merging a type into distinct types leaves them distinct, so a Set's members stay unique |
| DamageBonus.MergeTypeIdempotent | scripts/main.js:654-670 | merging the same type twice is merging it once |
| DamageBonus.BonusFormula | scripts/main.js:625-630 | the formula is empty exactly when the dice are blank and the bonus is 0; with no bonus it is the trimmed dice; with no dice it is the bonus; with both it is the trimmed dice, " + " and the bonus |
| DamageBonus.PartAfterBonus | scripts/main.js:632-680 | a part not on hit points, whose types do not admit the effect's type, or met by an empty formula is unchanged; otherwise the extra formula becomes the bonus formula, or the old formula, " + " and the bonus formula; the types become the merge of a recorded damage type (present, at most once, others unchanged as `MergeType` states) and are unchanged for any other type |
| DamageBonus.EmptyBonusChangesNothing | scripts/main.js:628 | an effect with blank dice and zero bonus changes no part |
| DamageBonus.OtherPartsUntouched | scripts/main.js:633 | parts whose `applyTo` is not `hitPoints` are unchanged by any list of bonuses |
| DamageBonus.PartShapeKept | scripts/main.js:632-680 | every part keeps its `applyTo`, and a Set of types stays a Set |
| DamageBonus.RecordedTypeStays | scripts/main.js:654-670 | a damage type already on a part is never lost |
| DamageBonus.DamageConfig.UpdatePart | scripts/main.js:632-680 | one part is updated as `PartAfterBonus` specifies |
| DamageBonus.DamageConfig.ApplyToParts | scripts/main.js:632-680 | every part of the roll is updated for one effect; the pending list is kept |
| DamageBonus.DamageConfig.ApplyOneBonus | scripts/main.js:623-681 | one effect of the outer loop: an empty formula is skipped, otherwise every part is updated; the parts become `PartsAfterBonus` of the old parts and the pending list is kept |
| DamageBonus.DamageConfig.ApplyDamageBonusToFormulas | scripts/main.js:618-681 | with a roll and pending effects, the roll becomes the parts after every pending bonus in order; otherwise it is unchanged |
| DamageBonus.DamageConfig.OnPreDamageAction | scripts/main.js:558-582 | the roll is untouched; with an actor, a non-empty selection becomes the pending list, an empty one changes nothing |
| DamageBonus.DamageConfig.OnPreRollDamage | scripts/main.js:584-616 | without a roll nothing changes; pending bonuses are applied; otherwise the bonuses are selected from the source actor, recorded as pending and applied, or nothing changes when there are none |
| DerivedStats.BonusStepOnKeptValue | scripts/main.js:55-59 | if the host keeps the previous result, the step yields base plus bonus exactly when the bonus is non-zero or nothing positive was recorded, and otherwise keeps the old bonus |
| DerivedStats.BonusStepOnResetValue | scripts/main.js:55-59 | if the host resets to the base, the step yields base plus bonus exactly when nothing was recorded or there is no bonus now |
| DerivedStats.BonusStepOnResetSubtractsRecorded | scripts/main.js:55-59 | if the host resets to the base, the recorded bonus is subtracted whether or not it changed, unless a positive bonus has just fallen to zero; an unchanged non-zero bonus cancels itself out |
| DerivedStats.BonusStepIdempotent | scripts/main.js:55-59 | a second step with the same bonus over its own result changes nothing |
| DerivedStats.EvasionTotalOnlyDefenseBonuses | scripts/main.js:42-48 | effects that are not beneficial defense bonuses add nothing to evasion |
| DerivedStats.ThresholdTotalsOnlyReductions | scripts/main.js:81-87 | effects that are not beneficial damage reductions add nothing to the thresholds |
| DerivedStats.EvasionTotalConcat | scripts/main.js:42-48 | the evasion total over a list is the sum of the totals over its parts |
| DerivedStats.EvasionUpdateSpec | scripts/main.js:33-68 | an actor with no evasion key is left alone; otherwise the record's evasion becomes the total found and evasion becomes the step's value, an unset evasion counting as 0; nothing else about the actor or the record changes |
| DerivedStats.ThresholdsUnchangedWithoutBonus | scripts/main.js:89 | with both threshold sums zero neither the thresholds nor the record change |
| DerivedStats.EvasionUpdateIdempotent | scripts/main.js:33-68 | rerunning the evasion step on its own result changes nothing while the bonus found stays the same |
| DerivedStats.DerivedActor.SumDefenseBonuses | scripts/main.js:40-49 | the loop sums exactly the evasion total |
| DerivedStats.DerivedActor.SumThresholdBonuses | scripts/main.js:79-88 | the loop sums exactly the major and severe totals |
| DerivedStats.DerivedActor.ApplyEvasionBonus | scripts/main.js:33-68 | actor and record become the specified evasion update; the threshold records are kept |
| DerivedStats.DerivedActor.ApplyThresholdBonus | scripts/main.js:71-114 | actor and record become the specified threshold update; the evasion record is kept |
| DerivedStats.DerivedActor.PrepareDerivedData | scripts/main.js:24-31 | the evasion step is followed by the threshold step |
| Summaries.LabelOfSpec | scripts/config.js:653-749 | a label is found exactly when some table entry has the ID, and it is the first such entry's |
| Summaries.AttributeLabelsKnown | scripts/config.js:63-80 | every known attribute ID has a label |
| Summaries.SummarizeCondition | scripts/config.js:653-697 | a missing condition or an unknown type gives an em dash; `always` gives "Always"; the summary is never empty |
| Summaries.SubjectSummaryShape | scripts/config.js:657-696 | status and trigger summaries open with the subject and a colon |
| Summaries.AttributeSummaryShape | scripts/config.js:661-664 | attribute summaries open with the subject and end with the operator and the value |
| Summaries.ConditionSummaryShowsSubject | scripts/config.js:657-696 | conditions that differ only in their subject get different summaries |
| Summaries.RangeSummaryShape | scripts/config.js:665-674 | range summaries end with a dash and who must be in range |
| Summaries.RangeSummaryCount | scripts/config.js:665-674 | a range condition about friends or enemies shows their count, 1 when unset |
| Summaries.RangeSummaryDefaults | scripts/config.js:665-674 | with no mode and no subject a range summary reads "Within: <band> — Target" |
| Summaries.SummarizeEffect | scripts/config.js:699-749 | a missing effect or an unknown type gives an em dash; the summary is never empty |
| Summaries.BonusText | scripts/config.js:704-705 | the bonus text is empty exactly for 0, and otherwise reads back as the bonus |
| Summaries.DamageLine | scripts/config.js:701-708 | an empty amount shows as "0"; the line ends with the damage type's label and "dmg" |
| Summaries.DamageSummaryShape | scripts/config.js:701-708 | a damage bonus summary ends with the damage type's label |
| Summaries.DamageSummaryAmount | scripts/config.js:701-708 | a damage bonus with dice or a flat bonus opens with the trimmed dice followed by the signed bonus |
| Summaries.DiceFreeDamageSummary | scripts/config.js:701-708 | a damage bonus without dice shows its signed bonus, or "0" when the bonus is zero |
| Summaries.MultiplierSummaryShape | scripts/config.js:709-712 | a multiplier summary shows the factor, 2 when unset, and ends with "damage taken" |
| Summaries.AmountSummaries | scripts/config.js:727-733 | defense, proficiency and stress summaries, with the defaults 0, 1 and 1 of unset amounts |
| Summaries.RollSummaryShape | scripts/config.js:734-748 | roll summaries open with the bonus or the mode and carry qualifiers exactly when a trait or action filter is set |
| Summaries.EffectSummaryReadsBack | scripts/config.js:727-748 | the signed amounts in defense, proficiency and unqualified roll-bonus summaries read back as the effect's values |
| Summaries.DefaultEffectSummaries | scripts/config.js:214-262 | a freshly created effect reads "Always" and "0 Physical dmg" |

## Left out

- `scripts/debug.js`: it holds logging toggles, setting persistence and a dialog, and no effect logic.
- User interface: the manager, editor, viewer and palette windows, sheet injection and drag and drop.
- Host I/O is replaced by values:
  - Settings and flags (`game.settings`, `getFlag`/`setFlag`, `scene.update`) become the fields of `EffectStore` and `SceneStore`.
  - `fromUuidSync` and `game.user.targets` become actor and target parameters.
  - `foundry.utils.randomID` becomes an ID parameter.
  - A missing `game.settings` is not modelled.
- `foundry.utils.mergeObject` is modelled as top-level field replacement. Deep merges of nested records are not modelled.
- Dice-formula validation through `new Roll(...)` in the save handler is left out; it is a foreign call.
- `_onPostApplyDamage` is left out: its confirmation dialog and `toggleStatusEffect` are host side effects.
- Range geometry, trigger flags, duration and countdown tracking, chained effects and damage multipliers are left out. The evaluator never reads them; only their summary text is modelled.
- Conditions.RoundedPercent: rounds the exact rational value. The source divides in floating point first, so results can differ when a quotient lands within rounding error of a half.
- Numbers are unbounded integers:
  - fractional values, `NaN` and JavaScript's `Number(...)` coercions are not modelled;
  - a percentage whose `value` key is missing reads `NaN` in the source; it is modelled as none, which compares false as `NaN` does.
- JavaScript truthiness is modelled only where the code relies on it:
  - the `beneficial` flag is an optional boolean;
  - an absent or empty string is "".
- Items are compared as values, not by object identity. Two items that are equal in every field are the same weapon for the slot check.
- Console logging and the `try`/`catch` paths that only log are left out.
