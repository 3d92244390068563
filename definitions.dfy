/**
 * The effect catalog's data model (scripts/config.js): conditional effect
 * definitions, the scene's override flags, and the catalog-level rules that
 * read them: which side an effect applies to, whether it is active in the
 * current scene, the defaults a new effect starts from, and the duration fix
 * applied when an edited effect is saved.
 */
module Definitions {
  import opened Wrappers
  import opened Sequences

  /** `condition.subject`: anything other than "target" means the effect's holder. */
  datatype Subject = SelfSubject | TargetSubject

  datatype Trait = Agility | Strength | Finesse | Instinct | Presence | Knowledge

  /**
   * The attribute IDs of the attribute condition; any other ID reads as no
   * value. `UnknownAttribute` only ever holds a string that is not one of the
   * listed IDs: a known ID is always written with its own constructor. The
   * same convention holds for `UnknownOperator`, `UnknownCondition` and
   * `UnknownEffect` below.
   */
  datatype AttributeId =
    | Hope | HopePct | Stress | StressPct
    | HitPoints | HitPointsMax | HitPointsPct
    | Evasion | Proficiency | ArmorScore
    | TraitScore(which: Trait)
    | UnknownAttribute(id: string)

  /** The comparison operators `>=`, `<=`, `==`, `>`, `<`, and any other text. */
  datatype Operator = AtLeast | AtMost | EqualTo | GreaterThan | LessThan | UnknownOperator(text: string)

  /** `condition.type`: the declared condition types, and any other string. */
  datatype ConditionType =
    | AlwaysCondition | StatusCondition | AttributeCondition | RangeCondition
    | WeaponCondition | DamageTypeCondition
    | TookThreshold | InflictedThreshold | RolledFear | RolledCritical
    | SpentHope | ArmorSlotMarked | NoArmorRemaining
    | UnknownCondition(name: string)

  /** `effect.type`: the declared effect types, and any other string. */
  datatype EffectType =
    | DamageBonus | DamageMultiplier | DamageReduction | DefenseBonus | ProficiencyBonus
    | StatusOnHit | StressOnHit | ApplyStatus
    | RollBonus | Advantage | Disadvantage
    | UnknownEffect(name: string)

  /**
   * A condition record. As in the source, every record carries every field;
   * `kind` decides which of them are read. Absent optional fields are `None`;
   * identifiers looked up in label tables stay strings.
   */
  datatype Condition = Condition(
    kind: ConditionType,
    subject: Subject,
    status: string,
    attribute: AttributeId,
    operator: Operator,
    value: int,
    range: string,
    rangeMode: Option<string>,
    rangeSubject: Option<string>,
    rangeCount: Option<int>,
    weaponSlot: string,
    incomingDamageType: string,
    threshold: string)

  /** An effect (modifier) record; `applyTo` and `damageType` use "" for an absent or empty value. */
  datatype Effect = Effect(
    kind: EffectType,
    applyTo: string,
    damageType: string,
    incomingDamageType: Option<string>,
    dice: string,
    bonus: int,
    rollBonus: int,
    thresholdMajor: Option<int>,
    thresholdSevere: Option<int>,
    defenseBonus: Option<int>,
    statusToApply: string,
    applyStatus: string,
    damageMultiplier: Option<int>,
    traitFilter: string,
    actionTypeFilter: string,
    proficiencyBonus: Option<int>,
    stressAmount: Option<int>,
    chainEffectIds: seq<string>)

  datatype Duration = Duration(mode: string, uses: int, countdownTicks: int, countdownTickOn: string)

  /** A catalog entry. `beneficial` is the legacy side flag; new entries do not set it. */
  datatype EffectDefinition = EffectDefinition(
    id: string,
    name: string,
    description: string,
    enabled: bool,
    beneficial: Option<bool>,
    duration: Duration,
    condition: Condition,
    effect: Effect)

  /**
   * The active scene's flags: the force-disabled IDs, the legacy per-effect
   * on/off overrides, and the scene-wide toggle lists for player characters
   * and adversaries. An unset flag is an empty list or map.
   */
  datatype SceneFlags = SceneFlags(
    disabled: seq<string>,
    overrides: map<string, bool>,
    pcToggles: seq<string>,
    npcToggles: seq<string>)

  /** No two catalog entries share an ID. */
  ghost predicate UniqueIds(s: seq<EffectDefinition>) {
    forall i, j :: 0 <= i < j < |s| ==> s[i].id != s[j].id
  }

  lemma {:induction false} FilterKeepsUniqueIds(s: seq<EffectDefinition>, p: EffectDefinition -> bool)
    requires UniqueIds(s)
    ensures UniqueIds(Filter(s, p))
  {
    if s != [] {
      FilterKeepsUniqueIds(s[1..], p);
      var tail := Filter(s[1..], p);
      forall y | y in tail
        ensures y.id != s[0].id
      {
        var k :| 0 <= k < |s[1..]| && s[1..][k] == y;
        assert s[k + 1] == y;
      }
      var r := Filter(s, p);
      if p(s[0]) {
        assert r == [s[0]] + tail;
        forall i, j | 0 <= i < j < |r|
          ensures r[i].id != r[j].id
        {
          assert r[j] == tail[j - 1];
          if i > 0 {
            assert r[i] == tail[i - 1];
          }
        }
      } else {
        assert r == tail;
      }
    }
  }

  /** The effect types main.js turns into persistent actor-data bonuses. */
  predicate IsDerivedStatType(k: EffectType) {
    k == DefenseBonus || k == DamageReduction || k == ProficiencyBonus
  }

  /**
   * `resolveApplyTo`: an explicit `applyTo` wins; otherwise derived-stat
   * bonuses are "self", and the rest follow the legacy `beneficial` flag,
   * where only an explicit `false` means "incoming".
   */
  function ResolveApplyTo(ce: EffectDefinition): (r: string)
    ensures ce.effect.applyTo != "" ==> r == ce.effect.applyTo
    ensures ce.effect.applyTo == "" ==> r == "self" || r == "incoming"
    ensures ce.effect.applyTo == "" && IsDerivedStatType(ce.effect.kind) ==> r == "self"
    ensures ce.effect.applyTo == "" && !IsDerivedStatType(ce.effect.kind) ==>
              (r == "incoming" <==> ce.beneficial == Some(false))
  {
    if ce.effect.applyTo != "" then ce.effect.applyTo
    else if IsDerivedStatType(ce.effect.kind) then "self"
    else if ce.beneficial != Some(false) then "self"
    else "incoming"
  }

  /** `getSceneDisabled()`: empty when there is no active scene. */
  function SceneDisabled(scene: Option<SceneFlags>): seq<string> {
    if scene.Some? then scene.value.disabled else []
  }

  /** `getSceneOverrides()`: empty when there is no active scene. */
  function SceneOverrides(scene: Option<SceneFlags>): map<string, bool> {
    if scene.Some? then scene.value.overrides else map[]
  }

  /** `getPcToggles()`: empty when there is no active scene. */
  function PcToggles(scene: Option<SceneFlags>): seq<string> {
    if scene.Some? then scene.value.pcToggles else []
  }

  /**
   * `isEffectActive`: a scene force-disable wins over everything, then a
   * legacy override decides, and only then the effect's own `enabled` flag.
   */
  function IsEffectActive(e: EffectDefinition, scene: Option<SceneFlags>): (r: bool)
    ensures e.id in SceneDisabled(scene) ==> !r
    ensures e.id !in SceneDisabled(scene) && e.id in SceneOverrides(scene) ==> r == SceneOverrides(scene)[e.id]
    ensures e.id !in SceneDisabled(scene) && e.id !in SceneOverrides(scene) ==> r == e.enabled
    ensures r ==> e.id !in SceneDisabled(scene) && (e.enabled || e.id in SceneOverrides(scene))
  {
    if e.id in SceneDisabled(scene) then false
    else if e.id in SceneOverrides(scene) then SceneOverrides(scene)[e.id]
    else e.enabled
  }

  /** `defaultEffect()`, with the random ID supplied by the caller. */
  function DefaultEffect(id: string): EffectDefinition {
    EffectDefinition(
      id, "New Conditional Effect", "", true, None,
      Duration("permanent", 1, 3, "round_start"),
      Condition(AlwaysCondition, TargetSubject, "vulnerable", Hope, AtLeast, 1,
                "close", Some("within"), Some("target"), Some(1), "any", "any", "major"),
      Effect(DamageBonus, "self", "physical", Some("any"), "", 0, 0, Some(0), Some(0), Some(0),
             "vulnerable", "vulnerable", Some(2), "any", "any", Some(1), Some(1), []))
  }

  /**
   * The save handler's duration fix: an `apply_status` effect with a
   * non-empty duration mode other than "permanent" is saved as "permanent";
   * nothing else about the submitted effect changes.
   */
  function SubmittedEffect(raw: EffectDefinition): (r: EffectDefinition)
    ensures raw.effect.kind == ApplyStatus && raw.duration.mode != "" ==> r.duration.mode == "permanent"
    ensures raw.effect.kind != ApplyStatus || raw.duration.mode == "" ==> r == raw
    ensures r == raw.(duration := raw.duration.(mode := r.duration.mode))
  {
    if raw.effect.kind == ApplyStatus && raw.duration.mode != "" && raw.duration.mode != "permanent"
    then raw.(duration := raw.duration.(mode := "permanent"))
    else raw
  }

  /** Saving twice is saving once. */
  lemma SubmittedEffectIdempotent(raw: EffectDefinition)
    ensures SubmittedEffect(SubmittedEffect(raw)) == SubmittedEffect(raw)
  {
  }
}
