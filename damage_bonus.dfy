/**
 * Damage bonuses, scripts/main.js `_onPreDamageAction`, `_onPreRollDamage`
 * and `_applyDamageBonusToFormulas`: each selected damage bonus adds its
 * dice and flat bonus to the extra formula of every hit-point damage part it
 * applies to, and records its damage type on that part.
 */
module DamageBonus {
  import opened Wrappers
  import opened Strings
  import opened Sequences
  import opened Definitions
  import opened Actors
  import opened Scope
  import opened Selection

  /**
   * A part's `damageTypes` in the shapes the source accepts: a `Set` (in
   * insertion order), an array, a plain object (its entries in order), or
   * anything else. A `Set`'s members are distinct in the host; the model does
   * not enforce it, but `MergeTypeKeepsDistinct` shows a merge keeps distinct
   * members distinct.
   */
  datatype TypeCollection =
    | TypeSet(members: seq<string>)
    | TypeList(items: seq<string>)
    | TypeRecord(entries: seq<(string, string)>)
    | NoTypes

  /** One entry of `config.roll`; `extraFormula` is "" while unset. */
  datatype DamagePart = DamagePart(applyTo: string, damageTypes: TypeCollection, extraFormula: string)

  function Values(entries: seq<(string, string)>): (r: seq<string>)
    ensures |r| == |entries|
  {
    if entries == [] then [] else [entries[0].1] + Values(entries[1..])
  }

  /** The `types` list the source reads off a part. */
  function TypesOf(c: TypeCollection): seq<string> {
    match c
    case TypeSet(m) => m
    case TypeList(l) => l
    case TypeRecord(entries) => Values(entries)
    case NoTypes => []
  }

  /** The damage types that apply to any part. */
  predicate IsBroadType(t: string) {
    t == "any" || t == "primaryWeapon" || t == "secondaryWeapon" || t == "physical" || t == "magical"
  }

  predicate Applies(t: string, types: seq<string>) {
    IsBroadType(t) || t in types || |types| == 0
  }

  /** Damage types that get recorded on the part: set, and none of the weapon-wide ones. */
  predicate IsRecordedType(t: string) {
    t != "" && t != "any" && t != "primaryWeapon" && t != "secondaryWeapon"
  }

  /**
   * The merge of `t` into a part's types: added once at the end if missing,
   * a `Set` stays a `Set`, every other shape becomes an array.
   */
  function MergeType(c: TypeCollection, t: string): (r: TypeCollection)
    ensures t in TypesOf(r)
    ensures r.TypeSet? <==> c.TypeSet?
    ensures !c.TypeSet? ==> r.TypeList?
    ensures multiset(TypesOf(r))[t] == (if t in TypesOf(c) then multiset(TypesOf(c))[t] else 1)
    ensures forall x :: x != t ==> multiset(TypesOf(r))[x] == multiset(TypesOf(c))[x]
    ensures |TypesOf(c)| <= |TypesOf(r)| && TypesOf(r)[..|TypesOf(c)|] == TypesOf(c)
  {
    var current := TypesOf(c);
    var merged := if t in current then current else current + [t];
    assert merged[..|current|] == current;
    if c.TypeSet? then TypeSet(merged) else TypeList(merged)
  }

  /** Merging a type keeps distinct types distinct, as a `Set` requires. */
  lemma MergeTypeKeepsDistinct(c: TypeCollection, t: string)
    requires NoDuplicates(TypesOf(c))
    ensures NoDuplicates(TypesOf(MergeType(c, t)))
  {
  }

  lemma MergeTypeIdempotent(c: TypeCollection, t: string)
    ensures MergeType(MergeType(c, t), t) == MergeType(c, t)
  {
  }

  /** `parts.join(' + ')` of the trimmed dice and the non-zero flat bonus. */
  function BonusFormula(eff: Effect): (f: string)
    ensures f == "" <==> Trim(eff.dice) == "" && eff.bonus == 0
    ensures eff.bonus == 0 ==> f == Trim(eff.dice)
    ensures Trim(eff.dice) == "" ==> f == (if eff.bonus == 0 then "" else IntToString(eff.bonus))
    ensures Trim(eff.dice) != "" && eff.bonus != 0 ==> f == Trim(eff.dice) + " + " + IntToString(eff.bonus)
  {
    var dice := Trim(eff.dice);
    var parts := (if dice != "" then [dice] else []) + (if eff.bonus != 0 then [IntToString(eff.bonus)] else []);
    assert dice != "" && eff.bonus != 0 ==>
      parts == [dice, IntToString(eff.bonus)] && parts[1..] == [IntToString(eff.bonus)]
      && Join(parts, " + ") == parts[0] + " + " + Join(parts[1..], " + ")
      && Join(parts[1..], " + ") == IntToString(eff.bonus);
    Join(parts, " + ")
  }

  /** What one effect does to one part. */
  function PartAfterBonus(part: DamagePart, eff: Effect): (r: DamagePart)
    ensures r.applyTo == part.applyTo
    ensures BonusFormula(eff) == "" || part.applyTo != "hitPoints" || !Applies(eff.damageType, TypesOf(part.damageTypes))
            ==> r == part
    ensures BonusFormula(eff) != "" && part.applyTo == "hitPoints" && Applies(eff.damageType, TypesOf(part.damageTypes)) ==>
              && |part.extraFormula| + |BonusFormula(eff)| <= |r.extraFormula|
              && r.extraFormula[..|part.extraFormula|] == part.extraFormula
              && r.extraFormula[|r.extraFormula| - |BonusFormula(eff)|..] == BonusFormula(eff)
              && r.extraFormula == (if part.extraFormula == "" then BonusFormula(eff)
                                    else part.extraFormula + " + " + BonusFormula(eff))
              && r.damageTypes == (if IsRecordedType(eff.damageType) then MergeType(part.damageTypes, eff.damageType)
                                   else part.damageTypes)
              && (IsRecordedType(eff.damageType) ==> eff.damageType in TypesOf(r.damageTypes))
    ensures r.damageTypes.TypeSet? <==> part.damageTypes.TypeSet?
  {
    var f := BonusFormula(eff);
    if f == "" || part.applyTo != "hitPoints" || !Applies(eff.damageType, TypesOf(part.damageTypes)) then part
    else
      var types := if IsRecordedType(eff.damageType) then MergeType(part.damageTypes, eff.damageType) else part.damageTypes;
      var extra := if part.extraFormula != "" then part.extraFormula + " + " + f else f;
      DamagePart(part.applyTo, types, extra)
  }

  function PartsAfterBonus(parts: seq<DamagePart>, eff: Effect): (r: seq<DamagePart>)
    ensures |r| == |parts|
  {
    seq(|parts|, i requires 0 <= i < |parts| => PartAfterBonus(parts[i], eff))
  }

  /** The roll's parts after every pending effect, in order. */
  function PartsAfterBonuses(parts: seq<DamagePart>, effs: seq<EffectDefinition>): (r: seq<DamagePart>)
    ensures |r| == |parts|
  {
    if effs == [] then parts
    else PartsAfterBonus(PartsAfterBonuses(parts, effs[..|effs| - 1]), effs[|effs| - 1].effect)
  }

  /** An effect with neither dice nor a flat bonus changes nothing. */
  lemma EmptyBonusChangesNothing(parts: seq<DamagePart>, eff: Effect)
    requires Trim(eff.dice) == "" && eff.bonus == 0
    ensures PartsAfterBonus(parts, eff) == parts
  {
  }

  /** Parts that do not damage hit points are never touched. */
  lemma {:induction false} OtherPartsUntouched(parts: seq<DamagePart>, effs: seq<EffectDefinition>, i: nat)
    requires i < |parts| && parts[i].applyTo != "hitPoints"
    ensures PartsAfterBonuses(parts, effs)[i] == parts[i]
  {
    if effs != [] {
      OtherPartsUntouched(parts, effs[..|effs| - 1], i);
    }
  }

  /** Every part keeps its `applyTo`, and a `Set` of damage types stays a `Set`. */
  lemma {:induction false} PartShapeKept(parts: seq<DamagePart>, effs: seq<EffectDefinition>, i: nat)
    requires i < |parts|
    ensures PartsAfterBonuses(parts, effs)[i].applyTo == parts[i].applyTo
    ensures PartsAfterBonuses(parts, effs)[i].damageTypes.TypeSet? <==> parts[i].damageTypes.TypeSet?
  {
    if effs != [] {
      PartShapeKept(parts, effs[..|effs| - 1], i);
    }
  }

  /** A recorded damage type stays recorded on the part through later effects. */
  lemma {:induction false} RecordedTypeStays(parts: seq<DamagePart>, effs: seq<EffectDefinition>, i: nat, t: string)
    requires i < |parts| && t in TypesOf(parts[i].damageTypes)
    ensures t in TypesOf(PartsAfterBonuses(parts, effs)[i].damageTypes)
  {
    if effs != [] {
      RecordedTypeStays(parts, effs[..|effs| - 1], i, t);
      var before := PartsAfterBonuses(parts, effs[..|effs| - 1])[i];
      var eff := effs[|effs| - 1].effect;
      if IsRecordedType(eff.damageType) {
        var c := before.damageTypes;
        var r := MergeType(c, eff.damageType);
        assert TypesOf(r)[..|TypesOf(c)|] == TypesOf(c);
        var j :| 0 <= j < |TypesOf(c)| && TypesOf(c)[j] == t;
        assert TypesOf(r)[j] == t;
      }
    }
  }

  /** The `config` of the damage hooks. */
  class DamageConfig {
    /** `config.roll` when it is an array of parts. */
    var roll: Option<seq<DamagePart>>
    /** `config._dcePendingDamageEffects`. */
    var pending: Option<seq<EffectDefinition>>

    constructor (roll: Option<seq<DamagePart>>, pending: Option<seq<EffectDefinition>>)
      ensures this.roll == roll && this.pending == pending
    {
      this.roll := roll;
      this.pending := pending;
    }

    /** The body of the inner loop of `_applyDamageBonusToFormulas`, for one part. */
    static method UpdatePart(part: DamagePart, eff: Effect, bonusFormula: string) returns (r: DamagePart)
      requires bonusFormula == BonusFormula(eff) && bonusFormula != ""
      ensures r == PartAfterBonus(part, eff)
    {
      r := part;
      if part.applyTo != "hitPoints" {
        return;
      }
      var types := TypesOf(part.damageTypes);
      var applies := eff.damageType == "any" || eff.damageType == "primaryWeapon"
        || eff.damageType == "secondaryWeapon" || eff.damageType == "physical"
        || eff.damageType == "magical" || eff.damageType in types || |types| == 0;
      if !applies {
        return;
      }
      if eff.damageType != "" && eff.damageType != "any" && eff.damageType != "primaryWeapon"
         && eff.damageType != "secondaryWeapon" {
        r := r.(damageTypes := MergeType(part.damageTypes, eff.damageType));
      }
      r := r.(extraFormula := if part.extraFormula != "" then part.extraFormula + " + " + bonusFormula else bonusFormula);
    }

    /** The inner loop of `_applyDamageBonusToFormulas`, over the parts, for one effect. */
    method ApplyToParts(eff: Effect, bonusFormula: string)
      requires roll.Some? && bonusFormula == BonusFormula(eff) && bonusFormula != ""
      modifies this
      ensures pending == old(pending)
      ensures roll == Some(PartsAfterBonus(old(roll).value, eff))
    {
      ghost var before := roll.value;
      var n := |roll.value|;
      for i := 0 to n
        invariant roll.Some? && |roll.value| == n && pending == old(pending)
        invariant forall j :: 0 <= j < i ==> roll.value[j] == PartAfterBonus(before[j], eff)
        invariant forall j :: i <= j < n ==> roll.value[j] == before[j]
      {
        var part := UpdatePart(roll.value[i], eff, bonusFormula);
        roll := Some(roll.value[i := part]);
      }
      assert roll.value == PartsAfterBonus(before, eff);
    }

    /**
     * One pass of `_applyDamageBonusToFormulas`'s outer loop: the effect's
     * formula is added to the parts when it is not empty.
     */
    method ApplyOneBonus(eff: Effect)
      requires roll.Some?
      modifies this
      ensures pending == old(pending)
      ensures roll == Some(PartsAfterBonus(old(roll).value, eff))
    {
      var bonusFormula := BonusFormula(eff);
      if bonusFormula != "" {
        ApplyToParts(eff, bonusFormula);
      } else {
        EmptyBonusChangesNothing(roll.value, eff);
      }
    }

    /** `_applyDamageBonusToFormulas`: nothing unless effects are pending and the roll is an array. */
    method ApplyDamageBonusToFormulas()
      modifies this
      ensures pending == old(pending)
      ensures roll == (if old(roll).Some? && pending.Some? then Some(PartsAfterBonuses(old(roll).value, pending.value)) else old(roll))
    {
      if pending.None? || |pending.value| == 0 || roll.None? {
        return;
      }
      var bonusEffects := pending.value;
      ghost var start := roll.value;
      for k := 0 to |bonusEffects|
        invariant pending == old(pending) && roll.Some?
        invariant roll.value == PartsAfterBonuses(start, bonusEffects[..k])
      {
        assert bonusEffects[..k + 1][..k] == bonusEffects[..k];
        ApplyOneBonus(bonusEffects[k].effect);
      }
      assert bonusEffects[..|bonusEffects|] == bonusEffects;
    }

    /**
     * `_onPreDamageAction`: with an acting actor, the selected damage bonuses
     * become pending when there are any; the roll is not touched.
     */
    method OnPreDamageAction(world: World, actor: Option<Actor>, targets: seq<Actor>, item: Option<Item>)
      modifies this
      ensures roll == old(roll)
      ensures actor.None? ==> pending == old(pending)
      ensures actor.Some? ==>
                var selected := SelectedEffects(world, actor.value, targets, item, DamageBonusFamily);
                pending == (if |selected| == 0 then old(pending) else Some(selected))
    {
      if actor.None? {
        return;
      }
      var bonusEffects := CollectEffects(world, actor.value, targets, item, DamageBonusFamily);
      if |bonusEffects| == 0 {
        return;
      }
      pending := Some(bonusEffects);
    }

    /**
     * `_onPreRollDamage`: pending bonuses are applied as they are; without
     * them the bonuses are selected again from the roll's source actor.
     */
    method OnPreRollDamage(world: World, source: Option<Actor>, targets: seq<Actor>, item: Option<Item>)
      modifies this
      ensures old(roll).None? ==> roll == old(roll) && pending == old(pending)
      ensures old(roll).Some? && old(pending).Some? ==>
                pending == old(pending) && roll == Some(PartsAfterBonuses(old(roll).value, old(pending).value))
      ensures old(roll).Some? && old(pending).None? && source.None? ==> roll == old(roll) && pending == old(pending)
      ensures old(roll).Some? && old(pending).None? && source.Some? ==>
                var selected := SelectedEffects(world, source.value, targets, item, DamageBonusFamily);
                if |selected| == 0 then roll == old(roll) && pending == old(pending)
                else pending == Some(selected) && roll == Some(PartsAfterBonuses(old(roll).value, selected))
    {
      if roll.None? {
        return;
      }
      if pending.Some? {
        ApplyDamageBonusToFormulas();
        return;
      }
      if source.None? {
        return;
      }
      var bonusEffects := CollectEffects(world, source.value, targets, item, DamageBonusFamily);
      if |bonusEffects| == 0 {
        return;
      }
      pending := Some(bonusEffects);
      ApplyDamageBonusToFormulas();
    }
  }
}
