/**
 * Passive stat bonuses applied after the host prepares an actor's derived
 * data, scripts/main.js `_applyEvasionBonus` and `_applyThresholdBonus`.
 * Each run records the bonus it applied (`_dceLastApplied`) so that the next
 * run can take it back out before adding the new one.
 */
module DerivedStats {
  import opened Wrappers
  import opened Definitions
  import opened Actors
  import opened Scope
  import opened Conditions
  import opened Selection

  /** `_dceLastApplied`: the bonuses added by the previous run. */
  datatype LastApplied = LastApplied(evasion: int, major: int, severe: int)

  /**
   * The value written back: the recorded bonus is taken out of `current`
   * and the new total added, except that with no bonus now and a positive
   * recorded one `current` is taken as the base as it is.
   */
  function BonusStep(current: int, prev: int, total: int): int {
    (if total == 0 && prev > 0 then current else current - prev) + total
  }

  /**
   * If the host leaves the previous result in place, the step yields the
   * base plus the new bonus unless a positive bonus has just gone away, in
   * which case the old bonus stays.
   */
  lemma BonusStepOnKeptValue(base: int, prev: int, total: int)
    ensures BonusStep(base + prev, prev, total) == base + total <==> total != 0 || prev <= 0
    ensures total == 0 && prev > 0 ==> BonusStep(base + prev, prev, total) == base + prev
  {
  }

  /**
   * If the host resets the stat to its base before every run, the step
   * yields the base plus the new bonus only when nothing was recorded or
   * when there is no bonus now.
   */
  lemma BonusStepOnResetValue(base: int, prev: int, total: int)
    ensures BonusStep(base, prev, total) == base + total <==> prev == 0 || (total == 0 && prev > 0)
  {
  }

  /**
   * If the host resets the stat to its base before every run, the recorded
   * bonus is taken out of the base whether or not it changed, unless a
   * positive bonus has just fallen to zero: an unchanged non-zero bonus
   * cancels itself out.
   */
  lemma BonusStepOnResetSubtractsRecorded(base: int, prev: int, total: int)
    requires !(total == 0 && prev > 0)
    ensures BonusStep(base, prev, total) == base - prev + total
    ensures total != 0 ==> BonusStep(base, total, total) == base
  {
  }

  /** A second run with the same bonus over its own result changes nothing. */
  lemma BonusStepIdempotent(current: int, prev: int, total: int)
    ensures BonusStep(BonusStep(current, prev, total), total, total) == BonusStep(current, prev, total)
  {
  }

  /** What one effect adds to evasion: beneficial defense bonuses whose condition holds with only the actor known. */
  function DefenseBonusOf(e: EffectDefinition, actor: Actor): int {
    if IsBeneficial(e) && e.effect.kind == DefenseBonus && EvaluateCondition(e.condition, EvalContext(actor, None, None))
    then e.effect.defenseBonus.GetOr(0)
    else 0
  }

  function EvasionTotal(es: seq<EffectDefinition>, actor: Actor): int {
    if es == [] then 0 else EvasionTotal(es[..|es| - 1], actor) + DefenseBonusOf(es[|es| - 1], actor)
  }

  /** Whether an effect counts towards the damage thresholds. */
  predicate IsThresholdEffect(e: EffectDefinition, actor: Actor) {
    IsBeneficial(e) && e.effect.kind == DamageReduction && EvaluateCondition(e.condition, EvalContext(actor, None, None))
  }

  function MajorTotal(es: seq<EffectDefinition>, actor: Actor): int {
    if es == [] then 0
    else
      var e := es[|es| - 1];
      MajorTotal(es[..|es| - 1], actor) + (if IsThresholdEffect(e, actor) then e.effect.thresholdMajor.GetOr(0) else 0)
  }

  function SevereTotal(es: seq<EffectDefinition>, actor: Actor): int {
    if es == [] then 0
    else
      var e := es[|es| - 1];
      SevereTotal(es[..|es| - 1], actor) + (if IsThresholdEffect(e, actor) then e.effect.thresholdSevere.GetOr(0) else 0)
  }

  /** Only beneficial defense bonuses count towards evasion. */
  lemma {:induction false} EvasionTotalOnlyDefenseBonuses(es: seq<EffectDefinition>, actor: Actor)
    requires forall e :: e in es ==> !IsBeneficial(e) || e.effect.kind != DefenseBonus
    ensures EvasionTotal(es, actor) == 0
  {
    if es != [] {
      assert es[|es| - 1] in es;
      EvasionTotalOnlyDefenseBonuses(es[..|es| - 1], actor);
    }
  }

  /** Only beneficial damage reductions count towards the thresholds. */
  lemma {:induction false} ThresholdTotalsOnlyReductions(es: seq<EffectDefinition>, actor: Actor)
    requires forall e :: e in es ==> !IsBeneficial(e) || e.effect.kind != DamageReduction
    ensures MajorTotal(es, actor) == 0 && SevereTotal(es, actor) == 0
  {
    if es != [] {
      assert es[|es| - 1] in es;
      ThresholdTotalsOnlyReductions(es[..|es| - 1], actor);
    }
  }

  /** The evasion total of a list is the sum of the totals of its parts. */
  lemma {:induction false} EvasionTotalConcat(a: seq<EffectDefinition>, b: seq<EffectDefinition>, actor: Actor)
    ensures EvasionTotal(a + b, actor) == EvasionTotal(a, actor) + EvasionTotal(b, actor)
  {
    if b == [] {
      assert a + b == a;
    } else {
      var init := b[..|b| - 1];
      EvasionTotalConcat(a, init, actor);
      assert (a + b)[..|a + b| - 1] == a + init;
      assert (a + b)[|a + b| - 1] == b[|b| - 1];
    }
  }

  /** The actor and record after `_applyEvasionBonus`. */
  function EvasionUpdated(world: World, actor: Actor, last: LastApplied): (Actor, LastApplied) {
    if actor.system.evasion.MissingField? then (actor, last)
    else
      var total := EvasionTotal(ResolvedEffects(world, Some(actor)), actor);
      var current := actor.system.evasion.value.GetOr(0);
      (actor.(system := actor.system.(evasion := PresentField(Some(BonusStep(current, last.evasion, total))))),
       last.(evasion := total))
  }

  /** The actor and record after `_applyThresholdBonus`. */
  function ThresholdsUpdated(world: World, actor: Actor, last: LastApplied): (Actor, LastApplied) {
    if actor.system.damageThresholds.None? then (actor, last)
    else
      var es := ResolvedEffects(world, Some(actor));
      var major := MajorTotal(es, actor);
      var severe := SevereTotal(es, actor);
      if major == 0 && severe == 0 then (actor, last)
      else
        var th := actor.system.damageThresholds.value;
        (actor.(system := actor.system.(damageThresholds := Some(Thresholds(
           BonusStep(th.major, last.major, major), BonusStep(th.severe, last.severe, severe))))),
         last.(major := major, severe := severe))
  }

  /**
   * Running the evasion step again on its own result changes nothing, as
   * long as the bonus it finds is the same.
   */
  lemma EvasionUpdateIdempotent(world: World, actor: Actor, last: LastApplied)
    requires var (a1, _) := EvasionUpdated(world, actor, last);
             EvasionTotal(ResolvedEffects(world, Some(a1)), a1) == EvasionTotal(ResolvedEffects(world, Some(actor)), actor)
    ensures var (a1, l1) := EvasionUpdated(world, actor, last);
            EvasionUpdated(world, a1, l1) == (a1, l1)
  {
    if actor.system.evasion.PresentField? {
      var total := EvasionTotal(ResolvedEffects(world, Some(actor)), actor);
      BonusStepIdempotent(actor.system.evasion.value.GetOr(0), last.evasion, total);
    }
  }

  /**
   * The evasion step records the total it found and writes only evasion:
   * the rest of the actor and the threshold records stay as they were. An
   * actor whose system has no evasion key is left alone; an unset evasion
   * value counts as 0 and is then written.
   */
  lemma EvasionUpdateSpec(world: World, actor: Actor, last: LastApplied)
    ensures var (a1, l1) := EvasionUpdated(world, actor, last);
            && (actor.system.evasion.MissingField? ==> a1 == actor && l1 == last)
            && a1 == actor.(system := actor.system.(evasion := a1.system.evasion))
            && l1 == last.(evasion := l1.evasion)
            && (actor.system.evasion.PresentField? ==>
                  l1.evasion == EvasionTotal(ResolvedEffects(world, Some(actor)), actor)
                  && a1.system.evasion == PresentField(Some(BonusStep(actor.system.evasion.value.GetOr(0), last.evasion, l1.evasion))))
  {
  }

  /** With no threshold bonus at all, the threshold step changes neither the thresholds nor the record. */
  lemma ThresholdsUnchangedWithoutBonus(world: World, actor: Actor, last: LastApplied)
    requires MajorTotal(ResolvedEffects(world, Some(actor)), actor) == 0
    requires SevereTotal(ResolvedEffects(world, Some(actor)), actor) == 0
    ensures ThresholdsUpdated(world, actor, last) == (actor, last)
  {
  }

  /** An actor whose derived data is being prepared, with its `_dceLastApplied` record. */
  class DerivedActor {
    var actor: Actor
    var lastApplied: LastApplied

    constructor (actor: Actor)
      ensures this.actor == actor && lastApplied == LastApplied(0, 0, 0)
    {
      this.actor := actor;
      lastApplied := LastApplied(0, 0, 0);
    }

    /** The loop of `_applyEvasionBonus` adding up the defense bonuses. */
    static method SumDefenseBonuses(effects: seq<EffectDefinition>, actor: Actor) returns (totalBonus: int)
      ensures totalBonus == EvasionTotal(effects, actor)
    {
      totalBonus := 0;
      for k := 0 to |effects|
        invariant totalBonus == EvasionTotal(effects[..k], actor)
      {
        assert effects[..k + 1][..k] == effects[..k];
        var effect := effects[k];
        if IsBeneficial(effect) && effect.effect.kind == DefenseBonus
           && EvaluateCondition(effect.condition, EvalContext(actor, None, None)) {
          var bonus := effect.effect.defenseBonus.GetOr(0);
          if bonus != 0 {
            totalBonus := totalBonus + bonus;
          }
        }
      }
      assert effects[..|effects|] == effects;
    }

    /** The loop of `_applyThresholdBonus` adding up the threshold bonuses. */
    static method SumThresholdBonuses(effects: seq<EffectDefinition>, actor: Actor) returns (majorBonus: int, severeBonus: int)
      ensures majorBonus == MajorTotal(effects, actor) && severeBonus == SevereTotal(effects, actor)
    {
      majorBonus, severeBonus := 0, 0;
      for k := 0 to |effects|
        invariant majorBonus == MajorTotal(effects[..k], actor)
        invariant severeBonus == SevereTotal(effects[..k], actor)
      {
        assert effects[..k + 1][..k] == effects[..k];
        var effect := effects[k];
        if IsBeneficial(effect) && effect.effect.kind == DamageReduction
           && EvaluateCondition(effect.condition, EvalContext(actor, None, None)) {
          majorBonus := majorBonus + effect.effect.thresholdMajor.GetOr(0);
          severeBonus := severeBonus + effect.effect.thresholdSevere.GetOr(0);
        }
      }
      assert effects[..|effects|] == effects;
    }

    /** `_applyEvasionBonus`. */
    method ApplyEvasionBonus(world: World)
      modifies this
      ensures (actor, lastApplied) == EvasionUpdated(world, old(actor), old(lastApplied))
      ensures lastApplied.major == old(lastApplied).major && lastApplied.severe == old(lastApplied).severe
    {
      if actor.system.evasion.MissingField? {
        return;
      }
      var effects := GetActorConditionalEffects(world, Some(actor));
      var totalBonus := SumDefenseBonuses(effects, actor);
      var prev := lastApplied.evasion;
      var current := actor.system.evasion.value.GetOr(0);
      var base := if totalBonus == 0 && prev > 0 then current else current - prev;
      actor := actor.(system := actor.system.(evasion := PresentField(Some(base + totalBonus))));
      lastApplied := lastApplied.(evasion := totalBonus);
    }

    /** `_applyThresholdBonus`. */
    method ApplyThresholdBonus(world: World)
      modifies this
      ensures (actor, lastApplied) == ThresholdsUpdated(world, old(actor), old(lastApplied))
      ensures lastApplied.evasion == old(lastApplied).evasion
    {
      if actor.system.damageThresholds.None? {
        return;
      }
      var effects := GetActorConditionalEffects(world, Some(actor));
      var majorBonus, severeBonus := SumThresholdBonuses(effects, actor);
      if majorBonus != 0 || severeBonus != 0 {
        var th := actor.system.damageThresholds.value;
        var prevMajor := lastApplied.major;
        var baseMajor := if majorBonus == 0 && prevMajor > 0 then th.major else th.major - prevMajor;
        var prevSevere := lastApplied.severe;
        var baseSevere := if severeBonus == 0 && prevSevere > 0 then th.severe else th.severe - prevSevere;
        actor := actor.(system := actor.system.(damageThresholds := Some(Thresholds(baseMajor + majorBonus, baseSevere + severeBonus))));
        lastApplied := lastApplied.(major := majorBonus, severe := severeBonus);
      }
    }

    /** The wrapped `prepareDerivedData`, after the host's own: evasion first, then the thresholds. */
    method PrepareDerivedData(world: World)
      modifies this
      ensures var (a1, l1) := EvasionUpdated(world, old(actor), old(lastApplied));
              (actor, lastApplied) == ThresholdsUpdated(world, a1, l1)
    {
      ApplyEvasionBonus(world);
      ApplyThresholdBonus(world);
    }
  }
}
