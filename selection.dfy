/**
 * How the roll and damage hooks of scripts/main.js pick effects: the
 * rolling actor's own beneficial effects whose condition holds against the
 * first target, then, for every target, that target's non-beneficial
 * effects whose condition holds against the rolling actor.
 */
module Selection {
  import opened Wrappers
  import opened Sequences
  import opened Definitions
  import opened Actors
  import opened Scope
  import opened Conditions

  /** The effect types one hook is interested in. */
  datatype Family = RollFamily | DamageBonusFamily

  /** `_isRollType` for the roll hook, `type === 'damage_bonus'` for the damage hooks. */
  predicate InFamily(k: EffectType, f: Family) {
    match f
    case RollFamily => k == RollBonus || k == Advantage || k == Disadvantage
    case DamageBonusFamily => k == DamageBonus
  }

  /** `effect.beneficial` is truthy only when it is `true`. */
  predicate IsBeneficial(e: EffectDefinition) {
    e.beneficial == Some(true)
  }

  predicate IsOwnPick(e: EffectDefinition, f: Family, ctx: EvalContext) {
    IsBeneficial(e) && InFamily(e.effect.kind, f) && EvaluateCondition(e.condition, ctx)
  }

  predicate IsIncomingPick(e: EffectDefinition, f: Family, ctx: EvalContext) {
    !IsBeneficial(e) && InFamily(e.effect.kind, f) && EvaluateCondition(e.condition, ctx)
  }

  function OwnPick(f: Family, ctx: EvalContext): EffectDefinition -> bool {
    (e: EffectDefinition) => IsOwnPick(e, f, ctx)
  }

  function IncomingPick(f: Family, ctx: EvalContext): EffectDefinition -> bool {
    (e: EffectDefinition) => IsIncomingPick(e, f, ctx)
  }

  /** `targetActors[0] ?? null`. */
  function FirstTarget(targets: seq<Actor>): Option<Actor> {
    if |targets| > 0 then Some(targets[0]) else None
  }

  function OwnSelected(world: World, actor: Actor, targets: seq<Actor>, item: Option<Item>, f: Family): seq<EffectDefinition> {
    Filter(ResolvedEffects(world, Some(actor)), OwnPick(f, EvalContext(actor, FirstTarget(targets), item)))
  }

  function TargetSelected(world: World, actor: Actor, target: Actor, item: Option<Item>, f: Family): seq<EffectDefinition> {
    Filter(ResolvedEffects(world, Some(target)), IncomingPick(f, EvalContext(target, Some(actor), item)))
  }

  function TargetSelection(world: World, actor: Actor, item: Option<Item>, f: Family): Actor -> seq<EffectDefinition> {
    (t: Actor) => TargetSelected(world, actor, t, item, f)
  }

  function IncomingSelected(world: World, actor: Actor, targets: seq<Actor>, item: Option<Item>, f: Family): seq<EffectDefinition> {
    FlatMap(targets, TargetSelection(world, actor, item, f))
  }

  /** Everything one hook applies, in the order it applies it. */
  function SelectedEffects(world: World, actor: Actor, targets: seq<Actor>, item: Option<Item>, f: Family): seq<EffectDefinition> {
    OwnSelected(world, actor, targets, item, f) + IncomingSelected(world, actor, targets, item, f)
  }

  /**
   * An effect is applied exactly when it is the actor's own beneficial effect
   * of the hook's family whose condition holds, or some target's
   * non-beneficial one whose condition holds with the actor as its target;
   * and every selected effect is of the hook's family.
   */
  lemma SelectedMembership(world: World, actor: Actor, targets: seq<Actor>, item: Option<Item>, f: Family, e: EffectDefinition)
    ensures e in SelectedEffects(world, actor, targets, item, f) <==>
              (e in ResolvedEffects(world, Some(actor)) && IsOwnPick(e, f, EvalContext(actor, FirstTarget(targets), item)))
              || (exists t :: t in targets && e in ResolvedEffects(world, Some(t))
                              && IsIncomingPick(e, f, EvalContext(t, Some(actor), item)))
    ensures e in SelectedEffects(world, actor, targets, item, f) ==> InFamily(e.effect.kind, f)
  {
    FlatMapMembership(targets, TargetSelection(world, actor, item, f), e);
    assert forall t :: e in TargetSelected(world, actor, t, item, f) <==>
             e in ResolvedEffects(world, Some(t)) && IsIncomingPick(e, f, EvalContext(t, Some(actor), item));
  }

  /** With no targets only the actor's own effects are applied. */
  lemma NoTargetsOnlyOwn(world: World, actor: Actor, item: Option<Item>, f: Family)
    ensures SelectedEffects(world, actor, [], item, f)
         == Filter(ResolvedEffects(world, Some(actor)), OwnPick(f, EvalContext(actor, None, item)))
  {
  }

  /**
   * The side the hooks give an effect agrees with `resolveApplyTo` when the
   * effect sets no explicit side, has no derived-stat type and says whether
   * it is beneficial.
   */
  lemma SideRulesAgree(e: EffectDefinition)
    requires e.effect.applyTo == "" && !IsDerivedStatType(e.effect.kind) && e.beneficial.Some?
    ensures ResolveApplyTo(e) == "self" <==> IsBeneficial(e)
  {
    if !IsBeneficial(e) {
      assert !e.beneficial.value;
      assert e.beneficial == Some(e.beneficial.value);
      assert e.beneficial == Some(false);
      assert ResolveApplyTo(e) == "incoming";
    }
  }

  /**
   * They disagree on an effect that leaves `beneficial` unset, as a freshly
   * created one does: `resolveApplyTo` puts it on its owner's side, while the
   * hooks only ever treat it as an incoming effect.
   */
  lemma SideRulesDisagreeOnUnsetBeneficial(id: string)
    ensures ResolveApplyTo(DefaultEffect(id)) == "self"
    ensures !IsBeneficial(DefaultEffect(id))
  {
  }

  /** One `for (const condEffect of ...)` loop: push every effect the filter keeps. */
  method PushMatching(acc: seq<EffectDefinition>, effects: seq<EffectDefinition>, pick: EffectDefinition -> bool)
    returns (r: seq<EffectDefinition>)
    ensures r == acc + Filter(effects, pick)
  {
    r := acc;
    for k := 0 to |effects|
      invariant r == acc + Filter(effects[..k], pick)
    {
      FilterSnoc(effects, k, pick);
      var condEffect := effects[k];
      if pick(condEffect) {
        r := r + [condEffect];
      }
    }
    assert effects[..|effects|] == effects;
  }

  lemma TargetSelectionIs(world: World, actor: Actor, target: Actor, item: Option<Item>, f: Family, theirs: seq<EffectDefinition>)
    requires theirs == ResolvedEffects(world, Some(target))
    ensures TargetSelection(world, actor, item, f)(target) == Filter(theirs, IncomingPick(f, EvalContext(target, Some(actor), item)))
  {
  }

  /** The loop over `targetActors`: push each target's incoming picks after `acc`. */
  method PushIncoming(acc: seq<EffectDefinition>, world: World, actor: Actor, targets: seq<Actor>, item: Option<Item>, f: Family)
    returns (r: seq<EffectDefinition>)
    ensures r == acc + IncomingSelected(world, actor, targets, item, f)
  {
    r := acc;
    ghost var perTarget := TargetSelection(world, actor, item, f);
    for t := 0 to |targets|
      invariant r == acc + FlatMap(targets[..t], perTarget)
    {
      var targetActor := targets[t];
      var theirs := GetActorConditionalEffects(world, Some(targetActor));
      var pick := IncomingPick(f, EvalContext(targetActor, Some(actor), item));
      ghost var prev := r;
      r := PushMatching(r, theirs, pick);
      TargetSelectionIs(world, actor, targetActor, item, f, theirs);
      FlatMapStep(acc, prev, r, targets, t, perTarget);
    }
    assert targets[..|targets|] == targets;
  }

  /** The selection loops of `_onPreDamageAction` and `_onPreRollDamage`, pushing into `bonusEffects`. */
  method CollectEffects(world: World, actor: Actor, targets: seq<Actor>, item: Option<Item>, f: Family)
    returns (bonusEffects: seq<EffectDefinition>)
    ensures bonusEffects == SelectedEffects(world, actor, targets, item, f)
  {
    var own := GetActorConditionalEffects(world, Some(actor));
    bonusEffects := PushMatching([], own, OwnPick(f, EvalContext(actor, FirstTarget(targets), item)));
    bonusEffects := PushIncoming(bonusEffects, world, actor, targets, item, f);
  }
}
