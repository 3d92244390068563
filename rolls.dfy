/**
 * Roll effects on a duality (hit) roll, scripts/main.js `_onPreRoll` and
 * `_applyRollEffect`: advantage, disadvantage and flat roll bonuses applied
 * to the roll configuration in the order the effects are selected.
 */
module Rolls {
  import opened Wrappers
  import opened Sequences
  import opened Definitions
  import opened Actors
  import opened Scope
  import opened Conditions
  import opened Selection

  /** `ADV_MODE` (scripts/config.js). */
  const NORMAL: int := 0
  const ADVANTAGE: int := 1
  const DISADVANTAGE: int := -1

  /** A `{ label, value }` entry of `baseModifiers` (`labelText` is `label`). */
  datatype Modifier = Modifier(labelText: string, value: int)

  /** `config.roll`: its advantage mode and its `baseModifiers`, `None` while unset. */
  datatype RollState = RollState(advantage: int, baseModifiers: Option<seq<Modifier>>)

  /** `baseModifiers` with an appended list; an unset list stays unset when nothing is appended. */
  function AppendModifiers(base: Option<seq<Modifier>>, extra: seq<Modifier>): Option<seq<Modifier>> {
    if extra == [] then base else Some(base.GetOr([]) + extra)
  }

  /** What `_applyRollEffect` does to the roll. */
  function AfterRollEffect(st: RollState, e: EffectDefinition): (r: RollState)
    ensures e.effect.kind == Advantage ==> r.advantage == ADVANTAGE
    ensures e.effect.kind == Disadvantage ==>
              r.advantage == (if st.advantage == ADVANTAGE then ADVANTAGE else DISADVANTAGE)
    ensures e.effect.kind != Advantage && e.effect.kind != Disadvantage ==> r.advantage == st.advantage
    ensures e.effect.kind == RollBonus && e.effect.rollBonus != 0 ==>
              r.baseModifiers == Some(st.baseModifiers.GetOr([]) + [Modifier(e.name, e.effect.rollBonus)])
    ensures !(e.effect.kind == RollBonus && e.effect.rollBonus != 0) ==> r.baseModifiers == st.baseModifiers
  {
    match e.effect.kind
    case Advantage => st.(advantage := ADVANTAGE)
    case Disadvantage => if st.advantage != ADVANTAGE then st.(advantage := DISADVANTAGE) else st
    case RollBonus =>
      var bonus := e.effect.rollBonus;
      if bonus == 0 then st
      else st.(baseModifiers := Some(st.baseModifiers.GetOr([]) + [Modifier(e.name, bonus)]))
    case _ => st
  }

  /** The roll after applying `es` in order. */
  function AfterRollEffects(st: RollState, es: seq<EffectDefinition>): RollState {
    if es == [] then st else AfterRollEffect(AfterRollEffects(st, es[..|es| - 1]), es[|es| - 1])
  }

  lemma AfterRollEffectsSnoc(st: RollState, s: seq<EffectDefinition>, e: EffectDefinition)
    ensures AfterRollEffects(st, s + [e]) == AfterRollEffect(AfterRollEffects(st, s), e)
  {
    assert (s + [e])[..|s|] == s;
  }

  lemma {:induction false} AfterRollEffectsConcat(st: RollState, a: seq<EffectDefinition>, b: seq<EffectDefinition>)
    ensures AfterRollEffects(st, a + b) == AfterRollEffects(AfterRollEffects(st, a), b)
  {
    if b != [] {
      var init := b[..|b| - 1];
      AfterRollEffectsConcat(st, a, init);
      assert (a + b)[..|a + b| - 1] == a + init;
    } else {
      assert a + b == a;
    }
  }

  predicate HasKind(es: seq<EffectDefinition>, k: EffectType) {
    exists e :: e in es && e.effect.kind == k
  }

  /**
   * The advantage mode a roll ends with: advantage if it started with
   * advantage or any effect grants it, else disadvantage if any effect
   * imposes it, else the starting mode.
   */
  function FinalMode(start: int, es: seq<EffectDefinition>): int {
    if start == ADVANTAGE || HasKind(es, Advantage) then ADVANTAGE
    else if HasKind(es, Disadvantage) then DISADVANTAGE
    else start
  }

  /** Advantage beats disadvantage whatever order the effects come in. */
  lemma {:induction false} RollModeIsFinalMode(st: RollState, es: seq<EffectDefinition>)
    ensures AfterRollEffects(st, es).advantage == FinalMode(st.advantage, es)
  {
    if es != [] {
      var init := es[..|es| - 1];
      var last := es[|es| - 1];
      RollModeIsFinalMode(st, init);
      assert es == init + [last];
      forall k
        ensures HasKind(es, k) <==> HasKind(init, k) || last.effect.kind == k
      {
        if HasKind(es, k) && !HasKind(init, k) {
          var e :| e in es && e.effect.kind == k;
          assert e == last;
        }
        if last.effect.kind == k {
          assert last in es;
        }
      }
    }
  }

  /** Reordering the applied effects does not change the final advantage mode. */
  lemma RollModeOrderIndependent(st: RollState, a: seq<EffectDefinition>, b: seq<EffectDefinition>)
    requires multiset(a) == multiset(b)
    ensures AfterRollEffects(st, a).advantage == AfterRollEffects(st, b).advantage
  {
    RollModeIsFinalMode(st, a);
    RollModeIsFinalMode(st, b);
    assert forall e :: e in a <==> e in multiset(a);
    assert forall e :: e in b <==> e in multiset(b);
    assert forall k :: HasKind(a, k) <==> HasKind(b, k);
  }

  /** The modifiers the non-zero roll bonuses of `es` contribute, in order. */
  function BonusModifiers(es: seq<EffectDefinition>): seq<Modifier> {
    if es == [] then []
    else
      var last := es[|es| - 1];
      BonusModifiers(es[..|es| - 1])
      + (if last.effect.kind == RollBonus && last.effect.rollBonus != 0
         then [Modifier(last.name, last.effect.rollBonus)] else [])
  }

  lemma AppendModifiersTwice(base: Option<seq<Modifier>>, ms: seq<Modifier>, extra: seq<Modifier>)
    ensures AppendModifiers(AppendModifiers(base, ms), extra) == AppendModifiers(base, ms + extra)
  {
    if ms == [] {
      assert ms + extra == extra;
    } else if extra == [] {
      assert ms + extra == ms;
    } else {
      assert base.GetOr([]) + ms + extra == base.GetOr([]) + (ms + extra);
    }
  }

  /** Roll bonuses only ever append to `baseModifiers`, one entry per non-zero bonus, named after its effect. */
  lemma {:induction false} ModifiersAppended(st: RollState, es: seq<EffectDefinition>)
    ensures AfterRollEffects(st, es).baseModifiers == AppendModifiers(st.baseModifiers, BonusModifiers(es))
  {
    if es != [] {
      var last := es[|es| - 1];
      ModifiersAppended(st, es[..|es| - 1]);
      AppendModifiersTwice(st.baseModifiers, BonusModifiers(es[..|es| - 1]),
        if last.effect.kind == RollBonus && last.effect.rollBonus != 0 then [Modifier(last.name, last.effect.rollBonus)] else []);
    }
  }

  /** `config` of the duality-roll hook; `roll` is `None` when the configuration has no roll. */
  class RollConfig {
    var roll: Option<RollState>

    constructor (roll: Option<RollState>)
      ensures this.roll == roll
    {
      this.roll := roll;
    }

    /** `_applyRollEffect`. */
    method ApplyRollEffect(effect: EffectDefinition)
      requires roll.Some?
      modifies this
      ensures roll == Some(AfterRollEffect(old(roll).value, effect))
    {
      var st := roll.value;
      var kind := effect.effect.kind;
      if kind == Advantage {
        roll := Some(st.(advantage := ADVANTAGE));
      } else if kind == Disadvantage {
        if st.advantage != ADVANTAGE {
          roll := Some(st.(advantage := DISADVANTAGE));
        }
      } else if kind == RollBonus {
        var bonus := effect.effect.rollBonus;
        if bonus == 0 {
          return;
        }
        var baseModifiers := if st.baseModifiers.Some? then st.baseModifiers.value else [];
        roll := Some(st.(baseModifiers := Some(baseModifiers + [Modifier(effect.name, bonus)])));
      }
    }

    /** One selection loop of `_onPreRoll`: apply every effect the filter keeps, in order. */
    method ApplyMatching(effects: seq<EffectDefinition>, pick: EffectDefinition -> bool)
      requires roll.Some?
      modifies this
      ensures roll == Some(AfterRollEffects(old(roll).value, Filter(effects, pick)))
    {
      ghost var start := roll.value;
      for k := 0 to |effects|
        invariant roll == Some(AfterRollEffects(start, Filter(effects[..k], pick)))
      {
        FilterSnoc(effects, k, pick);
        var effect := effects[k];
        if pick(effect) {
          ghost var applied := Filter(effects[..k], pick);
          ApplyRollEffect(effect);
          AfterRollEffectsSnoc(start, applied, effect);
        } else {
          assert Filter(effects[..k + 1], pick) == Filter(effects[..k], pick);
        }
      }
      assert effects[..|effects|] == effects;
    }

    /** The loop of `_onPreRoll` over the targets: apply each target's incoming picks. */
    method ApplyIncoming(world: World, actor: Actor, targets: seq<Actor>, item: Option<Item>)
      requires roll.Some?
      modifies this
      ensures roll == Some(AfterRollEffects(old(roll).value, IncomingSelected(world, actor, targets, item, RollFamily)))
    {
      ghost var start := roll.value;
      ghost var perTarget := TargetSelection(world, actor, item, RollFamily);
      for t := 0 to |targets|
        invariant roll == Some(AfterRollEffects(start, FlatMap(targets[..t], perTarget)))
      {
        var targetActor := targets[t];
        var theirs := GetActorConditionalEffects(world, Some(targetActor));
        var pick := IncomingPick(RollFamily, EvalContext(targetActor, Some(actor), item));
        ghost var prev := FlatMap(targets[..t], perTarget);
        ApplyMatching(theirs, pick);
        AfterRollEffectsConcat(start, prev, Filter(theirs, pick));
        TargetSelectionIs(world, actor, targetActor, item, RollFamily, theirs);
        FlatMapSnoc(targets, t, perTarget);
      }
      assert targets[..|targets|] == targets;
    }

    /**
     * `_onPreRoll`: nothing without a source actor or a roll; otherwise the
     * selected roll effects are applied in selection order.
     */
    method OnPreRoll(world: World, source: Option<Actor>, targets: seq<Actor>, item: Option<Item>)
      modifies this
      ensures source.None? || old(roll).None? ==> roll == old(roll)
      ensures source.Some? && old(roll).Some? ==>
                roll == Some(AfterRollEffects(old(roll).value, SelectedEffects(world, source.value, targets, item, RollFamily)))
    {
      if source.None? || roll.None? {
        return;
      }
      var actor := source.value;
      ghost var start := roll.value;
      var own := GetActorConditionalEffects(world, Some(actor));
      ApplyMatching(own, OwnPick(RollFamily, EvalContext(actor, FirstTarget(targets), item)));
      ApplyIncoming(world, actor, targets, item);
      AfterRollEffectsConcat(start, OwnSelected(world, actor, targets, item, RollFamily),
        IncomingSelected(world, actor, targets, item, RollFamily));
    }
  }
}
