/**
 * Which effect definitions are in scope for an actor (scripts/main.js):
 * `_isItemActive` and `_getActorConditionalEffects`. The IDs assigned through
 * the scene's player-character toggles, the actor's active items and the
 * actor itself are collected into a set, and the active catalog is filtered
 * by that set.
 */
module Scope {
  import opened Wrappers
  import opened Sequences
  import opened Definitions
  import opened Actors

  /** `APPLICABLE_ITEM_TYPES`. */
  predicate IsApplicableItemType(t: ItemType) {
    t == WeaponItem || t == ArmorItem || t == DomainCardItem || t == FeatureItem
  }

  /** `_isItemActive`: weapons and armor when equipped, domain cards when explicitly out of the vault, features always. */
  function IsItemActive(item: Item): (r: bool)
    ensures r ==> IsApplicableItemType(item.itemType)
    ensures item.itemType == WeaponItem || item.itemType == ArmorItem ==> (r <==> item.equipped)
    ensures item.itemType == DomainCardItem ==> (r <==> item.inVault == Some(false))
    ensures item.itemType == FeatureItem ==> r
  {
    match item.itemType
    case WeaponItem => item.equipped
    case ArmorItem => item.equipped
    case DomainCardItem => item.inVault == Some(false)
    case FeatureItem => true
    case OtherItem(_) => false
  }

  /** An item whose assigned IDs count for its owner. */
  predicate Contributes(item: Item) {
    IsApplicableItemType(item.itemType) && IsItemActive(item)
  }

  /** `getAllEffects().filter(isEffectActive)`. */
  function ActiveCatalog(world: World): seq<EffectDefinition> {
    Filter(world.effects, (e: EffectDefinition) => IsEffectActive(e, world.scene))
  }

  function ItemAssignedIds(items: seq<Item>): set<string> {
    if items == [] then {}
    else
      var last := items[|items| - 1];
      ItemAssignedIds(items[..|items| - 1]) + (if Contributes(last) then set x | x in last.assignedEffects else {})
  }

  /** The union the source builds in `assignedIds`. */
  function AssignedIds(world: World, actor: Actor): set<string> {
    (if actor.actorType == Character then set x | x in PcToggles(world.scene) else {})
    + ItemAssignedIds(actor.items)
    + (set x | x in actor.actorEffects)
  }

  function AssignedPick(ids: set<string>): EffectDefinition -> bool {
    (e: EffectDefinition) => e.id in ids
  }

  /** What `_getActorConditionalEffects` returns. */
  function ResolvedEffects(world: World, actor: Option<Actor>): seq<EffectDefinition> {
    if actor.None? then [] else Filter(ActiveCatalog(world), AssignedPick(AssignedIds(world, actor.value)))
  }

  lemma {:induction false} ItemAssignedIdsMembership(items: seq<Item>, id: string)
    ensures id in ItemAssignedIds(items) <==>
              exists i :: 0 <= i < |items| && Contributes(items[i]) && id in items[i].assignedEffects
  {
    if items != [] {
      var init := items[..|items| - 1];
      ItemAssignedIdsMembership(init, id);
      if id in ItemAssignedIds(items) && id !in ItemAssignedIds(init) {
        var i := |items| - 1;
        assert Contributes(items[i]) && id in items[i].assignedEffects;
      }
      if exists i :: 0 <= i < |items| && Contributes(items[i]) && id in items[i].assignedEffects {
        var i :| 0 <= i < |items| && Contributes(items[i]) && id in items[i].assignedEffects;
        if i < |items| - 1 {
          assert init[i] == items[i];
        }
      }
    }
  }

  /**
   * An ID is assigned exactly when it is a scene-wide player-character toggle
   * (characters only), on an applicable active item, or on the actor itself.
   */
  lemma AssignedIdsMembership(world: World, actor: Actor, id: string)
    ensures id in AssignedIds(world, actor) <==>
              (actor.actorType == Character && id in PcToggles(world.scene))
              || (exists i :: 0 <= i < |actor.items| && Contributes(actor.items[i]) && id in actor.items[i].assignedEffects)
              || id in actor.actorEffects
  {
    ItemAssignedIdsMembership(actor.items, id);
  }

  /**
   * The resolved effects are the active catalog's entries whose ID is
   * assigned, in catalog order; none when nothing is assigned; and no ID
   * twice when the catalog has unique IDs.
   */
  lemma ResolvedEffectsSpec(world: World, actor: Actor)
    ensures IsSubsequence(ResolvedEffects(world, Some(actor)), ActiveCatalog(world))
    ensures IsSubsequence(ActiveCatalog(world), world.effects)
    ensures forall e :: e in ResolvedEffects(world, Some(actor)) <==>
              e in world.effects && IsEffectActive(e, world.scene) && e.id in AssignedIds(world, actor)
    ensures AssignedIds(world, actor) == {} ==> ResolvedEffects(world, Some(actor)) == []
    ensures UniqueIds(world.effects) ==> UniqueIds(ResolvedEffects(world, Some(actor)))
  {
    var ids := AssignedIds(world, actor);
    FilterIsSubsequence(ActiveCatalog(world), AssignedPick(ids));
    FilterIsSubsequence(world.effects, (e: EffectDefinition) => IsEffectActive(e, world.scene));
    if UniqueIds(world.effects) {
      FilterKeepsUniqueIds(world.effects, (e: EffectDefinition) => IsEffectActive(e, world.scene));
      FilterKeepsUniqueIds(ActiveCatalog(world), AssignedPick(ids));
    }
  }

  /** A non-character actor's effects do not depend on the scene's player-character toggles. */
  lemma NonCharacterIgnoresPcToggles(effects: seq<EffectDefinition>, flags: SceneFlags, toggles: seq<string>, actor: Actor)
    requires actor.actorType != Character
    ensures ResolvedEffects(World(effects, Some(flags.(pcToggles := toggles))), Some(actor))
         == ResolvedEffects(World(effects, Some(flags)), Some(actor))
  {
    var w1 := World(effects, Some(flags.(pcToggles := toggles)));
    var w2 := World(effects, Some(flags));
    assert AssignedIds(w1, actor) == AssignedIds(w2, actor);
    FilterSameOn(effects, (e: EffectDefinition) => IsEffectActive(e, w1.scene), (e: EffectDefinition) => IsEffectActive(e, w2.scene));
  }

  /** `ids.forEach(id => assignedIds.add(id))`. */
  method AddIds(acc: set<string>, ids: seq<string>) returns (r: set<string>)
    ensures r == acc + set x | x in ids
  {
    r := acc;
    for k := 0 to |ids|
      invariant forall x :: x in r <==> x in acc || x in ids[..k]
    {
      assert ids[..k + 1] == ids[..k] + [ids[k]];
      r := r + {ids[k]};
    }
    assert ids[..|ids|] == ids;
  }

  /** `_getActorConditionalEffects`, following the source's loops. */
  method GetActorConditionalEffects(world: World, actor: Option<Actor>) returns (r: seq<EffectDefinition>)
    ensures r == ResolvedEffects(world, actor)
  {
    if actor.None? {
      return [];
    }
    var a := actor.value;
    var globalEffects := ActiveCatalog(world);
    if |globalEffects| == 0 {
      return [];
    }
    var assignedIds: set<string> := {};
    if a.actorType == Character {
      assignedIds := AddIds(assignedIds, PcToggles(world.scene));
    }
    ghost var fromToggles := assignedIds;

    for i := 0 to |a.items|
      invariant assignedIds == fromToggles + ItemAssignedIds(a.items[..i])
    {
      var item := a.items[i];
      assert a.items[..i + 1][..i] == a.items[..i];
      if IsApplicableItemType(item.itemType) && IsItemActive(item) {
        assignedIds := AddIds(assignedIds, item.assignedEffects);
      }
    }
    assert a.items[..|a.items|] == a.items;
    assignedIds := AddIds(assignedIds, a.actorEffects);

    if |assignedIds| == 0 {
      ResolvedEffectsSpec(world, a);
      return [];
    }
    r := Filter(globalEffects, AssignedPick(assignedIds));
  }
}
