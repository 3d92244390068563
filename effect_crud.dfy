/**
 * The effect catalog's create/update/delete operations (scripts/config.js).
 * The catalog is the world setting holding the list of definitions; here it
 * is the `effects` field of an `EffectStore`. `foundry.utils.mergeObject` is
 * modelled as top-level field replacement by an `EffectPatch`.
 */
module EffectCrud {
  import opened Wrappers
  import opened Sequences
  import opened Definitions

  /** The fields a caller supplies; `None` keeps the base value. */
  datatype EffectPatch = EffectPatch(
    id: Option<string>,
    name: Option<string>,
    description: Option<string>,
    enabled: Option<bool>,
    beneficial: Option<bool>,
    duration: Option<Duration>,
    condition: Option<Condition>,
    effect: Option<Effect>)

  /** `mergeObject(base, patch, { inplace: false })`, one level deep. */
  function Merge(base: EffectDefinition, p: EffectPatch): EffectDefinition {
    EffectDefinition(
      p.id.GetOr(base.id),
      p.name.GetOr(base.name),
      p.description.GetOr(base.description),
      p.enabled.GetOr(base.enabled),
      if p.beneficial.Some? then p.beneficial else base.beneficial,
      p.duration.GetOr(base.duration),
      p.condition.GetOr(base.condition),
      p.effect.GetOr(base.effect))
  }

  /** `effects.findIndex(e => e.id === id)`: the first matching index, or none. */
  function FindIndex(effects: seq<EffectDefinition>, id: string): (r: Option<nat>)
    ensures r.Some? ==> r.value < |effects| && effects[r.value].id == id
    ensures r.Some? ==> forall j :: 0 <= j < r.value ==> effects[j].id != id
    ensures r.None? <==> forall j :: 0 <= j < |effects| ==> effects[j].id != id
  {
    if effects == [] then None
    else if effects[0].id == id then Some(0)
    else match FindIndex(effects[1..], id)
      case None => None
      case Some(k) => Some(k + 1)
  }

  /** `effects.filter(e => e.id !== id)`. */
  function WithoutEffect(effects: seq<EffectDefinition>, id: string): seq<EffectDefinition> {
    Filter(effects, (e: EffectDefinition) => e.id != id)
  }

  /** How many entries carry `id`. */
  function CountId(effects: seq<EffectDefinition>, id: string): nat {
    if effects == [] then 0 else (if effects[0].id == id then 1 else 0) + CountId(effects[1..], id)
  }

  /** Deleting removes exactly the entries with that ID and keeps the rest, in order. */
  lemma {:induction false} DeleteRemovesExactly(effects: seq<EffectDefinition>, id: string)
    ensures forall e :: e in WithoutEffect(effects, id) <==> e in effects && e.id != id
    ensures IsSubsequence(WithoutEffect(effects, id), effects)
    ensures |WithoutEffect(effects, id)| == |effects| - CountId(effects, id)
  {
    FilterIsSubsequence(effects, (e: EffectDefinition) => e.id != id);
    if effects != [] {
      DeleteRemovesExactly(effects[1..], id);
    }
  }

  /** Deleting keeps the catalog free of duplicate IDs. */
  lemma DeleteKeepsUniqueIds(effects: seq<EffectDefinition>, id: string)
    requires UniqueIds(effects)
    ensures UniqueIds(WithoutEffect(effects, id))
  {
    FilterKeepsUniqueIds(effects, (e: EffectDefinition) => e.id != id);
  }

  /** Creating with an ID no entry has keeps the catalog free of duplicate IDs. */
  lemma CreateKeepsUniqueIds(effects: seq<EffectDefinition>, data: EffectPatch, newId: string)
    requires UniqueIds(effects)
    requires FindIndex(effects, newId).None?
    ensures UniqueIds(effects + [Merge(DefaultEffect(newId), data).(id := newId)])
  {
  }

  /** An update whose changes do not carry an ID keeps the catalog free of duplicate IDs. */
  lemma UpdateKeepsUniqueIds(effects: seq<EffectDefinition>, i: nat, changes: EffectPatch)
    requires UniqueIds(effects) && i < |effects| && changes.id.None?
    ensures UniqueIds(effects[i := Merge(effects[i], changes)])
  {
  }

  class EffectStore {
    /** The catalog setting. */
    var effects: seq<EffectDefinition>

    constructor (effects: seq<EffectDefinition>)
      ensures this.effects == effects
    {
      this.effects := effects;
    }

    /** `createEffect`: defaults merged with `data`, given the fresh ID, appended at the end. */
    method CreateEffect(data: EffectPatch, newId: string) returns (e: EffectDefinition)
      modifies this
      ensures e == Merge(DefaultEffect(newId), data).(id := newId)
      ensures effects == old(effects) + [e]
    {
      e := Merge(DefaultEffect(newId), data);
      e := e.(id := newId);
      effects := effects + [e];
    }

    /**
     * `updateEffect`: an unknown ID returns none and changes nothing;
     * otherwise only the first entry with that ID is replaced by the merge.
     */
    method UpdateEffect(id: string, changes: EffectPatch) returns (r: Option<EffectDefinition>)
      modifies this
      ensures FindIndex(old(effects), id).None? ==> r.None? && effects == old(effects)
      ensures FindIndex(old(effects), id).Some? ==>
                var i := FindIndex(old(effects), id).value;
                && effects == old(effects)[i := Merge(old(effects)[i], changes)]
                && r == Some(effects[i])
      ensures |effects| == |old(effects)|
    {
      var idx := FindIndex(effects, id);
      if idx.None? {
        return None;
      }
      var i := idx.value;
      effects := effects[i := Merge(effects[i], changes)];
      r := Some(effects[i]);
    }

    /** `deleteEffect`. */
    method DeleteEffect(id: string)
      modifies this
      ensures effects == WithoutEffect(old(effects), id)
    {
      effects := WithoutEffect(effects, id);
    }
  }
}
