/**
 * The active scene's ID lists (scripts/config.js): force-disable, the
 * scene-wide toggles for player characters and for adversaries, the legacy
 * overrides, and clearing them all. Each setter reads a list, adds the ID
 * only when absent or filters every occurrence out, and writes the list
 * back; with no active scene it does nothing.
 */
module SceneToggles {
  import opened Wrappers
  import opened Sequences
  import opened Definitions

  /** `if (!list.includes(id)) list.push(id)`. */
  function WithId(list: seq<string>, id: string): (r: seq<string>)
    ensures id in r
    ensures id in list ==> r == list
    ensures id !in list ==> r == list + [id]
  {
    if id in list then list else list + [id]
  }

  /** `list.filter(x => x !== id)`. */
  function WithoutId(list: seq<string>, id: string): seq<string> {
    Filter(list, x => x != id)
  }

  /** The list a setter writes for `on` (add) or `!on` (remove). */
  function Toggled(list: seq<string>, id: string, on: bool): seq<string> {
    if on then WithId(list, id) else WithoutId(list, id)
  }

  /** Removing drops every occurrence of the ID and keeps every other element as often as before. */
  lemma {:induction false} WithoutIdCounts(list: seq<string>, id: string)
    ensures multiset(WithoutId(list, id)) == multiset(list)[id := 0]
  {
    if list != [] {
      WithoutIdCounts(list[1..], id);
      assert list == [list[0]] + list[1..];
      FilterConcat([list[0]], list[1..], x => x != id);
    }
  }

  /** Removing keeps the other IDs in their relative order, and removing from a concatenation removes from each part. */
  lemma WithoutIdKeepsOrder(a: seq<string>, b: seq<string>, id: string)
    ensures IsSubsequence(WithoutId(a, id), a)
    ensures WithoutId(a + b, id) == WithoutId(a, id) + WithoutId(b, id)
  {
    FilterIsSubsequence(a, x => x != id);
    FilterConcat(a, b, x => x != id);
  }

  /** Membership after a toggle: the ID is present exactly when switched on; other IDs are untouched. */
  lemma ToggledMembership(list: seq<string>, id: string, on: bool, x: string)
    ensures x in Toggled(list, id, on) <==> (if x == id then on else x in list)
  {
  }

  /** Toggling is idempotent: the second identical call writes the same list. */
  lemma ToggledIdempotent(list: seq<string>, id: string, on: bool)
    ensures Toggled(Toggled(list, id, on), id, on) == Toggled(list, id, on)
  {
    if !on {
      FilterAll(WithoutId(list, id), x => x != id);
    }
  }

  /** A toggle never introduces a duplicate into a duplicate-free list. */
  lemma ToggledKeepsNoDuplicates(list: seq<string>, id: string, on: bool)
    requires NoDuplicates(list)
    ensures NoDuplicates(Toggled(list, id, on))
  {
    if !on {
      FilterNoDuplicates(list, x => x != id);
    }
  }

  /** Switching an absent ID on and then off again restores the list exactly. */
  lemma ToggleOnOffRestores(list: seq<string>, id: string)
    requires id !in list
    ensures Toggled(Toggled(list, id, true), id, false) == list
  {
    FilterConcat(list, [id], x => x != id);
    FilterAll(list, x => x != id);
    assert Filter([id], x => x != id) == [];
  }

  /** Force-disabling an effect deactivates it whatever its legacy override or `enabled` flag. */
  lemma DisableDeactivates(flags: SceneFlags, e: EffectDefinition)
    ensures !IsEffectActive(e, Some(flags.(disabled := Toggled(flags.disabled, e.id, true))))
  {
  }

  /** Toggling one ID's force-disable leaves every other effect's activity as it was. */
  lemma DisableTouchesOnlyItsId(flags: SceneFlags, id: string, on: bool, e: EffectDefinition)
    requires e.id != id
    ensures IsEffectActive(e, Some(flags.(disabled := Toggled(flags.disabled, id, on))))
         == IsEffectActive(e, Some(flags))
  {
    ToggledMembership(flags.disabled, id, on, e.id);
  }

  /** Force-disabling and then re-enabling an effect that was not disabled changes no effect's activity. */
  lemma DisableThenEnableRestoresActivity(flags: SceneFlags, id: string, e: EffectDefinition)
    requires id !in flags.disabled
    ensures IsEffectActive(e, Some(flags.(disabled := Toggled(Toggled(flags.disabled, id, true), id, false))))
         == IsEffectActive(e, Some(flags))
  {
    ToggleOnOffRestores(flags.disabled, id);
  }

  /** The scene-flag store; `active` is the active scene's flags, `None` when no scene is active. */
  class SceneStore {
    var active: Option<SceneFlags>

    constructor (active: Option<SceneFlags>)
      ensures this.active == active
    {
      this.active := active;
    }

    /** `setSceneDisabled`. */
    method SetSceneDisabled(effectId: string, disabled: bool)
      modifies this
      ensures old(active).None? ==> active == old(active)
      ensures old(active).Some? ==>
                active == Some(old(active).value.(disabled := Toggled(old(active).value.disabled, effectId, disabled)))
    {
      if active.None? {
        return;
      }
      var list := active.value.disabled;
      if disabled {
        if effectId !in list {
          list := list + [effectId];
        }
      } else {
        list := WithoutId(list, effectId);
      }
      active := Some(active.value.(disabled := list));
    }

    /** `setPcToggle`. */
    method SetPcToggle(effectId: string, enabled: bool)
      modifies this
      ensures old(active).None? ==> active == old(active)
      ensures old(active).Some? ==>
                active == Some(old(active).value.(pcToggles := Toggled(old(active).value.pcToggles, effectId, enabled)))
    {
      if active.None? {
        return;
      }
      var toggles := active.value.pcToggles;
      if enabled {
        if effectId !in toggles {
          toggles := toggles + [effectId];
        }
      } else {
        toggles := WithoutId(toggles, effectId);
      }
      active := Some(active.value.(pcToggles := toggles));
    }

    /** `setNpcToggle`. */
    method SetNpcToggle(effectId: string, enabled: bool)
      modifies this
      ensures old(active).None? ==> active == old(active)
      ensures old(active).Some? ==>
                active == Some(old(active).value.(npcToggles := Toggled(old(active).value.npcToggles, effectId, enabled)))
    {
      if active.None? {
        return;
      }
      var toggles := active.value.npcToggles;
      if enabled {
        if effectId !in toggles {
          toggles := toggles + [effectId];
        }
      } else {
        toggles := WithoutId(toggles, effectId);
      }
      active := Some(active.value.(npcToggles := toggles));
    }

    /** `setSceneOverride`: `None` deletes the legacy override, a value sets it. */
    method SetSceneOverride(effectId: string, value: Option<bool>)
      modifies this
      ensures old(active).None? ==> active == old(active)
      ensures old(active).Some? ==>
                active == Some(old(active).value.(overrides :=
                  if value.None? then old(active).value.overrides - {effectId}
                  else old(active).value.overrides[effectId := value.value]))
    {
      if active.None? {
        return;
      }
      var overrides := active.value.overrides;
      if value.None? {
        overrides := overrides - {effectId};
      } else {
        overrides := overrides[effectId := value.value];
      }
      active := Some(active.value.(overrides := overrides));
    }

    /** `clearSceneOverrides`: all four flags are removed in one update. */
    method ClearSceneOverrides()
      modifies this
      ensures old(active).None? ==> active == old(active)
      ensures old(active).Some? ==> active == Some(SceneFlags([], map[], [], []))
      ensures forall e :: IsEffectActive(e, active) == e.enabled
    {
      if active.None? {
        return;
      }
      active := Some(SceneFlags([], map[], [], []));
    }
  }
}
