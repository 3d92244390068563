/**
 * The slice of the host's actor and item documents that scripts/main.js
 * reads, with the host's store of settings and scene flags passed in as a
 * value (`World`) instead of being fetched from the game.
 */
module Actors {
  import opened Wrappers
  import opened Definitions

  /** `actor.type`: only "character" is told apart. */
  datatype ActorType = Character | OtherActorType(name: string)

  datatype ItemType = WeaponItem | ArmorItem | DomainCardItem | FeatureItem | OtherItem(name: string)

  /**
   * An owned item. `uuid` stands for the item object's identity; `inVault`
   * is `None` when the field is unset; `assignedEffects` is the item's list of
   * assigned effect IDs (empty when the flag is unset).
   */
  datatype Item = Item(uuid: string, itemType: ItemType, equipped: bool, inVault: Option<bool>, assignedEffects: seq<string>)

  /**
   * A field of `actor.system` (or of one of its resources) whose key may be missing altogether
   * (`'key' in system` is false) or present with an unset (`null` or
   * `undefined`) value.
   */
  datatype SystemField<T> = MissingField | PresentField(value: Option<T>)
  {
    /** `system.key ?? null`: a missing key reads like an unset value. */
    function Read(): Option<T> {
      if MissingField? then None else value
    }
  }

  /**
   * A `{ value, max }` resource. The `value` key may be missing or present
   * with a `null` value, which arithmetic reads differently (`undefined`
   * divides to `NaN`, `null` to 0); `max` is only ever tested for truthiness.
   */
  datatype Resource = Resource(value: SystemField<int>, max: Option<int>)

  /** `system.damageThresholds`; an unset threshold reads as 0. */
  datatype Thresholds = Thresholds(major: int, severe: int)

  /** `actor.system`: the resources, scores and traits the evaluator reads. */
  datatype ActorSystem = ActorSystem(
    hope: Option<Resource>,
    stress: Option<Resource>,
    hitPoints: Option<Resource>,
    armor: Option<Resource>,
    evasion: SystemField<int>,
    proficiency: Option<int>,
    armorScore: Option<int>,
    traits: map<Trait, int>,
    damageThresholds: Option<Thresholds>)

  /** An actor: its type, owned items, directly assigned effect IDs and active status IDs. */
  datatype Actor = Actor(
    actorType: ActorType,
    items: seq<Item>,
    actorEffects: seq<string>,
    statuses: set<string>,
    system: ActorSystem)

  /** The catalog setting and the active scene's flags (`None` when no scene is active). */
  datatype World = World(effects: seq<EffectDefinition>, scene: Option<SceneFlags>)
}
