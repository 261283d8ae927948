/** Values shared by the live encounter loop, the snapshot publisher and the repository. */
module Types {

  datatype Option<T> = None | Some(value: T)

  /** The kinds of in-world object the entity tracker distinguishes. */
  datatype EntityType = Unknown | Player | Npc | Boss | Esther | Summon | Projectile | Trap

  /** One value of `Encounter.entities`, reduced to the fields the live loop and the repository read. */
  datatype EncounterEntity = EncounterEntity(
    name: string,
    entityType: EntityType,
    classId: nat,
    maxHp: int,
    currentHp: int,
    isDead: bool,
    damageDealt: int,
    dps: int)

  /** The cumulative encounter that is published to the UI and persisted at the end of a fight. */
  datatype Encounter = Encounter(
    entities: map<string, EncounterEntity>,
    currentBossName: string,
    currentBoss: Option<EncounterEntity>,
    fightStart: int,
    lastCombatPacket: int,
    localPlayer: string,
    bossOnlyDamage: bool,
    region: Option<string>,
    totalDamageDealt: int)

  /** Party groups as member names, one inner sequence per party. */
  type Party = seq<seq<string>>

  /** Named events the engine emits to the presentation layer. */
  datatype UiEvent =
    | EncounterUpdate(encounter: Encounter)
    | PartyUpdate(party: Party)
    | InvalidDamage
    | IdentityUpdate(gauge1: int, gauge2: int, gauge3: int)
    | ResetEncounter
    | SaveEncounter
    | PauseEncounter

  /**
   * `Instant::elapsed` and `Instant - Instant` on millisecond timestamps: the time from
   * `since` to `now`, saturating at zero when `since` is later.
   */
  function Elapsed(since: int, now: int): (d: nat)
    ensures d >= now - since
    ensures now >= since ==> d == now - since
    ensures now <= since ==> d == 0
  {
    if now >= since then now - since else 0
  }

  /** The encounter a freshly created engine starts from. */
  function EmptyEncounter(): Encounter
  {
    Encounter(map[], "", None, 0, 0, "", false, None, 0)
  }
}
