/**
 * The mutable state the packet handler, the snapshot publisher and the loop share:
 * the fight-level fields of `EncounterState` and the trackers behind `Rc<RefCell<..>>`.
 * Only the fields and queries the live loop touches are modelled; the bodies of the
 * encounter's own aggregation methods are not part of this model and are recorded as calls.
 */
module State {
  import opened Types

  /** A call into one of `EncounterState`'s aggregation methods, recorded in call order. */
  datatype StateCall =
    | InitEnvCall(entityId: int)
    | PhaseTransition(code: int)
    | SkillStart(entityId: int, skillId: int, timestamp: int)
    | Damage(sourceId: int, targetId: int, skillId: int, damage: int, abnormalMove: bool, timestamp: int)
    | ShieldChange(instanceId: int, change: nat)
    | LocalPlayerUpdate(entityId: int)
    | NewPcCall(entity: TrackedEntity, hp: int, maxHp: int)
    | NewNpcCall(entity: TrackedEntity, hp: int, maxHp: int)
    | SoftReset(full: bool)
    | SaveToDb(manual: bool)

  /** Key of the skill tracker's cast table: (entity id, skill id). */
  type SkillKey = (int, int)

  /** The abstract value of an `EncounterState` object. */
  datatype Fight = Fight(
    raidDifficulty: string,
    raidDifficultyId: int,
    damageIsValid: bool,
    raidClear: bool,
    bossDeadUpdate: bool,
    resetting: bool,
    saved: bool,
    bossOnlyDamage: bool,
    region: Option<string>,
    partyInfo: Party,
    encounter: Encounter,
    skillTimestamp: map<SkillKey, int>,
    projectileIdToTimestamp: map<int, int>,
    calls: seq<StateCall>)

  class EncounterState {
    var raidDifficulty: string
    var raidDifficultyId: int
    var damageIsValid: bool
    var raidClear: bool
    var bossDeadUpdate: bool
    var resetting: bool
    var saved: bool
    var bossOnlyDamage: bool
    var region: Option<string>
    var partyInfo: Party
    var encounter: Encounter
    // skill_tracker.skill_timestamp and skill_tracker.projectile_id_to_timestamp
    var skillTimestamp: map<SkillKey, int>
    var projectileIdToTimestamp: map<int, int>
    var calls: seq<StateCall>

    ghost function Model(): Fight
      reads this
    {
      Fight(raidDifficulty, raidDifficultyId, damageIsValid, raidClear, bossDeadUpdate, resetting, saved,
            bossOnlyDamage, region, partyInfo, encounter, skillTimestamp, projectileIdToTimestamp, calls)
    }

    /** A new engine: no difficulty, damage valid, nothing recorded. */
    constructor ()
      ensures Model() == InitialFight()
    {
      raidDifficulty, raidDifficultyId := "", 0;
      damageIsValid, raidClear := true, false;
      bossDeadUpdate, resetting, saved, bossOnlyDamage := false, false, false, false;
      region, partyInfo, encounter := None, [], EmptyEncounter();
      skillTimestamp, projectileIdToTimestamp, calls := map[], map[], [];
    }

    method Record(c: StateCall)
      modifies this`calls
      ensures calls == old(calls) + [c]
    {
      calls := calls + [c];
    }

    /** `on_phase_transition(code)`: 0 result, 1 boss kill, 2 clear, 3 new pull, 4 wipe. */
    method OnPhaseTransition(code: int)
      modifies this`calls
      ensures Model() == old(Model()).(calls := old(calls) + [PhaseTransition(code)])
    {
      Record(PhaseTransition(code));
    }

    /** `skill_tracker.new_cast`: the latest cast of (entity, skill) overwrites earlier ones. */
    method NewCast(entityId: int, skillId: int, timestamp: int)
      modifies this`skillTimestamp
      ensures Model() == old(Model()).(skillTimestamp := old(skillTimestamp)[(entityId, skillId) := timestamp])
    {
      skillTimestamp := skillTimestamp[(entityId, skillId) := timestamp];
    }

    /** `soft_reset(full)`. */
    method SoftReset(full: bool)
      modifies this`calls
      ensures Model() == old(Model()).(calls := old(calls) + [StateCall.SoftReset(full)])
    {
      Record(StateCall.SoftReset(full));
    }

    /** `save_to_db(manual)`: the write itself happens on a background task. */
    method SaveToDb(manual: bool)
      modifies this`calls
      ensures Model() == old(Model()).(calls := old(calls) + [StateCall.SaveToDb(manual)])
    {
      Record(StateCall.SaveToDb(manual));
    }
  }

  function InitialFight(): Fight
  {
    Fight("", 0, true, false, false, false, false, false, None, [], EmptyEncounter(), map[], map[], [])
  }

  // ---------------------------------------------------------------------------
  // Trackers
  // ---------------------------------------------------------------------------

  /** An entity tracker record. */
  datatype TrackedEntity = TrackedEntity(id: int, name: string, entityType: EntityType, classId: nat)
  {
    /**
     * `guess_is_player`: an Unknown-kind caster of a skill from the player-only skill table
     * is promoted to Player; every other entity is returned as it is.
     */
    function GuessIsPlayer(skillId: int, playerSkills: set<int>): (r: TrackedEntity)
      ensures r.id == id && r.name == name && r.classId == classId
      ensures r.entityType == Player <==> entityType == Player || (entityType == Unknown && skillId in playerSkills)
      ensures r.entityType != Player ==> r == this
    {
      if entityType == Unknown && skillId in playerSkills then this.(entityType := Player) else this
    }
  }

  datatype StatusEffectType = Shield | HardCrowdControl | OtherEffect

  /** A live status-effect instance, keyed by its instance id in the status tracker. */
  datatype StatusEffect = StatusEffect(
    instanceId: int, effectType: StatusEffectType, sourceId: int, targetId: int, value: nat)

  /** The party a character currently belongs to. */
  datatype PartyMember = PartyMember(raidInstanceId: int, partyInstanceId: int, name: Option<string>)

  /** The abstract value of the tracker objects (entity, status, party). */
  datatype Tracked = Tracked(
    entities: map<int, TrackedEntity>,
    localEntityId: int,
    effects: map<int, StatusEffect>,
    members: map<int, PartyMember>)
  {
    /**
     * The entity stored under an id, or an unstored placeholder; the model's `init_env` reads
     * the local player through it.
     */
    function SourceEntity(id: int): (e: TrackedEntity)
      ensures id in entities ==> e == entities[id]
      ensures id !in entities ==> e == Placeholder(id)
    {
      if id in entities then entities[id] else Placeholder(id)
    }

    /** `id_is_player`. */
    predicate IdIsPlayer(id: int)
    {
      id in entities && entities[id].entityType == Player
    }

    /** `get_or_create_entity`: registers a placeholder for an unknown id. */
    function Materialize(id: int): Tracked
    {
      if id in entities then this else this.(entities := entities[id := Placeholder(id)])
    }

    /** Registers a spawned projectile or trap under its own id. */
    function Spawn(id: int, kind: EntityType): Tracked
    {
      this.(entities := entities[id := TrackedEntity(id, "", kind, 0)])
    }

    /** `guess_is_player` on a caster: a promotion is stored in the entity map. */
    function RecordGuess(e: TrackedEntity, skillId: int, playerSkills: set<int>): Tracked
    {
      var g := e.GuessIsPlayer(skillId, playerSkills);
      if g == e then this else this.(entities := entities[e.id := g])
    }

    /** `init_env`: the local player is re-anchored at the new id; other entities and all effects are dropped. */
    function InitEnv(playerId: int): Tracked
    {
      var local := SourceEntity(localEntityId).(id := playerId, entityType := Player);
      Tracked(map[playerId := local], playerId, map[], members)
    }

    /** `remove_local_object`: every effect whose source or target is the object is dropped. */
    function RemoveLocalObject(objectId: int): Tracked
    {
      this.(effects := map k | k in effects && effects[k].sourceId != objectId && effects[k].targetId != objectId :: effects[k])
    }

    /** One element of `RemoveObject`: the entity and the effects on or from it disappear. */
    function RemoveObject(objectId: int): Tracked
    {
      this.(entities := entities - {objectId}).RemoveLocalObject(objectId)
    }

    /**
     * `sync_status_effect`: a live instance takes the new value and the old value is returned
     * so that the caller can compute a delta. An unknown instance id is a no-op returning (None, 0).
     */
    function SyncStatusEffect(instanceId: int, value: nat): (Tracked, Option<StatusEffect>, nat)
    {
      if instanceId in effects then
        var e := effects[instanceId].(value := value);
        (this.(effects := effects[instanceId := e]), Some(e), effects[instanceId].value)
      else
        (this, None, 0)
    }

    /** `reset_party_mappings`. */
    function ResetPartyMappings(): Tracked
    {
      this.(members := map[])
    }

    /** `party_tracker.add`: re-adding a character moves it to the newest party. */
    function PartyAdd(raidInstanceId: int, partyInstanceId: int, characterId: int): Tracked
    {
      var name := if characterId in members then members[characterId].name else None;
      this.(members := members[characterId := PartyMember(raidInstanceId, partyInstanceId, name)])
    }

    /** `party_tracker.remove`: drops the members of that party that carry that name. */
    function PartyRemove(partyInstanceId: int, name: string): Tracked
    {
      this.(members := map c | c in members && !(members[c].partyInstanceId == partyInstanceId && members[c].name == Some(name)) :: members[c])
    }
  }

  /** Materializing an id registers a placeholder for it when it is unknown and changes no known entity. */
  lemma MaterializeRegisters(t: Tracked, id: int)
    ensures var r := t.Materialize(id);
      && r.entities.Keys == t.entities.Keys + {id}
      && r.entities[id] == t.SourceEntity(id)
      && (forall k :: k in t.entities ==> r.entities[k] == t.entities[k])
      && r.localEntityId == t.localEntityId && r.effects == t.effects && r.members == t.members
  {
  }

  /**
   * `init_env` keeps exactly one entity, the local player re-anchored at the new id with its
   * name and class, forgets every status effect and leaves the party tracker alone.
   */
  lemma InitEnvAnchorsLocalPlayer(t: Tracked, playerId: int)
    ensures var r := t.InitEnv(playerId);
      && r.entities.Keys == {playerId} && r.localEntityId == playerId
      && r.entities[playerId].id == playerId && r.entities[playerId].entityType == Player
      && r.entities[playerId].name == t.SourceEntity(t.localEntityId).name
      && r.entities[playerId].classId == t.SourceEntity(t.localEntityId).classId
      && r.effects == map[] && r.members == t.members
  {
  }

  /** `remove_local_object` keeps exactly the effects that neither come from nor land on the object. */
  lemma RemoveLocalObjectKeeps(t: Tracked, objectId: int)
    ensures var r := t.RemoveLocalObject(objectId);
      && (forall k :: k in r.effects <==> k in t.effects && t.effects[k].sourceId != objectId && t.effects[k].targetId != objectId)
      && (forall k :: k in r.effects ==> r.effects[k] == t.effects[k])
      && r.entities == t.entities && r.localEntityId == t.localEntityId && r.members == t.members
  {
  }

  /**
   * A sync of a live instance replaces its value and reports the previous one; a sync of an
   * instance the tracker does not hold changes nothing and reports (None, 0).
   */
  lemma SyncStatusEffectUpdates(t: Tracked, instanceId: int, value: nat)
    ensures var (r, e, oldValue) := t.SyncStatusEffect(instanceId, value);
      && (instanceId !in t.effects ==> r == t && e == None && oldValue == 0)
      && (instanceId in t.effects ==>
            && e == Some(t.effects[instanceId].(value := value))
            && oldValue == t.effects[instanceId].value
            && r.effects.Keys == t.effects.Keys
            && r.effects[instanceId].value == value
            && (forall k :: k in t.effects && k != instanceId ==> r.effects[k] == t.effects[k]))
      && r.entities == t.entities && r.localEntityId == t.localEntityId && r.members == t.members
  {
  }

  /** Adding a character places it in the given raid and party, keeps its known name and touches no one else. */
  lemma PartyAddPlaces(t: Tracked, raidInstanceId: int, partyInstanceId: int, characterId: int)
    ensures var r := t.PartyAdd(raidInstanceId, partyInstanceId, characterId);
      && r.members.Keys == t.members.Keys + {characterId}
      && r.members[characterId].raidInstanceId == raidInstanceId
      && r.members[characterId].partyInstanceId == partyInstanceId
      && (characterId in t.members ==> r.members[characterId].name == t.members[characterId].name)
      && (forall c :: c in t.members && c != characterId ==> r.members[c] == t.members[c])
      && r.entities == t.entities && r.effects == t.effects
  {
  }

  /** Removal keeps exactly the members that are not of that party under that name, unchanged. */
  lemma PartyRemoveDrops(t: Tracked, partyInstanceId: int, name: string)
    ensures var r := t.PartyRemove(partyInstanceId, name);
      && (forall c :: c in r.members <==>
            c in t.members && !(t.members[c].partyInstanceId == partyInstanceId && t.members[c].name == Some(name)))
      && (forall c :: c in r.members ==> r.members[c] == t.members[c])
      && r.entities == t.entities && r.effects == t.effects
  {
  }

  /** A named character that is added to a party and then removed from it under its name is gone. */
  lemma PartyAddThenRemove(t: Tracked, raidInstanceId: int, partyInstanceId: int, characterId: int, name: string)
    requires characterId in t.members && t.members[characterId].name == Some(name)
    ensures characterId !in t.PartyAdd(raidInstanceId, partyInstanceId, characterId).PartyRemove(partyInstanceId, name).members
  {
  }

  /** The placeholder for an id no spawn packet has introduced. */
  function Placeholder(id: int): TrackedEntity
  {
    TrackedEntity(id, "", Unknown, 0)
  }

  class Trackers {
    var entities: map<int, TrackedEntity>
    var localEntityId: int
    var effects: map<int, StatusEffect>
    var members: map<int, PartyMember>

    /** The trackers' current value; compiled, since `update_party` reads it. */
    function Model(): Tracked
      reads this
    {
      Tracked(entities, localEntityId, effects, members)
    }

    constructor ()
      ensures Model() == Tracked(map[], 0, map[], map[])
    {
      entities, localEntityId, effects, members := map[], 0, map[], map[];
    }

    function IdIsPlayer(id: int): (b: bool)
      reads this
      ensures b == Model().IdIsPlayer(id)
    {
      id in entities && entities[id].entityType == Player
    }

    function SourceEntity(id: int): (e: TrackedEntity)
      reads this
      ensures e == Model().SourceEntity(id)
    {
      if id in entities then entities[id] else Placeholder(id)
    }

    method GetOrCreateEntity(id: int) returns (e: TrackedEntity)
      modifies this`entities
      ensures Model() == old(Model()).Materialize(id)
      ensures e == entities[id]
    {
      if id !in entities {
        entities := entities[id := Placeholder(id)];
      }
      e := entities[id];
    }

    method GuessIsPlayer(e: TrackedEntity, skillId: int, playerSkills: set<int>) returns (g: TrackedEntity)
      modifies this`entities
      ensures g == e.GuessIsPlayer(skillId, playerSkills)
      ensures Model() == old(Model()).RecordGuess(e, skillId, playerSkills)
    {
      g := e.GuessIsPlayer(skillId, playerSkills);
      if g != e {
        entities := entities[e.id := g];
      }
    }

    method Spawn(id: int, kind: EntityType)
      modifies this`entities
      ensures Model() == old(Model()).Spawn(id, kind)
    {
      entities := entities[id := TrackedEntity(id, "", kind, 0)];
    }

    method InitEnv(playerId: int) returns (local: TrackedEntity)
      modifies this
      ensures Model() == old(Model()).InitEnv(playerId)
      ensures local == entities[playerId]
    {
      var previous := SourceEntity(localEntityId);
      local := previous.(id := playerId, entityType := Player);
      entities := map[playerId := local];
      localEntityId := playerId;
      effects := map[];
    }

    method RemoveLocalObject(objectId: int)
      modifies this`effects
      ensures Model() == old(Model()).RemoveLocalObject(objectId)
    {
      effects := map k | k in effects && effects[k].sourceId != objectId && effects[k].targetId != objectId :: effects[k];
    }

    method RemoveEntity(objectId: int)
      modifies this`entities
      ensures Model() == old(Model()).(entities := old(entities) - {objectId})
    {
      entities := entities - {objectId};
    }

    method SyncStatusEffect(instanceId: int, value: nat) returns (effect: Option<StatusEffect>, oldValue: nat)
      modifies this`effects
      ensures (Model(), effect, oldValue) == old(Model()).SyncStatusEffect(instanceId, value)
    {
      if instanceId in effects {
        oldValue := effects[instanceId].value;
        var e := effects[instanceId].(value := value);
        effects := effects[instanceId := e];
        effect := Some(e);
      } else {
        effect, oldValue := None, 0;
      }
    }

    method ResetPartyMappings()
      modifies this`members
      ensures Model() == old(Model()).ResetPartyMappings()
    {
      members := map[];
    }

    method PartyAdd(raidInstanceId: int, partyInstanceId: int, characterId: int)
      modifies this`members
      ensures Model() == old(Model()).PartyAdd(raidInstanceId, partyInstanceId, characterId)
    {
      var name := if characterId in members then members[characterId].name else None;
      members := members[characterId := PartyMember(raidInstanceId, partyInstanceId, name)];
    }

    /** `party_info`: the packet's effect on the trackers, which the tracker code decides. */
    method PartyInfo(update: Tracked -> Tracked)
      modifies this
      ensures Model() == update(old(Model()))
    {
      var t := update(Model());
      entities, localEntityId, effects, members := t.entities, t.localEntityId, t.effects, t.members;
    }

    method PartyRemove(partyInstanceId: int, name: string)
      modifies this`members
      ensures Model() == old(Model()).PartyRemove(partyInstanceId, name)
    {
      members := map c | c in members && !(members[c].partyInstanceId == partyInstanceId && members[c].name == Some(name)) :: members[c];
    }
  }
}
