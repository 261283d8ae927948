/**
 * The packet dispatcher: one branch per opcode, each changing a few fight-level fields,
 * the trackers and the loop's party-freeze flag, party cache and raid-end timestamp.
 * A packet is given already decoded; a payload of the wrong shape is a failed parse,
 * which changes nothing.
 */
module Handler {
  import opened Types
  import opened State

  /** The opcodes `handle` dispatches on; `OtherOpcode` stands for every opcode of the fall-through arm. */
  datatype Opcode =
    | InitEnv
    | RaidBegin
    | RaidBossKillNotify
    | RaidResult
    | TriggerBossBattleStatus
    | TriggerStartNotify
    | ZoneMemberLoadStatusNotify
    | SkillDamageNotify
    | SkillDamageAbnormalMoveNotify
    | NewProjectile
    | NewTrap
    | NewPC
    | NewNpc
    | NewNpcSummon
    | SkillCastNotify
    | SkillStartNotify
    | PartyInfo
    | PartyLeaveResult
    | PartyStatusEffectResultNotify
    | IdentityGaugeChangeNotify
    | RemoveObject
    | ZoneObjectUnpublishNotify
    | StatusEffectSyncDataNotify
    | OtherOpcode

  /** One (encrypted) hit of a damage packet. */
  datatype DamageEvent = DamageEvent(targetId: int, damage: int)

  /** The decoded body of a packet; `Unparsed` is a body no branch can parse. */
  datatype Payload =
    | Unparsed
    | InitEnvData(playerId: int)
    | RaidBeginData(raidId: int)
    | SpawnData(objectId: int, ownerId: int, skillId: int)
    | NewEntityData(entity: TrackedEntity, hp: int, maxHp: int)
    | RemoveObjectData(objectIds: seq<int>)
    | SkillData(sourceId: int, skillId: int)
    | SkillDamageData(sourceId: int, skillId: int, events: seq<DamageEvent>)
    | PartyInfoData
    | PartyLeaveData(partyInstanceId: int, name: string)
    | PartyResultData(raidInstanceId: int, partyInstanceId: int, characterId: int)
    | IdentityGaugeData(gauge1: int, gauge2: int, gauge3: int)
    | TriggerStartData(signal: int)
    | ZoneMemberLoadData(zoneId: int, zoneLevel: int)
    | ObjectData(objectId: int)
    | StatusEffectSyncData(instanceId: int, value: nat)

  /**
   * What the handler reads from outside the modelled state: the monotonic clock (`Instant::now`),
   * the wall clock (`Utc::now`, milliseconds), the region file, `update_party` on the trackers,
   * the player-skill table of `guess_is_player`, the damage decryption, which yields the
   * decrypted event or fails, the skill id `on_skill_start` returns for a caster and the
   * packet's skill id, the entity `get_source_entity` yields for a packet's source id (its
   * owner, when the tracker resolves one), `entity_tracker.party_info` applied with this
   * packet's contents, and the encounter as the encounter-state calls recorded so far leave
   * it (the loop applies it once `handle` returns).
   */
  datatype World = World(
    now: int,
    wallMs: int,
    region: Option<string>,
    partyOf: Tracked -> Party,
    playerSkills: set<int>,
    decrypt: DamageEvent -> Option<DamageEvent>,
    startedSkill: (TrackedEntity, int) -> int,
    sourceEntity: (Tracked, int) -> TrackedEntity,
    partyInfoUpdate: Tracked -> Tracked,
    encounterAfter: (Encounter, seq<StateCall>) -> Encounter)

  /** The loop variables `handle` receives by `&mut`. */
  datatype LoopLocals = LoopLocals(partyFreeze: bool, partyCache: Option<Party>, raidEndCd: int)

  /** Everything a packet can change. */
  datatype Machine = Machine(fight: Fight, tracked: Tracked, locals: LoopLocals)

  datatype Handled = Handled(machine: Machine, events: seq<UiEvent>)

  // ---------------------------------------------------------------------------
  // Lookup tables
  // ---------------------------------------------------------------------------

  const TrialRaidIds: set<int> := {308226, 308227, 308239, 308339}
  const ChallengeRaidIds: set<int> :=
    {308428, 308429, 308420, 308410, 308411, 308414, 308422, 308424, 308421, 308412,
     308423, 308426, 308416, 308419, 308415, 308437, 308417, 308418, 308425, 308430}

  /** The difficulty a `RaidBegin` sets: the trial and challenge raids by id, nothing otherwise. */
  function RaidDifficulty(raidId: int): (r: (string, int))
    ensures raidId in TrialRaidIds ==> r == ("Trial", 7)
    ensures raidId in ChallengeRaidIds ==> r == ("Challenge", 8)
    ensures raidId !in TrialRaidIds && raidId !in ChallengeRaidIds ==> r == ("", 0)
  {
    match raidId
    case 308226 | 308227 | 308239 | 308339 => ("Trial", 7)
    case 308428 | 308429 | 308420 | 308410 | 308411 | 308414 | 308422 | 308424
       | 308421 | 308412 | 308423 | 308426 | 308416 | 308419 | 308415 | 308437
       | 308417 | 308418 | 308425 | 308430 => ("Challenge", 8)
    case _ => ("", 0)
  }

  const ZoneDifficultyNames: seq<string> := ["Normal", "Hard", "Inferno", "Challenge", "Solo", "The First"]

  /** The difficulty of a zone level: levels 0 to 5 are named, their id is the level itself. */
  function ZoneDifficulty(zoneLevel: int): (r: Option<(string, int)>)
    ensures r.Some? <==> 0 <= zoneLevel < |ZoneDifficultyNames|
    ensures r.Some? ==> r.value == (ZoneDifficultyNames[zoneLevel], zoneLevel)
  {
    match zoneLevel
    case 0 => Some(("Normal", 0))
    case 1 => Some(("Hard", 1))
    case 2 => Some(("Inferno", 2))
    case 3 => Some(("Challenge", 3))
    case 4 => Some(("Solo", 4))
    case 5 => Some(("The First", 5))
    case _ => None
  }

  const ClearSignals: set<int> := {57, 59, 61, 63, 74, 76}
  const WipeSignals: set<int> := {58, 60, 62, 64, 75, 77}

  /** What a trigger signal reports: `Some(true)` a clear, `Some(false)` a wipe, `None` anything else. */
  function TriggerOutcome(signal: int): (r: Option<bool>)
    ensures r == Some(true) <==> signal in ClearSignals
    ensures r == Some(false) <==> signal in WipeSignals
  {
    match signal
    case 57 | 59 | 61 | 63 | 74 | 76 => Some(true)
    case 58 | 60 | 62 | 64 | 75 | 77 => Some(false)
    case _ => None
  }

  /** The shield absorbed between two syncs: `checked_sub` on unsigned values, 0 when the value grew. */
  function ShieldDelta(oldValue: nat, newValue: nat): (d: nat)
    ensures d == 0 <==> oldValue <= newValue
    ensures d > 0 ==> d + newValue == oldValue
    ensures d <= oldValue
  {
    if oldValue >= newValue then oldValue - newValue else 0
  }

  const DamageSuppressionMs: nat := 10000

  /** Damage packets are ignored for ten seconds after a raid ended (and after the loop started). */
  predicate DamageSuppressed(raidEndCd: int, now: int)
  {
    Elapsed(raidEndCd, now) < DamageSuppressionMs
  }

  // ---------------------------------------------------------------------------
  // The branches, on values
  // ---------------------------------------------------------------------------

  function Record(f: Fight, c: StateCall): Fight
  {
    f.(calls := f.calls + [c])
  }

  /**
   * The end of a raid (a result packet, or a clear or wipe trigger): the party is frozen and
   * taken from the cache, or computed when there is none; the raid-end timestamp restarts.
   */
  function EndOfRaid(m: Machine, world: World, raidClear: Option<bool>, phase: int): Machine
  {
    var info := if m.locals.partyCache.Some? then m.locals.partyCache.value else world.partyOf(m.tracked);
    var clear := if raidClear.Some? then raidClear.value else m.fight.raidClear;
    Machine(Record(m.fight.(partyInfo := info, raidClear := clear), PhaseTransition(phase)), m.tracked, LoopLocals(true, None, world.now))
  }

  /** Entering a zone clears the difficulty and marks damage valid again. */
  function Rearmed(f: Fight): Fight
  {
    f.(raidDifficulty := "", raidDifficultyId := 0, damageIsValid := true)
  }

  /** The region from the region file, when it can be read, goes to the state and its encounter. */
  function WithRegion(f: Fight, region: Option<string>): Fight
  {
    if region.Some? then f.(region := region, encounter := f.encounter.(region := region)) else f
  }

  function InitEnvSpec(m: Machine, data: Payload, world: World): Machine
  {
    match data
    case InitEnvData(playerId) =>
      var t := m.tracked.ResetPartyMappings().InitEnv(playerId);
      var f := Record(Rearmed(m.fight), InitEnvCall(playerId));
      Machine(WithRegion(f, world.region), t, m.locals.(partyCache := None))
    case _ => m
  }

  function RaidBeginSpec(m: Machine, data: Payload): Machine
  {
    match data
    case RaidBeginData(raidId) =>
      var (name, id) := RaidDifficulty(raidId);
      m.(fight := m.fight.(raidDifficulty := name, raidDifficultyId := id))
    case _ => m
  }

  function RaidBossKillSpec(m: Machine): Machine
  {
    m.(fight := Record(m.fight, PhaseTransition(1)).(raidClear := true))
  }

  function TriggerBossBattleSpec(m: Machine): Machine
  {
    var enc := m.fight.encounter;
    if enc.currentBossName == "" || enc.fightStart == 0 || enc.currentBossName == "Saydon" then
      m.(fight := Record(m.fight, PhaseTransition(3)))
    else
      m
  }

  function TriggerStartSpec(m: Machine, data: Payload, world: World): Machine
  {
    match data
    case TriggerStartData(signal) =>
      var outcome := TriggerOutcome(signal);
      if outcome == Some(true) then EndOfRaid(m, world, Some(true), 2)
      else if outcome == Some(false) then EndOfRaid(m, world, Some(false), 4)
      else m
    case _ => m
  }

  function ZoneMemberLoadSpec(m: Machine, data: Payload): Machine
  {
    match data
    case ZoneMemberLoadData(zoneId, zoneLevel) =>
      if m.fight.raidDifficultyId >= zoneId && m.fight.raidDifficulty != "" then m
      else
        var d := ZoneDifficulty(zoneLevel);
        if d.Some? then m.(fight := m.fight.(raidDifficulty := d.value.0, raidDifficultyId := d.value.1)) else m
    case _ => m
  }

  /**
   * One event of a damage packet: an event that fails to decrypt marks the damage invalid and
   * is skipped; every other event registers its target and the packet's source and is handed
   * to `on_damage`.
   */
  function DamageStep(f: Fight, t: Tracked, sourceId: int, skillId: int, abnormal: bool,
                      e: DamageEvent, world: World): (Fight, Tracked)
  {
    match world.decrypt(e)
    case None => (f.(damageIsValid := false), t)
    case Some(d) =>
      (Record(f, Damage(sourceId, d.targetId, skillId, d.damage, abnormal, world.wallMs)),
       t.Materialize(d.targetId).Materialize(sourceId))
  }

  /** The damage loop: every event of the packet in order. */
  function DamageSpec(f: Fight, t: Tracked, sourceId: int, skillId: int, abnormal: bool,
                      events: seq<DamageEvent>, world: World): (Fight, Tracked)
    decreases |events|
  {
    if events == [] then (f, t)
    else
      var s := DamageStep(f, t, sourceId, skillId, abnormal, events[0], world);
      DamageSpec(s.0, s.1, sourceId, skillId, abnormal, events[1..], world)
  }

  function SkillDamageSpec(m: Machine, data: Payload, world: World, abnormal: bool): Machine
  {
    if DamageSuppressed(m.locals.raidEndCd, world.now) then m
    else
      match data
      case SkillDamageData(sourceId, skillId, events) =>
        var r := DamageSpec(m.fight, m.tracked, sourceId, skillId, abnormal, events, world);
        Machine(r.0, r.1, m.locals)
      case _ => m
  }

  /**
   * A projectile or trap is linked to the timestamp of its owner's cast of the same skill,
   * when the owner is a player, the skill id is positive and such a cast was recorded.
   */
  function Correlate(f: Fight, t: Tracked, ownerId: int, skillId: int, objectId: int): Fight
  {
    if t.IdIsPlayer(ownerId) && skillId > 0 && (ownerId, skillId) in f.skillTimestamp then
      f.(projectileIdToTimestamp := f.projectileIdToTimestamp[objectId := f.skillTimestamp[(ownerId, skillId)]])
    else
      f
  }

  function SpawnSpec(m: Machine, data: Payload, kind: EntityType): Machine
  {
    match data
    case SpawnData(objectId, ownerId, skillId) =>
      var t := m.tracked.Spawn(objectId, kind);
      Machine(Correlate(m.fight, t, ownerId, skillId, objectId), t, m.locals)
    case _ => m
  }

  /** The kind a spawn packet gives its entity: `NewPC` a player, `NewNpcSummon` a summon, `NewNpc` the decoded one. */
  function RegisteredKind(op: Opcode, e: TrackedEntity): EntityType
  {
    if op == NewPC then Player else if op == NewNpcSummon then Summon else e.entityType
  }

  /** The call a spawn packet makes once the entity is stored: `on_new_pc` for a player, `on_new_npc` otherwise. */
  function NewEntityCall(op: Opcode, e: TrackedEntity, hp: int, maxHp: int): StateCall
  {
    if op == NewPC then NewPcCall(e, hp, maxHp) else NewNpcCall(e, hp, maxHp)
  }

  function NewEntitySpec(m: Machine, data: Payload, op: Opcode): Machine
  {
    match data
    case NewEntityData(e, hp, maxHp) =>
      var e' := e.(entityType := RegisteredKind(op, e));
      Machine(Record(m.fight, NewEntityCall(op, e', hp, maxHp)),
              m.tracked.(entities := m.tracked.entities[e.id := e']), m.locals)
    case _ => m
  }

  function SkillCastSpec(m: Machine, data: Payload, world: World): Machine
  {
    match data
    case SkillData(sourceId, skillId) =>
      var e := world.sourceEntity(m.tracked, sourceId);
      var g := e.GuessIsPlayer(skillId, world.playerSkills);
      var t := m.tracked.RecordGuess(e, skillId, world.playerSkills);
      var f := if g.classId == 202 || g.classId == 204 then Record(m.fight, SkillStart(g.id, skillId, world.wallMs)) else m.fight;
      Machine(f, t, m.locals)
    case _ => m
  }

  function SkillStartSpec(m: Machine, data: Payload, world: World): Machine
  {
    match data
    case SkillData(sourceId, skillId) =>
      var e := world.sourceEntity(m.tracked, sourceId);
      var g := e.GuessIsPlayer(skillId, world.playerSkills);
      var t := m.tracked.RecordGuess(e, skillId, world.playerSkills);
      var f := Record(m.fight, SkillStart(g.id, skillId, world.wallMs));
      var started := world.startedSkill(g, skillId);
      var f' := if g.entityType == Player && started > 0 then f.(skillTimestamp := f.skillTimestamp[(g.id, started) := world.wallMs]) else f;
      Machine(f', t, m.locals)
    case _ => m
  }

  function PartyInfoSpec(m: Machine, data: Payload, world: World): Machine
  {
    match data
    case PartyInfoData =>
      var t := world.partyInfoUpdate(m.tracked);
      var local := t.localEntityId;
      var f := if local in t.entities then Record(m.fight, LocalPlayerUpdate(local)) else m.fight;
      Machine(f, t, m.locals.(partyCache := None))
    case _ => m
  }

  function PartyLeaveSpec(m: Machine, data: Payload): Machine
  {
    match data
    case PartyLeaveData(partyInstanceId, name) =>
      Machine(m.fight, m.tracked.PartyRemove(partyInstanceId, name), m.locals.(partyCache := None))
    case _ => m
  }

  function PartyResultSpec(m: Machine, data: Payload): Machine
  {
    match data
    case PartyResultData(raidInstanceId, partyInstanceId, characterId) =>
      m.(tracked := m.tracked.PartyAdd(raidInstanceId, partyInstanceId, characterId))
    case _ => m
  }

  function IdentityEvents(data: Payload, canEmitDetails: bool): seq<UiEvent>
  {
    match data
    case IdentityGaugeData(g1, g2, g3) => if canEmitDetails then [IdentityUpdate(g1, g2, g3)] else []
    case _ => []
  }

  /** Every listed object leaves the entity map, and the effects on or from it leave the status tracker. */
  function RemoveObjects(t: Tracked, objectIds: seq<int>): Tracked
    decreases |objectIds|
  {
    if objectIds == [] then t
    else
      RemoveObjects(t.RemoveObject(objectIds[0]), objectIds[1..])
  }

  function RemoveObjectSpec(m: Machine, data: Payload): Machine
  {
    match data
    case RemoveObjectData(objectIds) => m.(tracked := RemoveObjects(m.tracked, objectIds))
    case _ => m
  }

  function UnpublishSpec(m: Machine, data: Payload): Machine
  {
    match data
    case ObjectData(objectId) => m.(tracked := m.tracked.RemoveLocalObject(objectId))
    case _ => m
  }

  function StatusSyncSpec(m: Machine, data: Payload): Machine
  {
    match data
    case StatusEffectSyncData(instanceId, value) =>
      var (t, effect, oldValue) := m.tracked.SyncStatusEffect(instanceId, value);
      var f := if effect.Some? && effect.value.effectType == Shield then
                 Record(m.fight, ShieldChange(instanceId, ShieldDelta(oldValue, effect.value.value)))
               else m.fight;
      Machine(f, t, m.locals)
    case _ => m
  }

  // Opcode families: `handle` is one match, grouped here by what the packets are about.

  /** Zone entry and difficulty. */
  predicate IsZoneOpcode(op: Opcode)
  {
    op == InitEnv || op == RaidBegin || op == ZoneMemberLoadStatusNotify
  }

  /** Boss kill, raid result and the boss-battle and clear/wipe triggers. */
  predicate IsRaidEndOpcode(op: Opcode)
  {
    op == RaidBossKillNotify || op == RaidResult || op == TriggerBossBattleStatus || op == TriggerStartNotify
  }

  /** Damage, and the projectiles and traps that deal it. */
  predicate IsHitOpcode(op: Opcode)
  {
    op == SkillDamageNotify || op == SkillDamageAbnormalMoveNotify || op == NewProjectile || op == NewTrap
  }

  /** New characters and monsters, and skill casts. */
  predicate IsCasterOpcode(op: Opcode)
  {
    op == NewPC || op == NewNpc || op == NewNpcSummon || op == SkillCastNotify || op == SkillStartNotify
  }

  predicate IsPartyOpcode(op: Opcode)
  {
    op == PartyInfo || op == PartyLeaveResult || op == PartyStatusEffectResultNotify
  }

  /** Object removal and status-effect syncs. */
  predicate IsObjectOpcode(op: Opcode)
  {
    op == RemoveObject || op == ZoneObjectUnpublishNotify || op == StatusEffectSyncDataNotify
  }

  function ZoneSpec(op: Opcode, data: Payload, m: Machine, world: World): Machine
  {
    if op == InitEnv then InitEnvSpec(m, data, world)
    else if op == RaidBegin then RaidBeginSpec(m, data)
    else if op == ZoneMemberLoadStatusNotify then ZoneMemberLoadSpec(m, data)
    else m
  }

  function RaidEndSpec(op: Opcode, data: Payload, m: Machine, world: World): Machine
  {
    if op == RaidBossKillNotify then RaidBossKillSpec(m)
    else if op == RaidResult then EndOfRaid(m, world, None, 0)
    else if op == TriggerBossBattleStatus then TriggerBossBattleSpec(m)
    else if op == TriggerStartNotify then TriggerStartSpec(m, data, world)
    else m
  }

  function HitSpec(op: Opcode, data: Payload, m: Machine, world: World): Machine
  {
    if op == SkillDamageNotify || op == SkillDamageAbnormalMoveNotify then
      SkillDamageSpec(m, data, world, op == SkillDamageAbnormalMoveNotify)
    else if op == NewProjectile || op == NewTrap then
      SpawnSpec(m, data, if op == NewProjectile then Projectile else Trap)
    else m
  }

  function CasterSpec(op: Opcode, data: Payload, m: Machine, world: World): Machine
  {
    if op == NewPC || op == NewNpc || op == NewNpcSummon then NewEntitySpec(m, data, op)
    else if op == SkillCastNotify then SkillCastSpec(m, data, world)
    else if op == SkillStartNotify then SkillStartSpec(m, data, world)
    else m
  }

  function PartySpec(op: Opcode, data: Payload, m: Machine, world: World): Machine
  {
    if op == PartyInfo then PartyInfoSpec(m, data, world)
    else if op == PartyLeaveResult then PartyLeaveSpec(m, data)
    else if op == PartyStatusEffectResultNotify then PartyResultSpec(m, data)
    else m
  }

  function ObjectSpec(op: Opcode, data: Payload, m: Machine): Machine
  {
    if op == RemoveObject then RemoveObjectSpec(m, data)
    else if op == ZoneObjectUnpublishNotify then UnpublishSpec(m, data)
    else if op == StatusEffectSyncDataNotify then StatusSyncSpec(m, data)
    else m
  }

  /** `handle` on values; only the identity gauge emits an event, and every other opcode is ignored. */
  function HandleSpec(op: Opcode, data: Payload, m: Machine, world: World, canEmitDetails: bool): Handled
  {
    if IsZoneOpcode(op) then Handled(ZoneSpec(op, data, m, world), [])
    else if IsRaidEndOpcode(op) then Handled(RaidEndSpec(op, data, m, world), [])
    else if IsHitOpcode(op) then Handled(HitSpec(op, data, m, world), [])
    else if IsCasterOpcode(op) then Handled(CasterSpec(op, data, m, world), [])
    else if IsPartyOpcode(op) then Handled(PartySpec(op, data, m, world), [])
    else if IsObjectOpcode(op) then Handled(ObjectSpec(op, data, m), [])
    else if op == IdentityGaugeChangeNotify then Handled(m, IdentityEvents(data, canEmitDetails))
    else Handled(m, [])
  }

  // ---------------------------------------------------------------------------
  // The branches, in place
  // ---------------------------------------------------------------------------

  method Rearm(st: EncounterState)
    modifies st
    ensures st.Model() == Rearmed(old(st.Model()))
  {
    st.raidDifficulty := "";
    st.raidDifficultyId := 0;
    st.damageIsValid := true;
  }

  method SetRegion(st: EncounterState, region: Option<string>)
    modifies st
    ensures st.Model() == WithRegion(old(st.Model()), region)
  {
    if region.Some? {
      st.region := region;
      st.encounter := st.encounter.(region := region);
    }
  }

  method HandleInitEnv(st: EncounterState, trk: Trackers, locals: LoopLocals, data: Payload, world: World)
    returns (out: LoopLocals)
    modifies st, trk
    ensures var r := InitEnvSpec(Machine(old(st.Model()), old(trk.Model()), locals), data, world);
      st.Model() == r.fight && trk.Model() == r.tracked && out == r.locals
  {
    out := locals;
    if data.InitEnvData? {
      trk.ResetPartyMappings();
      Rearm(st);
      out := out.(partyCache := None);
      var entity := trk.InitEnv(data.playerId);
      st.Record(InitEnvCall(entity.id));
      SetRegion(st, world.region);
    }
  }

  method HandleRaidBegin(st: EncounterState, trk: Trackers, locals: LoopLocals, data: Payload)
    modifies st
    ensures st.Model() == RaidBeginSpec(Machine(old(st.Model()), trk.Model(), locals), data).fight
  {
    if data.RaidBeginData? {
      var (name, id) := RaidDifficulty(data.raidId);
      st.raidDifficulty := name;
      st.raidDifficultyId := id;
    }
  }

  /** The end-of-raid assignments shared by `RaidResult` and the clear and wipe triggers. */
  method EndRaid(st: EncounterState, trk: Trackers, locals: LoopLocals, world: World, raidClear: Option<bool>, phase: int)
    returns (out: LoopLocals)
    modifies st
    ensures var r := EndOfRaid(Machine(old(st.Model()), trk.Model(), locals), world, raidClear, phase);
      st.Model() == r.fight && out == r.locals
  {
    var info := if locals.partyCache.Some? then locals.partyCache.value else world.partyOf(trk.Model());
    var clear := if raidClear.Some? then raidClear.value else st.raidClear;
    st.partyInfo, st.raidClear := info, clear;
    st.OnPhaseTransition(phase);
    out := LoopLocals(true, None, world.now);
  }

  method HandleZoneMemberLoad(st: EncounterState, trk: Trackers, locals: LoopLocals, data: Payload)
    modifies st
    ensures st.Model() == ZoneMemberLoadSpec(Machine(old(st.Model()), trk.Model(), locals), data).fight
  {
    if data.ZoneMemberLoadData? {
      if st.raidDifficultyId >= data.zoneId && st.raidDifficulty != "" {
        return;
      }
      var d := ZoneDifficulty(data.zoneLevel);
      if d.Some? {
        st.raidDifficulty := d.value.0;
        st.raidDifficultyId := d.value.1;
      }
    }
  }

  /** The shared body of `SkillDamageNotify` and `SkillDamageAbnormalMoveNotify`. */
  method HandleSkillDamage(st: EncounterState, trk: Trackers, locals: LoopLocals, data: Payload, world: World, abnormal: bool)
    modifies st, trk
    ensures var r := SkillDamageSpec(Machine(old(st.Model()), old(trk.Model()), locals), data, world, abnormal);
      st.Model() == r.fight && trk.Model() == r.tracked
  {
    if DamageSuppressed(locals.raidEndCd, world.now) {
      return;
    }
    if !data.SkillDamageData? {
      return;
    }
    var events := data.events;
    var i := 0;
    while i < |events|
      invariant 0 <= i <= |events|
      invariant DamageSpec(st.Model(), trk.Model(), data.sourceId, data.skillId, abnormal, events[i..], world)
             == DamageSpec(old(st.Model()), old(trk.Model()), data.sourceId, data.skillId, abnormal, events, world)
    {
      assert events[i..][1..] == events[i + 1..];
      var decrypted := world.decrypt(events[i]);
      if decrypted.None? {
        st.damageIsValid := false;
      } else {
        var target := trk.GetOrCreateEntity(decrypted.value.targetId);
        var source := trk.GetOrCreateEntity(data.sourceId);
        st.Record(Damage(data.sourceId, decrypted.value.targetId, data.skillId, decrypted.value.damage, abnormal, world.wallMs));
      }
      i := i + 1;
    }
  }

  /** `NewProjectile` and `NewTrap`: register the object, then correlate it with its owner's cast. */
  method HandleSpawn(st: EncounterState, trk: Trackers, locals: LoopLocals, data: Payload, kind: EntityType)
    modifies st, trk
    ensures var r := SpawnSpec(Machine(old(st.Model()), old(trk.Model()), locals), data, kind);
      st.Model() == r.fight && trk.Model() == r.tracked
  {
    if data.SpawnData? {
      ghost var f := st.Model();
      trk.Spawn(data.objectId, kind);
      if trk.IdIsPlayer(data.ownerId) && data.skillId > 0 {
        var key := (data.ownerId, data.skillId);
        if key in st.skillTimestamp {
          st.projectileIdToTimestamp := st.projectileIdToTimestamp[data.objectId := st.skillTimestamp[key]];
        }
      }
      assert st.Model() == Correlate(f, trk.Model(), data.ownerId, data.skillId, data.objectId);
    }
  }

  method HandleNewEntity(st: EncounterState, trk: Trackers, locals: LoopLocals, data: Payload, op: Opcode)
    modifies st, trk
    ensures var r := NewEntitySpec(Machine(old(st.Model()), old(trk.Model()), locals), data, op);
      st.Model() == r.fight && trk.Model() == r.tracked
  {
    if data.NewEntityData? {
      var e := data.entity.(entityType := RegisteredKind(op, data.entity));
      trk.entities := trk.entities[data.entity.id := e];
      st.Record(NewEntityCall(op, e, data.hp, data.maxHp));
    }
  }

  method HandleSkillCast(st: EncounterState, trk: Trackers, locals: LoopLocals, data: Payload, world: World)
    modifies st, trk
    ensures var r := SkillCastSpec(Machine(old(st.Model()), old(trk.Model()), locals), data, world);
      st.Model() == r.fight && trk.Model() == r.tracked
  {
    if data.SkillData? {
      var entity := world.sourceEntity(trk.Model(), data.sourceId);
      entity := trk.GuessIsPlayer(entity, data.skillId, world.playerSkills);
      if entity.classId == 202 || entity.classId == 204 {
        st.Record(SkillStart(entity.id, data.skillId, world.wallMs));
      }
    }
  }

  method HandleSkillStart(st: EncounterState, trk: Trackers, locals: LoopLocals, data: Payload, world: World)
    modifies st, trk
    ensures var r := SkillStartSpec(Machine(old(st.Model()), old(trk.Model()), locals), data, world);
      st.Model() == r.fight && trk.Model() == r.tracked
  {
    if data.SkillData? {
      var entity := world.sourceEntity(trk.Model(), data.sourceId);
      entity := trk.GuessIsPlayer(entity, data.skillId, world.playerSkills);
      var timestamp := world.wallMs;
      st.Record(SkillStart(entity.id, data.skillId, timestamp));
      var skillId := world.startedSkill(entity, data.skillId);
      if entity.entityType == Player && skillId > 0 {
        st.NewCast(entity.id, skillId, timestamp);
      }
    }
  }

  method HandlePartyInfo(st: EncounterState, trk: Trackers, locals: LoopLocals, data: Payload, world: World)
    returns (out: LoopLocals)
    modifies st, trk
    ensures var r := PartyInfoSpec(Machine(old(st.Model()), old(trk.Model()), locals), data, world);
      st.Model() == r.fight && trk.Model() == r.tracked && out == r.locals
  {
    out := locals;
    if data.PartyInfoData? {
      trk.PartyInfo(world.partyInfoUpdate);
      var localPlayerId := trk.localEntityId;
      if localPlayerId in trk.entities {
        st.Record(LocalPlayerUpdate(localPlayerId));
      }
      out := out.(partyCache := None);
    }
  }

  method HandlePartyLeave(st: EncounterState, trk: Trackers, locals: LoopLocals, data: Payload) returns (out: LoopLocals)
    modifies trk
    ensures var r := PartyLeaveSpec(Machine(st.Model(), old(trk.Model()), locals), data);
      trk.Model() == r.tracked && out == r.locals
  {
    out := locals;
    if data.PartyLeaveData? {
      trk.PartyRemove(data.partyInstanceId, data.name);
      out := out.(partyCache := None);
    }
  }

  method HandleRemoveObject(st: EncounterState, trk: Trackers, locals: LoopLocals, data: Payload)
    modifies trk
    ensures trk.Model() == RemoveObjectSpec(Machine(st.Model(), old(trk.Model()), locals), data).tracked
  {
    if data.RemoveObjectData? {
      var ids := data.objectIds;
      for i := 0 to |ids|
        invariant RemoveObjects(trk.Model(), ids[i..]) == RemoveObjects(old(trk.Model()), ids)
      {
        assert ids[i..][1..] == ids[i + 1..];
        trk.RemoveEntity(ids[i]);
        trk.RemoveLocalObject(ids[i]);
      }
    }
  }

  method HandleStatusSync(st: EncounterState, trk: Trackers, locals: LoopLocals, data: Payload)
    modifies st, trk
    ensures var r := StatusSyncSpec(Machine(old(st.Model()), old(trk.Model()), locals), data);
      st.Model() == r.fight && trk.Model() == r.tracked
  {
    if data.StatusEffectSyncData? {
      var effect, oldValue := trk.SyncStatusEffect(data.instanceId, data.value);
      if effect.Some? && effect.value.effectType == Shield {
        var change := ShieldDelta(oldValue, effect.value.value);
        st.Record(ShieldChange(data.instanceId, change));
      }
    }
  }

  method HandleZone(op: Opcode, data: Payload, st: EncounterState, trk: Trackers, locals: LoopLocals, world: World)
    returns (out: LoopLocals)
    modifies st, trk
    ensures var r := ZoneSpec(op, data, Machine(old(st.Model()), old(trk.Model()), locals), world);
      st.Model() == r.fight && trk.Model() == r.tracked && out == r.locals
  {
    out := locals;
    if op == InitEnv {
      out := HandleInitEnv(st, trk, locals, data, world);
    } else if op == RaidBegin {
      HandleRaidBegin(st, trk, locals, data);
    } else if op == ZoneMemberLoadStatusNotify {
      HandleZoneMemberLoad(st, trk, locals, data);
    }
  }

  method HandleRaidEnd(op: Opcode, data: Payload, st: EncounterState, trk: Trackers, locals: LoopLocals, world: World)
    returns (out: LoopLocals)
    modifies st
    ensures var r := RaidEndSpec(op, data, Machine(old(st.Model()), trk.Model(), locals), world);
      st.Model() == r.fight && trk.Model() == r.tracked && out == r.locals
  {
    out := locals;
    if op == RaidBossKillNotify {
      st.OnPhaseTransition(1);
      st.raidClear := true;
    } else if op == RaidResult {
      out := EndRaid(st, trk, locals, world, None, 0);
    } else if op == TriggerBossBattleStatus {
      if st.encounter.currentBossName == "" || st.encounter.fightStart == 0 || st.encounter.currentBossName == "Saydon" {
        st.OnPhaseTransition(3);
      }
    } else if op == TriggerStartNotify {
      out := HandleTriggerStart(st, trk, locals, data, world);
    }
  }

  method HandleTriggerStart(st: EncounterState, trk: Trackers, locals: LoopLocals, data: Payload, world: World)
    returns (out: LoopLocals)
    modifies st
    ensures var r := TriggerStartSpec(Machine(old(st.Model()), trk.Model(), locals), data, world);
      st.Model() == r.fight && out == r.locals
  {
    out := locals;
    if data.TriggerStartData? {
      var outcome := TriggerOutcome(data.signal);
      if outcome == Some(true) {
        out := EndRaid(st, trk, locals, world, Some(true), 2);
      } else if outcome == Some(false) {
        out := EndRaid(st, trk, locals, world, Some(false), 4);
      }
    }
  }

  method HandleHit(op: Opcode, data: Payload, st: EncounterState, trk: Trackers, locals: LoopLocals, world: World)
    modifies st, trk
    ensures var r := HitSpec(op, data, Machine(old(st.Model()), old(trk.Model()), locals), world);
      st.Model() == r.fight && trk.Model() == r.tracked && locals == r.locals
  {
    if op == SkillDamageNotify || op == SkillDamageAbnormalMoveNotify {
      HandleSkillDamage(st, trk, locals, data, world, op == SkillDamageAbnormalMoveNotify);
    } else if op == NewProjectile || op == NewTrap {
      HandleSpawn(st, trk, locals, data, if op == NewProjectile then Projectile else Trap);
    }
  }

  method HandleCaster(op: Opcode, data: Payload, st: EncounterState, trk: Trackers, locals: LoopLocals, world: World)
    modifies st, trk
    ensures var r := CasterSpec(op, data, Machine(old(st.Model()), old(trk.Model()), locals), world);
      st.Model() == r.fight && trk.Model() == r.tracked && locals == r.locals
  {
    if op == NewPC || op == NewNpc || op == NewNpcSummon {
      HandleNewEntity(st, trk, locals, data, op);
    } else if op == SkillCastNotify {
      HandleSkillCast(st, trk, locals, data, world);
    } else if op == SkillStartNotify {
      HandleSkillStart(st, trk, locals, data, world);
    }
  }

  method HandleParty(op: Opcode, data: Payload, st: EncounterState, trk: Trackers, locals: LoopLocals, world: World)
    returns (out: LoopLocals)
    modifies st, trk
    ensures var r := PartySpec(op, data, Machine(old(st.Model()), old(trk.Model()), locals), world);
      st.Model() == r.fight && trk.Model() == r.tracked && out == r.locals
  {
    out := locals;
    if op == PartyInfo {
      out := HandlePartyInfo(st, trk, locals, data, world);
    } else if op == PartyLeaveResult {
      out := HandlePartyLeave(st, trk, locals, data);
    } else if op == PartyStatusEffectResultNotify {
      if data.PartyResultData? {
        trk.PartyAdd(data.raidInstanceId, data.partyInstanceId, data.characterId);
      }
    }
  }

  method HandleObject(op: Opcode, data: Payload, st: EncounterState, trk: Trackers, locals: LoopLocals)
    modifies st, trk
    ensures var r := ObjectSpec(op, data, Machine(old(st.Model()), old(trk.Model()), locals));
      st.Model() == r.fight && trk.Model() == r.tracked && locals == r.locals
  {
    if op == RemoveObject {
      HandleRemoveObject(st, trk, locals, data);
    } else if op == ZoneObjectUnpublishNotify {
      if data.ObjectData? {
        trk.RemoveLocalObject(data.objectId);
      }
    } else if op == StatusEffectSyncDataNotify {
      HandleStatusSync(st, trk, locals, data);
    }
  }

  /** `handle`: dispatch on the opcode; the returned events are the ones emitted to the UI. */
  method Handle(op: Opcode, data: Payload, st: EncounterState, trk: Trackers, locals: LoopLocals, world: World, canEmitDetails: bool)
    returns (out: LoopLocals, events: seq<UiEvent>)
    modifies st, trk
    ensures var r := HandleSpec(op, data, Machine(old(st.Model()), old(trk.Model()), locals), world, canEmitDetails);
      st.Model() == r.machine.fight && trk.Model() == r.machine.tracked && out == r.machine.locals && events == r.events
  {
    out, events := locals, [];
    ghost var m := Machine(st.Model(), trk.Model(), locals);
    if IsZoneOpcode(op) {
      assert HandleSpec(op, data, m, world, canEmitDetails) == Handled(ZoneSpec(op, data, m, world), []);
      out := HandleZone(op, data, st, trk, locals, world);
    } else if IsRaidEndOpcode(op) {
      assert HandleSpec(op, data, m, world, canEmitDetails) == Handled(RaidEndSpec(op, data, m, world), []);
      out := HandleRaidEnd(op, data, st, trk, locals, world);
    } else if IsHitOpcode(op) {
      assert HandleSpec(op, data, m, world, canEmitDetails) == Handled(HitSpec(op, data, m, world), []);
      HandleHit(op, data, st, trk, locals, world);
    } else if IsCasterOpcode(op) {
      assert HandleSpec(op, data, m, world, canEmitDetails) == Handled(CasterSpec(op, data, m, world), []);
      HandleCaster(op, data, st, trk, locals, world);
    } else if IsPartyOpcode(op) {
      assert HandleSpec(op, data, m, world, canEmitDetails) == Handled(PartySpec(op, data, m, world), []);
      out := HandleParty(op, data, st, trk, locals, world);
    } else if IsObjectOpcode(op) {
      assert HandleSpec(op, data, m, world, canEmitDetails) == Handled(ObjectSpec(op, data, m), []);
      HandleObject(op, data, st, trk, locals);
    } else if op == IdentityGaugeChangeNotify {
      if data.IdentityGaugeData? && canEmitDetails {
        events := [IdentityUpdate(data.gauge1, data.gauge2, data.gauge3)];
      }
    }
  }
}
