/**
 * What `handle` promises across packets: the damage loop's effect on validity, the call log
 * and the entity map, object removal, the ten-second damage suppression after a raid ends,
 * the party cache and freeze flag, and which packets touch which part of the state.
 */
module HandlerProperties {
  import opened Types
  import opened State
  import opened Handler

  // ---------------------------------------------------------------------------
  // The damage loop
  // ---------------------------------------------------------------------------

  /** Every event of the packet decrypts. */
  predicate AllDecrypt(events: seq<DamageEvent>, decrypt: DamageEvent -> Option<DamageEvent>)
  {
    forall i :: 0 <= i < |events| ==> decrypt(events[i]).Some?
  }

  /** Some event of the packet decrypts. */
  predicate AnyDecrypts(events: seq<DamageEvent>, decrypt: DamageEvent -> Option<DamageEvent>)
  {
    exists i :: 0 <= i < |events| && decrypt(events[i]).Some?
  }

  /** The targets of the events that decrypt. */
  function DecryptedTargets(events: seq<DamageEvent>, decrypt: DamageEvent -> Option<DamageEvent>): set<int>
  {
    set i | 0 <= i < |events| && decrypt(events[i]).Some? :: decrypt(events[i]).value.targetId
  }

  lemma DecryptionSplits(events: seq<DamageEvent>, decrypt: DamageEvent -> Option<DamageEvent>)
    requires events != []
    ensures AllDecrypt(events, decrypt) <==> decrypt(events[0]).Some? && AllDecrypt(events[1..], decrypt)
    ensures AnyDecrypts(events, decrypt) <==> decrypt(events[0]).Some? || AnyDecrypts(events[1..], decrypt)
    ensures DecryptedTargets(events, decrypt)
         == (if decrypt(events[0]).Some? then {decrypt(events[0]).value.targetId} else {})
            + DecryptedTargets(events[1..], decrypt)
  {
    var rest := events[1..];
    assert forall i :: 1 <= i < |events| ==> events[i] == rest[i - 1];
    if AnyDecrypts(events, decrypt) && !decrypt(events[0]).Some? {
      var i :| 0 <= i < |events| && decrypt(events[i]).Some?;
      assert decrypt(rest[i - 1]).Some?;
    }
    var lhs := DecryptedTargets(events, decrypt);
    var rhs := (if decrypt(events[0]).Some? then {decrypt(events[0]).value.targetId} else {})
               + DecryptedTargets(rest, decrypt);
    forall x | x in lhs ensures x in rhs {
      var i :| 0 <= i < |events| && decrypt(events[i]).Some? && decrypt(events[i]).value.targetId == x;
      if i > 0 {
        assert decrypt(rest[i - 1]).value.targetId == x;
      }
    }
    forall x | x in rhs ensures x in lhs {
      if x !in DecryptedTargets(rest, decrypt) {
        assert decrypt(events[0]).value.targetId == x;
      } else {
        var j :| 0 <= j < |rest| && decrypt(rest[j]).Some? && decrypt(rest[j]).value.targetId == x;
        assert events[j + 1] == rest[j];
      }
    }
  }

  /**
   * `damage_is_valid` is a latch: after a damage packet it holds exactly when it held before
   * and every event of the packet decrypted.
   */
  lemma {:induction false} DamageLatch(f: Fight, t: Tracked, sourceId: int, skillId: int, abnormal: bool,
                                       events: seq<DamageEvent>, world: World)
    ensures DamageSpec(f, t, sourceId, skillId, abnormal, events, world).0.damageIsValid
        <==> f.damageIsValid && AllDecrypt(events, world.decrypt)
    decreases |events|
  {
    if events != [] {
      DecryptionSplits(events, world.decrypt);
      var s := DamageStep(f, t, sourceId, skillId, abnormal, events[0], world);
      DamageLatch(s.0, s.1, sourceId, skillId, abnormal, events[1..], world);
    }
  }

  /** A fight with its damage-validity flag and call log blanked out. */
  function WithoutDamage(f: Fight): Fight
  {
    f.(damageIsValid := true, calls := [])
  }

  /** The fight-level flags only the loop itself sets: `resetting`, `saved` and the boss-only setting. */
  function LoopFlags(f: Fight): (bool, bool, bool, bool)
  {
    (f.resetting, f.saved, f.bossOnlyDamage, f.encounter.bossOnlyDamage)
  }

  lemma DamageStepKeepsFight(f: Fight, t: Tracked, sourceId: int, skillId: int, abnormal: bool,
                             e: DamageEvent, world: World)
    ensures WithoutDamage(DamageStep(f, t, sourceId, skillId, abnormal, e, world).0) == WithoutDamage(f)
  {
    match world.decrypt(e)
    case None =>
    case Some(d) =>
      assert DamageStep(f, t, sourceId, skillId, abnormal, e, world).0
          == f.(calls := f.calls + [Damage(sourceId, d.targetId, skillId, d.damage, abnormal, world.wallMs)]);
  }

  /** The damage loop changes no fight-level field other than validity and the call log. */
  lemma {:induction false} DamageKeepsFight(f: Fight, t: Tracked, sourceId: int, skillId: int, abnormal: bool,
                                            events: seq<DamageEvent>, world: World)
    ensures WithoutDamage(DamageSpec(f, t, sourceId, skillId, abnormal, events, world).0) == WithoutDamage(f)
    decreases |events|
  {
    if events != [] {
      var s := DamageStep(f, t, sourceId, skillId, abnormal, events[0], world);
      DamageStepKeepsFight(f, t, sourceId, skillId, abnormal, events[0], world);
      DamageKeepsFight(s.0, s.1, sourceId, skillId, abnormal, events[1..], world);
    }
  }

  /** An `on_damage` record of the packet: its source and skill, its wall-clock time, a decrypted target. */
  predicate FromPacket(c: StateCall, sourceId: int, skillId: int, abnormal: bool, wallMs: int, targets: set<int>)
  {
    c.Damage? && c.sourceId == sourceId && c.skillId == skillId && c.abnormalMove == abnormal
    && c.timestamp == wallMs && c.targetId in targets
  }

  /** One step appends the event's `on_damage` record when it decrypts, and nothing otherwise. */
  lemma DamageStepRecords(f: Fight, t: Tracked, sourceId: int, skillId: int, abnormal: bool,
                          e: DamageEvent, world: World)
    ensures var r := DamageStep(f, t, sourceId, skillId, abnormal, e, world).0;
      && (world.decrypt(e).None? ==> r.calls == f.calls)
      && (world.decrypt(e).Some? ==> r.calls == f.calls + [Damage(sourceId, world.decrypt(e).value.targetId, skillId,
                                                                   world.decrypt(e).value.damage, abnormal, world.wallMs)])
  {
  }

  /**
   * The damage loop appends to the call log, at most one record per event and exactly one
   * per event when all decrypt.
   */
  lemma {:induction false} DamageRecordCount(f: Fight, t: Tracked, sourceId: int, skillId: int, abnormal: bool,
                                             events: seq<DamageEvent>, world: World)
    ensures var r := DamageSpec(f, t, sourceId, skillId, abnormal, events, world).0;
      && |f.calls| <= |r.calls| <= |f.calls| + |events|
      && r.calls[..|f.calls|] == f.calls
      && (AllDecrypt(events, world.decrypt) ==> |r.calls| == |f.calls| + |events|)
    decreases |events|
  {
    if events != [] {
      var s := DamageStep(f, t, sourceId, skillId, abnormal, events[0], world);
      DamageStepRecords(f, t, sourceId, skillId, abnormal, events[0], world);
      DamageRecordCount(s.0, s.1, sourceId, skillId, abnormal, events[1..], world);
      var r := DamageSpec(s.0, s.1, sourceId, skillId, abnormal, events[1..], world).0;
      assert r.calls[..|f.calls|] == r.calls[..|s.0.calls|][..|f.calls|];
      assert AllDecrypt(events, world.decrypt) ==> AllDecrypt(events[1..], world.decrypt) && world.decrypt(events[0]).Some?;
    }
  }

  /** Every record the damage loop appends is an `on_damage` record of this packet with a decrypted target. */
  lemma {:induction false} DamageRecords(f: Fight, t: Tracked, sourceId: int, skillId: int, abnormal: bool,
                                         events: seq<DamageEvent>, world: World)
    ensures var r := DamageSpec(f, t, sourceId, skillId, abnormal, events, world).0;
      forall k :: |f.calls| <= k < |r.calls| ==>
        FromPacket(r.calls[k], sourceId, skillId, abnormal, world.wallMs, DecryptedTargets(events, world.decrypt))
    decreases |events|
  {
    if events != [] {
      DecryptionSplits(events, world.decrypt);
      var s := DamageStep(f, t, sourceId, skillId, abnormal, events[0], world);
      DamageStepRecords(f, t, sourceId, skillId, abnormal, events[0], world);
      DamageRecords(s.0, s.1, sourceId, skillId, abnormal, events[1..], world);
      DamageRecordCount(s.0, s.1, sourceId, skillId, abnormal, events[1..], world);
      var r := DamageSpec(s.0, s.1, sourceId, skillId, abnormal, events[1..], world).0;
      assert DecryptedTargets(events[1..], world.decrypt) <= DecryptedTargets(events, world.decrypt);
      if world.decrypt(events[0]).Some? {
        assert r.calls[|f.calls|] == s.0.calls[|f.calls|];
        assert world.decrypt(events[0]).value.targetId in DecryptedTargets(events, world.decrypt);
      }
    }
  }

  lemma DamageStepRegisters(f: Fight, t: Tracked, sourceId: int, skillId: int, abnormal: bool,
                            e: DamageEvent, world: World)
    ensures var r := DamageStep(f, t, sourceId, skillId, abnormal, e, world).1;
      && r.entities.Keys == t.entities.Keys + (if world.decrypt(e).Some? then {world.decrypt(e).value.targetId, sourceId} else {})
      && (forall k :: k in t.entities ==> r.entities[k] == t.entities[k])
      && (forall k :: k in r.entities && k !in t.entities ==> r.entities[k] == Placeholder(k))
      && r.localEntityId == t.localEntityId && r.effects == t.effects && r.members == t.members
  {
    match world.decrypt(e)
    case None =>
    case Some(d) =>
      MaterializeRegisters(t, d.targetId);
      MaterializeRegisters(t.Materialize(d.targetId), sourceId);
  }

  /**
   * The damage loop registers every decrypted target and, when anything decrypted, the
   * source, and no other entity.
   */
  lemma {:induction false} DamageRegisters(f: Fight, t: Tracked, sourceId: int, skillId: int, abnormal: bool,
                                           events: seq<DamageEvent>, world: World)
    ensures var r := DamageSpec(f, t, sourceId, skillId, abnormal, events, world).1;
      r.entities.Keys == t.entities.Keys + DecryptedTargets(events, world.decrypt)
                         + (if AnyDecrypts(events, world.decrypt) then {sourceId} else {})
    decreases |events|
  {
    if events != [] {
      DecryptionSplits(events, world.decrypt);
      var s := DamageStep(f, t, sourceId, skillId, abnormal, events[0], world);
      DamageStepRegisters(f, t, sourceId, skillId, abnormal, events[0], world);
      DamageRegisters(s.0, s.1, sourceId, skillId, abnormal, events[1..], world);
    }
  }

  /**
   * The damage loop never alters an entity that was already known, every entity it adds is a
   * placeholder, and the status and party trackers are untouched.
   */
  lemma {:induction false} DamageKeepsKnown(f: Fight, t: Tracked, sourceId: int, skillId: int, abnormal: bool,
                                            events: seq<DamageEvent>, world: World)
    ensures var r := DamageSpec(f, t, sourceId, skillId, abnormal, events, world).1;
      && (forall k :: k in t.entities ==> k in r.entities && r.entities[k] == t.entities[k])
      && (forall k :: k in r.entities && k !in t.entities ==> r.entities[k] == Placeholder(k))
      && r.localEntityId == t.localEntityId && r.effects == t.effects && r.members == t.members
    decreases |events|
  {
    if events != [] {
      var s := DamageStep(f, t, sourceId, skillId, abnormal, events[0], world);
      DamageStepRegisters(f, t, sourceId, skillId, abnormal, events[0], world);
      DamageKeepsKnown(s.0, s.1, sourceId, skillId, abnormal, events[1..], world);
    }
  }

  // ---------------------------------------------------------------------------
  // Object removal
  // ---------------------------------------------------------------------------

  /**
   * `RemoveObject` drops exactly the listed entities and exactly the effects coming from or
   * landing on one of them; everything that stays is unchanged.
   */
  lemma {:induction false} RemoveObjectsEffect(t: Tracked, ids: seq<int>)
    ensures var r := RemoveObjects(t, ids);
      && (forall id :: id in r.entities <==> id in t.entities && id !in ids)
      && (forall id :: id in r.entities ==> r.entities[id] == t.entities[id])
      && (forall k :: k in r.effects <==> k in t.effects && t.effects[k].sourceId !in ids && t.effects[k].targetId !in ids)
      && (forall k :: k in r.effects ==> r.effects[k] == t.effects[k])
      && r.localEntityId == t.localEntityId && r.members == t.members
    decreases |ids|
  {
    if ids != [] {
      var t' := t.RemoveObject(ids[0]);
      RemoveLocalObjectKeeps(t.(entities := t.entities - {ids[0]}), ids[0]);
      RemoveObjectsEffect(t', ids[1..]);
      assert forall x :: x in ids <==> x == ids[0] || x in ids[1..];
    }
  }

  // ---------------------------------------------------------------------------
  // `handle` as a whole
  // ---------------------------------------------------------------------------

  predicate IsDamageOpcode(op: Opcode)
  {
    op == SkillDamageNotify || op == SkillDamageAbnormalMoveNotify
  }

  /** Within ten seconds of a raid's end, a damage packet changes nothing and emits nothing. */
  lemma SuppressedDamageIgnored(op: Opcode, data: Payload, m: Machine, world: World, canEmitDetails: bool)
    requires IsDamageOpcode(op)
    requires DamageSuppressed(m.locals.raidEndCd, world.now)
    ensures HandleSpec(op, data, m, world, canEmitDetails) == Handled(m, [])
  {
  }

  /**
   * The end of a raid restarts the suppression window: any damage packet that arrives less
   * than ten seconds later is ignored.
   */
  lemma RaidEndSuppressesDamage(m: Machine, world: World, raidClear: Option<bool>, phase: int,
                                op: Opcode, data: Payload, later: World, canEmitDetails: bool)
    requires IsDamageOpcode(op)
    requires world.now <= later.now < world.now + DamageSuppressionMs
    ensures var e := EndOfRaid(m, world, raidClear, phase);
      HandleSpec(op, data, e, later, canEmitDetails) == Handled(e, [])
  {
    var e := EndOfRaid(m, world, raidClear, phase);
    assert e.locals.raidEndCd == world.now;
    SuppressedDamageIgnored(op, data, e, later, canEmitDetails);
  }

  /**
   * The end of a raid freezes the party and takes it from the cache (computing it only when
   * there is none), empties the cache, restarts the raid-end clock, sets the clear flag when
   * the packet reports one and records the phase; the trackers are untouched.
   */
  lemma EndOfRaidEffects(m: Machine, world: World, raidClear: Option<bool>, phase: int)
    ensures var r := EndOfRaid(m, world, raidClear, phase);
      && r.locals == LoopLocals(true, None, world.now)
      && (m.locals.partyCache.Some? ==> r.fight.partyInfo == m.locals.partyCache.value)
      && (m.locals.partyCache.None? ==> r.fight.partyInfo == world.partyOf(m.tracked))
      && (raidClear.Some? ==> r.fight.raidClear == raidClear.value)
      && (raidClear.None? ==> r.fight.raidClear == m.fight.raidClear)
      && r.fight.calls == m.fight.calls + [PhaseTransition(phase)]
      && r.fight.(partyInfo := m.fight.partyInfo, raidClear := m.fight.raidClear, calls := m.fight.calls) == m.fight
      && r.tracked == m.tracked
  {
  }

  /** A clear signal ends the raid as cleared (phase 2), a wipe signal as failed (phase 4); other signals are ignored. */
  lemma TriggerStartOutcomes(m: Machine, signal: int, world: World, canEmitDetails: bool)
    ensures var r := HandleSpec(TriggerStartNotify, TriggerStartData(signal), m, world, canEmitDetails);
      && r.events == []
      && (signal in ClearSignals ==> r.machine == EndOfRaid(m, world, Some(true), 2) && r.machine.fight.raidClear)
      && (signal in WipeSignals ==> r.machine == EndOfRaid(m, world, Some(false), 4) && !r.machine.fight.raidClear)
      && (signal !in ClearSignals && signal !in WipeSignals ==> r.machine == m)
  {
  }

  /** A boss kill logs phase 1 and marks the raid cleared; nothing else changes and nothing is published. */
  lemma RaidBossKillOutcome(data: Payload, m: Machine, world: World, canEmitDetails: bool)
    ensures var r := HandleSpec(RaidBossKillNotify, data, m, world, canEmitDetails);
      && r.events == []
      && r.machine.fight.raidClear
      && r.machine.fight.calls == m.fight.calls + [PhaseTransition(1)]
      && r.machine.fight.(raidClear := m.fight.raidClear, calls := m.fight.calls) == m.fight
      && r.machine.tracked == m.tracked && r.machine.locals == m.locals
  {
  }

  /**
   * A boss-battle status logs phase 3 (a new pull) exactly when no boss is named yet, the fight
   * has not started, or the boss is Saydon; otherwise it changes nothing.
   */
  lemma TriggerBossBattleOutcome(data: Payload, m: Machine, world: World, canEmitDetails: bool)
    ensures var r := HandleSpec(TriggerBossBattleStatus, data, m, world, canEmitDetails);
      var enc := m.fight.encounter;
      var pull := enc.currentBossName == "" || enc.fightStart == 0 || enc.currentBossName == "Saydon";
      && r.events == []
      && (pull ==> r.machine == m.(fight := m.fight.(calls := m.fight.calls + [PhaseTransition(3)])))
      && (!pull ==> r.machine == m)
  {
  }

  /**
   * A skill cast feeds the player guess for the entity `get_source_entity` yields (the caster,
   * or its owner) to the trackers, and logs a skill start exactly when that entity's class,
   * after any promotion, is 202 or 204.
   */
  lemma SkillCastOutcome(sourceId: int, skillId: int, m: Machine, world: World, canEmitDetails: bool)
    ensures var r := HandleSpec(SkillCastNotify, SkillData(sourceId, skillId), m, world, canEmitDetails);
      var e := world.sourceEntity(m.tracked, sourceId);
      var g := e.GuessIsPlayer(skillId, world.playerSkills);
      && r.events == []
      && r.machine.tracked == m.tracked.RecordGuess(e, skillId, world.playerSkills)
      && r.machine.locals == m.locals
      && (g.classId == 202 || g.classId == 204 ==>
            r.machine.fight == m.fight.(calls := m.fight.calls + [SkillStart(g.id, skillId, world.wallMs)]))
      && (!(g.classId == 202 || g.classId == 204) ==> r.machine.fight == m.fight)
  {
    assert HandleSpec(SkillCastNotify, SkillData(sourceId, skillId), m, world, canEmitDetails)
        == Handled(SkillCastSpec(m, SkillData(sourceId, skillId), world), []);
  }

  /**
   * A zone load never overrides a difficulty already set for a zone of that id or lower;
   * otherwise a named level sets name and id, and an unnamed one changes nothing.
   */
  lemma ZoneLoadDifficulty(m: Machine, zoneId: int, zoneLevel: int, world: World, canEmitDetails: bool)
    ensures var r := HandleSpec(ZoneMemberLoadStatusNotify, ZoneMemberLoadData(zoneId, zoneLevel), m, world, canEmitDetails);
      && r.events == []
      && r.machine.fight.(raidDifficulty := m.fight.raidDifficulty, raidDifficultyId := m.fight.raidDifficultyId) == m.fight
      && r.machine.tracked == m.tracked && r.machine.locals == m.locals
      && (m.fight.raidDifficulty != "" && m.fight.raidDifficultyId >= zoneId ==> r.machine == m)
      && (!(m.fight.raidDifficulty != "" && m.fight.raidDifficultyId >= zoneId) && 0 <= zoneLevel < |ZoneDifficultyNames| ==>
            r.machine.fight.raidDifficulty == ZoneDifficultyNames[zoneLevel] && r.machine.fight.raidDifficultyId == zoneLevel)
      && (zoneLevel < 0 || zoneLevel >= |ZoneDifficultyNames| ==> r.machine == m)
  {
    ZoneLoadOutcome(m, zoneId, zoneLevel);
    assert HandleSpec(ZoneMemberLoadStatusNotify, ZoneMemberLoadData(zoneId, zoneLevel), m, world, canEmitDetails)
        == Handled(ZoneMemberLoadSpec(m, ZoneMemberLoadData(zoneId, zoneLevel)), []);
  }

  /** `ZoneLoadDifficulty` for the zone-load branch alone. */
  lemma ZoneLoadOutcome(m: Machine, zoneId: int, zoneLevel: int)
    ensures var r := ZoneMemberLoadSpec(m, ZoneMemberLoadData(zoneId, zoneLevel));
      && r.fight.(raidDifficulty := m.fight.raidDifficulty, raidDifficultyId := m.fight.raidDifficultyId) == m.fight
      && r.tracked == m.tracked && r.locals == m.locals
      && (m.fight.raidDifficulty != "" && m.fight.raidDifficultyId >= zoneId ==> r == m)
      && (!(m.fight.raidDifficulty != "" && m.fight.raidDifficultyId >= zoneId) && 0 <= zoneLevel < |ZoneDifficultyNames| ==>
            r.fight.raidDifficulty == ZoneDifficultyNames[zoneLevel] && r.fight.raidDifficultyId == zoneLevel)
      && (zoneLevel < 0 || zoneLevel >= |ZoneDifficultyNames| ==> r == m)
  {
  }

  /**
   * Entering a zone re-anchors the trackers at the local player, clears the difficulty and
   * the party cache, re-arms damage validity and records the call.
   */
  lemma InitEnvRearms(m: Machine, playerId: int, world: World, canEmitDetails: bool)
    ensures var r := HandleSpec(InitEnv, InitEnvData(playerId), m, world, canEmitDetails);
      && r.events == []
      && r.machine.fight.damageIsValid && r.machine.fight.raidDifficulty == "" && r.machine.fight.raidDifficultyId == 0
      && r.machine.fight.calls == m.fight.calls + [InitEnvCall(playerId)]
      && (world.region.Some? ==> r.machine.fight.region == world.region && r.machine.fight.encounter.region == world.region)
      && (world.region.None? ==> r.machine.fight.region == m.fight.region && r.machine.fight.encounter == m.fight.encounter)
      && r.machine.tracked.entities.Keys == {playerId} && r.machine.tracked.localEntityId == playerId
      && r.machine.tracked.effects == map[] && r.machine.tracked.members == map[]
      && r.machine.locals == m.locals.(partyCache := None)
  {
    InitEnvAnchorsLocalPlayer(m.tracked.ResetPartyMappings(), playerId);
  }



  // ---------------------------------------------------------------------------
  // Footprints of the opcode families, from which the whole-handler properties follow
  // ---------------------------------------------------------------------------

  lemma ZoneFootprint(op: Opcode, data: Payload, m: Machine, world: World)
    ensures IsZoneOpcode(op) ==> var r := ZoneSpec(op, data, m, world);
      && LoopFlags(r.fight) == LoopFlags(m.fight)
      && (op != InitEnv ==> r.tracked == m.tracked && r.locals == m.locals && r.fight.damageIsValid == m.fight.damageIsValid)
      && (op == InitEnv ==> r.fight.damageIsValid == (data.InitEnvData? || m.fight.damageIsValid))
      && (r.locals == m.locals || r.locals == m.locals.(partyCache := None))
  {
    if op == RaidBegin {
      assert ZoneSpec(op, data, m, world) == RaidBeginSpec(m, data);
    } else if op == ZoneMemberLoadStatusNotify {
      assert ZoneSpec(op, data, m, world) == ZoneMemberLoadSpec(m, data);
    }
  }

  lemma RaidEndFootprint(op: Opcode, data: Payload, m: Machine, world: World)
    ensures IsRaidEndOpcode(op) ==> var r := RaidEndSpec(op, data, m, world);
      && LoopFlags(r.fight) == LoopFlags(m.fight)
      && r.tracked == m.tracked && r.fight.damageIsValid == m.fight.damageIsValid
      && (r.locals == m.locals || r.locals == LoopLocals(true, None, world.now))
  {
    EndOfRaidShape(m, world, None, 0);
    TriggerStartShape(m, data, world);
  }

  /** What every end-of-raid branch keeps: trackers, validity and the flags the loop reads. */
  predicate RaidEndShape(r: Machine, m: Machine, now: int)
  {
    && LoopFlags(r.fight) == LoopFlags(m.fight)
    && r.tracked == m.tracked && r.fight.damageIsValid == m.fight.damageIsValid
    && (r.locals == m.locals || r.locals == LoopLocals(true, None, now))
  }

  lemma EndOfRaidShape(m: Machine, world: World, raidClear: Option<bool>, phase: int)
    ensures RaidEndShape(EndOfRaid(m, world, raidClear, phase), m, world.now)
  {
  }

  lemma TriggerStartShape(m: Machine, data: Payload, world: World)
    ensures RaidEndShape(TriggerStartSpec(m, data, world), m, world.now)
  {
    EndOfRaidShape(m, world, Some(true), 2);
    EndOfRaidShape(m, world, Some(false), 4);
  }

  lemma HitFootprint(op: Opcode, data: Payload, m: Machine, world: World)
    ensures IsHitOpcode(op) ==> var r := HitSpec(op, data, m, world);
      && r.locals == m.locals
      && (!IsDamageOpcode(op) ==> r.fight.damageIsValid == m.fight.damageIsValid && LoopFlags(r.fight) == LoopFlags(m.fight))
      && (IsDamageOpcode(op) ==> r == SkillDamageSpec(m, data, world, op == SkillDamageAbnormalMoveNotify))
  {
  }

  /** A damage packet outside the suppression window latches validity; otherwise it changes nothing. */
  lemma DamageFootprint(m: Machine, data: Payload, world: World, abnormal: bool)
    ensures var r := SkillDamageSpec(m, data, world, abnormal);
      && LoopFlags(r.fight) == LoopFlags(m.fight)
      && r.locals == m.locals
      && ((data.SkillDamageData? && !DamageSuppressed(m.locals.raidEndCd, world.now))
            ==> (r.fight.damageIsValid <==> m.fight.damageIsValid && AllDecrypt(data.events, world.decrypt)))
      && (!data.SkillDamageData? || DamageSuppressed(m.locals.raidEndCd, world.now) ==> r == m)
  {
    if data.SkillDamageData? && !DamageSuppressed(m.locals.raidEndCd, world.now) {
      DamageLatch(m.fight, m.tracked, data.sourceId, data.skillId, abnormal, data.events, world);
      DamageKeepsFight(m.fight, m.tracked, data.sourceId, data.skillId, abnormal, data.events, world);
    }
  }

  lemma CasterFootprint(op: Opcode, data: Payload, m: Machine, world: World)
    ensures IsCasterOpcode(op) ==> var r := CasterSpec(op, data, m, world);
      && r.locals == m.locals && r.fight.damageIsValid == m.fight.damageIsValid
      && (op == NewPC || op == NewNpc || op == NewNpcSummon ==>
            r.fight == if data.NewEntityData?
                       then Record(m.fight, NewEntityCall(op, data.entity.(entityType := RegisteredKind(op, data.entity)), data.hp, data.maxHp))
                       else m.fight)
  {
    if op == SkillCastNotify {
      assert CasterSpec(op, data, m, world) == SkillCastSpec(m, data, world);
    } else if op == SkillStartNotify {
      assert CasterSpec(op, data, m, world) == SkillStartSpec(m, data, world);
    }
  }

  lemma CasterKeepsLoopFlags(op: Opcode, data: Payload, m: Machine, world: World)
    ensures IsCasterOpcode(op) ==> LoopFlags(CasterSpec(op, data, m, world).fight) == LoopFlags(m.fight)
  {
    SkillCastKeepsLoopFlags(m, data, world);
    SkillStartKeepsLoopFlags(m, data, world);
  }

  lemma SkillCastKeepsLoopFlags(m: Machine, data: Payload, world: World)
    ensures LoopFlags(SkillCastSpec(m, data, world).fight) == LoopFlags(m.fight)
  {
    if data.SkillData? {
      var f := SkillCastSpec(m, data, world).fight;
      assert f.resetting == m.fight.resetting && f.saved == m.fight.saved;
      assert f.bossOnlyDamage == m.fight.bossOnlyDamage && f.encounter == m.fight.encounter;
    }
  }

  lemma SkillStartKeepsLoopFlags(m: Machine, data: Payload, world: World)
    ensures LoopFlags(SkillStartSpec(m, data, world).fight) == LoopFlags(m.fight)
  {
    if data.SkillData? {
      var g := world.sourceEntity(m.tracked, data.sourceId).GuessIsPlayer(data.skillId, world.playerSkills);
      var f := Record(m.fight, SkillStart(g.id, data.skillId, world.wallMs));
      var started := world.startedSkill(g, data.skillId);
      assert LoopFlags(f) == LoopFlags(m.fight);
      assert LoopFlags(f.(skillTimestamp := f.skillTimestamp[(g.id, started) := world.wallMs])) == LoopFlags(m.fight);
    }
  }


  lemma PartyFootprint(op: Opcode, data: Payload, m: Machine, world: World)
    ensures IsPartyOpcode(op) ==> var r := PartySpec(op, data, m, world);
      && LoopFlags(r.fight) == LoopFlags(m.fight)
      && r.fight.damageIsValid == m.fight.damageIsValid
      && (r.locals == m.locals || r.locals == m.locals.(partyCache := None))
      && (op != PartyInfo ==> r.fight == m.fight)
      && (op == PartyStatusEffectResultNotify ==> r.locals == m.locals)
  {
  }

  lemma ObjectFootprint(op: Opcode, data: Payload, m: Machine)
    ensures IsObjectOpcode(op) ==> var r := ObjectSpec(op, data, m);
      && LoopFlags(r.fight) == LoopFlags(m.fight)
      && r.locals == m.locals && r.fight.damageIsValid == m.fight.damageIsValid
      && (op != StatusEffectSyncDataNotify ==> r.fight == m.fight)
  {
  }

  /**
   * Once damage has been marked invalid only a zone entry re-arms it; a damage packet outside
   * the suppression window with an event that fails to decrypt marks it invalid.
   */
  lemma DamageValidity(op: Opcode, data: Payload, m: Machine, world: World, canEmitDetails: bool)
    ensures var r := HandleSpec(op, data, m, world, canEmitDetails).machine.fight;
      && (r.damageIsValid ==> m.fight.damageIsValid || (op == InitEnv && data.InitEnvData?))
      && (op == InitEnv && data.InitEnvData? ==> r.damageIsValid)
      && ((IsDamageOpcode(op) && data.SkillDamageData? && !DamageSuppressed(m.locals.raidEndCd, world.now))
            ==> (r.damageIsValid <==> m.fight.damageIsValid && AllDecrypt(data.events, world.decrypt)))
  {
    ZoneFootprint(op, data, m, world);
    RaidEndFootprint(op, data, m, world);
    HitFootprint(op, data, m, world);
    DamageFootprint(m, data, world, op == SkillDamageAbnormalMoveNotify);
    CasterFootprint(op, data, m, world);
    PartyFootprint(op, data, m, world);
    ObjectFootprint(op, data, m);
  }

  /**
   * `handle` never fills the party cache: it keeps it or empties it. The freeze flag is only
   * ever raised, and only together with a restart of the raid-end clock.
   */
  lemma PartyCacheOnlyEmptied(op: Opcode, data: Payload, m: Machine, world: World, canEmitDetails: bool)
    ensures var r := HandleSpec(op, data, m, world, canEmitDetails).machine.locals;
      && (r.partyCache == m.locals.partyCache || r.partyCache == None)
      && (r == m.locals || r == LoopLocals(true, None, world.now) || r == m.locals.(partyCache := None))
      && (r.partyFreeze != m.locals.partyFreeze ==> r.partyFreeze && r.raidEndCd == world.now)
  {
    ZoneFootprint(op, data, m, world);
    RaidEndFootprint(op, data, m, world);
    HitFootprint(op, data, m, world);
    DamageFootprint(m, data, world, op == SkillDamageAbnormalMoveNotify);
    CasterFootprint(op, data, m, world);
    PartyFootprint(op, data, m, world);
    ObjectFootprint(op, data, m);
  }

  /** The raid-begin, zone-load and raid-end packets leave the entity, status and party trackers alone. */
  lemma HandleKeepsTrackers(op: Opcode, data: Payload, m: Machine, world: World, canEmitDetails: bool)
    ensures (IsRaidEndOpcode(op) || op == RaidBegin || op == ZoneMemberLoadStatusNotify)
              ==> HandleSpec(op, data, m, world, canEmitDetails).machine.tracked == m.tracked
  {
    ZoneFootprint(op, data, m, world);
    RaidEndFootprint(op, data, m, world);
  }

  /**
   * Entity-creation packets leave the fight-level state alone, except that the encounter is
   * told of the new entity: `on_new_pc` for a player, `on_new_npc` for an NPC or a summon.
   */
  lemma HandleKeepsFight(op: Opcode, data: Payload, m: Machine, world: World, canEmitDetails: bool)
    requires op == NewPC || op == NewNpc || op == NewNpcSummon
    ensures var r := HandleSpec(op, data, m, world, canEmitDetails).machine.fight;
      && (data.NewEntityData? ==>
            var e := data.entity.(entityType := RegisteredKind(op, data.entity));
            r == m.fight.(calls := m.fight.calls + [if op == NewPC then NewPcCall(e, data.hp, data.maxHp)
                                                   else NewNpcCall(e, data.hp, data.maxHp)]))
      && (!data.NewEntityData? ==> r == m.fight)
  {
    CasterFootprint(op, data, m, world);
  }

  /** Party-membership and object-removal packets leave the fight-level state alone. */
  lemma PartyRosterKeepsFight(op: Opcode, data: Payload, m: Machine, world: World, canEmitDetails: bool)
    ensures (op == PartyLeaveResult || op == PartyStatusEffectResultNotify)
              ==> HandleSpec(op, data, m, world, canEmitDetails).machine.fight == m.fight
  {
    PartyFootprint(op, data, m, world);
  }

  lemma ObjectRemovalKeepsFight(op: Opcode, data: Payload, m: Machine, world: World, canEmitDetails: bool)
    ensures (op == RemoveObject || op == ZoneObjectUnpublishNotify)
              ==> HandleSpec(op, data, m, world, canEmitDetails).machine.fight == m.fight
  {
    ObjectFootprint(op, data, m);
  }

  /** Only zone entry, the raid end and the two party-roster packets change the loop's variables. */
  lemma HandleKeepsLocals(op: Opcode, data: Payload, m: Machine, world: World, canEmitDetails: bool)
    ensures (!IsZoneOpcode(op) && !IsRaidEndOpcode(op) && op != PartyInfo && op != PartyLeaveResult)
              ==> HandleSpec(op, data, m, world, canEmitDetails).machine.locals == m.locals
  {
    HitFootprint(op, data, m, world);
    DamageFootprint(m, data, world, op == SkillDamageAbnormalMoveNotify);
    CasterFootprint(op, data, m, world);
    PartyFootprint(op, data, m, world);
    ObjectFootprint(op, data, m);
  }

  /** No packet touches `resetting`, `saved` or the boss-only setting: those belong to the loop. */
  lemma HandleKeepsLoopFlags(op: Opcode, data: Payload, m: Machine, world: World, canEmitDetails: bool)
    ensures LoopFlags(HandleSpec(op, data, m, world, canEmitDetails).machine.fight) == LoopFlags(m.fight)
  {
    ZoneFootprint(op, data, m, world);
    RaidEndFootprint(op, data, m, world);
    HitFootprint(op, data, m, world);
    DamageFootprint(m, data, world, op == SkillDamageAbnormalMoveNotify);
    CasterKeepsLoopFlags(op, data, m, world);
    PartyFootprint(op, data, m, world);
    ObjectFootprint(op, data, m);
  }

  /** The packets that empty the party cache: zone entry, the party packets and the end of a raid. */
  lemma PartyCacheEmptiedBy(op: Opcode, data: Payload, m: Machine, world: World, canEmitDetails: bool)
    requires (op == InitEnv && data.InitEnvData?) || (op == PartyInfo && data.PartyInfoData?)
          || (op == PartyLeaveResult && data.PartyLeaveData?) || op == RaidResult
    ensures HandleSpec(op, data, m, world, canEmitDetails).machine.locals.partyCache == None
  {
  }

  /**
   * Only an identity-gauge packet emits, and only while details are requested.
   */
  lemma OnlyIdentityEmits(op: Opcode, data: Payload, m: Machine, world: World, canEmitDetails: bool)
    ensures var r := HandleSpec(op, data, m, world, canEmitDetails);
      && (r.events != [] <==> op == IdentityGaugeChangeNotify && data.IdentityGaugeData? && canEmitDetails)
      && (r.events != [] ==> r.events == [IdentityUpdate(data.gauge1, data.gauge2, data.gauge3)] && r.machine == m)
  {
  }

  /** A body that does not parse changes nothing, except for the three packets that carry no body. */
  lemma UnparsedIsIgnored(op: Opcode, m: Machine, world: World, canEmitDetails: bool)
    requires op != RaidBossKillNotify && op != RaidResult && op != TriggerBossBattleStatus
    ensures HandleSpec(op, Unparsed, m, world, canEmitDetails) == Handled(m, [])
  {
  }


  /**
   * A projectile or trap is registered under its own id with its kind. Its cast timestamp is
   * linked exactly when its owner is a player other than itself, the skill id is positive and
   * a cast of that skill was recorded; no other link changes.
   */
  lemma SpawnCorrelates(m: Machine, objectId: int, ownerId: int, skillId: int, kind: EntityType)
    requires kind == Projectile || kind == Trap
    ensures var r := SpawnSpec(m, SpawnData(objectId, ownerId, skillId), kind);
      var linked := ownerId != objectId && m.tracked.IdIsPlayer(ownerId) && skillId > 0
                    && (ownerId, skillId) in m.fight.skillTimestamp;
      && r.tracked.entities[objectId] == TrackedEntity(objectId, "", kind, 0)
      && (linked ==> objectId in r.fight.projectileIdToTimestamp
                     && r.fight.projectileIdToTimestamp[objectId] == m.fight.skillTimestamp[(ownerId, skillId)])
      && (!linked ==> r.fight == m.fight)
      && (forall p :: p in m.fight.projectileIdToTimestamp && p != objectId ==>
            p in r.fight.projectileIdToTimestamp && r.fight.projectileIdToTimestamp[p] == m.fight.projectileIdToTimestamp[p])
      && r.fight.projectileIdToTimestamp.Keys <= m.fight.projectileIdToTimestamp.Keys + {objectId}
  {
  }

  /**
   * Every skill start is logged under the id of the entity `get_source_entity` yields and the
   * packet's skill id, whether or not that entity is a player.
   */
  lemma SkillStartLogged(m: Machine, sourceId: int, skillId: int, world: World)
    ensures var r := SkillStartSpec(m, SkillData(sourceId, skillId), world);
      var caster := world.sourceEntity(m.tracked, sourceId);
      r.fight.calls == m.fight.calls + [SkillStart(caster.id, skillId, world.wallMs)]
  {
    var caster := world.sourceEntity(m.tracked, sourceId);
    var g := caster.GuessIsPlayer(skillId, world.playerSkills);
    var f := Record(m.fight, SkillStart(g.id, skillId, world.wallMs));
    assert SkillStartSpec(m, SkillData(sourceId, skillId), world).fight.calls == f.calls;
  }

  /**
   * A skill start records a cast timestamp exactly for a source entity (the caster, or the
   * owner `get_source_entity` resolves) that is, or is promoted to, a player, and for a
   * positive skill id as the encounter reports it back; the timestamp is keyed by that id.
   */
  lemma SkillStartTimestamps(m: Machine, sourceId: int, skillId: int, world: World)
    ensures var r := SkillStartSpec(m, SkillData(sourceId, skillId), world);
      var caster := world.sourceEntity(m.tracked, sourceId).GuessIsPlayer(skillId, world.playerSkills);
      var started := world.startedSkill(caster, skillId);
      && (caster.entityType == Player && started > 0 ==>
            (caster.id, started) in r.fight.skillTimestamp && r.fight.skillTimestamp[(caster.id, started)] == world.wallMs)
      && (!(caster.entityType == Player && started > 0) ==> r.fight.skillTimestamp == m.fight.skillTimestamp)
      && r.fight.skillTimestamp.Keys <= m.fight.skillTimestamp.Keys + {(caster.id, started)}
  {
  }

  /** A new entity is stored with the kind its packet implies, and no other entity changes. */
  lemma NewEntityRegisters(op: Opcode, e: TrackedEntity, hp: int, maxHp: int, m: Machine)
    requires op == NewPC || op == NewNpc || op == NewNpcSummon
    ensures var r := NewEntitySpec(m, NewEntityData(e, hp, maxHp), op).tracked;
      && r.entities[e.id] == e.(entityType := RegisteredKind(op, e))
      && (op == NewPC ==> r.entities[e.id].entityType == Player)
      && (op == NewNpcSummon ==> r.entities[e.id].entityType == Summon)
      && (op == NewNpc ==> r.entities[e.id] == e)
      && (forall k :: k in m.tracked.entities && k != e.id ==> r.entities[k] == m.tracked.entities[k])
      && r.entities.Keys == m.tracked.entities.Keys + {e.id}
  {
  }

  /** A shield sync logs the absorbed amount; any other sync logs nothing. */
  lemma ShieldSyncLogsAbsorption(m: Machine, instanceId: int, value: nat)
    ensures var r := StatusSyncSpec(m, StatusEffectSyncData(instanceId, value));
      && (instanceId in m.tracked.effects && m.tracked.effects[instanceId].effectType == Shield ==>
            r.fight.calls == m.fight.calls + [ShieldChange(instanceId, ShieldDelta(m.tracked.effects[instanceId].value, value))])
      && (!(instanceId in m.tracked.effects && m.tracked.effects[instanceId].effectType == Shield) ==> r.fight == m.fight)
  {
  }
}
