/**
 * The snapshot publisher: a throttled projection of the encounter into UI events.
 * Time is integer milliseconds on the loop's monotonic clock; what the detached task
 * would emit is returned as a sequence of events.
 */
module Sender {
  import opened Types
  import opened State

  const UpdateIntervalMs: nat := 200
  const LowPerformanceIntervalMs: nat := 1500
  const PartyIntervalMs: nat := 2000

  /** The throttle state of an `AppSender`. */
  datatype SenderClock = SenderClock(lastUpdate: int, duration: nat, lastPartyUpdate: int, partyDuration: nat)

  function InitialClock(lowPerformanceMode: bool, now: int): (c: SenderClock)
    ensures c.duration == if lowPerformanceMode then LowPerformanceIntervalMs else UpdateIntervalMs
    ensures c.partyDuration == PartyIntervalMs
    ensures c.lastUpdate == now && c.lastPartyUpdate == now
  {
    SenderClock(now, if lowPerformanceMode then LowPerformanceIntervalMs else UpdateIntervalMs, now, PartyIntervalMs)
  }

  /** A snapshot goes out once the interval has passed, or when a reset or a boss death forces it. */
  predicate CanSend(c: SenderClock, now: int, resetting: bool, bossDeadUpdate: bool)
  {
    Elapsed(c.lastUpdate, now) >= c.duration || resetting || bossDeadUpdate
  }

  /** Party info is due once its own, longer interval has passed and the party is not frozen. */
  predicate PartyDue(c: SenderClock, now: int, partyFreeze: bool)
  {
    Elapsed(c.lastPartyUpdate, now) >= c.partyDuration && !partyFreeze
  }

  predicate AllFull(party: Party)
  {
    forall i :: 0 <= i < |party| ==> |party[i]| == 4
  }

  /**
   * The party info of a due send and the cache afterwards: a cache is reused as it is;
   * otherwise a freshly computed party is published only when it has more than one group
   * and cached only when every group is full.
   */
  function ChooseParty(cache: Option<Party>, computed: Party): (r: (Option<Party>, Option<Party>))
    ensures cache.Some? ==> r == (cache, cache)
    ensures cache.None? ==> (r.0.Some? <==> |computed| > 1) && (r.0.Some? ==> r.0.value == computed)
    ensures cache.None? ==> (r.1.Some? <==> |computed| > 1 && AllFull(computed)) && (r.1.Some? ==> r.1.value == computed)
  {
    match cache
    case Some(_) => (cache, cache)
    case None =>
      if |computed| > 1 then
        (Some(computed), if AllFull(computed) then Some(computed) else None)
      else
        (None, None)
  }

  /** The entities a snapshot keeps: damage-dealing players with a class, estheres and bosses. */
  predicate Retained(e: EncounterEntity)
  {
    ((e.entityType == Player && e.classId > 0) || e.entityType == Esther || e.entityType == Boss)
    && e.damageDealt > 0
  }

  function RetainEntities(m: map<string, EncounterEntity>): (r: map<string, EncounterEntity>)
    ensures forall k :: k in r <==> k in m && Retained(m[k])
    ensures forall k :: k in r ==> r[k] == m[k]
  {
    map k | k in m && Retained(m[k]) :: m[k]
  }

  /** The boss patch `send_to_ui` applies to its copy of the encounter. */
  function PatchBoss(enc: Encounter, bossDead: bool): Encounter
  {
    if enc.currentBossName == "" then enc
    else if enc.currentBossName in enc.entities then
      var boss := enc.entities[enc.currentBossName];
      var boss' := if bossDead then boss.(isDead := true, currentHp := 0) else boss;
      enc.(currentBoss := Some(boss'))
    else
      enc.(currentBossName := "")
  }

  /**
   * The boss patch of the copied encounter: a boss name with no entity behind it is cleared;
   * an existing boss is copied into `currentBoss`, dead with no HP when a death was flagged.
   */
  lemma PatchBossEffect(enc: Encounter, bossDead: bool)
    ensures var r := PatchBoss(enc, bossDead);
      && r.entities == enc.entities
      && (enc.currentBossName == "" ==> r == enc)
      && (enc.currentBossName != "" && enc.currentBossName !in enc.entities ==> r == enc.(currentBossName := ""))
      && (enc.currentBossName != "" && enc.currentBossName in enc.entities ==>
            && r.currentBossName == enc.currentBossName
            && r.currentBoss.Some?
            && r.currentBoss.value.name == enc.entities[enc.currentBossName].name
            && r.currentBoss.value.damageDealt == enc.entities[enc.currentBossName].damageDealt
            && (bossDead ==> r.currentBoss.value.isDead && r.currentBoss.value.currentHp == 0)
            && (!bossDead ==> r.currentBoss.value == enc.entities[enc.currentBossName])
            && r == enc.(currentBoss := r.currentBoss))
  {
  }

  /** What the detached task publishes from the copied encounter: the boss patch, then the entity filter. */
  function Snapshot(enc: Encounter, bossDead: bool): Encounter
  {
    var patched := PatchBoss(enc, bossDead);
    patched.(entities := RetainEntities(patched.entities))
  }

  /** The events of one send. */
  function Emission(snapshot: Encounter, damageValid: bool, partyInfo: Option<Party>): seq<UiEvent>
  {
    if snapshot.entities == map[] then []
    else if !damageValid then [InvalidDamage]
    else [EncounterUpdate(snapshot)] + (if partyInfo.Some? then [PartyUpdate(partyInfo.value)] else [])
  }

  datatype SendOutcome = SendOutcome(clock: SenderClock, bossDeadUpdate: bool, partyCache: Option<Party>, events: seq<UiEvent>)

  predicate HasEncounterUpdate(events: seq<UiEvent>)
  {
    exists i :: 0 <= i < |events| && events[i].EncounterUpdate?
  }

  predicate HasPartyUpdate(events: seq<UiEvent>)
  {
    exists i :: 0 <= i < |events| && events[i].PartyUpdate?
  }

  predicate SomeRetained(enc: Encounter)
  {
    exists k :: k in enc.entities && Retained(enc.entities[k])
  }

  /** `send_to_ui` on the abstract values. */
  function SendSpec(c: SenderClock, f: Fight, partyFreeze: bool, partyCache: Option<Party>, computedParty: Party, now: int): SendOutcome
  {
    if !CanSend(c, now, f.resetting, f.bossDeadUpdate) then
      SendOutcome(c, f.bossDeadUpdate, partyCache, [])
    else
      var due := PartyDue(c, now, partyFreeze);
      var chosen := if due then ChooseParty(partyCache, computedParty) else (None, partyCache);
      SendOutcome(c.(lastUpdate := now, lastPartyUpdate := if due then now else c.lastPartyUpdate),
                  false, chosen.1, Emission(Snapshot(f.encounter, f.bossDeadUpdate), f.damageIsValid, chosen.0))
  }

  /**
   * The throttle: a send happens only when allowed, clears the boss-death flag and restarts
   * the interval; the party interval restarts exactly when party info was due; the cache is
   * only ever filled, and only with a party of more than one group, all full.
   */
  lemma SendThrottle(c: SenderClock, f: Fight, partyFreeze: bool, partyCache: Option<Party>, computedParty: Party, now: int)
    ensures var o := SendSpec(c, f, partyFreeze, partyCache, computedParty, now);
      // throttled: nothing changes and nothing is emitted
      && (!CanSend(c, now, f.resetting, f.bossDeadUpdate) ==> o == SendOutcome(c, f.bossDeadUpdate, partyCache, []))
      // a send clears the boss-death flag and restarts the interval
      && (CanSend(c, now, f.resetting, f.bossDeadUpdate) ==> !o.bossDeadUpdate && o.clock.lastUpdate == now)
      // the party interval restarts exactly when party info is due
      && (o.clock.lastPartyUpdate == if CanSend(c, now, f.resetting, f.bossDeadUpdate) && PartyDue(c, now, partyFreeze) then now else c.lastPartyUpdate)
      && (o.clock.duration == c.duration && o.clock.partyDuration == c.partyDuration)
      // the cache is only ever filled with a party of full groups
      && (o.partyCache != partyCache ==> partyCache.None? && o.partyCache == Some(computedParty) && AllFull(computedParty) && |computedParty| > 1)
  {
  }

  /**
   * What a send emits: invalid-damage instead of an update while damage is invalid,
   * nothing at all when no entity survives the filter, and party info only alongside an
   * encounter update and only when it was due.
   */
  lemma SendEmits(c: SenderClock, f: Fight, partyFreeze: bool, partyCache: Option<Party>, computedParty: Party, now: int)
    ensures var o := SendSpec(c, f, partyFreeze, partyCache, computedParty, now);
      && ((InvalidDamage in o.events) <==> CanSend(c, now, f.resetting, f.bossDeadUpdate) && !f.damageIsValid && SomeRetained(f.encounter))
      && (HasEncounterUpdate(o.events) <==> CanSend(c, now, f.resetting, f.bossDeadUpdate) && f.damageIsValid && SomeRetained(f.encounter))
      && (HasPartyUpdate(o.events) ==> HasEncounterUpdate(o.events) && PartyDue(c, now, partyFreeze))
  {
    var o := SendSpec(c, f, partyFreeze, partyCache, computedParty, now);
    if CanSend(c, now, f.resetting, f.bossDeadUpdate) {
      var snapshot := Snapshot(f.encounter, f.bossDeadUpdate);
      assert snapshot.entities != map[] <==> SomeRetained(f.encounter) by {
        if SomeRetained(f.encounter) {
          var k :| k in f.encounter.entities && Retained(f.encounter.entities[k]);
          assert k in snapshot.entities;
        }
      }
      assert o.events != [] ==> o.events[0] == InvalidDamage || o.events[0].EncounterUpdate?;
    }
  }

  /** The published encounter holds exactly the retained entities and a patched boss. */
  lemma SnapshotContents(c: SenderClock, f: Fight, partyFreeze: bool, partyCache: Option<Party>, computedParty: Party, now: int, i: nat)
    requires var o := SendSpec(c, f, partyFreeze, partyCache, computedParty, now); i < |o.events| && o.events[i].EncounterUpdate?
    ensures var s := SendSpec(c, f, partyFreeze, partyCache, computedParty, now).events[i].encounter;
      && (forall k :: k in s.entities <==> k in f.encounter.entities && Retained(f.encounter.entities[k]))
      && s.currentBossName == (if f.encounter.currentBossName in f.encounter.entities then f.encounter.currentBossName else "")
      && (f.bossDeadUpdate && s.currentBossName != "" ==> s.currentBoss.Some? && s.currentBoss.value.isDead && s.currentBoss.value.currentHp == 0)
  {
  }

  class AppSender {
    var lastUpdate: int
    var duration: nat
    var lastPartyUpdate: int
    var partyDuration: nat

    ghost function Model(): SenderClock
      reads this
    {
      SenderClock(lastUpdate, duration, lastPartyUpdate, partyDuration)
    }

    constructor (lowPerformanceMode: bool, now: int)
      ensures Model() == InitialClock(lowPerformanceMode, now)
    {
      lastUpdate := now;
      duration := UpdateIntervalMs;
      lastPartyUpdate := now;
      partyDuration := PartyIntervalMs;
      if lowPerformanceMode {
        duration := LowPerformanceIntervalMs;
      }
    }

    /**
     * `send_to_ui`: `computedParty` is what `update_party` returns for the current trackers;
     * the returned cache is the new value of the loop's `party_cache`.
     */
    method SendToUi(st: EncounterState, partyFreeze: bool, partyCache: Option<Party>, computedParty: Party, now: int)
      returns (newCache: Option<Party>, events: seq<UiEvent>)
      modifies this, st`bossDeadUpdate
      ensures var o := SendSpec(old(Model()), old(st.Model()), partyFreeze, partyCache, computedParty, now);
        && Model() == o.clock
        && st.Model() == old(st.Model()).(bossDeadUpdate := o.bossDeadUpdate)
        && newCache == o.partyCache
        && events == o.events
    {
      var canSend := Elapsed(lastUpdate, now) >= duration || st.resetting || st.bossDeadUpdate;
      if !canSend {
        return partyCache, [];
      }
      newCache, events := Publish(st, partyFreeze, partyCache, computedParty, now);
    }

    /** The sending half of `send_to_ui`, once the throttle lets a snapshot through. */
    method Publish(st: EncounterState, partyFreeze: bool, partyCache: Option<Party>, computedParty: Party, now: int)
      returns (newCache: Option<Party>, events: seq<UiEvent>)
      requires CanSend(Model(), now, st.resetting, st.bossDeadUpdate)
      modifies this, st`bossDeadUpdate
      ensures var o := SendSpec(old(Model()), old(st.Model()), partyFreeze, partyCache, computedParty, now);
        && Model() == o.clock
        && st.Model() == old(st.Model()).(bossDeadUpdate := o.bossDeadUpdate)
        && newCache == o.partyCache
        && events == o.events
    {
      var bossDead := st.bossDeadUpdate;
      st.bossDeadUpdate := false;
      var copy := st.encounter;
      var damageValid := st.damageIsValid;
      var partyInfo;
      partyInfo, newCache := TakePartyInfo(partyFreeze, partyCache, computedParty, now);
      events := Emission(Snapshot(copy, bossDead), damageValid, partyInfo);
      lastUpdate := now;
    }

    /** The party-info part of `send_to_ui`: the cache or a fresh party, once the party interval has passed. */
    method TakePartyInfo(partyFreeze: bool, partyCache: Option<Party>, computedParty: Party, now: int)
      returns (partyInfo: Option<Party>, newCache: Option<Party>)
      modifies this`lastPartyUpdate
      ensures var due := PartyDue(old(Model()), now, partyFreeze);
        && (partyInfo, newCache) == (if due then ChooseParty(partyCache, computedParty) else (None, partyCache))
        && Model() == old(Model()).(lastPartyUpdate := if due then now else old(lastPartyUpdate))
    {
      newCache := partyCache;
      partyInfo := None;
      if Elapsed(lastPartyUpdate, now) >= partyDuration && !partyFreeze {
        lastPartyUpdate := now;
        if partyCache.Some? {
          partyInfo := partyCache;
        } else if |computedParty| > 1 {
          if forall i :: 0 <= i < |computedParty| ==> |computedParty[i]| == 4 {
            newCache := Some(computedParty);
          }
          partyInfo := Some(computedParty);
        }
      }
    }
  }
}
