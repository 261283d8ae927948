# Live encounter loop of a game damage meter

This project models the core of a damage meter's live mode. A packet loop receives game packets one at a time. For each packet it:

1. reads the control flags that UI commands set (reset, save, pause, boss-only damage, emit details);
2. dispatches the packet to the handler, which updates the encounter state, the entity, status and party trackers and the loop's own variables (party freeze, party cache, raid-end clock);
3. publishes a throttled snapshot of the encounter to the UI;
4. settles a pending reset;
5. sends a heartbeat when one is due.

When a fight is saved, the repository computes the stored DPS, the misc record and the preview row (qualifying players sorted by damage, the local player's DPS, the duration). It also computes the page offset of the preview listing.

The model has these modules:

- `Types`: entities, the encounter, UI events and saturating elapsed time.
- `State`: the fight-level fields of the encounter state and the three trackers, as classes. Each class has a value view (`Model()`).
- `Listener`: the flag set the UI callbacks change, plus `process_flags`.
- `Sender`: the snapshot throttle, the party-info cache, the boss patch and the entity filter.
- `Handler`: `handle`, one method per packet kind. Each method is proved against a specification function on values (`HandleSpec` and its parts).
- `HandlerProperties`: what those specification functions guarantee.
- `Live`: one loop iteration and the whole loop (`StepSpec`, `RunSpec`) as written, the class that runs them, and the boss-only finding with its corrected step (`IntendedStep`).
- `Repository`: the computations of `insert_encounter`, `insert_encounter_preview` and `get_encounter_preview`.

The world outside the loop is a parameter (`World`), as are decryption of damage events, the party roster that `update_party` computes, the clocks and the region. The encounter state's own aggregation methods (`on_damage`, `on_new_pc`, `on_new_npc`, `update_local_player`, `soft_reset`, `save_to_db`, `on_phase_transition`, ...) are recorded as an ordered call log rather than interpreted. What those calls make of the encounter that `send_to_ui` publishes is also a parameter (`World.encounterAfter`); the loop applies it once `handle` returns.

Where the written description of the system and the code differ, the model follows the code:

- Damage validity is not a latch for the whole session: an `InitEnv` packet re-arms it (app/src/live/handler.rs:119-123).
- The ten-second suppression after a raid ends is applied by the handler through the loop's `raid_end_cd`, not inside `on_damage` (app/src/live/handler.rs:382-385, 440-443).
- `RaidResult` does not set `raid_clear`: only the boss-kill packet and the clear triggers do.
- The retained snapshot entities must have dealt damage, as in the code (app/src/live/sender.rs:109-114).

## Model

| member | source | states |
|---|---|---|
| Types.Elapsed | app/src/live/mod.rs:79 | time since an instant saturates at zero and otherwise is the difference of the timestamps |
| State.EncounterState.constructor | app/src/live/mod.rs:70-73 | a new state has no difficulty, valid damage, no flags raised and an empty call log |
| State.EncounterState.OnPhaseTransition | app/src/live/handler.rs:306-321 | a phase transition appends its code to the call log and changes nothing else |
| State.EncounterState.NewCast | app/src/live/handler.rs:372-374 | the latest cast of an (entity, skill) pair overwrites its timestamp; nothing else changes |
| State.EncounterState.SoftReset | app/src/live/mod.rs:95 | a soft reset is logged with its argument; nothing else changes |
| State.EncounterState.SaveToDb | app/src/live/mod.rs:98 | a save is logged with its manual flag; nothing else changes |
| State.TrackedEntity.GuessIsPlayer | app/src/live/handler.rs:334-335 | an entity becomes a player iff it already was one, or it was of unknown kind and cast a player-only skill; identity, name and class are kept |
| State.Tracked.SourceEntity | app/src/live/handler.rs:124 | the lookup the model's `init_env` reads the local player through: a registered id yields its entity, an unknown id an unstored placeholder |
| State.MaterializeRegisters | app/src/live/handler.rs:403-404 | get-or-create adds exactly the requested id, as a placeholder when it was unknown, and alters no known entity or other tracker |
| State.InitEnvAnchorsLocalPlayer | app/src/live/handler.rs:124 | entering a zone keeps only the local player, re-anchored at the new id with its name and class, drops every effect and keeps the party tracker |
| State.RemoveLocalObjectKeeps | app/src/live/handler.rs:326-328 | exactly the effects neither from nor on the removed object stay, unchanged |
| State.SyncStatusEffectUpdates | app/src/live/handler.rs:774-803 | a sync of a live instance sets its value and reports the previous one; an unknown instance changes nothing and reports (None, 0) |
| State.PartyAddPlaces | app/src/live/handler.rs:562-577 | adding a character places it in the given raid and party, keeps its known name and touches no other member |
| State.PartyRemoveDrops | app/src/live/handler.rs:499-507 | removal keeps exactly the members not of that party under that name, unchanged |
| State.PartyAddThenRemove | app/src/live/handler.rs:499-507 | a named character added to a party and then removed from it under its name is gone |
| State.Trackers.constructor | app/src/live/handler.rs:26-29 | new trackers are empty |
| State.Trackers.IdIsPlayer | app/src/live/handler.rs:238 | the in-place query agrees with the value-level player test |
| State.Trackers.SourceEntity | app/src/live/handler.rs:124 | the in-place lookup `Trackers.InitEnv` uses agrees with `Tracked.SourceEntity` |
| State.Trackers.GetOrCreateEntity | app/src/live/handler.rs:403-404 | the trackers become their get-or-create value and the returned entity is the stored one |
| State.Trackers.GuessIsPlayer | app/src/live/handler.rs:334-335 | returns the guessed entity and stores a promotion, and only a promotion |
| State.Trackers.Spawn | app/src/live/handler.rs:235-266 | the projectile or trap is stored under its id with its kind |
| State.Trackers.InitEnv | app/src/live/handler.rs:124 | the trackers become their `init_env` value and the returned entity is the re-anchored local player |
| State.Trackers.RemoveLocalObject | app/src/live/handler.rs:326-328 | the effects become their value after `remove_local_object` |
| State.Trackers.RemoveEntity | app/src/live/handler.rs:325 | exactly the object's entity is removed |
| State.Trackers.SyncStatusEffect | app/src/live/handler.rs:774-803 | state, reported effect and old value are those of `Tracked.SyncStatusEffect` |
| State.Trackers.ResetPartyMappings | app/src/live/handler.rs:119 | the party members are cleared and nothing else changes |
| State.Trackers.PartyAdd | app/src/live/handler.rs:569-575 | the members become their value after `Tracked.PartyAdd` |
| State.Trackers.PartyInfo | app/src/live/handler.rs:491 | the trackers become the result of the packet's `party_info` update |
| State.Trackers.PartyRemove | app/src/live/handler.rs:502-504 | the members become their value after `Tracked.PartyRemove` |
| Listener.InitialFlags | app/src/live/listener.rs:24-35 | a new listener has every flag off except boss-only damage, which follows the setting |
| Listener.OnRequest | app/src/live/listener.rs:38-96 | reset and save requests set their flag; pause and emit-details toggle theirs; boss-only damage is set iff the payload is "true"; reset, save and pause emit their event back to the UI, and the other two emit nothing |
| Listener.Process | app/src/live/listener.rs:112-133 | the action is the first set flag in the order reset, pause, save, boss-only damage, else none (each direction proved); reset and save are cleared when reported and the other flags never change |
| Listener.ResetReportedOnce | app/src/live/listener.rs:114-117 | a reset request is reported on the next read and never again |
| Listener.NoResetWithoutRequest | app/src/live/listener.rs:114-117 | with no reset pending, no read reports Reset |
| Listener.SaveReportedOnce | app/src/live/listener.rs:123-126 | while not paused, a save request is reported exactly once, right after a pending reset |
| Listener.NoSaveWithoutRequest | app/src/live/listener.rs:123-126 | with no save pending, no read reports Saved |
| Listener.PausedKeepsReporting | app/src/live/listener.rs:119-121 | a paused listener with no pending reset reports Paused on every read and keeps a pending save |
| Listener.BossOnlyDamageKeepsReporting | app/src/live/listener.rs:128-130 | boss-only damage alone is reported on every read while set |
| Listener.TogglesAreInvolutions | app/src/live/listener.rs:58-96 | two pause requests, or two emit-details requests, restore the flags |
| Listener.AppListener.constructor | app/src/live/listener.rs:24-35 | the flags start as `InitialFlags` |
| Listener.AppListener.OnResetRequest | app/src/live/listener.rs:38-46 | the flags and the emitted event are those of `OnRequest` for a reset |
| Listener.AppListener.OnSaveRequest | app/src/live/listener.rs:48-56 | the flags and the emitted event are those of `OnRequest` for a save |
| Listener.AppListener.OnPauseRequest | app/src/live/listener.rs:58-70 | the flags and the emitted event are those of `OnRequest` for a pause: the flag is toggled |
| Listener.AppListener.OnBossOnlyDamageRequest | app/src/live/listener.rs:72-84 | the boss-only flag is set from the payload |
| Listener.AppListener.OnEmitDetailsRequest | app/src/live/listener.rs:86-96 | the emit-details flag is toggled |
| Listener.AppListener.CanEmitDetails | app/src/live/listener.rs:108-110 | the result is the emit-details flag |
| Listener.AppListener.ProcessFlags | app/src/live/listener.rs:112-133 | the action and the new flags are those of `Process` |
| Sender.InitialClock | app/src/live/sender.rs:29-47 | the update interval is 200 ms, or 1500 ms in low-performance mode; the party interval is 2000 ms; both clocks start now |
| Sender.ChooseParty | app/src/live/sender.rs:75-94 | a cache is reused as it is; a fresh party is published only when it has more than one group and cached only when every group is full |
| Sender.RetainEntities | app/src/live/sender.rs:109-114 | exactly the entities that dealt damage and are players with a class, esthers or bosses are kept, unchanged |
| Sender.PatchBossEffect | app/src/live/sender.rs:97-108 | a boss name with no entity is cleared; an existing boss is copied into the current boss, dead with no HP when a death was flagged |
| Sender.SendThrottle | app/src/live/sender.rs:49-136 | a send happens only when the interval passed or a reset or boss death forces it; it clears the boss-death flag and restarts the interval; the party interval restarts exactly when party info was due |
| Sender.SendEmits | app/src/live/sender.rs:116-131 | invalid damage emits the invalid-damage event instead of an update; nothing is emitted when no entity is kept; party info goes only with an update and only when due |
| Sender.SnapshotContents | app/src/live/sender.rs:97-114 | the published encounter holds exactly the retained entities and the patched boss |
| Sender.AppSender.constructor | app/src/live/sender.rs:29-47 | the clocks start as `InitialClock` |
| Sender.AppSender.SendToUi | app/src/live/sender.rs:49-136 | clocks, boss-death flag, party cache and events become those of `SendSpec` |
| Sender.AppSender.Publish | app/src/live/sender.rs:65-135 | once the throttle allows it, the same as `SendSpec` |
| Sender.AppSender.TakePartyInfo | app/src/live/sender.rs:75-94 | when the party interval passed and the party is not frozen, the result is `ChooseParty` and the interval restarts; otherwise nothing is published and the cache is kept |
| Handler.RaidDifficulty | app/src/live/handler.rs:285-305 | the trial raids give ("Trial", 7), the challenge raids ("Challenge", 8) and any other id ("", 0) |
| Handler.ZoneDifficulty | app/src/live/handler.rs:734-760 | zone levels 0 to 5 have a name and their level as id; any other level has none |
| Handler.TriggerOutcome | app/src/live/handler.rs:689-718 | a clear signal gives Some(true) and a wipe signal Some(false), each iff the signal is in its list |
| Handler.ShieldDelta | app/src/live/handler.rs:790-792 | the absorbed amount is 0 iff the shield did not shrink, and otherwise exactly what it shrank by |
| Handler.Rearm | app/src/live/handler.rs:119-123 | difficulty cleared and damage validity re-armed |
| Handler.SetRegion | app/src/live/handler.rs:127-130 | a known region is stored on the state and on the encounter |
| Handler.HandleInitEnv | app/src/live/handler.rs:111-134 | state, trackers and loop variables become those of `InitEnvSpec` |
| Handler.HandleRaidBegin | app/src/live/handler.rs:285-305 | the state becomes that of `RaidBeginSpec` |
| Handler.EndRaid | app/src/live/handler.rs:311-321 | the state and loop variables become those of `EndOfRaid` |
| Handler.HandleZoneMemberLoad | app/src/live/handler.rs:721-762 | the state becomes that of `ZoneMemberLoadSpec` |
| Handler.HandleSkillDamage | app/src/live/handler.rs:381-488 | the loop over the damage events leaves state and trackers as `SkillDamageSpec` |
| Handler.HandleSpawn | app/src/live/handler.rs:235-266 | state and trackers become those of `SpawnSpec` |
| Handler.HandleNewEntity | app/src/live/handler.rs:179-234 | the state and trackers become those of `NewEntitySpec`: the entity is stored with its packet's kind and `on_new_pc` or `on_new_npc` is logged |
| Handler.HandleSkillCast | app/src/live/handler.rs:332-346 | state and trackers become those of `SkillCastSpec` |
| Handler.HandleSkillStart | app/src/live/handler.rs:354-377 | state and trackers become those of `SkillStartSpec`; the cast is keyed by the skill id `on_skill_start` returns |
| Handler.HandlePartyInfo | app/src/live/handler.rs:489-498 | the state, trackers and loop variables become those of `PartyInfoSpec`: the trackers' `party_info` update, then `update_local_player` for a known local player, then an empty cache |
| Handler.HandlePartyLeave | app/src/live/handler.rs:499-507 | the trackers and loop variables become those of `PartyLeaveSpec` |
| Handler.HandleRemoveObject | app/src/live/handler.rs:322-331 | the trackers become those of `RemoveObjectSpec` |
| Handler.HandleStatusSync | app/src/live/handler.rs:774-803 | state and trackers become those of `StatusSyncSpec` |
| Handler.HandleZone | app/src/live/handler.rs:111-134 | the zone packets leave state, trackers and loop variables as `ZoneSpec` |
| Handler.HandleRaidEnd | app/src/live/handler.rs:306-321 | the raid-end packets leave state and loop variables as `RaidEndSpec`; the trackers are untouched |
| Handler.HandleTriggerStart | app/src/live/handler.rs:685-720 | the state and loop variables become those of `TriggerStartSpec` |
| Handler.HandleHit | app/src/live/handler.rs:381-488 | state and trackers become those of `HitSpec`; the loop variables are untouched |
| Handler.HandleCaster | app/src/live/handler.rs:179-266 | state and trackers become those of `CasterSpec`; the loop variables are untouched |
| Handler.HandleParty | app/src/live/handler.rs:489-507 | state, trackers and loop variables become those of `PartySpec`, including the `party_info` tracker update |
| Handler.HandleObject | app/src/live/handler.rs:322-331 | state and trackers become those of `ObjectSpec`; the loop variables are untouched |
| Handler.Handle | app/src/live/handler.rs:41-62 | state, trackers, loop variables and emitted events become those of `HandleSpec` |
| HandlerProperties.DecryptionSplits | app/src/live/handler.rs:454-457 | "all decrypt", "some decrypts" and the decrypted targets split over the first event and the rest |
| HandlerProperties.DamageLatch | app/src/live/handler.rs:398-401 | after a damage packet, damage is valid iff it was valid before and every event decrypted |
| HandlerProperties.DamageStepRecords | app/src/live/handler.rs:457-487 | one event appends its damage record when it decrypts and nothing otherwise |
| HandlerProperties.DamageKeepsFight | app/src/live/handler.rs:438-488 | the damage loop changes no fight-level field but validity and the call log |
| HandlerProperties.DamageRecordCount | app/src/live/handler.rs:438-488 | the damage loop appends at most one record per event, and exactly one per event when all decrypt |
| HandlerProperties.DamageRecords | app/src/live/handler.rs:457-487 | every appended record is a damage record of this packet with a decrypted target |
| HandlerProperties.DamageRegisters | app/src/live/handler.rs:458-460 | the loop registers every decrypted target and, if anything decrypted, the source, and no other entity |
| HandlerProperties.DamageKeepsKnown | app/src/live/handler.rs:458-460 | known entities are never altered, new ones are placeholders, and the status and party trackers are untouched |
| HandlerProperties.RemoveObjectsEffect | app/src/live/handler.rs:322-331 | exactly the listed entities go, with exactly the effects from or on them; everything else stays unchanged |
| HandlerProperties.SuppressedDamageIgnored | app/src/live/handler.rs:438-443 | within ten seconds of a raid's end a damage packet changes nothing and emits nothing |
| HandlerProperties.RaidEndSuppressesDamage | app/src/live/handler.rs:311-321 | after a raid ends, any damage packet less than ten seconds later is ignored |
| HandlerProperties.EndOfRaidEffects | app/src/live/handler.rs:311-321 | the end of a raid freezes the party, takes it from the cache or computes it, empties the cache, restarts the raid-end clock, sets the clear flag when reported and logs the phase |
| HandlerProperties.TriggerStartOutcomes | app/src/live/handler.rs:685-720 | a clear signal ends the raid as cleared (phase 2), a wipe signal as failed (phase 4), and any other signal changes nothing |
| HandlerProperties.ZoneLoadDifficulty | app/src/live/handler.rs:721-762 | a zone load never overrides a difficulty set for a zone of that id or lower; otherwise a named level sets name and id and an unnamed one changes nothing |
| HandlerProperties.InitEnvRearms | app/src/live/handler.rs:111-134 | entering a zone re-anchors the trackers, clears difficulty and party cache, re-arms validity and logs the call |
| HandlerProperties.ZoneFootprint | app/src/live/handler.rs:111-134 | the zone packets keep the loop flags; only `InitEnv` touches trackers, validity or loop variables, and it can only empty the cache |
| HandlerProperties.RaidEndFootprint | app/src/live/handler.rs:306-321 | the raid-end packets keep trackers, validity and loop flags, and either keep the loop variables or freeze the party, empty the cache and restart the clock |
| HandlerProperties.HitFootprint | app/src/live/handler.rs:381-488 | hit packets keep the loop variables; a projectile or trap spawn keeps validity and loop flags; a damage packet is `SkillDamageSpec` |
| HandlerProperties.DamageFootprint | app/src/live/handler.rs:381-488 | outside the suppression window validity is latched; a suppressed or unparsed packet changes nothing |
| HandlerProperties.CasterFootprint | app/src/live/handler.rs:179-266 | caster packets keep loop variables and validity; the entity-creation packets change the fight only by logging `on_new_pc` or `on_new_npc` for the stored entity |
| HandlerProperties.CasterKeepsLoopFlags | app/src/live/handler.rs:332-377 | caster packets keep the loop's flags |
| HandlerProperties.SkillCastKeepsLoopFlags | app/src/live/handler.rs:332-346 | a skill cast keeps the loop's flags |
| HandlerProperties.SkillStartKeepsLoopFlags | app/src/live/handler.rs:354-377 | a skill start keeps the loop's flags |
| HandlerProperties.PartyFootprint | app/src/live/handler.rs:489-507 | party packets keep loop flags and validity, can only empty the cache, and all but `PartyInfo` keep the fight |
| HandlerProperties.ObjectFootprint | app/src/live/handler.rs:763-803 | object packets keep loop variables, flags and validity; all but the status sync keep the fight |
| HandlerProperties.DamageValidity | app/src/live/handler.rs:119-123 | validity is only ever re-armed by a zone entry, and a damage packet outside the window with an undecryptable event clears it |
| HandlerProperties.PartyCacheOnlyEmptied | app/src/live/handler.rs:311-321 | `handle` never fills the party cache; the freeze flag is only raised, and only together with a restart of the raid-end clock |
| HandlerProperties.HandleKeepsTrackers | app/src/live/handler.rs:285-321 | raid-begin, zone-load and raid-end packets leave every tracker alone |
| HandlerProperties.HandleKeepsFight | app/src/live/handler.rs:179-234 | entity-creation packets change the fight only by logging `on_new_pc` (a player) or `on_new_npc` (an NPC or summon) with the stored entity, its HP and its max HP |
| HandlerProperties.PartyRosterKeepsFight | app/src/live/handler.rs:499-507 | the party-leave and party-result packets leave the fight-level state alone |
| HandlerProperties.ObjectRemovalKeepsFight | app/src/live/handler.rs:322-331 | the object-removal packets leave the fight-level state alone |
| HandlerProperties.HandleKeepsLocals | app/src/live/handler.rs:41-62 | only zone entry, the raid end and the two party-roster packets change the loop variables |
| HandlerProperties.HandleKeepsLoopFlags | app/src/live/handler.rs:41-62 | no branch of `handle` assigns `resetting`, `saved` or the boss-only flags |
| HandlerProperties.PartyCacheEmptiedBy | app/src/live/handler.rs:123 | the packets that empty the party cache are zone entry, the party packets and the end of a raid |
| HandlerProperties.OnlyIdentityEmits | app/src/live/handler.rs:80-97 | only an identity-gauge packet emits, and only while details are requested |
| HandlerProperties.UnparsedIsIgnored | app/src/live/handler.rs:41-62 | a body that does not parse changes nothing, except for the packets that carry no body |
| HandlerProperties.SpawnCorrelates | app/src/live/handler.rs:235-266 | the object is registered with its kind; its cast timestamp is linked iff its owner is another player, the skill id is positive and a cast was recorded |
| HandlerProperties.SkillStartLogged | app/src/live/handler.rs:354-377 | every skill start is logged under the id of the entity `get_source_entity` yields and the packet's skill id |
| HandlerProperties.SkillStartTimestamps | app/src/live/handler.rs:354-377 | a cast timestamp is recorded iff the entity `get_source_entity` yields is or becomes a player and the skill id `on_skill_start` returns is positive; it is keyed by that id and no other key changes |
| HandlerProperties.RaidBossKillOutcome | app/src/live/handler.rs:306-310 | a boss kill logs phase 1 and marks the raid cleared; nothing else changes and nothing is published |
| HandlerProperties.TriggerBossBattleOutcome | app/src/live/handler.rs:675-684 | phase 3 is logged iff no boss is named, the fight has not started or the boss is Saydon; otherwise nothing changes |
| HandlerProperties.SkillCastOutcome | app/src/live/handler.rs:332-346 | the player guess for the entity `get_source_entity` yields reaches the trackers, and a skill start is logged iff the guessed class is 202 or 204 |
| HandlerProperties.NewEntityRegisters | app/src/live/handler.rs:179-234 | a new entity is stored with the kind its packet implies, and no other entity changes |
| HandlerProperties.ShieldSyncLogsAbsorption | app/src/live/handler.rs:774-803 | a shield sync logs the absorbed amount; any other sync logs nothing |
| Live.HeldRequestFlickers | app/src/live/mod.rs:103-111 | as written, a held boss-only request flips the state's flag on every packet |
| Live.HeldRequestSticks | app/src/live/mod.rs:103-111 | with the corrected sync, a held request keeps the flag on from the first packet |
| Live.SyncFollowsRequest | app/src/live/mod.rs:103-111 | the corrected sync sets the flag to the listener's, clears the encounter's flag only when switching off, and changes nothing else |
| Live.StepCases | app/src/live/mod.rs:91-102 | a step only reads the flags when paused, and otherwise advances |
| Live.PausedSkipsPacket | app/src/live/mod.rs:102 | a paused step handles, sends, resets and beats nothing |
| Live.ResetBeforeHandling | app/src/live/mod.rs:95 | a reset request soft-resets the state before the packet; nothing else changes |
| Live.SaveBeforeHandling | app/src/live/mod.rs:96-101 | a save stores the party, saves the encounter and marks it saved and resetting before the packet |
| Live.CleanupSettles | app/src/live/mod.rs:146-152 | the clean-up leaves nothing resetting or saved; when it fires it soft-resets, unfreezes the party and drops the cache, and otherwise changes nothing |
| Live.HeartbeatGate | app/src/live/mod.rs:154-162 | a heartbeat goes out iff a region is known and fifteen minutes have passed, carries the region and restarts the interval |
| Live.FinishSettles | app/src/live/mod.rs:134-152 | the step emits the handler's events then the sender's, ends not resetting, and keeps the flags the handler cannot touch |
| Live.SaveResetsInSameStep | app/src/live/mod.rs:96-152 | a save is followed by a reset in the same step |
| Live.StepSettles | app/src/live/mod.rs:91-163 | every step ends with the state not resetting |
| Live.StepFlipsBossOnly | app/src/live/mod.rs:103-112 | as written, a step with no reset, pause or save flips the state's flag when the listener's is on and keeps it otherwise |
| Live.StepSyncsBossOnly | app/src/live/mod.rs:103-112 | with the corrected sync (`IntendedStep`), a step with no reset, pause or save leaves the state's flag equal to the listener's |
| Live.IntendedStepAgrees | app/src/live/mod.rs:94-113 | the corrected step differs from the step as written only when neither reset, pause nor save is pending |
| Live.StepPublishes | app/src/live/mod.rs:134-144 | a step that is not paused emits the handler's events and then the sender's; the encounter goes out iff the throttle allows, damage is valid and some entity is worth showing |
| Live.EarlyDamageIgnored | app/src/live/mod.rs:79 | damage packets in the first ten seconds of the loop are ignored |
| Live.RunStopsAtError | app/src/live/mod.rs:91 | the loop stops at the first failed `recv` |
| Live.RunComposes | app/src/live/mod.rs:91-163 | without a failed `recv`, two batches run as their concatenation |
| Live.RunOnlyAppends | app/src/live/mod.rs:91-163 | emitted events are never withdrawn: each input only appends |
| Live.RunStaysSettled | app/src/live/mod.rs:91-163 | a loop started settled stays settled |
| Live.TakeAction | app/src/live/mod.rs:94-113 | the state becomes that of `ApplyAction`: a reset, a save, or a flip of the boss-only flag |
| Live.SaveNow | app/src/live/mod.rs:96-101 | the party is stored, a manual save logged and the state marked saved and resetting |
| Live.FlipBossOnly | app/src/live/mod.rs:103-111 | the state's boss-only flag is flipped; switching it off also clears the encounter's |
| Live.LiveSession.constructor | app/src/live/mod.rs:79-89 | the session starts as `InitialSession` |
| Live.LiveSession.DeliverRequest | app/src/live/listener.rs:38-96 | the session becomes that of `Deliver` |
| Live.LiveSession.Step | app/src/live/mod.rs:92-162 | a paused read only updates the flags; otherwise the session becomes `Advanced` |
| Live.LiveSession.Advance | app/src/live/mod.rs:94-162 | the session becomes `Advanced` |
| Live.LiveSession.Proceed | app/src/live/mod.rs:115-162 | `handle`, the encounter update of the recorded calls, then `Finish` |
| Live.LiveSession.TouchEncounter | app/src/live/mod.rs:134 | the encounter becomes what the recorded calls made of it; nothing else changes |
| Live.LiveSession.Respond | app/src/live/mod.rs:136-162 | the session becomes `Finish` |
| Live.LiveSession.Send | app/src/live/mod.rs:136-144 | the session becomes `Sent` |
| Live.LiveSession.Settle | app/src/live/mod.rs:146-152 | the machine becomes that of `Cleanup` |
| Live.LiveSession.Heartbeat | app/src/live/mod.rs:154-162 | the session becomes that of `Beat` |
| Live.LiveSession.Run | app/src/live/mod.rs:91-163 | the session becomes `RunSpec`; the returned index is the first failed `recv`, or the number of inputs |
| Repository.Quot | app/src/database/repository.rs:284 | truncating division: the remainder has the dividend's sign and is smaller than the divisor |
| Repository.QuotUnique | app/src/database/repository.rs:284 | that quotient is the only one with such a remainder |
| Repository.QuotOfNatural | app/src/database/repository.rs:286 | a non-negative dividend gives a quotient between 0 and the dividend |
| Repository.DurationSeconds | app/src/database/repository.rs:283-284 | at least one second; exactly one below two seconds; otherwise the whole seconds of the duration |
| Repository.EncounterDps | app/src/database/repository.rs:283-286 | with non-negative damage, 0 <= dps <= total and total - dps * seconds lies in [0, seconds) |
| Repository.ShortFightDps | app/src/database/repository.rs:283-286 | a fight shorter than two seconds stores its total damage as DPS |
| Repository.IndexGroups | app/src/database/repository.rs:290-300 | the keys are exactly 0..n-1 and each maps to the party at that position |
| Repository.Misc | app/src/database/repository.rs:288-308 | raid clear is Some(true) iff cleared; the message is "invalid_stats" iff stats are invalid; party info is None iff the party list is empty |
| Repository.MiscPartyRoundTrip | app/src/database/repository.rs:290-300 | reading the groups back in key order gives the stored party list |
| Repository.PreviewPlayers | app/src/database/repository.rs:425-429 | exactly the qualifying entities, with their multiplicities |
| Repository.PreviewKeepsOrder | app/src/database/repository.rs:425-429 | the listed players are a subsequence of the values, in the same order |
| Repository.InsertByDamage | app/src/database/repository.rs:436 | insertion adds exactly the one entry |
| Repository.InsertKeepsOrder | app/src/database/repository.rs:436 | insertion into a damage-ordered list keeps it ordered |
| Repository.SortByDamage | app/src/database/repository.rs:436 | the sort is a permutation of its input |
| Repository.SortOrders | app/src/database/repository.rs:436 | the sort's result is in non-increasing order of damage |
| Repository.SortedPermutationsAgree | app/src/database/repository.rs:436 | any two orders the unstable sort may produce agree on the damage at every position |
| Repository.DecimalString | app/src/database/repository.rs:439 | the rendering is a non-empty string of digits with no leading zero |
| Repository.DecimalRoundTrip | app/src/database/repository.rs:439 | parsing a rendered number gives the number |
| Repository.Join | app/src/database/repository.rs:440-441 | joining no parts gives "" and one part gives that part |
| Repository.SplitJoin | app/src/database/repository.rs:440-441 | splitting a join at the separator gives the parts back when none holds it |
| Repository.EntryRoundTrip | app/src/database/repository.rs:439 | an entry "class:name" reads back as that class id and name |
| Repository.PreviewListRoundTrip | app/src/database/repository.rs:438-441 | with no comma in any name, the column splits into one entry per player in order, each reading back as its class and name |
| Repository.EmptyPreviewList | app/src/database/repository.rs:438-441 | no players give the empty column |
| Repository.LocalPlayerDps | app/src/database/repository.rs:431-434 | the DPS of the first listed player of that name, or 0 when there is none |
| Repository.Preview | app/src/database/repository.rs:443-454 | fight start plus duration is the last combat packet; the other columns are taken from the encounter |
| Repository.PreviewListsQualifyingPlayers | app/src/database/repository.rs:425-441 | the column lists a damage-sorted permutation of the qualifying entities, each entry reading back as that entity's class and name |
| Repository.LocalDpsWithoutLocalPlayer | app/src/database/repository.rs:431-434 | with no listed local player the stored local DPS is 0 |
| Repository.LocalDpsOfLocalPlayer | app/src/database/repository.rs:431-434 | a listed local player's entry gives the stored local DPS |
| Repository.PageOffset | app/src/database/repository.rs:133 | the offset is non-negative for pages from 1, and page 1 starts at 0 |
| Repository.PagesAdjacent | app/src/database/repository.rs:133 | each page starts where the previous one ends |
| Repository.PagesTile | app/src/database/repository.rs:133 | with a positive page size, every position falls on exactly one page |

## Left out

- The packets `handle` receives but the model does not interpret are modelled as changing nothing: `CounterAttackNotify`, `DeathNotify`, `InitPC` (with the write of the local player's identity to disk), `NewVehicle`, `SkillCooldownNotify`, `PartyStatusEffectAddNotify`, `PartyStatusEffectRemoveNotify`, `StatusEffectAddNotify`, `StatusEffectRemoveNotify`, `TroopMemberUpdateMinNotify` and `NewTransit`. Their bodies live in the trackers and the encounter state, which are not part of this model. Because no status effect is ever added and the trackers start without one (and `InitEnv` drops them all), in a run of the loop the shield branch of the status sync (`HandlerProperties.ShieldSyncLogsAbsorption`) and the effect half of `HandlerProperties.RemoveObjectsEffect` never fire; both are proved for arbitrary trackers.
- The encounter state's aggregation methods (`on_damage`, `on_init_env`, `on_skill_start`, `on_new_pc`, `on_new_npc`, `update_local_player`, `on_phase_transition`, `on_abnormal_move`, `on_shield_change`, `soft_reset`, `save_to_db`) are recorded in an ordered call log. Their bodies are not part of this model. `on_abnormal_move` has no record of its own: it is the `abnormalMove` flag of the `Damage` record, and its `skill_move_option_data` is dropped. The `Damage` record keeps the source id, target id, skill id, damage and timestamp of `on_damage`; its `owner`, status effects, `target_count`, shield damage, modifier and the other `DamageData` fields are dropped.
- State.Tracked.SourceEntity: `get_source_entity` belongs to the entity tracker, which is not part of this model. The skill-cast and skill-start branches take its result from the parameter `World.sourceEntity`, so whether it resolves an owner is up to that parameter; whether it stores an unknown id is not modelled. `Tracked.Spawn` does not record the owner id that app/src/live/handler.rs:238 passes. The tracker bodies of `init_env`, `remove_local_object`, `sync_status_effect` (whose character and object ids are not modelled) and the party tracker's `add` and `remove` are the model's own definitions of those trackers, not read from their code.
- Live.StepSpec: what those calls make of the encounter is the parameter `World.encounterAfter`, applied once after `handle`. The effect of `soft_reset` and `save_to_db` from the flag action and the clean-up is not applied to the encounter, and the per-call effect on the other fight fields is not modelled.
- HandlerProperties.HandleKeepsLoopFlags: states that no branch of `handle` assigns `resetting`, `saved` or the boss-only flags. Whether a recorded call changes them inside the encounter state is not modelled.
- Handler.HandleSkillStart: like `SkillStartSpec` and `SkillStartTimestamps`, it takes the skill id `on_skill_start` returns from the parameter `World.startedSkill`. Its `summon_source` result, which `new_cast` also receives, and `tripod_index` are left out.
- Handler.HandlePartyInfo: like `PartyInfoSpec`, it takes the trackers' `party_info` update from the parameter `World.partyInfoUpdate`, because the party tracker's code is not part of this model.
- Handler.NewEntitySpec: `NewVehicle` (which also calls `on_new_pc`) is not interpreted; see the list of uninterpreted packets above.
- The entity, id, status and party trackers are modelled only through the queries and updates `handle` calls. Entity fields the loop does not read (HP, stats, stat buffs) are left out.
- Damage decryption, `update_party`, the region accessor, the wall clock and `Instant::now` are parameters of `World`. The model makes no claim about their results.
- The heartbeat's HTTP request and its spawned task are left out. Only the gate and the restart of the interval are modelled.
- Tauri's `emit` is modelled as appending an event to the emitted list. Delivery, the spawned send task and ordering across tasks are left out.
- The UI callbacks run on other threads. The model applies each request between two packets, as whole steps. Interleavings inside a packet's processing are left out.
- SQL statements, JSON serialisation, compression, `insert_entities` and the row-building loops of the repository are left out. Only the values the rows are computed from are modelled.
- `Repository.Misc`: the fields filled by `..Default::default()` are left out.
- `Repository.EncounterDps`: does not model i64 overflow, because the product of realistic damage totals and durations stays far inside the range.
- `Repository.PageOffset`: does not model i32 overflow of `(page - 1) * page_size`.
- `Repository.IndexGroups`: does not model the `as i32` truncation of the index, because no party list reaches 2^31 groups.
- `Repository.Preview`: the entity map's iteration order is a parameter (`values`), because Rust's `HashMap` order is unspecified.
- `Repository.SortByDamage`: the order that `sort_unstable_by_key` gives to ties is unspecified. The model takes one permitted order, and `Repository.SortedPermutationsAgree` shows that every permitted order agrees on the damage at each position.
- `Repository.ParseEntry`, `Repository.ParseDecimal`, `Repository.Split` and `Repository.IndexOf` are reading functions that exist only to state the round trips. They have no counterpart in the source.

## Findings

| source | as written | input that shows it | evidently intended | confidence | as-written member | corrected member |
|---|---|---|---|---|---|---|
| app/src/live/mod.rs:103-112 | on every packet for which `process_flags` reports `BossOnlyDamage`, the state's boss-only flag is flipped; `process_flags` never clears that flag, so the flip repeats | boss-only damage switched on in the UI and held while two packets arrive: the state's flag goes on, then off | the state's flag follows the listener's setting | not executed | Live.StepFlipsBossOnly | Live.StepSyncsBossOnly |
