/**
 * The live encounter loop of `start`: once per received packet, the listener's flag action,
 * `handle`, `send_to_ui`, the clean-up after a reset and the heartbeat gate; the loop runs
 * until the receiver fails. The listener's request callbacks, which run on the UI's side,
 * are serialised between packets.
 */
module Live {
  import opened Types
  import opened State
  import opened Listener
  import opened Sender
  import opened Handler
  import HandlerProperties

  /** The heartbeat API's interval: fifteen minutes. */
  const HeartbeatIntervalMs: nat := 900000

  /** Everything the loop carries from one packet to the next, as values. */
  datatype Session = Session(
    flags: Flags,
    clock: SenderClock,
    machine: Machine,
    lastHeartbeat: int,
    heartbeats: seq<string>,
    emitted: seq<UiEvent>)

  /** What reaches the loop: a UI request to the listener, a packet, or a failed `recv`. */
  datatype Input =
    | UiRequest(request: Request)
    | Received(op: Opcode, data: Payload, world: World)
    | RecvError

  /**
   * The state at the top of the loop: a new encounter state carrying the region read at
   * start, empty trackers, a listener and a sender built from the settings, no party freeze
   * or cache, and the raid-end clock at `now`; the heartbeat API counts from `heartbeatSince`.
   */
  function InitialSession(bossOnlyDamageSetting: bool, lowPerformanceMode: bool, region: Option<string>,
                          now: int, heartbeatSince: int): Session
  {
    var f := InitialFight();
    Session(InitialFlags(bossOnlyDamageSetting), InitialClock(lowPerformanceMode, now),
            Machine(f.(region := region, encounter := f.encounter.(region := region)),
                    Tracked(map[], 0, map[], map[]), LoopLocals(false, None, now)),
            heartbeatSince, [], [])
  }

  // ---------------------------------------------------------------------------
  // The boss-only-damage setting
  // ---------------------------------------------------------------------------

  /** Switching boss-only damage off clears it on the encounter as well. */
  function BossOnlyOff(f: Fight): Fight
  {
    f.(bossOnlyDamage := false, encounter := f.encounter.(bossOnlyDamage := false))
  }

  /** What the loop does on a `BossOnlyDamage` action as written: it flips the state's flag. */
  function ToggleBossOnly(f: Fight): Fight
  {
    if f.bossOnlyDamage then BossOnlyOff(f) else f.(bossOnlyDamage := true)
  }

  /** The intended behaviour: the state's flag follows the listener's. */
  function SyncBossOnly(f: Fight, requested: bool): Fight
  {
    if requested then f.(bossOnlyDamage := true)
    else if f.bossOnlyDamage then BossOnlyOff(f)
    else f
  }

  /** The state's boss-only flag after a run of flag actions, as written. */
  function ToggledOver(f: Fight, actions: seq<FlagAction>): Fight
    decreases |actions|
  {
    if actions == [] then f
    else ToggledOver(if actions[0] == BossOnlyDamage then ToggleBossOnly(f) else f, actions[1..])
  }

  /** The state's boss-only flag after a run of flag actions, with the intended sync. */
  function SyncedOver(f: Fight, actions: seq<FlagAction>): Fight
    decreases |actions|
  {
    if actions == [] then f
    else
      var g := if actions[0] == BossOnlyDamage then SyncBossOnly(f, true)
               else if actions[0] == NoAction then SyncBossOnly(f, false)
               else f;
      SyncedOver(g, actions[1..])
  }

  /**
   * As written, holding the boss-only request makes the state's flag alternate on every
   * packet: after `n` packets it has flipped `n` times.
   */
  lemma {:induction false} HeldRequestFlickers(f: Fight, flags: Flags, n: nat)
    requires !flags.reset && !flags.pause && !flags.save && flags.bossOnlyDamage
    ensures ToggledOver(f, Drain(flags, n)).bossOnlyDamage == (f.bossOnlyDamage != (n % 2 == 1))
  {
    BossOnlyDamageKeepsReporting(flags, n);
    ToggledRepeatedly(f, n);
  }

  lemma {:induction false} ToggledRepeatedly(f: Fight, n: nat)
    ensures ToggledOver(f, seq(n, _ => BossOnlyDamage)).bossOnlyDamage == (f.bossOnlyDamage != (n % 2 == 1))
    decreases n
  {
    if n > 0 {
      var actions := seq(n, _ => BossOnlyDamage);
      assert actions[1..] == seq(n - 1, _ => BossOnlyDamage);
      ToggledRepeatedly(ToggleBossOnly(f), n - 1);
    }
  }

  /** With the intended sync, holding the request keeps the state's flag on from the first packet. */
  lemma {:induction false} HeldRequestSticks(f: Fight, flags: Flags, n: nat)
    requires !flags.reset && !flags.pause && !flags.save && flags.bossOnlyDamage
    requires n > 0
    ensures SyncedOver(f, Drain(flags, n)).bossOnlyDamage
  {
    BossOnlyDamageKeepsReporting(flags, n);
    SyncedRepeatedly(f, n);
  }

  lemma {:induction false} SyncedRepeatedly(f: Fight, n: nat)
    requires n > 0
    ensures SyncedOver(f, seq(n, _ => BossOnlyDamage)).bossOnlyDamage
    decreases n
  {
    var actions := seq(n, _ => BossOnlyDamage);
    assert actions[1..] == seq(n - 1, _ => BossOnlyDamage);
    if n > 1 {
      SyncedRepeatedly(SyncBossOnly(f, true), n - 1);
    }
  }

  /**
   * The sync follows the listener's flag whatever the state's flag was, only switching off
   * clears the encounter's flag, and nothing else in the fight changes.
   */
  lemma SyncFollowsRequest(f: Fight, requested: bool)
    ensures var g := SyncBossOnly(f, requested);
      && g.bossOnlyDamage == requested
      && (g.encounter.bossOnlyDamage != f.encounter.bossOnlyDamage ==> !requested && f.bossOnlyDamage)
      && g.(bossOnlyDamage := f.bossOnlyDamage, encounter := f.encounter) == f
      && SyncBossOnly(g, requested) == g
  {
  }

  // ---------------------------------------------------------------------------
  // One step of the loop, on values
  // ---------------------------------------------------------------------------

  /**
   * The flag action, applied to the state before the packet is handled, as written: a
   * `BossOnlyDamage` action flips the state's flag, and any other action leaves it.
   */
  function ApplyAction(action: FlagAction, f: Fight, party: Party): Fight
  {
    if action == Reset then Record(f, StateCall.SoftReset(true))
    else if action == Saved then Record(f.(partyInfo := party), SaveToDb(true)).(saved := true, resetting := true)
    else if action == BossOnlyDamage then ToggleBossOnly(f)
    else f
  }

  /** The flag action with the intended sync: the state's boss-only flag follows the listener's. */
  function IntendedAction(action: FlagAction, f: Fight, party: Party): Fight
  {
    if action == BossOnlyDamage || action == NoAction then SyncBossOnly(f, action == BossOnlyDamage)
    else ApplyAction(action, f, party)
  }

  /** After sending: a state marked as resetting is soft-reset, and the party is released. */
  function Cleanup(m: Machine): Machine
  {
    if m.fight.resetting then
      Machine(Record(m.fight, StateCall.SoftReset(true)).(resetting := false, saved := false), m.tracked,
              m.locals.(partyFreeze := false, partyCache := None))
    else m
  }

  /** The heartbeat gate: a heartbeat carrying the region goes out once the interval has passed. */
  function Beat(s: Session, now: int): Session
  {
    if s.machine.fight.region.Some? && Elapsed(s.lastHeartbeat, now) >= HeartbeatIntervalMs then
      s.(lastHeartbeat := now, heartbeats := s.heartbeats + [s.machine.fight.region.value])
    else s
  }

  /**
   * `send_to_ui` once `handle` has left `s.machine` and emitted `events`: the snapshot and
   * party events follow the handler's.
   */
  function Sent(s: Session, events: seq<UiEvent>, world: World): Session
  {
    var m := s.machine;
    var o := SendSpec(s.clock, m.fight, m.locals.partyFreeze, m.locals.partyCache, world.partyOf(m.tracked), world.now);
    var sent := Machine(m.fight.(bossDeadUpdate := o.bossDeadUpdate), m.tracked, m.locals.(partyCache := o.partyCache));
    s.(clock := o.clock, machine := sent, emitted := s.emitted + events + o.events)
  }

  /** Everything after `handle`: `send_to_ui`, the clean-up and the heartbeat. */
  function Finish(s: Session, events: seq<UiEvent>, world: World): Session
  {
    var sent := Sent(s, events, world);
    Beat(sent.(machine := Cleanup(sent.machine)), world.now)
  }

  /**
   * The state once `handle` returned: the encounter is what the calls recorded on the
   * encounter state made of it.
   */
  function Touched(m: Machine, world: World): Machine
  {
    m.(fight := m.fight.(encounter := world.encounterAfter(m.fight.encounter, m.fight.calls)))
  }

  /** The machine `handle` receives: the flag action applied to the state. */
  function Prepared(s: Session, action: FlagAction, world: World): Machine
  {
    var m := s.machine;
    Machine(ApplyAction(action, m.fight, world.partyOf(m.tracked)), m.tracked, m.locals)
  }

  /** A step once the listener did not pause: the flag action, `handle`, and what follows. */
  function Advanced(s: Session, action: FlagAction, op: Opcode, data: Payload, world: World): Session
  {
    var h := HandleSpec(op, data, Prepared(s, action, world), world, s.flags.emitDetails);
    Finish(s.(machine := Touched(h.machine, world)), h.events, world)
  }

  /** One iteration of the loop for a received packet. */
  function StepSpec(s: Session, op: Opcode, data: Payload, world: World): Session
  {
    var p := Process(s.flags);
    if p.0 == Paused then s.(flags := p.1) else Advanced(s.(flags := p.1), p.0, op, data, world)
  }

  /** One iteration of the loop with the intended boss-only sync in place of the flip. */
  function IntendedStep(s: Session, op: Opcode, data: Payload, world: World): Session
  {
    var p := Process(s.flags);
    if p.0 == Paused then s.(flags := p.1)
    else
      var m := s.machine;
      var prepared := Machine(IntendedAction(p.0, m.fight, world.partyOf(m.tracked)), m.tracked, m.locals);
      var h := HandleSpec(op, data, prepared, world, p.1.emitDetails);
      Finish(s.(flags := p.1, machine := Touched(h.machine, world)), h.events, world)
  }

  /** A step either only reads the flags, when paused, or advances. */
  lemma StepCases(s: Session, op: Opcode, data: Payload, world: World)
    ensures var p := Process(s.flags);
      StepSpec(s, op, data, world) == if p.0 == Paused then s.(flags := p.1) else Advanced(s.(flags := p.1), p.0, op, data, world)
  {
  }

  /** A UI request reaching the listener, and the event its callback emits. */
  function Deliver(s: Session, r: Request): Session
  {
    var res := OnRequest(s.flags, r);
    s.(flags := res.0, emitted := s.emitted + (if res.1.Some? then [res.1.value] else []))
  }

  function Next(s: Session, input: Input): Session
  {
    match input
    case UiRequest(r) => Deliver(s, r)
    case Received(op, data, world) => StepSpec(s, op, data, world)
    case RecvError => s
  }

  /** The loop over a sequence of inputs: it stops at the first failed `recv`. */
  function RunSpec(s: Session, inputs: seq<Input>): Session
    decreases |inputs|
  {
    if inputs == [] || inputs[0].RecvError? then s
    else RunSpec(Next(s, inputs[0]), inputs[1..])
  }

  // ---------------------------------------------------------------------------
  // Properties of a step
  // ---------------------------------------------------------------------------

  /** A paused listener skips the packet: nothing is handled, sent, reset or beaten. */
  lemma PausedSkipsPacket(s: Session, op: Opcode, data: Payload, world: World)
    requires s.flags.pause && !s.flags.reset
    ensures StepSpec(s, op, data, world) == s
  {
  }

  /** A reset request soft-resets the state before the packet is handled; nothing else changes. */
  lemma ResetBeforeHandling(s: Session, world: World)
    requires s.flags.reset
    ensures var p := Process(s.flags);
      && p.0 == Reset
      && Prepared(s, p.0, world) == s.machine.(fight := s.machine.fight.(calls := s.machine.fight.calls + [StateCall.SoftReset(true)]))
  {
  }

  /**
   * A save request stores the party, saves the encounter and marks the state as saved and
   * resetting before the packet is handled.
   */
  lemma SaveBeforeHandling(s: Session, world: World)
    requires !s.flags.reset && !s.flags.pause && s.flags.save
    ensures var m := Prepared(s, Process(s.flags).0, world);
      && m.fight.saved && m.fight.resetting
      && m.fight.partyInfo == world.partyOf(s.machine.tracked)
      && m.fight.calls == s.machine.fight.calls + [SaveToDb(true)]
      && m.tracked == s.machine.tracked && m.locals == s.machine.locals
  {
  }

  /**
   * The clean-up leaves no step marked as resetting or saved; when it fires it soft-resets,
   * unfreezes the party and drops the cache, and otherwise it changes nothing.
   */
  lemma CleanupSettles(m: Machine)
    ensures var r := Cleanup(m);
      && !r.fight.resetting
      && (m.fight.resetting ==> !r.fight.saved && r.fight.calls == m.fight.calls + [StateCall.SoftReset(true)]
                                && !r.locals.partyFreeze && r.locals.partyCache == None
                                && r.locals.raidEndCd == m.locals.raidEndCd && r.tracked == m.tracked)
      && (!m.fight.resetting ==> r == m)
  {
  }

  /**
   * A heartbeat goes out exactly when a region is known and fifteen minutes have passed since
   * the last one; it carries the region and restarts the interval.
   */
  lemma HeartbeatGate(s: Session, now: int)
    ensures var r := Beat(s, now);
      var due := s.machine.fight.region.Some? && Elapsed(s.lastHeartbeat, now) >= HeartbeatIntervalMs;
      && (due ==> r.heartbeats == s.heartbeats + [s.machine.fight.region.value] && r.lastHeartbeat == now)
      && (!due ==> r == s)
  {
  }

  /**
   * After `handle`, the step's emissions are the handler's followed by the sender's, nothing
   * is left marked as resetting, and the loop flags the handler cannot touch survive.
   */
  lemma FinishSettles(s: Session, events: seq<UiEvent>, world: World)
    ensures var r := Finish(s, events, world);
      var m := s.machine;
      var o := SendSpec(s.clock, m.fight, m.locals.partyFreeze, m.locals.partyCache, world.partyOf(m.tracked), world.now);
      && r.emitted == s.emitted + events + o.events
      && !r.machine.fight.resetting
      && r.flags == s.flags && r.clock == o.clock
      && r.machine.fight.bossOnlyDamage == m.fight.bossOnlyDamage
      && (m.fight.resetting ==> !r.machine.fight.saved && !r.machine.locals.partyFreeze && r.machine.locals.partyCache == None)
      && (r.heartbeats == s.heartbeats || (r.heartbeats == s.heartbeats + [r.machine.fight.region.value]
                                           && r.machine.fight.region.Some?))
  {
    CleanupSettles(Sent(s, events, world).machine);
  }

  /**
   * A saved encounter is reset in the same step: after a save the step ends soft-reset, not
   * saved, not resetting, with the party unfrozen and the cache empty.
   */
  lemma SaveResetsInSameStep(s: Session, op: Opcode, data: Payload, world: World)
    requires !s.flags.reset && !s.flags.pause && s.flags.save
    ensures var r := StepSpec(s, op, data, world).machine;
      && !r.fight.resetting && !r.fight.saved
      && !r.locals.partyFreeze && r.locals.partyCache == None
  {
    var p := Process(s.flags);
    var s' := s.(flags := p.1);
    var m := Prepared(s', p.0, world);
    var h := HandleSpec(op, data, m, world, p.1.emitDetails);
    HandlerProperties.HandleKeepsLoopFlags(op, data, m, world, p.1.emitDetails);
    FinishSettles(s'.(machine := Touched(h.machine, world)), h.events, world);
  }

  /**
   * What a step that is not paused publishes: the handler's events, then what `send_to_ui`
   * sends for the encounter as the recorded calls left it. The encounter goes out exactly when
   * the throttle allows a send, damage is valid and some entity is worth showing; the
   * invalid-damage notice goes out in the same case with damage invalid.
   */
  lemma StepPublishes(s: Session, op: Opcode, data: Payload, world: World)
    requires !s.flags.pause
    ensures var p := Process(s.flags);
      var h := HandleSpec(op, data, Prepared(s.(flags := p.1), p.0, world), world, p.1.emitDetails);
      var m := Touched(h.machine, world);
      var o := SendSpec(s.clock, m.fight, m.locals.partyFreeze, m.locals.partyCache, world.partyOf(m.tracked), world.now);
      && StepSpec(s, op, data, world).emitted == s.emitted + h.events + o.events
      && (HasEncounterUpdate(o.events) <==>
            CanSend(s.clock, world.now, m.fight.resetting, m.fight.bossDeadUpdate) && m.fight.damageIsValid && SomeRetained(m.fight.encounter))
      && ((InvalidDamage in o.events) <==>
            CanSend(s.clock, world.now, m.fight.resetting, m.fight.bossDeadUpdate) && !m.fight.damageIsValid && SomeRetained(m.fight.encounter))
  {
    var p := Process(s.flags);
    var h := HandleSpec(op, data, Prepared(s.(flags := p.1), p.0, world), world, p.1.emitDetails);
    var m := Touched(h.machine, world);
    SendEmits(s.clock, m.fight, m.locals.partyFreeze, m.locals.partyCache, world.partyOf(m.tracked), world.now);
  }

  /** The loop ends every step with the state settled: no step leaves it marked as resetting. */
  lemma StepSettles(s: Session, op: Opcode, data: Payload, world: World)
    requires !s.machine.fight.resetting
    ensures !StepSpec(s, op, data, world).machine.fight.resetting
  {
    var p := Process(s.flags);
    if p.0 != Paused {
      var s' := s.(flags := p.1);
      var h := HandleSpec(op, data, Prepared(s', p.0, world), world, p.1.emitDetails);
      FinishSettles(s'.(machine := Touched(h.machine, world)), h.events, world);
    }
  }

  /**
   * As written, a step whose flags report the boss-only setting flips the state's flag,
   * whatever it was; a step that reports no action leaves it as it was.
   */
  lemma StepFlipsBossOnly(s: Session, op: Opcode, data: Payload, world: World)
    requires !s.flags.reset && !s.flags.pause && !s.flags.save
    ensures StepSpec(s, op, data, world).machine.fight.bossOnlyDamage
            == (s.machine.fight.bossOnlyDamage != s.flags.bossOnlyDamage)
  {
    var p := Process(s.flags);
    var s' := s.(flags := p.1);
    var m := Prepared(s', p.0, world);
    var h := HandleSpec(op, data, m, world, p.1.emitDetails);
    HandlerProperties.HandleKeepsLoopFlags(op, data, m, world, p.1.emitDetails);
    FinishSettles(s'.(machine := Touched(h.machine, world)), h.events, world);
  }

  /**
   * With the intended sync, a step whose flags report no reset, pause or save leaves the
   * state's flag equal to the listener's.
   */
  lemma StepSyncsBossOnly(s: Session, op: Opcode, data: Payload, world: World)
    requires !s.flags.reset && !s.flags.pause && !s.flags.save
    ensures IntendedStep(s, op, data, world).machine.fight.bossOnlyDamage == s.flags.bossOnlyDamage
  {
    var p := Process(s.flags);
    var m := s.machine;
    var prepared := Machine(IntendedAction(p.0, m.fight, world.partyOf(m.tracked)), m.tracked, m.locals);
    SyncFollowsRequest(m.fight, s.flags.bossOnlyDamage);
    var h := HandleSpec(op, data, prepared, world, p.1.emitDetails);
    HandlerProperties.HandleKeepsLoopFlags(op, data, prepared, world, p.1.emitDetails);
    FinishSettles(s.(flags := p.1, machine := Touched(h.machine, world)), h.events, world);
  }

  /** The intended step differs from the step as written only on the boss-only and no-action paths. */
  lemma IntendedStepAgrees(s: Session, op: Opcode, data: Payload, world: World)
    requires s.flags.reset || s.flags.pause || s.flags.save
    ensures IntendedStep(s, op, data, world) == StepSpec(s, op, data, world)
  {
  }

  /**
   * The raid-end clock starts with the loop, so every damage packet of the first ten seconds
   * is ignored.
   */
  lemma EarlyDamageIgnored(bossOnlyDamageSetting: bool, lowPerformanceMode: bool, region: Option<string>,
                           start: int, heartbeatSince: int, op: Opcode, data: Payload, world: World, canEmitDetails: bool)
    requires HandlerProperties.IsDamageOpcode(op)
    requires world.now < start + DamageSuppressionMs
    ensures var m := InitialSession(bossOnlyDamageSetting, lowPerformanceMode, region, start, heartbeatSince).machine;
      HandleSpec(op, data, m, world, canEmitDetails) == Handled(m, [])
  {
    var m := InitialSession(bossOnlyDamageSetting, lowPerformanceMode, region, start, heartbeatSince).machine;
    HandlerProperties.SuppressedDamageIgnored(op, data, m, world, canEmitDetails);
  }

  // ---------------------------------------------------------------------------
  // Properties of the loop
  // ---------------------------------------------------------------------------

  /** The loop ends at the first failed `recv`: nothing after it is processed. */
  lemma {:induction false} RunStopsAtError(s: Session, inputs: seq<Input>, i: nat)
    requires i < |inputs| && inputs[i].RecvError?
    requires forall j :: 0 <= j < i ==> !inputs[j].RecvError?
    ensures RunSpec(s, inputs) == RunSpec(s, inputs[..i])
    decreases i
  {
    if i > 0 {
      assert inputs[1..][..i - 1] == inputs[..i][1..];
      RunStopsAtError(Next(s, inputs[0]), inputs[1..], i - 1);
    }
  }

  /** Without a failed `recv`, running two batches is running their concatenation. */
  lemma {:induction false} RunComposes(s: Session, a: seq<Input>, b: seq<Input>)
    requires forall j :: 0 <= j < |a| ==> !a[j].RecvError?
    ensures RunSpec(s, a + b) == RunSpec(RunSpec(s, a), b)
    decreases |a|
  {
    if a != [] {
      assert (a + b)[0] == a[0] && !a[0].RecvError?;
      assert (a + b)[1..] == a[1..] + b;
      RunComposes(Next(s, a[0]), a[1..], b);
    } else {
      assert a + b == b;
    }
  }

  /** What the loop has emitted is never withdrawn: each input only appends. */
  lemma {:induction false} RunOnlyAppends(s: Session, inputs: seq<Input>)
    ensures var r := RunSpec(s, inputs);
      |s.emitted| <= |r.emitted| && r.emitted[..|s.emitted|] == s.emitted
      && |s.heartbeats| <= |r.heartbeats| && r.heartbeats[..|s.heartbeats|] == s.heartbeats
    decreases |inputs|
  {
    if inputs != [] && !inputs[0].RecvError? {
      var n := Next(s, inputs[0]);
      NextAppends(s, inputs[0]);
      RunOnlyAppends(n, inputs[1..]);
      var r := RunSpec(n, inputs[1..]);
      assert r.emitted[..|s.emitted|] == r.emitted[..|n.emitted|][..|s.emitted|];
      assert r.heartbeats[..|s.heartbeats|] == r.heartbeats[..|n.heartbeats|][..|s.heartbeats|];
    }
  }

  lemma NextAppends(s: Session, input: Input)
    ensures var r := Next(s, input);
      |s.emitted| <= |r.emitted| && r.emitted[..|s.emitted|] == s.emitted
      && |s.heartbeats| <= |r.heartbeats| && r.heartbeats[..|s.heartbeats|] == s.heartbeats
  {
    if input.Received? {
      var p := Process(s.flags);
      if p.0 != Paused {
        var s' := s.(flags := p.1);
        var h := HandleSpec(input.op, input.data, Prepared(s', p.0, input.world), input.world, p.1.emitDetails);
        FinishAppends(s'.(machine := Touched(h.machine, input.world)), h.events, input.world);
      }
    }
  }

  lemma FinishAppends(s: Session, events: seq<UiEvent>, world: World)
    ensures var r := Finish(s, events, world);
      |s.emitted| <= |r.emitted| && r.emitted[..|s.emitted|] == s.emitted
      && |s.heartbeats| <= |r.heartbeats| && r.heartbeats[..|s.heartbeats|] == s.heartbeats
  {
    var r := Finish(s, events, world);
    FinishSettles(s, events, world);
    assert r.emitted[..|s.emitted|] == s.emitted;
  }

  /** Started settled, the loop stays settled: no packet leaves the state marked as resetting. */
  lemma {:induction false} RunStaysSettled(s: Session, inputs: seq<Input>)
    requires !s.machine.fight.resetting
    ensures !RunSpec(s, inputs).machine.fight.resetting
    decreases |inputs|
  {
    if inputs != [] && !inputs[0].RecvError? {
      if inputs[0].Received? {
        StepSettles(s, inputs[0].op, inputs[0].data, inputs[0].world);
      }
      RunStaysSettled(Next(s, inputs[0]), inputs[1..]);
    }
  }

  // ---------------------------------------------------------------------------
  // The loop, in place
  // ---------------------------------------------------------------------------

  /** The flag action, applied in place to the encounter state. */
  method TakeAction(st: EncounterState, action: FlagAction, party: Party)
    modifies st
    ensures st.Model() == ApplyAction(action, old(st.Model()), party)
  {
    if action == Reset {
      st.SoftReset(true);
    } else if action == Saved {
      SaveNow(st, party);
    } else if action == BossOnlyDamage {
      FlipBossOnly(st);
    }
  }

  /** A save request: store the party, save the encounter and mark the state for a reset. */
  method SaveNow(st: EncounterState, party: Party)
    modifies st
    ensures st.Model() == Record(old(st.Model()).(partyInfo := party), SaveToDb(true)).(saved := true, resetting := true)
  {
    st.partyInfo := party;
    st.SaveToDb(true);
    st.saved := true;
    st.resetting := true;
  }

  /** A `BossOnlyDamage` action: the state's boss-only flag is flipped. */
  method FlipBossOnly(st: EncounterState)
    modifies st
    ensures st.Model() == ToggleBossOnly(old(st.Model()))
  {
    if st.bossOnlyDamage {
      st.bossOnlyDamage := false;
      st.encounter := st.encounter.(bossOnlyDamage := false);
    } else {
      st.bossOnlyDamage := true;
    }
  }

  /** The variables and collaborators of `start`. */
  class LiveSession {
    const st: EncounterState
    const trk: Trackers
    const listener: AppListener
    const sender: AppSender
    var partyFreeze: bool
    var partyCache: Option<Party>
    var raidEndCd: int
    var lastHeartbeat: int
    var heartbeats: seq<string>
    var emitted: seq<UiEvent>

    ghost function Model(): Session
      reads this, st, trk, listener, sender
    {
      Session(listener.Model(), sender.Model(),
              Machine(st.Model(), trk.Model(), LoopLocals(partyFreeze, partyCache, raidEndCd)),
              lastHeartbeat, heartbeats, emitted)
    }

    constructor (bossOnlyDamageSetting: bool, lowPerformanceMode: bool, region: Option<string>,
                 now: int, heartbeatSince: int)
      ensures Model() == InitialSession(bossOnlyDamageSetting, lowPerformanceMode, region, now, heartbeatSince)
    {
      var state := new EncounterState();
      var l := new AppListener(bossOnlyDamageSetting);
      var snd := new AppSender(lowPerformanceMode, now);
      state.region := region;
      state.encounter := state.encounter.(region := region);
      var t := new Trackers();
      st, trk, listener, sender := state, t, l, snd;
      raidEndCd := now;
      partyFreeze, partyCache := false, None;
      lastHeartbeat, heartbeats, emitted := heartbeatSince, [], [];
    }

    /** One listener callback. */
    method DeliverRequest(r: Request)
      modifies this, listener
      ensures Model() == Deliver(old(Model()), r)
    {
      match r
      case ResetRequest =>
        var e := listener.OnResetRequest();
        emitted := emitted + [e];
      case SaveRequest =>
        var e := listener.OnSaveRequest();
        emitted := emitted + [e];
      case PauseRequest =>
        var e := listener.OnPauseRequest();
        emitted := emitted + [e];
      case BossOnlyDamageRequest(payload) =>
        listener.OnBossOnlyDamageRequest(payload);
      case EmitDetailsRequest =>
        listener.OnEmitDetailsRequest();
    }

    /** One iteration of the `while let` loop for a received packet. */
    method Step(op: Opcode, data: Payload, world: World)
      modifies this, st, trk, listener, sender
      ensures var p := Process(old(Model()).flags);
        Model() == if p.0 == Paused then old(Model()).(flags := p.1) else Advanced(old(Model()).(flags := p.1), p.0, op, data, world)
    {
      var action := listener.ProcessFlags();
      if action != Paused {
        Advance(action, op, data, world);
      }
    }

    /** The flag action, `handle` and everything after it, once the listener did not pause. */
    method Advance(action: FlagAction, op: Opcode, data: Payload, world: World)
      modifies this, st, trk, sender
      ensures Model() == Advanced(old(Model()), action, op, data, world)
    {
      TakeAction(st, action, world.partyOf(trk.Model()));
      Proceed(op, data, world);
    }

    /** `handle` on the prepared state, then everything after it. */
    method Proceed(op: Opcode, data: Payload, world: World)
      modifies this, st, trk, sender
      ensures var m := old(Model());
        var h := HandleSpec(op, data, m.machine, world, m.flags.emitDetails);
        Model() == Finish(m.(machine := Touched(h.machine, world)), h.events, world)
    {
      ghost var m := Model();
      var canEmitDetails := listener.CanEmitDetails();
      var out, events := Handle(op, data, st, trk, LoopLocals(partyFreeze, partyCache, raidEndCd), world, canEmitDetails);
      partyFreeze, partyCache, raidEndCd := out.partyFreeze, out.partyCache, out.raidEndCd;
      ghost var h := HandleSpec(op, data, m.machine, world, m.flags.emitDetails);
      assert Model() == m.(machine := h.machine) && events == h.events;
      TouchEncounter(world);
      Respond(events, world);
    }

    /** The encounter, as the calls recorded on the encounter state left it. */
    method TouchEncounter(world: World)
      modifies st`encounter
      ensures Model() == old(Model()).(machine := Touched(old(Model()).machine, world))
    {
      st.encounter := world.encounterAfter(st.encounter, st.calls);
    }

    /** `send_to_ui`, the clean-up and the heartbeat gate, after `handle` returned `events`. */
    method Respond(events: seq<UiEvent>, world: World)
      modifies this, st, sender
      ensures Model() == Finish(old(Model()), events, world)
    {
      Send(events, world);
      Settle();
      Heartbeat(world.now);
    }

    /** `send_to_ui`, after `handle` returned `events`. */
    method Send(events: seq<UiEvent>, world: World)
      modifies this, st`bossDeadUpdate, sender
      ensures Model() == Sent(old(Model()), events, world)
    {
      var newCache, sent := sender.SendToUi(st, partyFreeze, partyCache, world.partyOf(trk.Model()), world.now);
      partyCache := newCache;
      emitted := emitted + events + sent;
    }

    /** The clean-up after a reset. */
    method Settle()
      modifies this, st
      ensures Model() == old(Model()).(machine := Cleanup(old(Model()).machine))
    {
      if st.resetting {
        st.SoftReset(true);
        st.resetting := false;
        st.saved := false;
        partyFreeze := false;
        partyCache := None;
      }
    }

    /** The heartbeat gate. */
    method Heartbeat(now: int)
      modifies this
      ensures Model() == Beat(old(Model()), now)
    {
      if st.region.Some? && Elapsed(lastHeartbeat, now) >= HeartbeatIntervalMs {
        heartbeats := heartbeats + [st.region.value];
        lastHeartbeat := now;
      }
    }

    /**
     * The loop over `inputs`: it returns the index of the failed `recv` that ended it, or the
     * number of inputs when none failed.
     */
    method Run(inputs: seq<Input>) returns (stoppedAt: nat)
      modifies this, st, trk, listener, sender
      ensures Model() == RunSpec(old(Model()), inputs)
      ensures stoppedAt <= |inputs|
      ensures stoppedAt < |inputs| ==> inputs[stoppedAt].RecvError?
      ensures forall j :: 0 <= j < stoppedAt ==> !inputs[j].RecvError?
    {
      var i := 0;
      while i < |inputs| && !inputs[i].RecvError?
        invariant 0 <= i <= |inputs|
        invariant forall j :: 0 <= j < i ==> !inputs[j].RecvError?
        invariant RunSpec(Model(), inputs[i..]) == RunSpec(old(Model()), inputs)
        decreases |inputs| - i
      {
        if inputs[i].UiRequest? {
          DeliverRequest(inputs[i].request);
        } else {
          StepCases(Model(), inputs[i].op, inputs[i].data, inputs[i].world);
          Step(inputs[i].op, inputs[i].data, inputs[i].world);
        }
        i := i + 1;
      }
      stoppedAt := i;
    }
  }
}
