/**
 * The command listener: five flags set or toggled by requests from the UI and read,
 * once per received packet, by `process_flags` in a fixed priority order.
 */
module Listener {
  import Types

  /** `FlagAction`; `NoAction` is the source's `FlagAction::None`. */
  datatype FlagAction = Reset | Saved | Paused | BossOnlyDamage | NoAction

  /** The five flags of an `AppListener`. */
  datatype Flags = Flags(reset: bool, pause: bool, save: bool, bossOnlyDamage: bool, emitDetails: bool)

  /** The requests the listener subscribes to. */
  datatype Request =
    | ResetRequest
    | SaveRequest
    | PauseRequest
    | BossOnlyDamageRequest(payload: string)
    | EmitDetailsRequest

  /** The flags of a new listener: everything off except boss-only damage, which follows the setting. */
  function InitialFlags(bossOnlyDamageSetting: bool): (f: Flags)
    ensures !f.reset && !f.pause && !f.save && !f.emitDetails
    ensures f.bossOnlyDamage == bossOnlyDamageSetting
  {
    Flags(false, false, false, bossOnlyDamageSetting, false)
  }

  /**
   * The effect of one request: reset and save are set, pause and emit-details are toggled,
   * boss-only damage is set from the payload. The second component is the event the
   * callback emits back to the UI.
   */
  function OnRequest(f: Flags, r: Request): (res: (Flags, Types.Option<Types.UiEvent>))
    ensures r == ResetRequest ==> res == (f.(reset := true), Types.Some(Types.ResetEncounter))
    ensures r == SaveRequest ==> res == (f.(save := true), Types.Some(Types.SaveEncounter))
    ensures r == PauseRequest ==> res == (f.(pause := !f.pause), Types.Some(Types.PauseEncounter))
    ensures r.BossOnlyDamageRequest? ==> res == (f.(bossOnlyDamage := r.payload == "true"), Types.None)
    ensures r == EmitDetailsRequest ==> res == (f.(emitDetails := !f.emitDetails), Types.None)
  {
    match r
    case ResetRequest => (f.(reset := true), Types.Some(Types.ResetEncounter))
    case SaveRequest => (f.(save := true), Types.Some(Types.SaveEncounter))
    case PauseRequest => (f.(pause := !f.pause), Types.Some(Types.PauseEncounter))
    case BossOnlyDamageRequest(payload) =>
      (f.(bossOnlyDamage := if payload == "true" then true else false), Types.None)
    case EmitDetailsRequest => (f.(emitDetails := !f.emitDetails), Types.None)
  }

  /**
   * `process_flags`: the first set flag in the order reset, pause, save, boss-only damage
   * is reported; reset and save are cleared when reported, the others are left as they are.
   */
  function Process(f: Flags): (r: (FlagAction, Flags))
    ensures r.0 == Reset <==> f.reset
    ensures r.0 == Paused <==> !f.reset && f.pause
    ensures r.0 == Saved <==> !f.reset && !f.pause && f.save
    ensures r.0 == BossOnlyDamage <==> !f.reset && !f.pause && !f.save && f.bossOnlyDamage
    ensures r.0 == NoAction <==> !f.reset && !f.pause && !f.save && !f.bossOnlyDamage
    ensures r.1.pause == f.pause && r.1.bossOnlyDamage == f.bossOnlyDamage && r.1.emitDetails == f.emitDetails
    ensures r.1.reset == (f.reset && r.0 != Reset) && r.1.save == (f.save && r.0 != Saved)
  {
    if f.reset then (Reset, f.(reset := false))
    else if f.pause then (Paused, f)
    else if f.save then (Saved, f.(save := false))
    else if f.bossOnlyDamage then (BossOnlyDamage, f)
    else (NoAction, f)
  }

  /** The actions reported by `n` consecutive `process_flags` calls with no request in between. */
  function Drain(f: Flags, n: nat): (actions: seq<FlagAction>)
    ensures |actions| == n
    decreases n
  {
    if n == 0 then [] else [Process(f).0] + Drain(Process(f).1, n - 1)
  }

  function Count(actions: seq<FlagAction>, a: FlagAction): nat
  {
    if actions == [] then 0 else (if actions[0] == a then 1 else 0) + Count(actions[1..], a)
  }

  /** A reset request is reported exactly once, however often the flags are read afterwards. */
  lemma {:induction false} ResetReportedOnce(f: Flags, n: nat)
    requires n > 0
    ensures Count(Drain(f, n), Reset) == if f.reset then 1 else 0
  {
    var g := Process(f).1;
    assert !g.reset;
    NoResetWithoutRequest(g, n - 1);
  }

  lemma {:induction false} NoResetWithoutRequest(f: Flags, n: nat)
    requires !f.reset
    ensures Count(Drain(f, n), Reset) == 0
    decreases n
  {
    if n > 0 {
      NoResetWithoutRequest(Process(f).1, n - 1);
    }
  }

  /**
   * While the meter is not paused, a save request is reported exactly once, as soon as a
   * pending reset has been reported (the save is then the second action).
   */
  lemma {:induction false} SaveReportedOnce(f: Flags, n: nat)
    requires !f.pause
    requires n > (if f.reset then 1 else 0)
    ensures Count(Drain(f, n), Saved) == if f.save then 1 else 0
    decreases n
  {
    var g := Process(f).1;
    if f.reset {
      assert Drain(f, n)[0] == Reset;
      SaveReportedOnce(g, n - 1);
    } else {
      assert !g.save;
      NoSaveWithoutRequest(g, n - 1);
    }
  }

  lemma {:induction false} NoSaveWithoutRequest(f: Flags, n: nat)
    requires !f.save
    ensures Count(Drain(f, n), Saved) == 0
    decreases n
  {
    if n > 0 {
      NoSaveWithoutRequest(Process(f).1, n - 1);
    }
  }

  /**
   * Pause and boss-only damage are never consumed: once no reset is pending, a paused
   * listener reports Paused on every read and keeps a pending save untouched.
   */
  lemma {:induction false} PausedKeepsReporting(f: Flags, n: nat)
    requires f.pause && !f.reset
    ensures Drain(f, n) == seq(n, _ => Paused)
    ensures forall k :: 0 <= k <= n ==> Iterate(f, k) == f
    decreases n
  {
    if n > 0 {
      PausedKeepsReporting(f, n - 1);
      assert Process(f) == (Paused, f);
      assert Drain(f, n) == [Paused] + Drain(f, n - 1);
    }
  }

  /** The flags after `k` consecutive reads. */
  function Iterate(f: Flags, k: nat): Flags
    decreases k
  {
    if k == 0 then f else Iterate(Process(f).1, k - 1)
  }

  /** Boss-only damage alone is reported on every read while it is set. */
  lemma {:induction false} BossOnlyDamageKeepsReporting(f: Flags, n: nat)
    requires !f.reset && !f.pause && !f.save && f.bossOnlyDamage
    ensures Drain(f, n) == seq(n, _ => BossOnlyDamage)
    decreases n
  {
    if n > 0 {
      BossOnlyDamageKeepsReporting(f, n - 1);
      assert Drain(f, n) == [BossOnlyDamage] + Drain(f, n - 1);
    }
  }

  /** Two pause requests, or two emit-details requests, restore the flags. */
  lemma TogglesAreInvolutions(f: Flags)
    ensures OnRequest(OnRequest(f, PauseRequest).0, PauseRequest).0 == f
    ensures OnRequest(OnRequest(f, EmitDetailsRequest).0, EmitDetailsRequest).0 == f
  {
  }

  class AppListener {
    var reset: bool
    var pause: bool
    var save: bool
    var bossOnlyDamage: bool
    var emitDetails: bool

    ghost function Model(): Flags
      reads this
    {
      Flags(reset, pause, save, bossOnlyDamage, emitDetails)
    }

    constructor (bossOnlyDamageSetting: bool)
      ensures Model() == InitialFlags(bossOnlyDamageSetting)
    {
      reset, pause, save, emitDetails := false, false, false, false;
      bossOnlyDamage := false;
      if bossOnlyDamageSetting {
        bossOnlyDamage := true;
      }
    }

    method OnResetRequest() returns (e: Types.UiEvent)
      modifies this
      ensures (Model(), Types.Some(e)) == OnRequest(old(Model()), ResetRequest)
    {
      reset := true;
      e := Types.ResetEncounter;
    }

    method OnSaveRequest() returns (e: Types.UiEvent)
      modifies this
      ensures (Model(), Types.Some(e)) == OnRequest(old(Model()), SaveRequest)
    {
      save := true;
      e := Types.SaveEncounter;
    }

    /** `fetch_xor(true)`: toggles the pause flag. */
    method OnPauseRequest() returns (e: Types.UiEvent)
      modifies this
      ensures (Model(), Types.Some(e)) == OnRequest(old(Model()), PauseRequest)
    {
      pause := pause != true;
      e := Types.PauseEncounter;
    }

    method OnBossOnlyDamageRequest(payload: string)
      modifies this
      ensures (Model(), Types.None) == OnRequest(old(Model()), BossOnlyDamageRequest(payload))
    {
      if payload == "true" {
        bossOnlyDamage := true;
      } else {
        bossOnlyDamage := false;
      }
    }

    /** `fetch_xor(true)`: toggles the emit-details flag. */
    method OnEmitDetailsRequest()
      modifies this
      ensures (Model(), Types.None) == OnRequest(old(Model()), EmitDetailsRequest)
    {
      emitDetails := emitDetails != true;
    }

    method CanEmitDetails() returns (b: bool)
      ensures b == Model().emitDetails
    {
      b := emitDetails;
    }

    method ProcessFlags() returns (action: FlagAction)
      modifies this
      ensures (action, Model()) == Process(old(Model()))
    {
      if reset {
        reset := false;
        return Reset;
      }
      if pause {
        return Paused;
      }
      if save {
        save := false;
        return Saved;
      }
      if bossOnlyDamage {
        return BossOnlyDamage;
      }
      return NoAction;
    }
  }
}
