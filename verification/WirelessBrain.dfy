/** src/wireless/mod.rs: the decision core of the wireless takeover. It sees one
    `World` per two-second beat and answers with an `Action`. */
module WirelessBrain {
  import opened Types

  const AUTH_RETRY_DELAYS: seq<nat> := [5, 15, 30]
  const JOIN_TIMEOUT_SECS: nat := 60

  /** What the service saw on this beat; `now` is in seconds. */
  datatype World = World(now: nat, ethLinkUp: bool, wiredConnected: bool,
                         wlanAssociated: bool, wlanIp: bool, probe: Option<Verdict>)
  {
    predicate WiredHealthy() { ethLinkUp && wiredConnected }
  }

  datatype Action = NoAction | Associate | Disassociate | PortalAuth | ProbeNow

  datatype State = State(mode: NetMode, phase: WPhase,
                         unhealthySince: Option<nat>, healthySince: Option<nat>, lastProbeAt: Option<nat>,
                         authBusy: bool, authFailCount: nat, nextAuthAt: Option<nat>,
                         takeoverAfter: nat, releaseAfter: nat, probeInterval: nat)
  {
    /** Retry time reached (or none set). */
    predicate Due(now: nat) { nextAuthAt.None? || now >= nextAuthAt.value }

    /** No recorded instant lies in the future: with it `now - since` cannot underflow. */
    predicate StampsBefore(now: nat) {
      && (unhealthySince.Some? ==> unhealthySince.value <= now)
      && (healthySince.Some? ==> healthySince.value <= now)
      && (lastProbeAt.Some? ==> lastProbeAt.value <= now)
    }

    /** The takeover's own bookkeeping: an authentication is outstanding exactly in
        Authing, exactly a failed one has a retry time, a side that is Off remembers no
        probe, at most one debounce runs. */
    predicate Coherent() {
      && (authBusy <==> phase == Authing)
      && (phase == Error <==> nextAuthAt.Some?)
      && (phase == Off ==> lastProbeAt.None?)
      && !(unhealthySince.Some? && healthySince.Some?)
    }
  }

  function New(mode: NetMode, takeoverAfter: nat, releaseAfter: nat, probeInterval: nat): State {
    State(mode, Off, None, None, None, false, 0, None, takeoverAfter, releaseAfter, probeInterval)
  }

  function StartJoin(b: State): State {
    b.(phase := Joining, authBusy := false, nextAuthAt := None)
  }

  function ResetOff(b: State): State {
    b.(phase := Off, authBusy := false, nextAuthAt := None, lastProbeAt := None)
  }

  function StartAuth(b: State): State {
    b.(phase := Authing, authBusy := true, nextAuthAt := None)
  }

  function OnAuth(b: State, ok: bool, now: nat): State {
    if ok then
      b.(authBusy := false, phase := Online, authFailCount := 0, nextAuthAt := None, lastProbeAt := None)
    else
      var fails := Bump32(b.authFailCount);
      b.(authBusy := false, authFailCount := fails, phase := Error,
         nextAuthAt := Some(now + AUTH_RETRY_DELAYS[Min(fails - 1, 2)]))
  }

  function KeepWireless(b: State, w: World): (State, Action) {
    match b.phase
    case Off => (StartJoin(b), Associate)
    case Error => if b.Due(w.now) then (StartJoin(b), Associate) else (b, NoAction)
    case Joining => if w.wlanAssociated && w.wlanIp then (StartAuth(b), PortalAuth) else (b, NoAction)
    case Authing => if !b.authBusy && b.Due(w.now) then (b.(authBusy := true), PortalAuth) else (b, NoAction)
    case Online =>
      if w.probe == Some(Kicked) then (StartAuth(b), PortalAuth)
      else if !w.wlanAssociated || !w.wlanIp then (StartJoin(b), Associate)
      else if b.lastProbeAt.None? || w.now - b.lastProbeAt.value >= b.probeInterval
      then (b.(lastProbeAt := Some(w.now)), ProbeNow)
      else (b, NoAction)
  }

  function Decide(b: State, w: World): (State, Action) {
    if b.mode == WiredPlusStandby then KeepWireless(b, w)
    else if w.WiredHealthy() then
      var since := if b.healthySince.Some? then b.healthySince.value else w.now;
      var b1 := b.(unhealthySince := None, healthySince := Some(since));
      if w.now - since >= b.releaseAfter && b.phase != Off then (ResetOff(b1), Disassociate) else (b1, NoAction)
    else
      var since := if b.unhealthySince.Some? then b.unhealthySince.value else w.now;
      var b1 := b.(healthySince := None, unhealthySince := Some(since));
      match b.phase
      case Off => if w.now - since >= b.takeoverAfter then (StartJoin(b1), Associate) else (b1, NoAction)
      case Error => if b.Due(w.now) then (StartJoin(b1), Associate) else (b1, NoAction)
      case _ => KeepWireless(b1, w)
  }

  // ---------------------------------------------------------------------------
  // The object itself
  // ---------------------------------------------------------------------------

  class Brain {
    var mode: NetMode
    var phase: WPhase
    var unhealthySince: Option<nat>
    var healthySince: Option<nat>
    var lastProbeAt: Option<nat>
    var authBusy: bool
    var authFailCount: nat
    var nextAuthAt: Option<nat>
    const takeoverAfter: nat
    const releaseAfter: nat
    const probeInterval: nat

    function View(): State
      reads this
    {
      State(mode, phase, unhealthySince, healthySince, lastProbeAt, authBusy, authFailCount, nextAuthAt,
            takeoverAfter, releaseAfter, probeInterval)
    }

    constructor (mode: NetMode, takeoverAfter: nat, releaseAfter: nat, probeInterval: nat)
      ensures View() == New(mode, takeoverAfter, releaseAfter, probeInterval)
    {
      this.mode, this.phase := mode, Off;
      unhealthySince, healthySince, lastProbeAt := None, None, None;
      authBusy, authFailCount, nextAuthAt := false, 0, None;
      this.takeoverAfter, this.releaseAfter, this.probeInterval := takeoverAfter, releaseAfter, probeInterval;
    }

    method SetMode(m: NetMode)
      modifies this`mode
      ensures mode == m
    {
      mode := m;
    }

    method Join()
      modifies this
      ensures View() == StartJoin(old(View()))
    {
      phase, authBusy, nextAuthAt := Joining, false, None;
    }

    method Restart()
      modifies this
      ensures View() == ResetOff(old(View()))
    {
      phase, authBusy, nextAuthAt, lastProbeAt := Off, false, None, None;
    }

    method AuthFinished(ok: bool, now: nat)
      modifies this
      ensures View() == OnAuth(old(View()), ok, now)
      ensures forall t: nat | old(View()).StampsBefore(t) :: View().StampsBefore(t)
    {
      authBusy := false;
      if ok {
        phase, authFailCount, nextAuthAt, lastProbeAt := Online, 0, None, None;
      } else {
        authFailCount := Bump32(authFailCount);
        var idx := Min(authFailCount - 1, |AUTH_RETRY_DELAYS| - 1);
        nextAuthAt := Some(now + AUTH_RETRY_DELAYS[idx]);
        phase := Error;
      }
    }

    /** One beat. The clock is monotone, so every elapsed time below is a natural number. */
    method Beat(w: World) returns (a: Action)
      requires View().StampsBefore(w.now)
      modifies this
      ensures (View(), a) == Decide(old(View()), w)
      ensures View().StampsBefore(w.now)
    {
      if mode == WiredPlusStandby {
        a := Keep(w);
      } else if w.ethLinkUp && w.wiredConnected {
        unhealthySince := None;
        if healthySince.None? { healthySince := Some(w.now); }
        var elapsed: nat := w.now - healthySince.value;
        if elapsed >= releaseAfter && phase != Off {
          Restart();
          return Disassociate;
        }
        a := NoAction;
      } else {
        healthySince := None;
        if unhealthySince.None? { unhealthySince := Some(w.now); }
        var elapsed: nat := w.now - unhealthySince.value;
        match phase {
          case Off =>
            if elapsed >= takeoverAfter {
              Join();
              return Associate;
            }
            a := NoAction;
          case Error =>
            if nextAuthAt.None? || w.now >= nextAuthAt.value {
              Join();
              return Associate;
            }
            a := NoAction;
          case _ =>
            a := Keep(w);
        }
      }
    }

    method Keep(w: World) returns (a: Action)
      requires View().StampsBefore(w.now)
      modifies this
      ensures (View(), a) == KeepWireless(old(View()), w)
      ensures View().StampsBefore(w.now)
    {
      a := NoAction;
      match phase {
        case Off =>
          Join();
          a := Associate;
        case Error =>
          if nextAuthAt.None? || w.now >= nextAuthAt.value {
            Join();
            a := Associate;
          }
        case Joining =>
          if w.wlanAssociated && w.wlanIp {
            phase, authBusy, nextAuthAt := Authing, true, None;
            a := PortalAuth;
          }
        case Authing =>
          if !authBusy && (nextAuthAt.None? || w.now >= nextAuthAt.value) {
            authBusy := true;
            a := PortalAuth;
          }
        case Online =>
          if w.probe == Some(Kicked) {
            phase, authBusy, nextAuthAt := Authing, true, None;
            return PortalAuth;
          }
          if !w.wlanAssociated || !w.wlanIp {
            Join();
            return Associate;
          }
          var due := true;
          if lastProbeAt.Some? {
            var elapsed: nat := w.now - lastProbeAt.value;
            due := elapsed >= probeInterval;
          }
          if due {
            lastProbeAt := Some(w.now);
            a := ProbeNow;
          }
      }
    }
  }

  // ---------------------------------------------------------------------------
  // Whole lives of a brain: any calls, in any order, in any mode
  // ---------------------------------------------------------------------------

  datatype Call = Beats(w: World) | Switches(m: NetMode) | Authenticated(ok: bool, now: nat) | Restarts

  function Apply(b: State, c: Call): (State, Action) {
    match c
    case Beats(w) => Decide(b, w)
    case Switches(m) => (b.(mode := m), NoAction)
    case Authenticated(ok, now) => (OnAuth(b, ok, now), NoAction)
    case Restarts => (ResetOff(b), NoAction)
  }

  function StateAt(init: State, calls: seq<Call>, i: nat): State
    requires i <= |calls|
  {
    if i == 0 then init else Apply(StateAt(init, calls, i - 1), calls[i - 1]).0
  }

  /** A fresh brain: nothing measured yet. */
  ghost predicate Fresh(b: State) {
    b == New(b.mode, b.takeoverAfter, b.releaseAfter, b.probeInterval)
  }

  /** Call `k` is a beat taken in exclusive mode. */
  ghost predicate ExclusiveBeat(init: State, calls: seq<Call>, k: nat)
    requires k < |calls|
  {
    calls[k].Beats? && StateAt(init, calls, k).mode == WiredExclusive
  }

  /** Calls `k..i` open with an exclusive beat, and every exclusive beat among them saw
      the wired side in the same health. */
  ghost predicate Streak(init: State, calls: seq<Call>, k: nat, i: nat, healthy: bool)
    requires k < i <= |calls|
  {
    && ExclusiveBeat(init, calls, k)
    && forall m | k <= m < i && ExclusiveBeat(init, calls, m) :: calls[m].w.WiredHealthy() == healthy
  }

  function Stamp(b: State, healthy: bool): Option<nat> {
    if healthy then b.healthySince else b.unhealthySince
  }

  /** What one call does to a debounce stamp: a beat of that health sets it if unset, a
      contrary beat clears it, and nothing else touches it. */
  lemma StampStep(b: State, c: Call, healthy: bool)
    ensures var before, after := Stamp(b, healthy), Stamp(Apply(b, c).0, healthy);
            if !(c.Beats? && b.mode == WiredExclusive) then after == before
            else if c.w.WiredHealthy() != healthy then after == None
            else after == if before.Some? then before else Some(c.w.now)
  {}

  lemma FreshHasNoStamp(init: State, calls: seq<Call>, healthy: bool)
    requires Fresh(init)
    ensures Stamp(StateAt(init, calls, 0), healthy) == None
  {}

  /** A debounce stamp is always the time of the first beat of an unbroken streak. */
  lemma {:induction false} StampOpensStreak(init: State, calls: seq<Call>, i: nat, healthy: bool) returns (k: nat)
    requires Fresh(init) && i <= |calls|
    requires Stamp(StateAt(init, calls, i), healthy).Some?
    ensures k < i && Streak(init, calls, k, i, healthy)
    ensures Stamp(StateAt(init, calls, i), healthy) == Some(calls[k].w.now)
  {
    hide Apply, Stamp, Fresh, StateAt, World.WiredHealthy;
    FreshHasNoStamp(init, calls, healthy);
    StampAfter(init, calls, i, healthy);
    if Stamp(StateAt(init, calls, i - 1), healthy).Some? {
      k := StampOpensStreak(init, calls, i - 1, healthy);
    } else {
      k := i - 1;
    }
  }

  /** Beats never go back in time. */
  ghost predicate Monotone(calls: seq<Call>) {
    forall i, j | 0 <= i <= j < |calls| && calls[i].Beats? && calls[j].Beats? :: calls[i].w.now <= calls[j].w.now
  }

  /** Throughout a streak the stamp is set, and it is at least as old as the streak. */
  lemma {:induction false} StreakIsStamped(init: State, calls: seq<Call>, k: nat, i: nat, healthy: bool)
    requires Fresh(init) && Monotone(calls) && k < i <= |calls| && Streak(init, calls, k, i, healthy)
    ensures Stamp(StateAt(init, calls, i), healthy).Some? && Stamp(StateAt(init, calls, i), healthy).value <= calls[k].w.now
  {
    hide Apply, Stamp, Fresh, StateAt, World.WiredHealthy;
    StampAfter(init, calls, i, healthy);
    if i == k + 1 {
      if Stamp(StateAt(init, calls, k), healthy).Some? {
        var o := StampOpensStreak(init, calls, k, healthy);
      }
    } else {
      StreakIsStamped(init, calls, k, i - 1, healthy);
    }
  }

  /** `StampStep` along a run. */
  lemma StampAfter(init: State, calls: seq<Call>, i: nat, healthy: bool)
    requires 0 < i <= |calls|
    ensures var before, after := Stamp(StateAt(init, calls, i - 1), healthy), Stamp(StateAt(init, calls, i), healthy);
            if !ExclusiveBeat(init, calls, i - 1) then after == before
            else if calls[i - 1].w.WiredHealthy() != healthy then after == None
            else after == if before.Some? then before else Some(calls[i - 1].w.now)
  {
    hide Apply, Stamp;
    StampStep(StateAt(init, calls, i - 1), calls[i - 1], healthy);
  }

  /** The wired side has been in this health for `span` seconds of exclusive beats, ending with call `j`. */
  ghost predicate Sustained(init: State, calls: seq<Call>, j: nat, healthy: bool, span: nat)
    requires j < |calls| && calls[j].Beats?
  {
    exists k: nat | k <= j && Streak(init, calls, k, j + 1, healthy) :: calls[j].w.now - calls[k].w.now >= span
  }

  /** The action taken by call `j`. */
  function ActionAt(init: State, calls: seq<Call>, j: nat): Action
    requires j < |calls|
  {
    Apply(StateAt(init, calls, j), calls[j]).1
  }

  /** A sustained health is what the stamp after the call measures. */
  lemma SustainedByStamp(init: State, calls: seq<Call>, j: nat, healthy: bool, span: nat)
    requires Fresh(init) && Monotone(calls) && j < |calls| && ExclusiveBeat(init, calls, j)
    ensures var stamp := Stamp(StateAt(init, calls, j + 1), healthy);
            Sustained(init, calls, j, healthy, span) <==>
              calls[j].w.WiredHealthy() == healthy && stamp.Some? && calls[j].w.now - stamp.value >= span
  {
    hide Stamp, StateAt, World.WiredHealthy;
    var stamp := Stamp(StateAt(init, calls, j + 1), healthy);
    if Sustained(init, calls, j, healthy, span) {
      var k: nat :| k <= j && Streak(init, calls, k, j + 1, healthy) && calls[j].w.now - calls[k].w.now >= span;
      StreakIsStamped(init, calls, k, j + 1, healthy);
    } else if calls[j].w.WiredHealthy() == healthy && stamp.Some? {
      var k := StampOpensStreak(init, calls, j + 1, healthy);
    }
  }

  /** What one exclusive beat does, in terms of the stamp it leaves. */
  lemma BeatByStamp(b: State, w: World)
    requires b.mode == WiredExclusive
    ensures var (after, action) := Decide(b, w);
            && (b.phase == Off ==>
                  (action == Associate <==>
                     !w.WiredHealthy() && after.unhealthySince.Some? && w.now - after.unhealthySince.value >= b.takeoverAfter))
            && (b.phase != Off ==>
                  (action == Disassociate <==>
                     w.WiredHealthy() && after.healthySince.Some? && w.now - after.healthySince.value >= b.releaseAfter))
  {}

  /** Takeover debounce, over every run and across every mode switch: in exclusive mode the
      brain leaves Off exactly when the wired side has been unhealthy on every exclusive
      beat for at least `takeoverAfter` seconds. */
  lemma TakeoverIsDebounced(init: State, calls: seq<Call>, j: nat)
    requires Fresh(init) && Monotone(calls) && j < |calls|
    requires ExclusiveBeat(init, calls, j) && StateAt(init, calls, j).phase == Off
    ensures ActionAt(init, calls, j) == Associate <==> Sustained(init, calls, j, false, init.takeoverAfter)
  {
    ConfigIsFixed(init, calls, j);
    SustainedByStamp(init, calls, j, false, init.takeoverAfter);
    BeatByStamp(StateAt(init, calls, j), calls[j].w);
    hide Decide, Sustained, World.WiredHealthy;
  }

  /** Release debounce: a wireless side that is up is let go exactly when the wired side
      has been healthy on every exclusive beat for at least `releaseAfter` seconds. */
  lemma ReleaseIsDebounced(init: State, calls: seq<Call>, j: nat)
    requires Fresh(init) && Monotone(calls) && j < |calls|
    requires ExclusiveBeat(init, calls, j) && StateAt(init, calls, j).phase != Off
    ensures ActionAt(init, calls, j) == Disassociate <==> Sustained(init, calls, j, true, init.releaseAfter)
  {
    ConfigIsFixed(init, calls, j);
    SustainedByStamp(init, calls, j, true, init.releaseAfter);
    BeatByStamp(StateAt(init, calls, j), calls[j].w);
    hide Decide, Sustained, World.WiredHealthy;
  }

  lemma ConfigStep(b: State, c: Call)
    ensures var a := Apply(b, c).0;
            a.takeoverAfter == b.takeoverAfter && a.releaseAfter == b.releaseAfter && a.probeInterval == b.probeInterval
  {}

  lemma {:induction false} ConfigIsFixed(init: State, calls: seq<Call>, i: nat)
    requires i <= |calls|
    ensures var b := StateAt(init, calls, i);
            b.takeoverAfter == init.takeoverAfter && b.releaseAfter == init.releaseAfter && b.probeInterval == init.probeInterval
  {
    hide Apply;
    if i > 0 {
      ConfigIsFixed(init, calls, i - 1);
      ConfigStep(StateAt(init, calls, i - 1), calls[i - 1]);
    }
  }

  lemma CoherentStep(b: State, c: Call)
    requires b.Coherent()
    ensures Apply(b, c).0.Coherent()
  {}

  /** The bookkeeping holds in every reachable state. */
  lemma {:induction false} AlwaysCoherent(init: State, calls: seq<Call>, i: nat)
    requires Fresh(init) && i <= |calls|
    ensures StateAt(init, calls, i).Coherent()
  {
    if i > 0 {
      AlwaysCoherent(init, calls, i - 1);
      CoherentStep(StateAt(init, calls, i - 1), calls[i - 1]);
      hide Apply;
    }
  }
}
