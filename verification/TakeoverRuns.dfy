/** The wireless takeover and the toasts over whole lives of the supervisor. */
module TakeoverRuns {
  import opened Types
  import opened Supervisor
  import opened SupervisorRuns
  import N = Notifications
  import WB = WirelessBrain

  // ---------------------------------------------------------------------------
  // The takeover never waits on nothing
  // ---------------------------------------------------------------------------

  /** Every phase that waits has something to wait for. `secs` is the current time. */
  predicate WaitsOnSomething(r: WirelessSide, secs: nat) {
    r.brain.Some? ==>
      var b := r.brain.value;
      && b.Coherent()
      && (b.phase == Authing ==> r.authInFlight)
      && (b.phase == Joining ==> r.associateInFlight || r.joinSince.Some?)
      && (b.phase == Error ==> b.nextAuthAt.value <= secs + 30)
  }

  lemma DecideKeepsWaiting(b: WB.State, w: WB.World)
    requires b.Coherent()
    ensures var (b', a) := WB.Decide(b, w);
            && b'.Coherent()
            && (b'.phase == Authing ==> b.phase == Authing || a == WB.PortalAuth)
            && (b'.phase == Joining ==> b.phase == Joining || a == WB.Associate)
            && (b'.phase == Error ==> b.phase == Error && b'.nextAuthAt == b.nextAuthAt)
            && (a == WB.PortalAuth ==> b'.phase == Authing)
            && (a == WB.Disassociate ==> b'.phase == Off)
            && (a == WB.Associate ==> b'.phase == Joining)
            && (a == WB.ProbeNow ==> b'.phase == Online)
  {}

  lemma OnAuthWaits(b: WB.State, ok: bool, secs: nat)
    requires b.Coherent()
    ensures var b' := WB.OnAuth(b, ok, secs);
            && b'.Coherent() && b'.phase == (if ok then Online else Error)
            && (!ok ==> secs + 5 <= b'.nextAuthAt.value <= secs + 30)
  {}

  lemma CarryWaits(cfg: Config, r: WirelessSide, b0: WB.State, w: WB.World)
    requires cfg.targetsParse && b0.Coherent()
    requires WaitsOnSomething(r.(brain := Some(b0)), w.now)
    ensures var (b, action) := WB.Decide(b0, w);
            WaitsOnSomething(Carry(cfg, r.(brain := Some(b)), b, action, w.now).side, w.now)
  {
    hide WB.Decide, WB.OnAuth;
    DecideKeepsWaiting(b0, w);
    var (b, action) := WB.Decide(b0, w);
    OnAuthWaits(b, false, w.now);
  }

  lemma JoinTimeoutWaits(r: WirelessSide, now: nat, secs: nat)
    requires WaitsOnSomething(r, secs)
    ensures WaitsOnSomething(JoinTimeout(r, now), secs)
  {}

  lemma WaitMonotone(r: WirelessSide, a: nat, b: nat)
    requires a <= b && WaitsOnSomething(r, a)
    ensures WaitsOnSomething(r, b)
  {}

  lemma BeatWaits(cfg: Config, mode: NetMode, side: WiredSide, r: WirelessSide, associated: bool, now: nat)
    requires cfg.targetsParse && r.brain.Some? && WaitsOnSomething(r, now / 1000)
    ensures WaitsOnSomething(BeatOf(cfg, mode, side, r, associated, now).side, now / 1000)
  {
    hide WB.Decide, Carry, JoinTimeout, MetricEffects;
    var b0 := r.brain.value.(mode := mode);
    var w := WorldOf(side, r, associated, now);
    CarryWaits(cfg, r, b0, w);
    var (b, action) := WB.Decide(b0, w);
    JoinTimeoutWaits(Carry(cfg, r.(brain := Some(b)), b, action, now / 1000).side, now, now / 1000);
  }

  lemma AirStepWaits(s: Core, ev: Event, now: nat)
    requires AirEvent(ev) && WaitsOnSomething(s.air, now / 1000) && (s.air.brain.Some? ==> s.cfg.targetsParse)
    ensures var r := AirStep(s.cfg, s.mode, s.wired, s.air, ev, now);
            WaitsOnSomething(r.side, now / 1000) && (r.side.brain.Some? ==> s.air.brain.Some?)
  {
    hide BeatOf, WB.OnAuth;
    if ev.WirelessSampled? && s.air.sampleInFlight && s.air.brain.Some? {
      BeatWaits(s.cfg, s.mode, s.wired, s.air.(sampleInFlight := false, wlan := ev.wlan), ev.associated, now);
    }
    if ev.PortalFinished? && s.air.brain.Some? {
      OnAuthWaits(s.air.brain.value, LoggedIn(ev.attempt), now / 1000);
    }
  }

  lemma StepWaits(s: Core, ev: Event, now: nat)
    requires WaitsOnSomething(s.air, now / 1000) && (s.air.brain.Some? ==> s.cfg.targetsParse)
    ensures var r := React(s, ev, now).core;
            WaitsOnSomething(r.air, now / 1000) && r.cfg == s.cfg && (r.air.brain.Some? ==> s.air.brain.Some?)
  {
    hide AirStep, N.MaybeNotify, N.Allowed, N.OnResult, WakeWired, LinkArrives;
    if AirEvent(ev) { AirStepWaits(s, ev, now); }
  }

  /** The time of the last event before `i`, in seconds; zero before the first. */
  function SecsAt(run: seq<Stamped>, i: nat): nat
    requires i <= |run|
  {
    if i == 0 then 0 else run[i - 1].now / 1000
  }

  /** In every reachable state: Authing means the login is out, Joining means the
      association is out or its timeout is running, Error means a retry is due within
      thirty seconds, and `auth_busy` says Authing and nothing else. */
  lemma {:induction false} TakeoverNeverWaitsOnNothing(cfg: Config, run: seq<Stamped>, i: nat)
    requires Monotone(run) && i <= |run|
    ensures var s := StateAt(cfg, run, i);
            WaitsOnSomething(s.air, SecsAt(run, i)) && (s.air.brain.Some? ==> cfg.targetsParse) && s.cfg == cfg
  {
    hide React, WaitsOnSomething;
    if i > 0 {
      TakeoverNeverWaitsOnNothing(cfg, run, i - 1);
      var s, now := StateAt(cfg, run, i - 1), run[i - 1].now;
      SecsMonotone(run, i);
      WaitMonotone(s.air, SecsAt(run, i - 1), now / 1000);
      StepWaits(s, run[i - 1].ev, now);
    } else {
      FreshWaits(cfg);
    }
  }

  lemma FreshWaits(cfg: Config)
    ensures WaitsOnSomething(New(cfg).air, 0)
  {}

  lemma SecsMonotone(run: seq<Stamped>, i: nat)
    requires Monotone(run) && 0 < i <= |run|
    ensures SecsAt(run, i - 1) <= run[i - 1].now / 1000
  {
    if i > 1 { assert run[i - 2].now <= run[i - 1].now; }
  }

  /** The WLAN is wanted: always in standby mode, while the wire is down in exclusive mode. */
  predicate Wanted(mode: NetMode, side: WiredSide) { mode == WiredPlusStandby || !side.Healthy() }

  /** The join timeout looks at the last finished association, however old. */
  predicate StaleJoin(r: WirelessSide, now: nat) {
    r.joinSince.Some? && now > r.joinSince.value + 60_000
  }

  lemma DecideAdvances(b: WB.State, w: WB.World)
    requires b.Coherent() && (b.mode == WiredPlusStandby || !w.WiredHealthy())
    ensures b.phase == Error && w.now >= b.nextAuthAt.value ==>
              WB.Decide(b, w).1 == WB.Associate && WB.Decide(b, w).0.phase == Joining
    ensures b.phase == Joining && w.wlanAssociated && w.wlanIp ==>
              WB.Decide(b, w).1 == WB.PortalAuth && WB.Decide(b, w).0.phase == Authing
    ensures b.phase == Joining && !(w.wlanAssociated && w.wlanIp) ==>
              WB.Decide(b, w).1 == WB.NoAction && WB.Decide(b, w).0.phase == Joining
  {}

  lemma CarryAdvances(cfg: Config, r: WirelessSide, b: WB.State, action: WB.Action, secs: nat)
    requires r.brain == Some(b) && cfg.targetsParse
    ensures var h := Carry(cfg, r, b, action, secs);
            && h.side.brain.Some?
            && (action == WB.Associate ==> h.proceed && h.side == r.(associateInFlight := true))
            && (action == WB.NoAction ==> h.proceed && h.side == r)
            && (action == WB.PortalAuth ==>
                  if r.authInFlight || (r.wlan.Some? && r.wlan.value.gateway.Some?)
                  then h.proceed && h.side == r.(authInFlight := true)
                  else !h.proceed && h.side.brain.value.phase == Error)
  {}

  lemma JoinTimeoutAt(r: WirelessSide, now: nat)
    requires r.brain.Some?
    ensures var x := JoinTimeout(r, now); var p := r.brain.value.phase;
            && x.brain.Some? && x.associateInFlight == r.associateInFlight && x.authInFlight == r.authInFlight
            && x.brain.value.phase == if p == Joining && StaleJoin(r, now) then Off else p
  {}

  lemma FinishAt(cfg: Config, mode: NetMode, wiredHealthy: bool, h: Handled, now: nat)
    requires h.side.brain.Some?
    ensures var x := FinishBeat(cfg, mode, wiredHealthy, h, now).side; var p := h.side.brain.value.phase;
            && x.brain.Some? && x.associateInFlight == h.side.associateInFlight && x.authInFlight == h.side.authInFlight
            && x.brain.value.phase == if h.proceed && p == Joining && StaleJoin(h.side, now) then Off else p
  {
    hide MetricEffects;
  }

  /** Where the beat leads from a phase, by the decision and how it was carried out. */
  lemma BeatByDecision(cfg: Config, mode: NetMode, side: WiredSide, r: WirelessSide, associated: bool, now: nat)
    requires r.brain.Some? && cfg.targetsParse
    ensures var x := BeatOf(cfg, mode, side, r, associated, now).side;
            var (b, action) := WB.Decide(r.brain.value.(mode := mode), WorldOf(side, r, associated, now));
            && x.brain.Some?
            && (action == WB.Associate ==>
                  x.associateInFlight && x.brain.value.phase == if b.phase == Joining && StaleJoin(r, now) then Off else b.phase)
            && (action == WB.NoAction ==> x.brain.value.phase == if b.phase == Joining && StaleJoin(r, now) then Off else b.phase)
            && (action == WB.PortalAuth && b.phase == Authing ==>
                  if r.authInFlight || (r.wlan.Some? && r.wlan.value.gateway.Some?)
                  then x.authInFlight && x.brain.value.phase == Authing else x.brain.value.phase == Error)
  {
    hide WB.Decide, WorldOf, Carry, FinishBeat, WB.State.Coherent, Wanted;
    var (b, action) := WB.Decide(r.brain.value.(mode := mode), WorldOf(side, r, associated, now));
    CarryAdvances(cfg, r.(brain := Some(b)), b, action, now / 1000);
    FinishAt(cfg, mode, side.Healthy(), Carry(cfg, r.(brain := Some(b)), b, action, now / 1000), now);
  }

  /** A wait ends with the first beat that can end it. While the WLAN is wanted: a due retry
      associates again (and falls back to Off if the last association is over a minute
      old), an address starts the login or, without a gateway, schedules a retry, and a
      join that has run out starts over. */
  lemma BeatEndsTheWait(cfg: Config, mode: NetMode, side: WiredSide, r: WirelessSide, associated: bool, now: nat)
    requires r.brain.Some? && r.brain.value.Coherent() && Wanted(mode, side) && cfg.targetsParse
    ensures var b, x := r.brain.value, BeatOf(cfg, mode, side, r, associated, now).side;
            && x.brain.Some?
            && (b.phase == Error && now / 1000 >= b.nextAuthAt.value ==>
                  x.associateInFlight && x.brain.value.phase == if StaleJoin(r, now) then Off else Joining)
            && (b.phase == Joining && associated && r.wlan.Some? ==>
                  if r.authInFlight || r.wlan.value.gateway.Some? then x.authInFlight && x.brain.value.phase == Authing
                  else x.brain.value.phase == Error)
            && (b.phase == Joining && !(associated && r.wlan.Some?) ==>
                  x.brain.value.phase == if StaleJoin(r, now) then Off else Joining)
  {
    hide WB.Decide, BeatOf, StaleJoin;
    DecideAdvances(r.brain.value.(mode := mode), WorldOf(side, r, associated, now));
    BeatByDecision(cfg, mode, side, r, associated, now);
  }

  // --- a failed login is retried on time ----------------------------------------

  predicate InError(r: WirelessSide) { r.brain.Some? && r.brain.value.phase == Error && r.brain.value.nextAuthAt.Some? }

  /** The retry is due five to thirty seconds after `secs`. */
  predicate DueSoonAfter(r: WirelessSide, secs: nat)
    requires InError(r)
  {
    secs + 5 <= r.brain.value.nextAuthAt.value <= secs + 30
  }

  lemma DecideKeepsRetry(b: WB.State, w: WB.World)
    ensures var b' := WB.Decide(b, w).0; b'.phase == Error ==> b.phase == Error && b'.nextAuthAt == b.nextAuthAt
  {}

  lemma CarryRetries(cfg: Config, r: WirelessSide, b: WB.State, action: WB.Action, secs: nat)
    requires r.brain == Some(b)
    ensures var x := Carry(cfg, r, b, action, secs).side; x.brain == Some(b) || (InError(x) && DueSoonAfter(x, secs))
  {}

  lemma BeatRetries(cfg: Config, mode: NetMode, side: WiredSide, r: WirelessSide, associated: bool, now: nat)
    requires r.brain.Some?
    ensures var x := BeatOf(cfg, mode, side, r, associated, now).side;
            InError(x) ==> DueSoonAfter(x, now / 1000) || (InError(r) && x.brain.value.nextAuthAt == r.brain.value.nextAuthAt)
  {
    hide WB.Decide, Carry, MetricEffects, DueSoonAfter;
    var b0 := r.brain.value.(mode := mode);
    var w := WorldOf(side, r, associated, now);
    DecideKeepsRetry(b0, w);
    var (b, action) := WB.Decide(b0, w);
    CarryRetries(cfg, r.(brain := Some(b)), b, action, now / 1000);
  }

  lemma AirRetries(s: Core, ev: Event, now: nat)
    requires AirEvent(ev)
    ensures var r, x := s.air, AirStep(s.cfg, s.mode, s.wired, s.air, ev, now).side;
            InError(x) ==> DueSoonAfter(x, now / 1000) || (InError(r) && x.brain.value.nextAuthAt == r.brain.value.nextAuthAt)
  {
    hide BeatOf;
    if ev.WirelessSampled? && s.air.sampleInFlight && s.air.brain.Some? {
      BeatRetries(s.cfg, s.mode, s.wired, s.air.(sampleInFlight := false, wlan := ev.wlan), ev.associated, now);
    }
  }

  lemma RetryStep(s: Core, ev: Event, now: nat)
    ensures var r, x := s.air, React(s, ev, now).core.air;
            InError(x) ==> DueSoonAfter(x, now / 1000) || (InError(r) && x.brain.value.nextAuthAt == r.brain.value.nextAuthAt)
  {
    hide AirStep, N.MaybeNotify, N.Allowed, N.OnResult, WakeWired, LinkArrives, DueSoonAfter;
    if AirEvent(ev) { AirRetries(s, ev, now); }
  }

  /** A retry is fixed when the login fails, five to thirty seconds ahead, and is not put
      off by anything that happens while the takeover stays in Error. */
  lemma {:induction false} RetryIsNeverPutOff(cfg: Config, run: seq<Stamped>, i: nat) returns (k: nat)
    requires i <= |run| && InError(StateAt(cfg, run, i).air)
    ensures k < i && DueSoonAfter(StateAt(cfg, run, i).air, run[k].now / 1000)
    ensures forall m | k < m <= i :: InError(StateAt(cfg, run, m).air)
  {
    hide React, DueSoonAfter;
    if i == 0 { assert false; }
    RetryStep(StateAt(cfg, run, i - 1), run[i - 1].ev, run[i - 1].now);
    if DueSoonAfter(StateAt(cfg, run, i).air, run[i - 1].now / 1000) {
      k := i - 1;
    } else {
      k := RetryIsNeverPutOff(cfg, run, i - 1);
      assert DueSoonAfter(StateAt(cfg, run, i).air, run[k].now / 1000) by {
        SameRetry(StateAt(cfg, run, i - 1).air, StateAt(cfg, run, i).air, run[k].now / 1000);
      }
    }
  }

  lemma SameRetry(r: WirelessSide, x: WirelessSide, secs: nat)
    requires InError(r) && InError(x) && x.brain.value.nextAuthAt == r.brain.value.nextAuthAt && DueSoonAfter(r, secs)
    ensures DueSoonAfter(x, secs)
  {}

  // --- what is decided is what is demanded --------------------------------------

  lemma CarryDemandsTheDecision(cfg: Config, r: WirelessSide, b: WB.State, action: WB.Action, secs: nat)
    requires cfg.targetsParse
    ensures var effects := Carry(cfg, r, b, action, secs).effects;
            && (Associate in effects <==> action == WB.Associate && !r.associateInFlight)
            && (Disassociate in effects <==> action == WB.Disassociate)
            && (Emits(effects, Login) <==>
                  action == WB.PortalAuth && !r.authInFlight && r.wlan.Some? && r.wlan.value.gateway.Some?)
            && (Emits(effects, AirProbe) <==> action == WB.ProbeNow && !r.probeInFlight && r.wlan.Some?)
            && (TeardownRoutes in effects <==> Disassociate in effects)
            && (forall i | 0 <= i < |effects| && effects[i] == Disassociate :: i > 0 && effects[i - 1] == TeardownRoutes)
  {
    hide WB.OnAuth;
    var effects := Carry(cfg, r, b, action, secs).effects;
    if action == WB.Disassociate { assert effects[0] == TeardownRoutes && effects[1] == Disassociate; }
    if action == WB.PortalAuth && |effects| == 3 { assert Demands(effects[2], Login) && effects[2] in effects; }
    if action == WB.ProbeNow && |effects| == 1 { assert Demands(effects[0], AirProbe) && effects[0] in effects; }
  }

  /** A beat demands an association, a release, a login or a probe exactly when the brain
      decided so and nothing of the kind is out; and routes go before the WLAN goes. */
  lemma BeatDemandsTheDecision(cfg: Config, mode: NetMode, side: WiredSide, r: WirelessSide, associated: bool, now: nat)
    requires r.brain.Some? && cfg.targetsParse
    ensures var effects := BeatOf(cfg, mode, side, r, associated, now).effects;
            var action := WB.Decide(r.brain.value.(mode := mode), WorldOf(side, r, associated, now)).1;
            && (Associate in effects <==> action == WB.Associate && !r.associateInFlight)
            && (Disassociate in effects <==> action == WB.Disassociate)
            && (Emits(effects, Login) <==>
                  action == WB.PortalAuth && !r.authInFlight && r.wlan.Some? && r.wlan.value.gateway.Some?)
            && (Emits(effects, AirProbe) <==> action == WB.ProbeNow && !r.probeInFlight && r.wlan.Some?)
            && (forall i | 0 <= i < |effects| && effects[i] == Disassociate :: i > 0 && effects[i - 1] == TeardownRoutes)
  {
    hide WB.Decide, Carry, JoinTimeout, MetricEffects, Emits;
    var (b, action) := WB.Decide(r.brain.value.(mode := mode), WorldOf(side, r, associated, now));
    CarryDemandsTheDecision(cfg, r.(brain := Some(b)), b, action, now / 1000);
    var h := Carry(cfg, r.(brain := Some(b)), b, action, now / 1000);
    var m := MetricEffects(cfg, mode, side.Healthy(), h.side.wlan);
    MetricDemandsNothing(cfg, mode, side.Healthy(), h.side.wlan, h.effects, Login);
    MetricDemandsNothing(cfg, mode, side.Healthy(), h.side.wlan, h.effects, AirProbe);
    MetricOnly(cfg, mode, side.Healthy(), h.side.wlan);
    AppendMetric(h.effects, m);
  }

  lemma AppendMetric(effects: seq<Effect>, m: seq<Effect>)
    requires forall e | e in m :: e.SuppressMetric? || e.ReleaseMetric?
    requires forall i | 0 <= i < |effects| && effects[i] == Disassociate :: i > 0 && effects[i - 1] == TeardownRoutes
    ensures Associate in effects + m <==> Associate in effects
    ensures Disassociate in effects + m <==> Disassociate in effects
    ensures forall i | 0 <= i < |effects + m| && (effects + m)[i] == Disassociate ::
              i > 0 && (effects + m)[i - 1] == TeardownRoutes
  {
    var all := effects + m;
    assert forall i | 0 <= i < |effects| :: all[i] == effects[i];
    assert forall i | |effects| <= i < |all| :: all[i] in m;
  }

  lemma MetricOnly(cfg: Config, mode: NetMode, wiredHealthy: bool, wlan: Option<WlanSample>)
    ensures forall e | e in MetricEffects(cfg, mode, wiredHealthy, wlan) :: e.SuppressMetric? || e.ReleaseMetric?
  {}

  // ---------------------------------------------------------------------------
  // A re-login is paid for by a fresh Kicked verdict
  // ---------------------------------------------------------------------------

  /** Call `i` delivers the answer of the login that is out. */
  ghost predicate LoginAnswered(cfg: Config, run: seq<Stamped>, i: nat)
    requires i < |run|
  {
    var s := StateAt(cfg, run, i); s.Running() && s.air.authInFlight && run[i].ev.PortalFinished?
  }

  /** Call `i` delivers a Kicked verdict of the probe that is out. */
  ghost predicate KickedHeard(cfg: Config, run: seq<Stamped>, i: nat)
    requires i < |run|
  {
    var s := StateAt(cfg, run, i); s.Running() && s.air.probeInFlight && run[i].ev == WlanProbeFinished(Kicked)
  }

  function PhaseAt(cfg: Config, run: seq<Stamped>, i: nat): WPhase
    requires i <= |run|
  {
    var r := StateAt(cfg, run, i).air; if r.brain.Some? then r.brain.value.phase else Off
  }

  /** A dead takeover has nothing out. */
  predicate Quiet(r: WirelessSide) {
    r.brain.None? ==> !r.sampleInFlight && !r.associateInFlight && !r.authInFlight && !r.probeInFlight
  }

  lemma QuietStep(s: Core, ev: Event, now: nat)
    requires Quiet(s.air)
    ensures Quiet(React(s, ev, now).core.air)
  {
    hide BeatOf, WB.OnAuth, N.MaybeNotify, N.Allowed, N.OnResult, WakeWired, LinkArrives;
    if ev.WirelessSampled? && s.air.sampleInFlight && s.air.brain.Some? {
      BeatVerdict(s.cfg, s.mode, s.wired, s.air.(sampleInFlight := false, wlan := ev.wlan), ev.associated, now);
    }
  }

  lemma {:induction false} OnlyTheLivingWait(cfg: Config, run: seq<Stamped>, i: nat)
    requires i <= |run|
    ensures Quiet(StateAt(cfg, run, i).air)
  {
    hide React;
    if i > 0 {
      OnlyTheLivingWait(cfg, run, i - 1);
      QuietStep(StateAt(cfg, run, i - 1), run[i - 1].ev, run[i - 1].now);
    }
  }

  lemma PortalStep(s: Core, attempt: PortalAttempt, now: nat)
    requires s.Running() && s.air.authInFlight && s.air.brain.Some?
    ensures var x := React(s, PortalFinished(attempt), now).core.air;
            && x.brain.Some? && !x.authInFlight && x.verdict.None?
            && x.brain.value.phase == (if LoggedIn(attempt) then Online else Error)
            && (!LoggedIn(attempt) ==> InError(x) && DueSoonAfter(x, now / 1000))
  {}

  /** In every run an answer to the login that is out ends the wait for it, in whatever phase it
      comes: the takeover is alive to hear it and is Online, or in Error with a retry five to
      thirty seconds away; nothing of the old login is left out, and no verdict heard before it
      survives it. */
  lemma AnswerEndsTheWait(cfg: Config, run: seq<Stamped>, i: nat)
    requires i < |run| && LoginAnswered(cfg, run, i)
    ensures StateAt(cfg, run, i).air.brain.Some? && StateAt(cfg, run, i + 1).air.brain.Some?
    ensures PhaseAt(cfg, run, i + 1) ==
              if run[i].ev.attempt in {Replied(Success), Replied(AlreadyOnline)} then Online else Error
    ensures !Busy(StateAt(cfg, run, i + 1), Login) && StateAt(cfg, run, i + 1).air.verdict.None?
    ensures PhaseAt(cfg, run, i + 1) == Error ==>
              InError(StateAt(cfg, run, i + 1).air) && DueSoonAfter(StateAt(cfg, run, i + 1).air, run[i].now / 1000)
  {
    hide React;
    OnlyTheLivingWait(cfg, run, i);
    PortalStep(StateAt(cfg, run, i), run[i].ev.attempt, run[i].now);
  }

  lemma CarryKeepsTheJoin(cfg: Config, r: WirelessSide, b: WB.State, action: WB.Action, secs: nat)
    requires r.brain == Some(b)
    ensures var h := Carry(cfg, r, b, action, secs);
            && h.side.brain.Some?
            && (action == WB.Disassociate || h.side.joinSince == r.joinSince)
            && (h.proceed || action == WB.ProbeNow || h.side.brain.value.phase == Error)
            && (h.side.brain.value.phase == b.phase || h.side.brain.value.phase == Error)
  {}

  lemma DecideLeavesOrJoins(b: WB.State, w: WB.World)
    ensures WB.Decide(b, w).1 == WB.Disassociate ==> WB.Decide(b, w).0.phase == Off
    ensures WB.Decide(b, w).1 == WB.ProbeNow ==> WB.Decide(b, w).0.phase == Online
  {}

  lemma BeatEndsAStaleJoin(cfg: Config, mode: NetMode, side: WiredSide, r: WirelessSide, associated: bool, now: nat)
    requires r.brain.Some? && StaleJoin(r, now)
    ensures var x := BeatOf(cfg, mode, side, r, associated, now).side; x.brain.Some? && x.brain.value.phase != Joining
  {
    hide WB.Decide, Carry, MetricEffects, JoinTimeout;
    var b0 := r.brain.value.(mode := mode);
    var w := WorldOf(side, r, associated, now);
    DecideLeavesOrJoins(b0, w);
    var (b, action) := WB.Decide(b0, w);
    CarryKeepsTheJoin(cfg, r.(brain := Some(b)), b, action, now / 1000);
    JoinTimeoutAt(Carry(cfg, r.(brain := Some(b)), b, action, now / 1000).side, now);
  }

  /** No beat leaves the takeover joining on an association answered over a minute ago. */
  lemma StaleJoinsEnd(cfg: Config, run: seq<Stamped>, i: nat)
    requires i < |run| && AcceptedAt(cfg, run, i, AirSample) && StaleJoin(StateAt(cfg, run, i).air, run[i].now)
    ensures PhaseAt(cfg, run, i + 1) != Joining
  {
    hide React, BeatOf;
    OnlyTheLivingWait(cfg, run, i);
    var s, ev, now := StateAt(cfg, run, i), run[i].ev, run[i].now;
    ReactAir(s, ev, now);
    BeatEndsAStaleJoin(s.cfg, s.mode, s.wired, s.air.(sampleInFlight := false, wlan := ev.wlan), ev.associated, now);
  }

  /** The instant of a run at which a due retry demands a fresh association and, because the
      last one was answered over a minute ago, is sent straight back to Off. */
  function LateRetry(): seq<Stamped> {
    [Stamped(Started, 0), Stamped(WirelessSampled(false, None), 0), Stamped(AssociateFinished(true), 1),
     Stamped(Wake, 2_000), Stamped(WirelessSampled(true, Some(WlanSample(1, None, 7))), 2_000),
     Stamped(Wake, 70_000), Stamped(WirelessSampled(false, None), 70_000)]
  }

  const LATE: Config := Config(WiredExclusive, true, true, 0, 0, 30, 9_000)

  lemma LateStart(s1: Core, s2: Core, s3: Core)
    requires s1 == React(New(LATE), Started, 0).core && s2 == React(s1, WirelessSampled(false, None), 0).core
    requires s3 == React(s2, AssociateFinished(true), 1).core
    ensures s3.Running() && s3.cfg == LATE && s3.mode == WiredExclusive && !s3.wired.Healthy()
    ensures s3.air.tickAt == 2_000 && !s3.air.sampleInFlight && s3.air.joinSince == Some(1)
    ensures !s3.air.associateInFlight && !s3.air.authInFlight
    ensures s3.air.brain.Some? && s3.air.brain.value.phase == Joining && s3.air.brain.value.authFailCount == 0
  {
    assert s1.air.brain == Some(WB.New(WiredExclusive, 0, 0, 30));
    assert s2.air.brain.value.phase == Joining;
  }

  lemma LateFailure(s3: Core, s4: Core, s5: Core)
    requires s3.Running() && s3.mode == WiredExclusive && !s3.wired.Healthy()
    requires s3.air.tickAt == 2_000 && !s3.air.sampleInFlight && s3.air.joinSince == Some(1)
    requires !s3.air.associateInFlight && !s3.air.authInFlight
    requires s3.air.brain.Some? && s3.air.brain.value.phase == Joining && s3.air.brain.value.authFailCount == 0
    requires s4 == React(s3, Wake, 2_000).core
    requires s5 == React(s4, WirelessSampled(true, Some(WlanSample(1, None, 7))), 2_000).core
    ensures s5.Running() && s5.mode == WiredExclusive && !s5.wired.Healthy()
    ensures s5.air.tickAt == 4_000 && !s5.air.sampleInFlight && s5.air.joinSince == Some(1) && !s5.air.associateInFlight
    ensures s5.air.brain.Some? && s5.air.brain.value.phase == Error && s5.air.brain.value.nextAuthAt == Some(7)
  {
    hide WakeWired;
    assert s4.air.sampleInFlight && s4.air.brain == s3.air.brain && !s4.wired.Healthy() by { WakeKeepsHealth(s3.wired, 2_000); }
  }

  lemma WakeKeepsHealth(w: WiredSide, now: nat)
    ensures WakeWired(w, now).side.Healthy() == w.Healthy()
  {}

  lemma LateRetryEnds(s5: Core, s6: Core)
    requires s5.Running() && s5.mode == WiredExclusive && !s5.wired.Healthy()
    requires s5.air.tickAt == 4_000 && !s5.air.sampleInFlight && s5.air.joinSince == Some(1) && !s5.air.associateInFlight
    requires s5.air.brain.Some? && s5.air.brain.value.phase == Error && s5.air.brain.value.nextAuthAt == Some(7)
    requires s6 == React(s5, Wake, 70_000).core
    ensures s6.air.brain == s5.air.brain && StaleJoin(s6.air, 70_000)
    ensures var r := React(s6, WirelessSampled(false, None), 70_000);
            Associate in r.effects && r.core.air.brain.Some? && r.core.air.brain.value.phase == Off
  {
    hide WakeWired;
    assert s6.air.sampleInFlight && !s6.wired.Healthy() by { WakeKeepsHealth(s5.wired, 70_000); }
    assert React(s6, WirelessSampled(false, None), 70_000).effects[0] == Associate;
  }

  lemma LateRetryFallsBackToOff()
    ensures var run := LateRetry();
            && Monotone(run) && PhaseAt(LATE, run, 6) == Error && StaleJoin(StateAt(LATE, run, 6).air, 70_000)
            && Associate in EffectsAt(LATE, run, 6) && PhaseAt(LATE, run, 7) == Off
  {
    hide React, StaleJoin;
    var run := LateRetry();
    LateStart(StateAt(LATE, run, 1), StateAt(LATE, run, 2), StateAt(LATE, run, 3));
    LateFailure(StateAt(LATE, run, 3), StateAt(LATE, run, 4), StateAt(LATE, run, 5));
    LateRetryEnds(StateAt(LATE, run, 5), StateAt(LATE, run, 6));
  }

  /** Call `i` takes the brain from Online straight back into Authing. */
  ghost predicate Relogin(cfg: Config, run: seq<Stamped>, i: nat)
    requires i < |run|
  {
    PhaseAt(cfg, run, i) == Online && PhaseAt(cfg, run, i + 1) == Authing
  }

  lemma DecideVerdict(b: WB.State, w: WB.World)
    ensures var b' := WB.Decide(b, w).0;
            && (b'.phase == Online ==> b.phase == Online)
            && (b.phase == Online && b'.phase == Authing ==> w.probe == Some(Kicked))
  {}

  lemma CarryVerdict(cfg: Config, r: WirelessSide, b: WB.State, action: WB.Action, secs: nat)
    requires r.brain == Some(b)
    ensures var x := Carry(cfg, r, b, action, secs).side;
            && (x.verdict == Some(Kicked) ==> r.verdict == Some(Kicked))
            && x.brain.Some? && (x.brain.value == b || x.brain.value.phase == Error)
  {}

  lemma BeatVerdict(cfg: Config, mode: NetMode, side: WiredSide, r: WirelessSide, associated: bool, now: nat)
    requires r.brain.Some?
    ensures var x := BeatOf(cfg, mode, side, r, associated, now).side;
            && (x.verdict == Some(Kicked) ==> r.verdict == Some(Kicked))
            && x.brain.Some?
            && (x.brain.value.phase == Online ==> r.brain.value.phase == Online)
            && (r.brain.value.phase == Online && x.brain.value.phase == Authing ==> r.verdict == Some(Kicked))
  {
    hide WB.Decide, Carry, MetricEffects;
    var b0 := r.brain.value.(mode := mode);
    var w := WorldOf(side, r, associated, now);
    DecideVerdict(b0, w);
    var (b, action) := WB.Decide(b0, w);
    CarryVerdict(cfg, r.(brain := Some(b)), b, action, now / 1000);
  }

  /** Where a verdict and an Online phase come from: `answered` is an accepted login answer,
      `heard` an accepted probe answer. */
  predicate Sourced(r: WirelessSide, x: WirelessSide, answered: bool, heard: Option<Verdict>) {
    && (x.verdict == Some(Kicked) ==> if heard.Some? then heard == Some(Kicked) else r.verdict == Some(Kicked) && !answered)
    && (r.brain.Some? && x.brain.Some? && r.brain.value.phase == Online && x.brain.value.phase == Authing ==>
          r.verdict == Some(Kicked))
    && (x.brain.Some? && x.brain.value.phase == Online && !answered ==> r.brain.Some? && r.brain.value.phase == Online)
  }

  lemma AirVerdict(s: Core, ev: Event, now: nat)
    requires AirEvent(ev)
    ensures Sourced(s.air, AirStep(s.cfg, s.mode, s.wired, s.air, ev, now).side, s.air.authInFlight && ev.PortalFinished?,
                    if s.air.probeInFlight && ev.WlanProbeFinished? then Some(ev.verdict) else None)
  {
    hide BeatOf;
    if ev.WirelessSampled? && s.air.sampleInFlight && s.air.brain.Some? {
      BeatVerdict(s.cfg, s.mode, s.wired, s.air.(sampleInFlight := false, wlan := ev.wlan), ev.associated, now);
    }
  }

  lemma OtherVerdict(s: Core, ev: Event, now: nat)
    requires !s.Running() || !AirEvent(ev)
    ensures Sourced(s.air, React(s, ev, now).core.air, false, None)
  {
    hide AirStep, N.MaybeNotify, N.Allowed, N.OnResult, WakeWired, LinkArrives;
  }

  lemma VerdictStep(s: Core, ev: Event, now: nat)
    ensures var r, r' := s.air, React(s, ev, now).core.air;
            var answered := s.Running() && r.authInFlight && ev.PortalFinished?;
            && (r'.verdict == Some(Kicked) ==>
                  if s.Running() && r.probeInFlight && ev.WlanProbeFinished? then ev.verdict == Kicked
                  else r.verdict == Some(Kicked) && !answered)
            && (r.brain.Some? && r'.brain.Some? && r.brain.value.phase == Online && r'.brain.value.phase == Authing ==>
                  r.verdict == Some(Kicked))
            && (r'.brain.Some? && r'.brain.value.phase == Online && !answered ==> r.brain.Some? && r.brain.value.phase == Online)
  {
    hide React, AirStep;
    if s.Running() && AirEvent(ev) {
      ReactAir(s, ev, now);
      AirVerdict(s, ev, now);
    } else {
      OtherVerdict(s, ev, now);
    }
  }

  lemma {:induction false} KickedOrigin(cfg: Config, run: seq<Stamped>, i: nat) returns (k: nat)
    requires i <= |run| && StateAt(cfg, run, i).air.verdict == Some(Kicked)
    ensures k < i && KickedHeard(cfg, run, k)
    ensures forall m | k < m < i :: !LoginAnswered(cfg, run, m)
  {
    hide React;
    if i == 0 { assert false; }
    VerdictStep(StateAt(cfg, run, i - 1), run[i - 1].ev, run[i - 1].now);
    if KickedHeard(cfg, run, i - 1) {
      k := i - 1;
    } else {
      k := KickedOrigin(cfg, run, i - 1);
    }
  }

  /** A brain that is Online was put there by an answered login, and has stayed. */
  lemma {:induction false} OnlineOrigin(cfg: Config, run: seq<Stamped>, i: nat) returns (m: nat)
    requires i <= |run| && PhaseAt(cfg, run, i) == Online
    ensures m < i && LoginAnswered(cfg, run, m)
    ensures forall k | m < k <= i :: PhaseAt(cfg, run, k) == Online
  {
    hide React;
    if i == 0 { assert false; }
    VerdictStep(StateAt(cfg, run, i - 1), run[i - 1].ev, run[i - 1].now);
    if LoginAnswered(cfg, run, i - 1) {
      m := i - 1;
    } else {
      m := OnlineOrigin(cfg, run, i - 1);
    }
  }

  /** Each re-login answers to its own Kicked verdict, heard after the last finished
      login: no stale verdict ever loops the service through authentication. */
  lemma ReloginConsumesAFreshKick(cfg: Config, run: seq<Stamped>, j: nat) returns (k: nat)
    requires j < |run| && Relogin(cfg, run, j)
    ensures k < j && KickedHeard(cfg, run, k)
    ensures forall m | k < m < j :: !LoginAnswered(cfg, run, m)
    ensures forall i | 0 <= i < j && Relogin(cfg, run, i) :: i < k
  {
    hide React;
    VerdictStep(StateAt(cfg, run, j), run[j].ev, run[j].now);
    k := KickedOrigin(cfg, run, j);
    var m := OnlineOrigin(cfg, run, j);
    forall i | 0 <= i < j && Relogin(cfg, run, i) ensures i < k {
      assert PhaseAt(cfg, run, i + 1) == Authing;
      assert i + 1 <= m;
    }
  }

  // ---------------------------------------------------------------------------
  // Toast throttling
  // ---------------------------------------------------------------------------

  /** Call `i` reports that the toast in flight for `key` was delivered. */
  ghost predicate Delivered(cfg: Config, run: seq<Stamped>, i: nat, key: N.ToastKey)
    requires i < |run|
  {
    var s := StateAt(cfg, run, i); s.Running() && key in s.notes.inFlight && run[i].ev == NotifyResult(key, true)
  }

  lemma NoteStep(s: Core, ev: Event, now: nat, key: N.ToastKey)
    ensures var l, l' := s.notes, React(s, ev, now).core.notes;
            var hit := s.Running() && key in l.inFlight && ev.NotifyResult? && ev.key == key;
            && (hit && ev.delivered ==> key in l'.deliveredAt && l'.deliveredAt[key] == now && key !in l'.inFlight)
            && (!(hit && ev.delivered) ==> (key in l'.deliveredAt <==> key in l.deliveredAt)
                                           && (key in l.deliveredAt ==> l'.deliveredAt[key] == l.deliveredAt[key]))
            && (key in l'.inFlight && key !in l.inFlight && key in l.deliveredAt ==>
                  now >= l.deliveredAt[key] + N.NOTIFY_THROTTLE_MS)
  {
    hide AirStep, WakeWired, WakeAir, LinkArrives;
  }

  /** While a toast is out, the previous delivery of its key is half an hour old. */
  lemma {:induction false} InFlightIsQuiet(cfg: Config, run: seq<Stamped>, i: nat, key: N.ToastKey)
    requires Monotone(run) && i <= |run|
    ensures var l := StateAt(cfg, run, i).notes;
            key in l.inFlight && key in l.deliveredAt ==>
              i > 0 && run[i - 1].now >= l.deliveredAt[key] + N.NOTIFY_THROTTLE_MS
  {
    hide React;
    if i > 0 {
      InFlightIsQuiet(cfg, run, i - 1, key);
      NoteStep(StateAt(cfg, run, i - 1), run[i - 1].ev, run[i - 1].now, key);
    }
  }

  lemma {:induction false} LastDelivery(cfg: Config, run: seq<Stamped>, i: nat, j: nat, key: N.ToastKey)
    requires Monotone(run) && i < j <= |run| && Delivered(cfg, run, i, key)
    ensures var l := StateAt(cfg, run, j).notes; key in l.deliveredAt && l.deliveredAt[key] >= run[i].now
  {
    hide React;
    NoteStep(StateAt(cfg, run, j - 1), run[j - 1].ev, run[j - 1].now, key);
    if i + 1 < j { LastDelivery(cfg, run, i, j - 1, key); }
  }

  /** Any two delivered toasts of one kind are at least half an hour apart. */
  lemma ToastsAreThrottled(cfg: Config, run: seq<Stamped>, i: nat, j: nat, key: N.ToastKey)
    requires Monotone(run) && i < j < |run| && Delivered(cfg, run, i, key) && Delivered(cfg, run, j, key)
    ensures run[j].now >= run[i].now + N.NOTIFY_THROTTLE_MS
  {
    LastDelivery(cfg, run, i, j, key);
    InFlightIsQuiet(cfg, run, j, key);
  }

  ghost function Deliveries(cfg: Config, run: seq<Stamped>, a: nat, b: nat, key: N.ToastKey): nat
    requires a <= b <= |run|
  {
    if a == b then 0 else Deliveries(cfg, run, a, b - 1, key) + if Delivered(cfg, run, b - 1, key) then 1 else 0
  }

  lemma {:induction false} SpacedDeliveries(cfg: Config, run: seq<Stamped>, a: nat, b: nat, key: N.ToastKey) returns (last: nat)
    requires Monotone(run) && a < b <= |run| && Deliveries(cfg, run, a, b, key) > 0
    ensures a <= last < b && Delivered(cfg, run, last, key)
    ensures (Deliveries(cfg, run, a, b, key) - 1) * N.NOTIFY_THROTTLE_MS <= run[last].now - run[a].now
  {
    if !Delivered(cfg, run, b - 1, key) {
      last := SpacedDeliveries(cfg, run, a, b - 1, key);
    } else {
      last := b - 1;
      if Deliveries(cfg, run, a, b - 1, key) > 0 {
        var prev := SpacedDeliveries(cfg, run, a, b - 1, key);
        ToastsAreThrottled(cfg, run, prev, last, key);
      }
    }
  }

  /** A stretch of the run that lasts L milliseconds delivers at most 1 + L / 1,800,000 toasts of a kind. */
  lemma ToastBudget(cfg: Config, run: seq<Stamped>, a: nat, b: nat, key: N.ToastKey)
    requires Monotone(run) && a < b <= |run|
    ensures Deliveries(cfg, run, a, b, key) <= 1 + (run[b - 1].now - run[a].now) / N.NOTIFY_THROTTLE_MS
  {
    if Deliveries(cfg, run, a, b, key) > 0 {
      var last := SpacedDeliveries(cfg, run, a, b, key);
      assert run[last].now <= run[b - 1].now;
    }
  }
}
