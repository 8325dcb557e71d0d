/** src/supervisor.rs: the service's decision point, a reducer from one event to the
    effects it demands. Times are milliseconds of one monotone clock. `React` is the
    reducer on values; the class below is the object that updates its fields in place. */
module Supervisor {
  import opened Types
  import WB = WirelessBrain
  import N = Notifications

  const LINK_POLL_MS: nat := 2_000
  const WIRELESS_TICK_MS: nat := 2_000
  const SAMPLE_RETRY_MS: nat := 2_000
  const REDIAL_FAILING_TOAST_AFTER_MS: nat := 600_000
  const ROUTE_SETTLE_MS: nat := 3_000
  /** `u64::MAX`: no deadline yet. */
  const NEVER: nat := 0xFFFF_FFFF_FFFF_FFFF

  datatype Config = Config(mode: NetMode, wirelessEnabled: bool, targetsParse: bool,
                           takeoverAfter: nat, releaseAfter: nat, probeInterval: nat, standbyMetric: nat)

  datatype WlanSample = WlanSample(ipv4: Ipv4, gateway: Option<Ipv4>, ifindex: nat)

  datatype HeartbeatStatus = Quiet | Running | Broken

  datatype PortalReply = Success | AlreadyOnline | Failure | Malformed

  datatype PortalAttempt = Replied(reply: PortalReply) | NoReply | TimedOut | Failed

  datatype Command = Redial | SetMode(mode: NetMode)

  datatype Event =
    | Started
    | Wake
    | Commanded(cmd: Command)
    | LinkSampled(up: Option<bool>, pppIp: Option<Ipv4>)
    | WatchdogStepped(delay: nat, session: SessionView, stepIp: Option<Ipv4>)
    | WirelessSampled(associated: bool, wlan: Option<WlanSample>)
    | AssociateFinished(ok: bool)
    | PortalFinished(attempt: PortalAttempt)
    | WlanProbeFinished(verdict: Verdict)
    | Heartbeat(status: HeartbeatStatus)
    | NotifyResult(key: N.ToastKey, delivered: bool)
    | WirelessDied
    | Stop

  datatype Effect =
    | StepWatchdog
    | RequestRedial
    | SetWatchdogLink(link: Option<bool>)
    | Hangup
    | SampleLink
    | SampleWireless
    | CleanupStaleRoutes
    | Associate
    | Disassociate
    | AcquireWirelessEgress(endpoint: WlanEndpoint)
    | SuppressMetric(ifindex: nat, target: nat)
    | ReleaseMetric
    | TeardownRoutes
    | Settle(ms: nat)
    | PortalAuth(srcIp: Ipv4)
    | WlanProbe(probeIp: Ipv4, probeGateway: Option<Ipv4>)
    | PersistMode(newMode: NetMode)
    | Notify(toast: N.ToastKey)
  {
    /** `Effect::lane`: run inline by the shell, or queued for the wireless worker. */
    predicate MainLane() {
      StepWatchdog? || RequestRedial? || SetWatchdogLink? || Hangup? || SampleLink? || SampleWireless?
      || PersistMode? || Notify?
    }
  }

  /** The wired guard's part of the state. */
  datatype WiredSide = WiredSide(
    ethLink: Option<bool>, linkSampleSeen: bool, sampleInFlight: bool, stepPending: bool,
    deadline: Option<nat>, linkPollAt: nat, session: SessionView, pppIp: Option<Ipv4>, failingSince: Option<nat>)
  {
    predicate Healthy() { ethLink == Some(true) && session.status == Connected }
  }

  /** The wireless takeover's part of the state. */
  datatype WirelessSide = WirelessSide(
    brain: Option<WB.State>, died: bool, sampleInFlight: bool, tickAt: nat, wlan: Option<WlanSample>,
    verdict: Option<Verdict>, associateInFlight: bool, authInFlight: bool, probeInFlight: bool, joinSince: Option<nat>)

  datatype Core = Core(cfg: Config, started: bool, stopped: bool, mode: NetMode, heartbeat: HeartbeatStatus,
                       notes: N.Ledger, wired: WiredSide, air: WirelessSide)
  {
    predicate Running() { started && !stopped }

    /** `Reaction::wake_at`: the only timer the executor sleeps on. */
    function WakeAt(now: nat): Option<nat> {
      if !Running() then None
      else
        var a := if wired.deadline.Some? then Min(wired.linkPollAt, wired.deadline.value) else wired.linkPollAt;
        Some(Max(if air.brain.Some? then Min(a, air.tickAt) else a, now))
    }
  }

  datatype Reaction = Reaction(core: Core, effects: seq<Effect>)
  datatype WiredReaction = WiredReaction(side: WiredSide, effects: seq<Effect>)
  datatype AirReaction = AirReaction(side: WirelessSide, effects: seq<Effect>)
  datatype NoteReaction = NoteReaction(notes: N.Ledger, effects: seq<Effect>)

  function New(cfg: Config): Core {
    Core(cfg, false, false, cfg.mode, Quiet, N.EMPTY,
         WiredSide(None, false, false, false, None, NEVER, SessionView(Idle, None, None, 0), None, None),
         WirelessSide(if cfg.wirelessEnabled && cfg.targetsParse
                      then Some(WB.New(cfg.mode, cfg.takeoverAfter, cfg.releaseAfter, cfg.probeInterval)) else None,
                      false, false, NEVER, None, None, false, false, false, None))
  }

  // ---------------------------------------------------------------------------
  // The wired side
  // ---------------------------------------------------------------------------

  function DueStep(w: WiredSide, now: nat): WiredSide {
    if w.deadline.Some? && w.deadline.value <= now then w.(deadline := None, stepPending := true) else w
  }

  /** A due deadline turns into a pending step; the step waits for a fresh link sample. */
  function WakeWired(w0: WiredSide, now: nat): WiredReaction {
    var w := DueStep(w0, now);
    if !(w.stepPending || w.linkPollAt <= now) then WiredReaction(w, [])
    else if !w.sampleInFlight then WiredReaction(w.(sampleInFlight := true, linkPollAt := now + LINK_POLL_MS), [SampleLink])
    else if w.linkPollAt <= now then WiredReaction(w.(linkPollAt := now + SAMPLE_RETRY_MS), [])
    else WiredReaction(w, [])
  }

  /** Once a link state is known, only a definite sample replaces it. */
  function NextLink(w: WiredSide, up: Option<bool>): Option<bool> {
    if w.linkSampleSeen && up.None? then w.ethLink else up
  }

  /** The cable was out and is in again: dial at once. */
  predicate Restores(w: WiredSide, up: Option<bool>) {
    w.ethLink == Some(false) && NextLink(w, up) != w.ethLink
  }

  function LinkArrives(w: WiredSide, up: Option<bool>, pppIp: Option<Ipv4>, now: nat): WiredReaction {
    if !w.sampleInFlight then WiredReaction(w, [])
    else
      var next := NextLink(w, up);
      var w1 := w.(sampleInFlight := false, pppIp := pppIp, linkSampleSeen := true, ethLink := next,
                   linkPollAt := now + LINK_POLL_MS, stepPending := false,
                   deadline := if Restores(w, up) then None else w.deadline);
      WiredReaction(w1, (if next != w.ethLink then [SetWatchdogLink(next)] else [])
                        + (if Restores(w, up) then [RequestRedial, StepWatchdog]
                           else if w.stepPending then [StepWatchdog] else []))
  }

  predicate Failing(status: SessionStatus) { status == Backoff || status == AuthFail }

  function StepArrives(w: WiredSide, delay: nat, session: SessionView, pppIp: Option<Ipv4>, now: nat): WiredSide {
    w.(session := session, pppIp := pppIp, stepPending := false, deadline := Some(now + delay),
       failingSince := if Failing(session.status) then (if w.failingSince.Some? then w.failingSince else Some(now))
                       else if session.status == Connected then None else w.failingSince)
  }

  /** Ten minutes of failed redials, and the cable is not to blame. */
  predicate WorthATell(w: WiredSide, now: nat) {
    && Failing(w.session.status)
    && w.failingSince.Some? && SatSub(now, w.failingSince.value) >= REDIAL_FAILING_TOAST_AFTER_MS
    && w.ethLink != Some(false) && w.session.lastDrop != Some(EthernetLinkDown)
  }

  function Toast(notes: N.Ledger, key: N.ToastKey, now: nat): NoteReaction {
    NoteReaction(N.MaybeNotify(notes, key, now), if N.Allowed(notes, key, now) then [Notify(key)] else [])
  }

  // ---------------------------------------------------------------------------
  // The wireless side
  // ---------------------------------------------------------------------------

  /** A fresh start clears routes a crashed predecessor left, then looks around. */
  function StartAir(r: WirelessSide, now: nat): AirReaction {
    if r.brain.None? then AirReaction(r, [])
    else AirReaction(r.(sampleInFlight := true, tickAt := now + WIRELESS_TICK_MS), [CleanupStaleRoutes, SampleWireless])
  }

  function WakeAir(r: WirelessSide, now: nat): AirReaction {
    if r.brain.None? || r.tickAt > now then AirReaction(r, [])
    else AirReaction(r.(sampleInFlight := true, tickAt := now + WIRELESS_TICK_MS),
                     if r.sampleInFlight then [] else [SampleWireless])
  }

  datatype Handled = Handled(side: WirelessSide, effects: seq<Effect>, proceed: bool)

  /** What the brain, already advanced to `b`, asked for. An authentication without an
      address or a gateway fails on the spot and skips the rest of the beat. */
  function Carry(cfg: Config, r: WirelessSide, b: WB.State, action: WB.Action, nowSecs: nat): Handled {
    match action
    case NoAction => Handled(r, [], true)
    case Associate =>
      if r.associateInFlight then Handled(r, [], true)
      else Handled(r.(associateInFlight := true), [Associate], true)
    case Disassociate => Handled(r.(verdict := None, joinSince := None), [TeardownRoutes, Disassociate], true)
    case PortalAuth =>
      if r.authInFlight then Handled(r, [], true)
      else if r.wlan.None? || r.wlan.value.gateway.None? then
        Handled(r.(brain := Some(WB.OnAuth(b, false, nowSecs)), verdict := None), [], false)
      else if !cfg.targetsParse then Handled(r, [], true)
      else
        var w := r.wlan.value;
        Handled(r.(authInFlight := true),
                [AcquireWirelessEgress(WlanEndpoint(w.gateway.value, w.ifindex)), Settle(ROUTE_SETTLE_MS), PortalAuth(w.ipv4)],
                true)
    case ProbeNow =>
      if r.probeInFlight then Handled(r, [], true)
      else if r.wlan.None? then Handled(r, [], false)
      else Handled(r.(probeInFlight := true), [WlanProbe(r.wlan.value.ipv4, r.wlan.value.gateway)], true)
  }

  function MetricEffects(cfg: Config, mode: NetMode, wiredHealthy: bool, wlan: Option<WlanSample>): seq<Effect> {
    if wlan.None? then []
    else
      (if mode == WiredPlusStandby || !wiredHealthy then [SuppressMetric(wlan.value.ifindex, cfg.standbyMetric)] else [])
      + (if mode == WiredExclusive && wiredHealthy then [ReleaseMetric] else [])
  }

  /** Those are the effects that release exactly when the wire alone is to carry and does, and
      suppress otherwise. */
  lemma MetricIsSettled(cfg: Config, mode: NetMode, wiredHealthy: bool, wlan: Option<WlanSample>, effects: seq<Effect>)
    requires |effects| == if wlan.None? then 0 else 1
    requires ReleaseMetric in effects <==> wlan.Some? && mode == WiredExclusive && wiredHealthy
    requires forall e | e in effects :: e == ReleaseMetric || e == SuppressMetric(wlan.value.ifindex, cfg.standbyMetric)
    ensures effects == MetricEffects(cfg, mode, wiredHealthy, wlan)
  {
    if wlan.Some? { assert effects[0] in effects && effects == [effects[0]]; }
  }

  /** More than sixty seconds after the last finished association, still no address: start over. */
  function JoinTimeout(r: WirelessSide, now: nat): WirelessSide {
    if r.brain.Some? && r.brain.value.phase == Joining
       && r.joinSince.Some? && SatSub(now, r.joinSince.value) > WB.JOIN_TIMEOUT_SECS * 1000
    then r.(brain := Some(WB.ResetOff(r.brain.value)), joinSince := None) else r
  }

  function WorldOf(w: WiredSide, r: WirelessSide, associated: bool, now: nat): WB.World {
    WB.World(now / 1000, w.ethLink == Some(true), w.session.status == Connected, associated, r.wlan.Some?, r.verdict)
  }

  function FinishBeat(cfg: Config, mode: NetMode, wiredHealthy: bool, h: Handled, now: nat): AirReaction {
    if h.proceed
    then AirReaction(JoinTimeout(h.side, now), h.effects + MetricEffects(cfg, mode, wiredHealthy, h.side.wlan))
    else AirReaction(h.side, h.effects)
  }

  /** One beat of the takeover: the brain decides, the decision is carried out, the metric
      and the join timeout are looked after. */
  function BeatOf(cfg: Config, mode: NetMode, w: WiredSide, r: WirelessSide, associated: bool, now: nat): AirReaction
    requires r.brain.Some?
  {
    var (b, action) := WB.Decide(r.brain.value.(mode := mode), WorldOf(w, r, associated, now));
    FinishBeat(cfg, mode, w.Healthy(), Carry(cfg, r.(brain := Some(b)), b, action, now / 1000), now)
  }

  function SampleArrives(cfg: Config, mode: NetMode, w: WiredSide, r: WirelessSide,
                         associated: bool, wlan: Option<WlanSample>, now: nat): AirReaction
  {
    if !r.sampleInFlight then AirReaction(r, [])
    else if r.brain.None? then AirReaction(r.(sampleInFlight := false), [])
    else BeatOf(cfg, mode, w, r.(sampleInFlight := false, wlan := wlan), associated, now)
  }

  function AssociationEnds(r: WirelessSide, now: nat): WirelessSide {
    if !r.associateInFlight then r else r.(associateInFlight := false, joinSince := Some(now))
  }

  predicate LoggedIn(attempt: PortalAttempt) {
    attempt.Replied? && (attempt.reply.Success? || attempt.reply.AlreadyOnline?)
  }

  function PortalEnds(r: WirelessSide, attempt: PortalAttempt, now: nat): WirelessSide {
    if !r.authInFlight then r
    else r.(authInFlight := false, verdict := None,
            brain := if r.brain.Some? then Some(WB.OnAuth(r.brain.value, LoggedIn(attempt), now / 1000)) else None)
  }

  function ProbeEnds(r: WirelessSide, verdict: Verdict): WirelessSide {
    if !r.probeInFlight then r else r.(probeInFlight := false, verdict := Some(verdict))
  }

  function Buried(r: WirelessSide): WirelessSide {
    WirelessSide(None, true, false, r.tickAt, None, None, false, false, false, None)
  }

  predicate AirEvent(ev: Event) {
    ev.WirelessSampled? || ev.AssociateFinished? || ev.PortalFinished? || ev.WlanProbeFinished? || ev.WirelessDied?
  }

  /** The events of the wireless lane touch the wireless side only. */
  function AirStep(cfg: Config, mode: NetMode, w: WiredSide, r: WirelessSide, ev: Event, now: nat): AirReaction
    requires AirEvent(ev)
  {
    match ev
    case WirelessSampled(associated, wlan) => SampleArrives(cfg, mode, w, r, associated, wlan, now)
    case AssociateFinished(_) => AirReaction(AssociationEnds(r, now), [])
    case PortalFinished(attempt) => AirReaction(PortalEnds(r, attempt, now), [])
    case WlanProbeFinished(verdict) => AirReaction(ProbeEnds(r, verdict), [])
    case WirelessDied => AirReaction(if cfg.wirelessEnabled then Buried(r) else r, [])
  }

  // ---------------------------------------------------------------------------
  // The reducer
  // ---------------------------------------------------------------------------

  function OnStarted(s: Core, now: nat): Reaction {
    var r := StartAir(s.air, now);
    Reaction(s.(started := true, wired := s.wired.(deadline := Some(now), linkPollAt := now), air := r.side), r.effects)
  }

  function OnWake(s: Core, now: nat): Reaction {
    var w, r := WakeWired(s.wired, now), WakeAir(s.air, now);
    Reaction(s.(wired := w.side, air := r.side), w.effects + r.effects)
  }

  function OnCommand(s: Core, cmd: Command): Reaction {
    match cmd
    case Redial => Reaction(s.(wired := s.wired.(deadline := None)), [RequestRedial, StepWatchdog])
    case SetMode(m) =>
      Reaction(s.(mode := m, air := if s.air.brain.Some? then s.air.(brain := Some(s.air.brain.value.(mode := m))) else s.air),
               [PersistMode(m)])
  }

  function OnWatchdogStepped(s: Core, delay: nat, session: SessionView, pppIp: Option<Ipv4>, now: nat): Reaction {
    var w := StepArrives(s.wired, delay, session, pppIp, now);
    var t := if WorthATell(w, now) then Toast(s.notes, N.RedialFailing, now) else NoteReaction(s.notes, []);
    Reaction(s.(wired := w, notes := t.notes), t.effects)
  }

  function OnHeartbeat(s: Core, status: HeartbeatStatus, now: nat): Reaction {
    var t := if status.Broken? then Toast(s.notes, N.HeartbeatError, now) else NoteReaction(s.notes, []);
    Reaction(s.(heartbeat := status, notes := t.notes), t.effects)
  }

  function OnStop(s: Core): Reaction {
    Reaction(s.(stopped := true),
             [Hangup] + if s.cfg.wirelessEnabled && !s.air.died && s.air.brain.Some? then [TeardownRoutes, Disassociate] else [])
  }

  /** `Supervisor::on`. Before Started and after Stop every event is inert. */
  function React(s: Core, ev: Event, now: nat): Reaction {
    if !s.started then (if ev.Started? then OnStarted(s, now) else Reaction(s, []))
    else if s.stopped then Reaction(s, [])
    else
      match ev
      case Started => Reaction(s, [])
      case Wake => OnWake(s, now)
      case Commanded(cmd) => OnCommand(s, cmd)
      case LinkSampled(up, ip) => var x := LinkArrives(s.wired, up, ip, now); Reaction(s.(wired := x.side), x.effects)
      case WatchdogStepped(delay, session, ip) => OnWatchdogStepped(s, delay, session, ip, now)
      case Heartbeat(status) => OnHeartbeat(s, status, now)
      case NotifyResult(key, delivered) => Reaction(s.(notes := N.OnResult(s.notes, key, delivered, now)), [])
      case Stop => OnStop(s)
      case _ => var x := AirStep(s.cfg, s.mode, s.wired, s.air, ev, now); Reaction(s.(air := x.side), x.effects)
  }

  lemma ReactInert(s: Core, ev: Event, now: nat)
    ensures !s.started ==> React(s, ev, now) == if ev.Started? then OnStarted(s, now) else Reaction(s, [])
    ensures s.started && s.stopped ==> React(s, ev, now) == Reaction(s, [])
  {}

  lemma ReactAir(s: Core, ev: Event, now: nat)
    requires s.Running() && AirEvent(ev)
    ensures var x := AirStep(s.cfg, s.mode, s.wired, s.air, ev, now);
            React(s, ev, now) == Reaction(s.(air := x.side), x.effects)
  {}

  // ---------------------------------------------------------------------------
  // The object
  // ---------------------------------------------------------------------------

  class Supervisor {
    const cfg: Config
    var started: bool
    var stopped: bool
    var mode: NetMode
    var ethLink: Option<bool>
    var linkSampleSeen: bool
    var sampleInFlight: bool
    var stepPending: bool
    var watchdogDeadline: Option<nat>
    var linkPollAt: nat
    var session: SessionView
    var pppIp: Option<Ipv4>
    var heartbeat: HeartbeatStatus
    var failingSince: Option<nat>
    const notifications: N.NotificationLedger
    var brain: WB.Brain?
    var wirelessDied: bool
    var wirelessSampleInFlight: bool
    var wirelessTickAt: nat
    var wlan: Option<WlanSample>
    var verdict: Option<Verdict>
    var associateInFlight: bool
    var authInFlight: bool
    var probeInFlight: bool
    var joinSince: Option<nat>
    /** The last instant read from the clock. */
    ghost var clock: nat

    function WiredView(): WiredSide
      reads this
    {
      WiredSide(ethLink, linkSampleSeen, sampleInFlight, stepPending, watchdogDeadline, linkPollAt, session, pppIp, failingSince)
    }

    function AirView(): WirelessSide
      reads this, brain
    {
      WirelessSide(if brain == null then None else Some(brain.View()), wirelessDied, wirelessSampleInFlight, wirelessTickAt,
                   wlan, verdict, associateInFlight, authInFlight, probeInFlight, joinSince)
    }

    ghost function View(): Core
      reads this, brain, notifications
    {
      Core(cfg, started, stopped, mode, heartbeat, notifications.ledger, WiredView(), AirView())
    }

    ghost predicate Valid()
      reads this, brain, notifications
    {
      notifications.Valid() && (brain != null ==> brain.View().StampsBefore(clock / 1000))
    }

    constructor (cfg: Config)
      ensures Valid() && View() == New(cfg) && clock == 0
      ensures fresh(notifications) && (brain != null ==> fresh(brain))
    {
      this.cfg := cfg;
      started, stopped, mode := false, false, cfg.mode;
      ethLink, linkSampleSeen, sampleInFlight, stepPending := None, false, false, false;
      watchdogDeadline, linkPollAt := None, NEVER;
      session, pppIp, heartbeat, failingSince := SessionView(Idle, None, None, 0), None, Quiet, None;
      notifications := new N.NotificationLedger();
      if cfg.wirelessEnabled && cfg.targetsParse {
        brain := new WB.Brain(cfg.mode, cfg.takeoverAfter, cfg.releaseAfter, cfg.probeInterval);
      } else {
        brain := null;
      }
      wirelessDied, wirelessSampleInFlight, wirelessTickAt := false, false, NEVER;
      wlan, verdict := None, None;
      associateInFlight, authInFlight, probeInFlight, joinSince := false, false, false, None;
      clock := 0;
    }

    /** One event in, the demanded effects and the next wake-up out. The clock is monotone. */
    method On(ev: Event, now: nat) returns (effects: seq<Effect>, wakeAt: Option<nat>)
      requires Valid() && clock <= now
      modifies this, brain, notifications
      ensures Valid() && clock == now
      ensures Reaction(View(), effects) == React(old(View()), ev, now)
      ensures wakeAt == View().WakeAt(now)
      ensures brain == old(brain) || brain == null
    {
      hide React;
      ReactInert(View(), ev, now);
      clock := now;
      effects := [];
      if !started {
        if ev.Started? { effects := HandleStarted(now); }
      } else if !stopped {
        effects := Dispatch(ev, now);
      }
      wakeAt := NextWake(now);
    }

    function NextWake(now: nat): Option<nat>
      reads this
    {
      if started && !stopped then
        var a := if watchdogDeadline.Some? then Min(linkPollAt, watchdogDeadline.value) else linkPollAt;
        Some(Max(if brain != null then Min(a, wirelessTickAt) else a, now))
      else None
    }

    method Dispatch(ev: Event, now: nat) returns (effects: seq<Effect>)
      requires Valid() && clock == now && started && !stopped
      modifies this, brain, notifications
      ensures Valid() && clock == now
      ensures Reaction(View(), effects) == React(old(View()), ev, now)
      ensures brain == old(brain) || brain == null
    {
      hide React, AirStep, WB.Brain.View, WB.State.StampsBefore;
      if ev.Wake? || ev.LinkSampled? || ev.WatchdogStepped? {
        effects := DispatchWired(ev, now);
      } else if AirEvent(ev) {
        effects := AirPart(ev, now);
      } else {
        effects := DispatchOther(ev, now);
      }
    }

    method AirPart(ev: Event, now: nat) returns (effects: seq<Effect>)
      requires Valid() && clock == now && started && !stopped && AirEvent(ev)
      modifies this, brain
      ensures Valid() && clock == now
      ensures Reaction(View(), effects) == React(old(View()), ev, now)
      ensures brain == old(brain) || brain == null
    {
      hide React, AirStep;
      ReactAir(View(), ev, now);
      effects := DispatchAir(ev, now);
    }

    method DispatchOther(ev: Event, now: nat) returns (effects: seq<Effect>)
      requires Valid() && clock == now && started && !stopped
      requires ev.Started? || ev.Commanded? || ev.Heartbeat? || ev.NotifyResult? || ev.Stop?
      modifies this, brain, notifications
      ensures Valid() && clock == now && brain == old(brain)
      ensures Reaction(View(), effects) == React(old(View()), ev, now)
    {
      hide OnCommand, OnHeartbeat, OnStop, N.OnResult;
      effects := [];
      match ev {
        case Started =>
        case Commanded(cmd) => effects := HandleCommand(cmd);
        case Heartbeat(status) => effects := HandleHeartbeat(status, now);
        case NotifyResult(key, delivered) => notifications.Result(key, delivered, now);
        case Stop => effects := HandleStop();
      }
    }

    /** The events of the wired guard. */
    method DispatchWired(ev: Event, now: nat) returns (effects: seq<Effect>)
      requires Valid() && clock == now && started && !stopped
      requires ev.Wake? || ev.LinkSampled? || ev.WatchdogStepped?
      modifies this, notifications
      ensures Valid() && clock == now && brain == old(brain)
      ensures Reaction(View(), effects) == React(old(View()), ev, now)
    {
      hide OnWake, LinkArrives, OnWatchdogStepped, WB.Brain.View, WB.State.StampsBefore;
      match ev {
        case Wake => effects := HandleWake(now);
        case LinkSampled(up, ip) =>
          effects := HandleLinkSampled(up, ip, now);
          assert AirView() == old(AirView());
        case WatchdogStepped(delay, view, ip) => effects := HandleWatchdogStepped(delay, view, ip, now);
      }
    }

    /** The events of the wireless lane. */
    method DispatchAir(ev: Event, now: nat) returns (effects: seq<Effect>)
      requires Valid() && clock == now && AirEvent(ev)
      modifies this`brain, this`wirelessDied, this`wlan, this`verdict, this`wirelessSampleInFlight, this`associateInFlight,
               this`authInFlight, this`probeInFlight, this`joinSince, brain
      ensures Valid()
      ensures AirReaction(AirView(), effects) == AirStep(cfg, mode, WiredView(), old(AirView()), ev, now)
      ensures brain == old(brain) || brain == null
    {
      hide SampleArrives, AssociationEnds, PortalEnds, ProbeEnds, Buried;
      effects := [];
      match ev {
        case WirelessSampled(associated, sample) => effects := HandleWirelessSampled(associated, sample, now);
        case AssociateFinished(_) => HandleAssociateFinished(now);
        case PortalFinished(attempt) => HandlePortalFinished(attempt, now);
        case WlanProbeFinished(v) => HandleProbeFinished(v);
        case WirelessDied => HandleWirelessDied();
      }
    }

    method HandleWake(now: nat) returns (effects: seq<Effect>)
      modifies this`watchdogDeadline, this`stepPending, this`sampleInFlight, this`linkPollAt,
               this`wirelessSampleInFlight, this`wirelessTickAt
      ensures Reaction(View(), effects) == OnWake(old(View()), now)
    {
      hide WakeWired, WakeAir;
      effects := HandleWakeWired(now);
      var more := HandleWakeAir(now);
      effects := effects + more;
    }

    method HandleStarted(now: nat) returns (effects: seq<Effect>)
      modifies this`started, this`watchdogDeadline, this`linkPollAt, this`wirelessSampleInFlight, this`wirelessTickAt
      ensures started && WiredView() == old(WiredView()).(deadline := Some(now), linkPollAt := now)
      ensures AirReaction(AirView(), effects) == StartAir(old(AirView()), now)
    {
      effects := [];
      started := true;
      watchdogDeadline := Some(now);
      linkPollAt := now;
      if brain != null {
        effects := [CleanupStaleRoutes, SampleWireless];
        wirelessSampleInFlight := true;
        wirelessTickAt := now + WIRELESS_TICK_MS;
      }
    }

    method HandleWakeWired(now: nat) returns (effects: seq<Effect>)
      modifies this`watchdogDeadline, this`stepPending, this`sampleInFlight, this`linkPollAt
      ensures WiredReaction(WiredView(), effects) == WakeWired(old(WiredView()), now)
    {
      effects := [];
      if watchdogDeadline.Some? && watchdogDeadline.value <= now {
        watchdogDeadline := None;
        stepPending := true;
      }
      if stepPending || linkPollAt <= now {
        if !sampleInFlight {
          effects := effects + [SampleLink];
          sampleInFlight := true;
          linkPollAt := now + LINK_POLL_MS;
        } else if linkPollAt <= now {
          linkPollAt := now + SAMPLE_RETRY_MS;
        }
      }
    }

    method HandleWakeAir(now: nat) returns (effects: seq<Effect>)
      modifies this`wirelessSampleInFlight, this`wirelessTickAt
      ensures AirReaction(AirView(), effects) == WakeAir(old(AirView()), now)
    {
      effects := [];
      if brain != null && wirelessTickAt <= now {
        if !wirelessSampleInFlight {
          effects := effects + [SampleWireless];
          wirelessSampleInFlight := true;
        }
        wirelessTickAt := now + WIRELESS_TICK_MS;
      }
    }

    method HandleCommand(cmd: Command) returns (effects: seq<Effect>)
      requires Valid()
      modifies this`watchdogDeadline, this`mode, brain
      ensures Valid() && Reaction(View(), effects) == OnCommand(old(View()), cmd)
    {
      match cmd {
        case Redial =>
          effects := [RequestRedial, StepWatchdog];
          watchdogDeadline := None;
        case SetMode(m) =>
          mode := m;
          if brain != null { brain.SetMode(m); }
          effects := [PersistMode(m)];
      }
    }

    method HandleLinkSampled(up: Option<bool>, ip: Option<Ipv4>, now: nat) returns (effects: seq<Effect>)
      modifies this`sampleInFlight, this`pppIp, this`linkSampleSeen, this`ethLink, this`linkPollAt,
               this`watchdogDeadline, this`stepPending
      ensures WiredReaction(WiredView(), effects) == LinkArrives(old(WiredView()), up, ip, now)
    {
      effects := [];
      if !sampleInFlight { return; }
      sampleInFlight := false;
      pppIp := ip;
      var before := ethLink;
      var next := if linkSampleSeen then (if up.Some? then up else before) else up;
      linkSampleSeen := true;
      linkPollAt := now + LINK_POLL_MS;
      if next != before {
        ethLink := next;
        effects := effects + [SetWatchdogLink(next)];
        if next != Some(false) && before == Some(false) {
          effects := effects + [RequestRedial, StepWatchdog];
          watchdogDeadline := None;
          stepPending := false;
        }
      }
      if stepPending {
        effects := effects + [StepWatchdog];
        stepPending := false;
      }
    }

    method HandleWatchdogStepped(delay: nat, view: SessionView, ip: Option<Ipv4>, now: nat) returns (effects: seq<Effect>)
      requires notifications.Valid()
      modifies this`session, this`pppIp, this`stepPending, this`watchdogDeadline, this`failingSince, notifications
      ensures notifications.Valid()
      ensures Reaction(View(), effects) == OnWatchdogStepped(old(View()), delay, view, ip, now)
    {
      hide N.MaybeNotify, N.Allowed;
      effects := [];
      NoteStep(delay, view, ip, now);
      var paused := ethLink == Some(false) || session.lastDrop == Some(EthernetLinkDown);
      if Failing(session.status) && SatSub(now, failingSince.value) >= REDIAL_FAILING_TOAST_AFTER_MS && !paused {
        var send := notifications.Notify(N.RedialFailing, now);
        if send { effects := [Notify(N.RedialFailing)]; }
      }
    }

    method NoteStep(delay: nat, view: SessionView, ip: Option<Ipv4>, now: nat)
      modifies this`session, this`pppIp, this`stepPending, this`watchdogDeadline, this`failingSince
      ensures WiredView() == StepArrives(old(WiredView()), delay, view, ip, now)
    {
      session, pppIp, stepPending, watchdogDeadline := view, ip, false, Some(now + delay);
      match session.status {
        case Backoff | AuthFail => if failingSince.None? { failingSince := Some(now); }
        case Connected => failingSince := None;
        case _ =>
      }
    }

    method HandleWirelessSampled(associated: bool, sample: Option<WlanSample>, now: nat) returns (effects: seq<Effect>)
      requires Valid() && clock == now
      modifies this`wirelessSampleInFlight, this`wlan, this`associateInFlight, this`authInFlight, this`probeInFlight,
               this`verdict, this`joinSince, brain
      ensures Valid()
      ensures AirReaction(AirView(), effects) == SampleArrives(cfg, mode, WiredView(), old(AirView()), associated, sample, now)
    {
      hide BeatOf;
      effects := [];
      if !wirelessSampleInFlight { return; }
      wirelessSampleInFlight := false;
      if brain == null { return; }
      wlan := sample;
      effects := TakeBeat(associated, now);
    }

    method TakeBeat(associated: bool, now: nat) returns (effects: seq<Effect>)
      requires Valid() && clock == now && brain != null
      modifies this`associateInFlight, this`authInFlight, this`probeInFlight, this`verdict, this`joinSince, brain
      ensures Valid()
      ensures AirReaction(AirView(), effects) == BeatOf(cfg, mode, WiredView(), old(AirView()), associated, now)
    {
      hide WB.Decide, Carry, MetricEffects, JoinTimeout;
      var action := Ask(associated, now);
      var proceed;
      effects, proceed := CarryOut(action, now / 1000);
      if proceed {
        var metric := UpdateMetric();
        MetricIsSettled(cfg, mode, WiredView().Healthy(), wlan, metric);
        effects := effects + metric;
        CheckJoin(now);
      }
    }

    /** Show the brain what this beat looks like. */
    method Ask(associated: bool, now: nat) returns (action: WB.Action)
      requires Valid() && clock == now && brain != null
      modifies brain
      ensures Valid()
      ensures var (b, a) := WB.Decide(old(brain.View()).(mode := mode), WorldOf(WiredView(), old(AirView()), associated, now));
              action == a && AirView() == old(AirView()).(brain := Some(b))
    {
      brain.SetMode(mode);
      action := brain.Beat(WB.World(now / 1000, ethLink == Some(true), session.status == Connected,
                                    associated, wlan.Some?, verdict));
    }

    method CheckJoin(now: nat)
      requires Valid() && brain != null
      modifies this`joinSince, brain
      ensures Valid() && AirView() == JoinTimeout(old(AirView()), now)
    {
      if brain.phase == Joining && joinSince.Some?
         && SatSub(now, joinSince.value) > WB.JOIN_TIMEOUT_SECS * 1000 {
        brain.Restart();
        joinSince := None;
      }
    }

    /** `handle_action` */
    method CarryOut(action: WB.Action, nowSecs: nat) returns (effects: seq<Effect>, proceed: bool)
      requires Valid() && brain != null
      modifies this`associateInFlight, this`authInFlight, this`probeInFlight, this`verdict, this`joinSince, brain
      ensures Valid()
      ensures Handled(AirView(), effects, proceed) == Carry(cfg, old(AirView()), old(brain.View()), action, nowSecs)
    {
      hide WB.OnAuth, WB.State.StampsBefore;
      effects, proceed := [], true;
      match action {
        case NoAction =>
        case Associate =>
          if !associateInFlight {
            effects := [Associate];
            associateInFlight := true;
          }
        case Disassociate =>
          effects := [TeardownRoutes, Disassociate];
          verdict, joinSince := None, None;
        case PortalAuth =>
          if authInFlight { return; }
          if wlan.None? || wlan.value.gateway.None? {
            brain.AuthFinished(false, nowSecs);
            verdict := None;
            return [], false;
          }
          if !cfg.targetsParse { return; }
          effects := [AcquireWirelessEgress(WlanEndpoint(wlan.value.gateway.value, wlan.value.ifindex)),
                      Settle(ROUTE_SETTLE_MS), PortalAuth(wlan.value.ipv4)];
          authInFlight := true;
        case ProbeNow =>
          if probeInFlight { return; }
          if wlan.None? { return [], false; }
          effects := [WlanProbe(wlan.value.ipv4, wlan.value.gateway)];
          probeInFlight := true;
      }
    }

    /** `update_metric`: once a WLAN is seen there is exactly one thing to do about its metric on
        every beat. It is released if and only if the wire alone is to carry and does; in every
        other case it is suppressed, on the interface just seen, to the configured value. */
    method UpdateMetric() returns (effects: seq<Effect>)
      ensures wlan.None? ==> effects == []
      ensures wlan.Some? ==> |effects| == 1
      ensures ReleaseMetric in effects <==> wlan.Some? && mode == WiredExclusive && WiredView().Healthy()
      ensures forall e | e in effects :: e == ReleaseMetric || e == SuppressMetric(wlan.value.ifindex, cfg.standbyMetric)
    {
      effects := [];
      if wlan.None? { return; }
      var wiredHealthy := ethLink == Some(true) && session.status == Connected;
      var takeoverActive := mode == WiredExclusive && !wiredHealthy;
      if mode == WiredPlusStandby || takeoverActive {
        effects := effects + [SuppressMetric(wlan.value.ifindex, cfg.standbyMetric)];
      }
      if mode == WiredExclusive && wiredHealthy {
        effects := effects + [ReleaseMetric];
      }
    }

    method HandleAssociateFinished(now: nat)
      modifies this`associateInFlight, this`joinSince
      ensures AirView() == AssociationEnds(old(AirView()), now)
    {
      if !associateInFlight { return; }
      associateInFlight := false;
      joinSince := Some(now);
    }

    method HandlePortalFinished(attempt: PortalAttempt, now: nat)
      requires Valid()
      modifies this`authInFlight, this`verdict, brain
      ensures Valid() && AirView() == PortalEnds(old(AirView()), attempt, now)
    {
      if !authInFlight { return; }
      authInFlight := false;
      if brain != null { brain.AuthFinished(LoggedIn(attempt), now / 1000); }
      verdict := None;
    }

    method HandleProbeFinished(v: Verdict)
      modifies this`probeInFlight, this`verdict
      ensures AirView() == ProbeEnds(old(AirView()), v)
    {
      if !probeInFlight { return; }
      probeInFlight := false;
      verdict := Some(v);
    }

    method HandleHeartbeat(status: HeartbeatStatus, now: nat) returns (effects: seq<Effect>)
      requires notifications.Valid()
      modifies this`heartbeat, notifications
      ensures notifications.Valid()
      ensures Reaction(View(), effects) == OnHeartbeat(old(View()), status, now)
    {
      effects := [];
      if status.Broken? {
        var send := notifications.Notify(N.HeartbeatError, now);
        if send { effects := [Notify(N.HeartbeatError)]; }
      }
      heartbeat := status;
    }

    method HandleWirelessDied()
      modifies this`brain, this`wirelessDied, this`wlan, this`verdict, this`wirelessSampleInFlight, this`associateInFlight,
               this`authInFlight, this`probeInFlight, this`joinSince
      ensures AirView() == if cfg.wirelessEnabled then Buried(old(AirView())) else old(AirView())
      ensures brain == if cfg.wirelessEnabled then null else old(brain)
    {
      if !cfg.wirelessEnabled { return; }
      brain, wirelessDied := null, true;
      wlan, verdict, wirelessSampleInFlight := None, None, false;
      associateInFlight, authInFlight, probeInFlight, joinSince := false, false, false, None;
    }

    method HandleStop() returns (effects: seq<Effect>)
      modifies this`stopped
      ensures Reaction(View(), effects) == OnStop(old(View()))
    {
      stopped := true;
      effects := [Hangup];
      if cfg.wirelessEnabled && !wirelessDied && brain != null {
        effects := effects + [TeardownRoutes, Disassociate];
      }
    }
  }
}
