/** Theorems about whole lives of the supervisor: any finite sequence of events, in any
    order, answered or not, each stamped with the instant it was handled. */
module SupervisorRuns {
  import opened Types
  import opened Supervisor
  import N = Notifications
  import WB = WirelessBrain

  datatype Stamped = Stamped(ev: Event, now: nat)

  function StateAt(cfg: Config, run: seq<Stamped>, i: nat): Core
    requires i <= |run|
  {
    if i == 0 then New(cfg) else React(StateAt(cfg, run, i - 1), run[i - 1].ev, run[i - 1].now).core
  }

  function EffectsAt(cfg: Config, run: seq<Stamped>, i: nat): seq<Effect>
    requires i < |run|
  {
    React(StateAt(cfg, run, i), run[i].ev, run[i].now).effects
  }

  ghost predicate Monotone(run: seq<Stamped>) {
    forall i, j | 0 <= i <= j < |run| :: run[i].now <= run[j].now
  }

  // ---------------------------------------------------------------------------
  // Single outstanding work
  // ---------------------------------------------------------------------------

  datatype Work = LinkSample | AirSample | Association | Login | AirProbe | Tell(key: N.ToastKey)
  {
    predicate Air() { AirSample? || Association? || Login? || AirProbe? }
  }

  predicate Demands(e: Effect, w: Work) {
    match w
    case LinkSample => e.SampleLink?
    case AirSample => e.SampleWireless?
    case Association => e.Associate?
    case Login => e.PortalAuth?
    case AirProbe => e.WlanProbe?
    case Tell(key) => e == Notify(key)
  }

  predicate Answers(ev: Event, w: Work) {
    match w
    case LinkSample => ev.LinkSampled?
    case AirSample => ev.WirelessSampled?
    case Association => ev.AssociateFinished?
    case Login => ev.PortalFinished?
    case AirProbe => ev.WlanProbeFinished?
    case Tell(key) => ev.NotifyResult? && ev.key == key
  }

  predicate BusyAir(r: WirelessSide, w: Work) {
    match w
    case AirSample => r.sampleInFlight
    case Association => r.associateInFlight
    case Login => r.authInFlight
    case AirProbe => r.probeInFlight
    case _ => false
  }

  predicate Busy(s: Core, w: Work) {
    match w
    case LinkSample => s.wired.sampleInFlight
    case Tell(key) => key in s.notes.inFlight
    case _ => BusyAir(s.air, w)
  }

  predicate Emits(effects: seq<Effect>, w: Work) {
    exists e :: e in effects && Demands(e, w)
  }

  /** No further demand can come before an answer: the work is out, or its lane is dead. */
  predicate Closed(s: Core, w: Work) {
    s.started && (Busy(s, w) || (w.Air() && s.air.brain.None?))
  }

  /** At most one effect of the reaction demands the work. */
  predicate Once(effects: seq<Effect>, w: Work) {
    forall a, b | 0 <= a < b < |effects| && Demands(effects[a], w) :: !Demands(effects[b], w)
  }

  lemma CarryDemand(cfg: Config, r: WirelessSide, b: WB.State, action: WB.Action, nowSecs: nat, w: Work)
    requires r.brain == Some(b)
    ensures var h := Carry(cfg, r, b, action, nowSecs);
            && (Emits(h.effects, w) ==> w.Air() && !w.AirSample? && !BusyAir(r, w) && BusyAir(h.side, w))
            && (BusyAir(r, w) ==> BusyAir(h.side, w))
            && h.side.brain.Some? && Once(h.effects, w)
  {
    hide WB.OnAuth;
  }

  lemma MetricDemandsNothing(cfg: Config, mode: NetMode, wiredHealthy: bool, wlan: Option<WlanSample>, effects: seq<Effect>, w: Work)
    ensures !Emits(MetricEffects(cfg, mode, wiredHealthy, wlan), w)
    ensures Emits(effects + MetricEffects(cfg, mode, wiredHealthy, wlan), w) == Emits(effects, w)
    ensures Once(effects + MetricEffects(cfg, mode, wiredHealthy, wlan), w) == Once(effects, w)
  {
    var m := MetricEffects(cfg, mode, wiredHealthy, wlan);
    assert forall e | e in m :: !Demands(e, w);
    assert forall a | 0 <= a < |effects| :: (effects + m)[a] == effects[a];
    assert forall a | |effects| <= a < |effects + m| :: (effects + m)[a] in m;
  }

  lemma BeatDemand(cfg: Config, mode: NetMode, side: WiredSide, r: WirelessSide, associated: bool, now: nat, w: Work)
    requires r.brain.Some?
    ensures var x := BeatOf(cfg, mode, side, r, associated, now);
            && (Emits(x.effects, w) ==> w.Air() && !w.AirSample? && !BusyAir(r, w) && BusyAir(x.side, w))
            && (BusyAir(r, w) ==> BusyAir(x.side, w))
            && x.side.brain.Some? && Once(x.effects, w)
  {
    hide WB.Decide, Carry, MetricEffects, Emits, Once;
    var (b, action) := WB.Decide(r.brain.value.(mode := mode), WorldOf(side, r, associated, now));
    CarryDemand(cfg, r.(brain := Some(b)), b, action, now / 1000, w);
    var h := Carry(cfg, r.(brain := Some(b)), b, action, now / 1000);
    MetricDemandsNothing(cfg, mode, side.Healthy(), h.side.wlan, h.effects, w);
  }

  lemma AirDemand(s: Core, ev: Event, now: nat, w: Work)
    requires AirEvent(ev)
    ensures var r := AirStep(s.cfg, s.mode, s.wired, s.air, ev, now);
            && (Emits(r.effects, w) ==> w.Air() && !BusyAir(s.air, w) && s.air.brain.Some? && BusyAir(r.side, w))
            && (BusyAir(s.air, w) && !Answers(ev, w) ==> BusyAir(r.side, w) || (ev.WirelessDied? && r.side.brain.None?))
            && (s.air.brain.None? ==> r.side.brain.None?)
            && Once(r.effects, w)
  {
    hide BeatOf, WB.OnAuth;
    if ev.WirelessSampled? && s.air.sampleInFlight && s.air.brain.Some? {
      BeatDemand(s.cfg, s.mode, s.wired, s.air.(sampleInFlight := false, wlan := ev.wlan), ev.associated, now, w);
    }
  }

  /** The work is demanded only when it is not out, at most once, and stays out until answered. */
  predicate Orderly(s: Core, ev: Event, r: Reaction, w: Work) {
    && (Emits(r.effects, w) ==> !Closed(s, w) && Closed(r.core, w))
    && (Closed(s, w) && !Answers(ev, w) ==> Closed(r.core, w))
    && Once(r.effects, w)
    && (r.core.started || r.core == New(r.core.cfg))
  }

  lemma WakeDemand(s: Core, now: nat, w: Work)
    requires s.Running()
    ensures Orderly(s, Wake, OnWake(s, now), w)
  {}

  lemma ArrivalDemand(s: Core, up: Option<bool>, pppIp: Option<Ipv4>, now: nat, w: Work)
    requires s.Running()
    ensures var x := LinkArrives(s.wired, up, pppIp, now);
            Orderly(s, LinkSampled(up, pppIp), Reaction(s.(wired := x.side), x.effects), w)
  {}

  /** A toast is demanded exactly when the ledger takes it in. */
  lemma ToastDemand(notes: N.Ledger, key: N.ToastKey, now: nat, w: Work)
    ensures var t := Toast(notes, key, now);
            && (Emits(t.effects, w) ==> w == Tell(key) && key !in notes.inFlight && key in t.notes.inFlight)
            && notes.inFlight <= t.notes.inFlight && Once(t.effects, w)
  {}

  lemma StepAnswerDemand(s: Core, delay: nat, session: SessionView, pppIp: Option<Ipv4>, now: nat, w: Work)
    requires s.Running()
    ensures Orderly(s, WatchdogStepped(delay, session, pppIp), OnWatchdogStepped(s, delay, session, pppIp, now), w)
  {
    hide Toast, WorthATell;
    ToastDemand(s.notes, N.RedialFailing, now, w);
  }

  lemma HeartbeatDemand(s: Core, status: HeartbeatStatus, now: nat, w: Work)
    requires s.Running()
    ensures Orderly(s, Heartbeat(status), OnHeartbeat(s, status, now), w)
  {
    hide Toast;
    ToastDemand(s.notes, N.HeartbeatError, now, w);
  }

  lemma RestDemand(s: Core, ev: Event, now: nat, w: Work)
    requires s.started || s == New(s.cfg)
    requires !s.Running() || ev.Started? || ev.Commanded? || ev.NotifyResult? || ev.Stop?
    ensures Orderly(s, ev, React(s, ev, now), w)
  {
    hide AirStep, OnWake, LinkArrives, OnWatchdogStepped, OnHeartbeat;
  }

  lemma OtherDemand(s: Core, ev: Event, now: nat, w: Work)
    requires s.started || s == New(s.cfg)
    requires !AirEvent(ev) || !s.Running()
    ensures Orderly(s, ev, React(s, ev, now), w)
  {
    hide Orderly, AirStep, OnStarted, OnWake, OnCommand, LinkArrives, OnWatchdogStepped, OnHeartbeat, OnStop, N.OnResult;
    if !s.Running() { RestDemand(s, ev, now, w); return; }
    match ev {
      case Wake => WakeDemand(s, now, w);
      case LinkSampled(up, ip) => ArrivalDemand(s, up, ip, now, w);
      case WatchdogStepped(delay, session, ip) => StepAnswerDemand(s, delay, session, ip, now, w);
      case Heartbeat(status) => HeartbeatDemand(s, status, now, w);
      case _ => RestDemand(s, ev, now, w);
    }
  }

  /** What one event does to one kind of work: it is demanded only when it is not out, at
      most once, and once out it stays out until answered. */
  lemma DemandStep(s: Core, ev: Event, now: nat, w: Work)
    requires s.started || s == New(s.cfg)
    ensures var r := React(s, ev, now);
            && (Emits(r.effects, w) ==> !Closed(s, w) && Closed(r.core, w))
            && (Closed(s, w) && !Answers(ev, w) ==> Closed(r.core, w))
            && Once(r.effects, w)
            && (r.core.started || r.core == New(r.core.cfg))
  {
    hide React, AirStep, Emits, Once;
    if AirEvent(ev) && s.Running() {
      ReactAir(s, ev, now);
      AirDemand(s, ev, now, w);
    } else {
      OtherDemand(s, ev, now, w);
    }
  }

  /** The answer is taken: the work is out and the supervisor runs. Any other answer is ignored. */
  predicate Accepts(s: Core, ev: Event, w: Work) { s.Running() && Busy(s, w) && Answers(ev, w) }

  /** A stray, late or repeated answer reopens nothing. */
  lemma IgnoredStep(s: Core, ev: Event, now: nat, w: Work)
    requires s.started || s == New(s.cfg)
    requires Closed(s, w) && !Accepts(s, ev, w)
    ensures Closed(React(s, ev, now).core, w)
  {
    hide React, AirStep, Emits, Once;
    if !s.Running() {
      ReactInert(s, ev, now);
    } else if AirEvent(ev) {
      ReactAir(s, ev, now);
      AirDemand(s, ev, now, w);
    } else {
      DemandStep(s, ev, now, w);
    }
  }

  ghost predicate AcceptedAt(cfg: Config, run: seq<Stamped>, i: nat, w: Work)
    requires i < |run|
  {
    Accepts(StateAt(cfg, run, i), run[i].ev, w)
  }

  lemma {:induction false} StaysClosed(cfg: Config, run: seq<Stamped>, i: nat, j: nat, w: Work)
    requires i < j <= |run| && Emits(EffectsAt(cfg, run, i), w)
    requires forall k | i < k < j :: !AcceptedAt(cfg, run, k, w)
    ensures Closed(StateAt(cfg, run, j), w)
  {
    hide React, Closed, Accepts;
    StartedOrNew(cfg, run, j - 1);
    if i + 1 < j {
      StaysClosed(cfg, run, i, j - 1, w);
      assert !AcceptedAt(cfg, run, j - 1, w);
      IgnoredStep(StateAt(cfg, run, j - 1), run[j - 1].ev, run[j - 1].now, w);
    } else {
      DemandStep(StateAt(cfg, run, j - 1), run[j - 1].ev, run[j - 1].now, w);
    }
  }

  lemma {:induction false} StartedOrNew(cfg: Config, run: seq<Stamped>, i: nat)
    requires i <= |run|
    ensures var s := StateAt(cfg, run, i); s.cfg == cfg && (s.started || s == New(cfg))
  {
    if i > 0 { StartedOrNew(cfg, run, i - 1); }
  }

  /** Single outstanding work: between any two demands for the same kind of work lies an
      accepted answer to that work, and no reaction demands it twice. */
  lemma SingleOutstanding(cfg: Config, run: seq<Stamped>, i: nat, j: nat, w: Work)
    requires i < j < |run| && Emits(EffectsAt(cfg, run, i), w) && Emits(EffectsAt(cfg, run, j), w)
    ensures exists k :: i < k < j && AcceptedAt(cfg, run, k, w)
    ensures Once(EffectsAt(cfg, run, i), w)
  {
    hide React, Closed, Accepts;
    StartedOrNew(cfg, run, i);
    StartedOrNew(cfg, run, j);
    DemandStep(StateAt(cfg, run, i), run[i].ev, run[i].now, w);
    DemandStep(StateAt(cfg, run, j), run[j].ev, run[j].now, w);
    if forall k | i < k < j :: !AcceptedAt(cfg, run, k, w) {
      StaysClosed(cfg, run, i, j, w);
    }
  }

  /** How often the first `i` reactions demanded the work, and how many answers they accepted. */
  ghost function Demanded(cfg: Config, run: seq<Stamped>, i: nat, w: Work): nat
    requires i <= |run|
  {
    if i == 0 then 0 else Demanded(cfg, run, i - 1, w) + if Emits(EffectsAt(cfg, run, i - 1), w) then 1 else 0
  }

  ghost function Accepted(cfg: Config, run: seq<Stamped>, i: nat, w: Work): nat
    requires i <= |run|
  {
    if i == 0 then 0 else Accepted(cfg, run, i - 1, w) + if AcceptedAt(cfg, run, i - 1, w) then 1 else 0
  }

  /** The ledger of every kind of work, in every prefix of every run: it was demanded at most
      once more often than its answers were accepted, and not more often while none is out. */
  lemma {:induction false} DemandsAreCovered(cfg: Config, run: seq<Stamped>, i: nat, w: Work)
    requires i <= |run|
    ensures Demanded(cfg, run, i, w) <= Accepted(cfg, run, i, w) + if Closed(StateAt(cfg, run, i), w) then 1 else 0
  {
    hide React, Closed, Accepts, Emits;
    if i > 0 {
      DemandsAreCovered(cfg, run, i - 1, w);
      StartedOrNew(cfg, run, i - 1);
      var s, ev, now := StateAt(cfg, run, i - 1), run[i - 1].ev, run[i - 1].now;
      DemandStep(s, ev, now, w);
      if Closed(s, w) && !Accepts(s, ev, w) { IgnoredStep(s, ev, now, w); }
    }
  }

  // --- and nothing is waited for that was not demanded --------------------------

  lemma CarryOpens(cfg: Config, r: WirelessSide, b: WB.State, action: WB.Action, nowSecs: nat, w: Work)
    ensures var h := Carry(cfg, r, b, action, nowSecs); BusyAir(h.side, w) ==> BusyAir(r, w) || Emits(h.effects, w)
  {
    hide WB.OnAuth;
    var effects := Carry(cfg, r, b, action, nowSecs).effects;
    if |effects| > 0 && Demands(effects[0], w) { assert effects[0] in effects; }
    if |effects| > 2 && Demands(effects[2], w) { assert effects[2] in effects; }
  }

  lemma BeatOpens(cfg: Config, mode: NetMode, side: WiredSide, r: WirelessSide, associated: bool, now: nat, w: Work)
    requires r.brain.Some?
    ensures var x := BeatOf(cfg, mode, side, r, associated, now); BusyAir(x.side, w) ==> BusyAir(r, w) || Emits(x.effects, w)
  {
    hide WB.Decide, Carry, MetricEffects, Emits;
    var (b, action) := WB.Decide(r.brain.value.(mode := mode), WorldOf(side, r, associated, now));
    CarryOpens(cfg, r.(brain := Some(b)), b, action, now / 1000, w);
    var h := Carry(cfg, r.(brain := Some(b)), b, action, now / 1000);
    MetricDemandsNothing(cfg, mode, side.Healthy(), h.side.wlan, h.effects, w);
  }

  lemma AirOpens(s: Core, ev: Event, now: nat, w: Work)
    requires AirEvent(ev)
    ensures var r := AirStep(s.cfg, s.mode, s.wired, s.air, ev, now);
            BusyAir(r.side, w) ==> Emits(r.effects, w) || (BusyAir(s.air, w) && !Answers(ev, w))
  {
    hide BeatOf, WB.OnAuth;
    if ev.WirelessSampled? && s.air.sampleInFlight && s.air.brain.Some? {
      BeatOpens(s.cfg, s.mode, s.wired, s.air.(sampleInFlight := false, wlan := ev.wlan), ev.associated, now, w);
    }
  }

  lemma OtherOpens(s: Core, ev: Event, now: nat, w: Work)
    requires !AirEvent(ev) || !s.Running()
    ensures var r := React(s, ev, now);
            Busy(r.core, w) ==> Emits(r.effects, w) || (Busy(s, w) && !(s.Running() && Answers(ev, w)))
  {
    hide AirStep;
    var effects := React(s, ev, now).effects;
    if |effects| > 0 && Demands(effects[0], w) { assert effects[0] in effects; }
    if |effects| > 1 && Demands(effects[1], w) { assert effects[1] in effects; }
  }

  lemma OpenStep(s: Core, ev: Event, now: nat, w: Work)
    ensures var r := React(s, ev, now);
            Busy(r.core, w) ==> Emits(r.effects, w) || (Busy(s, w) && !(s.Running() && Answers(ev, w)))
  {
    hide React, AirStep, Emits;
    if AirEvent(ev) && s.Running() {
      ReactAir(s, ev, now);
      AirOpens(s, ev, now, w);
    } else {
      OtherOpens(s, ev, now, w);
    }
  }

  /** Whatever is waited for was really demanded, and has not been answered since. */
  lemma {:induction false} BusyWasDemanded(cfg: Config, run: seq<Stamped>, i: nat, w: Work) returns (j: nat)
    requires i <= |run| && Busy(StateAt(cfg, run, i), w)
    ensures j < i && Emits(EffectsAt(cfg, run, j), w)
    ensures forall k | j < k < i :: !(StateAt(cfg, run, k).Running() && Answers(run[k].ev, w))
  {
    hide React, Emits;
    if i == 0 { assert false; }
    OpenStep(StateAt(cfg, run, i - 1), run[i - 1].ev, run[i - 1].now, w);
    if Emits(EffectsAt(cfg, run, i - 1), w) {
      j := i - 1;
    } else {
      j := BusyWasDemanded(cfg, run, i - 1, w);
    }
  }

  // ---------------------------------------------------------------------------
  // Watchdog steps and the wake-up ledger
  // ---------------------------------------------------------------------------

  predicate Steps(effects: seq<Effect>) { StepWatchdog in effects }

  /** The answer of a watchdog step was handled by call `i`. */
  ghost predicate SteppedAt(cfg: Config, run: seq<Stamped>, i: nat)
    requires i < |run|
  {
    StateAt(cfg, run, i).Running() && run[i].ev.WatchdogStepped?
  }

  predicate LinkRestored(w: WiredSide, ev: Event) {
    ev.LinkSampled? && w.ethLink == Some(false) && ev.up == Some(true)
  }

  predicate WorkerOnly(effects: seq<Effect>) { forall e | e in effects :: !e.MainLane() }

  lemma BeatStaysInItsLane(cfg: Config, mode: NetMode, side: WiredSide, r: WirelessSide, associated: bool, now: nat)
    requires r.brain.Some?
    ensures WorkerOnly(BeatOf(cfg, mode, side, r, associated, now).effects)
  {
    hide WB.Decide, WB.OnAuth, JoinTimeout, Carry, MetricEffects;
    var (b, action) := WB.Decide(r.brain.value.(mode := mode), WorldOf(side, r, associated, now));
    var h := Carry(cfg, r.(brain := Some(b)), b, action, now / 1000);
    assert WorkerOnly(h.effects) by { CarryStaysInItsLane(cfg, r.(brain := Some(b)), b, action, now / 1000); }
    MetricStaysInItsLane(cfg, mode, side.Healthy(), h.side.wlan);
  }

  lemma CarryStaysInItsLane(cfg: Config, r: WirelessSide, b: WB.State, action: WB.Action, nowSecs: nat)
    ensures WorkerOnly(Carry(cfg, r, b, action, nowSecs).effects)
  {
    hide WB.OnAuth;
  }

  lemma MetricStaysInItsLane(cfg: Config, mode: NetMode, wiredHealthy: bool, wlan: Option<WlanSample>)
    ensures WorkerOnly(MetricEffects(cfg, mode, wiredHealthy, wlan))
  {}

  /** What the wireless lane's events demand is executed by the wireless worker alone. */
  lemma AirStaysInItsLane(s: Core, ev: Event, now: nat)
    requires AirEvent(ev)
    ensures WorkerOnly(AirStep(s.cfg, s.mode, s.wired, s.air, ev, now).effects)
  {
    hide BeatOf;
    if ev.WirelessSampled? && s.air.sampleInFlight && s.air.brain.Some? {
      BeatStaysInItsLane(s.cfg, s.mode, s.wired, s.air.(sampleInFlight := false, wlan := ev.wlan), ev.associated, now);
    }
  }

  /** Everything one event does to deadlines, pending steps and the link ledger. A step is
      demanded by a Redial command, by the cable coming back, or by a due deadline that
      has just been given its fresh link sample, and by nothing else. */
  lemma WiredStep(s: Core, ev: Event, now: nat)
    requires s.wired.linkSampleSeen || s.wired.ethLink.None?
    ensures var r := React(s, ev, now); var w, w' := s.wired, r.core.wired;
            && (w'.linkSampleSeen || w'.ethLink.None?)
            && (w.ethLink.Some? ==> w'.ethLink.Some?)
            && (Steps(r.effects) ==> s.Running())
            && (Steps(r.effects) ==>
                  ev == Commanded(Redial) || LinkRestored(w, ev) || (ev.LinkSampled? && w.stepPending && !w'.stepPending))
            && (s.Running() && ev.WatchdogStepped? ==> w'.deadline == Some(now + ev.delay) && !w'.stepPending)
            && (s.started && !(s.Running() && ev.WatchdogStepped?) ==> w'.deadline.None? || w'.deadline == w.deadline)
            && (w'.stepPending ==> w.stepPending || (w.deadline.Some? && w.deadline.value <= now && w'.deadline.None?))
            && (!s.started ==> w'.stepPending == w.stepPending)
  {
    hide AirStep, N.MaybeNotify, N.Allowed, N.OnResult;
    if AirEvent(ev) { AirStaysInItsLane(s, ev, now); }
    if ev.LinkSampled? && ev.up.Some? {
      var up: bool := ev.up.value;
      assert ev.up == Some(up);
    }
  }

  lemma {:induction false} LinkLedger(cfg: Config, run: seq<Stamped>, i: nat)
    requires i <= |run|
    ensures var w := StateAt(cfg, run, i).wired; w.linkSampleSeen || w.ethLink.None?
  {
    hide React;
    if i > 0 {
      LinkLedger(cfg, run, i - 1);
      WiredStep(StateAt(cfg, run, i - 1), run[i - 1].ev, run[i - 1].now);
    }
  }

  /** Once known, the link state never reverts to unknown. */
  lemma {:induction false} LinkStaysKnown(cfg: Config, run: seq<Stamped>, i: nat, j: nat)
    requires i <= j <= |run| && StateAt(cfg, run, i).wired.ethLink.Some?
    ensures StateAt(cfg, run, j).wired.ethLink.Some?
  {
    hide React;
    if i < j {
      LinkStaysKnown(cfg, run, i, j - 1);
      LinkLedger(cfg, run, j - 1);
      WiredStep(StateAt(cfg, run, j - 1), run[j - 1].ev, run[j - 1].now);
    }
  }

  /** From the answer of a step on, the deadline it set is honoured. */
  lemma {:induction false} DeadlineHeld(cfg: Config, run: seq<Stamped>, i: nat, j: nat)
    requires Monotone(run) && i < j <= |run| && SteppedAt(cfg, run, i)
    requires forall k | i < k < j :: !run[k].ev.WatchdogStepped?
    ensures var w := StateAt(cfg, run, j).wired; var due := run[i].now + run[i].ev.delay;
            && (w.deadline.None? || w.deadline == Some(due))
            && (w.stepPending ==> run[j - 1].now >= due)
            && StateAt(cfg, run, j).started
  {
    hide React;
    LinkLedger(cfg, run, j - 1);
    WiredStep(StateAt(cfg, run, j - 1), run[j - 1].ev, run[j - 1].now);
    if i + 1 < j { DeadlineHeld(cfg, run, i, j - 1); }
    StaysStarted(StateAt(cfg, run, j - 1), run[j - 1].ev, run[j - 1].now);
  }

  lemma StaysStarted(s: Core, ev: Event, now: nat)
    requires s.started
    ensures React(s, ev, now).core.started
  {
    hide AirStep;
  }

  /** Backoff is never fragmented: after a watchdog step asked to be left alone for
      `delay`, no storm of events brings the next step forward. Only a manual redial or the
      cable coming back may. */
  lemma BackoffIsNeverFragmented(cfg: Config, run: seq<Stamped>, i: nat, j: nat)
    requires Monotone(run) && i < j < |run| && SteppedAt(cfg, run, i)
    requires forall k | i < k < j :: !run[k].ev.WatchdogStepped?
    requires Steps(EffectsAt(cfg, run, j))
    ensures || run[j].ev == Commanded(Redial)
            || LinkRestored(StateAt(cfg, run, j).wired, run[j].ev)
            || run[j].now >= run[i].now + run[i].ev.delay
  {
    hide React;
    LinkLedger(cfg, run, j);
    WiredStep(StateAt(cfg, run, j), run[j].ev, run[j].now);
    DeadlineHeld(cfg, run, i, j);
  }

  /** Call `i` demands a step for no other reason than a due deadline. */
  ghost predicate TimerStep(cfg: Config, run: seq<Stamped>, i: nat)
    requires i < |run|
  {
    Steps(EffectsAt(cfg, run, i)) && run[i].ev != Commanded(Redial) && !LinkRestored(StateAt(cfg, run, i).wired, run[i].ev)
  }

  ghost function TimerSteps(cfg: Config, run: seq<Stamped>, i: nat): nat
    requires i <= |run|
  {
    if i == 0 then 0 else TimerSteps(cfg, run, i - 1) + if TimerStep(cfg, run, i - 1) then 1 else 0
  }

  ghost function StepsAnswered(cfg: Config, run: seq<Stamped>, i: nat): nat
    requires i <= |run|
  {
    if i == 0 then 0 else StepsAnswered(cfg, run, i - 1) + if SteppedAt(cfg, run, i - 1) then 1 else 0
  }

  /** Conservation of deadlines: one is armed at the start and one by each answered step,
      and each timer step uses one up. */
  lemma {:induction false} TimerStepsAreBudgeted(cfg: Config, run: seq<Stamped>, i: nat)
    requires i <= |run|
    ensures var s := StateAt(cfg, run, i);
            && TimerSteps(cfg, run, i) + (if !s.started || s.wired.deadline.Some? || s.wired.stepPending then 1 else 0)
               <= 1 + StepsAnswered(cfg, run, i)
            && !(s.wired.deadline.Some? && s.wired.stepPending)
            && (!s.started ==> !s.wired.stepPending)
  {
    hide React;
    if i > 0 {
      TimerStepsAreBudgeted(cfg, run, i - 1);
      LinkLedger(cfg, run, i - 1);
      StartedOrNew(cfg, run, i - 1);
      WiredStep(StateAt(cfg, run, i - 1), run[i - 1].ev, run[i - 1].now);
      if StateAt(cfg, run, i - 1).started { StaysStarted(StateAt(cfg, run, i - 1), run[i - 1].ev, run[i - 1].now); }
    }
  }

  lemma PollStep(s: Core, ev: Event, now: nat)
    ensures var w, w' := s.wired, React(s, ev, now).core.wired;
            && (s.started ==> w'.linkPollAt == w.linkPollAt || w'.linkPollAt == now + LINK_POLL_MS)
            && (!s.started ==> w'.linkPollAt == if ev.Started? then now else w.linkPollAt)
            && (React(s, ev, now).core.started <==> s.started || ev.Started?)
  {
    hide AirStep, N.MaybeNotify, N.Allowed, N.OnResult, WakeAir, StartAir;
  }

  lemma {:induction false} PollSoon(cfg: Config, run: seq<Stamped>, i: nat)
    requires Monotone(run) && 0 < i <= |run| && StateAt(cfg, run, i).started
    ensures StateAt(cfg, run, i).wired.linkPollAt <= run[i - 1].now + LINK_POLL_MS
  {
    hide React;
    PollStep(StateAt(cfg, run, i - 1), run[i - 1].ev, run[i - 1].now);
    if StateAt(cfg, run, i - 1).started { PollSoon(cfg, run, i - 1); }
  }

  lemma WakeLeavesNothingDue(s: Core, now: nat)
    requires s.Running()
    ensures var r := OnWake(s, now).core;
            && r.wired.linkPollAt > now
            && (r.wired.deadline.Some? ==> r.wired.deadline.value > now)
            && (r.air.brain.Some? ==> r.air.tickAt > now)
  {}

  /** The executor neither oversleeps nor spins: whatever was handled, the next wake-up is
      at most two seconds away, and after a Wake it lies strictly in the future. */
  lemma WakeWindow(cfg: Config, run: seq<Stamped>, i: nat)
    requires Monotone(run) && i < |run| && StateAt(cfg, run, i + 1).Running()
    ensures var at := StateAt(cfg, run, i + 1).WakeAt(run[i].now);
            && at.Some? && run[i].now <= at.value <= run[i].now + LINK_POLL_MS
            && (run[i].ev.Wake? && StateAt(cfg, run, i).Running() ==> run[i].now < at.value)
  {
    PollSoon(cfg, run, i + 1);
    if StateAt(cfg, run, i).Running() {
      WakeLeavesNothingDue(StateAt(cfg, run, i), run[i].now);
    }
  }

  /** The instants something is due at: the link poll, the deadline, the beat of a living takeover. */
  function Timers(s: Core): set<nat> {
    {s.wired.linkPollAt}
    + (if s.wired.deadline.Some? then {s.wired.deadline.value} else {})
    + (if s.air.brain.Some? then {s.air.tickAt} else {})
  }

  /** And it sleeps until the first thing that is due, no longer and no shorter; before the start
      and after the stop it does not wake at all. */
  lemma WakesForTheFirst(s: Core, now: nat)
    ensures var at := s.WakeAt(now);
            && (at.Some? <==> s.started && !s.stopped)
            && (at.Some? ==>
                  && at.value >= now && (at.value > now ==> at.value in Timers(s))
                  && forall t | t in Timers(s) && t >= now :: at.value <= t)
            && (at.Some? && (exists t :: t in Timers(s) && t <= now) ==> at.value == now)
  {}
}
