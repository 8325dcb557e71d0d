/** What every beat of the wireless takeover does, phase by phase, over whole lives of the
    supervisor. When the takeover leaves Off and when it lets go in exclusive mode is the
    subject of DebounceRuns. */
module BeatRuns {
  import opened Types
  import opened Supervisor
  import opened SupervisorRuns
  import opened TakeoverRuns
  import D = DebounceRuns
  import N = Notifications
  import WB = WirelessBrain

  /** Call `i` is a beat: a sample that was asked for, heard by a living takeover. */
  ghost predicate BeatAt(cfg: Config, run: seq<Stamped>, i: nat)
    requires i < |run|
  {
    var s := StateAt(cfg, run, i); Accepts(s, run[i].ev, AirSample) && s.air.brain.Some?
  }

  ghost predicate AddressAt(run: seq<Stamped>, i: nat)
    requires i < |run| && run[i].ev.WirelessSampled?
  {
    run[i].ev.associated && run[i].ev.wlan.Some?
  }

  /** Nothing is demanded of the WLAN but, perhaps, its metric. */
  predicate Idles(effects: seq<Effect>) {
    Associate !in effects && Disassociate !in effects && !Emits(effects, Login) && !Emits(effects, AirProbe)
  }

  /** A fresh association is demanded, unless one is already out, and nothing else. */
  predicate Associates(effects: seq<Effect>, out: bool) {
    && (Associate in effects <==> !out)
    && Disassociate !in effects && !Emits(effects, Login) && !Emits(effects, AirProbe)
  }

  /** A login is demanded, unless one is already out, and nothing else. */
  predicate LogsIn(effects: seq<Effect>, out: bool) {
    && (Emits(effects, Login) <==> !out)
    && Associate !in effects && Disassociate !in effects && !Emits(effects, AirProbe)
  }

  /** A beat, in terms of the phase it meets. `x` is what it leaves and demands. */
  ghost predicate Table(mode: NetMode, side: WiredSide, r: WirelessSide, associated: bool, now: nat, x: AirReaction)
    requires r.brain.Some? && x.side.brain.Some? && r.brain.value.Coherent()
  {
    var b, after, e := r.brain.value, x.side.brain.value, x.effects;
    var joined := if StaleJoin(r, now) then Off else Joining;
    var address := associated && r.wlan.Some?;
    if !Wanted(mode, side) then
      && Associate !in e && !Emits(e, Login) && !Emits(e, AirProbe)
      && (Disassociate in e ==> after.phase == Off)
      && (Disassociate !in e ==> after.phase == if b.phase == Joining then joined else b.phase)
    else
      match b.phase
      case Off =>
        if mode == WiredPlusStandby then Associates(e, r.associateInFlight) && after.phase == joined
        else if Associate in e then Associates(e, false) && after.phase == joined
        else Idles(e) && after.phase in {Off, joined}
      case Error =>
        if now / 1000 >= b.nextAuthAt.value then Associates(e, r.associateInFlight) && after.phase == joined
        else Idles(e) && after.phase == Error && after.nextAuthAt == b.nextAuthAt
      case Joining =>
        if !address then Idles(e) && after.phase == joined
        else if r.authInFlight || r.wlan.value.gateway.Some? then LogsIn(e, r.authInFlight) && after.phase == Authing
        else Idles(e) && after.phase == Error
      case Authing => Idles(e) && after.phase == Authing
      case Online =>
        if r.verdict == Some(Kicked) then
          if r.authInFlight || (r.wlan.Some? && r.wlan.value.gateway.Some?)
          then LogsIn(e, r.authInFlight) && after.phase == Authing
          else Idles(e) && after.phase == Error
        else if !address then Associates(e, r.associateInFlight) && after.phase == joined
        else
          var due := b.lastProbeAt.None? || now / 1000 - b.lastProbeAt.value >= b.probeInterval;
          && after.phase == Online
          && Associate !in e && Disassociate !in e && !Emits(e, Login)
          && (Emits(e, AirProbe) <==> due && !r.probeInFlight)
          && after.lastProbeAt == if due then Some(now / 1000) else b.lastProbeAt
  }

  // --- from the decision to the table ----------------------------------------------

  lemma DecideWanted(b: WB.State, w: WB.World)
    requires b.Coherent() && (b.mode == WiredPlusStandby || !w.WiredHealthy())
    ensures var (b', a) := WB.Decide(b, w);
            match b.phase
            case Off =>
              if b.mode == WiredPlusStandby || a == WB.Associate then a == WB.Associate && b'.phase == Joining
              else a == WB.NoAction && b'.phase == Off
            case Error =>
              if w.now >= b.nextAuthAt.value then a == WB.Associate && b'.phase == Joining
              else a == WB.NoAction && b'.phase == Error && b'.nextAuthAt == b.nextAuthAt
            case Joining =>
              if w.wlanAssociated && w.wlanIp then a == WB.PortalAuth && b'.phase == Authing
              else a == WB.NoAction && b'.phase == Joining
            case Authing => a == WB.NoAction && b'.phase == Authing
            case Online =>
              if w.probe == Some(Kicked) then a == WB.PortalAuth && b'.phase == Authing
              else if !(w.wlanAssociated && w.wlanIp) then a == WB.Associate && b'.phase == Joining
              else
                var due := b.lastProbeAt.None? || w.now - b.lastProbeAt.value >= b.probeInterval;
                a == (if due then WB.ProbeNow else WB.NoAction) && b'.phase == Online
                && b'.lastProbeAt == if due then Some(w.now) else b.lastProbeAt
  {}

  lemma DecideUnwanted(b: WB.State, w: WB.World)
    requires b.mode == WiredExclusive && w.WiredHealthy()
    ensures var (b', a) := WB.Decide(b, w);
            (a == WB.Disassociate && b'.phase == Off) || (a == WB.NoAction && b'.phase == b.phase)
  {}

  lemma CarryLeaves(cfg: Config, r: WirelessSide, b: WB.State, action: WB.Action, secs: nat)
    requires r.brain == Some(b) && cfg.targetsParse
    requires action == WB.ProbeNow ==> r.wlan.Some?
    ensures var h := Carry(cfg, r, b, action, secs); var failed := action == WB.PortalAuth && !r.authInFlight
                                                                   && (r.wlan.None? || r.wlan.value.gateway.None?);
            && h.side.brain.Some? && (h.proceed <==> !failed)
            && (if failed then h.side.brain.value.phase == Error else h.side.brain.value == b)
            && (action != WB.Disassociate ==> h.side.joinSince == r.joinSince)
  {}

  lemma JoinTimeoutLeaves(r: WirelessSide, now: nat)
    requires r.brain.Some?
    ensures var x := JoinTimeout(r, now); var p := r.brain.value.phase;
            && x.brain.Some?
            && (if p == Joining && StaleJoin(r, now) then x.brain.value.phase == Off else x.brain.value == r.brain.value)
  {}

  /** Where a beat leaves the brain: as decided, but a login without a gateway fails on the
      spot and a stale join starts over. */
  lemma BeatLeaves(cfg: Config, mode: NetMode, side: WiredSide, r: WirelessSide, associated: bool, now: nat)
    requires r.brain.Some? && cfg.targetsParse
    requires var (b, action) := WB.Decide(r.brain.value.(mode := mode), WorldOf(side, r, associated, now));
             (action == WB.ProbeNow ==> r.wlan.Some?) && (action == WB.Disassociate ==> b.phase == Off)
    ensures var (b, action) := WB.Decide(r.brain.value.(mode := mode), WorldOf(side, r, associated, now));
            var x := BeatOf(cfg, mode, side, r, associated, now).side;
            && x.brain.Some?
            && (if action == WB.PortalAuth && !r.authInFlight && (r.wlan.None? || r.wlan.value.gateway.None?)
                then x.brain.value.phase == Error
                else if b.phase == Joining && StaleJoin(r, now) then x.brain.value.phase == Off
                else x.brain.value == b)
  {
    hide WB.Decide, Carry, JoinTimeout, MetricEffects;
    var (b, action) := WB.Decide(r.brain.value.(mode := mode), WorldOf(side, r, associated, now));
    CarryLeaves(cfg, r.(brain := Some(b)), b, action, now / 1000);
    JoinTimeoutLeaves(Carry(cfg, r.(brain := Some(b)), b, action, now / 1000).side, now);
  }

  lemma BeatByTable(cfg: Config, mode: NetMode, side: WiredSide, r: WirelessSide, associated: bool, now: nat)
    requires r.brain.Some? && r.brain.value.Coherent() && cfg.targetsParse
    ensures var x := BeatOf(cfg, mode, side, r, associated, now);
            x.side.brain.Some? && Table(mode, side, r, associated, now, x)
  {
    hide BeatOf, WB.Decide, Emits;
    var b0 := r.brain.value.(mode := mode);
    var w := WorldOf(side, r, associated, now);
    if Wanted(mode, side) { DecideWanted(b0, w); } else { DecideUnwanted(b0, w); }
    BeatLeaves(cfg, mode, side, r, associated, now);
    BeatDemandsTheDecision(cfg, mode, side, r, associated, now);
  }

  /** In every run, whatever the mode, every beat follows the table: standby mode brings the WLAN
      up from Off, a lost association or address is made good, a due retry associates, a probe
      goes out exactly when it is due and none is out, an outstanding login is waited for, and a
      healthy wire in exclusive mode demands nothing but, perhaps, to let go. */
  lemma EveryBeatFollowsTheTable(cfg: Config, run: seq<Stamped>, i: nat)
    requires Monotone(run) && i < |run| && BeatAt(cfg, run, i)
    ensures var s, t := StateAt(cfg, run, i), StateAt(cfg, run, i + 1);
            && t.air.brain.Some? && s.air.brain.value.Coherent()
            && Table(s.mode, s.wired, s.air.(wlan := run[i].ev.wlan), run[i].ev.associated, run[i].now,
                     AirReaction(t.air, EffectsAt(cfg, run, i)))
  {
    hide React, BeatOf, Table, Emits;
    var s, ev, now := StateAt(cfg, run, i), run[i].ev, run[i].now;
    TakeoverNeverWaitsOnNothing(cfg, run, i);
    ReactAir(s, ev, now);
    var r := s.air.(sampleInFlight := false, wlan := ev.wlan);
    BeatByTable(s.cfg, s.mode, s.wired, r, ev.associated, now);
    TableIgnoresTheFlag(s.mode, s.wired, s.air.(wlan := ev.wlan), r, ev.associated, now,
                        BeatOf(s.cfg, s.mode, s.wired, r, ev.associated, now));
  }

  lemma TableIgnoresTheFlag(mode: NetMode, side: WiredSide, r: WirelessSide, r': WirelessSide, associated: bool, now: nat, x: AirReaction)
    requires r.brain.Some? && x.side.brain.Some? && r.brain.value.Coherent() && r' == r.(sampleInFlight := false)
    requires Table(mode, side, r', associated, now, x)
    ensures Table(mode, side, r, associated, now, x)
  {
    hide Emits;
  }

  /** Standby mode brings the WLAN up. */
  lemma StandbyComesUp(cfg: Config, run: seq<Stamped>, i: nat)
    requires Monotone(run) && i < |run| && BeatAt(cfg, run, i)
    requires StateAt(cfg, run, i).mode == WiredPlusStandby && PhaseAt(cfg, run, i) == Off
    ensures Associate in EffectsAt(cfg, run, i) <==> !StateAt(cfg, run, i).air.associateInFlight
    ensures PhaseAt(cfg, run, i + 1) == if StaleJoin(StateAt(cfg, run, i).air, run[i].now) then Off else Joining
  {
    hide React, Emits;
    EveryBeatFollowsTheTable(cfg, run, i);
  }

  // --- what a probe is sent over ---------------------------------------------------

  lemma ProbesGoOutOverTheSample(cfg: Config, mode: NetMode, side: WiredSide, r: WirelessSide, associated: bool, now: nat)
    requires r.brain.Some?
    ensures forall e | e in BeatOf(cfg, mode, side, r, associated, now).effects && e.WlanProbe? ::
              r.wlan.Some? && e == WlanProbe(r.wlan.value.ipv4, r.wlan.value.gateway)
  {
    hide WB.Decide, JoinTimeout, WB.OnAuth;
    var (b, action) := WB.Decide(r.brain.value.(mode := mode), WorldOf(side, r, associated, now));
    CarryProbes(cfg, r.(brain := Some(b)), b, action, now / 1000);
    hide Carry, MetricEffects;
    var h := Carry(cfg, r.(brain := Some(b)), b, action, now / 1000);
    MetricOnly(cfg, mode, side.Healthy(), h.side.wlan);
  }

  lemma CarryProbes(cfg: Config, r: WirelessSide, b: WB.State, action: WB.Action, secs: nat)
    ensures forall e | e in Carry(cfg, r, b, action, secs).effects && e.WlanProbe? ::
              r.wlan.Some? && e == WlanProbe(r.wlan.value.ipv4, r.wlan.value.gateway)
  {
    hide WB.OnAuth;
  }
}
