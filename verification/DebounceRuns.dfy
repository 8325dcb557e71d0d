/** The debounce of the wireless takeover over whole lives of the supervisor. */
module DebounceRuns {
  import opened Types
  import opened Supervisor
  import opened SupervisorRuns
  import opened TakeoverRuns
  import N = Notifications
  import WB = WirelessBrain

  /** Call `m` is a beat: a sample that was asked for, heard by a living takeover in exclusive mode. */
  ghost predicate ExclusiveBeat(cfg: Config, run: seq<Stamped>, m: nat)
    requires m < |run|
  {
    var s := StateAt(cfg, run, m);
    Accepts(s, run[m].ev, AirSample) && s.air.brain.Some? && s.mode == WiredExclusive
  }

  ghost predicate HealthyAt(cfg: Config, run: seq<Stamped>, m: nat)
    requires m < |run|
  {
    StateAt(cfg, run, m).wired.Healthy()
  }

  /** Calls `k..i` open with an exclusive beat, and every exclusive beat among them saw the
      wired side in the same health. */
  ghost predicate Streak(cfg: Config, run: seq<Stamped>, k: nat, i: nat, healthy: bool)
    requires k < i <= |run|
  {
    && ExclusiveBeat(cfg, run, k)
    && forall m | k <= m < i && ExclusiveBeat(cfg, run, m) :: HealthyAt(cfg, run, m) == healthy
  }

  /** The wired side has been in this health for `span` seconds of exclusive beats, ending with call `j`. */
  ghost predicate Sustained(cfg: Config, run: seq<Stamped>, j: nat, healthy: bool, span: nat)
    requires j < |run|
  {
    exists k: nat | k <= j && Streak(cfg, run, k, j + 1, healthy) :: run[j].now / 1000 - run[k].now / 1000 >= span
  }

  function Stamp(r: WirelessSide, healthy: bool): Option<nat> {
    if r.brain.Some? then WB.Stamp(r.brain.value, healthy) else None
  }

  predicate SameSetup(b: WB.State, b': WB.State) {
    b'.takeoverAfter == b.takeoverAfter && b'.releaseAfter == b.releaseAfter
  }

  // --- what one event does to a stamp --------------------------------------------

  lemma CarryKeepsStamps(cfg: Config, r: WirelessSide, b: WB.State, action: WB.Action, secs: nat, healthy: bool)
    requires r.brain == Some(b)
    ensures var x := Carry(cfg, r, b, action, secs).side;
            x.brain.Some? && WB.Stamp(x.brain.value, healthy) == WB.Stamp(b, healthy) && SameSetup(b, x.brain.value)
  {}

  lemma JoinTimeoutKeepsStamps(r: WirelessSide, now: nat, healthy: bool)
    requires r.brain.Some?
    ensures var x := JoinTimeout(r, now);
            && x.brain.Some? && SameSetup(r.brain.value, x.brain.value)
            && WB.Stamp(x.brain.value, healthy) == WB.Stamp(r.brain.value, healthy)
  {}

  lemma BeatStamp(cfg: Config, mode: NetMode, side: WiredSide, r: WirelessSide, associated: bool, now: nat, healthy: bool)
    requires r.brain.Some?
    ensures var x := BeatOf(cfg, mode, side, r, associated, now).side;
            var before, after := Stamp(r, healthy), Stamp(x, healthy);
            && x.brain.Some? && SameSetup(r.brain.value, x.brain.value)
            && after == (if mode != WiredExclusive then before
                         else if side.Healthy() != healthy then None
                         else if before.Some? then before else Some(now / 1000))
  {
    hide WB.Decide, Carry, MetricEffects, JoinTimeout;
    var b0 := r.brain.value.(mode := mode);
    var w := WorldOf(side, r, associated, now);
    WB.StampStep(b0, WB.Beats(w), healthy);
    WB.ConfigStep(b0, WB.Beats(w));
    var (b, action) := WB.Decide(b0, w);
    CarryKeepsStamps(cfg, r.(brain := Some(b)), b, action, now / 1000, healthy);
    JoinTimeoutKeepsStamps(Carry(cfg, r.(brain := Some(b)), b, action, now / 1000).side, now, healthy);
  }

  lemma AirStamp(s: Core, ev: Event, now: nat, healthy: bool)
    requires AirEvent(ev) && s.Running()
    ensures var x := AirStep(s.cfg, s.mode, s.wired, s.air, ev, now).side;
            var before, after := Stamp(s.air, healthy), Stamp(x, healthy);
            && (x.brain.Some? ==>
                  && s.air.brain.Some? && SameSetup(s.air.brain.value, x.brain.value)
                  && after == (if !(Accepts(s, ev, AirSample) && s.mode == WiredExclusive) then before
                               else if s.wired.Healthy() != healthy then None
                               else if before.Some? then before else Some(now / 1000)))
  {
    hide BeatOf;
    if ev.WirelessSampled? && s.air.sampleInFlight && s.air.brain.Some? {
      BeatStamp(s.cfg, s.mode, s.wired, s.air.(sampleInFlight := false, wlan := ev.wlan), ev.associated, now, healthy);
    }
  }

  lemma StampStep(s: Core, ev: Event, now: nat, healthy: bool)
    ensures var x := React(s, ev, now).core.air;
            var before, after := Stamp(s.air, healthy), Stamp(x, healthy);
            && (x.brain.Some? ==>
                  && s.air.brain.Some? && SameSetup(s.air.brain.value, x.brain.value)
                  && after == (if !(Accepts(s, ev, AirSample) && s.mode == WiredExclusive) then before
                               else if s.wired.Healthy() != healthy then None
                               else if before.Some? then before else Some(now / 1000)))
  {
    if s.Running() && AirEvent(ev) {
      hide React, AirStep;
      ReactAir(s, ev, now);
      AirStamp(s, ev, now, healthy);
    } else {
      hide AirStep, WakeWired, LinkArrives, N.MaybeNotify, N.Allowed, N.OnResult;
    }
  }

  // --- along a run -----------------------------------------------------------------

  ghost function StampAt(cfg: Config, run: seq<Stamped>, i: nat, healthy: bool): Option<nat>
    requires i <= |run|
  {
    Stamp(StateAt(cfg, run, i).air, healthy)
  }

  ghost predicate AliveAt(cfg: Config, run: seq<Stamped>, i: nat)
    requires i <= |run|
  {
    StateAt(cfg, run, i).air.brain.Some?
  }

  lemma StampAlong(cfg: Config, run: seq<Stamped>, i: nat, healthy: bool)
    requires 0 < i <= |run| && AliveAt(cfg, run, i)
    ensures AliveAt(cfg, run, i - 1)
    ensures StampAt(cfg, run, i, healthy) ==
            if !ExclusiveBeat(cfg, run, i - 1) then StampAt(cfg, run, i - 1, healthy)
            else if HealthyAt(cfg, run, i - 1) != healthy then None
            else if StampAt(cfg, run, i - 1, healthy).Some? then StampAt(cfg, run, i - 1, healthy)
            else Some(run[i - 1].now / 1000)
  {
    hide React, Accepts, Stamp;
    StampStep(StateAt(cfg, run, i - 1), run[i - 1].ev, run[i - 1].now, healthy);
  }

  lemma NoStampYet(cfg: Config, run: seq<Stamped>, healthy: bool)
    ensures StampAt(cfg, run, 0, healthy) == None
  {}

  /** A stamp is always the time of the first beat of an unbroken streak. */
  lemma {:induction false} StampOpensStreak(cfg: Config, run: seq<Stamped>, i: nat, healthy: bool) returns (k: nat)
    requires i <= |run| && AliveAt(cfg, run, i) && StampAt(cfg, run, i, healthy).Some?
    ensures k < i && Streak(cfg, run, k, i, healthy)
    ensures StampAt(cfg, run, i, healthy) == Some(run[k].now / 1000)
  {
    hide StampAt, ExclusiveBeat, HealthyAt, AliveAt;
    NoStampYet(cfg, run, healthy);
    StampAlong(cfg, run, i, healthy);
    if StampAt(cfg, run, i - 1, healthy).Some? {
      k := StampOpensStreak(cfg, run, i - 1, healthy);
    } else {
      k := i - 1;
    }
  }

  /** Throughout a streak the stamp is set, and it is at least as old as the streak. */
  lemma {:induction false} StreakIsStamped(cfg: Config, run: seq<Stamped>, k: nat, i: nat, healthy: bool)
    requires Monotone(run) && k < i <= |run| && AliveAt(cfg, run, i) && Streak(cfg, run, k, i, healthy)
    ensures StampAt(cfg, run, i, healthy).Some? && StampAt(cfg, run, i, healthy).value <= run[k].now / 1000
  {
    hide StampAt, ExclusiveBeat, HealthyAt, AliveAt;
    StampAlong(cfg, run, i, healthy);
    if i == k + 1 {
      if StampAt(cfg, run, k, healthy).Some? {
        var o := StampOpensStreak(cfg, run, k, healthy);
      }
    } else {
      StreakIsStamped(cfg, run, k, i - 1, healthy);
    }
  }

  /** A sustained health is what the stamp after the beat measures. */
  lemma SustainedByStamp(cfg: Config, run: seq<Stamped>, j: nat, healthy: bool, span: nat)
    requires Monotone(run) && j < |run| && ExclusiveBeat(cfg, run, j) && AliveAt(cfg, run, j + 1)
    ensures var stamp := StampAt(cfg, run, j + 1, healthy);
            Sustained(cfg, run, j, healthy, span) <==>
              HealthyAt(cfg, run, j) == healthy && stamp.Some? && run[j].now / 1000 - stamp.value >= span
  {
    hide StampAt, ExclusiveBeat, HealthyAt, AliveAt;
    if Sustained(cfg, run, j, healthy, span) {
      var k: nat :| k <= j && Streak(cfg, run, k, j + 1, healthy) && run[j].now / 1000 - run[k].now / 1000 >= span;
      StreakIsStamped(cfg, run, k, j + 1, healthy);
    } else if HealthyAt(cfg, run, j) == healthy && StampAt(cfg, run, j + 1, healthy).Some? {
      var k := StampOpensStreak(cfg, run, j + 1, healthy);
    }
  }

  lemma {:induction false} SetupIsKept(cfg: Config, run: seq<Stamped>, i: nat)
    requires i <= |run| && AliveAt(cfg, run, i)
    ensures var b := StateAt(cfg, run, i).air.brain.value; b.takeoverAfter == cfg.takeoverAfter && b.releaseAfter == cfg.releaseAfter
    ensures cfg.targetsParse && StateAt(cfg, run, i).cfg == cfg
  {
    hide React, Stamp;
    if i > 0 {
      StampStep(StateAt(cfg, run, i - 1), run[i - 1].ev, run[i - 1].now, true);
      SetupIsKept(cfg, run, i - 1);
      StartedOrNew(cfg, run, i);
    }
  }

  /** One exclusive beat, in terms of the stamps it leaves. */
  lemma BeatByStamp(s: Core, ev: Event, now: nat)
    requires Accepts(s, ev, AirSample) && s.air.brain.Some? && s.mode == WiredExclusive && s.cfg.targetsParse
    ensures var r := React(s, ev, now); var b := s.air.brain.value; var x := r.core.air;
            && x.brain.Some?
            && (b.phase == Off ==>
                  (Associate in r.effects <==>
                     !s.air.associateInFlight && !s.wired.Healthy() && Stamp(x, false).Some?
                     && now / 1000 - Stamp(x, false).value >= b.takeoverAfter))
            && (b.phase != Off ==>
                  (Disassociate in r.effects <==>
                     s.wired.Healthy() && Stamp(x, true).Some? && now / 1000 - Stamp(x, true).value >= b.releaseAfter))
  {
    hide React, BeatOf, WB.Decide, Emits;
    ReactAir(s, ev, now);
    var r := s.air.(sampleInFlight := false, wlan := ev.wlan);
    var b0 := r.brain.value.(mode := s.mode);
    var w := WorldOf(s.wired, r, ev.associated, now);
    BeatDemandsTheDecision(s.cfg, s.mode, s.wired, r, ev.associated, now);
    WB.BeatByStamp(b0, w);
    BeatStamp(s.cfg, s.mode, s.wired, r, ev.associated, now, false);
    BeatStamp(s.cfg, s.mode, s.wired, r, ev.associated, now, true);
    WB.StampStep(b0, WB.Beats(w), false);
    WB.StampStep(b0, WB.Beats(w), true);
  }

  /** Takeover debounce of the service: in every run, a beat taken in exclusive mode from Off
      demands an association if and only if none is out and the wired side was unhealthy on
      every exclusive beat of a span of at least `takeover_after` seconds. */
  lemma TakeoverIsDebounced(cfg: Config, run: seq<Stamped>, j: nat)
    requires Monotone(run) && j < |run| && ExclusiveBeat(cfg, run, j) && PhaseAt(cfg, run, j) == Off
    ensures Associate in EffectsAt(cfg, run, j) <==>
              !StateAt(cfg, run, j).air.associateInFlight && Sustained(cfg, run, j, false, cfg.takeoverAfter)
  {
    hide React, Accepts, Stamp, Sustained;
    SetupIsKept(cfg, run, j);
    BeatByStamp(StateAt(cfg, run, j), run[j].ev, run[j].now);
    SustainedByStamp(cfg, run, j, false, cfg.takeoverAfter);
  }

  /** Release debounce of the service: a wireless side that is up is let go if and only if the
      wired side was healthy on every exclusive beat of a span of at least `release_after` seconds. */
  lemma ReleaseIsDebounced(cfg: Config, run: seq<Stamped>, j: nat)
    requires Monotone(run) && j < |run| && ExclusiveBeat(cfg, run, j) && PhaseAt(cfg, run, j) != Off
    ensures Disassociate in EffectsAt(cfg, run, j) <==> Sustained(cfg, run, j, true, cfg.releaseAfter)
  {
    hide React, Accepts, Stamp, Sustained;
    SetupIsKept(cfg, run, j);
    BeatByStamp(StateAt(cfg, run, j), run[j].ev, run[j].now);
    SustainedByStamp(cfg, run, j, true, cfg.releaseAfter);
  }
}
