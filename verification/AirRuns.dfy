/** What the wireless takeover remembers, and what it demands, over whole lives of the
    supervisor: its failures, its verdict, its samples, and the exact effects of every beat. */
module AirRuns {
  import opened Types
  import opened Supervisor
  import opened SupervisorRuns
  import opened TakeoverRuns
  import opened BeatRuns
  import opened BeliefRuns
  import N = Notifications
  import WB = WirelessBrain

  // ---------------------------------------------------------------------------
  // How a login ends
  // ---------------------------------------------------------------------------

  /** The beat wants to log in, but there is no gateway to log in over. */
  predicate FailsOnTheSpot(mode: NetMode, side: WiredSide, r: WirelessSide, associated: bool) {
    && r.brain.Some? && Wanted(mode, side) && !r.authInFlight && (r.wlan.None? || r.wlan.value.gateway.None?)
    && match r.brain.value.phase
       case Joining => associated && r.wlan.Some?
       case Online => r.verdict == Some(Kicked)
       case _ => false
  }

  /** The event ends a login, well or badly. */
  predicate Ends(s: Core, ev: Event, ok: bool) {
    || (Accepts(s, ev, Login) && (ok <==> ev.attempt in {Replied(Success), Replied(AlreadyOnline)}))
    || (!ok && Accepts(s, ev, AirSample) && FailsOnTheSpot(s.mode, s.wired, s.air.(wlan := ev.wlan), ev.associated))
  }

  ghost predicate EndsAt(cfg: Config, run: seq<Stamped>, i: nat, ok: bool)
    requires i < |run|
  {
    Ends(StateAt(cfg, run, i), run[i].ev, ok)
  }

  /** Logins that failed since the last one that succeeded. */
  ghost function FailsInARow(cfg: Config, run: seq<Stamped>, i: nat): nat
    requires i <= |run|
  {
    if i == 0 || EndsAt(cfg, run, i - 1, true) then 0
    else FailsInARow(cfg, run, i - 1) + if EndsAt(cfg, run, i - 1, false) then 1 else 0
  }

  /** Five seconds after the first failure in a row, fifteen after the second, thirty from then on. */
  function RetryDelay(fails: nat): nat {
    if fails <= 1 then 5 else if fails == 2 then 15 else 30
  }

  /** What a beat or an answer does to the brain's ledger. */
  predicate Kept(b: WB.State, b': WB.State, s: Core, ev: Event, now: nat) {
    if Ends(s, ev, true) then
      b'.phase == Online && b'.authFailCount == 0 && b'.lastProbeAt.None? && b'.nextAuthAt.None?
    else if Ends(s, ev, false) then
      && b'.phase == Error && b'.authFailCount == Bump32(b.authFailCount)
      && b'.nextAuthAt == Some(now / 1000 + RetryDelay(b'.authFailCount))
    else
      b'.authFailCount == b.authFailCount
  }

  lemma DecideKeepsCount(b: WB.State, w: WB.World)
    requires b.Coherent()
    ensures var (b', a) := WB.Decide(b, w);
            && b'.authFailCount == b.authFailCount && b'.mode == b.mode
            && (a == WB.PortalAuth <==>
                  && (b.mode == WiredPlusStandby || !w.WiredHealthy())
                  && match b.phase
                     case Joining => w.wlanAssociated && w.wlanIp
                     case Online => w.probe == Some(Kicked)
                     case _ => false)
            && (a == WB.PortalAuth ==> b'.phase == Authing)
            && (a == WB.ProbeNow ==> w.wlanIp && b'.phase == Online)
            && (a == WB.Disassociate ==> b'.phase == Off)
  {}

  lemma FailureSchedules(b: WB.State, secs: nat)
    ensures var b' := WB.OnAuth(b, false, secs);
            && b'.phase == Error && b'.authFailCount == Bump32(b.authFailCount)
            && b'.nextAuthAt == Some(secs + RetryDelay(b'.authFailCount)) && b'.mode == b.mode
  {}

  lemma SuccessForgets(b: WB.State, secs: nat)
    ensures var b' := WB.OnAuth(b, true, secs);
            b'.phase == Online && b'.authFailCount == 0 && b'.lastProbeAt.None? && b'.nextAuthAt.None? && b'.mode == b.mode
  {}

  /** What carrying out a decision leaves, when the brain has already moved on to `b`. */
  lemma CarryKeeps(cfg: Config, r: WirelessSide, b: WB.State, action: WB.Action, secs: nat)
    requires r.brain == Some(b) && cfg.targetsParse && (action == WB.ProbeNow ==> r.wlan.Some?)
    ensures var h := Carry(cfg, r, b, action, secs); var x := h.side;
            var spot := action == WB.PortalAuth && !r.authInFlight && (r.wlan.None? || r.wlan.value.gateway.None?);
            && (h.proceed <==> !spot)
            && x.brain == Some(if spot then WB.OnAuth(b, false, secs) else b)
            && x.verdict == (if spot || action == WB.Disassociate then None else r.verdict)
            && x.joinSince == (if action == WB.Disassociate then None else r.joinSince)
            && x.wlan == r.wlan && x.died == r.died && x.tickAt == r.tickAt && x.sampleInFlight == r.sampleInFlight
  {}

  lemma JoinTimeoutKeeps(r: WirelessSide, now: nat)
    requires r.brain.Some?
    ensures var x := JoinTimeout(r, now); var b := r.brain.value;
            && x.brain.Some? && x.brain.value.authFailCount == b.authFailCount && x.brain.value.mode == b.mode
            && x == r.(brain := x.brain, joinSince := if b.phase == Joining && StaleJoin(r, now) then None else r.joinSince)
            && (b.phase != Joining ==> x == r)
  {}

  /** What the brain makes of this beat. */
  function Decision(mode: NetMode, side: WiredSide, r: WirelessSide, associated: bool, now: nat): (WB.State, WB.Action)
    requires r.brain.Some?
  {
    WB.Decide(r.brain.value.(mode := mode), WorldOf(side, r, associated, now))
  }

  /** A login is decided, and fails on the spot, exactly without a gateway. */
  lemma DecisionKeeps(mode: NetMode, side: WiredSide, r: WirelessSide, associated: bool, now: nat)
    requires r.brain.Some? && r.brain.value.Coherent()
    ensures var (b, action) := Decision(mode, side, r, associated, now);
            && b.authFailCount == r.brain.value.authFailCount && b.mode == mode
            && (FailsOnTheSpot(mode, side, r, associated) <==>
                  action == WB.PortalAuth && !r.authInFlight && (r.wlan.None? || r.wlan.value.gateway.None?))
            && (action == WB.PortalAuth ==> b.phase == Authing)
            && (action == WB.ProbeNow ==> r.wlan.Some?)
            && (action == WB.Disassociate ==> b.phase == Off)
  {
    hide WB.Decide;
    DecideKeepsCount(r.brain.value.(mode := mode), WorldOf(side, r, associated, now));
  }

  /** What a beat leaves, when the brain's decision is `action` and its new state `b`. */
  predicate Left(r: WirelessSide, x: WirelessSide, b: WB.State, action: WB.Action, spot: bool, now: nat) {
    && x.brain.Some? && x.brain.value.mode == b.mode
    && x.brain.value.authFailCount == (if spot then Bump32(b.authFailCount) else b.authFailCount)
    && (spot ==> x.brain.value.phase == Error
                 && x.brain.value.nextAuthAt == Some(now / 1000 + RetryDelay(x.brain.value.authFailCount)))
    && x.verdict == (if spot || action == WB.Disassociate then None else r.verdict)
    && x.joinSince == (if action == WB.Disassociate || (b.phase == Joining && StaleJoin(r, now)) then None else r.joinSince)
    && x.wlan == r.wlan && x.died == r.died && x.tickAt == r.tickAt && x.sampleInFlight == r.sampleInFlight
  }

  lemma BeatKeeps(cfg: Config, mode: NetMode, side: WiredSide, r: WirelessSide, associated: bool, now: nat)
    requires r.brain.Some? && r.brain.value.Coherent() && cfg.targetsParse
    ensures var x := BeatOf(cfg, mode, side, r, associated, now).side; var (b, action) := Decision(mode, side, r, associated, now);
            && Left(r, x, b, action, FailsOnTheSpot(mode, side, r, associated), now)
            && b.authFailCount == r.brain.value.authFailCount && b.mode == mode
  {
    hide WB.Decide, WorldOf, Carry, JoinTimeout, MetricEffects, WB.OnAuth, FailsOnTheSpot, StaleJoin, WB.State.Coherent, RetryDelay;
    DecisionKeeps(mode, side, r, associated, now);
    var (b, action) := Decision(mode, side, r, associated, now);
    CarryKeeps(cfg, r.(brain := Some(b)), b, action, now / 1000);
    FailureSchedules(b, now / 1000);
    var x := Carry(cfg, r.(brain := Some(b)), b, action, now / 1000).side;
    JoinTimeoutKeeps(x, now);
    SameJoin(r, x, now);
  }

  lemma SameJoin(r: WirelessSide, x: WirelessSide, now: nat)
    ensures r.joinSince == x.joinSince ==> StaleJoin(r, now) == StaleJoin(x, now)
    ensures x.joinSince.None? ==> !StaleJoin(x, now)
  {}

  // ---------------------------------------------------------------------------
  // Failures are counted, and retried later and later
  // ---------------------------------------------------------------------------

  lemma BeatLedger(s: Core, ev: Event, now: nat)
    requires Accepts(s, ev, AirSample) && s.air.brain.Some? && s.air.brain.value.Coherent() && s.cfg.targetsParse
    ensures var x := React(s, ev, now).core.air;
            x.brain.Some? && Kept(s.air.brain.value, x.brain.value, s, ev, now) && x.brain.value.mode == s.mode
  {
    hide React, BeatOf, WB.Decide, WorldOf, StaleJoin, WB.State.Coherent, RetryDelay;
    var r := s.air.(sampleInFlight := false, wlan := ev.wlan);
    ReactAir(s, ev, now);
    BeatKeeps(s.cfg, s.mode, s.wired, r, ev.associated, now);
    SpotIgnoresTheFlag(s.mode, s.wired, s.air.(wlan := ev.wlan), r, ev.associated);
    hide FailsOnTheSpot;
  }

  lemma SpotIgnoresTheFlag(mode: NetMode, side: WiredSide, r: WirelessSide, r': WirelessSide, associated: bool)
    requires r' == r.(sampleInFlight := false)
    ensures FailsOnTheSpot(mode, side, r, associated) == FailsOnTheSpot(mode, side, r', associated)
  {}

  lemma LoggedInMeans(attempt: PortalAttempt)
    ensures LoggedIn(attempt) <==> attempt in {Replied(Success), Replied(AlreadyOnline)}
  {}

  lemma AnswerLedger(s: Core, ev: Event, now: nat)
    requires s.Running() && AirEvent(ev) && !Accepts(s, ev, AirSample) && s.air.brain.Some?
    ensures var x := React(s, ev, now).core.air;
            x.brain.Some? ==> Kept(s.air.brain.value, x.brain.value, s, ev, now) && x.brain.value.mode == s.air.brain.value.mode
  {
    hide React, WB.OnAuth, LoggedIn, BeatOf, FailsOnTheSpot, RetryDelay;
    ReactAir(s, ev, now);
    FailureSchedules(s.air.brain.value, now / 1000);
    SuccessForgets(s.air.brain.value, now / 1000);
    if ev.PortalFinished? { LoggedInMeans(ev.attempt); }
  }

  /** No other event touches the brain, but a change of mode. */
  lemma OtherLedger(s: Core, ev: Event, now: nat)
    requires s.Running() && !AirEvent(ev) && s.air.brain.Some?
    ensures var x := React(s, ev, now).core.air;
            && !Ends(s, ev, true) && !Ends(s, ev, false) && x.authInFlight == s.air.authInFlight
            && x.brain == Some(s.air.brain.value.(mode := if ev.Commanded? && ev.cmd.SetMode? then ev.cmd.mode
                                                          else s.air.brain.value.mode))
  {
    hide AirStep, WakeWired, LinkArrives, StepArrives, WorthATell, Toast, N.OnResult, FailsOnTheSpot;
  }

  lemma IdleLedger(s: Core, ev: Event, now: nat)
    requires !s.Running()
    ensures React(s, ev, now).core.air.brain == s.air.brain && !Ends(s, ev, true) && !Ends(s, ev, false)
    ensures React(s, ev, now).core.mode == s.mode
  {}

  /** The saturating counter of a brain in the run. */
  function Saturated(n: nat): nat { Min(n, U32_MAX) }

  /** In every run the brain counts the logins that failed since the last success, and shares
      the supervisor's mode. */
  lemma {:induction false} FailuresAreCounted(cfg: Config, run: seq<Stamped>, i: nat)
    requires Monotone(run) && i <= |run|
    ensures var s := StateAt(cfg, run, i);
            s.air.brain.Some? ==>
              s.air.brain.value.authFailCount == Saturated(FailsInARow(cfg, run, i)) && s.air.brain.value.mode == s.mode
  {
    hide React, Ends, WaitsOnSomething, WB.State.Coherent;
    if i > 0 {
      FailuresAreCounted(cfg, run, i - 1);
      var s, ev, now := StateAt(cfg, run, i - 1), run[i - 1].ev, run[i - 1].now;
      TakeoverNeverWaitsOnNothing(cfg, run, i - 1);
      LedgerStep(cfg, run, i - 1);
      OtherBeliefs(s, ev, now);
      NeverBoth(s, ev);
    }
  }

  lemma NeverBoth(s: Core, ev: Event)
    ensures !(Ends(s, ev, true) && Ends(s, ev, false))
  {}

  lemma LedgerStep(cfg: Config, run: seq<Stamped>, i: nat)
    requires Monotone(run) && i < |run|
    ensures var s, t := StateAt(cfg, run, i), StateAt(cfg, run, i + 1);
            t.air.brain.Some? ==>
              && s.air.brain.Some? && Kept(s.air.brain.value, t.air.brain.value, s, run[i].ev, run[i].now)
              && t.air.brain.value.mode ==
                   if Accepts(s, run[i].ev, AirSample) then s.mode
                   else if s.Running() && run[i].ev.Commanded? && run[i].ev.cmd.SetMode? then run[i].ev.cmd.mode
                   else s.air.brain.value.mode
  {
    hide React, Ends, Accepts;
    var s, ev, now := StateAt(cfg, run, i), run[i].ev, run[i].now;
    TakeoverNeverWaitsOnNothing(cfg, run, i);
    StepWaits(s, ev, now);
    if !s.Running() {
      IdleLedger(s, ev, now);
    } else if s.air.brain.Some? {
      if Accepts(s, ev, AirSample) {
        BeatLedger(s, ev, now);
      } else if AirEvent(ev) {
        AnswerLedger(s, ev, now);
      } else {
        OtherLedger(s, ev, now);
      }
    }
    NotACommand(s, ev);
  }

  lemma NotACommand(s: Core, ev: Event)
    ensures Accepts(s, ev, AirSample) ==> s.Running() && !ev.Commanded?
  {}

  /** In every run a login that ends badly is retried five seconds later, after a second failure
      in a row fifteen, from the third on thirty; one that ends well leaves nothing due and no
      probe remembered. */
  lemma RetriesFollowTheCount(cfg: Config, run: seq<Stamped>, i: nat)
    requires Monotone(run) && i < |run| && StateAt(cfg, run, i + 1).air.brain.Some?
    ensures var b := StateAt(cfg, run, i + 1).air.brain.value;
            && (EndsAt(cfg, run, i, false) ==>
                  b.phase == Error && b.nextAuthAt == Some(run[i].now / 1000 + RetryDelay(FailsInARow(cfg, run, i + 1))))
            && (EndsAt(cfg, run, i, true) ==> b.phase == Online && b.nextAuthAt.None? && b.lastProbeAt.None?)
  {
    hide React, Ends;
    LedgerStep(cfg, run, i);
    FailuresAreCounted(cfg, run, i + 1);
    NeverBoth(StateAt(cfg, run, i), run[i].ev);
  }

  // ---------------------------------------------------------------------------
  // The first beat after a login probes
  // ---------------------------------------------------------------------------

  lemma QuietStretch(s: Core, ev: Event, now: nat)
    requires s.air.brain.Some? && s.air.brain.value.phase == Online && s.air.brain.value.lastProbeAt.None? && !s.air.authInFlight
    requires !Accepts(s, ev, AirSample)
    ensures var x := React(s, ev, now).core.air;
            x.brain.Some? ==> x.brain.value.phase == Online && x.brain.value.lastProbeAt.None? && !x.authInFlight
  {
    hide React, BeatOf, WB.OnAuth;
    if !s.Running() {
      ReactInert(s, ev, now);
    } else if AirEvent(ev) {
      ReactAir(s, ev, now);
    } else {
      OtherLedger(s, ev, now);
    }
  }

  lemma {:induction false} NothingProbedSince(cfg: Config, run: seq<Stamped>, m: nat, i: nat)
    requires Monotone(run) && m < i <= |run| && EndsAt(cfg, run, m, true) && StateAt(cfg, run, i).air.brain.Some?
    requires forall k | m < k < i :: !BeatAt(cfg, run, k)
    ensures var r := StateAt(cfg, run, i).air;
            r.brain.value.phase == Online && r.brain.value.lastProbeAt.None? && !r.authInFlight
  {
    hide React, Ends;
    LedgerStep(cfg, run, i - 1);
    if m + 1 < i {
      NothingProbedSince(cfg, run, m, i - 1);
      assert !BeatAt(cfg, run, i - 1);
      QuietStretch(StateAt(cfg, run, i - 1), run[i - 1].ev, run[i - 1].now);
    } else {
      RetriesFollowTheCount(cfg, run, m);
      WellEnded(StateAt(cfg, run, m), run[m].ev, run[m].now);
    }
  }

  lemma WellEnded(s: Core, ev: Event, now: nat)
    requires Ends(s, ev, true)
    ensures !React(s, ev, now).core.air.authInFlight
  {}

  /** The first beat after a login that ended well probes at once, if the WLAN is wanted and
      still there, no Kicked verdict has come in and no probe is out. */
  lemma FirstBeatProbes(cfg: Config, run: seq<Stamped>, m: nat, i: nat)
    requires Monotone(run) && m < i < |run| && EndsAt(cfg, run, m, true) && BeatAt(cfg, run, i)
    requires forall k | m < k < i :: !BeatAt(cfg, run, k)
    requires var s := StateAt(cfg, run, i);
             Wanted(s.mode, s.wired) && AddressAt(run, i) && s.air.verdict != Some(Kicked)
    ensures Emits(EffectsAt(cfg, run, i), AirProbe) <==> !StateAt(cfg, run, i).air.probeInFlight
  {
    hide React, Ends, Emits, Wanted;
    NothingProbedSince(cfg, run, m, i);
    EveryBeatFollowsTheTable(cfg, run, i);
  }

  // ---------------------------------------------------------------------------
  // What the takeover remembers of the WLAN
  // ---------------------------------------------------------------------------

  /** The brain's decision at call `i`, a beat. */
  ghost function DecisionAt(cfg: Config, run: seq<Stamped>, i: nat): (WB.State, WB.Action)
    requires i < |run| && BeatAt(cfg, run, i)
  {
    var s := StateAt(cfg, run, i);
    Decision(s.mode, s.wired, s.air.(wlan := run[i].ev.wlan), run[i].ev.associated, run[i].now)
  }

  ghost predicate LetsGoAt(cfg: Config, run: seq<Stamped>, i: nat)
    requires i < |run|
  {
    BeatAt(cfg, run, i) && DecisionAt(cfg, run, i).1 == WB.Disassociate
  }

  /** The wireless worker was reported dead. */
  ghost predicate DiesAt(cfg: Config, run: seq<Stamped>, i: nat)
    requires i < |run|
  {
    StateAt(cfg, run, i).Running() && run[i].ev.WirelessDied? && cfg.wirelessEnabled
  }

  /** The last verdict a probe came back with, unless a login has ended, the WLAN was let go or
      the worker has died since. */
  ghost function VerdictHeard(cfg: Config, run: seq<Stamped>, i: nat): Option<Verdict>
    requires i <= |run|
  {
    if i == 0 || EndsAt(cfg, run, i - 1, true) || EndsAt(cfg, run, i - 1, false)
       || LetsGoAt(cfg, run, i - 1) || DiesAt(cfg, run, i - 1) then None
    else if AcceptedAt(cfg, run, i - 1, AirProbe) then Some(run[i - 1].ev.verdict)
    else VerdictHeard(cfg, run, i - 1)
  }

  /** A beat that finds the takeover joining on an association answered over a minute ago. */
  ghost predicate RunsOutAt(cfg: Config, run: seq<Stamped>, i: nat)
    requires i < |run|
  {
    BeatAt(cfg, run, i) && DecisionAt(cfg, run, i).0.phase == Joining && StaleJoin(StateAt(cfg, run, i).air, run[i].now)
  }

  /** When the last association was answered, unless its join has run out, the WLAN was let go
      or the worker has died since. */
  ghost function JoinedAt(cfg: Config, run: seq<Stamped>, i: nat): Option<nat>
    requires i <= |run|
  {
    if i == 0 || LetsGoAt(cfg, run, i - 1) || RunsOutAt(cfg, run, i - 1) || DiesAt(cfg, run, i - 1) then None
    else if AcceptedAt(cfg, run, i - 1, Association) then Some(run[i - 1].now)
    else JoinedAt(cfg, run, i - 1)
  }

  /** What the last beat saw of the WLAN. */
  ghost function WlanSeen(cfg: Config, run: seq<Stamped>, i: nat): Option<WlanSample>
    requires i <= |run|
  {
    if i == 0 || DiesAt(cfg, run, i - 1) then None
    else if BeatAt(cfg, run, i - 1) then run[i - 1].ev.wlan
    else WlanSeen(cfg, run, i - 1)
  }

  ghost predicate HasDied(cfg: Config, run: seq<Stamped>, i: nat)
    requires i <= |run|
  {
    exists k :: 0 <= k < i && DiesAt(cfg, run, k)
  }

  lemma BeatRemembers(cfg: Config, run: seq<Stamped>, i: nat)
    requires Monotone(run) && i < |run| && BeatAt(cfg, run, i)
    ensures var r, x, ev := StateAt(cfg, run, i).air, StateAt(cfg, run, i + 1).air, run[i].ev;
            && x.brain.Some? && x.wlan == ev.wlan && x.died == r.died
            && x.verdict == (if EndsAt(cfg, run, i, false) || LetsGoAt(cfg, run, i) then None else r.verdict)
            && x.joinSince == (if LetsGoAt(cfg, run, i) || RunsOutAt(cfg, run, i) then None else r.joinSince)
            && !EndsAt(cfg, run, i, true)
  {
    hide React, BeatOf, WB.Decide, WaitsOnSomething;
    var s, ev, now := StateAt(cfg, run, i), run[i].ev, run[i].now;
    TakeoverNeverWaitsOnNothing(cfg, run, i);
    assert s.air.brain.value.Coherent() by { CoherentInside(s.air, SecsAt(run, i)); }
    var r, r' := s.air.(wlan := ev.wlan), s.air.(sampleInFlight := false, wlan := ev.wlan);
    ReactAir(s, ev, now);
    BeatKeeps(s.cfg, s.mode, s.wired, r', ev.associated, now);
    SpotIgnoresTheFlag(s.mode, s.wired, r, r', ev.associated);
    hide FailsOnTheSpot, WB.State.Coherent;
  }

  lemma CoherentInside(r: WirelessSide, secs: nat)
    requires r.brain.Some? && WaitsOnSomething(r, secs)
    ensures r.brain.value.Coherent()
  {}

  lemma AnswerRemembers(s: Core, ev: Event, now: nat)
    requires s.Running() && AirEvent(ev) && !(Accepts(s, ev, AirSample) && s.air.brain.Some?)
    ensures var r, x := s.air, React(s, ev, now).core.air;
            if ev.WirelessDied? && s.cfg.wirelessEnabled then
              x.brain.None? && x.verdict.None? && x.joinSince.None? && x.wlan.None? && x.died
            else
              && (x.brain.Some? <==> r.brain.Some?) && x.wlan == r.wlan && x.died == r.died
              && x.verdict == (if Accepts(s, ev, Login) then None else if Accepts(s, ev, AirProbe) then Some(ev.verdict) else r.verdict)
              && x.joinSince == (if Accepts(s, ev, Association) then Some(now) else r.joinSince)
  {
    hide React, BeatOf, WB.OnAuth;
    ReactAir(s, ev, now);
  }

  lemma OthersRemember(s: Core, ev: Event, now: nat)
    requires !s.Running() || !AirEvent(ev)
    ensures var r, x := s.air, React(s, ev, now).core.air;
            && (x.brain.Some? <==> r.brain.Some?)
            && x.wlan == r.wlan && x.died == r.died && x.verdict == r.verdict && x.joinSince == r.joinSince
  {
    hide React;
    if s.Running() { WiredEventsRemember(s, ev, now); } else { ReactInert(s, ev, now); }
  }

  lemma WiredEventsRemember(s: Core, ev: Event, now: nat)
    requires s.Running() && !AirEvent(ev)
    ensures var r, x := s.air, React(s, ev, now).core.air;
            && (x.brain.Some? <==> r.brain.Some?)
            && x.wlan == r.wlan && x.died == r.died && x.verdict == r.verdict && x.joinSince == r.joinSince
  {
    hide AirStep, WakeWired, LinkArrives, StepArrives, WorthATell, Toast, N.OnResult, StartAir;
  }

  lemma AnswersByEvent(s: Core, ev: Event)
    ensures (Accepts(s, ev, Login) || Accepts(s, ev, AirProbe) || Accepts(s, ev, Association) || Accepts(s, ev, AirSample)) ==>
              s.Running() && AirEvent(ev)
    ensures Accepts(s, ev, Login) <==> (Ends(s, ev, true) || (Ends(s, ev, false) && !Accepts(s, ev, AirSample)))
    ensures Accepts(s, ev, Login) ==> ev.PortalFinished?
    ensures Accepts(s, ev, AirProbe) ==> ev.WlanProbeFinished?
    ensures Accepts(s, ev, Association) ==> ev.AssociateFinished?
    ensures Accepts(s, ev, AirSample) ==> ev.WirelessSampled?
    ensures Ends(s, ev, false) && Accepts(s, ev, AirSample) ==> s.air.brain.Some?
  {
    hide Wanted;
  }

  lemma MemoryStep(cfg: Config, run: seq<Stamped>, i: nat)
    requires Monotone(run) && i < |run|
    ensures var r, x, ev := StateAt(cfg, run, i).air, StateAt(cfg, run, i + 1).air, run[i].ev;
            && x.died == (r.died || DiesAt(cfg, run, i))
            && (x.brain.Some? <==> r.brain.Some? && !DiesAt(cfg, run, i))
            && x.wlan == (if DiesAt(cfg, run, i) then None else if BeatAt(cfg, run, i) then ev.wlan else r.wlan)
            && x.verdict == (if EndsAt(cfg, run, i, true) || EndsAt(cfg, run, i, false) || LetsGoAt(cfg, run, i) || DiesAt(cfg, run, i)
                             then None else if AcceptedAt(cfg, run, i, AirProbe) then Some(ev.verdict) else r.verdict)
            && x.joinSince == (if LetsGoAt(cfg, run, i) || RunsOutAt(cfg, run, i) || DiesAt(cfg, run, i) then None
                               else if AcceptedAt(cfg, run, i, Association) then Some(run[i].now) else r.joinSince)
  {
    hide React, Accepts, Ends, DecisionAt, StaleJoin;
    var s, ev := StateAt(cfg, run, i), run[i].ev;
    StartedOrNew(cfg, run, i);
    AnswersByEvent(s, ev);
    if BeatAt(cfg, run, i) {
      BeatRemembers(cfg, run, i);
    } else if s.Running() && AirEvent(ev) {
      AnswerRemembers(s, ev, run[i].now);
    } else {
      OthersRemember(s, ev, run[i].now);
    }
  }

  /** In every run, what the takeover remembers is what it was last told; it is alive until its
      worker is reported dead, and never again after. */
  lemma {:induction false} MemoryIsTheLastReport(cfg: Config, run: seq<Stamped>, i: nat)
    requires Monotone(run) && i <= |run|
    ensures var r := StateAt(cfg, run, i).air;
            && r.verdict == VerdictHeard(cfg, run, i) && r.joinSince == JoinedAt(cfg, run, i) && r.wlan == WlanSeen(cfg, run, i)
            && (r.died <==> HasDied(cfg, run, i))
            && (r.brain.Some? <==> cfg.wirelessEnabled && cfg.targetsParse && !HasDied(cfg, run, i))
  {
    hide React, Accepts, Ends, DecisionAt, StaleJoin;
    if i > 0 {
      MemoryIsTheLastReport(cfg, run, i - 1);
      MemoryStep(cfg, run, i - 1);
      hide StateAt, BeatAt, LetsGoAt, RunsOutAt, DiesAt;
      assert HasDied(cfg, run, i) <==> HasDied(cfg, run, i - 1) || DiesAt(cfg, run, i - 1);
    }
  }

  // ---------------------------------------------------------------------------
  // The exact effects of a beat
  // ---------------------------------------------------------------------------

  /** The metric is pressed while the WLAN is wanted and let go while it is not. */
  function MetricDemand(cfg: Config, mode: NetMode, side: WiredSide, wlan: Option<WlanSample>): seq<Effect> {
    if wlan.None? then []
    else [if Wanted(mode, side) then SuppressMetric(wlan.value.ifindex, cfg.standbyMetric) else ReleaseMetric]
  }

  /** One thing is asked of the worker, over the sample just taken. */
  predicate OneDemand(r: WirelessSide, e: seq<Effect>) {
    || e == [] || e == [Associate] || e == [TeardownRoutes, Disassociate]
    || (r.wlan.Some? && e == [WlanProbe(r.wlan.value.ipv4, r.wlan.value.gateway)])
    || (r.wlan.Some? && r.wlan.value.gateway.Some?
        && e == [AcquireWirelessEgress(WlanEndpoint(r.wlan.value.gateway.value, r.wlan.value.ifindex)),
                 Settle(3_000), PortalAuth(r.wlan.value.ipv4)])
  }

  lemma CarryAsksOnce(cfg: Config, r: WirelessSide, b: WB.State, action: WB.Action, secs: nat)
    requires r.brain == Some(b) && cfg.targetsParse && (action == WB.ProbeNow ==> r.wlan.Some?)
    ensures var h := Carry(cfg, r, b, action, secs);
            OneDemand(r, h.effects) && h.side.wlan == r.wlan && (!h.proceed ==> h.effects == [])
  {
    hide WB.OnAuth;
  }

  lemma MetricIsDemanded(cfg: Config, mode: NetMode, side: WiredSide, wlan: Option<WlanSample>)
    ensures MetricEffects(cfg, mode, side.Healthy(), wlan) == MetricDemand(cfg, mode, side, wlan)
  {}

  lemma BeatAsksOnce(cfg: Config, mode: NetMode, side: WiredSide, r: WirelessSide, associated: bool, now: nat)
    requires r.brain.Some? && r.brain.value.Coherent() && cfg.targetsParse
    ensures var e, m := BeatOf(cfg, mode, side, r, associated, now).effects, MetricDemand(cfg, mode, side, r.wlan);
            if FailsOnTheSpot(mode, side, r, associated) then e == []
            else |m| <= |e| && e[|e| - |m|..] == m && OneDemand(r, e[..|e| - |m|])
  {
    hide WB.Decide, WorldOf, Carry, JoinTimeout, MetricEffects, WB.OnAuth, FailsOnTheSpot, WB.State.Coherent, OneDemand, MetricDemand;
    DecisionKeeps(mode, side, r, associated, now);
    var (b, action) := Decision(mode, side, r, associated, now);
    CarryKeeps(cfg, r.(brain := Some(b)), b, action, now / 1000);
    CarryAsksOnce(cfg, r.(brain := Some(b)), b, action, now / 1000);
    MetricIsDemanded(cfg, mode, side, r.wlan);
    assert OneDemand(r, Carry(cfg, r.(brain := Some(b)), b, action, now / 1000).effects) by {
      OverTheSample(r, b, Carry(cfg, r.(brain := Some(b)), b, action, now / 1000).effects);
    }
    var front, m := Carry(cfg, r.(brain := Some(b)), b, action, now / 1000).effects, MetricDemand(cfg, mode, side, r.wlan);
    assert (front + m)[..|front|] == front && (front + m)[|front|..] == m;
  }

  lemma OverTheSample(r: WirelessSide, b: WB.State, e: seq<Effect>)
    requires OneDemand(r.(brain := Some(b)), e)
    ensures OneDemand(r, e)
  {}

  /** In every run a beat demands one thing of the worker, over the sample just taken, and then
      settles the metric by the wire; a beat whose login fails on the spot demands nothing. */
  lemma BeatsDemandExactly(cfg: Config, run: seq<Stamped>, i: nat)
    requires Monotone(run) && i < |run| && BeatAt(cfg, run, i)
    ensures var s, e := StateAt(cfg, run, i), EffectsAt(cfg, run, i);
            var m := MetricDemand(cfg, s.mode, s.wired, run[i].ev.wlan);
            if EndsAt(cfg, run, i, false) then e == []
            else |m| <= |e| && e[|e| - |m|..] == m && OneDemand(s.air.(wlan := run[i].ev.wlan), e[..|e| - |m|])
  {
    hide React, BeatOf, WB.Decide, WaitsOnSomething, OneDemand, MetricDemand;
    var s, ev, now := StateAt(cfg, run, i), run[i].ev, run[i].now;
    TakeoverNeverWaitsOnNothing(cfg, run, i);
    assert s.air.brain.value.Coherent() by { CoherentInside(s.air, SecsAt(run, i)); }
    var r, r' := s.air.(wlan := ev.wlan), s.air.(sampleInFlight := false, wlan := ev.wlan);
    ReactAir(s, ev, now);
    BeatAsksOnce(s.cfg, s.mode, s.wired, r', ev.associated, now);
    SpotIgnoresTheFlag(s.mode, s.wired, r, r', ev.associated);
    assert forall e | OneDemand(r', e) :: OneDemand(r, e) by { FlagIsNoSample(r, r'); }
    hide FailsOnTheSpot, WB.State.Coherent;
  }

  lemma FlagIsNoSample(r: WirelessSide, r': WirelessSide)
    requires r.wlan == r'.wlan
    ensures forall e | OneDemand(r', e) :: OneDemand(r, e)
  {}

  // ---------------------------------------------------------------------------
  // The start and the stop
  // ---------------------------------------------------------------------------

  /** A start arms the wire at once and, for a takeover that can work, clears what a crashed
      predecessor left and looks around; a stop hangs up and, for one that is alive, tears down
      what it holds; a report of death demands nothing. */
  lemma StartsAndStops(cfg: Config, run: seq<Stamped>, i: nat)
    requires Monotone(run) && i < |run|
    ensures var s, t, e := StateAt(cfg, run, i), StateAt(cfg, run, i + 1), EffectsAt(cfg, run, i);
            var alive := cfg.wirelessEnabled && cfg.targetsParse && !HasDied(cfg, run, i);
            && (!s.started && run[i].ev.Started? ==>
                  && t.Running() && t.wired.deadline == Some(run[i].now) && t.wired.linkPollAt == run[i].now
                  && e == (if alive then [CleanupStaleRoutes, SampleWireless] else [])
                  && (alive ==> t.air.tickAt == run[i].now + 2_000 && Busy(t, AirSample)))
            && (s.Running() && run[i].ev.Stop? ==>
                  t.stopped && e == [Hangup] + if alive then [TeardownRoutes, Disassociate] else [])
            && (s.Running() && run[i].ev.WirelessDied? ==> e == [])
  {
    hide AirStep, OnWake, LinkArrives, OnWatchdogStepped, OnHeartbeat, HasDied, StateAt;
    StartedOrNew(cfg, run, i);
    MemoryIsTheLastReport(cfg, run, i);
    var s, ev, now := StateAt(cfg, run, i), run[i].ev, run[i].now;
    assert StateAt(cfg, run, i + 1) == React(s, ev, now).core by { OneMore(cfg, run, i); }
    if ev.WirelessDied? && s.Running() { ReactAir(s, ev, now); DeathDemandsNothing(s, ev, now); }
  }

  lemma OneMore(cfg: Config, run: seq<Stamped>, i: nat)
    requires i < |run|
    ensures StateAt(cfg, run, i + 1) == React(StateAt(cfg, run, i), run[i].ev, run[i].now).core
  {}

  lemma DeathDemandsNothing(s: Core, ev: Event, now: nat)
    requires ev.WirelessDied?
    ensures AirStep(s.cfg, s.mode, s.wired, s.air, ev, now).effects == []
  {}
}
