/** src/runtime.rs: the executor around the supervisor and the watchdog. The shell pops
    an event, lets the supervisor react, executes the Main-lane effects in order, feeds
    their results back in FIFO order and forwards the rest to the wireless worker. */
module Shell {
  import opened Types
  import opened Sup = Supervisor
  import Runs = SupervisorRuns
  import W = Watchdog
  import WB = WirelessBrain
  import N = Notifications

  /** Everything the outside answers at one instant: how much time has passed since the last
      one, and what a watchdog step, a sample or a toast would meet. */
  datatype Oracle = Oracle(dt: nat, answers: W.Answers, linkUp: Option<bool>, pppIp: Option<Ipv4>,
                           associated: bool, wlan: Option<WlanSample>, toasted: bool)

  /** One operation of the watchdog, next to what the supervisor believed of the link. */
  datatype Logged = Logged(op: W.Op, coreLink: Option<bool>)

  /** When a watchdog call was made: the instant, and how many events had been handled by then. */
  datatype Moment = Moment(at: nat, seen: nat)

  /** `todo` holds the effects of the current reaction still to be executed. The rest of the
      record is history: the events handled, the effects executed, the calls made to the
      watchdog with their moments, the operations they led to, and how many steps there were. */
  datatype World = World(core: Core, dogCfg: W.Cfg, dog: W.State, queue: seq<Event>, todo: seq<Effect>,
                         lane: seq<Effect>, atStop: seq<Effect>, stopping: bool, savedMode: NetMode,
                         now: nat, wakeAt: Option<nat>, tick: nat,
                         past: seq<Runs.Stamped>, done: seq<Effect>, calls: seq<W.Call>, moments: seq<Moment>,
                         log: seq<Logged>, steps: nat)
  {
    predicate Idle() { todo == [] && queue == [] }
  }

  function Log(ops: seq<W.Op>, link: Option<bool>): (l: seq<Logged>)
    ensures |l| == |ops| && forall i | 0 <= i < |l| :: l[i] == Logged(ops[i], link)
  {
    seq(|ops|, i requires 0 <= i < |ops| => Logged(ops[i], link))
  }

  /** `Shell::exec_main` for one Main-lane effect. */
  function ExecMain(w: World, e: Effect, o: Oracle): World {
    match e
    case StepWatchdog =>
      var r := W.RunOnce(w.dogCfg, w.dog, o.answers);
      w.(dog := r.s, queue := w.queue + [WatchdogStepped(r.delay, r.s.View(), o.pppIp)],
         calls := w.calls + [W.Runs(o.answers)], moments := w.moments + [Moment(w.now, |w.past|)],
         log := w.log + Log(r.ops, w.core.wired.ethLink), steps := w.steps + 1)
    case RequestRedial =>
      w.(dog := w.dog.(redialRequested := true),
         calls := w.calls + [W.Asks], moments := w.moments + [Moment(w.now, |w.past|)])
    case SetWatchdogLink(up) =>
      w.(dog := w.dog.(ethLink := up),
         calls := w.calls + [W.Link(up)], moments := w.moments + [Moment(w.now, |w.past|)])
    case Hangup =>
      w.(dog := w.dog.(session := false),
         calls := w.calls + [W.Shuts], moments := w.moments + [Moment(w.now, |w.past|)],
         log := w.log + Log([W.Hangup], w.core.wired.ethLink))
    case SampleLink => w.(queue := w.queue + [LinkSampled(o.linkUp, o.pppIp)])
    case SampleWireless => w.(queue := w.queue + [WirelessSampled(o.associated, o.wlan)])
    case PersistMode(m) => w.(savedMode := m)
    case Notify(key) => w.(queue := w.queue + [NotifyResult(key, o.toasted)])
    case _ => w
  }

  /** Everything else goes to the worker's lane, or is kept for it once stopping. */
  function Forward(w: World, e: Effect): World {
    if w.stopping then w.(atStop := w.atStop + [e]) else w.(lane := w.lane + [e])
  }

  function Exec(w: World, o: Oracle): World
    requires w.todo != []
  {
    var e := w.todo[0];
    var w1 := w.(todo := w.todo[1..], now := w.now + o.dt, tick := w.tick + 1, done := w.done + [e]);
    if e.MainLane() then ExecMain(w1, e, o) else Forward(w1, e)
  }

  function Pop(w: World, o: Oracle): World
    requires w.todo == [] && w.queue != []
  {
    var now := w.now + o.dt;
    var r := React(w.core, w.queue[0], now);
    w.(core := r.core, queue := w.queue[1..], todo := r.effects, wakeAt := r.core.WakeAt(now),
       now := now, tick := w.tick + 1, past := w.past + [Runs.Stamped(w.queue[0], now)])
  }

  /** The smallest step of the drain loop. */
  function Micro(w: World, o: Oracle): World
    requires !w.Idle()
  {
    if w.todo != [] then Exec(w, o) else Pop(w, o)
  }

  // ---------------------------------------------------------------------------
  // The drain loop terminates
  // ---------------------------------------------------------------------------

  /** How much work an event may still cause, and an effect through the event it answers with. */
  function EventWeight(ev: Event): nat {
    match ev
    case Wake => 5
    case LinkSampled(_, _) => 3
    case Commanded(_) => 3
    case WatchdogStepped(_, _, _) => 2
    case Heartbeat(_) => 2
    case Started => 2
    case _ => 1
  }

  function EffectWeight(e: Effect): nat {
    match e
    case StepWatchdog => 2
    case SampleLink => 3
    case SampleWireless => 1
    case Notify(_) => 1
    case _ => 0
  }

  lemma {:induction false} WorkerOnlyWeighsNothing(effects: seq<Effect>)
    requires Runs.WorkerOnly(effects)
    ensures Sum(EffectWeight, effects) == 0
  {
    if effects != [] {
      assert effects[0] in effects;
      WorkerOnlyWeighsNothing(effects[1..]);
    }
  }

  lemma SumOfFew(effects: seq<Effect>)
    ensures |effects| == 0 ==> Sum(EffectWeight, effects) == 0
    ensures |effects| == 1 ==> Sum(EffectWeight, effects) == EffectWeight(effects[0])
    ensures |effects| == 2 ==> Sum(EffectWeight, effects) == EffectWeight(effects[0]) + EffectWeight(effects[1])
    ensures |effects| == 3 ==>
              Sum(EffectWeight, effects) == EffectWeight(effects[0]) + EffectWeight(effects[1]) + EffectWeight(effects[2])
  {
    if |effects| == 2 { assert effects[1..] == [effects[1]]; }
    if |effects| == 3 {
      assert effects[1..] == [effects[1], effects[2]];
      assert effects[1..][1..] == [effects[2]];
    }
  }

  /** Every handled event causes strictly less work than it was worth, in whatever state. */
  lemma ReactionWeighsLess(s: Core, ev: Event, now: nat)
    ensures Sum(EffectWeight, React(s, ev, now).effects) < EventWeight(ev)
  {
    if s.Running() && AirEvent(ev) {
      hide React, AirStep;
      ReactAir(s, ev, now);
      Runs.AirStaysInItsLane(s, ev, now);
      WorkerOnlyWeighsNothing(React(s, ev, now).effects);
    } else {
      hide AirStep, WakeWired, WakeAir, LinkArrives, WB.New, N.MaybeNotify, N.Allowed, N.OnResult;
      WakeWeighs(s.wired, s.air, now);
      if ev.LinkSampled? { ArrivalWeighs(s.wired, ev.up, ev.pppIp, now); }
      SumOfFew(React(s, ev, now).effects);
    }
  }

  lemma WakeWeighs(w: WiredSide, r: WirelessSide, now: nat)
    ensures Sum(EffectWeight, WakeWired(w, now).effects + WakeAir(r, now).effects) <= 4
  {
    SumOfFew(WakeWired(w, now).effects);
    SumOfFew(WakeAir(r, now).effects);
    SumAppend(EffectWeight, WakeWired(w, now).effects, WakeAir(r, now).effects);
  }

  lemma ArrivalWeighs(w: WiredSide, up: Option<bool>, pppIp: Option<Ipv4>, now: nat)
    ensures Sum(EffectWeight, LinkArrives(w, up, pppIp, now).effects) <= 2
  {
    SumOfFew(LinkArrives(w, up, pppIp, now).effects);
  }

  function Weight(w: World): nat {
    Sum(EffectWeight, w.todo) + Sum(EventWeight, w.queue)
  }

  lemma MicroPops(w: World, o: Oracle)
    requires w.todo == [] && w.queue != []
    ensures Micro(w, o) == Pop(w, o)
  {}

  lemma MicroDecreases(w: World, o: Oracle)
    requires !w.Idle()
    ensures Weight(Micro(w, o)) < Weight(w) || (Weight(Micro(w, o)) == Weight(w) && |Micro(w, o).todo| < |w.todo|)
  {
    hide React, W.RunOnce, Log;
    if w.todo != [] {
      var w' := Exec(w, o);
      if |w'.queue| > |w.queue| {
        var ev := w'.queue[|w.queue|];
        assert w'.queue == w.queue + [ev];
        SumAppend(EventWeight, w.queue, [ev]);
      }
    } else {
      ReactionWeighsLess(w.core, w.queue[0], w.now + o.dt);
    }
  }

  /** Drain until there is nothing left to do. That this function is accepted is the
      termination of the loop, whatever the outside answers. */
  function Drained(env: nat -> Oracle, w: World): (r: World)
    ensures r.Idle()
    decreases Weight(w), |w.todo|
  {
    if w.Idle() then w
    else
      MicroDecreases(w, env(w.tick));
      Drained(env, Micro(w, env(w.tick)))
  }

  // ---------------------------------------------------------------------------
  // What every instant of every drain keeps
  // ---------------------------------------------------------------------------

  /** Events that come from outside the drain loop; the rest are results of Main effects. */
  predicate Outer(ev: Event) {
    !(ev.LinkSampled? || ev.WatchdogStepped? || ev.WirelessSampled? || ev.NotifyResult?)
  }

  predicate IsLinkSample(ev: Event) { ev.LinkSampled? }
  predicate IsAirSample(ev: Event) { ev.WirelessSampled? }
  predicate IsStepAnswer(ev: Event) { ev.WatchdogStepped? }

  predicate Any(p: Event -> bool, queue: seq<Event>) {
    exists i :: 0 <= i < |queue| && p(queue[i])
  }

  lemma AnyAppend(p: Event -> bool, queue: seq<Event>, ev: Event)
    ensures Any(p, queue + [ev]) <==> Any(p, queue) || p(ev)
  {
    assert (queue + [ev])[|queue|] == ev;
    assert forall i | 0 <= i < |queue| :: (queue + [ev])[i] == queue[i];
  }

  lemma AnyRest(p: Event -> bool, queue: seq<Event>)
    requires queue != []
    ensures Any(p, queue) <==> p(queue[0]) || Any(p, queue[1..])
  {
    if Any(p, queue) && !p(queue[0]) {
      var i :| 0 <= i < |queue| && p(queue[i]);
      assert queue[1..][i - 1] == queue[i];
    }
    if Any(p, queue[1..]) {
      var i :| 0 <= i < |queue[1..]| && p(queue[1..][i]);
      assert queue[i + 1] == queue[1..][i];
    }
  }

  /** A watchdog step is under way: demanded, or executed with its answer still queued. */
  predicate StepOut(w: World) { StepWatchdog in w.todo || Any(IsStepAnswer, w.queue) }

  predicate LinkOut(w: World) { SampleLink in w.todo || Any(IsLinkSample, w.queue) }

  predicate AirOut(w: World) { SampleWireless in w.todo || Any(IsAirSample, w.queue) }

  /** The watchdog's link flag is the supervisor's, except that a change may be the very
      next effect to execute: no step runs in between. */
  predicate LinkAgrees(w: World) {
    && (forall i | 0 < i < |w.todo| :: !w.todo[i].SetWatchdogLink?)
    && (if w.todo != [] && w.todo[0].SetWatchdogLink? then w.todo[0].link else w.dog.ethLink) == w.core.wired.ethLink
  }

  /** Results wait only for each other: an event from outside is fed to an idle loop. */
  predicate Fed(w: World) {
    forall i | 0 <= i < |w.queue| && Outer(w.queue[i]) :: |w.queue| == 1 && w.todo == []
  }

  predicate CoreSane(s: Core) {
    && (s.started || s == New(s.cfg))
    && (s.wired.linkSampleSeen || s.wired.ethLink.None?)
    && (!s.Running() ==> !s.wired.sampleInFlight && !s.wired.stepPending && !s.air.sampleInFlight)
  }

  predicate Owing(w: World) {
    var d := w.core.wired;
    && (d.sampleInFlight ==> LinkOut(w))
    && (w.core.air.sampleInFlight ==> AirOut(w))
    && (d.stepPending ==> d.sampleInFlight && !StepOut(w))
    && (w.core.Running() && d.deadline.None? ==> d.stepPending || StepOut(w))
  }

  /** The composed history is a run of the supervisor. */
  ghost predicate Historic(w: World) {
    && w.core == Runs.StateAt(w.core.cfg, w.past, |w.past|)
    && Runs.Monotone(w.past)
    && (w.past != [] ==> w.past[|w.past| - 1].now <= w.now)
  }

  /** No dial over a held session, none with the cable known to be out, none behind the
      supervisor's back. */
  predicate Safe(l: Logged) {
    l.op.Dial? ==> !l.op.sessionHeld && l.op.link == l.coreLink && l.op.link != Some(false)
  }

  ghost predicate Inv(w: World) {
    w.dog.Valid() && CoreSane(w.core) && Owing(w) && LinkAgrees(w) && Fed(w) && Historic(w)
    && forall l | l in w.log :: Safe(l)
  }

  /** No wired deadlock: a service at rest has nothing in flight, no step half begun, and a
      deadline armed. */
  predicate Armed(s: Core) {
    s.Running() ==>
      !s.wired.sampleInFlight && !s.air.sampleInFlight && !s.wired.stepPending && s.wired.deadline.Some?
  }

  /** The executor's timer is the one the supervisor asked for after the last event. */
  predicate Timed(w: World) {
    w.past != [] ==> w.wakeAt == w.core.WakeAt(w.past[|w.past| - 1].now)
  }

  lemma MicroKeepsTime(w: World, o: Oracle)
    requires !w.Idle() && Timed(w)
    ensures Timed(Micro(w, o)) && |Micro(w, o).past| >= |w.past|
    ensures w.todo == [] ==> |Micro(w, o).past| > 0
  {
    hide React, W.RunOnce, Log, Core.WakeAt;
  }

  lemma {:induction false} DrainKeepsTime(env: nat -> Oracle, w: World)
    requires Timed(w)
    ensures var r := Drained(env, w); Timed(r) && |r.past| >= |w.past|
    ensures w.queue != [] && w.todo == [] ==> |Drained(env, w).past| > 0
    decreases Weight(w), |w.todo|
  {
    hide Timed, Micro;
    if !w.Idle() {
      MicroKeepsTime(w, env(w.tick));
      MicroDecreases(w, env(w.tick));
      DrainKeepsTime(env, Micro(w, env(w.tick)));
    }
  }

  lemma {:induction false} ServiceKeepsTime(env: nat -> Oracle, cfg: Config, dogCfg: W.Cfg, events: seq<Event>)
    ensures var w := ServiceAfter(env, cfg, dogCfg, events); Timed(w) && w.past != []
  {
    hide Drained;
    if events == [] {
      DrainKeepsTime(env, Boot(cfg, dogCfg).(queue := [Started]));
    } else {
      var before := events[..|events| - 1];
      ServiceKeepsTime(env, cfg, dogCfg, before);
      var w, ev := ServiceAfter(env, cfg, dogCfg, before), events[|events| - 1];
      DrainKeepsTime(env, w.(queue := [ev], stopping := w.stopping || ev.Stop?));
    }
  }

  /** When the executor of a service at rest wakes next. */
  lemma RestIsShort(w: World)
    requires Inv(w) && Timed(w) && w.past != [] && w.core.Running() && w.core.wired.deadline.Some?
    ensures var last := w.past[|w.past| - 1].now;
            && w.wakeAt.Some? && last <= w.wakeAt.value <= last + LINK_POLL_MS
            && w.wakeAt.value <= Max(w.core.wired.deadline.value, last)
  {
    hide React;
    Runs.PollSoon(w.core.cfg, w.past, |w.past|);
  }

  lemma IdleIsArmed(w: World)
    requires w.Idle() && Inv(w)
    ensures Armed(w.core) && w.dog.ethLink == w.core.wired.ethLink
  {}

  // --- executing one effect --------------------------------------------------

  lemma ExecKeepsHistory(w: World, o: Oracle)
    requires w.todo != [] && w.dog.Valid() && Historic(w) && LinkAgrees(w)
    requires forall l | l in w.log :: Safe(l)
    ensures var w' := Exec(w, o); w'.dog.Valid() && Historic(w') && w'.core == w.core && forall l | l in w'.log :: Safe(l)
  {
    hide React, W.RunOnce, Safe, Runs.StateAt, Runs.Monotone;
    if w.todo[0] == StepWatchdog {
      W.StepIsSafe(w.dogCfg, w.dog, o.answers);
      StepLogsSafely(w, o);
    } else if w.todo[0] == Hangup {
      SafeDial(Logged(W.Hangup, w.core.wired.ethLink));
    }
  }

  lemma StepLogsSafely(w: World, o: Oracle)
    requires w.dog.Valid() && w.dog.ethLink == w.core.wired.ethLink
    ensures forall l | l in Log(W.RunOnce(w.dogCfg, w.dog, o.answers).ops, w.core.wired.ethLink) :: Safe(l)
  {
    hide W.RunOnce;
    W.StepIsSafe(w.dogCfg, w.dog, o.answers);
    var ops := W.RunOnce(w.dogCfg, w.dog, o.answers).ops;
    var more := Log(ops, w.core.wired.ethLink);
    forall l | l in more ensures Safe(l) {
      var i :| 0 <= i < |more| && more[i] == l;
      assert ops[i] in ops;
    }
  }

  lemma SafeDial(l: Logged)
    requires l.op.Dial? ==> !l.op.sessionHeld && l.op.link == l.coreLink && l.op.link != Some(false)
    ensures Safe(l)
  {}

  lemma ExecKeepsLinks(w: World, o: Oracle)
    requires w.todo != [] && w.dog.Valid() && LinkAgrees(w) && Fed(w)
    ensures LinkAgrees(Exec(w, o)) && Fed(Exec(w, o))
  {
    if w.todo[0] == StepWatchdog { W.StepIsSafe(w.dogCfg, w.dog, o.answers); }
    hide W.RunOnce;
    var w' := Exec(w, o);
    assert forall i | 0 <= i < |w.queue| :: w'.queue[i] == w.queue[i];
    assert forall i | 0 <= i < |w'.todo| :: w'.todo[i] == w.todo[i + 1];
  }

  /** The answer, if any, that executing `e` puts into the queue. */
  lemma ExecAnswers(w: World, o: Oracle, p: Event -> bool)
    requires w.todo != []
    ensures var w' := Exec(w, o);
            if w'.queue == w.queue then true
            else |w'.queue| == |w.queue| + 1 && w'.queue[..|w.queue|] == w.queue
                 && (Any(p, w'.queue) <==> Any(p, w.queue) || p(w'.queue[|w.queue|]))
  {
    hide W.RunOnce, Log;
    var w' := Exec(w, o);
    if w'.queue != w.queue {
      var ev := w'.queue[|w.queue|];
      assert w'.queue == w.queue + [ev];
      AnyAppend(p, w.queue, ev);
    }
  }

  lemma ExecKeepsDebts(w: World, o: Oracle)
    requires w.todo != []
    ensures var w' := Exec(w, o);
            (StepOut(w') <==> StepOut(w)) && (LinkOut(w') <==> LinkOut(w)) && (AirOut(w') <==> AirOut(w))
  {
    hide W.RunOnce, Log, Any;
    ExecAnswers(w, o, IsStepAnswer);
    ExecAnswers(w, o, IsLinkSample);
    ExecAnswers(w, o, IsAirSample);
    assert w.todo == [w.todo[0]] + w.todo[1..];
  }

  // --- popping one event -----------------------------------------------------

  lemma ReactKeepsSane(s: Core, ev: Event, now: nat)
    requires CoreSane(s) && (Outer(ev) ==> Armed(s))
    ensures CoreSane(React(s, ev, now).core)
  {
    hide WB.Decide, Carry, N.MaybeNotify, N.OnResult, BeatOf;
  }

  lemma ReactTellsTheLink(s: Core, ev: Event, now: nat)
    ensures var r := React(s, ev, now);
            && (forall i | 0 < i < |r.effects| :: !r.effects[i].SetWatchdogLink?)
            && (if r.effects != [] && r.effects[0].SetWatchdogLink? then r.effects[0].link else s.wired.ethLink)
               == r.core.wired.ethLink
  {
    if s.Running() && AirEvent(ev) {
      hide React, AirStep;
      ReactAir(s, ev, now);
      Runs.AirStaysInItsLane(s, ev, now);
      var effects := React(s, ev, now).effects;
      assert forall i | 0 <= i < |effects| :: effects[i] in effects;
    } else {
      if s.Running() && ev.LinkSampled? {
        hide LinkArrives;
        ArrivalTellsTheLink(s.wired, ev.up, ev.pppIp, now);
      } else {
        hide React;
        OthersTellNothing(s, ev, now);
        var effects := React(s, ev, now).effects;
        assert forall i | 0 <= i < |effects| :: effects[i] in effects;
      }
    }
  }

  lemma OthersTellNothing(s: Core, ev: Event, now: nat)
    requires !s.Running() || !(AirEvent(ev) || ev.LinkSampled?)
    ensures var r := React(s, ev, now);
            r.core.wired.ethLink == s.wired.ethLink && forall e | e in r.effects :: !e.SetWatchdogLink?
  {
    hide AirStep, LinkArrives, WB.New, N.MaybeNotify, N.Allowed, N.OnResult;
  }

  lemma ArrivalTellsTheLink(w: WiredSide, up: Option<bool>, pppIp: Option<Ipv4>, now: nat)
    ensures var r := LinkArrives(w, up, pppIp, now);
            && (forall i | 0 < i < |r.effects| :: !r.effects[i].SetWatchdogLink?)
            && (if r.effects != [] && r.effects[0].SetWatchdogLink? then r.effects[0].link else w.ethLink) == r.side.ethLink
  {}

  /** From rest, an event from outside only opens debts it also demands to be paid. */
  lemma ReactFromRest(s: Core, ev: Event, now: nat)
    requires CoreSane(s) && Armed(s) && Outer(ev)
    ensures var r := React(s, ev, now); var d := r.core.wired;
            && (d.sampleInFlight ==> SampleLink in r.effects)
            && (r.core.air.sampleInFlight ==> SampleWireless in r.effects)
            && (d.stepPending ==> d.sampleInFlight && StepWatchdog !in r.effects)
            && (r.core.Running() && d.deadline.None? ==> d.stepPending || StepWatchdog in r.effects)
  {
    hide WB.OnAuth, N.MaybeNotify, N.Allowed;
  }

  /** A result pays the debt it answers and, if it opens one, demands the payment. */
  lemma ReactToResult(s: Core, ev: Event, now: nat)
    requires CoreSane(s) && !Outer(ev) && (s.wired.stepPending ==> s.wired.sampleInFlight)
    ensures var r := React(s, ev, now); var d, d' := s.wired, r.core.wired;
            && SampleLink !in r.effects && SampleWireless !in r.effects
            && (d'.sampleInFlight ==> d.sampleInFlight && !ev.LinkSampled?)
            && (r.core.air.sampleInFlight ==> s.air.sampleInFlight && !ev.WirelessSampled?)
            && (d'.stepPending ==> d.stepPending && d'.sampleInFlight && StepWatchdog !in r.effects)
            && (r.core.Running() && d'.deadline.None? && !d'.stepPending ==>
                  !ev.WatchdogStepped? && (StepWatchdog in r.effects || (d.deadline.None? && !d.stepPending)))
            && (r.core.Running() ==> s.Running())
  {
    if s.Running() && ev.WirelessSampled? {
      hide React, AirStep;
      ReactAir(s, ev, now);
      Runs.AirStaysInItsLane(s, ev, now);
      SampleIsTaken(s, ev, now);
    } else {
      hide AirStep, N.MaybeNotify, N.Allowed, N.OnResult;
    }
  }

  lemma SampleIsTaken(s: Core, ev: Event, now: nat)
    requires ev.WirelessSampled?
    ensures !AirStep(s.cfg, s.mode, s.wired, s.air, ev, now).side.sampleInFlight
  {
    hide BeatOf;
    if s.air.sampleInFlight && s.air.brain.Some? {
      BeatTakesNoSample(s.cfg, s.mode, s.wired, s.air.(sampleInFlight := false, wlan := ev.wlan), ev.associated, now);
    }
  }

  lemma BeatTakesNoSample(cfg: Config, mode: NetMode, side: WiredSide, r: WirelessSide, associated: bool, now: nat)
    requires r.brain.Some?
    ensures BeatOf(cfg, mode, side, r, associated, now).side.sampleInFlight == r.sampleInFlight
  {
    hide WB.Decide, Carry, MetricEffects;
    var (b, action) := WB.Decide(r.brain.value.(mode := mode), WorldOf(side, r, associated, now));
    CarryTakesNoSample(cfg, r.(brain := Some(b)), b, action, now / 1000);
  }

  lemma CarryTakesNoSample(cfg: Config, r: WirelessSide, b: WB.State, action: WB.Action, secs: nat)
    ensures Carry(cfg, r, b, action, secs).side.sampleInFlight == r.sampleInFlight
  {
    hide WB.OnAuth;
  }

  lemma PopKeepsHistory(w: World, o: Oracle)
    requires w.todo == [] && w.queue != [] && Historic(w)
    ensures Historic(Pop(w, o)) && Pop(w, o).core.cfg == w.core.cfg
  {
    hide React;
    var w' := Pop(w, o);
    ConfigKept(w.core, w.queue[0], w'.now);
    PastIsStable(w.core.cfg, w.past, w'.past[|w.past|], |w.past|);
  }

  lemma ConfigKept(s: Core, ev: Event, now: nat)
    ensures React(s, ev, now).core.cfg == s.cfg
  {
    hide AirStep, N.MaybeNotify, N.Allowed, N.OnResult;
  }

  lemma {:induction false} PastIsStable(cfg: Config, past: seq<Runs.Stamped>, x: Runs.Stamped, i: nat)
    requires i <= |past|
    ensures Runs.StateAt(cfg, past + [x], i) == Runs.StateAt(cfg, past, i)
  {
    hide React;
    if i > 0 { PastIsStable(cfg, past, x, i - 1); }
  }

  lemma PopKeepsDebts(w: World, o: Oracle)
    requires w.todo == [] && w.queue != [] && CoreSane(w.core) && Owing(w) && Fed(w)
    ensures Owing(Pop(w, o)) && CoreSane(Pop(w, o).core) && Fed(Pop(w, o))
  {
    hide React, Any;
    var ev, now := w.queue[0], w.now + o.dt;
    AnyRest(IsStepAnswer, w.queue);
    AnyRest(IsLinkSample, w.queue);
    AnyRest(IsAirSample, w.queue);
    if Outer(ev) {
      NothingQueued(w);
      ReactKeepsSane(w.core, ev, now);
      ReactFromRest(w.core, ev, now);
    } else {
      ReactKeepsSane(w.core, ev, now);
      ReactToResult(w.core, ev, now);
    }
  }

  lemma NothingQueued(w: World)
    requires |w.queue| == 1 && Outer(w.queue[0]) && w.todo == [] && CoreSane(w.core) && Owing(w)
    ensures Armed(w.core) && !Any(IsStepAnswer, w.queue[1..]) && !Any(IsLinkSample, w.queue[1..]) && !Any(IsAirSample, w.queue[1..])
  {}

  lemma MicroKeepsInv(w: World, o: Oracle)
    requires !w.Idle() && Inv(w)
    ensures Inv(Micro(w, o)) && Micro(w, o).core.cfg == w.core.cfg && Micro(w, o).dogCfg == w.dogCfg
  {
    hide React, Owing, Historic, CoreSane, LinkAgrees, Fed, W.RunOnce, W.State.Valid;
    if w.todo != [] {
      ExecKeepsHistory(w, o);
      ExecKeepsLinks(w, o);
      ExecKeepsDebts(w, o);
      ExecFrame(w, o);
      assert Owing(Exec(w, o)) by { DebtsByOut(w, Exec(w, o)); }
    } else {
      PopKeepsHistory(w, o);
      PopKeepsDebts(w, o);
      PopKeepsLinks(w, o);
      PopFrame(w, o);
    }
  }

  lemma ExecFrame(w: World, o: Oracle)
    requires w.todo != []
    ensures Exec(w, o).core == w.core && Exec(w, o).dogCfg == w.dogCfg && Exec(w, o).past == w.past
    ensures w.steps <= Exec(w, o).steps
  {
    hide W.RunOnce, Log;
  }

  lemma PopFrame(w: World, o: Oracle)
    requires w.todo == [] && w.queue != []
    ensures Pop(w, o).dog == w.dog && Pop(w, o).dogCfg == w.dogCfg && Pop(w, o).log == w.log && Pop(w, o).steps == w.steps
  {
    hide React;
  }

  lemma DebtsByOut(w: World, w': World)
    requires Owing(w) && w'.core == w.core
    requires (StepOut(w') <==> StepOut(w)) && (LinkOut(w') <==> LinkOut(w)) && (AirOut(w') <==> AirOut(w))
    ensures Owing(w')
  {
    hide StepOut, LinkOut, AirOut;
  }

  lemma PopKeepsLinks(w: World, o: Oracle)
    requires w.todo == [] && w.queue != [] && LinkAgrees(w)
    ensures LinkAgrees(Pop(w, o))
  {
    hide React;
    ReactTellsTheLink(w.core, w.queue[0], w.now + o.dt);
  }

  lemma {:induction false} DrainKeepsInv(env: nat -> Oracle, w: World)
    requires Inv(w)
    ensures var r := Drained(env, w); Inv(r) && r.core.cfg == w.core.cfg && r.dogCfg == w.dogCfg
    decreases Weight(w), |w.todo|
  {
    hide Inv, Micro;
    if !w.Idle() {
      MicroKeepsInv(w, env(w.tick));
      MicroDecreases(w, env(w.tick));
      DrainKeepsInv(env, Micro(w, env(w.tick)));
    }
  }

  // ---------------------------------------------------------------------------
  // Whole lives of the service
  // ---------------------------------------------------------------------------

  /** An event from outside reaches the idle loop of `run`; a stop signal also flips `stopping`. */
  function Feed(env: nat -> Oracle, w: World, ev: Event): World
    requires w.Idle()
  {
    Drained(env, w.(queue := [ev], stopping := w.stopping || ev.Stop?))
  }

  function Boot(cfg: Config, dogCfg: W.Cfg): World {
    World(New(cfg), dogCfg, W.INITIAL, [], [], [], [], false, cfg.mode, 0, None, 0, [], [], [], [], [], 0)
  }

  /** Started first, then whatever comes. */
  function ServiceAfter(env: nat -> Oracle, cfg: Config, dogCfg: W.Cfg, events: seq<Event>): (w: World)
    ensures w.Idle()
  {
    if events == [] then Feed(env, Boot(cfg, dogCfg), Started)
    else Feed(env, ServiceAfter(env, cfg, dogCfg, events[..|events| - 1]), events[|events| - 1])
  }

  lemma FeedKeepsInv(env: nat -> Oracle, w: World, ev: Event)
    requires w.Idle() && Inv(w) && Outer(ev)
    ensures Inv(Feed(env, w, ev)) && Feed(env, w, ev).core.cfg == w.core.cfg
  {
    hide Drained, CoreSane;
    DrainKeepsInv(env, w.(queue := [ev], stopping := w.stopping || ev.Stop?));
  }

  lemma BootInv(cfg: Config, dogCfg: W.Cfg)
    ensures Inv(Boot(cfg, dogCfg))
  {}

  lemma {:induction false} ServiceInv(env: nat -> Oracle, cfg: Config, dogCfg: W.Cfg, events: seq<Event>)
    requires forall ev | ev in events :: Outer(ev)
    ensures Inv(ServiceAfter(env, cfg, dogCfg, events)) && ServiceAfter(env, cfg, dogCfg, events).core.cfg == cfg
  {
    hide Inv, Feed;
    BootInv(cfg, dogCfg);
    if events == [] {
      FeedKeepsInv(env, Boot(cfg, dogCfg), Started);
    } else {
      ServiceInv(env, cfg, dogCfg, events[..|events| - 1]);
      FeedKeepsInv(env, ServiceAfter(env, cfg, dogCfg, events[..|events| - 1]), events[|events| - 1]);
    }
  }

  /** Over every life of the service, whatever the outside answers: each dial was made
      without a session in hand and over the very link state the supervisor held, never a
      cable known to be out; and at rest nothing is in flight, no step is half begun, a
      deadline is armed, and the executor's own timer goes off within two seconds of the last
      event and no later than that deadline, unless it is already past. */
  lemma ServiceIsSafeAndArmed(env: nat -> Oracle, cfg: Config, dogCfg: W.Cfg, events: seq<Event>)
    requires forall ev | ev in events :: Outer(ev)
    ensures var w := ServiceAfter(env, cfg, dogCfg, events);
            && (forall l | l in w.log && l.op.Dial? ::
                  !l.op.sessionHeld && l.op.link == l.coreLink && l.op.link != Some(false))
            && (w.core.Running() ==>
                  !w.core.wired.sampleInFlight && !w.core.air.sampleInFlight && !w.core.wired.stepPending
                  && w.core.wired.deadline.Some?)
            && w.dog.ethLink == w.core.wired.ethLink
            && w.core == Runs.StateAt(cfg, w.past, |w.past|) && Runs.Monotone(w.past) && w.past != []
            && var last := w.past[|w.past| - 1].now;
               (w.core.Running() ==>
                  && w.wakeAt.Some? && last <= w.wakeAt.value <= last + LINK_POLL_MS
                  && w.wakeAt.value <= Max(w.core.wired.deadline.value, last))
               && (!w.core.Running() ==> w.wakeAt.None?)
  {
    hide ServiceAfter;
    ServiceKeepsTime(env, cfg, dogCfg, events);
    if ServiceAfter(env, cfg, dogCfg, events).core.Running() {
      ServiceInv(env, cfg, dogCfg, events);
      IdleIsArmed(ServiceAfter(env, cfg, dogCfg, events));
      RestIsShort(ServiceAfter(env, cfg, dogCfg, events));
    }
    ServiceInv(env, cfg, dogCfg, events);
    IdleIsArmed(ServiceAfter(env, cfg, dogCfg, events));
  }

  // ---------------------------------------------------------------------------
  // After Stop
  // ---------------------------------------------------------------------------

  /** A stopped supervisor steps no watchdog, and a session still up is about to be hung up. */
  predicate Halted(w: World) {
    w.core.stopped ==> StepWatchdog !in w.todo && (w.dog.session ==> Hangup in w.todo)
  }

  lemma ReactStops(s: Core, ev: Event, now: nat)
    ensures var r := React(s, ev, now);
            && (s.stopped ==> r.core.stopped && (s.started ==> r.effects == []))
            && (s.Running() && ev.Stop? ==> r.core.stopped)
            && (s.started ==> r.core.started) && (ev.Started? ==> r.core.started)
            && (s.started && r.core.stopped && !s.stopped ==> StepWatchdog !in r.effects && Hangup in r.effects)
            && (!s.started ==> r.core.stopped == s.stopped)
  {
    hide AirStep, WakeWired, WakeAir, LinkArrives, WB.New, N.MaybeNotify, N.Allowed, N.OnResult;
  }

  lemma MicroHalts(w: World, o: Oracle)
    requires !w.Idle() && Halted(w) && (w.core.stopped ==> w.core.started)
    ensures var w' := Micro(w, o);
            && Halted(w') && (w'.core.stopped ==> w'.core.started)
            && (w.core.stopped ==> w'.core.stopped && w'.steps == w.steps)
            && (w.core.started ==> w'.core.started)
  {
    hide React, W.RunOnce, Log;
    if w.todo == [] {
      ReactStops(w.core, w.queue[0], w.now + o.dt);
    } else {
      assert w.todo == [w.todo[0]] + w.todo[1..];
    }
  }

  lemma {:induction false} DrainHalts(env: nat -> Oracle, w: World)
    requires Halted(w) && (w.core.stopped ==> w.core.started)
    ensures var r := Drained(env, w);
            && Halted(r) && (r.core.stopped ==> r.core.started)
            && (w.core.stopped ==> r.core.stopped && r.steps == w.steps)
            && (w.core.started ==> r.core.started)
    decreases Weight(w), |w.todo|
  {
    hide Halted, Micro;
    if !w.Idle() {
      MicroHalts(w, env(w.tick));
      MicroDecreases(w, env(w.tick));
      DrainHalts(env, Micro(w, env(w.tick)));
    }
  }

  lemma FeedHalts(env: nat -> Oracle, w: World, ev: Event)
    requires w.Idle() && Halted(w) && (w.core.stopped ==> w.core.started)
    ensures var r := Feed(env, w, ev);
            && Halted(r) && (r.core.stopped ==> r.core.started)
            && (w.core.stopped ==> r.core.stopped && r.steps == w.steps)
            && (w.core.started || ev.Started? ==> r.core.started)
            && (w.core.started && ev.Stop? ==> r.core.stopped)
  {
    var fed := w.(queue := [ev], stopping := w.stopping || ev.Stop?);
    var next := Micro(fed, env(fed.tick));
    assert next.core == React(w.core, ev, w.now + env(fed.tick).dt).core;
    hide React, Micro;
    ReactStops(w.core, ev, w.now + env(fed.tick).dt);
    MicroHalts(fed, env(fed.tick));
    MicroDecreases(fed, env(fed.tick));
    DrainHalts(env, next);
    DrainOneMore(env, fed);
  }

  lemma {:induction false} ServiceHalts(env: nat -> Oracle, cfg: Config, dogCfg: W.Cfg, events: seq<Event>)
    ensures var w := ServiceAfter(env, cfg, dogCfg, events);
            && Halted(w) && w.core.started && (Stop in events ==> w.core.stopped)
  {
    hide Feed, Halted;
    if events == [] {
      assert Halted(Boot(cfg, dogCfg)) && !Boot(cfg, dogCfg).core.stopped by { BootHalts(cfg, dogCfg); }
      FeedHalts(env, Boot(cfg, dogCfg), Started);
    } else {
      var before, ev := events[..|events| - 1], events[|events| - 1];
      ServiceHalts(env, cfg, dogCfg, before);
      assert events == before + [ev];
      FeedHalts(env, ServiceAfter(env, cfg, dogCfg, before), ev);
    }
  }

  lemma BootHalts(cfg: Config, dogCfg: W.Cfg)
    ensures Halted(Boot(cfg, dogCfg)) && !Boot(cfg, dogCfg).core.stopped
  {}

  /** In every life that has met a Stop, the service at rest is stopped for good: no session is
      held, no timer is set, and no later event makes the watchdog run again. */
  lemma StopHangsUp(env: nat -> Oracle, cfg: Config, dogCfg: W.Cfg, events: seq<Event>, later: Event)
    requires Stop in events
    ensures var w := ServiceAfter(env, cfg, dogCfg, events);
            && w.core.stopped && !w.dog.session && w.wakeAt.None?
            && Feed(env, w, later).steps == w.steps && Feed(env, w, later).core.stopped
  {
    hide Feed;
    ServiceHalts(env, cfg, dogCfg, events);
    ServiceKeepsTime(env, cfg, dogCfg, events);
    FeedHalts(env, ServiceAfter(env, cfg, dogCfg, events), later);
  }

  // ---------------------------------------------------------------------------
  // A due deadline is served
  // ---------------------------------------------------------------------------

  /** A watchdog step is on its way. */
  predicate Coming(w: World) { w.core.wired.stepPending || StepWatchdog in w.todo }

  lemma MicroServes(w: World, o: Oracle)
    requires !w.Idle() && Inv(w)
    ensures var w' := Micro(w, o); w'.steps >= w.steps && (Coming(w) ==> Coming(w') || w'.steps > w.steps)
  {
    hide W.RunOnce;
    if w.todo == [] && Coming(w) {
      hide React, Any;
      var ev, now := w.queue[0], w.now + o.dt;
      AnyRest(IsStepAnswer, w.queue);
      assert !Outer(ev) by { if Outer(ev) { NothingQueued(w); } }
      PendingSurvives(w.core, ev, now);
    } else if w.todo == [] {
      PopFrame(w, o);
    } else {
      hide React, Log, Inv;
      assert w.todo == [w.todo[0]] + w.todo[1..];
    }
  }

  lemma PendingSurvives(s: Core, ev: Event, now: nat)
    requires CoreSane(s) && s.wired.stepPending && s.wired.sampleInFlight && !Outer(ev) && !ev.WatchdogStepped?
    ensures var r := React(s, ev, now); r.core.wired.stepPending || StepWatchdog in r.effects
  {
    hide AirStep, N.MaybeNotify, N.Allowed, N.OnResult;
  }

  lemma {:induction false} DrainServes(env: nat -> Oracle, w: World)
    requires Inv(w)
    ensures Drained(env, w).steps >= w.steps && (Coming(w) ==> Drained(env, w).steps > w.steps)
    decreases Weight(w), |w.todo|
  {
    hide Inv, Micro, Coming;
    if w.Idle() {
      assert !Coming(w) by { NothingComes(w); }
    } else {
      MicroServes(w, env(w.tick));
      MicroKeepsInv(w, env(w.tick));
      MicroDecreases(w, env(w.tick));
      DrainServes(env, Micro(w, env(w.tick)));
    }
  }

  lemma NothingComes(w: World)
    requires w.Idle() && Inv(w)
    ensures !Coming(w)
  {
    IdleIsArmed(w);
    hide React;
  }

  /** The deadline of a service at rest is honoured: a wake-up handled at or after it makes
      the watchdog run before the loop comes to rest again. */
  lemma DueWakeRunsTheWatchdog(env: nat -> Oracle, w: World)
    requires w.Idle() && Inv(w) && w.core.Running()
    requires w.now + env(w.tick).dt >= w.core.wired.deadline.value
    ensures Feed(env, w, Wake).steps > w.steps
  {
    var fed := w.(queue := [Wake]);
    var next := Micro(fed, env(w.tick));
    WakeMakesItCome(w.core, w.now + env(w.tick).dt);
    FedInv(w, Wake);
    MicroKeepsInv(fed, env(w.tick));
    MicroServes(fed, env(w.tick));
    MicroDecreases(fed, env(w.tick));
    DrainServes(env, next);
  }

  lemma FedInv(w: World, ev: Event)
    requires w.Idle() && Inv(w) && Outer(ev)
    ensures Inv(w.(queue := [ev], stopping := w.stopping || ev.Stop?))
  {
    hide CoreSane;
  }

  lemma WakeMakesItCome(s: Core, now: nat)
    requires s.Running() && Armed(s) && now >= s.wired.deadline.value
    ensures React(s, Wake, now).core.wired.stepPending
  {}

  // ---------------------------------------------------------------------------
  // The object
  // ---------------------------------------------------------------------------

  /** `Shell` of src/runtime.rs, over the supervisor and watchdog objects. `env` is the
      outside; `now` and `tick` say how far it has been read. */
  class Shell {
    const core: Sup.Supervisor
    const dog: W.Watchdog
    const env: nat -> Oracle
    var lane: seq<Effect>
    var shutdownEffects: seq<Effect>
    var stopping: bool
    var savedMode: NetMode
    var wakeAt: Option<nat>
    var now: nat
    var tick: nat
    ghost var past: seq<Runs.Stamped>
    ghost var done: seq<Effect>
    ghost var calls: seq<W.Call>
    ghost var moments: seq<Moment>
    ghost var log: seq<Logged>
    ghost var steps: nat

    ghost function View(queue: seq<Event>, todo: seq<Effect>): World
      reads this, core, core.brain, core.notifications, dog, dog.dialer, dog.backoff
    {
      World(core.View(), dog.cfg, dog.View(), queue, todo, lane, shutdownEffects, stopping, savedMode,
            now, wakeAt, tick, past, done, calls, moments, log, steps)
    }

    ghost predicate Valid()
      reads this, core, core.brain, core.notifications, dog, dog.dialer, dog.backoff
    {
      core.Valid() && core.clock <= now && dog.Wired()
    }

    constructor (cfg: Config, dogCfg: W.Cfg, env: nat -> Oracle)
      ensures Valid() && View([], []) == Boot(cfg, dogCfg) && this.env == env
    {
      core := new Sup.Supervisor(cfg);
      dog := new W.Watchdog(dogCfg);
      this.env := env;
      lane, shutdownEffects, stopping, savedMode := [], [], false, cfg.mode;
      wakeAt, now, tick := None, 0, 0;
      past, done, calls, moments, log, steps := [], [], [], [], [], 0;
    }

    /** Handle the queued events and everything that follows from them. */
    method Drain(events: seq<Event>)
      requires Valid()
      modifies this, core, core.brain, core.notifications, dog, dog.dialer, dog.backoff
      ensures Valid()
      ensures View([], []) == Drained(env, old(View(events, [])))
    {
      hide Drained, Micro, Weight, Valid, View;
      var queue: seq<Event>, todo: seq<Effect> := events, [];
      ghost var goal := Drained(env, View(events, []));
      while queue != []
        invariant Valid() && (core.brain == old(core.brain) || core.brain == null)
        invariant todo == [] && Drained(env, View(queue, [])) == goal
        decreases Weight(View(queue, []))
      {
        ghost var w := View(queue, []);
        ViewParts(queue, []);
        DrainOneMore(env, w);
        queue, todo := Handle(queue);
        while todo != []
          invariant Valid() && (core.brain == old(core.brain) || core.brain == null)
          invariant Drained(env, View(queue, todo)) == goal
          invariant Weight(View(queue, todo)) < Weight(w)
          decreases |todo|
        {
          ViewParts(queue, todo);
          DrainOneMore(env, View(queue, todo));
          queue, todo := Execute(queue, todo);
        }
      }
      ViewParts([], []);
      DrainedAtRest(env, View([], []));
    }

    lemma ViewParts(queue: seq<Event>, todo: seq<Effect>)
      ensures View(queue, todo).queue == queue && View(queue, todo).todo == todo && View(queue, todo).tick == tick
    {}

    /** Let the supervisor react to the first event. */
    method Handle(queue: seq<Event>) returns (rest: seq<Event>, todo: seq<Effect>)
      requires Valid() && queue != []
      modifies this, core, core.brain, core.notifications
      ensures Valid() && (core.brain == old(core.brain) || core.brain == null)
      ensures View(rest, todo) == Micro(old(View(queue, [])), env(old(tick)))
      ensures Weight(View(rest, todo)) < Weight(old(View(queue, [])))
    {
      hide React, Weight, Micro, W.State.Valid, W.Watchdog.View, W.Watchdog.Wired, Sup.Supervisor.View, Sup.Supervisor.Valid;
      MicroDecreases(View(queue, []), env(tick));
      MicroPops(View(queue, []), env(tick));
      rest := queue[1..];
      now, tick := now + env(tick).dt, tick + 1;
      past := past + [Runs.Stamped(queue[0], now)];
      todo, wakeAt := core.On(queue[0], now);
    }

    /** Run the first effect, in line or through the worker's lane. */
    method Execute(queue: seq<Event>, todo: seq<Effect>) returns (after: seq<Event>, rest: seq<Effect>)
      requires Valid() && todo != []
      modifies this, dog, dog.dialer, dog.backoff
      ensures Valid() && rest == todo[1..]
      ensures View(after, rest) == Micro(old(View(queue, todo)), env(old(tick)))
      ensures Weight(View(after, rest)) <= Weight(old(View(queue, todo)))
    {
      hide Weight, ExecMain, Forward, Pop, W.State.Valid, W.Watchdog.View, W.Watchdog.Wired, Sup.Supervisor.View, Sup.Supervisor.Valid;
      MicroDecreases(View(queue, todo), env(tick));
      var o := env(tick);
      rest := todo[1..];
      var e := todo[0];
      done := done + [e];
      now, tick := now + o.dt, tick + 1;
      if e.MainLane() {
        after := ExecuteMain(queue, rest, e, o);
      } else {
        after := queue;
        PassOn(queue, rest, e);
      }
    }

    method PassOn(ghost queue: seq<Event>, ghost rest: seq<Effect>, e: Effect)
      requires Valid()
      modifies this`lane, this`shutdownEffects
      ensures Valid() && View(queue, rest) == Forward(old(View(queue, rest)), e)
    {
      if stopping { shutdownEffects := shutdownEffects + [e]; } else { lane := lane + [e]; }
    }

    /** Remember a call to the watchdog. */
    ghost method Called(c: W.Call)
      modifies this`calls, this`moments
      ensures calls == old(calls) + [c] && moments == old(moments) + [Moment(now, |past|)]
    {
      calls, moments := calls + [c], moments + [Moment(now, |past|)];
    }

    method StepDog(queue: seq<Event>, ghost rest: seq<Effect>, o: Oracle) returns (after: seq<Event>)
      requires Valid()
      modifies this`calls, this`moments, this`log, this`steps, dog, dog.dialer, dog.backoff
      ensures Valid() && View(after, rest) == ExecMain(old(View(queue, rest)), StepWatchdog, o)
    {
      hide W.RunOnce, W.State.Valid;
      var delay, ops := dog.Step(o.answers);
      after := queue + [WatchdogStepped(delay, dog.View().View(), o.pppIp)];
      Called(W.Runs(o.answers));
      log, steps := log + Log(ops, core.ethLink), steps + 1;
    }

    method CallDog(queue: seq<Event>, ghost rest: seq<Effect>, e: Effect, o: Oracle)
      requires Valid() && (e.RequestRedial? || e.SetWatchdogLink? || e.Hangup?)
      modifies this`calls, this`moments, this`log, dog, dog.dialer
      ensures Valid() && View(queue, rest) == ExecMain(old(View(queue, rest)), e, o)
    {
      hide W.RunOnce, W.State.Valid, W.Watchdog.View, W.Watchdog.Wired, Log, Sup.Supervisor.Valid;
      match e {
        case RequestRedial =>
          dog.RequestRedial();
          Called(W.Asks);
        case SetWatchdogLink(up) =>
          dog.SetEthLink(up);
          Called(W.Link(up));
        case Hangup =>
          dog.Shutdown();
          Called(W.Shuts);
          log := log + Log([W.Hangup], core.ethLink);
      }
    }

    /** The effects that read or write something other than the watchdog. */
    method Attend(queue: seq<Event>, ghost rest: seq<Effect>, e: Effect, o: Oracle) returns (after: seq<Event>)
      requires Valid() && (e.SampleLink? || e.SampleWireless? || e.PersistMode? || e.Notify?)
      modifies this`savedMode
      ensures Valid() && View(after, rest) == ExecMain(old(View(queue, rest)), e, o)
    {
      hide W.RunOnce, W.State.Valid, W.Watchdog.View, W.Watchdog.Wired, Log, Sup.Supervisor.View, Sup.Supervisor.Valid;
      after := queue;
      match e {
        case SampleLink => after := queue + [LinkSampled(o.linkUp, o.pppIp)];
        case SampleWireless => after := queue + [WirelessSampled(o.associated, o.wlan)];
        case PersistMode(m) => savedMode := m;
        case Notify(key) => after := queue + [NotifyResult(key, o.toasted)];
      }
    }

    /** `exec_main` */
    method ExecuteMain(queue: seq<Event>, ghost rest: seq<Effect>, e: Effect, o: Oracle) returns (after: seq<Event>)
      requires Valid() && e.MainLane()
      modifies this`savedMode, this`calls, this`moments, this`log, this`steps, dog, dog.dialer, dog.backoff
      ensures Valid()
      ensures View(after, rest) == ExecMain(old(View(queue, rest)), e, o)
    {
      hide ExecMain, View, Valid;
      after := queue;
      match e {
        case StepWatchdog => after := StepDog(queue, rest, o);
        case RequestRedial => CallDog(queue, rest, e, o);
        case SetWatchdogLink(_) => CallDog(queue, rest, e, o);
        case Hangup => CallDog(queue, rest, e, o);
        case _ => after := Attend(queue, rest, e, o);
      }
    }
  }

  lemma DrainOneMore(env: nat -> Oracle, w: World)
    requires !w.Idle()
    ensures Drained(env, w) == Drained(env, Micro(w, env(w.tick)))
  {}

  lemma DrainedAtRest(env: nat -> Oracle, w: World)
    requires w.Idle()
    ensures Drained(env, w) == w
  {}
}
