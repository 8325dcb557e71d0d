/** The composed service, end to end: what the supervisor demands is what is executed, what
    the watchdog answers is what the supervisor believes, and its delays are kept. */
module ServiceRuns {
  import opened Types
  import opened Sup = Supervisor
  import opened Shell
  import Runs = SupervisorRuns
  import W = Watchdog
  import WB = WirelessBrain
  import N = Notifications
  import B = Backoff

  // ---------------------------------------------------------------------------
  // Everything demanded is executed, once and in order
  // ---------------------------------------------------------------------------

  /** All effects demanded by the first `i` events of a run, in order. */
  function Demanded(cfg: Config, run: seq<Runs.Stamped>, i: nat): seq<Effect>
    requires i <= |run|
  {
    if i == 0 then [] else Demanded(cfg, run, i - 1) + Runs.EffectsAt(cfg, run, i - 1)
  }

  function Part(p: Effect -> bool, effects: seq<Effect>): seq<Effect> {
    if effects == [] then []
    else
      var n := |effects| - 1;
      Part(p, effects[..n]) + if p(effects[n]) then [effects[n]] else []
  }

  predicate ForTheDog(e: Effect) { e.StepWatchdog? || e.RequestRedial? || e.SetWatchdogLink? || e.Hangup? }

  predicate ForTheWorker(e: Effect) { !e.MainLane() }

  /** The effect a watchdog call carries out. */
  function EffectOf(c: W.Call): Effect {
    match c
    case Runs(_) => StepWatchdog
    case Link(up) => SetWatchdogLink(up)
    case Asks => RequestRedial
    case Shuts => Hangup
  }

  function Kinds(calls: seq<W.Call>): (kinds: seq<Effect>)
    ensures |kinds| == |calls| && forall i | 0 <= i < |calls| :: kinds[i] == EffectOf(calls[i])
  {
    seq(|calls|, i requires 0 <= i < |calls| => EffectOf(calls[i]))
  }

  /** The mode last persisted. */
  function LastMode(mode: NetMode, done: seq<Effect>): NetMode {
    if done == [] then mode
    else if done[|done| - 1].PersistMode? then done[|done| - 1].newMode
    else LastMode(mode, done[..|done| - 1])
  }

  /** Nothing is lost, invented, repeated or reordered between the supervisor and those who
      carry out its effects; the watchdog has lived exactly the calls it was made. */
  ghost predicate Carried(w: World) {
    && w.done + w.todo == Demanded(w.core.cfg, w.past, |w.past|)
    && Kinds(w.calls) == Part(ForTheDog, w.done) && |w.moments| == |w.calls|
    && w.dog == W.StateAt(w.dogCfg, w.calls, |w.calls|)
    && Part(ForTheWorker, w.done) == w.lane + w.atStop && (!w.stopping ==> w.atStop == [])
    && w.savedMode == LastMode(w.core.cfg.mode, w.done)
  }

  lemma PartOne(p: Effect -> bool, effects: seq<Effect>, e: Effect)
    ensures Part(p, effects + [e]) == Part(p, effects) + if p(e) then [e] else []
    ensures forall mode :: LastMode(mode, effects + [e]) == if e.PersistMode? then e.newMode else LastMode(mode, effects)
  {
    assert (effects + [e])[..|effects|] == effects;
  }

  lemma OneMoreCall(cfg: W.Cfg, calls: seq<W.Call>, c: W.Call)
    ensures W.StateAt(cfg, calls + [c], |calls| + 1) == W.Apply(cfg, W.StateAt(cfg, calls, |calls|), c).s
    ensures Kinds(calls + [c]) == Kinds(calls) + [EffectOf(c)]
  {
    CallsAreStable(cfg, calls, c, |calls|);
  }

  lemma {:induction false} CallsAreStable(cfg: W.Cfg, calls: seq<W.Call>, c: W.Call, i: nat)
    requires i <= |calls|
    ensures W.StateAt(cfg, calls + [c], i) == W.StateAt(cfg, calls, i)
    ensures i < |calls| ==> W.ResultAt(cfg, calls + [c], i) == W.ResultAt(cfg, calls, i)
  {
    hide W.Apply;
    if i > 0 { CallsAreStable(cfg, calls, c, i - 1); }
  }

  lemma {:induction false} DemandsAreStable(cfg: Config, past: seq<Runs.Stamped>, x: Runs.Stamped, i: nat)
    requires i <= |past|
    ensures Demanded(cfg, past + [x], i) == Demanded(cfg, past, i)
  {
    hide React;
    if i > 0 {
      DemandsAreStable(cfg, past, x, i - 1);
      PastIsStable(cfg, past, x, i - 1);
    }
  }

  /** What executing an effect does to the calls made, to the lanes and to the saved mode. */
  lemma ExecDoes(w: World, o: Oracle)
    requires w.todo != []
    ensures var w', e := Exec(w, o), w.todo[0];
            && w'.done == w.done + [e] && w'.todo == w.todo[1..] && w'.past == w.past && w'.core == w.core
            && w'.dogCfg == w.dogCfg && w'.stopping == w.stopping && w'.now == w.now + o.dt
            && (if ForTheDog(e) then
                  |w'.calls| == |w.calls| + 1 && EffectOf(w'.calls[|w.calls|]) == e && w'.calls[..|w.calls|] == w.calls
                  && w'.moments == w.moments + [Moment(w'.now, |w.past|)]
                  && w'.dog == W.Apply(w.dogCfg, w.dog, w'.calls[|w.calls|]).s
                else w'.calls == w.calls && w'.moments == w.moments && w'.dog == w.dog)
            && (if ForTheWorker(e) then (if w.stopping then w'.lane == w.lane && w'.atStop == w.atStop + [e]
                                         else w'.lane == w.lane + [e] && w'.atStop == w.atStop)
                else w'.lane == w.lane && w'.atStop == w.atStop)
            && w'.savedMode == (if e.PersistMode? then e.newMode else w.savedMode)
  {
    hide W.RunOnce, Log;
  }

  lemma ExecCallsTheDog(w: World, o: Oracle)
    requires w.todo != [] && Carried(w)
    ensures var w' := Exec(w, o);
            && Kinds(w'.calls) == Part(ForTheDog, w'.done) && |w'.moments| == |w'.calls|
            && w'.dog == W.StateAt(w'.dogCfg, w'.calls, |w'.calls|)
  {
    ExecDoes(w, o);
    hide Exec, W.Apply, Part, LastMode, Demanded, W.StateAt, Kinds;
    var w', e := Exec(w, o), w.todo[0];
    PartOne(ForTheDog, w.done, e);
    if ForTheDog(e) {
      var c := w'.calls[|w.calls|];
      assert w'.calls == w.calls + [c];
      OneMoreCall(w.dogCfg, w.calls, c);
    }
  }

  lemma ExecPassesOn(w: World, o: Oracle)
    requires w.todo != [] && Carried(w)
    ensures var w' := Exec(w, o);
            && Part(ForTheWorker, w'.done) == w'.lane + w'.atStop && (!w'.stopping ==> w'.atStop == [])
            && w'.savedMode == LastMode(w'.core.cfg.mode, w'.done)
  {
    ExecDoes(w, o);
    hide Exec, W.Apply, Part, LastMode, Demanded, W.StateAt, Kinds;
    var e := w.todo[0];
    PartOne(ForTheWorker, w.done, e);
    assert w.lane + (w.atStop + [e]) == w.lane + w.atStop + [e];
    assert w.lane + [e] + [] == w.lane + [] + [e];
  }

  lemma ExecCarries(w: World, o: Oracle)
    requires w.todo != [] && Carried(w)
    ensures Carried(Exec(w, o))
  {
    hide Exec, W.Apply, Part, LastMode, Demanded, W.StateAt, Kinds, ForTheDog, ForTheWorker;
    ExecDoes(w, o);
    ExecCallsTheDog(w, o);
    ExecPassesOn(w, o);
    Resplit(w.done, w.todo);
  }

  lemma Resplit(done: seq<Effect>, todo: seq<Effect>)
    requires todo != []
    ensures (done + [todo[0]]) + todo[1..] == done + todo
  {}

  lemma PopCarries(w: World, o: Oracle)
    requires w.todo == [] && w.queue != [] && Carried(w) && Historic(w)
    ensures Carried(Pop(w, o))
  {
    hide React, Part, LastMode, W.StateAt, Kinds;
    var x := Runs.Stamped(w.queue[0], w.now + o.dt);
    DemandsAreStable(w.core.cfg, w.past, x, |w.past|);
    PastIsStable(w.core.cfg, w.past, x, |w.past|);
    ConfigKept(w.core, x.ev, x.now);
    assert w.done + [] == w.done;
  }

  // ---------------------------------------------------------------------------
  // At most one watchdog step is under way
  // ---------------------------------------------------------------------------

  ghost predicate AtMostOneStep(w: World) {
    && (forall i, j | 0 <= i < j < |w.todo| && w.todo[i] == StepWatchdog :: w.todo[j] != StepWatchdog)
    && (forall i, j | 0 <= i < j < |w.queue| && w.queue[i].WatchdogStepped? :: !w.queue[j].WatchdogStepped?)
    && (StepWatchdog in w.todo ==> forall i | 0 <= i < |w.queue| :: !w.queue[i].WatchdogStepped?)
  }

  /** While a step is under way nothing else of the wired guard is. */
  ghost predicate Calm(w: World) {
    var d := w.core.wired;
    && (StepOut(w) ==> d.deadline.None? && !d.stepPending && !d.sampleInFlight)
    && (d.stepPending ==> d.deadline.None?)
    && AtMostOneStep(w)
  }

  /** The reactions that matter here: what they leave of deadline, pending step and sample,
      and that they demand one step at most. */
  lemma ReactCalm(s: Core, ev: Event, now: nat)
    requires CoreSane(s) && (s.wired.stepPending ==> s.wired.deadline.None?) && (Outer(ev) ==> Armed(s))
    ensures var r := React(s, ev, now); var d, d' := s.wired, r.core.wired;
            && (d'.stepPending ==> d'.deadline.None?)
            && (StepWatchdog in r.effects ==> d'.deadline.None? && !d'.stepPending && !d'.sampleInFlight)
            && (StepWatchdog in r.effects ==> Outer(ev) || (ev.LinkSampled? && d.sampleInFlight))
            && (forall i, j | 0 <= i < j < |r.effects| && r.effects[i] == StepWatchdog :: r.effects[j] != StepWatchdog)
            && (!Outer(ev) && !ev.WatchdogStepped? && !d.sampleInFlight ==> d' == d)
  {
    if s.Running() && AirEvent(ev) {
      hide React, AirStep;
      ReactAir(s, ev, now);
      Runs.AirStaysInItsLane(s, ev, now);
      var effects := React(s, ev, now).effects;
      assert forall i | 0 <= i < |effects| :: effects[i] in effects;
    } else {
      hide AirStep, WakeAir, WB.New, N.MaybeNotify, N.Allowed, N.OnResult;
      if s.Running() && ev.Wake? { WakeAirStepsNothing(s.air, now); }
    }
  }

  lemma WakeAirStepsNothing(r: WirelessSide, now: nat)
    ensures forall e | e in WakeAir(r, now).effects :: e == SampleWireless
    ensures |WakeAir(r, now).effects| <= 1
  {}

  lemma ExecCalm(w: World, o: Oracle)
    requires w.todo != [] && Calm(w)
    ensures Calm(Exec(w, o))
  {
    ExecKeepsDebts(w, o);
    ExecQueues(w, o);
    hide Exec, React, StepOut;
    var w' := Exec(w, o);
    assert forall i | 0 <= i < |w'.todo| :: w'.todo[i] == w.todo[i + 1];
    assert w.todo[0] in w.todo;
    assert forall i | 0 <= i < |w.queue| :: w'.queue[i] == w.queue[i];
  }

  /** What executing an effect puts into the queue. */
  lemma ExecQueues(w: World, o: Oracle)
    requires w.todo != []
    ensures var w', e := Exec(w, o), w.todo[0]; var n := |w.queue|;
            && w'.core == w.core && w'.todo == w.todo[1..]
            && n <= |w'.queue| <= n + 1 && w'.queue[..n] == w.queue
            && (|w'.queue| == n + 1 ==> (w'.queue[n].WatchdogStepped? <==> e == StepWatchdog))
            && (e == StepWatchdog ==> |w'.queue| == n + 1)
  {
    hide W.RunOnce, Log;
  }

  lemma PopCalm(w: World, o: Oracle)
    requires w.todo == [] && w.queue != [] && Calm(w) && Inv(w)
    ensures Calm(Pop(w, o))
  {
    hide React, Historic, LinkAgrees, W.State.Valid, Any;
    var ev, now := w.queue[0], w.now + o.dt;
    AnyRest(IsStepAnswer, w.queue);
    if Outer(ev) { NothingQueued(w); }
    ReactCalm(w.core, ev, now);
    assert forall i | 0 <= i < |w.queue| - 1 :: w.queue[1..][i] == w.queue[i + 1];
    if StepWatchdog in React(w.core, ev, now).effects { NoAnswerBehind(w); }
    if ev.WatchdogStepped? { NoAnswerBehind(w); }
  }

  lemma NoAnswerBehind(w: World)
    requires w.todo == [] && w.queue != [] && Calm(w) && Fed(w)
    ensures (Outer(w.queue[0]) || w.queue[0].WatchdogStepped? || w.core.wired.sampleInFlight) ==>
              !Any(IsStepAnswer, w.queue[1..]) && forall i | 0 <= i < |w.queue[1..]| :: !w.queue[1..][i].WatchdogStepped?
  {
    if w.core.wired.sampleInFlight { assert !StepOut(w); }
    forall i | 0 <= i < |w.queue[1..]| ensures
      (Outer(w.queue[0]) || w.queue[0].WatchdogStepped? || w.core.wired.sampleInFlight) ==> !w.queue[1..][i].WatchdogStepped?
    {
      assert w.queue[1..][i] == w.queue[i + 1];
      if w.queue[i + 1].WatchdogStepped? { assert IsStepAnswer(w.queue[i + 1]) && Any(IsStepAnswer, w.queue); }
    }
  }

  // ---------------------------------------------------------------------------
  // What the watchdog answers is what the supervisor believes
  // ---------------------------------------------------------------------------

  /** The call that made the last step. */
  function LastStep(calls: seq<W.Call>): (k: Option<nat>)
    ensures k.Some? ==> k.value < |calls| && calls[k.value].Runs? && forall l | k.value < l < |calls| :: !calls[l].Runs?
    ensures k.None? ==> forall l | 0 <= l < |calls| :: !calls[l].Runs?
  {
    if calls == [] then None
    else if calls[|calls| - 1].Runs? then Some(|calls| - 1)
    else LastStep(calls[..|calls| - 1])
  }

  /** The delay the last step asked for. */
  function LastDelay(w: World): nat
    requires LastStep(w.calls).Some?
  {
    W.ResultAt(w.dogCfg, w.calls, LastStep(w.calls).value).delay
  }

  /** An answer on its way carries the delay of the last step and the session as it is. */
  ghost predicate Echoes(w: World) {
    forall i | 0 <= i < |w.queue| && w.queue[i].WatchdogStepped? ::
      LastStep(w.calls).Some? && w.queue[i].delay == LastDelay(w) && w.queue[i].session == w.dog.View()
  }

  /** With no answer on its way, the supervisor's session is the watchdog's. */
  ghost predicate Believes(w: World) {
    !w.core.stopped && !Any(IsStepAnswer, w.queue) ==> w.core.wired.session == w.dog.View()
  }

  lemma LastStepOf(calls: seq<W.Call>, c: W.Call)
    ensures LastStep(calls + [c]) == if c.Runs? then Some(|calls|) else LastStep(calls)
  {
    assert (calls + [c])[..|calls|] == calls;
  }

  /** A step answers with its own delay and the session it leaves. */
  lemma ExecAnswersTruly(w: World, o: Oracle)
    requires w.todo != [] && w.dog == W.StateAt(w.dogCfg, w.calls, |w.calls|)
    ensures var w', e := Exec(w, o), w.todo[0]; var n := |w.queue|;
            && (e == StepWatchdog ==>
                  && |w'.queue| == n + 1 && w'.queue[n].WatchdogStepped?
                  && LastStep(w'.calls) == Some(|w.calls|)
                  && w'.queue[n].delay == LastDelay(w') && w'.queue[n].session == w'.dog.View())
            && (e != StepWatchdog ==>
                  && w'.dog.View() == w.dog.View() && LastStep(w'.calls) == LastStep(w.calls)
                  && (LastStep(w.calls).Some? ==> LastDelay(w') == LastDelay(w)))
  {
    ExecDoes(w, o);
    var w', e := Exec(w, o), w.todo[0];
    if ForTheDog(e) {
      var c := w'.calls[|w.calls|];
      assert w'.calls == w.calls + [c];
      LastStepOf(w.calls, c);
      CallsAreStable(w.dogCfg, w.calls, c, |w.calls|);
      if LastStep(w.calls).Some? { CallsAreStable(w.dogCfg, w.calls, c, LastStep(w.calls).value); }
    }
    hide W.RunOnce, Log, W.StateAt;
  }

  /** The queue grows by at most one event, the answer of a step if it was one. */
  predicate QueuedOn(before: seq<Event>, after: seq<Event>, stepped: bool) {
    && |before| <= |after| <= |before| + 1 && after[..|before|] == before
    && (stepped ==> |after| == |before| + 1)
    && (|after| > |before| ==> (after[|before|].WatchdogStepped? <==> stepped))
  }

  lemma AnswersOn(before: seq<Event>, after: seq<Event>, stepped: bool)
    requires QueuedOn(before, after, stepped)
    ensures Any(IsStepAnswer, after) <==> Any(IsStepAnswer, before) || stepped
    ensures forall i | 0 <= i < |after| && after[i].WatchdogStepped? :: (i < |before| && after[i] == before[i]) || (i == |before| && stepped)
  {
    assert forall i | 0 <= i < |before| :: after[i] == before[i];
    if Any(IsStepAnswer, before) {
      var i :| 0 <= i < |before| && IsStepAnswer(before[i]);
      assert IsStepAnswer(after[i]);
    }
    if stepped { assert IsStepAnswer(after[|before|]); }
  }

  lemma ExecBelieves(w: World, o: Oracle)
    requires w.todo != [] && Carried(w) && Calm(w) && Echoes(w) && Believes(w)
    ensures Echoes(Exec(w, o)) && Believes(Exec(w, o))
  {
    var w', stepped := Exec(w, o), w.todo[0] == StepWatchdog;
    ExecAnswersTruly(w, o);
    ExecQueues(w, o);
    NoAnswerBeside(w);
    hide Exec, W.StateAt, W.ResultAt, LastStep, LastDelay, Carried, Calm, Any, W.State.View;
    AnswersOn(w.queue, w'.queue, stepped);
  }

  lemma NoAnswerBeside(w: World)
    requires w.todo != [] && Calm(w)
    ensures w.todo[0] == StepWatchdog ==> forall i | 0 <= i < |w.queue| :: !w.queue[i].WatchdogStepped?
  {
    assert w.todo[0] in w.todo;
  }

  lemma ReactBelieves(s: Core, ev: Event, now: nat)
    ensures var r := React(s, ev, now);
            && (s.Running() && ev.WatchdogStepped? ==> r.core.wired.session == ev.session)
            && (!(s.Running() && ev.WatchdogStepped?) ==> r.core.wired.session == s.wired.session)
            && (s.stopped ==> r.core.stopped)
            && (ev.WatchdogStepped? ==> r.effects == [] || (|r.effects| == 1 && r.effects[0].Notify?))
  {
    hide AirStep, WakeAir, WB.New, N.MaybeNotify, N.Allowed, N.OnResult;
  }

  lemma PopBelieves(w: World, o: Oracle)
    requires w.todo == [] && w.queue != [] && Inv(w) && Calm(w) && Echoes(w) && Believes(w)
    requires w.queue[0].WatchdogStepped? ==> w.core.started
    ensures Echoes(Pop(w, o)) && Believes(Pop(w, o))
  {
    hide React, Historic, LinkAgrees, W.State.Valid, W.ResultAt, Any, CoreSane, Owing;
    var ev, now := w.queue[0], w.now + o.dt;
    AnyRest(IsStepAnswer, w.queue);
    ReactBelieves(w.core, ev, now);
    assert forall i | 0 <= i < |w.queue| - 1 :: w.queue[1..][i] == w.queue[i + 1];
  }

  // ---------------------------------------------------------------------------
  // The watchdog's delays are kept
  // ---------------------------------------------------------------------------

  /** Event `m` is one of the two that may bring a step forward. */
  ghost predicate Brings(cfg: Config, past: seq<Runs.Stamped>, m: nat)
    requires m < |past|
  {
    past[m].ev == Commanded(Redial) || Runs.LinkRestored(Runs.StateAt(cfg, past, m).wired, past[m].ev)
  }

  /** Such an event was among `from..to`. */
  ghost predicate Brought(cfg: Config, past: seq<Runs.Stamped>, from: nat, to: nat)
    requires to <= |past|
  {
    exists m: nat | from <= m < to :: Brings(cfg, past, m)
  }

  function Due(w: World, k: nat): nat
    requires k < |w.calls| == |w.moments|
  {
    w.moments[k].at + W.ResultAt(w.dogCfg, w.calls, k).delay
  }

  /** The next step is not before the last one's delay has passed, unless something brought it forward. */
  ghost predicate Paced(w: World) {
    |w.moments| == |w.calls| &&
    match LastStep(w.calls)
    case None => true
    case Some(k) =>
      && w.core.started && w.moments[k].at <= w.now && w.moments[k].seen <= |w.past|
      && (Brought(w.core.cfg, w.past, w.moments[k].seen, |w.past|)
          || (&& (w.core.wired.deadline.Some? ==> w.core.wired.deadline.value >= Due(w, k))
              && (w.core.wired.stepPending || StepWatchdog in w.todo ==> w.now >= Due(w, k))))
  }

  /** So it was between all steps so far. */
  ghost predicate Spaced(w: World) {
    && |w.moments| == |w.calls|
    && (forall k | 0 <= k < |w.calls| :: w.moments[k].seen <= |w.past| && w.moments[k].at <= w.now)
    && (forall k, l | 0 <= k <= l < |w.calls| :: w.moments[k].seen <= w.moments[l].seen && w.moments[k].at <= w.moments[l].at)
    && (forall k, l | 0 <= k < l < |w.calls| && w.calls[k].Runs? && w.calls[l].Runs? ::
          w.moments[l].at >= Due(w, k) || Brought(w.core.cfg, w.past, w.moments[k].seen, w.moments[l].seen))
  }

  lemma BroughtIsStable(cfg: Config, past: seq<Runs.Stamped>, x: Runs.Stamped, from: nat, to: nat)
    requires to <= |past|
    ensures Brought(cfg, past + [x], from, to) <==> Brought(cfg, past, from, to)
    ensures Brought(cfg, past, from, to) ==> Brought(cfg, past + [x], from, |past| + 1)
  {
    hide React, Brings;
    forall m: nat | m < |past| ensures Brings(cfg, past + [x], m) <==> Brings(cfg, past, m) {
      BringsIsStable(cfg, past, x, m);
    }
    if Brought(cfg, past, from, to) {
      var m: nat :| from <= m < to && Brings(cfg, past, m);
      assert Brings(cfg, past + [x], m);
    }
    if Brought(cfg, past + [x], from, to) {
      var m: nat :| from <= m < to && Brings(cfg, past + [x], m);
      assert Brings(cfg, past, m);
    }
  }

  lemma BringsIsStable(cfg: Config, past: seq<Runs.Stamped>, x: Runs.Stamped, m: nat)
    requires m < |past|
    ensures Brings(cfg, past + [x], m) <==> Brings(cfg, past, m)
  {
    hide React;
    PastIsStable(cfg, past, x, m);
    assert (past + [x])[m] == past[m];
  }

  lemma StepIsSpaced(w: World, w': World)
    requires OneCallOn(w, w') && |w'.calls| == |w.calls| + 1 && Paced(w) && Spaced(w) && StepWatchdog in w.todo
    ensures forall k | 0 <= k < |w.calls| && w.calls[k].Runs? ::
              w'.moments[|w.calls|].at >= Due(w', k) || Brought(w.core.cfg, w.past, w.moments[k].seen, |w.past|)
  {
    hide Brings, W.ResultAt, React;
    var last := LastStep(w.calls);
    forall k | 0 <= k < |w.calls| && w.calls[k].Runs?
      ensures w'.moments[|w.calls|].at >= Due(w', k) || Brought(w.core.cfg, w.past, w.moments[k].seen, |w.past|)
    {
      var l := last.value;
      if k < l && Brought(w.core.cfg, w.past, w.moments[k].seen, w.moments[l].seen) {
        var m: nat :| w.moments[k].seen <= m < w.moments[l].seen && Brings(w.core.cfg, w.past, m);
        assert m < |w.past|;
      }
    }
  }

  /** The frame of one executed effect, as far as pacing goes. */
  ghost predicate OneCallOn(w: World, w': World) {
    && |w.moments| == |w.calls| && |w'.moments| == |w'.calls|
    && w'.core == w.core && w'.past == w.past && w'.now >= w.now && w'.dogCfg == w.dogCfg
    && |w.calls| <= |w'.calls| <= |w.calls| + 1
    && w'.calls[..|w.calls|] == w.calls && w'.moments[..|w.calls|] == w.moments
    && (|w'.calls| > |w.calls| ==> w'.moments[|w.calls|] == Moment(w'.now, |w.past|))
    && (forall k | 0 <= k < |w.calls| :: Due(w', k) == Due(w, k))
  }

  lemma ExecIsOneCall(w: World, o: Oracle)
    requires w.todo != [] && |w.moments| == |w.calls|
    ensures OneCallOn(w, Exec(w, o))
    ensures |Exec(w, o).calls| > |w.calls| <==> ForTheDog(w.todo[0])
    ensures |Exec(w, o).calls| > |w.calls| ==> (Exec(w, o).calls[|w.calls|].Runs? <==> w.todo[0] == StepWatchdog)
  {
    ExecDoes(w, o);
    hide Exec, W.Apply, W.StateAt, React, W.ResultAt;
    var w', e := Exec(w, o), w.todo[0];
    if ForTheDog(e) {
      var c := w'.calls[|w.calls|];
      assert w'.calls == w.calls + [c];
      forall k | 0 <= k < |w.calls| ensures Due(w', k) == Due(w, k) { CallsAreStable(w.dogCfg, w.calls, c, k); }
    }
  }

  lemma SpacedOn(w: World, w': World)
    requires OneCallOn(w, w') && Paced(w) && Spaced(w)
    requires |w'.calls| > |w.calls| && w'.calls[|w.calls|].Runs? ==> StepWatchdog in w.todo
    ensures Spaced(w')
  {
    hide Brought, Due, LastStep, Paced;
    var n := |w.calls|;
    assert forall k | 0 <= k < n :: w'.calls[k] == w.calls[k] && w'.moments[k] == w.moments[k];
    if |w'.calls| > n && w'.calls[n].Runs? { StepIsSpaced(w, w'); }
  }

  lemma PacedOn(w: World, w': World)
    requires OneCallOn(w, w') && Paced(w) && w.core.started
    requires forall e | e in w'.todo :: e in w.todo
    requires |w'.calls| > |w.calls| && w'.calls[|w.calls|].Runs? ==>
               w.core.wired.deadline.None? && !w.core.wired.stepPending && StepWatchdog !in w'.todo
    ensures Paced(w')
  {
    hide Brought, Due;
    var n := |w.calls|;
    assert forall k | 0 <= k < n :: w'.moments[k] == w.moments[k];
    if |w'.calls| > n {
      assert w'.calls == w.calls + [w'.calls[n]];
      LastStepOf(w.calls, w'.calls[n]);
    } else {
      assert w'.calls == w.calls;
    }
    hide LastStep;
  }

  lemma ExecPaced(w: World, o: Oracle)
    requires w.todo != [] && Calm(w) && Paced(w) && Spaced(w) && w.core.started
    ensures Paced(Exec(w, o)) && Spaced(Exec(w, o))
  {
    ExecIsOneCall(w, o);
    ExecQueues(w, o);
    ExecCalm(w, o);
    hide Exec, Calm, Paced, Spaced, OneCallOn;
    var w' := Exec(w, o);
    assert w.todo == [w.todo[0]] + w.todo[1..];
    if w.todo[0] == StepWatchdog { NothingBesideTheAnswer(w', |w.queue|); }
    SpacedOn(w, w');
    PacedOn(w, w');
  }

  lemma NothingBesideTheAnswer(w: World, i: nat)
    requires Calm(w) && i < |w.queue| && w.queue[i].WatchdogStepped?
    ensures w.core.wired.deadline.None? && !w.core.wired.stepPending && StepWatchdog !in w.todo
  {
    assert IsStepAnswer(w.queue[i]);
  }

  /** The frame of one handled event, as far as pacing goes. */
  ghost predicate OneEventOn(w: World, w': World, x: Runs.Stamped) {
    && w'.past == w.past + [x] && w'.now == x.now >= w.now && w'.core.cfg == w.core.cfg
    && w'.calls == w.calls && w'.moments == w.moments && w'.dogCfg == w.dogCfg
  }

  lemma PopIsOneEvent(w: World, o: Oracle)
    requires w.todo == [] && w.queue != []
    ensures OneEventOn(w, Pop(w, o), Runs.Stamped(w.queue[0], w.now + o.dt))
  {
    ConfigKept(w.core, w.queue[0], w.now + o.dt);
    hide React;
  }

  lemma SpacedAfter(w: World, w': World, x: Runs.Stamped)
    requires OneEventOn(w, w', x) && Spaced(w)
    ensures Spaced(w')
  {
    hide Brought, W.ResultAt;
    forall k, l | 0 <= k < l < |w.calls| && w.calls[k].Runs? && w.calls[l].Runs?
      ensures w'.moments[l].at >= Due(w', k) || Brought(w.core.cfg, w'.past, w.moments[k].seen, w.moments[l].seen)
    {
      BroughtIsStable(w.core.cfg, w.past, x, w.moments[k].seen, w.moments[l].seen);
    }
  }

  /** What one handled event does to the wired guard of a started supervisor. */
  ghost predicate WiredAfter(w: World, w': World, x: Runs.Stamped, brings: bool) {
    var d, d' := w.core.wired, w'.core.wired;
    && w'.core.started && w'.todo == React(w.core, x.ev, x.now).effects
    && (d'.deadline.None? || d'.deadline == d.deadline || (x.ev.WatchdogStepped? && d'.deadline == Some(x.now + x.ev.delay)))
    && (d'.stepPending ==> d.stepPending || (d.deadline.Some? && d.deadline.value <= x.now))
    && (StepWatchdog in w'.todo ==> brings || d.stepPending)
  }

  lemma PopMovesTheWire(w: World, o: Oracle)
    requires w.todo == [] && w.queue != [] && Inv(w) && w.core.started
    ensures var x := Runs.Stamped(w.queue[0], w.now + o.dt);
            WiredAfter(w, Pop(w, o), x, Brings(w.core.cfg, w.past + [x], |w.past|))
  {
    hide Inv, Brings, React, Runs.LinkRestored, Runs.StateAt, Core.WakeAt, CoreSane;
    var x := Runs.Stamped(w.queue[0], w.now + o.dt);
    SaneParts(w);
    BringsNow(w.core.cfg, w.past, x, w.core);
    WireMoves(w.core, x.ev, x.now, Brings(w.core.cfg, w.past + [x], |w.past|));
  }

  lemma WireMoves(s: Core, ev: Event, now: nat, brings: bool)
    requires s.started && CoreSane(s) && (brings <==> ev == Commanded(Redial) || Runs.LinkRestored(s.wired, ev))
    ensures var r := React(s, ev, now); var d, d' := s.wired, r.core.wired;
            && r.core.started
            && (d'.deadline.None? || d'.deadline == d.deadline || (ev.WatchdogStepped? && d'.deadline == Some(now + ev.delay)))
            && (d'.stepPending ==> d.stepPending || (d.deadline.Some? && d.deadline.value <= now))
            && (StepWatchdog in r.effects ==> brings || d.stepPending)
  {
    hide React, Runs.LinkRestored;
    Runs.WiredStep(s, ev, now);
    Runs.StaysStarted(s, ev, now);
  }

  lemma SaneParts(w: World)
    requires Inv(w)
    ensures (w.core.wired.linkSampleSeen || w.core.wired.ethLink.None?) && w.core == Runs.StateAt(w.core.cfg, w.past, |w.past|)
    ensures CoreSane(w.core)
  {
    hide React, W.State.Valid, Owing, LinkAgrees, Fed, Safe, Runs.StateAt, Runs.Monotone;
  }

  lemma BringsNow(cfg: Config, past: seq<Runs.Stamped>, x: Runs.Stamped, s: Core)
    requires s == Runs.StateAt(cfg, past, |past|)
    ensures Brings(cfg, past + [x], |past|) <==> x.ev == Commanded(Redial) || Runs.LinkRestored(s.wired, x.ev)
  {
    hide React;
    PastIsStable(cfg, past, x, |past|);
  }

  lemma PacedAfter(w: World, w': World, x: Runs.Stamped)
    requires OneEventOn(w, w', x) && Paced(w) && w.todo == [] && WiredAfter(w, w', x, Brings(w.core.cfg, w'.past, |w.past|))
    requires x.ev.WatchdogStepped? ==> LastStep(w.calls).Some? && x.ev.delay == LastDelay(w)
    ensures Paced(w')
  {
    hide Brought, Brings, React, W.ResultAt, LastStep;
    if LastStep(w.calls).Some? {
      var from := w.moments[LastStep(w.calls).value].seen;
      BroughtIsStable(w.core.cfg, w.past, x, from, |w.past|);
      if Brings(w.core.cfg, w'.past, |w.past|) { JustBrought(w.core.cfg, w'.past, from); }
    }
  }

  lemma PopPaced(w: World, o: Oracle)
    requires w.todo == [] && w.queue != [] && Inv(w) && Echoes(w) && Paced(w) && Spaced(w)
    requires w.core.started || LastStep(w.calls).None?
    ensures Paced(Pop(w, o)) && Spaced(Pop(w, o))
  {
    var w', x := Pop(w, o), Runs.Stamped(w.queue[0], w.now + o.dt);
    PopIsOneEvent(w, o);
    if w.core.started && LastStep(w.calls).Some? {
      PopMovesTheWire(w, o);
      assert x.ev.WatchdogStepped? ==> w.queue[0].WatchdogStepped?;
      hide Inv, Pop, Paced, Spaced, OneEventOn, WiredAfter, Brings, LastDelay;
      PacedAfter(w, w', x);
      SpacedAfter(w, w', x);
    } else {
      hide Inv, Pop, Spaced, React;
      SpacedAfter(w, w', x);
    }
  }

  lemma JustBrought(cfg: Config, past: seq<Runs.Stamped>, from: nat)
    requires past != [] && from < |past| && Brings(cfg, past, |past| - 1)
    ensures Brought(cfg, past, from, |past|)
  {}

  /** The answer of the last step, once handled, is the last the supervisor heard. */
  ghost predicate Heard(w: World) {
    |w.moments| == |w.calls| &&
    (LastStep(w.calls).Some? && !w.core.stopped && !Any(IsStepAnswer, w.queue) ==>
       exists i :: HeardAt(w, i))
  }

  ghost predicate HeardAt(w: World, i: nat)
    requires |w.moments| == |w.calls| && LastStep(w.calls).Some?
  {
    && w.moments[LastStep(w.calls).value].seen <= i < |w.past|
    && Runs.SteppedAt(w.core.cfg, w.past, i) && w.past[i].ev.delay == LastDelay(w)
    && forall j | i < j < |w.past| :: !w.past[j].ev.WatchdogStepped?
  }

  lemma ExecHeard(w: World, o: Oracle)
    requires w.todo != [] && Carried(w) && Heard(w)
    ensures Heard(Exec(w, o))
  {
    ExecIsOneCall(w, o);
    ExecAnswersTruly(w, o);
    ExecQueues(w, o);
    var w' := Exec(w, o);
    hide Exec, W.ResultAt, W.StateAt, React, LastDelay, Runs.SteppedAt, Demanded, Due, LastStep;
    if w.todo[0] == StepWatchdog {
      assert IsStepAnswer(w'.queue[|w.queue|]);
    } else if Any(IsStepAnswer, w.queue) {
      var i :| 0 <= i < |w.queue| && IsStepAnswer(w.queue[i]);
      assert IsStepAnswer(w'.queue[i]);
    } else if LastStep(w.calls).Some? && !w.core.stopped {
      var i: nat :| HeardAt(w, i);
      assert w'.moments[LastStep(w.calls).value] == w.moments[LastStep(w.calls).value];
      assert HeardAt(w', i);
    }
  }

  lemma PopHeard(w: World, o: Oracle)
    requires w.todo == [] && w.queue != [] && Inv(w) && Echoes(w) && Heard(w) && Spaced(w)
    requires w.core.started || LastStep(w.calls).None?
    ensures Heard(Pop(w, o))
  {
    var w', x := Pop(w, o), Runs.Stamped(w.queue[0], w.now + o.dt);
    PopIsOneEvent(w, o);
    ReactBelieves(w.core, x.ev, x.now);
    AnyRest(IsStepAnswer, w.queue);
    assert w.core == Runs.StateAt(w.core.cfg, w.past, |w.past|);
    assert x.ev.WatchdogStepped? ==> LastStep(w.calls).Some? && x.ev.delay == LastDelay(w);
    assert w'.queue == w.queue[1..] && (w.core.stopped ==> w'.core.stopped);
    hide Inv, Pop, React, W.ResultAt, Any, Echoes, LastStep, Runs.StateAt, HeardAt;
    if LastStep(w.calls).Some? && !w'.core.stopped && !Any(IsStepAnswer, w'.queue) {
      if x.ev.WatchdogStepped? {
        HeardNow(w, w', x);
      } else {
        var i: nat :| HeardAt(w, i);
        StillHeard(w, w', x, i);
      }
    }
  }

  lemma HeardNow(w: World, w': World, x: Runs.Stamped)
    requires OneEventOn(w, w', x) && Spaced(w) && LastStep(w.calls).Some? && w.core.Running()
    requires w.core == Runs.StateAt(w.core.cfg, w.past, |w.past|)
    requires x.ev.WatchdogStepped? && x.ev.delay == LastDelay(w)
    ensures HeardAt(w', |w.past|)
  {
    hide React, W.ResultAt, LastStep, Brought;
    PastIsStable(w.core.cfg, w.past, x, |w.past|);
  }

  lemma StillHeard(w: World, w': World, x: Runs.Stamped, i: nat)
    requires OneEventOn(w, w', x) && |w.moments| == |w.calls| && LastStep(w.calls).Some?
    requires HeardAt(w, i) && !x.ev.WatchdogStepped?
    ensures HeardAt(w', i)
  {
    hide React, W.ResultAt, LastStep;
    PastIsStable(w.core.cfg, w.past, x, i);
    assert forall j | 0 <= j < |w.past| :: w'.past[j] == w.past[j];
  }

  // ---------------------------------------------------------------------------
  // All of it, over every life
  // ---------------------------------------------------------------------------

  /** Work exists only for a service that has started. */
  ghost predicate Begun(w: World) {
    && (w.todo != [] || w.calls != [] ==> w.core.started)
    && forall i | 0 <= i < |w.queue| && !Outer(w.queue[i]) :: w.core.started
  }

  ghost predicate Sound(w: World) {
    Inv(w) && Carried(w) && Calm(w) && Echoes(w) && Believes(w) && Paced(w) && Spaced(w) && Heard(w) && Begun(w)
  }

  lemma ExecBegun(w: World, o: Oracle)
    requires w.todo != [] && Begun(w)
    ensures Begun(Exec(w, o))
  {
    hide W.RunOnce, Log;
  }

  lemma PopBegun(w: World, o: Oracle)
    requires w.todo == [] && w.queue != [] && Begun(w)
    ensures Begun(Pop(w, o))
  {
    ReactInert(w.core, w.queue[0], w.now + o.dt);
    if w.core.started { Runs.StaysStarted(w.core, w.queue[0], w.now + o.dt); }
    StartsWhenItActs(w.core, w.queue[0], w.now + o.dt);
    hide React;
  }

  lemma StartsWhenItActs(s: Core, ev: Event, now: nat)
    ensures React(s, ev, now).effects != [] ==> React(s, ev, now).core.started
  {
    hide AirStep, OnWake, LinkArrives, OnWatchdogStepped, OnHeartbeat;
    if s.started { Runs.StaysStarted(s, ev, now); }
  }

  lemma MicroSound(w: World, o: Oracle)
    requires !w.Idle() && Sound(w)
    ensures Sound(Micro(w, o))
  {
    hide Carried, Calm, Echoes, Believes, Paced, Spaced, Heard;
    MicroKeepsInv(w, o);
    if w.todo != [] {
      hide Inv, Exec;
      ExecCarries(w, o);
      ExecCalm(w, o);
      ExecBelieves(w, o);
      ExecPaced(w, o);
      ExecHeard(w, o);
      ExecBegun(w, o);
    } else {
      assert w.queue[0].WatchdogStepped? ==> !Outer(w.queue[0]);
      assert LastStep(w.calls).Some? ==> w.calls != [];
      assert Historic(w);
      hide Inv, Pop;
      PopCarries(w, o);
      PopCalm(w, o);
      PopBelieves(w, o);
      PopPaced(w, o);
      PopHeard(w, o);
      PopBegun(w, o);
    }
  }

  lemma {:induction false} DrainSound(env: nat -> Oracle, w: World)
    requires Sound(w)
    ensures Sound(Drained(env, w))
    decreases Weight(w), |w.todo|
  {
    hide Sound, Micro;
    if !w.Idle() {
      MicroSound(w, env(w.tick));
      MicroDecreases(w, env(w.tick));
      DrainSound(env, Micro(w, env(w.tick)));
    }
  }

  lemma FedSound(w: World, ev: Event)
    requires w.Idle() && Sound(w) && Outer(ev)
    ensures Sound(w.(queue := [ev], stopping := w.stopping || ev.Stop?))
  {
    var fed := w.(queue := [ev], stopping := w.stopping || ev.Stop?);
    FedInv(w, ev);
    FedRest(w, fed);
    FedHistory(w, fed);
    hide Inv, Carried, Calm, Echoes, Believes, Paced, Spaced, Heard;
  }

  lemma FedRest(w: World, fed: World)
    requires w.Idle() && Calm(w) && Begun(w) && Believes(w)
    requires |fed.queue| == 1 && Outer(fed.queue[0]) && fed == w.(queue := fed.queue, stopping := fed.stopping)
    ensures Calm(fed) && Echoes(fed) && Begun(fed) && Believes(fed)
  {
    hide W.ResultAt, React, LastStep;
  }

  lemma FedHistory(w: World, fed: World)
    requires w.Idle() && Carried(w) && Paced(w) && Spaced(w) && Heard(w) && (w.stopping ==> fed.stopping)
    requires |fed.queue| == 1 && Outer(fed.queue[0]) && fed == w.(queue := fed.queue, stopping := fed.stopping)
    ensures Carried(fed) && Paced(fed) && Spaced(fed) && Heard(fed)
  {
    hide React, W.StateAt, W.ResultAt, Part, LastMode, Kinds, Demanded, Brought, LastStep, Runs.SteppedAt;
    assert forall k | 0 <= k < |w.calls| == |w.moments| :: Due(fed, k) == Due(w, k);
    if LastStep(w.calls).Some? && !w.core.stopped {
      assert !Any(IsStepAnswer, w.queue);
      var i: nat :| HeardAt(w, i);
      assert HeardAt(fed, i);
    }
  }

  lemma BootSound(cfg: Config, dogCfg: W.Cfg)
    ensures Sound(Boot(cfg, dogCfg))
  {
    BootInv(cfg, dogCfg);
  }

  lemma {:induction false} ServiceSound(env: nat -> Oracle, cfg: Config, dogCfg: W.Cfg, events: seq<Event>)
    requires forall ev | ev in events :: Outer(ev)
    ensures Sound(ServiceAfter(env, cfg, dogCfg, events))
  {
    hide Sound, Drained;
    if events == [] {
      BootSound(cfg, dogCfg);
      FedSound(Boot(cfg, dogCfg), Started);
      DrainSound(env, Boot(cfg, dogCfg).(queue := [Started], stopping := Boot(cfg, dogCfg).stopping || Started.Stop?));
    } else {
      var before, ev := events[..|events| - 1], events[|events| - 1];
      ServiceSound(env, cfg, dogCfg, before);
      var w := ServiceAfter(env, cfg, dogCfg, before);
      FedSound(w, ev);
      DrainSound(env, w.(queue := [ev], stopping := w.stopping || ev.Stop?));
    }
  }

  /** The deadline of a service at rest is the answer's instant plus the delay that the
      watchdog's last step returned. */
  lemma DeadlineIsTheWatchdogs(env: nat -> Oracle, cfg: Config, dogCfg: W.Cfg, events: seq<Event>) returns (i: nat)
    requires forall ev | ev in events :: Outer(ev)
    requires var w := ServiceAfter(env, cfg, dogCfg, events); w.core.Running() && LastStep(w.calls).Some?
    ensures var w := ServiceAfter(env, cfg, dogCfg, events); var k := LastStep(w.calls).value;
            && |w.moments| == |w.calls| && w.dog == W.StateAt(dogCfg, w.calls, |w.calls|)
            && w.moments[k].seen <= i < |w.past| && w.past[i].ev.WatchdogStepped?
            && w.core.wired.deadline == Some(w.past[i].now + W.ResultAt(dogCfg, w.calls, k).delay)
  {
    hide ServiceAfter, W.StateAt, W.ResultAt, React;
    ServiceSound(env, cfg, dogCfg, events);
    ServiceConfigured(env, cfg, dogCfg, events);
    var w := ServiceAfter(env, cfg, dogCfg, events);
    assert !Any(IsStepAnswer, w.queue);
    i :| HeardAt(w, i);
    IdleIsArmed(w);
    assert Runs.Monotone(w.past) && w.core == Runs.StateAt(w.core.cfg, w.past, |w.past|);
    Runs.DeadlineHeld(w.core.cfg, w.past, i, |w.past|);
  }

  lemma {:induction false} ServiceConfigured(env: nat -> Oracle, cfg: Config, dogCfg: W.Cfg, events: seq<Event>)
    requires forall ev | ev in events :: Outer(ev)
    ensures ServiceAfter(env, cfg, dogCfg, events).core.cfg == cfg && ServiceAfter(env, cfg, dogCfg, events).dogCfg == dogCfg
  {
    hide Drained, Inv;
    ServiceInv(env, cfg, dogCfg, events);
    if events == [] {
      BootInv(cfg, dogCfg);
      FedInv(Boot(cfg, dogCfg), Started);
      DrainKeepsInv(env, Boot(cfg, dogCfg).(queue := [Started], stopping := Boot(cfg, dogCfg).stopping || Started.Stop?));
    } else {
      var before, ev := events[..|events| - 1], events[|events| - 1];
      ServiceConfigured(env, cfg, dogCfg, before);
      ServiceInv(env, cfg, dogCfg, before);
      var w := ServiceAfter(env, cfg, dogCfg, before);
      FedInv(w, ev);
      DrainKeepsInv(env, w.(queue := [ev], stopping := w.stopping || ev.Stop?));
    }
  }

  /** Between any two watchdog steps of any life lies the delay that the first one returned,
      unless in between a manual redial was handled or the cable came back. */
  lemma StepsAreSpaced(env: nat -> Oracle, cfg: Config, dogCfg: W.Cfg, events: seq<Event>, k: nat, l: nat)
    requires forall ev | ev in events :: Outer(ev)
    requires var calls := ServiceAfter(env, cfg, dogCfg, events).calls; k < l < |calls| && calls[k].Runs? && calls[l].Runs?
    ensures var w := ServiceAfter(env, cfg, dogCfg, events);
            && |w.moments| == |w.calls| && w.dog == W.StateAt(dogCfg, w.calls, |w.calls|)
            && w.moments[k].seen <= w.moments[l].seen <= |w.past|
            && (w.moments[l].at >= w.moments[k].at + W.ResultAt(dogCfg, w.calls, k).delay
                || Brought(cfg, w.past, w.moments[k].seen, w.moments[l].seen))
  {
    hide ServiceAfter, W.StateAt, W.ResultAt, React;
    ServiceSound(env, cfg, dogCfg, events);
    ServiceConfigured(env, cfg, dogCfg, events);
    hide Inv, Calm, Echoes, Believes, Paced, Heard, Begun;
  }

  /** Backoff, end to end: after a dial that failed transiently the service leaves the line alone
      for the scheduled delay of the number of failures it shows; after one that succeeded,
      for a probe interval. A manual redial or the cable's return may cut either short. */
  lemma RedialsAreSpaced(env: nat -> Oracle, cfg: Config, dogCfg: W.Cfg, events: seq<Event>, k: nat, l: nat)
    requires forall ev | ev in events :: Outer(ev)
    requires var calls := ServiceAfter(env, cfg, dogCfg, events).calls; k < l < |calls| && calls[k].Runs? && calls[l].Runs?
    ensures var w := ServiceAfter(env, cfg, dogCfg, events); var ops := W.ResultAt(dogCfg, w.calls, k).ops;
            && |w.moments| == |w.calls| && w.moments[l].seen <= |w.past|
            && (W.FailsAt(dogCfg, w.calls, k) ==>
                  var shown := W.StateAt(dogCfg, w.calls, k + 1).attempts;
                  && shown > 0
                  && (w.moments[l].at >= w.moments[k].at + B.Schedule(dogCfg.redialMin, dogCfg.redialMax, shown)
                      || Brought(cfg, w.past, w.moments[k].seen, w.moments[l].seen)))
            && (ops != [] && ops[|ops| - 1].Dial? && w.calls[k].a.dial.Established? ==>
                  w.moments[l].at >= w.moments[k].at + dogCfg.probeInterval
                  || Brought(cfg, w.past, w.moments[k].seen, w.moments[l].seen))
  {
    StepsAreSpaced(env, cfg, dogCfg, events, k, l);
    var w := ServiceAfter(env, cfg, dogCfg, events);
    if W.FailsAt(dogCfg, w.calls, k) { W.DelayIsScheduled(dogCfg, w.calls, k); }
    W.DelayByOutcome(dogCfg, W.StateAt(dogCfg, w.calls, k), w.calls[k].a);
    hide ServiceAfter, W.RunOnce, W.StateAt, B.Schedule, React, Brought;
  }

  // --- modes -------------------------------------------------------------------------

  lemma {:induction false} LastModeAppend(mode: NetMode, done: seq<Effect>, more: seq<Effect>)
    ensures LastMode(mode, done + more) == LastMode(LastMode(mode, done), more)
  {
    if more == [] {
      assert done + more == done;
    } else {
      assert (done + more)[..|done + more| - 1] == done + more[..|more| - 1];
      LastModeAppend(mode, done, more[..|more| - 1]);
    }
  }

  lemma {:induction false} NothingPersisted(mode: NetMode, effects: seq<Effect>)
    requires forall e | e in effects :: !e.PersistMode?
    ensures LastMode(mode, effects) == mode
  {
    if effects != [] { NothingPersisted(mode, effects[..|effects| - 1]); }
  }

  lemma ReactPersists(s: Core, ev: Event, now: nat)
    ensures React(s, ev, now).core.mode == LastMode(s.mode, React(s, ev, now).effects)
  {
    var r := React(s, ev, now);
    if s.Running() && ev.Commanded? && ev.cmd.SetMode? {
      assert r.effects == [PersistMode(ev.cmd.mode)];
    } else {
      ReactPersistsNothing(s, ev, now);
      NothingPersisted(s.mode, r.effects);
    }
  }

  lemma ReactPersistsNothing(s: Core, ev: Event, now: nat)
    requires !(s.Running() && ev.Commanded? && ev.cmd.SetMode?)
    ensures React(s, ev, now).core.mode == s.mode && forall e | e in React(s, ev, now).effects :: !e.PersistMode?
  {
    if s.Running() && AirEvent(ev) {
      hide React, AirStep;
      ReactAir(s, ev, now);
      Runs.AirStaysInItsLane(s, ev, now);
    } else {
      hide AirStep, WB.New, N.MaybeNotify, N.Allowed, N.OnResult;
    }
  }

  lemma {:induction false} ModeIsPersisted(cfg: Config, run: seq<Runs.Stamped>, i: nat)
    requires i <= |run|
    ensures Runs.StateAt(cfg, run, i).mode == LastMode(cfg.mode, Demanded(cfg, run, i))
  {
    hide React, LastMode;
    if i > 0 {
      ModeIsPersisted(cfg, run, i - 1);
      ReactPersists(Runs.StateAt(cfg, run, i - 1), run[i - 1].ev, run[i - 1].now);
      LastModeAppend(cfg.mode, Demanded(cfg, run, i - 1), Runs.EffectsAt(cfg, run, i - 1));
    } else {
      assert LastMode(cfg.mode, []) == cfg.mode by { NothingPersisted(cfg.mode, []); }
    }
  }

  /** In every life, at rest: every effect the supervisor ever demanded has been executed, once
      and in order. The watchdog has lived exactly the calls demanded of it; the wireless lane
      and what is kept for shutdown hold exactly the worker's effects; the mode in force is the
      one saved; and the session the supervisor believes in is the watchdog's. */
  lemma ServiceCarriesOut(env: nat -> Oracle, cfg: Config, dogCfg: W.Cfg, events: seq<Event>)
    requires forall ev | ev in events :: Outer(ev)
    ensures var w := ServiceAfter(env, cfg, dogCfg, events);
            && w.done == Demanded(cfg, w.past, |w.past|)
            && Kinds(w.calls) == Part(ForTheDog, w.done) && w.dog == W.StateAt(dogCfg, w.calls, |w.calls|)
            && w.lane + w.atStop == Part(ForTheWorker, w.done) && (!w.stopping ==> w.atStop == [])
            && w.savedMode == w.core.mode
            && (!w.core.stopped ==> w.core.wired.session == w.dog.View())
  {
    hide ServiceAfter, W.StateAt, W.ResultAt, React, Part, LastMode, Demanded;
    ServiceSound(env, cfg, dogCfg, events);
    ServiceConfigured(env, cfg, dogCfg, events);
    var w := ServiceAfter(env, cfg, dogCfg, events);
    assert w.done + [] == w.done;
    ModeIsPersisted(cfg, w.past, |w.past|);
    SaneParts(w);
    hide Inv, Calm, Echoes, Paced, Spaced, Heard, Begun;
  }

  // ---------------------------------------------------------------------------
  // A manual redial dials
  // ---------------------------------------------------------------------------

  lemma {:induction false} LogGrows(env: nat -> Oracle, w: World)
    ensures w.log <= Drained(env, w).log
    decreases Weight(w), |w.todo|
  {
    hide Micro;
    if !w.Idle() {
      MicroDecreases(w, env(w.tick));
      MicroLogs(w, env(w.tick));
      LogGrows(env, Micro(w, env(w.tick)));
    }
  }

  lemma MicroLogs(w: World, o: Oracle)
    requires !w.Idle()
    ensures w.log <= Micro(w, o).log
  {
    hide React, W.RunOnce, Log;
  }

  /** Popping the command, then passing the request on. */
  lemma RedialReaches(w: World, o0: Oracle, o1: Oracle)
    requires w.Idle() && w.core.Running()
    ensures var w1 := Micro(w.(queue := [Commanded(Redial)]), o0);
            && w1.todo == [RequestRedial, StepWatchdog] && w1.tick == w.tick + 1 && w1.log == w.log
            && w1.dog == w.dog && w1.dogCfg == w.dogCfg && w1.core.wired.ethLink == w.core.wired.ethLink
            && var w2 := Micro(w1, o1);
            && w2.todo == [StepWatchdog] && w2.tick == w.tick + 2 && w2.log == w.log && w2.core == w1.core
            && w2.dog == w.dog.(redialRequested := true) && w2.dogCfg == w.dogCfg
  {
    hide W.RunOnce, Log, Core.WakeAt;
  }

  lemma RedialActs(w: World, o: Oracle)
    requires w.todo == [StepWatchdog] && w.dog.Valid() && w.dog.redialRequested
    ensures Micro(w, o).log == w.log + Log((if W.InSession(w.dog, o.answers) then [W.Hangup] else [])
                                           + W.DialOps(w.dog, o.answers), w.core.wired.ethLink)
  {
    hide W.RunOnce, W.State.Valid, Log, React;
    W.StepActs(w.dogCfg, w.dog, o.answers);
  }

  /** A redial command that reaches a service at rest is carried out before it rests again: the
      next things it does to the line are to hang up whatever session there is and to dial,
      unless the cable is known to be out. */
  lemma RedialDials(env: nat -> Oracle, w: World)
    requires w.Idle() && Inv(w) && w.core.Running()
    ensures var a := env(w.tick + 2).answers;
            var acts := Log((if W.InSession(w.dog, a) then [W.Hangup] else []) + W.DialOps(w.dog, a),
                            w.core.wired.ethLink);
            w.log + acts <= Feed(env, w, Commanded(Redial)).log
  {
    hide Drained, Micro, Log;
    var fed := w.(queue := [Commanded(Redial)]);
    var w1 := Micro(fed, env(w.tick));
    assert w.dog.(redialRequested := true).Valid();
    hide Inv, W.State.Valid;
    RedialReaches(w, env(w.tick), env(w.tick + 1));
    var w2 := Micro(w1, env(w.tick + 1));
    RedialActs(w2, env(w.tick + 2));
    DrainOneMore(env, fed);
    DrainOneMore(env, w1);
    DrainOneMore(env, w2);
    LogGrows(env, Micro(w2, env(w.tick + 2)));
  }

  // ---------------------------------------------------------------------------
  // What is answered is what the outside said
  // ---------------------------------------------------------------------------

  /** The content of a result event was read off the outside before `tick`. */
  ghost predicate ReadOff(env: nat -> Oracle, tick: nat, ev: Event) {
    match ev
    case LinkSampled(up, ip) => exists t :: 0 <= t < tick && env(t).linkUp == up && env(t).pppIp == ip
    case WirelessSampled(associated, wlan) => exists t :: 0 <= t < tick && env(t).associated == associated && env(t).wlan == wlan
    case WatchdogStepped(_, _, ip) => exists t :: 0 <= t < tick && env(t).pppIp == ip
    case NotifyResult(_, delivered) => exists t :: 0 <= t < tick && env(t).toasted == delivered
    case _ => true
  }

  ghost predicate Truthful(env: nat -> Oracle, w: World) {
    && (forall i | 0 <= i < |w.queue| :: ReadOff(env, w.tick, w.queue[i]))
    && (forall i | 0 <= i < |w.past| :: ReadOff(env, w.tick, w.past[i].ev))
    && (forall k | 0 <= k < |w.calls| && w.calls[k].Runs? :: exists t :: 0 <= t < w.tick && env(t).answers == w.calls[k].a)
  }

  lemma ReadOffStays(env: nat -> Oracle, a: nat, b: nat, ev: Event)
    requires a <= b && ReadOff(env, a, ev)
    ensures ReadOff(env, b, ev)
  {}

  lemma ExecTruthful(env: nat -> Oracle, w: World)
    requires w.todo != [] && Truthful(env, w)
    ensures Truthful(env, Exec(w, env(w.tick)))
  {
    var o := env(w.tick);
    var w' := Exec(w, o);
    ExecReads(env, w);
    hide Exec, ReadOff;
    forall ev | ReadOff(env, w.tick, ev) ensures ReadOff(env, w'.tick, ev) { ReadOffStays(env, w.tick, w'.tick, ev); }
    assert forall i | 0 <= i < |w.queue| :: w'.queue[i] == w.queue[i];
    assert forall k | 0 <= k < |w.calls| :: w'.calls[k] == w.calls[k];
  }

  lemma ExecReads(env: nat -> Oracle, w: World)
    requires w.todo != []
    ensures var w' := Exec(w, env(w.tick)); var n, m := |w.queue|, |w.calls|;
            && w'.tick == w.tick + 1 && w'.past == w.past
            && n <= |w'.queue| <= n + 1 && w'.queue[..n] == w.queue && (|w'.queue| > n ==> ReadOff(env, w'.tick, w'.queue[n]))
            && m <= |w'.calls| <= m + 1 && w'.calls[..m] == w.calls
            && (|w'.calls| > m && w'.calls[m].Runs? ==> w'.calls[m].a == env(w.tick).answers)
  {
    hide W.RunOnce, Log;
  }

  lemma PopTruthful(env: nat -> Oracle, w: World)
    requires w.todo == [] && w.queue != [] && Truthful(env, w)
    ensures Truthful(env, Pop(w, env(w.tick)))
  {
    hide React, ReadOff, Core.WakeAt;
    forall ev | ReadOff(env, w.tick, ev) ensures ReadOff(env, w.tick + 1, ev) { ReadOffStays(env, w.tick, w.tick + 1, ev); }
  }

  lemma {:induction false} DrainTruthful(env: nat -> Oracle, w: World)
    requires Truthful(env, w)
    ensures Truthful(env, Drained(env, w))
    decreases Weight(w), |w.todo|
  {
    hide Truthful, Exec, Pop;
    if !w.Idle() {
      if w.todo != [] { ExecTruthful(env, w); } else { PopTruthful(env, w); }
      MicroDecreases(w, env(w.tick));
      DrainTruthful(env, Micro(w, env(w.tick)));
    }
  }

  /** In every life, every sample, toast report and watchdog answer that was handled says what
      the outside said. */
  lemma {:induction false} ServiceIsTruthful(env: nat -> Oracle, cfg: Config, dogCfg: W.Cfg, events: seq<Event>)
    requires forall ev | ev in events :: Outer(ev)
    ensures Truthful(env, ServiceAfter(env, cfg, dogCfg, events))
  {
    hide Drained;
    if events == [] {
      DrainTruthful(env, Boot(cfg, dogCfg).(queue := [Started]));
    } else {
      var before, ev := events[..|events| - 1], events[|events| - 1];
      ServiceIsTruthful(env, cfg, dogCfg, before);
      var w := ServiceAfter(env, cfg, dogCfg, before);
      assert ev in events && ReadOff(env, w.tick, ev);
      DrainTruthful(env, w.(queue := [ev], stopping := w.stopping || ev.Stop?));
    }
  }

  // ---------------------------------------------------------------------------
  // What is fed is handled
  // ---------------------------------------------------------------------------

  /** The events handled so far, and those still queued. */
  function AllEvents(w: World): seq<Event> {
    seq(|w.past|, i requires 0 <= i < |w.past| => w.past[i].ev) + w.queue
  }

  /** Those that came from outside. */
  function FromOutside(events: seq<Event>): seq<Event> {
    if events == [] then []
    else
      var last := events[|events| - 1];
      FromOutside(events[..|events| - 1]) + if Outer(last) then [last] else []
  }

  lemma OneMoreEvent(events: seq<Event>, ev: Event)
    ensures FromOutside(events + [ev]) == FromOutside(events) + if Outer(ev) then [ev] else []
  {
    assert (events + [ev])[..|events|] == events;
  }

  lemma MicroFeedsNothing(w: World, o: Oracle)
    requires !w.Idle()
    ensures FromOutside(AllEvents(Micro(w, o))) == FromOutside(AllEvents(w))
  {
    hide React, W.RunOnce, Log, FromOutside, Core.WakeAt;
    var w' := Micro(w, o);
    if w.todo != [] {
      if |w'.queue| > |w.queue| {
        assert AllEvents(w') == AllEvents(w) + [w'.queue[|w.queue|]];
        OneMoreEvent(AllEvents(w), w'.queue[|w.queue|]);
      } else {
        assert AllEvents(w') == AllEvents(w);
      }
    } else {
      assert AllEvents(w') == AllEvents(w);
    }
  }

  lemma {:induction false} DrainFeedsNothing(env: nat -> Oracle, w: World)
    ensures FromOutside(AllEvents(Drained(env, w))) == FromOutside(AllEvents(w))
    decreases Weight(w), |w.todo|
  {
    hide Micro, AllEvents, FromOutside;
    if !w.Idle() {
      MicroDecreases(w, env(w.tick));
      MicroFeedsNothing(w, env(w.tick));
      DrainFeedsNothing(env, Micro(w, env(w.tick)));
    }
  }

  /** Every event fed to the service was handled, once and in the order in which it came, after the
      start; everything else it handled, it had asked for itself. */
  lemma {:induction false} EveryEventIsHandled(env: nat -> Oracle, cfg: Config, dogCfg: W.Cfg, events: seq<Event>)
    requires forall ev | ev in events :: Outer(ev)
    ensures var w := ServiceAfter(env, cfg, dogCfg, events); w.Idle() && FromOutside(AllEvents(w)) == [Started] + events
  {
    hide Drained, FromOutside;
    if events == [] {
      var fed := Boot(cfg, dogCfg).(queue := [Started], stopping := Boot(cfg, dogCfg).stopping || Started.Stop?);
      DrainFeedsNothing(env, fed);
      assert AllEvents(fed) == [] + [Started];
      OneMoreEvent([], Started);
      NothingFromNothing();
    } else {
      var before, ev := events[..|events| - 1], events[|events| - 1];
      EveryEventIsHandled(env, cfg, dogCfg, before);
      var w := ServiceAfter(env, cfg, dogCfg, before);
      var fed := w.(queue := [ev], stopping := w.stopping || ev.Stop?);
      DrainFeedsNothing(env, fed);
      assert AllEvents(fed) == AllEvents(w) + [ev];
      OneMoreEvent(AllEvents(w), ev);
      assert ev in events && [Started] + events == ([Started] + before) + [ev];
    }
  }

  lemma NothingFromNothing()
    ensures FromOutside([]) == []
  {}

  // ---------------------------------------------------------------------------
  // What is asked is answered
  // ---------------------------------------------------------------------------

  /** The Main-lane effects that answer with an event. */
  predicate Asks(e: Effect) { e.StepWatchdog? || e.SampleLink? || e.SampleWireless? || e.Notify? }

  predicate IsAnswerTo(ev: Event, e: Effect) {
    match e
    case StepWatchdog => ev.WatchdogStepped?
    case SampleLink => ev.LinkSampled?
    case SampleWireless => ev.WirelessSampled?
    case Notify(key) => ev.NotifyResult? && ev.key == key
    case _ => false
  }

  /** The events the service brought about itself. */
  function FromInside(events: seq<Event>): seq<Event> {
    if events == [] then []
    else
      var last := events[|events| - 1];
      FromInside(events[..|events| - 1]) + if Outer(last) then [] else [last]
  }

  lemma OneMoreInside(events: seq<Event>, ev: Event)
    ensures FromInside(events + [ev]) == FromInside(events) + if Outer(ev) then [] else [ev]
  {
    assert (events + [ev])[..|events|] == events;
  }

  /** The i-th request executed has the i-th answer, handled or queued. */
  predicate Paired(asked: seq<Effect>, answers: seq<Event>) {
    |asked| == |answers| && forall i | 0 <= i < |asked| :: IsAnswerTo(answers[i], asked[i])
  }

  ghost predicate Answered(w: World) { Paired(Part(Asks, w.done), FromInside(AllEvents(w))) }

  lemma ExecAnswers(w: World, o: Oracle)
    requires w.todo != []
    ensures var w', e := Exec(w, o), w.todo[0]; var n := |w.queue|;
            && w'.past == w.past && w'.done == w.done + [e] && n <= |w'.queue| && w'.queue[..n] == w.queue
            && |w'.queue| == (if Asks(e) then n + 1 else n)
            && (Asks(e) ==> IsAnswerTo(w'.queue[n], e) && !Outer(w'.queue[n]))
  {
    hide W.RunOnce, Log;
  }

  lemma MicroAnswers(w: World, o: Oracle)
    requires !w.Idle() && Answered(w)
    ensures Answered(Micro(w, o))
  {
    hide React, Exec, FromInside, Part, IsAnswerTo, Core.WakeAt;
    var w' := Micro(w, o);
    if w.todo != [] {
      var e := w.todo[0];
      ExecAnswers(w, o);
      PartOne(Asks, w.done, e);
      if Asks(e) {
        assert AllEvents(w') == AllEvents(w) + [w'.queue[|w.queue|]];
        OneMoreInside(AllEvents(w), w'.queue[|w.queue|]);
      } else {
        assert AllEvents(w') == AllEvents(w);
      }
    } else {
      assert AllEvents(w') == AllEvents(w);
    }
  }

  lemma {:induction false} DrainAnswers(env: nat -> Oracle, w: World)
    requires Answered(w)
    ensures Answered(Drained(env, w))
    decreases Weight(w), |w.todo|
  {
    hide Micro, Answered;
    if !w.Idle() {
      MicroDecreases(w, env(w.tick));
      MicroAnswers(w, env(w.tick));
      DrainAnswers(env, Micro(w, env(w.tick)));
    }
  }

  /** At rest every step, sample and toast that was ever asked for has been answered and the answer
      handled, once and in the order of asking, and nothing was answered that was not asked. */
  lemma {:induction false} EveryRequestIsAnswered(env: nat -> Oracle, cfg: Config, dogCfg: W.Cfg, events: seq<Event>)
    requires forall ev | ev in events :: Outer(ev)
    ensures var w := ServiceAfter(env, cfg, dogCfg, events);
            w.queue == [] && Paired(Part(Asks, w.done), FromInside(AllEvents(w)))
  {
    hide Drained, FromInside, Part;
    if events == [] {
      var fed := Boot(cfg, dogCfg).(queue := [Started], stopping := Boot(cfg, dogCfg).stopping || Started.Stop?);
      assert AllEvents(fed) == [] + [Started];
      OneMoreInside([], Started);
      NothingAsked();
      DrainAnswers(env, fed);
    } else {
      var before, ev := events[..|events| - 1], events[|events| - 1];
      EveryRequestIsAnswered(env, cfg, dogCfg, before);
      var w := ServiceAfter(env, cfg, dogCfg, before);
      var fed := w.(queue := [ev], stopping := w.stopping || ev.Stop?);
      assert ev in events && AllEvents(fed) == AllEvents(w) + [ev];
      OneMoreInside(AllEvents(w), ev);
      DrainAnswers(env, fed);
    }
  }

  lemma NothingAsked()
    ensures FromInside([]) == [] && Part(Asks, []) == []
  {}
}
