/** src/watchdog.rs, with the session ownership of RealDialer (src/runtime.rs): dial,
    probe, notice a drop, redial. What the world answers during one step is an `Answers`
    value; every answer the source asks for is asked at most once per step. */
module Watchdog {
  import opened Types
  import B = Backoff

  /** How a RasDial call ends. */
  datatype DialOutcome = Established | AuthRefused(code: nat) | TransientFailure(code: nat)

  /** The world during one step: does RAS still report a held session as connected, what
      would a probe find, how would a dial end, and what does the wall clock say. */
  datatype Answers = Answers(rasConnected: bool, probe: Verdict, dial: DialOutcome, wall: nat)

  /** What a step does to the outside, in order. A dial records what it was made over, and
      whether it ended by restarting RasMan. */
  datatype Op =
    | Hangup
    | Probe(verdict: Verdict)
    | Dial(sessionHeld: bool, link: Option<bool>, outcome: DialOutcome, restarts: bool)

  datatype Cfg = Cfg(redialMin: nat, redialMax: nat, probeInterval: nat, authFailDelay: nat)

  const STABLE_RESET_AFTER: nat := 300_000
  const LINK_DOWN_RETRY: nat := 5_000
  const WEDGE_RESTART_AFTER: nat := 3

  /** `backoff` is the counter inside Backoff, `session` and `wedgeFails` belong to the dialer. */
  datatype State = State(phase: SessionStatus, backoff: nat, attempts: nat, since: Option<nat>, probeFails: nat,
                         stableFor: nat, lastDrop: Option<DropReason>, redialRequested: bool,
                         ethLink: Option<bool>, session: bool, wedgeFails: nat)
  {
    function View(): SessionView { SessionView(phase, since, lastDrop, attempts) }

    /** Between steps: a held session means phase Connected, `since` tells Connected apart,
        one bad probe of this session may be pending, and the two failure counters agree. */
    predicate Valid() {
      && (session ==> phase == Connected)
      && (since.Some? <==> phase == Connected)
      && probeFails <= 1 && (probeFails == 1 ==> phase == Connected)
      && attempts == backoff <= U32_MAX
      && wedgeFails < WEDGE_RESTART_AFTER
      && phase != Dialing
    }
  }

  datatype Stepped = Stepped(s: State, delay: nat, ops: seq<Op>)

  const INITIAL: State := State(Idle, 0, 0, None, 0, 0, None, false, None, false, 0)

  function RecordDrop(s: State, reason: DropReason): State {
    s.(since := None, probeFails := 0, stableFor := 0, lastDrop := Some(reason))
  }

  /** RasDial fails with 756 or 813 while the port is stuck. */
  predicate Stuck(outcome: DialOutcome) { outcome.TransientFailure? && outcome.code in {756, 813} }

  /** The third stuck dial in a row restarts RasMan. */
  predicate Restarts(wedgeFails: nat, outcome: DialOutcome) {
    Stuck(outcome) && wedgeFails + 1 >= WEDGE_RESTART_AFTER
  }

  function WedgeAfter(wedgeFails: nat, outcome: DialOutcome): nat {
    if Stuck(outcome) && !Restarts(wedgeFails, outcome) then wedgeFails + 1 else 0
  }

  function DoDial(cfg: Cfg, s: State, a: Answers): Stepped {
    if s.ethLink == Some(false) then
      Stepped(s.(phase := SessionStatus.Backoff, lastDrop := Some(EthernetLinkDown)), LINK_DOWN_RETRY, [])
    else
      var ops := [Dial(s.session, s.ethLink, a.dial, Restarts(s.wedgeFails, a.dial))];
      var d := s.(wedgeFails := WedgeAfter(s.wedgeFails, a.dial));
      match a.dial
      case Established =>
        Stepped(d.(phase := Connected, since := Some(a.wall), probeFails := 0, stableFor := 0, session := true),
                cfg.probeInterval, ops)
      case AuthRefused(code) =>
        Stepped(d.(phase := AuthFail, lastDrop := Some(AuthFailed(code))), cfg.authFailDelay, ops)
      case TransientFailure(code) =>
        Stepped(d.(phase := SessionStatus.Backoff, backoff := Bump32(s.backoff), attempts := Bump32(s.attempts),
                   lastDrop := Some(DialFailed(code))),
                B.Schedule(cfg.redialMin, cfg.redialMax, Bump32(s.backoff)), ops)
  }

  /** Forget the session, hang up, dial again. */
  function Redial(cfg: Cfg, s: State, reason: DropReason, a: Answers): Stepped {
    var r := DoDial(cfg, RecordDrop(s, reason).(session := false), a);
    r.(ops := [Hangup] + r.ops)
  }

  function StepConnected(cfg: Cfg, s: State, a: Answers): Stepped {
    if !(s.session && a.rasConnected) then Redial(cfg, s, SessionNotFound, a)
    else if a.probe == Alive then
      var stable := s.stableFor + cfg.probeInterval;
      var reset := stable >= STABLE_RESET_AFTER && s.attempts > 0;
      Stepped(s.(probeFails := 0, stableFor := stable, backoff := if reset then 0 else s.backoff,
                 attempts := if reset then 0 else s.attempts),
              cfg.probeInterval, [Probe(Alive)])
    else if s.probeFails == 0 then
      Stepped(s.(probeFails := 1), cfg.probeInterval / 4, [Probe(a.probe)])
    else
      var r := Redial(cfg, s, ProbeFailed(s.probeFails + 1, a.probe), a);
      r.(ops := [Probe(a.probe)] + r.ops)
  }

  function RunOnce(cfg: Cfg, s: State, a: Answers): Stepped {
    if s.redialRequested then
      var s1 := s.(redialRequested := false);
      if s.phase == Connected || (s.session && a.rasConnected) then Redial(cfg, s1, ManualRedial, a)
      else DoDial(cfg, s1, a)
    else if s.phase == Connected then StepConnected(cfg, s, a)
    else DoDial(cfg, s, a)
  }

  /** Safety of one step, whatever the world answers: the bookkeeping survives, a dial
      never runs over a held session or an unplugged cable, and a session that is lost
      is hung up before the next dial. */
  lemma StepIsSafe(cfg: Cfg, s: State, a: Answers)
    requires s.Valid()
    ensures RunOnce(cfg, s, a).s.Valid() && RunOnce(cfg, s, a).s.ethLink == s.ethLink
    ensures forall op | op in RunOnce(cfg, s, a).ops && op.Dial? ::
              !op.sessionHeld && op.link == s.ethLink && op.link != Some(false)
  {}

  // ---------------------------------------------------------------------------
  // The object
  // ---------------------------------------------------------------------------

  class RealDialer {
    var session: bool
    var wedgeFails: nat

    constructor ()
      ensures !session && wedgeFails == 0
    {
      session, wedgeFails := false, 0;
    }

    method Dial(outcome: DialOutcome) returns (restarts: bool)
      modifies this
      ensures restarts == Restarts(old(wedgeFails), outcome)
      ensures session == (old(session) || outcome.Established?)
      ensures wedgeFails == WedgeAfter(old(wedgeFails), outcome)
    {
      restarts := false;
      match outcome {
        case Established =>
          wedgeFails := 0;
          session := true;
        case AuthRefused(_) =>
          wedgeFails := 0;
        case TransientFailure(code) =>
          if code == 756 || code == 813 {
            wedgeFails := wedgeFails + 1;
            if wedgeFails >= WEDGE_RESTART_AFTER {
              restarts := true;
              wedgeFails := 0;
            }
          } else {
            wedgeFails := 0;
          }
      }
    }

    method HangUp()
      modifies this`session
      ensures !session
    {
      session := false;
    }

    predicate IsConnected(rasConnected: bool)
      reads this
    {
      session && rasConnected
    }
  }

  class Watchdog {
    const cfg: Cfg
    const dialer: RealDialer
    const backoff: B.Backoff
    var phase: SessionStatus
    var attempts: nat
    var since: Option<nat>
    var probeFails: nat
    var stableFor: nat
    var lastDrop: Option<DropReason>
    var redialRequested: bool
    var ethLink: Option<bool>

    function View(): State
      reads this, dialer, backoff
    {
      State(phase, backoff.attempt, attempts, since, probeFails, stableFor, lastDrop, redialRequested, ethLink,
            dialer.session, dialer.wedgeFails)
    }

    /** The backoff object is built from this configuration; the counters are u32. */
    ghost predicate Wired()
      reads this, dialer, backoff
    {
      backoff.min == cfg.redialMin && backoff.max == cfg.redialMax && View().Valid()
    }

    constructor (cfg: Cfg)
      ensures this.cfg == cfg && Wired() && View() == INITIAL && fresh(dialer) && fresh(backoff)
    {
      this.cfg := cfg;
      dialer := new RealDialer();
      backoff := new B.Backoff(cfg.redialMin, cfg.redialMax);
      phase, attempts, since, probeFails, stableFor := Idle, 0, None, 0, 0;
      lastDrop, redialRequested, ethLink := None, false, None;
    }

    method SetEthLink(up: Option<bool>)
      modifies this`ethLink
      ensures View() == old(View()).(ethLink := up) && (old(Wired()) ==> Wired())
    {
      ethLink := up;
    }

    method RequestRedial()
      modifies this`redialRequested
      ensures View() == old(View()).(redialRequested := true) && (old(Wired()) ==> Wired())
    {
      redialRequested := true;
    }

    method Shutdown()
      modifies dialer
      ensures View() == old(View()).(session := false) && (old(Wired()) ==> Wired())
    {
      dialer.HangUp();
    }

    method NoteDrop(reason: DropReason)
      modifies this
      ensures View() == RecordDrop(old(View()), reason)
    {
      since, probeFails, stableFor, lastDrop := None, 0, 0, Some(reason);
    }

    method DialNow(a: Answers) returns (delay: nat, ops: seq<Op>)
      requires backoff.min == cfg.redialMin && backoff.max == cfg.redialMax && backoff.attempt <= U32_MAX
      modifies this, dialer, backoff
      ensures Stepped(View(), delay, ops) == DoDial(cfg, old(View()), a)
    {
      if ethLink == Some(false) {
        phase, lastDrop := SessionStatus.Backoff, Some(EthernetLinkDown);
        return LINK_DOWN_RETRY, [];
      }
      phase := Dialing;
      var held := dialer.session;
      var restarts := dialer.Dial(a.dial);
      ops := [Dial(held, ethLink, a.dial, restarts)];
      match a.dial {
        case Established =>
          phase, since, probeFails, stableFor := Connected, Some(a.wall), 0, 0;
          delay := cfg.probeInterval;
        case AuthRefused(code) =>
          phase, lastDrop := AuthFail, Some(AuthFailed(code));
          delay := cfg.authFailDelay;
        case TransientFailure(code) =>
          delay := backoff.NextDelay();
          attempts := Bump32(attempts);
          phase, lastDrop := SessionStatus.Backoff, Some(DialFailed(code));
      }
    }

    method StepWhileConnected(a: Answers) returns (delay: nat, ops: seq<Op>)
      requires Wired()
      modifies this, dialer, backoff
      ensures Stepped(View(), delay, ops) == StepConnected(cfg, old(View()), a)
    {
      if !dialer.IsConnected(a.rasConnected) {
        NoteDrop(SessionNotFound);
        dialer.HangUp();
        delay, ops := DialNow(a);
        ops := [Hangup] + ops;
        return;
      }
      ops := [Probe(a.probe)];
      if a.probe == Alive {
        probeFails := 0;
        stableFor := stableFor + cfg.probeInterval;
        if stableFor >= STABLE_RESET_AFTER && attempts > 0 {
          backoff.Reset();
          attempts := 0;
        }
        return cfg.probeInterval, ops;
      }
      probeFails := probeFails + 1;
      if probeFails < 2 {
        return cfg.probeInterval / 4, ops;
      }
      NoteDrop(ProbeFailed(probeFails, a.probe));
      dialer.HangUp();
      var more;
      delay, more := DialNow(a);
      ops := ops + ([Hangup] + more);
    }

    /** One step of the state machine; returns how long to wait before the next. */
    method Step(a: Answers) returns (delay: nat, ops: seq<Op>)
      requires Wired()
      modifies this, dialer, backoff
      ensures Wired()
      ensures Stepped(View(), delay, ops) == RunOnce(cfg, old(View()), a)
    {
      StepIsSafe(cfg, View(), a);
      if redialRequested {
        redialRequested := false;
        if phase == Connected || dialer.IsConnected(a.rasConnected) {
          NoteDrop(ManualRedial);
          dialer.HangUp();
          delay, ops := DialNow(a);
          ops := [Hangup] + ops;
        } else {
          delay, ops := DialNow(a);
        }
      } else if phase == Connected {
        delay, ops := StepWhileConnected(a);
      } else {
        delay, ops := DialNow(a);
      }
    }
  }

  // ---------------------------------------------------------------------------
  // Whole lives of a watchdog
  // ---------------------------------------------------------------------------

  /** The calls the runtime makes: a step, a link report, a redial request. */
  datatype Call = Runs(a: Answers) | Link(up: Option<bool>) | Asks | Shuts

  function Apply(cfg: Cfg, s: State, c: Call): Stepped {
    match c
    case Runs(a) => RunOnce(cfg, s, a)
    case Link(up) => Stepped(s.(ethLink := up), 0, [])
    case Asks => Stepped(s.(redialRequested := true), 0, [])
    case Shuts => Stepped(s.(session := false), 0, [Hangup])
  }

  function StateAt(cfg: Cfg, calls: seq<Call>, i: nat): State
    requires i <= |calls|
  {
    if i == 0 then INITIAL else Apply(cfg, StateAt(cfg, calls, i - 1), calls[i - 1]).s
  }

  function ResultAt(cfg: Cfg, calls: seq<Call>, i: nat): Stepped
    requires i < |calls|
  {
    Apply(cfg, StateAt(cfg, calls, i), calls[i])
  }

  lemma {:induction false} AlwaysValid(cfg: Cfg, calls: seq<Call>, i: nat)
    requires i <= |calls|
    ensures StateAt(cfg, calls, i).Valid()
  {
    if i > 0 {
      AlwaysValid(cfg, calls, i - 1);
      match calls[i - 1] {
        case Runs(a) => StepIsSafe(cfg, StateAt(cfg, calls, i - 1), a);
        case _ =>
      }
    }
  }

  /** Call `i` dialled and failed transiently. */
  ghost predicate FailsAt(cfg: Cfg, calls: seq<Call>, i: nat)
    requires i < |calls|
  {
    var ops := ResultAt(cfg, calls, i).ops;
    ops != [] && ops[|ops| - 1].Dial? && ops[|ops| - 1].outcome.TransientFailure?
  }

  /** Call `i` forgets the failures counted so far. */
  ghost predicate ResetsAt(cfg: Cfg, calls: seq<Call>, i: nat)
    requires i < |calls|
  {
    StateAt(cfg, calls, i + 1).attempts < StateAt(cfg, calls, i).attempts
  }

  /** The retry schedule in every run: the delay returned after a transient failure is the
      schedule's value for the number of failures shown to the user. */
  lemma DelayIsScheduled(cfg: Cfg, calls: seq<Call>, i: nat)
    requires i < |calls| && FailsAt(cfg, calls, i)
    ensures var n := StateAt(cfg, calls, i + 1).attempts;
            n > 0 && ResultAt(cfg, calls, i).delay == B.Schedule(cfg.redialMin, cfg.redialMax, n)
  {
    AlwaysValid(cfg, calls, i);
  }

  lemma {:induction false} AttemptsGrow(cfg: Cfg, calls: seq<Call>, i: nat, j: nat)
    requires i <= j <= |calls|
    requires forall k | i <= k < j :: !ResetsAt(cfg, calls, k)
    ensures StateAt(cfg, calls, i).attempts <= StateAt(cfg, calls, j).attempts
  {
    hide Apply;
    if i < j {
      AttemptsGrow(cfg, calls, i, j - 1);
      assert !ResetsAt(cfg, calls, j - 1);
    }
  }

  lemma FailureRaisesAttempts(cfg: Cfg, calls: seq<Call>, i: nat)
    requires i < |calls| && FailsAt(cfg, calls, i)
    ensures !ResetsAt(cfg, calls, i)
  {
    AlwaysValid(cfg, calls, i);
  }

  /** Without a reset in between, later failures never wait less. */
  lemma DelaysGrow(cfg: Cfg, calls: seq<Call>, i: nat, j: nat)
    requires i <= j < |calls| && FailsAt(cfg, calls, i) && FailsAt(cfg, calls, j)
    requires forall k | i < k < j :: !ResetsAt(cfg, calls, k)
    ensures ResultAt(cfg, calls, i).delay <= ResultAt(cfg, calls, j).delay
  {
    hide StateAt, ResultAt, FailsAt, B.Schedule;
    FailureRaisesAttempts(cfg, calls, j);
    AttemptsGrow(cfg, calls, i + 1, j + 1);
    DelayIsScheduled(cfg, calls, i);
    DelayIsScheduled(cfg, calls, j);
    B.ScheduleMonotone(cfg.redialMin, cfg.redialMax, StateAt(cfg, calls, i + 1).attempts, StateAt(cfg, calls, j + 1).attempts);
  }

  // --- what a step does, and when -------------------------------------------------

  /** A dial is made, over no session, unless the cable is known to be out. */
  function DialOps(s: State, a: Answers): seq<Op> {
    if s.ethLink == Some(false) then [] else [Dial(false, s.ethLink, a.dial, s.wedgeFails == 2 && Stuck(a.dial))]
  }

  /** A session is there to lose: the watchdog thinks so, or RAS does. */
  predicate InSession(s: State, a: Answers) { s.phase == Connected || (s.session && a.rasConnected) }

  /** The operations of every step, in order: what is hung up, probed and dialled, and when. */
  lemma StepActs(cfg: Cfg, s: State, a: Answers)
    requires s.Valid()
    ensures var ops, dial := RunOnce(cfg, s, a).ops, DialOps(s, a);
            if s.redialRequested then ops == (if InSession(s, a) then [Hangup] else []) + dial
            else if s.phase != Connected then ops == dial
            else if !(s.session && a.rasConnected) then ops == [Hangup] + dial
            else if a.probe == Alive || s.probeFails == 0 then ops == [Probe(a.probe)]
            else ops == [Probe(a.probe), Hangup] + dial
    ensures !RunOnce(cfg, s, a).s.redialRequested
  {}

  /** Why the session before this step, if any, had to go; otherwise the last reason stands. */
  function Blamed(s: State, a: Answers): Option<DropReason> {
    if s.redialRequested then (if InSession(s, a) then Some(ManualRedial) else s.lastDrop)
    else if s.phase != Connected then s.lastDrop
    else if !(s.session && a.rasConnected) then Some(SessionNotFound)
    else Some(ProbeFailed(2, a.probe))
  }

  /** The session shown after a step, read off what the step did last. */
  lemma StepShows(cfg: Cfg, s: State, a: Answers)
    requires s.Valid()
    ensures var r := RunOnce(cfg, s, a); var n := |r.ops|;
            if n > 0 && r.ops[n - 1].Dial? then
              match a.dial
              case Established =>
                r.s.session && r.s.View() == SessionView(Connected, Some(a.wall), Blamed(s, a), s.attempts)
              case AuthRefused(code) =>
                !r.s.session && r.s.View() == SessionView(AuthFail, None, Some(AuthFailed(code)), s.attempts)
              case TransientFailure(code) =>
                !r.s.session
                && r.s.View() == SessionView(SessionStatus.Backoff, None, Some(DialFailed(code)), Bump32(s.attempts))
            else if n == 1 && r.ops[0].Probe? then
              r.s.session && r.s.View().(attempts := s.attempts) == s.View() && r.s.attempts in {s.attempts, 0}
            else
              !r.s.session
              && r.s.View() == SessionView(SessionStatus.Backoff, None, Some(EthernetLinkDown), s.attempts)
  {}

  lemma {:induction false} RequestStands(cfg: Cfg, calls: seq<Call>, i: nat, j: nat)
    requires i < j <= |calls| && calls[i].Asks? && forall k | i < k < j :: !calls[k].Runs?
    ensures StateAt(cfg, calls, j).redialRequested
  {
    hide RunOnce;
    if i + 1 < j { RequestStands(cfg, calls, i, j - 1); }
  }

  lemma {:induction false} OnlyAsked(cfg: Cfg, calls: seq<Call>, j: nat) returns (i: nat)
    requires j <= |calls| && StateAt(cfg, calls, j).redialRequested
    ensures i < j && calls[i].Asks? && forall k | i < k < j :: !calls[k].Runs?
  {
    hide RunOnce, State.Valid;
    AlwaysValid(cfg, calls, j - 1);
    if calls[j - 1].Runs? { StepActs(cfg, StateAt(cfg, calls, j - 1), calls[j - 1].a); }
    if calls[j - 1].Asks? { i := j - 1; } else { i := OnlyAsked(cfg, calls, j - 1); }
  }

  /** A manual redial is honoured by the very next step: whatever session there is, is hung up
      first, and then it dials unless the cable is known to be out. */
  lemma RedialIsHonoured(cfg: Cfg, calls: seq<Call>, i: nat, j: nat)
    requires i < j < |calls| && calls[i].Asks? && calls[j].Runs? && forall k | i < k < j :: !calls[k].Runs?
    ensures var s, a := StateAt(cfg, calls, j), calls[j].a;
            ResultAt(cfg, calls, j).ops == (if InSession(s, a) then [Hangup] else []) + DialOps(s, a)
    ensures !StateAt(cfg, calls, j + 1).redialRequested
  {
    hide RunOnce, State.Valid;
    RequestStands(cfg, calls, i, j);
    AlwaysValid(cfg, calls, j);
    StepActs(cfg, StateAt(cfg, calls, j), calls[j].a);
  }

  /** And nobody else touches a session that is fine: a step over a session RAS reports connected
      and a probe that comes back Alive hangs up only if a redial was asked for since the step before. */
  lemma GoodSessionsStay(cfg: Cfg, calls: seq<Call>, j: nat)
    requires j < |calls| && calls[j].Runs? && calls[j].a.rasConnected && calls[j].a.probe == Alive
    requires StateAt(cfg, calls, j).session
    ensures ResultAt(cfg, calls, j).ops == [Probe(Alive)]
            || exists i :: 0 <= i < j && calls[i].Asks? && forall k | i < k < j :: !calls[k].Runs?
  {
    hide RunOnce, State.Valid;
    AlwaysValid(cfg, calls, j);
    assert StateAt(cfg, calls, j).phase == Connected by { HeldIsConnected(StateAt(cfg, calls, j)); }
    StepActs(cfg, StateAt(cfg, calls, j), calls[j].a);
    if StateAt(cfg, calls, j).redialRequested {
      var i := OnlyAsked(cfg, calls, j);
    }
  }

  lemma HeldIsConnected(s: State)
    requires s.Valid() && s.session
    ensures s.phase == Connected
  {}

  // --- a stuck port ----------------------------------------------------------------

  /** The step dialled. */
  predicate Dialled(ops: seq<Op>) { ops != [] && ops[|ops| - 1].Dial? }

  /** Stuck dials since the last dial that ended otherwise, over calls `..i`. */
  function StuckInARow(cfg: Cfg, calls: seq<Call>, i: nat): nat
    requires i <= |calls|
  {
    if i == 0 then 0
    else
      var ops := ResultAt(cfg, calls, i - 1).ops;
      if !Dialled(ops) then StuckInARow(cfg, calls, i - 1)
      else if Stuck(ops[|ops| - 1].outcome) then StuckInARow(cfg, calls, i - 1) + 1
      else 0
  }

  lemma StuckStep(cfg: Cfg, s: State, a: Answers)
    requires s.Valid()
    ensures var r := RunOnce(cfg, s, a); var n := |r.ops|;
            && r.s.wedgeFails == (if !Dialled(r.ops) then s.wedgeFails
                                  else if Stuck(r.ops[n - 1].outcome) then (s.wedgeFails + 1) % 3 else 0)
            && (Dialled(r.ops) ==> (r.ops[n - 1].restarts <==> Stuck(r.ops[n - 1].outcome) && s.wedgeFails == 2))
            && (forall k | 0 <= k < n - 1 :: !r.ops[k].Dial?)
  {
    hide B.Schedule, StepConnected;
    if !s.redialRequested && s.phase == Connected { StuckWhileConnected(cfg, s, a); }
  }

  lemma StuckWhileConnected(cfg: Cfg, s: State, a: Answers)
    requires s.Valid()
    ensures var r := StepConnected(cfg, s, a); var n := |r.ops|;
            && r.s.wedgeFails == (if !Dialled(r.ops) then s.wedgeFails
                                  else if Stuck(r.ops[n - 1].outcome) then (s.wedgeFails + 1) % 3 else 0)
            && (Dialled(r.ops) ==> (r.ops[n - 1].restarts <==> Stuck(r.ops[n - 1].outcome) && s.wedgeFails == 2))
            && (forall k | 0 <= k < n - 1 :: !r.ops[k].Dial?)
  {
    hide B.Schedule;
  }

  lemma {:induction false} StuckDialsAreCounted(cfg: Cfg, calls: seq<Call>, i: nat)
    requires i <= |calls|
    ensures StateAt(cfg, calls, i).wedgeFails == StuckInARow(cfg, calls, i) % 3
  {
    hide RunOnce, State.Valid, Stuck;
    if i > 0 {
      StuckDialsAreCounted(cfg, calls, i - 1);
      AlwaysValid(cfg, calls, i - 1);
      if calls[i - 1].Runs? { StuckStep(cfg, StateAt(cfg, calls, i - 1), calls[i - 1].a); }
    }
  }

  /** In every run RasMan is restarted by exactly every third stuck dial in a row, and by
      nothing else; no step dials twice. */
  lemma EveryThirdRestarts(cfg: Cfg, calls: seq<Call>, i: nat)
    requires i < |calls|
    ensures var ops := ResultAt(cfg, calls, i).ops;
            && (Dialled(ops) ==>
                  (ops[|ops| - 1].restarts <==> StuckInARow(cfg, calls, i + 1) > 0 && StuckInARow(cfg, calls, i + 1) % 3 == 0))
            && (forall k | 0 <= k < |ops| - 1 :: !ops[k].Dial?)
  {
    hide RunOnce, State.Valid, Stuck;
    AlwaysValid(cfg, calls, i);
    StuckDialsAreCounted(cfg, calls, i);
    if calls[i].Runs? { StuckStep(cfg, StateAt(cfg, calls, i), calls[i].a); }
  }

  /** How long a step asks to be left alone, read off what it did to the outside. */
  lemma DelayByOutcome(cfg: Cfg, s: State, a: Answers)
    ensures var r := RunOnce(cfg, s, a); var n := |r.ops|;
            && (n > 0 && r.ops[n - 1].Dial? ==>
                  r.delay == match a.dial
                             case Established => cfg.probeInterval
                             case AuthRefused(_) => cfg.authFailDelay
                             case TransientFailure(_) => B.Schedule(cfg.redialMin, cfg.redialMax, Bump32(s.backoff)))
            && (n > 0 && r.ops[n - 1].Probe? ==>
                  n == 1 && r.delay == if a.probe == Alive then cfg.probeInterval else cfg.probeInterval / 4)
            && (n == 0 || r.ops[n - 1].Hangup? ==> s.ethLink == Some(false) && r.delay == LINK_DOWN_RETRY)
  {}

  /** Call `i` was a step whose one probe went badly, and which left it at that. */
  ghost predicate SuspectAt(cfg: Cfg, calls: seq<Call>, i: nat)
    requires i < |calls|
  {
    calls[i].Runs? && Probed(ResultAt(cfg, calls, i).ops) && ResultAt(cfg, calls, i).ops[0].verdict != Alive
  }

  lemma SuspicionStep(cfg: Cfg, s: State, a: Answers)
    requires s.Valid()
    ensures var r := RunOnce(cfg, s, a);
            && (r.s.probeFails == 1 ==> Probed(r.ops) && r.ops[0].verdict != Alive)
            && (|r.ops| >= 2 && r.ops[0].Probe? ==> s.probeFails == 1 && r.ops[0].verdict != Alive && r.ops[1].Hangup?)
  {}

  lemma {:induction false} SuspicionOrigin(cfg: Cfg, calls: seq<Call>, i: nat) returns (j: nat)
    requires i <= |calls| && StateAt(cfg, calls, i).probeFails == 1
    ensures j < i && SuspectAt(cfg, calls, j)
    ensures forall k | j < k < i :: !calls[k].Runs?
  {
    hide RunOnce, State.Valid, Probed;
    AlwaysValid(cfg, calls, i - 1);
    if calls[i - 1].Runs? {
      SuspicionStep(cfg, StateAt(cfg, calls, i - 1), calls[i - 1].a);
      j := i - 1;
    } else {
      j := SuspicionOrigin(cfg, calls, i - 1);
    }
  }

  /** One bad probe is never enough: a step that hangs up over a probe found it bad, and the
      step right before it had found the same session's probe bad. */
  lemma DropNeedsTwoBadProbes(cfg: Cfg, calls: seq<Call>, i: nat) returns (j: nat)
    requires i < |calls|
    requires var ops := ResultAt(cfg, calls, i).ops; |ops| >= 2 && ops[0].Probe?
    ensures ResultAt(cfg, calls, i).ops[0].verdict != Alive
    ensures j < i && SuspectAt(cfg, calls, j)
    ensures forall k | j < k < i :: !calls[k].Runs?
  {
    hide RunOnce, State.Valid;
    AlwaysValid(cfg, calls, i);
    SuspicionStep(cfg, StateAt(cfg, calls, i), calls[i].a);
    j := SuspicionOrigin(cfg, calls, i);
  }

  /** The step ran one probe and did nothing else. */
  predicate Probed(ops: seq<Op>) { |ops| == 1 && ops[0].Probe? }

  predicate ProbedAlive(ops: seq<Op>) { Probed(ops) && ops[0].verdict == Alive }

  /** What a step does to the stability clock, read off what it did to the outside. */
  lemma StabilityStep(cfg: Cfg, s: State, a: Answers)
    requires s.Valid()
    ensures var r := RunOnce(cfg, s, a);
            if Probed(r.ops) then
              s.phase == Connected && r.s.stableFor == s.stableFor + if ProbedAlive(r.ops) then cfg.probeInterval else 0
            else
              r.s.phase == Connected ==> r.s.stableFor == 0
    ensures var r := RunOnce(cfg, s, a);
            r.s.attempts < s.attempts ==>
              ProbedAlive(r.ops) && r.s.phase == Connected && r.s.stableFor >= STABLE_RESET_AFTER && r.s.attempts == 0
    ensures var r := RunOnce(cfg, s, a);
            ProbedAlive(r.ops) && r.s.stableFor >= STABLE_RESET_AFTER ==> r.s.attempts == r.s.backoff == 0
  {}

  function Counted(ops: seq<Op>, before: nat): nat {
    if ProbedAlive(ops) then before + 1 else if Probed(ops) then before else 0
  }

  /** Alive probes answered since the last dial or drop, over calls `..i`. */
  function AliveSince(cfg: Cfg, calls: seq<Call>, i: nat): nat
    requires i <= |calls|
  {
    if i == 0 then 0
    else
      var before := AliveSince(cfg, calls, i - 1);
      if calls[i - 1].Runs? then Counted(ResultAt(cfg, calls, i - 1).ops, before) else before
  }

  /** The time that so many probe intervals take. */
  function Lasting(cfg: Cfg, probes: nat): nat { cfg.probeInterval * probes }

  lemma OneMoreProbe(cfg: Cfg, probes: nat)
    ensures Lasting(cfg, probes + 1) == Lasting(cfg, probes) + cfg.probeInterval && Lasting(cfg, 0) == 0
  {}

  lemma StepCounts(cfg: Cfg, s: State, a: Answers, probes: nat)
    requires s.Valid() && (s.phase == Connected ==> s.stableFor == Lasting(cfg, probes))
    ensures var r := RunOnce(cfg, s, a);
            r.s.phase == Connected ==> r.s.stableFor == Lasting(cfg, Counted(r.ops, probes))
  {
    hide RunOnce, State.Valid, Lasting;
    StabilityStep(cfg, s, a);
    OneMoreProbe(cfg, probes);
  }

  lemma {:induction false} StableMeansAlive(cfg: Cfg, calls: seq<Call>, i: nat)
    requires i <= |calls|
    ensures var s := StateAt(cfg, calls, i); s.phase == Connected ==> s.stableFor == Lasting(cfg, AliveSince(cfg, calls, i))
  {
    if i > 0 {
      hide RunOnce, State.Valid, Counted, Lasting;
      StableMeansAlive(cfg, calls, i - 1);
      if calls[i - 1].Runs? {
        AlwaysValid(cfg, calls, i - 1);
        StepCounts(cfg, StateAt(cfg, calls, i - 1), calls[i - 1].a, AliveSince(cfg, calls, i - 1));
      }
    }
  }

  /** The failure count is forgotten only by a session that has answered Alive for at least
      300 s worth of probe intervals since it was dialled, and then both counters return to zero. */
  lemma ResetNeedsStability(cfg: Cfg, calls: seq<Call>, i: nat)
    requires i < |calls| && ResetsAt(cfg, calls, i)
    ensures calls[i].Runs? && ProbedAlive(ResultAt(cfg, calls, i).ops)
    ensures Lasting(cfg, AliveSince(cfg, calls, i + 1)) >= STABLE_RESET_AFTER
    ensures StateAt(cfg, calls, i + 1).attempts == StateAt(cfg, calls, i + 1).backoff == 0
  {
    hide RunOnce, AliveSince, Lasting, Counted;
    AlwaysValid(cfg, calls, i);
    AlwaysValid(cfg, calls, i + 1);
    StableMeansAlive(cfg, calls, i + 1);
    StabilityStep(cfg, StateAt(cfg, calls, i), calls[i].a);
  }

  /** And such a session does forget them: once it has answered Alive for 300 s worth of probe
      intervals, no failure is remembered. */
  lemma StableSessionsForget(cfg: Cfg, calls: seq<Call>, i: nat)
    requires i < |calls| && calls[i].Runs? && ProbedAlive(ResultAt(cfg, calls, i).ops)
    requires Lasting(cfg, AliveSince(cfg, calls, i + 1)) >= STABLE_RESET_AFTER
    ensures StateAt(cfg, calls, i + 1).attempts == StateAt(cfg, calls, i + 1).backoff == 0
  {
    hide RunOnce, AliveSince, Lasting, Counted;
    AlwaysValid(cfg, calls, i);
    StableMeansAlive(cfg, calls, i + 1);
    StabilityStep(cfg, StateAt(cfg, calls, i), calls[i].a);
    ProbesConnected(cfg, StateAt(cfg, calls, i), calls[i].a);
  }

  lemma ProbesConnected(cfg: Cfg, s: State, a: Answers)
    requires Probed(RunOnce(cfg, s, a).ops)
    ensures RunOnce(cfg, s, a).s.phase == Connected
  {}
}
