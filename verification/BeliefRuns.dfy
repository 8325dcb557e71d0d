/** What the supervisor believes, over its whole lives: each belief is what the last accepted
    report said, and what it demands on its own account is demanded when it is due. */
module BeliefRuns {
  import opened Types
  import opened Supervisor
  import opened SupervisorRuns
  import opened TakeoverRuns
  import N = Notifications
  import WB = WirelessBrain

  // ---------------------------------------------------------------------------
  // Beliefs are the last reports
  // ---------------------------------------------------------------------------

  /** Call `i` was handled by a running supervisor. */
  ghost predicate HandledAt(cfg: Config, run: seq<Stamped>, i: nat)
    requires i < |run|
  {
    StateAt(cfg, run, i).Running()
  }

  /** The session carried by the last answer of a watchdog step. */
  ghost function SessionHeard(cfg: Config, run: seq<Stamped>, i: nat): SessionView
    requires i <= |run|
  {
    if i == 0 then SessionView(Idle, None, None, 0)
    else if SteppedAt(cfg, run, i - 1) then run[i - 1].ev.session
    else SessionHeard(cfg, run, i - 1)
  }

  /** The last definite link sample that was asked for. */
  ghost function LinkHeard(cfg: Config, run: seq<Stamped>, i: nat): Option<bool>
    requires i <= |run|
  {
    if i == 0 then None
    else if AcceptedAt(cfg, run, i - 1, LinkSample) && run[i - 1].ev.up.Some? then run[i - 1].ev.up
    else LinkHeard(cfg, run, i - 1)
  }

  /** The address of the line: by the last step or the last link sample, whichever came later. */
  ghost function AddressHeard(cfg: Config, run: seq<Stamped>, i: nat): Option<Ipv4>
    requires i <= |run|
  {
    if i == 0 then None
    else if SteppedAt(cfg, run, i - 1) then run[i - 1].ev.stepIp
    else if AcceptedAt(cfg, run, i - 1, LinkSample) then run[i - 1].ev.pppIp
    else AddressHeard(cfg, run, i - 1)
  }

  /** Since when steps have been failing: the first failing answer since the last connected one. */
  ghost function FailingSince(cfg: Config, run: seq<Stamped>, i: nat): Option<nat>
    requires i <= |run|
  {
    if i == 0 then None
    else if !SteppedAt(cfg, run, i - 1) then FailingSince(cfg, run, i - 1)
    else
      match run[i - 1].ev.session.status
      case Connected => None
      case Backoff => if FailingSince(cfg, run, i - 1).Some? then FailingSince(cfg, run, i - 1) else Some(run[i - 1].now)
      case AuthFail => if FailingSince(cfg, run, i - 1).Some? then FailingSince(cfg, run, i - 1) else Some(run[i - 1].now)
      case _ => FailingSince(cfg, run, i - 1)
  }

  /** The mode last commanded. */
  ghost function ModeCommanded(cfg: Config, run: seq<Stamped>, i: nat): NetMode
    requires i <= |run|
  {
    if i == 0 then cfg.mode
    else if HandledAt(cfg, run, i - 1) && run[i - 1].ev.Commanded? && run[i - 1].ev.cmd.SetMode? then run[i - 1].ev.cmd.mode
    else ModeCommanded(cfg, run, i - 1)
  }

  /** The heartbeat last reported. */
  ghost function HeartbeatHeard(cfg: Config, run: seq<Stamped>, i: nat): HeartbeatStatus
    requires i <= |run|
  {
    if i == 0 then Quiet
    else if HandledAt(cfg, run, i - 1) && run[i - 1].ev.Heartbeat? then run[i - 1].ev.status
    else HeartbeatHeard(cfg, run, i - 1)
  }

  lemma WiredBeliefs(s: Core, ev: Event, now: nat)
    requires s.wired.linkSampleSeen || s.wired.ethLink.None?
    ensures var d, d' := s.wired, React(s, ev, now).core.wired;
            if s.Running() && ev.WatchdogStepped? then
              && d'.session == ev.session && d'.pppIp == ev.stepIp && d'.ethLink == d.ethLink
              && d'.failingSince == match ev.session.status
                                    case Connected => None
                                    case Backoff => if d.failingSince.Some? then d.failingSince else Some(now)
                                    case AuthFail => if d.failingSince.Some? then d.failingSince else Some(now)
                                    case _ => d.failingSince
            else if Accepts(s, ev, LinkSample) then
              && d'.session == d.session && d'.pppIp == ev.pppIp && d'.failingSince == d.failingSince
              && d'.ethLink == if ev.up.Some? then ev.up else d.ethLink
            else
              d'.session == d.session && d'.pppIp == d.pppIp && d'.ethLink == d.ethLink && d'.failingSince == d.failingSince
  {
    hide AirStep, WakeAir, WB.New, N.MaybeNotify, N.Allowed, N.OnResult;
  }

  lemma OtherBeliefs(s: Core, ev: Event, now: nat)
    ensures var t := React(s, ev, now).core;
            && t.mode == (if s.Running() && ev.Commanded? && ev.cmd.SetMode? then ev.cmd.mode else s.mode)
            && t.heartbeat == (if s.Running() && ev.Heartbeat? then ev.status else s.heartbeat)
  {
    hide AirStep, WakeAir, WakeWired, LinkArrives, WB.New, N.MaybeNotify, N.Allowed, N.OnResult;
  }

  /** In every run every belief is what was last reported, whatever else was handled since. */
  lemma {:induction false} BeliefIsTheLastReport(cfg: Config, run: seq<Stamped>, i: nat)
    requires i <= |run|
    ensures var s := StateAt(cfg, run, i);
            && s.wired.session == SessionHeard(cfg, run, i) && s.wired.ethLink == LinkHeard(cfg, run, i)
            && s.wired.pppIp == AddressHeard(cfg, run, i) && s.wired.failingSince == FailingSince(cfg, run, i)
            && s.mode == ModeCommanded(cfg, run, i) && s.heartbeat == HeartbeatHeard(cfg, run, i)
  {
    hide React;
    if i > 0 {
      BeliefIsTheLastReport(cfg, run, i - 1);
      LinkLedger(cfg, run, i - 1);
      WiredBeliefs(StateAt(cfg, run, i - 1), run[i - 1].ev, run[i - 1].now);
      OtherBeliefs(StateAt(cfg, run, i - 1), run[i - 1].ev, run[i - 1].now);
    }
  }

  // ---------------------------------------------------------------------------
  // What is due is demanded
  // ---------------------------------------------------------------------------

  /** A deadline that is due, a step that waits, or a poll that is due calls for a link sample. */
  predicate SampleDue(w: WiredSide, now: nat) {
    w.stepPending || w.linkPollAt <= now || (w.deadline.Some? && w.deadline.value <= now)
  }

  lemma WakeDemands(s: Core, now: nat)
    requires s.Running()
    ensures var r := React(s, Wake, now); var d, d' := s.wired, r.core.wired;
            && (SampleLink in r.effects <==> SampleDue(d, now) && !d.sampleInFlight)
            && (SampleWireless in r.effects <==> s.air.brain.Some? && s.air.tickAt <= now && !s.air.sampleInFlight)
            && (d'.stepPending <==> d.stepPending || (d.deadline.Some? && d.deadline.value <= now))
            && d'.linkPollAt == (if SampleDue(d, now) && (!d.sampleInFlight || d.linkPollAt <= now) then now + LINK_POLL_MS else d.linkPollAt)
            && r.core.air.tickAt == (if s.air.brain.Some? && s.air.tickAt <= now then now + WIRELESS_TICK_MS else s.air.tickAt)
            && (forall e | e in r.effects :: e == SampleLink || e == SampleWireless)
  {}

  /** Every wake-up demands exactly the samples that are due and not out; a sample that
      serves a step leads to the step. */
  lemma DueIsDemanded(cfg: Config, run: seq<Stamped>, i: nat)
    requires i < |run| && HandledAt(cfg, run, i)
    ensures var s, effects := StateAt(cfg, run, i), EffectsAt(cfg, run, i);
            && (run[i].ev.Wake? ==>
                  && (SampleLink in effects <==> SampleDue(s.wired, run[i].now) && !s.wired.sampleInFlight)
                  && (SampleWireless in effects <==>
                        s.air.brain.Some? && s.air.tickAt <= run[i].now && !s.air.sampleInFlight)
                  && (forall e | e in effects :: e == SampleLink || e == SampleWireless))
            && (AcceptedAt(cfg, run, i, LinkSample) ==>
                  && (StepWatchdog in effects <==> s.wired.stepPending || LinkRestored(s.wired, run[i].ev))
                  && (RequestRedial in effects <==> LinkRestored(s.wired, run[i].ev)))
            && (run[i].ev == Commanded(Redial) ==> effects == [RequestRedial, StepWatchdog])
            && (run[i].ev.Commanded? && run[i].ev.cmd.SetMode? ==> effects == [PersistMode(run[i].ev.cmd.mode)])
  {
    var s, ev, now := StateAt(cfg, run, i), run[i].ev, run[i].now;
    if ev.Wake? { WakeDemands(s, now); }
    LinkLedger(cfg, run, i);
    if ev.LinkSampled? { ArrivalDemands(s, ev.up, ev.pppIp, now); }
    if ev.Commanded? { CommandDemands(s, ev.cmd, now); }
    hide React, StateAt, Accepts;
    assert AcceptedAt(cfg, run, i, LinkSample) ==> ev.LinkSampled? && s.wired.sampleInFlight by { AcceptedMeans(s, ev); }
  }

  lemma AcceptedMeans(s: Core, ev: Event)
    ensures Accepts(s, ev, LinkSample) <==> s.Running() && s.wired.sampleInFlight && ev.LinkSampled?
  {}

  lemma ArrivalDemands(s: Core, up: Option<bool>, pppIp: Option<Ipv4>, now: nat)
    requires s.Running() && (s.wired.linkSampleSeen || s.wired.ethLink.None?)
    ensures var effects := React(s, LinkSampled(up, pppIp), now).effects;
            s.wired.sampleInFlight ==>
              && (StepWatchdog in effects <==> s.wired.stepPending || LinkRestored(s.wired, LinkSampled(up, pppIp)))
              && (RequestRedial in effects <==> LinkRestored(s.wired, LinkSampled(up, pppIp)))
  {
    if up.Some? { var b: bool := up.value; assert up == Some(b); }
  }

  lemma CommandDemands(s: Core, cmd: Command, now: nat)
    requires s.Running()
    ensures React(s, Commanded(cmd), now).effects ==
              match cmd case Redial => [RequestRedial, StepWatchdog] case SetMode(m) => [PersistMode(m)]
  {}

  // ---------------------------------------------------------------------------
  // Toasts go out when they should
  // ---------------------------------------------------------------------------

  /** No toast of this kind was delivered during the last half hour. */
  ghost predicate QuietAt(cfg: Config, run: seq<Stamped>, i: nat, key: N.ToastKey)
    requires i < |run|
  {
    forall j | 0 <= j < i && Delivered(cfg, run, j, key) :: run[i].now - run[j].now >= N.NOTIFY_THROTTLE_MS
  }

  /** The ledger remembers the last delivery of a kind, and nothing that was not delivered. */
  lemma {:induction false} DeliveryIsRemembered(cfg: Config, run: seq<Stamped>, i: nat, key: N.ToastKey) returns (j: nat)
    requires i <= |run| && key in StateAt(cfg, run, i).notes.deliveredAt
    ensures j < i && Delivered(cfg, run, j, key) && run[j].now == StateAt(cfg, run, i).notes.deliveredAt[key]
  {
    hide React;
    if i == 0 { assert false; }
    NoteStep(StateAt(cfg, run, i - 1), run[i - 1].ev, run[i - 1].now, key);
    if Delivered(cfg, run, i - 1, key) {
      j := i - 1;
    } else {
      j := DeliveryIsRemembered(cfg, run, i - 1, key);
    }
  }

  lemma AllowedWhenQuiet(cfg: Config, run: seq<Stamped>, i: nat, key: N.ToastKey)
    requires Monotone(run) && i < |run|
    ensures N.Allowed(StateAt(cfg, run, i).notes, key, run[i].now) <==>
              !Busy(StateAt(cfg, run, i), Tell(key)) && QuietAt(cfg, run, i, key)
  {
    hide React, StateAt;
    var l := StateAt(cfg, run, i).notes;
    forall j | 0 <= j < i && Delivered(cfg, run, j, key) ensures key in l.deliveredAt && l.deliveredAt[key] >= run[j].now {
      LastDelivery(cfg, run, j, i, key);
    }
    if key in l.deliveredAt {
      var j := DeliveryIsRemembered(cfg, run, i, key);
      assert run[j].now <= run[i].now;
    }
  }

  lemma HeartbeatTells(s: Core, status: HeartbeatStatus, now: nat)
    requires s.Running()
    ensures var effects := React(s, Heartbeat(status), now).effects;
            effects == if status == Broken && N.Allowed(s.notes, N.HeartbeatError, now) then [Notify(N.HeartbeatError)] else []
  {
    hide N.Allowed, N.MaybeNotify;
  }

  lemma StepTells(s: Core, delay: nat, session: SessionView, pppIp: Option<Ipv4>, now: nat)
    requires s.Running()
    ensures var r := React(s, WatchdogStepped(delay, session, pppIp), now); var since := r.core.wired.failingSince;
            r.effects == if session.status in {Backoff, AuthFail} && since.Some? && now >= since.value + 600_000
                            && s.wired.ethLink != Some(false) && session.lastDrop != Some(EthernetLinkDown)
                            && N.Allowed(s.notes, N.RedialFailing, now)
                         then [Notify(N.RedialFailing)] else []
  {
    hide N.Allowed, N.MaybeNotify;
  }

  /** In every run, a heartbeat error is told exactly when no toast of its kind is out and
      none was delivered during the last half hour. */
  lemma HeartbeatErrorsAreTold(cfg: Config, run: seq<Stamped>, i: nat)
    requires Monotone(run) && i < |run| && HandledAt(cfg, run, i) && run[i].ev.Heartbeat?
    ensures EffectsAt(cfg, run, i) ==
              if run[i].ev.status == Broken && !Busy(StateAt(cfg, run, i), Tell(N.HeartbeatError)) && QuietAt(cfg, run, i, N.HeartbeatError)
              then [Notify(N.HeartbeatError)] else []
  {
    hide React, N.Allowed;
    AllowedWhenQuiet(cfg, run, i, N.HeartbeatError);
    HeartbeatTells(StateAt(cfg, run, i), run[i].ev.status, run[i].now);
  }

  /** Ten minutes of failing steps are told exactly when the cable is not to blame, no toast of
      this kind is out and none was delivered during the last half hour. */
  lemma FailingRedialsAreTold(cfg: Config, run: seq<Stamped>, i: nat)
    requires Monotone(run) && i < |run| && SteppedAt(cfg, run, i)
    ensures var since, session := FailingSince(cfg, run, i + 1), run[i].ev.session;
            EffectsAt(cfg, run, i) ==
              if && session.status in {Backoff, AuthFail} && since.Some? && run[i].now >= since.value + 600_000
                 && LinkHeard(cfg, run, i) != Some(false) && session.lastDrop != Some(EthernetLinkDown)
                 && !Busy(StateAt(cfg, run, i), Tell(N.RedialFailing)) && QuietAt(cfg, run, i, N.RedialFailing)
              then [Notify(N.RedialFailing)] else []
  {
    hide React, N.Allowed, FailingSince, LinkHeard;
    AllowedWhenQuiet(cfg, run, i, N.RedialFailing);
    BeliefIsTheLastReport(cfg, run, i);
    BeliefIsTheLastReport(cfg, run, i + 1);
    StepTells(StateAt(cfg, run, i), run[i].ev.delay, run[i].ev.session, run[i].ev.stepIp, run[i].now);
  }
}
