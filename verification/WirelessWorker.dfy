/** src/runtime.rs: the wireless lane. Its worker executes, one by one and in order, what the
    supervisor demanded; here the supervisor's lane meets the egress ledger. */
module WirelessWorker {
  import opened Types
  import opened Sup = Supervisor
  import Runs = SupervisorRuns
  import WB = WirelessBrain
  import N = Notifications
  import opened Shell
  import opened Routes
  import opened Egress
  import W = Watchdog

  // ---------------------------------------------------------------------------
  // What the lane looks like
  // ---------------------------------------------------------------------------

  /** A login never travels alone: right before it go the acquisition of an egress and the wait for it. */
  predicate LaneShape(lane: seq<Effect>) {
    forall i | 0 <= i < |lane| && lane[i].PortalAuth? :: i >= 2 && lane[i - 1].Settle? && lane[i - 2].AcquireWirelessEgress?
  }

  predicate NoLogin(effects: seq<Effect>) { forall e | e in effects :: !e.PortalAuth? }

  lemma MetricHasNoLogin(cfg: Config, mode: NetMode, wiredHealthy: bool, wlan: Option<WlanSample>)
    ensures NoLogin(MetricEffects(cfg, mode, wiredHealthy, wlan))
  {}

  /** The login and its egress come from one and the same sample of the WLAN. */
  predicate MatchesSample(effects: seq<Effect>, wlan: Option<WlanSample>) {
    forall i | 2 <= i < |effects| && effects[i].PortalAuth? ::
      && wlan.Some? && wlan.value.gateway.Some?
      && effects[i].srcIp == wlan.value.ipv4
      && effects[i - 2] == AcquireWirelessEgress(WlanEndpoint(wlan.value.gateway.value, wlan.value.ifindex))
  }

  lemma CarryShape(cfg: Config, r: WirelessSide, b: WB.State, action: WB.Action, secs: nat)
    ensures var effects := Carry(cfg, r, b, action, secs).effects; LaneShape(effects) && MatchesSample(effects, r.wlan)
  {
    hide WB.OnAuth;
  }

  lemma BeatShape(cfg: Config, mode: NetMode, side: WiredSide, r: WirelessSide, associated: bool, now: nat)
    requires r.brain.Some?
    ensures var effects := BeatOf(cfg, mode, side, r, associated, now).effects;
            LaneShape(effects) && MatchesSample(effects, r.wlan)
  {
    hide WB.Decide, Carry, JoinTimeout, MetricEffects;
    var (b, action) := WB.Decide(r.brain.value.(mode := mode), WorldOf(side, r, associated, now));
    var h := Carry(cfg, r.(brain := Some(b)), b, action, now / 1000);
    CarryShape(cfg, r.(brain := Some(b)), b, action, now / 1000);
    var m := MetricEffects(cfg, mode, side.Healthy(), h.side.wlan);
    MetricHasNoLogin(cfg, mode, side.Healthy(), h.side.wlan);
    var all := h.effects + m;
    assert forall i | |h.effects| <= i < |all| :: all[i] in m;
    assert forall i | 0 <= i < |h.effects| :: all[i] == h.effects[i];
  }

  /** Every reaction keeps the shape, and a reaction with a login is for the worker alone. */
  lemma ReactionShape(s: Core, ev: Event, now: nat)
    ensures var effects := React(s, ev, now).effects;
            && LaneShape(effects) && (NoLogin(effects) || Runs.WorkerOnly(effects))
            && (ev.WirelessSampled? ==> MatchesSample(effects, ev.wlan))
  {
    if s.Running() && AirEvent(ev) {
      hide React, BeatOf, LaneShape, NoLogin, MatchesSample;
      NothingIsShaped(ev.WirelessSampled?, if ev.WirelessSampled? then ev.wlan else None);
      ReactAir(s, ev, now);
      Runs.AirStaysInItsLane(s, ev, now);
      if ev.WirelessSampled? && s.air.sampleInFlight && s.air.brain.Some? {
        BeatShape(s.cfg, s.mode, s.wired, s.air.(sampleInFlight := false, wlan := ev.wlan), ev.associated, now);
      }
    } else {
      OtherShape(s, ev, now);
      hide React;
      var effects := React(s, ev, now).effects;
      assert forall i | 0 <= i < |effects| :: effects[i] in effects;
    }
  }

  lemma NothingIsShaped(sampled: bool, wlan: Option<WlanSample>)
    ensures LaneShape([]) && NoLogin([]) && (sampled ==> MatchesSample([], wlan))
  {}

  lemma OtherShape(s: Core, ev: Event, now: nat)
    requires !s.Running() || !AirEvent(ev)
    ensures NoLogin(React(s, ev, now).effects)
  {
    hide AirStep, N.MaybeNotify, N.Allowed, N.OnResult;
  }

  /** What is in the lane, followed by what the current reaction will still put there, keeps the shape. */
  predicate Shaped(w: World) {
    LaneShape(w.lane) && (w.stopping || (if Runs.WorkerOnly(w.todo) then LaneShape(w.lane + w.todo) else NoLogin(w.todo)))
  }

  lemma ShapeAppend(a: seq<Effect>, b: seq<Effect>)
    requires LaneShape(a) && (LaneShape(b) || NoLogin(b))
    ensures LaneShape(a + b)
  {
    assert forall i | 0 <= i < |a| :: (a + b)[i] == a[i];
    assert forall i | 0 <= i < |b| :: (a + b)[|a| + i] == b[i] && b[i] in b;
    forall i | 0 <= i < |a + b| && (a + b)[i].PortalAuth?
      ensures i >= 2 && (a + b)[i - 1].Settle? && (a + b)[i - 2].AcquireWirelessEgress?
    {
      if i >= |a| {
        assert b[i - |a|].PortalAuth?;
        assert (a + b)[i - 1] == b[i - |a| - 1] && (a + b)[i - 2] == b[i - |a| - 2];
      }
    }
  }

  lemma ShapePrefix(a: seq<Effect>, b: seq<Effect>)
    requires LaneShape(a + b)
    ensures LaneShape(a)
  {
    assert forall i | 0 <= i < |a| :: (a + b)[i] == a[i];
  }

  lemma MicroKeepsShape(w: World, o: Oracle)
    requires !w.Idle() && Shaped(w)
    ensures Shaped(Micro(w, o)) && Micro(w, o).stopping == w.stopping
  {
    hide React, W.RunOnce, Log;
    var w' := Micro(w, o);
    if w.todo == [] {
      ReactionShape(w.core, w.queue[0], w.now + o.dt);
      ShapeAppend(w.lane, w'.todo);
    } else {
      ExecKeepsShape(w, o);
    }
  }

  lemma ExecKeepsShape(w: World, o: Oracle)
    requires w.todo != [] && Shaped(w)
    ensures Shaped(Exec(w, o))
  {
    hide W.RunOnce, Log, LaneShape;
    var w' := Exec(w, o);
    assert w.todo[0] in w.todo && forall e | e in w'.todo :: e in w.todo;
    if !w.stopping {
      if Runs.WorkerOnly(w.todo) {
        assert w'.lane + w'.todo == w.lane + w.todo;
        ShapePrefix(w'.lane, w'.todo);
      } else {
        ShapeAppend(w.lane, w'.lane[|w.lane|..]);
        assert w'.lane == w.lane + w'.lane[|w.lane|..];
        ShapeAppend(w'.lane, w'.todo);
      }
    }
  }

  lemma {:induction false} DrainKeepsShape(env: nat -> Oracle, w: World)
    requires Shaped(w)
    ensures Shaped(Drained(env, w))
    decreases Weight(w), |w.todo|
  {
    hide Shaped, Micro;
    if !w.Idle() {
      MicroKeepsShape(w, env(w.tick));
      MicroDecreases(w, env(w.tick));
      DrainKeepsShape(env, Micro(w, env(w.tick)));
    }
  }

  lemma FeedKeepsShape(env: nat -> Oracle, w: World, ev: Event)
    requires w.Idle() && Shaped(w)
    ensures Shaped(Feed(env, w, ev))
  {
    hide Drained;
    DrainKeepsShape(env, w.(queue := [ev], stopping := w.stopping || ev.Stop?));
  }

  /** In every life of the service the worker's lane has this shape. */
  lemma {:induction false} LaneAlwaysShaped(env: nat -> Oracle, cfg: Config, dogCfg: W.Cfg, events: seq<Event>)
    ensures LaneShape(ServiceAfter(env, cfg, dogCfg, events).lane) && Shaped(ServiceAfter(env, cfg, dogCfg, events))
  {
    hide Feed;
    if events == [] {
      FeedKeepsShape(env, Boot(cfg, dogCfg), Started);
    } else {
      LaneAlwaysShaped(env, cfg, dogCfg, events[..|events| - 1]);
      FeedKeepsShape(env, ServiceAfter(env, cfg, dogCfg, events[..|events| - 1]), events[|events| - 1]);
    }
  }

  // ---------------------------------------------------------------------------
  // The worker
  // ---------------------------------------------------------------------------

  /** How the last acquisition went: for which endpoint, whether anything was left pending, how
      each destination's attempt went, and the rows it got. */
  datatype Acquisition = Acquisition(endpoint: WlanEndpoint, clean: bool, tries: seq<bool>, got: set<Route>)
  {
    ghost predicate Accepted() { clean && AllTrue(tries) }

    /** An accepted acquisition got exactly the wanted routes; a refused one left something
        pending, or an attempt of it failed, and even then it has them all if each failure
        was made up for. */
    ghost predicate Sound(dests: seq<Ipv4>) {
      && |tries| == |dests|
      && (Accepted() ==> got == Wanted(dests, endpoint))
      && (clean ==> (got == Wanted(dests, endpoint) <==> MadeUp(dests, tries)))
    }
  }

  /** With the portal and the probe on one address, a sound acquisition may have all its
      routes and still be refused. */
  lemma RefusedForNothing()
    ensures var e := WlanEndpoint(1, 15); var a := Acquisition(e, true, [false, true], Wanted([7, 7], e));
            a.Sound([7, 7]) && !a.Accepted()
  {
    assert !AllTrue([false, true]) by { assert ![false, true][0]; }
    assert MadeUp([7, 7], [false, true]) by { assert [7, 7][1] == [7, 7][0] && [false, true][1]; }
  }

  /** What one executed login met: the acquisition before it, whether the portal was contacted,
      and the service's rows and the route table at that moment. */
  datatype Login = Login(acquisition: Option<Acquisition>, contacted: bool, rows: set<Route>, table: set<Route>)
  {
    /** A login that asked for `endpoint`: it contacts the portal exactly when the acquisition
        of that endpoint was accepted, and then over exactly the wanted routes, installed. */
    ghost predicate Of(endpoint: WlanEndpoint, dests: seq<Ipv4>) {
      && acquisition.Some? && acquisition.value.endpoint == endpoint && acquisition.value.Sound(dests)
      && (contacted <==> acquisition.value.Accepted())
      && (contacted ==> rows == Wanted(dests, endpoint) && rows <= table)
    }
  }

  /** The endpoints that the logins of a lane ask for, in order. */
  function Asked(lane: seq<Effect>): seq<WlanEndpoint> {
    var n := |lane|;
    if n == 0 then []
    else Asked(lane[..n - 1]) + if lane[n - 1].PortalAuth? && n >= 3 && lane[n - 3].AcquireWirelessEgress?
                                then [lane[n - 3].endpoint] else []
  }

  /** The metric presses of a lane, in order. */
  function Pressed(lane: seq<Effect>): seq<(nat, nat)> {
    if lane == [] then []
    else
      var e := lane[|lane| - 1];
      Pressed(lane[..|lane| - 1]) + if e.SuppressMetric? then [(e.ifindex, e.target)] else []
  }

  /** The last effect that touches the egress tears it down. */
  predicate TornDown(lane: seq<Effect>) {
    lane != [] &&
    var e := lane[|lane| - 1];
    e.TeardownRoutes? || (!e.AcquireWirelessEgress? && !e.SuppressMetric? && TornDown(lane[..|lane| - 1]))
  }

  /** The last effect that touches the metric lets it go. */
  predicate LetGo(lane: seq<Effect>) {
    lane != [] &&
    var e := lane[|lane| - 1];
    e.TeardownRoutes? || e.ReleaseMetric? || (!e.SuppressMetric? && LetGo(lane[..|lane| - 1]))
  }

  lemma NothingSaidYet()
    ensures Pressed([]) == [] && !TornDown([]) && !LetGo([])
  {}

  lemma LastWordStep(lane: seq<Effect>, i: nat)
    requires i < |lane|
    ensures var e := lane[i];
            && Pressed(lane[..i + 1]) == Pressed(lane[..i]) + (if e.SuppressMetric? then [(e.ifindex, e.target)] else [])
            && (TornDown(lane[..i + 1]) <==>
                  e.TeardownRoutes? || (!e.AcquireWirelessEgress? && !e.SuppressMetric? && TornDown(lane[..i])))
            && (LetGo(lane[..i + 1]) <==> e.TeardownRoutes? || e.ReleaseMetric? || (!e.SuppressMetric? && LetGo(lane[..i])))
  {
    assert lane[..i + 1][..i] == lane[..i];
  }

  /** `after` extends `before` by exactly the logins of the lane. */
  ghost predicate Accounted(before: seq<Login>, after: seq<Login>, lane: seq<Effect>, dests: seq<Ipv4>, works: bool) {
    && before <= after && |after| == |before| + |Asked(lane)|
    && (forall k | 0 <= k < |Asked(lane)| :: after[|before| + k].Of(Asked(lane)[k], dests))
    && (works ==> forall k | |before| <= k < |after| :: after[k].contacted)
  }

  lemma NothingAskedYet(before: seq<Login>, dests: seq<Ipv4>, works: bool)
    ensures Accounted(before, before, [], dests, works)
  {}

  lemma WhatAccountedMeans(before: seq<Login>, after: seq<Login>, lane: seq<Effect>, dests: seq<Ipv4>, works: bool)
    requires Accounted(before, after, lane, dests, works)
    ensures before <= after && |after| == |before| + |Asked(lane)|
    ensures forall k | 0 <= k < |Asked(lane)| :: after[|before| + k].Of(Asked(lane)[k], dests)
    ensures works ==> forall k | |before| <= k < |after| :: after[k].contacted
  {}

  lemma AskedStep(lane: seq<Effect>, i: nat)
    requires i < |lane|
    ensures Asked(lane[..i + 1]) == Asked(lane[..i])
              + if lane[i].PortalAuth? && i >= 2 && lane[i - 2].AcquireWirelessEgress? then [lane[i - 2].endpoint] else []
    ensures !lane[i].PortalAuth? ==> forall before, after, dests, works ::
              Accounted(before, after, lane[..i], dests, works) ==> Accounted(before, after, lane[..i + 1], dests, works)
  {
    assert lane[..i + 1][..i] == lane[..i];
  }

  lemma OneMoreLogin(before: seq<Login>, sofar: seq<Login>, after: seq<Login>, lane: seq<Effect>, i: nat, dests: seq<Ipv4>, works: bool)
    requires i < |lane| && LaneShape(lane) && lane[i].PortalAuth? && Accounted(before, sofar, lane[..i], dests, works)
    requires |after| == |sofar| + 1 && sofar <= after
    requires i >= 2 && lane[i - 2].AcquireWirelessEgress? ==> after[|sofar|].Of(lane[i - 2].endpoint, dests)
    requires works ==> after[|sofar|].contacted
    ensures Accounted(before, after, lane[..i + 1], dests, works)
  {
    hide Login.Of, Asked;
    AskedStep(lane, i);
  }

  class WirelessWorker {
    const egress: WirelessEgress
    var egressError: bool
    /** The last acquisition whose outcome no login has consumed yet, and every login so far. */
    ghost var acquired: Option<Acquisition>
    ghost var logins: seq<Login>

    ghost predicate Valid()
      reads this, egress, egress.ops, egress.ops.os
    {
      && egress.Valid()
      && (acquired.Some? ==>
            var a := acquired.value;
            && egress.routeEndpoint == Some(a.endpoint) && a.Sound(egress.dests)
            && (egressError <==> !a.Accepted())
            && (!egressError ==> egress.Exactly(a.endpoint)))
    }

    constructor (egress: WirelessEgress)
      requires egress.Valid()
      ensures Valid() && this.egress == egress && !egressError && acquired == None && logins == []
    {
      this.egress, egressError, acquired, logins := egress, false, None, [];
    }

    /** Before each message, and every two seconds while something is pending. */
    method Retry()
      requires Valid()
      modifies egress`added, egress`metricReleasePending, egress`life, egress.ops, egress.ops.os
      ensures Valid()
      ensures egress.ops.os.works ==> !egress.HasPendingCleanup()
      ensures |egress.life| == |old(egress.life)| + if old(egress.metricReleasePending) then 1 else 0
      ensures PressesOf(egress.life) == PressesOf(old(egress.life))
      ensures old(egress.Clean()) ==> egress.Clean()
      ensures old(egress.ops.saved).None? ==> egress.ops.saved.None?
    {
      hide WirelessEgress.Valid, Acquisition.Sound, Acquisition.Accepted, PressesOf;
      ghost var before, life := egress.added, egress.life;
      var _, undo := egress.RetryCleanup();
      UndoingPressesNothing(life, undo);
      if acquired.Some? && !egressError {
        assert forall r :: r in Rows(before) <==> r in before;
        assert forall r | r in before :: r in Wanted(egress.dests, acquired.value.endpoint);
        assert Rows(egress.added) == Rows(before);
      }
    }

    /** `run_effect` as far as the egress is concerned; association, waiting, the login and
        the probe themselves are the outside's business. */
    method RunEffect(e: Effect) returns (contacted: bool, ghost more: seq<MetricCall>)
      requires Valid()
      modifies this`egressError, this`acquired, this`logins, egress, egress.ops, egress.ops.os
      ensures egress.life == old(egress.life) + more
      ensures if e.SuppressMetric? then more != [] && more == [Press(e.ifindex, e.target, more[0].luck)] else forall c | c in more :: c.Undo?
      ensures e.SuppressMetric? && e.target != 0 && egress.ops.os.works && e.ifindex in old(egress.ops.os.ifaces) ==>
                egress.ops.applied == Some(e.ifindex)
      ensures e.ReleaseMetric? ==>
                && |more| == (if old(egress.appliedEndpoint).Some? then 1 else 0)
                && (egress.ops.saved.None? <==> !egress.metricReleasePending)
                && (more != [] ==> (egress.ops.saved.None? <==> Restore(old(egress.ops.Metrics()), more[0].luck).1))
                && (egress.ops.os.works ==> egress.ops.saved.None?)
      ensures e.TeardownRoutes? ==>
                && egress.routeEndpoint == None
                && |more| == (if old(egress.metricReleasePending) then 2 else if old(egress.appliedEndpoint).Some? then 1 else 0)
                && (egress.Clean() ==> egress.GivenBack()) && (egress.ops.os.works ==> egress.Clean())
      ensures !e.AcquireWirelessEgress? && !e.SuppressMetric? ==>
                (old(egress.Clean()) ==> egress.Clean()) && (old(egress.ops.saved).None? ==> egress.ops.saved.None?)
      ensures e.AcquireWirelessEgress? && old(egress.ops.saved).None? ==> egress.ops.saved.None?
      ensures egress.ops.os.works && !old(egress.HasPendingCleanup()) ==> !egress.HasPendingCleanup()
      ensures Valid() && egress.dests == old(egress.dests)
      ensures logins == old(logins)
                        + if e.PortalAuth? then [Login(old(acquired), contacted, Rows(egress.added), egress.ops.os.routes)] else []
      ensures e.PortalAuth? ==> contacted == !old(egressError) && egress.added == old(egress.added)
      ensures contacted ==> e.PortalAuth?
      ensures e.AcquireWirelessEgress? ==>
                && acquired.Some? && acquired.value.endpoint == e.endpoint
                && acquired.value.got == Rows(egress.added) && acquired.value.clean == !egress.HasPendingCleanup()
                && (egress.ops.os.works ==> !egressError)
      ensures e.Settle? ==> acquired == old(acquired) && egressError == old(egressError)
    {
      hide WirelessEgress.Valid, WirelessEgress.GivenBack, Acquisition.Sound, Acquisition.Accepted, Restore, Honest, Undone, MetricAfter, Suppress;
      contacted, more := false, [];
      match e {
        case AcquireWirelessEgress(endpoint) =>
          var ok, tries, undo := egress.Acquire(endpoint);
          more := undo;
          egressError := !ok;
          acquired := Some(Acquisition(endpoint, !egress.HasPendingCleanup(), tries, Rows(egress.added)));
          JustAcquired(acquired.value, egress.dests, ok);
        case SuppressMetric(ifindex, target) =>
          ghost var luck := egress.SuppressMetric(WlanEndpoint(0, ifindex), target);
          more := [Press(ifindex, target, luck)];
        case ReleaseMetric =>
          var _, undo := egress.ReleaseMetric();
          more := undo;
        case TeardownRoutes =>
          var _, undo := egress.Release();
          more := undo;
          egressError := false;
          acquired := None;
        case PortalAuth(_) =>
          contacted := !egressError;
          egressError := false;
          logins := logins + [Login(acquired, contacted, Rows(egress.added), egress.ops.os.routes)];
          acquired := None;
        case _ =>
      }
    }

    /** One message: the idle retries before it, then the effect. */
    method Turn(e: Effect)
      requires Valid()
      modifies this`egressError, this`acquired, this`logins, egress, egress.ops, egress.ops.os
      ensures Valid() && egress.dests == old(egress.dests)
      ensures if e.PortalAuth? then
                && |logins| == |old(logins)| + 1 && old(logins) <= logins && Current(logins[|old(logins)|])
                && (old(acquired).Some? ==> logins[|old(logins)|].Of(old(acquired).value.endpoint, egress.dests))
                && logins[|old(logins)|].contacted == !old(egressError)
              else logins == old(logins)
      ensures e.AcquireWirelessEgress? ==> Taken(e.endpoint)
      ensures e.Settle? ==> acquired == old(acquired) && egressError == old(egressError)
      ensures egress.ops.os.works ==> !egress.HasPendingCleanup()
      ensures PressesOf(egress.life) == PressesOf(old(egress.life)) + if e.SuppressMetric? then [(e.ifindex, e.target)] else []
      ensures (egress.ops.os.works && e.TeardownRoutes?) || (old(egress.Clean()) && !e.AcquireWirelessEgress? && !e.SuppressMetric?) ==>
                egress.Clean()
      ensures (egress.ops.os.works && (e.TeardownRoutes? || e.ReleaseMetric?)) || (old(egress.ops.saved).None? && !e.SuppressMetric?) ==>
                egress.ops.saved.None?
    {
      hide WirelessEgress.Valid, WirelessEgress.GivenBack, Login.Of, Acquisition.Sound, Acquisition.Accepted, PressesOf, Restore;
      var again: bool := *;
      if again { Retry(); }
      Retry();
      ghost var was, n, life := acquired, |logins|, egress.life;
      var contacted, more := RunEffect(e);
      if e.SuppressMetric? { OnePress(life, more[0]); } else { UndoingPressesNothing(life, more); }
      egress.LedgerIsInstalled();
      if e.PortalAuth? && was.Some? { MetLogin(logins[n], egress.dests); }
    }

    /** Execute a lane, in order. Every login of it is accounted for: it contacts the portal
        exactly when the acquisition right before it was accepted, and then the routes it asked
        for, and no others, are the service's and are installed. Over a table that works every
        login contacts the portal. What a final login met is what the lane leaves behind.
        Exactly the metric presses of the lane have been made, in order; and over a table that
        works, a lane whose last word is a teardown leaves nothing of the service. */
    method RunLane(lane: seq<Effect>)
      requires Valid() && LaneShape(lane)
      modifies this`egressError, this`acquired, this`logins, egress, egress.ops, egress.ops.os
      ensures Valid() && egress.dests == old(egress.dests)
      ensures old(logins) <= logins && |logins| == |old(logins)| + |Asked(lane)|
      ensures forall k | 0 <= k < |Asked(lane)| :: logins[|old(logins)| + k].Of(Asked(lane)[k], egress.dests)
      ensures egress.ops.os.works ==> forall k | |old(logins)| <= k < |logins| :: logins[k].contacted
      ensures lane != [] && lane[|lane| - 1].PortalAuth? ==>
                logins != [] && Current(logins[|logins| - 1])
      ensures PressesOf(egress.life) == PressesOf(old(egress.life)) + Pressed(lane)
      ensures egress.ops.os.works && TornDown(lane) ==> egress.Clean()
      ensures egress.Clean() ==> egress.GivenBack()
      ensures egress.ops.os.works && LetGo(lane) ==> egress.ops.saved.None?
      ensures egress.ops.os.works && lane != [] ==> !egress.HasPendingCleanup()
    {
      hide Valid, Login.Of, Accounted, Asked, PressesOf, Pressed, TornDown, LetGo, WirelessEgress.Clean, WirelessEgress.GivenBack;
      ghost var before, works, life := logins, egress.ops.os.works, egress.life;
      NothingSaidYet();
      assert PressesOf(life) + [] == PressesOf(life);
      NothingAskedYet(before, egress.dests, works);
      assert lane[..0] == [];
      for i := 0 to |lane|
        invariant Valid() && egress.dests == old(egress.dests)
        invariant i >= 1 && lane[i - 1].AcquireWirelessEgress? ==> Taken(lane[i - 1].endpoint)
        invariant i >= 2 && lane[i - 1].Settle? && lane[i - 2].AcquireWirelessEgress? ==> Taken(lane[i - 2].endpoint)
        invariant Accounted(before, logins, lane[..i], egress.dests, works)
        invariant i >= 1 && lane[i - 1].PortalAuth? ==> logins != [] && Current(logins[|logins| - 1])
        invariant PressesOf(egress.life) == PressesOf(life) + Pressed(lane[..i])
        invariant works && TornDown(lane[..i]) ==> egress.Clean()
        invariant works && LetGo(lane[..i]) ==> egress.ops.saved.None?
        invariant works && i > 0 ==> !egress.HasPendingCleanup()
      {
        ghost var sofar := logins;
        Turn(lane[i]);
        AskedStep(lane, i);
        LastWordStep(lane, i);
        if lane[i].PortalAuth? { OneMoreLogin(before, sofar, logins, lane, i, egress.dests, works); }
      }
      assert lane[..|lane|] == lane;
      WhatAccountedMeans(before, logins, lane, egress.dests, works);
      EgressIsGivenBack();
    }

    lemma EgressIsGivenBack()
      requires Valid()
      ensures egress.Clean() ==> egress.GivenBack()
    {
      hide WirelessEgress.GivenBack;
      egress.GivenBackIfClean();
    }

    /** The login met the ledger and the route table as they are now. */
    ghost predicate Current(l: Login)
      reads egress`added, egress.ops, egress.ops.os
    {
      l.rows == Rows(egress.added) && l.table == egress.ops.os.routes
    }

    /** The last acquisition was for this endpoint, and over a table that works it was accepted. */
    ghost predicate Taken(endpoint: WlanEndpoint)
      reads this, egress, egress.ops, egress.ops.os
    {
      acquired.Some? && acquired.value.endpoint == endpoint && (egress.ops.os.works ==> !egressError)
    }
  }

  lemma JustAcquired(a: Acquisition, dests: seq<Ipv4>, ok: bool)
    requires |a.tries| == |dests| && (ok <==> a.clean && AllTrue(a.tries)) && (ok ==> a.got == Wanted(dests, a.endpoint))
    requires a.clean ==> (a.got == Wanted(dests, a.endpoint) <==> MadeUp(dests, a.tries))
    ensures a.Sound(dests) && (ok <==> a.Accepted())
  {}

  lemma MetLogin(l: Login, dests: seq<Ipv4>)
    requires l.acquisition.Some? && l.acquisition.value.Sound(dests) && (l.contacted <==> l.acquisition.value.Accepted())
    requires l.contacted ==> l.rows == Wanted(dests, l.acquisition.value.endpoint) && l.rows <= l.table
    ensures l.Of(l.acquisition.value.endpoint, dests)
  {}
}
