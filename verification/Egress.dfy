/** src/wireless/egress.rs: the ledger of /32 routes and of the pressed metric, over a
    RouteGuard whose every operation may fail. */
module Egress {
  import opened Types
  import opened Routes

  function RouteVia(dest: Ipv4, e: WlanEndpoint): Route { Route(dest, e.gateway, e.ifindex) }

  /** The routes a fully acquired endpoint stands for. */
  function Wanted(dests: seq<Ipv4>, e: WlanEndpoint): set<Route> {
    set d | d in dests :: RouteVia(d, e)
  }

  function Rows(s: seq<Route>): set<Route> { set r | r in s }

  /** Cleaning up, however it fails, loses no saved pair: what could be undone still can. */
  ghost predicate Honest(before: MetricState, after: MetricState) {
    && (after.saved == before.saved || after.saved.None?)
    && forall original :: Restorable(before, original) ==> Restorable(after, original)
  }

  /** The interfaces hold whatever pairs they held before the service. */
  ghost predicate Undone(before: MetricState, after: MetricState) {
    forall original :: Restorable(before, original) ==> after.ifaces == original
  }

  lemma RestoreIsHonestForAll(m: MetricState, luck: Luck)
    ensures Honest(m, Restore(m, luck).0)
    ensures Restore(m, luck).1 ==> Undone(m, Restore(m, luck).0)
    ensures Restore(m, luck).1 <==> Restore(m, luck).0.saved.None?
  {
    forall original | Restorable(m, original)
      ensures Restorable(Restore(m, luck).0, original) && (Restore(m, luck).1 ==> Restore(m, luck).0.ifaces == original)
    {
      RestoreIsHonest(m, luck, original);
    }
  }

  /** `undo` is what was tried between these two states of the metric, and nothing was pressed. */
  ghost predicate Undoes(before: MetricState, after: MetricState, undo: seq<MetricCall>) {
    (forall c | c in undo :: c.Undo?) && after == MetricAfter(before, undo)
  }

  /** The `k`-th attempt of `undo` succeeds. */
  ghost predicate SucceedsAt(m: MetricState, undo: seq<MetricCall>, k: nat)
    requires k < |undo|
  {
    Restore(MetricAfter(m, undo[..k]), undo[k].luck).1
  }

  /** At most two attempts: when one of them succeeds. */
  lemma AttemptsOf(m: MetricState, first: seq<MetricCall>, second: seq<MetricCall>)
    requires |first| <= 1 && |second| <= 1 && forall c | c in first + second :: c.Undo?
    ensures first != [] ==> (SucceedsAt(m, first + second, 0) <==> Restore(m, first[0].luck).1)
    ensures second != [] ==>
              (SucceedsAt(m, first + second, |first|) <==> Restore(MetricAfter(m, first), second[0].luck).1)
    ensures first != [] && Restore(m, first[0].luck).1 ==> MetricAfter(m, first).saved.None?
    ensures (exists k :: 0 <= k < |first + second| && SucceedsAt(m, first + second, k)) <==>
              (first != [] && Restore(m, first[0].luck).1) || (second != [] && Restore(MetricAfter(m, first), second[0].luck).1)
  {
    hide Restore;
    var all := first + second;
    assert all[..0] == [] && all[..|first|] == first;
    if first != [] {
      assert first[..0] == [] && first[0] in first + second;
      RestoreIsHonestForAll(m, first[0].luck);
    }
  }

  /** A release that was pending, and whose first attempt fails although the second puts
      everything right: `Release` then reports a failure over a clean system. */
  lemma LateSuccessIsNotReported()
    ensures var original := map[15 := Metric(25, true)];
            var m := MetricState(Some(Saved(15, Metric(25, true))), None, map[15 := Metric(9000, false)]);
            var undo := [Undo(Luck(false, false, false, false)), Undo(Luck(true, true, true, true))];
            !Restore(m, undo[0].luck).1 && SucceedsAt(m, undo, 1) && MetricAfter(m, undo) == Unpressed(original)
  {
    var m := MetricState(Some(Saved(15, Metric(25, true))), None, map[15 := Metric(9000, false)]);
    var first, second := Undo(Luck(false, false, false, false)), Undo(Luck(true, true, true, true));
    var undo := [first, second];
    assert undo[..1] == [first] && [first][..0] == [];
    assert MetricAfter(m, undo) == MetricStep(MetricAfter(m, [first]), second);
    assert MetricAfter(m, [first]) == m;
  }

  predicate AllTrue(tries: seq<bool>) { forall k | 0 <= k < |tries| :: tries[k] }

  lemma NewRowsAreWanted(dests: seq<Ipv4>, e: WlanEndpoint, before: seq<Route>, after: seq<Route>, tries: seq<bool>)
    requires |tries| <= |dests| && Installed(dests, e, before, after, tries)
    ensures forall r | r in after && r !in before :: r in Wanted(dests, e)
    ensures forall r | r in before :: r in after
    ensures AllTrue(tries) && |tries| == |dests| ==> MadeUp(dests, tries)
    ensures forall r :: r in Rows(after) <==> r in after
  {}

  lemma OneMoreTry(tries: seq<bool>, fine: bool)
    ensures AllTrue(tries + [fine]) <==> AllTrue(tries) && fine
  {
    assert (tries + [fine])[|tries|] == fine;
    assert forall k | 0 <= k < |tries| :: (tries + [fine])[k] == tries[k];
  }

  /** Every destination that failed came up again later and succeeded. */
  ghost predicate MadeUp(dests: seq<Ipv4>, tries: seq<bool>)
    requires |tries| == |dests|
  {
    forall k | 0 <= k < |tries| && !tries[k] :: exists j :: k < j < |tries| && dests[j] == dests[k] && tries[j]
  }

  /** What the first `|tries|` turns of `acquire` make of the ledger. */
  ghost predicate Installed(dests: seq<Ipv4>, e: WlanEndpoint, before: seq<Route>, after: seq<Route>, tries: seq<bool>)
    requires |tries| <= |dests|
  {
    && (forall r | r in before :: r in after)
    && (forall k | 0 <= k < |tries| && tries[k] :: RouteVia(dests[k], e) in after)
    && (forall r | r in after && r !in before :: exists k :: 0 <= k < |tries| && tries[k] && r == RouteVia(dests[k], e))
    && (forall k | 0 <= k < |tries| && !tries[k] ::
          RouteVia(dests[k], e) !in before && forall j | 0 <= j < k && dests[j] == dests[k] :: !tries[j])
  }

  lemma SuppressKeepsReach(m: MetricState, i: nat, target: nat, luck: Luck)
    requires m.saved.Some? ==> m.saved.value.ifindex in m.ifaces
    ensures var after := Suppress(m, i, target, luck);
            (after.saved.Some? ==> after.saved.value.ifindex in after.ifaces) && (target == 0 ==> after == m)
  {}

  lemma RestoreKeepsReach(m: MetricState, luck: Luck)
    requires m.saved.Some? ==> m.saved.value.ifindex in m.ifaces
    ensures var after := Restore(m, luck).0; after.saved.Some? ==> m.saved.Some? && after.saved.value.ifindex in after.ifaces
  {}

  lemma NothingToRestore(m: MetricState)
    ensures m.saved.None? ==> forall luck :: Restore(m, luck).1
  {}

  lemma NothingTried(m: MetricState)
    ensures MetricAfter(m, []) == m && Honest(m, m) && (m.saved.None? ==> Undone(m, m))
  {}

  lemma UndoesChain(a: MetricState, b: MetricState, c: MetricState, first: seq<MetricCall>, second: seq<MetricCall>)
    requires Undoes(a, b, first) && Undoes(b, c, second) && Honest(a, b) && Honest(b, c)
    ensures Undoes(a, c, first + second) && Honest(a, c) && (Undone(b, c) ==> Undone(a, c))
    ensures forall u | u in first + second :: u.Undo?
    ensures b == MetricAfter(a, first) && (first == [] ==> b == a)
  {
    MetricAfterAppend(a, first, second);
  }

  class WirelessEgress {
    const ops: RouteGuard
    var dests: seq<Ipv4>
    var added: seq<Route>
    var appliedEndpoint: Option<WlanEndpoint>
    var routeEndpoint: Option<WlanEndpoint>
    var metricReleasePending: bool
    /** The operating system as the service found it. */
    ghost const base: set<Route>
    ghost const start: map<nat, Metric>
    /** Every destination it ever owned, and the routes found there that it took over: for
        the adapter a row that already exists counts as installed. */
    ghost var owned: set<Ipv4>
    ghost var taken: set<Route>
    /** What has happened to the metric so far: every press and every attempt to undo it. */
    ghost var life: seq<MetricCall>

    /** Ledger exactness. The two ledgers are the same list of distinct installed routes,
        a pending metric release has an endpoint to retry with, a saved metric is always
        within reach of a release, only the service's own destinations were touched, and
        both halves of the operating system are accounted for. */
    ghost predicate Valid()
      reads this, ops, ops.os
    {
      && ops.Valid()
      && ops.added == added
      && (metricReleasePending ==> appliedEndpoint.Some?)
      && (ops.saved.Some? ==> appliedEndpoint.Some? && ops.saved.value.ifindex in ops.os.ifaces)
      && (forall d | d in dests :: d in owned)
      && (forall r | r in added || r in taken :: r.dest in owned)
      && NothingElse()
      && ops.Metrics() == MetricAfter(Unpressed(start), life)
    }

    /** The route table holds what it held, without the rows taken over, and the guard's rows. */
    ghost predicate NothingElse()
      reads this`taken, ops`added, ops.os`routes
    {
      && taken <= base
      && (forall r | r in ops.added && r in base :: r in taken)
      && (forall r :: r in ops.os.routes <==> (r in base && r !in taken) || r in ops.added)
    }

    predicate Keeps(r: Route)
      reads this`dests, this`routeEndpoint
    {
      r.dest in dests && routeEndpoint == Some(WlanEndpoint(r.gateway, r.ifindex))
    }

    /** `has_pending_cleanup` */
    predicate HasPendingCleanup()
      reads this`metricReleasePending, this`added, this`dests, this`routeEndpoint
    {
      metricReleasePending || exists r | r in added :: !Keeps(r)
    }

    /** The ledger holds exactly the routes of `e`. */
    ghost predicate Exactly(e: WlanEndpoint)
      reads this
    {
      Rows(added) == Wanted(dests, e)
    }

    /** Everything the service did to the operating system is undone. */
    ghost predicate Clean()
      reads this, ops
    {
      added == [] && ops.saved.None?
    }

    /** What a clean state gives back: the route table but for the rows taken over, and
        every interface's pair, unless a press abandoned a pressed interface. With the one
        target the service uses, only then. */
    ghost predicate GivenBack()
      reads this, ops, ops.os
    {
      && ops.os.routes == base - taken
      && (ops.os.routes == base <==> taken == {})
      && (!Abandoned(Unpressed(start), life) ==> ops.os.ifaces == start)
      && forall target | OneTarget(life, target) :: (ops.os.ifaces == start <==> !Abandoned(Unpressed(start), life))
    }

    lemma GivenBackIfClean()
      requires Valid()
      ensures Clean() ==> GivenBack()
    {
      if Clean() { CleanGivesBack(); }
    }

    lemma LedgerIsInstalled()
      requires Valid()
      ensures Rows(added) <= ops.os.routes
    {}

    lemma OnlyOwnRows()
      requires Valid()
      ensures forall r | r in base && r.dest !in owned :: r in ops.os.routes
    {}

    /** `GivenBack`, unfolded. */
    lemma CleanGivesBackOpenly()
      requires Valid() && GivenBack()
      ensures ops.os.routes == base - taken
      ensures !Abandoned(Unpressed(start), life) ==> ops.os.ifaces == start
      ensures forall target | OneTarget(life, target) :: (ops.os.ifaces == start <==> !Abandoned(Unpressed(start), life))
    {}

    lemma CleanGivesBack()
      requires Valid() && Clean()
      ensures GivenBack()
    {
      assert forall r :: r in ops.os.routes <==> r in base - taken;
      assert taken != {} ==> exists r :: r in taken && r in base;
      RestoredIffNothingAbandoned(start, life);
    }

    constructor (ops: RouteGuard)
      requires ops.Valid() && ops.added == [] && ops.saved.None? && ops.applied.None?
      ensures Valid() && this.ops == ops && base == ops.os.routes && start == ops.os.ifaces && added == [] && dests == []
      ensures routeEndpoint == None && appliedEndpoint == None && !metricReleasePending
      ensures owned == {} && taken == {} && life == []
    {
      this.ops, base, start := ops, ops.os.routes, ops.os.ifaces;
      dests, added, appliedEndpoint, routeEndpoint, metricReleasePending := [], [], None, None, false;
      owned, taken, life := {}, {}, [];
    }

    /** New destinations. Rows they still want stay, and no row is added. */
    method OwnDestinations(ds: seq<Ipv4>) returns (ghost undo: seq<MetricCall>)
      requires Valid()
      modifies this`dests, this`owned, this`added, this`metricReleasePending, this`life, ops, ops.os
      ensures owned == old(owned) + (set d | d in ds)
      ensures Valid() && dests == ds
      ensures forall r | r in old(added) && Keeps(r) :: r in added
      ensures forall r | r in added :: r in old(added)
      ensures Honest(old(ops.Metrics()), ops.Metrics())
      ensures life == old(life) + undo
      ensures Undoes(old(ops.Metrics()), ops.Metrics(), undo) && |undo| == if old(metricReleasePending) then 1 else 0
      ensures metricReleasePending <==> old(metricReleasePending) && !Restore(old(ops.Metrics()), undo[0].luck).1
      ensures ops.os.works ==> !HasPendingCleanup()
    {
      owned := owned + (set d | d in ds);
      dests := ds;
      var ok;
      ok, undo := RetryCleanup();
    }

    /** Retry what earlier calls could not undo. It succeeds exactly when nothing is left
        pending, and always over a table that works; it never gives up a route that is still
        wanted. */
    method RetryCleanup() returns (ok: bool, ghost undo: seq<MetricCall>)
      requires Valid()
      modifies this`added, this`metricReleasePending, this`life, ops, ops.os
      ensures Valid()
      ensures ok <==> !HasPendingCleanup()
      ensures ops.os.works ==> ok
      ensures forall r | r in old(added) && old(Keeps(r)) :: r in added
      ensures forall r | r in added :: r in old(added)
      ensures Honest(old(ops.Metrics()), ops.Metrics())
      ensures metricReleasePending ==> old(metricReleasePending)
      ensures life == old(life) + undo
      ensures old(Clean()) ==> Clean()
      ensures old(ops.saved).None? ==> ops.saved.None?
      ensures Undoes(old(ops.Metrics()), ops.Metrics(), undo) && |undo| == if old(metricReleasePending) then 1 else 0
      ensures metricReleasePending <==> old(metricReleasePending) && !Restore(old(ops.Metrics()), undo[0].luck).1
    {
      ok := Sweep();
      undo := [];
      if metricReleasePending {
        var released;
        released, undo := ReleaseMetric();
        ok := ok && released;
      }
      assert added != [] ==> added[0] in added;
    }

    /** The `retain` loop: rows that are no longer wanted leave both ledgers when the
        adapter lets them, and over a table that works they all do. */
    method Sweep() returns (ok: bool)
      requires Valid()
      modifies this`added, ops`added, ops.os`routes
      ensures Valid()
      ensures ok <==> forall r | r in added :: Keeps(r)
      ensures ops.os.works ==> ok
      ensures forall r | r in old(added) && Keeps(r) :: r in added
      ensures forall r | r in added :: r in old(added)
    {
      hide NothingElse, RouteGuard.Valid, Keeps, MetricAfter, RouteGuard.Metrics;
      ok := true;
      var rows := added;
      var i := 0;
      var kept: seq<Route> := [];
      while i < |rows|
        invariant 0 <= i <= |rows| && rows == added == old(added)
        invariant ops.Valid() && NothingElse() && ops.added == kept + rows[i..]
        invariant forall r | r in kept :: r in rows
        invariant forall k | 0 <= k < i && Keeps(rows[k]) :: rows[k] in kept
        invariant ok <==> forall r | r in kept :: Keeps(r)
        invariant ops.os.works ==> ok
      {
        var r := rows[i];
        assert rows[i..] == [r] + rows[i + 1..];
        OneMore(kept, r);
        var stays := SweepRow(kept, r, rows[i + 1..]);
        if stays { kept := kept + [r]; }
        ok := ok && (stays ==> Keeps(r));
        i := i + 1;
      }
      assert ops.added == kept;
      added := kept;
    }

    lemma OneMore(kept: seq<Route>, r: Route)
      ensures forall x :: x in kept + [r] <==> x in kept || x == r
    {}

    /** Decide about one row: a wanted one stays, an unwanted one goes if the adapter lets it. */
    method SweepRow(ghost kept: seq<Route>, r: Route, ghost rest: seq<Route>) returns (stays: bool)
      requires ops.Valid() && NothingElse() && ops.added == kept + ([r] + rest) && r.dest in owned
      modifies ops`added, ops.os`routes
      ensures ops.Valid() && NothingElse()
      ensures ops.added == (if stays then kept + [r] else kept) + rest
      ensures Keeps(r) ==> stays
      ensures ops.os.works && stays ==> Keeps(r)
    {
      assert kept + ([r] + rest) == kept + [r] + rest;
      if Keeps(r) { return true; }
      Apart(kept, r, rest);
      WithoutHead(kept, r, rest);
      var gone := ops.DeleteRoute(r);
      stays := !gone;
    }

    lemma Apart(a: seq<Route>, r: Route, b: seq<Route>)
      requires forall i, j | 0 <= i < j < |a + [r] + b| :: (a + [r] + b)[i] != (a + [r] + b)[j]
      ensures r !in a && r !in b
    {
      var s := a + [r] + b;
      assert s[|a|] == r;
      assert forall i | 0 <= i < |a| :: s[i] == a[i];
      assert forall i | 0 <= i < |b| :: s[|a| + 1 + i] == b[i];
    }

    /** Take an endpoint; `tries` says of each destination, in order, whether it is installed
        after its turn. Success means nothing is pending and every try succeeded, and then the
        ledger holds exactly the wanted routes. It may hold them after a failure too, namely if
        each destination that failed came up again and succeeded then. */
    method Acquire(e: WlanEndpoint) returns (ok: bool, ghost tries: seq<bool>, ghost undo: seq<MetricCall>)
      requires Valid()
      modifies this`added, this`metricReleasePending, this`routeEndpoint, this`appliedEndpoint, this`taken, this`life, ops, ops.os
      ensures Valid() && routeEndpoint == appliedEndpoint == Some(e)
      ensures |tries| == |dests| && (ok <==> !HasPendingCleanup() && AllTrue(tries))
      ensures ok ==> Exactly(e)
      ensures !HasPendingCleanup() ==> (Exactly(e) <==> MadeUp(dests, tries))
      ensures ops.os.works ==> ok
      ensures old(ops.saved).None? ==> ops.saved.None?
      ensures metricReleasePending ==> old(metricReleasePending)
      ensures forall r | r in added :: r in old(added) || r in Wanted(dests, e)
      ensures taken == old(taken) + Rows(added) * base && taken <= old(taken) + Wanted(dests, e) * base
      ensures Honest(old(ops.Metrics()), ops.Metrics())
      ensures life == old(life) + undo && Undoes(old(ops.Metrics()), ops.Metrics(), undo)
    {
      hide Honest, Undoes, Restore, RouteGuard.Valid, NothingElse, MetricAfter, RouteGuard.Metrics, Keeps, Installed, MadeUp, AllTrue;
      routeEndpoint := Some(e);
      ok, undo := RetryCleanup();
      ghost var before := added;
      TakenRows();
      var all;
      all, tries := InstallAll(e);
      appliedEndpoint := Some(e);
      ok := ok && all;
      NewRowsAreWanted(dests, e, before, added, tries);
      if !HasPendingCleanup() { WhenExact(e, before, tries); }
    }

    lemma WhenExact(e: WlanEndpoint, before: seq<Route>, tries: seq<bool>)
      requires |tries| == |dests| && Installed(dests, e, before, added, tries)
      requires routeEndpoint == Some(e) && !HasPendingCleanup()
      ensures Exactly(e) <==> MadeUp(dests, tries)
    {
      assert forall r :: r in Rows(added) <==> r in added;
      assert forall r | r in added :: Keeps(r) && r == RouteVia(r.dest, e) && r in Wanted(dests, e);
      if Exactly(e) {
        forall k | 0 <= k < |tries| && !tries[k] ensures exists j :: k < j < |tries| && dests[j] == dests[k] && tries[j] {
          var r := RouteVia(dests[k], e);
          assert r in Wanted(dests, e) && r in added && r !in before;
          var j :| 0 <= j < |tries| && tries[j] && r == RouteVia(dests[j], e);
          assert k < j;
        }
      }
      if MadeUp(dests, tries) {
        forall r | r in Wanted(dests, e) ensures r in added {
          var k :| 0 <= k < |dests| && r == RouteVia(dests[k], e);
          if !tries[k] {
            var j :| k < j < |tries| && dests[j] == dests[k] && tries[j];
            assert RouteVia(dests[j], e) == r;
          }
        }
      }
    }

    lemma TakenRows()
      requires Valid()
      ensures forall r | r in added && r in base :: r in taken
    {}

    /** The loop of `acquire` over the destinations. */
    method InstallAll(e: WlanEndpoint) returns (ok: bool, ghost tries: seq<bool>)
      requires Valid() && routeEndpoint == Some(e)
      modifies this`added, this`taken, ops`added, ops.os`routes
      ensures Valid() && (HasPendingCleanup() <==> old(HasPendingCleanup()))
      ensures |tries| == |dests| && (ok <==> AllTrue(tries))
      ensures Installed(dests, e, old(added), added, tries)
      ensures ops.os.works ==> ok
      ensures taken == old(taken) + (set r | r in added && r !in old(added) && r in base)
    {
      hide RouteGuard.Valid, NothingElse, MetricAfter, RouteGuard.Metrics, Keeps;
      ok, tries := true, [];
      for i := 0 to |dests|
        invariant Valid() && (HasPendingCleanup() <==> old(HasPendingCleanup()))
        invariant |tries| == i && (ok <==> AllTrue(tries))
        invariant Installed(dests, e, old(added), added, tries)
        invariant ops.os.works ==> ok
        invariant taken == old(taken) + (set r | r in added && r !in old(added) && r in base)
      {
        var fine := Install(dests[i], e);
        ok := ok && fine;
        OneMoreTry(tries, fine);
        tries := tries + [fine];
      }
    }

    /** One destination of `acquire`. */
    method Install(dest: Ipv4, e: WlanEndpoint) returns (ok: bool)
      requires Valid() && routeEndpoint == Some(e) && dest in dests
      modifies this`added, this`taken, ops`added, ops.os`routes
      ensures Valid() && (HasPendingCleanup() <==> old(HasPendingCleanup()))
      ensures forall r :: r in added <==> r in old(added) || (ok && r == RouteVia(dest, e))
      ensures !ok ==> RouteVia(dest, e) !in old(added)
      ensures ops.os.works ==> ok
      ensures taken == old(taken) + (set r | r in added && r !in old(added) && r in base)
    {
      hide MetricAfter, RouteGuard.Metrics;
      var want := RouteVia(dest, e);
      if want in added { return true; }
      ok := ops.AddRoute(want);
      if ok {
        added := added + [want];
        if want in base { taken := taken + {want}; }
        assert Keeps(want);
        assert forall r | r in old(added) :: r in added;
      }
    }

    /** Press the metric. It withdraws a pending release and remembers where to retry; a
        target of zero means hands off. */
    method SuppressMetric(e: WlanEndpoint, target: nat) returns (ghost luck: Luck)
      requires Valid()
      modifies this`metricReleasePending, this`appliedEndpoint, this`life, ops`saved, ops`applied, ops.os`ifaces
      ensures Valid()
      ensures target != 0 ==> !metricReleasePending && appliedEndpoint == Some(e)
      ensures target == 0 ==> metricReleasePending == old(metricReleasePending) && appliedEndpoint == old(appliedEndpoint)
      ensures ops.Metrics() == Suppress(old(ops.Metrics()), e.ifindex, target, luck)
      ensures life == old(life) + [Press(e.ifindex, target, luck)]
      ensures ops.os.works && target != 0 && e.ifindex in old(ops.os.ifaces) ==> ops.applied == Some(e.ifindex)
    {
      hide MetricAfter, NothingElse, RouteGuard.Valid, Suppress;
      luck := Luck(false, false, false, false);
      ghost var before := ops.Metrics();
      if target != 0 {
        metricReleasePending := false;
        luck := ops.SetStandbyMetric(e.ifindex, target);
        appliedEndpoint := Some(e);
      }
      SuppressKeepsReach(before, e.ifindex, target, luck);
      OneStep(Unpressed(start), life, Press(e.ifindex, target, luck));
      life := life + [Press(e.ifindex, target, luck)];
    }

    lemma OneStep(m: MetricState, run: seq<MetricCall>, c: MetricCall)
      ensures MetricAfter(m, run + [c]) == MetricStep(MetricAfter(m, run), c)
    {
      assert (run + [c])[..|run|] == run;
    }

    method ReleaseMetric() returns (ok: bool, ghost undo: seq<MetricCall>)
      requires Valid()
      modifies this`metricReleasePending, this`life, ops`saved, ops`applied, ops.os`ifaces
      ensures Valid()
      ensures ok <==> !metricReleasePending
      ensures ok <==> ops.saved.None?
      ensures ops.os.works ==> ok
      ensures ok ==> Undone(old(ops.Metrics()), ops.Metrics())
      ensures Honest(old(ops.Metrics()), ops.Metrics())
      ensures life == old(life) + undo
      ensures Undoes(old(ops.Metrics()), ops.Metrics(), undo) && |undo| == if appliedEndpoint.Some? then 1 else 0
      ensures appliedEndpoint.Some? ==> ok == Restore(old(ops.Metrics()), undo[0].luck).1
      ensures old(ops.saved).None? ==> ops.saved.None?
    {
      hide MetricAfter, NothingElse, RouteGuard.Valid, Restore, Honest, Undone;
      undo := [];
      NothingTried(ops.Metrics());
      if appliedEndpoint.None? { return true, undo; }
      metricReleasePending := true;
      ghost var before := ops.Metrics();
      ghost var luck;
      ok, luck := ops.RestoreMetric();
      RestoreIsHonestForAll(before, luck);
      RestoreKeepsReach(before, luck);
      NothingToRestore(before);
      undo := [Undo(luck)];
      NothingTried(before);
      OneStep(before, [], Undo(luck));
      assert [] + undo == undo;
      OneStep(Unpressed(start), life, Undo(luck));
      life := life + undo;
      if ok { metricReleasePending := false; }
    }

    /** Let go of everything. Success means nothing of the service is left, and what that
        gives back is said by `GivenBack`. It is reported exactly when no row is left and the
        first attempt at the metric succeeded; a release that was already pending gets a
        second attempt, whose success is not reported. Over a table that works it succeeds. */
    method Release() returns (ok: bool, ghost undo: seq<MetricCall>)
      requires Valid()
      modifies this`added, this`metricReleasePending, this`routeEndpoint, this`appliedEndpoint, this`life, ops, ops.os
      ensures Valid() && routeEndpoint == None
      ensures ok ==> Clean() && appliedEndpoint == None && !HasPendingCleanup()
      ensures Clean() ==> GivenBack()
      ensures ops.os.works ==> ok
      ensures old(Clean()) ==> Clean()
      ensures old(ops.saved).None? ==> ops.saved.None?
      ensures ok ==> Undone(old(ops.Metrics()), ops.Metrics())
      ensures Clean() && !old(metricReleasePending) ==> ok
      ensures Honest(old(ops.Metrics()), ops.Metrics())
      ensures life == old(life) + undo && Undoes(old(ops.Metrics()), ops.Metrics(), undo)
      ensures |undo| == if old(metricReleasePending) then 2 else if old(appliedEndpoint).Some? then 1 else 0
      ensures ok <==> added == [] && (undo == [] || Restore(old(ops.Metrics()), undo[0].luck).1)
      ensures Clean() <==> added == [] && (undo == [] || exists k :: 0 <= k < |undo| && SucceedsAt(old(ops.Metrics()), undo, k))
    {
      hide GivenBack, NothingElse, RouteGuard.Valid, MetricAfter, Restore, Honest, Undone, Undoes, SucceedsAt, RouteGuard.Metrics;
      routeEndpoint := None;
      ghost var before := ops.Metrics();
      ghost var first, second;
      var routes, metric;
      routes, first := RetryCleanup();
      ghost var between := ops.Metrics();
      metric, second := ReleaseMetric();
      undo := first + second;
      UndoesChain(before, between, ops.Metrics(), first, second);
      AttemptsOf(before, first, second);
      NothingToRestore(between);
      assert added != [] ==> added[0] in added && !Keeps(added[0]);
      if metric { appliedEndpoint := None; }
      ok := routes && metric;
      if Clean() { CleanGivesBack(); }
    }
  }

  // ---------------------------------------------------------------------------
  // Whole lives
  // ---------------------------------------------------------------------------

  datatype Call =
    | Owns(ds: seq<Ipv4>)
    | Acquires(e: WlanEndpoint)
    | Presses(at: WlanEndpoint, target: nat)
    | LetsMetricGo
    | Retries
    | Releases

  /** The presses a sequence of calls makes: interface and target, in order. */
  function PressedBy(calls: seq<Call>): seq<(nat, nat)> {
    if calls == [] then []
    else
      var c := calls[|calls| - 1];
      PressedBy(calls[..|calls| - 1]) + if c.Presses? then [(c.at.ifindex, c.target)] else []
  }

  /** Every press has this one target. */
  predicate PressesWith(calls: seq<Call>, target: nat) {
    forall c | c in calls && c.Presses? :: c.target == target
  }

  function PressesOf(run: seq<MetricCall>): seq<(nat, nat)> {
    if run == [] then []
    else
      var c := run[|run| - 1];
      PressesOf(run[..|run| - 1]) + if c.Press? then [(c.ifindex, c.target)] else []
  }

  lemma {:induction false} UndoingPressesNothing(run: seq<MetricCall>, undo: seq<MetricCall>)
    requires forall c | c in undo :: c.Undo?
    ensures PressesOf(run + undo) == PressesOf(run)
    ensures forall m :: Abandoned(m, run + undo) <==> Abandoned(m, run)
  {
    if undo == [] {
      assert run + undo == run;
    } else {
      assert (run + undo)[..|run + undo| - 1] == run + undo[..|undo| - 1];
      assert undo[|undo| - 1] in undo;
      UndoingPressesNothing(run, undo[..|undo| - 1]);
    }
  }

  lemma {:induction false} OneTargetByPresses(run: seq<MetricCall>, target: nat)
    requires forall p | p in PressesOf(run) :: p.1 == target
    ensures OneTarget(run, target)
  {
    if run != [] {
      var before, c := run[..|run| - 1], run[|run| - 1];
      assert forall p | p in PressesOf(before) :: p in PressesOf(run);
      OneTargetByPresses(before, target);
      assert run == before + [c];
      if c.Press? { assert (c.ifindex, c.target) in PressesOf(run); }
    }
  }

  function DestsAfter(calls: seq<Call>): seq<Ipv4> {
    if calls == [] then []
    else
      var c := calls[|calls| - 1];
      if c.Owns? then c.ds else DestsAfter(calls[..|calls| - 1])
  }

  /** The rows of `base` that the calls ask for. */
  function AskedFor(base: set<Route>, calls: seq<Call>): set<Route> {
    if calls == [] then {}
    else
      var before, c := calls[..|calls| - 1], calls[|calls| - 1];
      AskedFor(base, before) + if c.Acquires? then Wanted(DestsAfter(before), c.e) * base else {}
  }

  /** Any calls in any order, any system call failing at any time, then one release. Whatever
      became of them, the state is one `Release` speaks about: after a success, which a table
      that works grants, the route table is the one found but for the rows taken over (all the
      rows found there that were asked for, if the table works), and every interface is as it
      was found unless a press abandoned a pressed one. */
  method AnyLife(routes: set<Route>, ifaces: map<nat, Metric>, works: bool, calls: seq<Call>)
    returns (egress: WirelessEgress, ok: bool)
    ensures fresh(egress) && fresh(egress.ops) && fresh(egress.ops.os)
    ensures egress.Valid() && egress.base == routes && egress.start == ifaces && egress.ops.os.works == works
    ensures egress.owned == OwnedBy(calls) && egress.dests == DestsAfter(calls)
    ensures PressesOf(egress.life) == PressedBy(calls)
    ensures egress.taken <= AskedFor(routes, calls) && (works ==> egress.taken == AskedFor(routes, calls))
    ensures works ==> ok
    ensures ok ==> egress.Clean() && egress.GivenBack()
    ensures ok ==> egress.ops.os.routes == routes - egress.taken
    ensures ok && !Abandoned(Unpressed(ifaces), egress.life) ==> egress.ops.os.ifaces == ifaces
    ensures forall target | PressesWith(calls, target) ::
              ok ==> (egress.ops.os.ifaces == ifaces <==> !Abandoned(Unpressed(ifaces), egress.life))
    ensures forall r | r in routes && r.dest !in egress.owned :: r in egress.ops.os.routes
  {
    hide WirelessEgress.Valid, WirelessEgress.GivenBack, MetricStep, MetricAfter, Honest, Undone, Restore;
    var os := new OsTable(routes, ifaces, works);
    var guard := new RouteGuard(os);
    egress := new WirelessEgress(guard);
    for i := 0 to |calls|
      invariant egress.Valid() && egress.ops == guard && guard.os == os && egress.base == routes && egress.start == ifaces
      invariant fresh(egress) && fresh(guard) && fresh(os)
      invariant PressesOf(egress.life) == PressedBy(calls[..i])
      invariant egress.owned == OwnedBy(calls[..i]) && egress.dests == DestsAfter(calls[..i])
      invariant egress.taken <= AskedFor(routes, calls[..i])
      invariant works ==> egress.taken == AskedFor(routes, calls[..i])
    {
      assert calls[..i + 1][..i] == calls[..i];
      assert calls[..i + 1] == calls[..i] + [calls[i]];
      OwnedByAppend(calls[..i], calls[i]);
      ghost var before := egress.life;
      ghost var more := OneCall(egress, calls[i]);
      if calls[i].Presses? { OnePress(before, more[0]); } else { UndoingPressesNothing(before, more); }
    }
    assert calls[..|calls|] == calls;
    ghost var before := egress.life;
    ghost var last;
    ok, last := egress.Release();
    UndoingPressesNothing(before, last);
    forall target | PressesWith(calls, target) ensures OneTarget(egress.life, target) {
      PressTargets(calls, target);
      OneTargetByPresses(egress.life, target);
    }
    egress.OnlyOwnRows();
    if ok { egress.CleanGivesBackOpenly(); }
  }

  /** One call of a life. */
  method OneCall(egress: WirelessEgress, c: Call) returns (ghost more: seq<MetricCall>)
    requires egress.Valid()
    modifies egress, egress.ops, egress.ops.os
    ensures egress.Valid() && egress.life == old(egress.life) + more
    ensures if c.Presses? then |more| == 1 && more[0].Press? && more[0].ifindex == c.at.ifindex && more[0].target == c.target
            else forall m | m in more :: m.Undo?
    ensures egress.owned == old(egress.owned) + if c.Owns? then set d | d in c.ds else {}
    ensures egress.dests == if c.Owns? then c.ds else old(egress.dests)
    ensures !c.Acquires? ==> egress.taken == old(egress.taken)
    ensures c.Acquires? ==> old(egress.taken) <= egress.taken <= old(egress.taken) + Wanted(egress.dests, c.e) * egress.base
    ensures c.Acquires? && egress.ops.os.works ==> egress.taken == old(egress.taken) + Wanted(egress.dests, c.e) * egress.base
  {
    hide WirelessEgress.Valid, MetricAfter, Honest, Undone, Restore, Suppress, WirelessEgress.GivenBack;
    match c {
      case Owns(ds) => more := egress.OwnDestinations(ds);
      case Acquires(e) =>
        var done;
        ghost var tries;
        done, tries, more := egress.Acquire(e);
      case Presses(at, target) =>
        ghost var luck := egress.SuppressMetric(at, target);
        more := [Press(at.ifindex, target, luck)];
      case LetsMetricGo =>
        var done;
        done, more := egress.ReleaseMetric();
      case Retries =>
        var done;
        done, more := egress.RetryCleanup();
      case Releases =>
        var done;
        done, more := egress.Release();
    }
  }

  /** A route to one of the service's destinations that was there before, through the very
      gateway and interface of the WLAN, does not survive a life in which every call succeeds. */
  method TakesOverAndRemoves() returns (ok: bool, routesAfter: set<Route>)
    ensures ok && routesAfter == {}
  {
    var found, e := Route(7, 1, 15), WlanEndpoint(1, 15);
    var calls := [Owns([7]), Acquires(e)];
    var egress;
    egress, ok := AnyLife({found}, map[], true, calls);
    assert calls[..1] == [Owns([7])] && calls[..1][..0] == [];
    assert AskedFor({found}, calls[..1]) == {} && DestsAfter(calls[..1]) == [7];
    assert found == RouteVia(7, e) && found in Wanted([7], e);
    assert found in AskedFor({found}, calls);
    routesAfter := egress.ops.os.routes;
  }

  /** With one address for two destinations, an acquisition whose first attempt fails and whose
      second succeeds is refused although it got every route. */
  method OneAddressTwice() returns (ok: bool, rows: seq<Route>, ghost tries: seq<bool>)
    ensures |tries| == 2
    ensures tries == [false, true] ==> !ok && Rows(rows) == Wanted([7, 7], WlanEndpoint(1, 15)) == {Route(7, 1, 15)}
  {
    var os := new OsTable({}, map[], false);
    var guard := new RouteGuard(os);
    var egress := new WirelessEgress(guard);
    ghost var undo := egress.OwnDestinations([7, 7]);
    ghost var more;
    ok, tries, more := egress.Acquire(WlanEndpoint(1, 15));
    rows := egress.added;
    var e := WlanEndpoint(1, 15);
    assert RouteVia(7, e) == Route(7, 1, 15) && 7 in [7, 7];
    assert Wanted([7, 7], e) == {Route(7, 1, 15)};
    assert forall r | r in egress.added :: egress.Keeps(r);
    if tries == [false, true] {
      assert !tries[0];
      assert MadeUp([7, 7], tries) by { assert [7, 7][1] == [7, 7][0] && tries[1]; }
    }
  }

  lemma OnePress(life: seq<MetricCall>, c: MetricCall)
    requires c.Press?
    ensures PressesOf(life + [c]) == PressesOf(life) + [(c.ifindex, c.target)]
  {
    assert (life + [c])[..|life|] == life;
  }

  lemma {:induction false} PressTargets(calls: seq<Call>, target: nat)
    requires PressesWith(calls, target)
    ensures forall p | p in PressedBy(calls) :: p.1 == target
  {
    if calls != [] {
      PressTargets(calls[..|calls| - 1], target);
    }
  }

  function OwnedBy(calls: seq<Call>): set<Ipv4> {
    if calls == [] then {}
    else (if calls[0].Owns? then set d | d in calls[0].ds else {}) + OwnedBy(calls[1..])
  }

  lemma {:induction false} OwnedByAppend(calls: seq<Call>, c: Call)
    ensures OwnedBy(calls + [c]) == OwnedBy(calls) + if c.Owns? then set d | d in c.ds else {}
  {
    if calls != [] {
      assert (calls + [c])[1..] == calls[1..] + [c];
      OwnedByAppend(calls[1..], c);
    } else {
      assert calls + [c] == [c];
    }
  }
}
