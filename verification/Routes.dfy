/** src/wireless/routes.rs: the route guard over the operating system's route table and
    interface metrics. Every system call may fail at any time and then changes nothing. */
module Routes {
  import opened Types

  /** A /32 host route. */
  datatype Route = Route(dest: Ipv4, gateway: Ipv4, ifindex: nat)

  /** The two columns of an interface row the service writes. */
  datatype Metric = Metric(value: nat, automatic: bool)

  /** A table that `works` lets every call through; any other may refuse any call. */
  class OsTable {
    const works: bool
    var routes: set<Route>
    var ifaces: map<nat, Metric>

    constructor (routes: set<Route>, ifaces: map<nat, Metric>, works: bool)
      ensures this.routes == routes && this.ifaces == ifaces && this.works == works
    {
      this.routes, this.ifaces, this.works := routes, ifaces, works;
    }

    /** CreateIpForwardEntry2: an existing row counts as success. */
    method Create(r: Route) returns (ok: bool)
      modifies this`routes
      ensures routes == if ok then old(routes) + {r} else old(routes)
      ensures works ==> ok
    {
      ok :| works ==> ok;
      if ok { routes := routes + {r}; }
    }

    /** DeleteIpForwardEntry2: a missing row counts as success. */
    method Delete(r: Route) returns (ok: bool)
      modifies this`routes
      ensures routes == if ok then old(routes) - {r} else old(routes)
      ensures works ==> ok
    {
      ok :| works ==> ok;
      if ok { routes := routes - {r}; }
    }

    /** GetIpInterfaceEntry */
    method Get(i: nat) returns (m: Option<Metric>)
      ensures m.Some? ==> i in ifaces && m.value == ifaces[i]
      ensures works && i in ifaces ==> m.Some?
    {
      var ok: bool :| works ==> ok;
      m := if ok && i in ifaces then Some(ifaces[i]) else None;
    }

    /** SetIpInterfaceEntry */
    method Set(i: nat, m: Metric) returns (ok: bool)
      modifies this`ifaces
      ensures ok ==> i in old(ifaces)
      ensures ifaces == if ok then old(ifaces)[i := m] else old(ifaces)
      ensures works && i in old(ifaces) ==> ok
    {
      ok :| works ==> ok;
      ok := ok && i in ifaces;
      if ok { ifaces := ifaces[i := m]; }
    }
  }

  // ---------------------------------------------------------------------------
  // The metric half of the guard, on values
  // ---------------------------------------------------------------------------

  datatype Saved = Saved(ifindex: nat, original: Metric)

  /** What the guard remembers, and what the interfaces really hold. */
  datatype MetricState = MetricState(saved: Option<Saved>, applied: Option<nat>, ifaces: map<nat, Metric>)

  /** Which of the system calls succeed, in the order they are made. */
  datatype Luck = Luck(first: bool, second: bool, third: bool, fourth: bool)

  /** `set_metric`: read the row, write the value with automatic off. */
  predicate Writable(m: MetricState, i: nat, read: bool, write: bool) { read && write && i in m.ifaces }

  /** `set_standby_metric` */
  function Suppress(m: MetricState, i: nat, target: nat, luck: Luck): MetricState {
    if target == 0 || m.applied == Some(i) then m
    else if m.saved.Some? && m.saved.value.ifindex == i then Press(m, i, target, luck)
    else if luck.first && i in m.ifaces then Press(m.(saved := Some(Saved(i, m.ifaces[i]))), i, target, luck)
    else m
  }

  function Press(m: MetricState, i: nat, target: nat, luck: Luck): MetricState {
    if Writable(m, i, luck.second, luck.third)
    then m.(ifaces := m.ifaces[i := Metric(target, false)], applied := Some(i)) else m
  }

  /** `restore_metric`, and whether it reports success. */
  function Restore(m: MetricState, luck: Luck): (MetricState, bool) {
    if m.saved.None? then (m.(applied := None), true)
    else
      var Saved(i, original) := m.saved.value;
      var m1 := m.(applied := None);
      if !Writable(m, i, luck.first, luck.second) then (m1, false)
      else
        var m2 := m1.(ifaces := m.ifaces[i := Metric(original.value, false)]);
        if !original.automatic then (m2.(saved := None), true)
        else if !(luck.third && luck.fourth) then (m2, false)
        else (m2.(ifaces := m.ifaces[i := Metric(original.value, true)], saved := None), true)
  }

  /** Everything the service changed can still be undone: each interface holds its original
      pair, or is the one whose original pair is saved. */
  ghost predicate Restorable(m: MetricState, original: map<nat, Metric>) {
    && m.ifaces.Keys == original.Keys
    && (m.saved.Some? ==> m.saved.value.ifindex in original && m.saved.value.original == original[m.saved.value.ifindex])
    && forall k | k in original :: m.ifaces[k] == original[k] || (m.saved.Some? && m.saved.value.ifindex == k)
  }

  /** A restore keeps the promise however it fails, and keeps it for good when it succeeds. */
  lemma RestoreIsHonest(m: MetricState, luck: Luck, original: map<nat, Metric>)
    requires Restorable(m, original)
    ensures Restorable(Restore(m, luck).0, original)
    ensures Restore(m, luck).1 ==> Restore(m, luck).0.ifaces == original
    ensures Restore(m, luck).1 <==> Restore(m, luck).0.saved.None?
  {}

  /** The guard drops the pair of one interface, still pressed, to take on another. */
  predicate Abandons(m: MetricState, i: nat, target: nat, luck: Luck) {
    && target != 0 && m.applied != Some(i) && luck.first && i in m.ifaces
    && m.saved.Some? && m.saved.value.ifindex != i && m.saved.value.ifindex in m.ifaces
    && m.ifaces[m.saved.value.ifindex] != m.saved.value.original
  }

  /** Exactly then is the promise lost. */
  lemma SuppressIsHonest(m: MetricState, i: nat, target: nat, luck: Luck, original: map<nat, Metric>)
    requires Restorable(m, original)
    ensures Restorable(Suppress(m, i, target, luck), original) <==> !Abandons(m, i, target, luck)
  {}

  // --- whole lives of the metric ------------------------------------------------

  datatype MetricCall = Press(ifindex: nat, target: nat, luck: Luck) | Undo(luck: Luck)

  function MetricStep(m: MetricState, c: MetricCall): MetricState {
    match c
    case Press(i, target, luck) => Suppress(m, i, target, luck)
    case Undo(luck) => Restore(m, luck).0
  }

  function MetricAfter(m: MetricState, run: seq<MetricCall>): MetricState {
    if run == [] then m else MetricStep(MetricAfter(m, run[..|run| - 1]), run[|run| - 1])
  }

  /** A guard that has done nothing yet. */
  function Unpressed(ifaces: map<nat, Metric>): MetricState { MetricState(None, None, ifaces) }

  /** Some press of the run abandoned an interface that was still pressed. */
  predicate Abandoned(m: MetricState, run: seq<MetricCall>) {
    run != [] &&
    var before, c := run[..|run| - 1], run[|run| - 1];
    Abandoned(m, before) || (c.Press? && Abandons(MetricAfter(m, before), c.ifindex, c.target, c.luck))
  }

  predicate OneTarget(run: seq<MetricCall>, target: nat) {
    forall c | c in run && c.Press? :: c.target == target
  }

  /** The saved interface, if any, holds its original pair, the target, or the half-restored
      pair; nothing else was touched. */
  ghost predicate Tracked(m: MetricState, original: map<nat, Metric>, target: nat) {
    && Restorable(m, original)
    && (m.saved.Some? ==>
          var k := m.saved.value.ifindex;
          m.ifaces[k] in {original[k], Metric(target, false), Metric(original[k].value, false)})
  }

  /** Interface `k` holds a wrong pair, and nothing the guard remembers can put it right. */
  ghost predicate LostAt(m: MetricState, original: map<nat, Metric>, target: nat, k: nat) {
    && m.ifaces.Keys == original.Keys && k in original
    && m.ifaces[k] != original[k] && !m.ifaces[k].automatic && original[k] != Metric(target, false)
    && (m.saved.Some? && m.saved.value.ifindex == k ==>
          m.saved.value.original != original[k] && !m.saved.value.original.automatic)
  }

  ghost predicate Lost(m: MetricState, original: map<nat, Metric>, target: nat) {
    exists k :: LostAt(m, original, target, k)
  }

  lemma LostStaysLost(m: MetricState, c: MetricCall, original: map<nat, Metric>, target: nat, k: nat)
    requires LostAt(m, original, target, k) && (c.Press? ==> c.target == target)
    ensures LostAt(MetricStep(m, c), original, target, k)
  {}

  lemma TrackedStep(m: MetricState, c: MetricCall, original: map<nat, Metric>, target: nat)
    requires Tracked(m, original, target) && (c.Press? ==> c.target == target)
    ensures if c.Press? && Abandons(m, c.ifindex, c.target, c.luck)
            then LostAt(MetricStep(m, c), original, target, m.saved.value.ifindex)
            else Tracked(MetricStep(m, c), original, target)
  {}

  /** Whatever the targets: a run that abandons nothing can always still be undone. */
  lemma {:induction false} NothingAbandonedNothingLost(original: map<nat, Metric>, run: seq<MetricCall>)
    requires !Abandoned(Unpressed(original), run)
    ensures Restorable(MetricAfter(Unpressed(original), run), original)
  {
    if run != [] {
      var before, c := run[..|run| - 1], run[|run| - 1];
      NothingAbandonedNothingLost(original, before);
      match c {
        case Press(i, target, luck) => SuppressIsHonest(MetricAfter(Unpressed(original), before), i, target, luck, original);
        case Undo(luck) => RestoreIsHonest(MetricAfter(Unpressed(original), before), luck, original);
      }
    }
  }

  lemma {:induction false} TrackedOrLost(original: map<nat, Metric>, run: seq<MetricCall>, target: nat)
    requires OneTarget(run, target)
    ensures var m := MetricAfter(Unpressed(original), run);
            if Abandoned(Unpressed(original), run) then Lost(m, original, target) else Tracked(m, original, target)
  {
    hide MetricStep, Tracked, LostAt, Abandons;
    if run == [] {
      NothingTouched(original, target);
    } else {
      var before, c := run[..|run| - 1], run[|run| - 1];
      TrackedOrLost(original, before, target);
      var m := MetricAfter(Unpressed(original), before);
      if Abandoned(Unpressed(original), before) {
        var k :| LostAt(m, original, target, k);
        LostStaysLost(m, c, original, target, k);
      } else {
        TrackedStep(m, c, original, target);
      }
    }
  }

  lemma NothingTouched(original: map<nat, Metric>, target: nat)
    ensures Tracked(Unpressed(original), original, target)
  {}

  /** When the guard has nothing left to restore, every interface holds its original pair,
      provided no press of the run abandoned a pressed interface. With the one target the
      service uses, only then: what an abandoning press loses is never regained. */
  lemma RestoredIffNothingAbandoned(original: map<nat, Metric>, run: seq<MetricCall>)
    ensures var m := MetricAfter(Unpressed(original), run);
            m.saved.None? ==>
              && (!Abandoned(Unpressed(original), run) ==> m.ifaces == original)
              && ((exists target :: OneTarget(run, target)) ==>
                    (m.ifaces == original <==> !Abandoned(Unpressed(original), run)))
  {
    if !Abandoned(Unpressed(original), run) {
      NothingAbandonedNothingLost(original, run);
    }
    if target :| OneTarget(run, target) {
      TrackedOrLost(original, run, target);
    }
  }

  /** With several targets an abandoned interface may be pressed back to its own value by
      chance: interface 15 is abandoned by the second press, and yet everything ends original. */
  lemma SeveralTargetsMayRegain()
    ensures var all := Luck(true, true, true, true);
            var original := map[15 := Metric(25, false), 16 := Metric(30, false), 17 := Metric(35, false)];
            var a := Suppress(Unpressed(original), 15, 9000, all);
            var b := Suppress(a, 16, 9000, all);
            var c := Suppress(Suppress(b, 15, 25, all), 16, 30, all);
            Abandons(a, 16, 9000, all) && Restore(Suppress(c, 17, 9000, all), all) == (Unpressed(original), true)
  {
    var all := Luck(true, true, true, true);
    var original := map[15 := Metric(25, false), 16 := Metric(30, false), 17 := Metric(35, false)];
    var a := Suppress(Unpressed(original), 15, 9000, all);
    assert a == MetricState(Some(Saved(15, Metric(25, false))), Some(15), original[15 := Metric(9000, false)]);
    var b := Suppress(a, 16, 9000, all);
    assert b == MetricState(Some(Saved(16, Metric(30, false))), Some(16), a.ifaces[16 := Metric(9000, false)]);
    var c1 := Suppress(b, 15, 25, all);
    assert c1 == MetricState(Some(Saved(15, Metric(9000, false))), Some(15), b.ifaces[15 := Metric(25, false)]);
    var c := Suppress(c1, 16, 30, all);
    assert c == MetricState(Some(Saved(16, Metric(9000, false))), Some(16), c1.ifaces[16 := Metric(30, false)]);
    assert c.ifaces == original;
    var d := Suppress(c, 17, 9000, all);
    assert d == MetricState(Some(Saved(17, Metric(35, false))), Some(17), original[17 := Metric(9000, false)]);
    assert d.ifaces[17 := Metric(35, false)] == original;
  }

  /** What the guard thinks is pressed is pressed, and what it saved is an interface. */
  predicate AppliedIsTrue(m: MetricState, target: nat) {
    && (m.applied.Some? ==> m.applied.value in m.ifaces && m.ifaces[m.applied.value] == Metric(target, false))
    && (m.saved.Some? ==> m.saved.value.ifindex in m.ifaces)
  }

  lemma AppliedStep(m: MetricState, c: MetricCall, target: nat)
    requires AppliedIsTrue(m, target) && (c.Press? ==> c.target == target)
    ensures AppliedIsTrue(MetricStep(m, c), target) && MetricStep(m, c).ifaces.Keys == m.ifaces.Keys
  {}

  lemma {:induction false} AppliedIsPressed(original: map<nat, Metric>, run: seq<MetricCall>, target: nat)
    requires OneTarget(run, target)
    ensures var m := MetricAfter(Unpressed(original), run); AppliedIsTrue(m, target) && m.ifaces.Keys == original.Keys
  {
    hide MetricStep, AppliedIsTrue;
    if run == [] {
      NothingPressed(original, target);
    } else {
      AppliedIsPressed(original, run[..|run| - 1], target);
      AppliedStep(MetricAfter(Unpressed(original), run[..|run| - 1]), run[|run| - 1], target);
    }
  }

  lemma NothingPressed(original: map<nat, Metric>, target: nat)
    ensures AppliedIsTrue(Unpressed(original), target)
  {}

  const GOOD_LUCK := Luck(true, true, true, true)

  /** After any run with one target, failures and all: a press that is let through leaves exactly
      the one interface at the target, remembered as pressed, with its pair saved unless it was
      pressed already; an undo that is let through puts the saved pair back, and leaves nothing
      pressed and nothing saved; an undo that fails has at least forgotten what was pressed. */
  lemma GoodLuckIsExact(original: map<nat, Metric>, run: seq<MetricCall>, i: nat, target: nat, luck: Luck)
    requires OneTarget(run, target) && target != 0 && i in original
    ensures var m := MetricAfter(Unpressed(original), run);
            var pressed, undone := Suppress(m, i, target, GOOD_LUCK), Restore(m, GOOD_LUCK);
            && pressed.applied == Some(i) && pressed.ifaces == m.ifaces[i := Metric(target, false)]
            && pressed.saved == (if m.applied == Some(i) || (m.saved.Some? && m.saved.value.ifindex == i) then m.saved
                                 else Some(Saved(i, m.ifaces[i])))
            && undone.1 && undone.0 == Unpressed(if m.saved.Some? then m.ifaces[m.saved.value.ifindex := m.saved.value.original]
                                                 else m.ifaces)
            && Restore(m, luck).0.applied.None?
  {
    hide MetricAfter;
    AppliedIsPressed(original, run, target);
  }

  lemma {:induction false} MetricAfterAppend(m: MetricState, a: seq<MetricCall>, b: seq<MetricCall>)
    ensures MetricAfter(m, a + b) == MetricAfter(MetricAfter(m, a), b)
  {
    if b == [] {
      assert a + b == a;
    } else {
      assert (a + b)[..|a + b| - 1] == a + b[..|b| - 1];
      MetricAfterAppend(m, a, b[..|b| - 1]);
    }
  }

  /** The flap i, j, i that the guard does not survive: after it a release reports success
      and leaves interface i at the service's own target. */
  lemma FlapLosesTheOriginal()
    ensures var all := Luck(true, true, true, true);
            var original := map[15 := Metric(25, true), 16 := Metric(30, true)];
            var m := MetricState(None, None, original);
            var flapped := Suppress(Suppress(Suppress(m, 15, 9000, all), 16, 9000, all), 15, 9000, all);
            Restore(flapped, all).1 && Restore(flapped, all).0.ifaces[15] == Metric(9000, false)
  {
    var all := Luck(true, true, true, true);
    var m := MetricState(None, None, map[15 := Metric(25, true), 16 := Metric(30, true)]);
    var a := Suppress(m, 15, 9000, all);
    assert a.applied == Some(15);
    var b := Suppress(a, 16, 9000, all);
    assert b.applied == Some(16) && b.saved == Some(Saved(16, Metric(30, true))) && b.ifaces[15] == Metric(9000, false);
    var c := Suppress(b, 15, 9000, all);
    assert c.saved == Some(Saved(15, Metric(9000, false)));
  }

  // ---------------------------------------------------------------------------
  // The guard
  // ---------------------------------------------------------------------------

  class RouteGuard {
    const os: OsTable
    var added: seq<Route>
    var saved: Option<Saved>
    var applied: Option<nat>

    function Metrics(): MetricState
      reads this`saved, this`applied, os`ifaces
    {
      MetricState(saved, applied, os.ifaces)
    }

    /** The ledger lists installed routes, each once. */
    ghost predicate Valid()
      reads this`added, os`routes
    {
      (forall i, j | 0 <= i < j < |added| :: added[i] != added[j]) && forall r | r in added :: r in os.routes
    }

    constructor (os: OsTable)
      ensures this.os == os && added == [] && saved == None && applied == None && Valid()
    {
      this.os, added, saved, applied := os, [], None, None;
    }

    method AddRoute(r: Route) returns (ok: bool)
      requires Valid()
      modifies this`added, os`routes
      ensures Valid()
      ensures added == if ok && r !in old(added) then old(added) + [r] else old(added)
      ensures os.routes == if ok && r !in old(added) then old(os.routes) + {r} else old(os.routes)
      ensures r in old(added) || os.works ==> ok
    {
      if r in added { return true; }
      ok := os.Create(r);
      if ok { added := added + [r]; }
    }

    method DeleteRoute(r: Route) returns (ok: bool)
      requires Valid()
      modifies this`added, os`routes
      ensures Valid()
      ensures added == if ok then Without(old(added), r) else old(added)
      ensures os.routes == if ok then old(os.routes) - {r} else old(os.routes)
      ensures os.works ==> ok
    {
      ok := os.Delete(r);
      if ok {
        WithoutIsExact(added, r);
        added := Without(added, r);
      }
    }

    /** `set_metric` */
    method SetMetric(i: nat, value: nat) returns (ok: bool, ghost read: bool, ghost write: bool)
      modifies os`ifaces
      ensures ok == Writable(old(Metrics()), i, read, write)
      ensures os.ifaces == if ok then old(os.ifaces)[i := Metric(value, false)] else old(os.ifaces)
      ensures os.works && i in old(os.ifaces) ==> ok
    {
      var row := os.Get(i);
      read, write := row.Some?, false;
      if row.None? { return false, read, write; }
      ok := os.Set(i, Metric(value, false));
      write := ok;
    }

    method SetStandbyMetric(i: nat, target: nat) returns (ghost luck: Luck)
      modifies this`saved, this`applied, os`ifaces
      ensures Metrics() == Suppress(old(Metrics()), i, target, luck)
      ensures os.works && target != 0 && i in old(os.ifaces) ==> applied == Some(i)
    {
      luck := Luck(false, false, false, false);
      if target == 0 || applied == Some(i) { return; }
      if saved.None? || saved.value.ifindex != i {
        var row := os.Get(i);
        if row.None? { return; }
        luck := luck.(first := true);
        saved := Some(Saved(i, row.value));
      }
      var ok, read, write := SetMetric(i, target);
      luck := luck.(second := read, third := write);
      if ok { applied := Some(i); }
    }

    method RestoreMetric() returns (ok: bool, ghost luck: Luck)
      modifies this`saved, this`applied, os`ifaces
      ensures (Metrics(), ok) == Restore(old(Metrics()), luck)
      ensures os.works && (old(saved).Some? ==> old(saved).value.ifindex in old(os.ifaces)) ==> ok
    {
      luck := Luck(false, false, false, false);
      applied := None;
      if saved.None? { return true, luck; }
      var Saved(i, original) := saved.value;
      ghost var read, write;
      ok, read, write := SetMetric(i, original.value);
      luck := Luck(read, write, false, false);
      if !ok { return; }
      if original.automatic {
        var row := os.Get(i);
        if row.None? { return false, luck; }
        luck := luck.(third := true);
        ok := os.Set(i, row.value.(automatic := true));
        luck := luck.(fourth := ok);
        if !ok { return; }
        assert os.ifaces == old(os.ifaces)[i := Metric(original.value, true)];
      }
      saved := None;
    }
  }

  /** `retain(|row| row != r)` */
  function Without(s: seq<Route>, r: Route): seq<Route> {
    if s == [] then [] else (if s[0] == r then [] else [s[0]]) + Without(s[1..], r)
  }

  lemma {:induction false} WithoutIsExact(s: seq<Route>, r: Route)
    ensures forall x :: x in Without(s, r) <==> x in s && x != r
    ensures (forall i, j | 0 <= i < j < |s| :: s[i] != s[j]) ==>
              forall i, j | 0 <= i < j < |Without(s, r)| :: Without(s, r)[i] != Without(s, r)[j]
    ensures r !in s ==> Without(s, r) == s
  {
    if s != [] {
      WithoutIsExact(s[1..], r);
      assert forall x :: x in s <==> x == s[0] || x in s[1..];
      if forall i, j | 0 <= i < j < |s| :: s[i] != s[j] {
        assert s[0] !in s[1..];
      }
    }
  }

  lemma {:induction false} WithoutHead(kept: seq<Route>, r: Route, rest: seq<Route>)
    requires r !in kept && r !in rest
    ensures Without(kept + [r] + rest, r) == kept + rest
  {
    if kept == [] {
      WithoutIsExact(rest, r);
      assert ([] + [r] + rest)[1..] == rest;
    } else {
      assert (kept + [r] + rest)[1..] == kept[1..] + [r] + rest;
      WithoutHead(kept[1..], r, rest);
    }
  }
}
