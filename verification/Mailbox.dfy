/** src/ipc/commands.rs: the coalescing command mailbox, as the atomic steps of any number
    of senders and one receiver. A sender holds the lock from updating `Pending` until it has
    tried to leave its wake token; the receiver takes the token first and the lock afterwards. */
module Mailbox {
  import opened Types
  import S = Supervisor

  /** Shared memory and program counters: `holder` is the sender between its two steps,
      `taking` says the receiver is between its own. */
  datatype State = State(redial: bool, mode: Option<NetMode>, token: bool, holder: Option<nat>, taking: bool,
                         senders: set<nat>, ended: bool)
  {
    predicate Empty() { !redial && mode.None? }

    /** Nothing waits without somebody on the way to it. */
    predicate Awake() { Empty() || token || taking || holder.Some? }
  }

  datatype Step =
    | Put(id: nat, cmd: S.Command)
    | Ring(id: nat)
    | TakeToken
    | TakePending
    | Clone(id: nat, newId: nat)
    | Leave(id: nat)
    | Hear

  /** `Hear` is `recv` finding the channel empty and every sender gone. */
  predicate Enabled(s: State, step: Step) {
    match step
    case Put(id, _) => id in s.senders && s.holder.None?
    case Ring(id) => s.holder == Some(id)
    case TakeToken => s.token && !s.taking && !s.ended
    case TakePending => s.taking && s.holder.None?
    case Clone(id, newId) => id in s.senders && newId !in s.senders
    case Leave(id) => id in s.senders && s.holder != Some(id)
    case Hear => !s.token && !s.taking && s.senders == {} && !s.ended
  }

  function Apply(s: State, step: Step): State {
    match step
    case Put(id, cmd) =>
      (match cmd case Redial => s.(redial := true) case SetMode(m) => s.(mode := Some(m))).(holder := Some(id))
    case Ring(_) => s.(token := true, holder := None)
    case TakeToken => s.(token := false, taking := true)
    case TakePending => s.(redial := false, mode := None, taking := false)
    case Clone(_, newId) => s.(senders := s.senders + {newId})
    case Leave(id) => s.(senders := s.senders - {id})
    case Hear => s.(ended := true)
  }

  /** What `recv` returns from what it took: the mode first, then the redial. */
  function Batch(s: State): seq<S.Command> {
    (if s.mode.Some? then [S.SetMode(s.mode.value)] else []) + (if s.redial then [S.Redial] else [])
  }

  const FRESH: State := State(false, None, false, None, false, {0}, false)

  function StateAt(run: seq<Step>, i: nat): State
    requires i <= |run|
  {
    if i == 0 then FRESH else Apply(StateAt(run, i - 1), run[i - 1])
  }

  /** An interleaving: every step was possible when it was taken. */
  ghost predicate Possible(run: seq<Step>) {
    forall i | 0 <= i < |run| :: Enabled(StateAt(run, i), run[i])
  }

  ghost predicate Watched(s: State) { s.Awake() && (s.holder.Some? ==> s.holder.value in s.senders) }

  lemma StepKeepsWatch(s: State, step: Step)
    requires Watched(s) && Enabled(s, step)
    ensures Watched(Apply(s, step))
  {}

  /** What one step does to the two halves of `Pending`. */
  lemma PendingStep(s: State, step: Step)
    ensures Apply(s, step).redial <==> (step.Put? && step.cmd == S.Redial) || (s.redial && step != TakePending)
    ensures PendingMode(Apply(s, step))
         == if step.Put? && step.cmd.SetMode? then [step.cmd.mode] else if step == TakePending then [] else PendingMode(s)
  {}

  /** No lost wake-up, in any interleaving of any number of senders. */
  lemma {:induction false} NeverAsleepOnMail(run: seq<Step>, i: nat)
    requires Possible(run) && i <= |run|
    ensures Watched(StateAt(run, i))
  {
    hide Apply, Enabled;
    if i > 0 {
      NeverAsleepOnMail(run, i - 1);
      StepKeepsWatch(StateAt(run, i - 1), run[i - 1]);
    }
  }

  /** The receiver hears that everybody is gone only when nothing is left behind. */
  lemma NothingIsLeftBehind(run: seq<Step>, i: nat)
    requires Possible(run) && i < |run| && run[i] == Hear
    ensures StateAt(run, i).Empty()
  {
    NeverAsleepOnMail(run, i);
    assert Enabled(StateAt(run, i), run[i]);
  }

  // ---------------------------------------------------------------------------
  // Redials
  // ---------------------------------------------------------------------------

  /** Step `i` delivers a batch that contains a redial. */
  ghost predicate RedialDelivered(run: seq<Step>, i: nat)
    requires i < |run|
  {
    run[i] == TakePending && S.Redial in Batch(StateAt(run, i))
  }

  /** Every redial sent is still pending or was covered by a later batch. */
  lemma {:induction false} RedialIsCovered(run: seq<Step>, i: nat, n: nat)
    requires Possible(run) && i < n <= |run| && run[i].Put? && run[i].cmd == S.Redial
    ensures StateAt(run, n).redial || exists j :: i < j < n && RedialDelivered(run, j)
  {
    hide Apply, Enabled;
    PendingStep(StateAt(run, n - 1), run[n - 1]);
    if i + 1 < n {
      RedialIsCovered(run, i, n - 1);
      if run[n - 1] == TakePending && StateAt(run, n - 1).redial {
        assert RedialDelivered(run, n - 1);
      }
    }
  }

  /** And no batch invents one: between a delivered redial and the batch before it somebody sent one. */
  lemma {:induction false} RedialWasSent(run: seq<Step>, n: nat) returns (i: nat)
    requires n <= |run| && StateAt(run, n).redial
    ensures i < n && run[i].Put? && run[i].cmd == S.Redial
    ensures forall j | i < j < n :: run[j] != TakePending
  {
    hide Apply;
    PendingStep(StateAt(run, n - 1), run[n - 1]);
    if run[n - 1].Put? && run[n - 1].cmd == S.Redial {
      i := n - 1;
    } else {
      i := RedialWasSent(run, n - 1);
    }
  }

  /** A batch asks for at most one mode and at most one redial, and for the mode first. */
  lemma BatchIsOrdered(s: State)
    ensures var batch := Batch(s);
            && (S.Redial in batch <==> s.redial)
            && (forall i, j | 0 <= i < j < |batch| :: batch[i].SetMode? && batch[j] == S.Redial)
            && (forall m :: S.SetMode(m) in batch <==> s.mode == Some(m))
  {}

  // ---------------------------------------------------------------------------
  // Modes
  // ---------------------------------------------------------------------------

  function Sent(run: seq<Step>, n: nat): seq<NetMode>
    requires n <= |run|
  {
    if n == 0 then []
    else Sent(run, n - 1) + if run[n - 1].Put? && run[n - 1].cmd.SetMode? then [run[n - 1].cmd.mode] else []
  }

  function Modes(batch: seq<S.Command>): seq<NetMode> {
    if batch == [] then [] else (if batch[0].SetMode? then [batch[0].mode] else []) + Modes(batch[1..])
  }

  function Delivered(run: seq<Step>, n: nat): seq<NetMode>
    requires n <= |run|
  {
    if n == 0 then []
    else Delivered(run, n - 1) + if run[n - 1] == TakePending then Modes(Batch(StateAt(run, n - 1))) else []
  }

  predicate Subsequence<T(==)>(d: seq<T>, s: seq<T>) {
    d == [] || (s != [] && ((d[|d| - 1] == s[|s| - 1] && Subsequence(d[..|d| - 1], s[..|s| - 1]))
                            || Subsequence(d, s[..|s| - 1])))
  }

  lemma SubsequenceEmpty<T>(s: seq<T>)
    ensures Subsequence([], s)
  {}

  lemma SubsequenceGrows<T>(d: seq<T>, s: seq<T>, x: T)
    requires Subsequence(d, s)
    ensures Subsequence(d, s + [x]) && Subsequence(d + [x], s + [x])
  {
    assert (s + [x])[..|s|] == s && (d + [x])[..|d|] == d;
  }

  lemma {:induction false} SubsequenceShrinks<T>(d: seq<T>, s: seq<T>)
    requires d != [] && Subsequence(d, s)
    ensures Subsequence(d[..|d| - 1], s)
  {
    var d', s' := d[..|d| - 1], s[..|s| - 1];
    assert s == s' + [s[|s| - 1]];
    if Subsequence(d, s') {
      SubsequenceShrinks(d, s');
    }
    SubsequenceGrows(d', s', s[|s| - 1]);
  }

  function PendingMode(s: State): seq<NetMode> { if s.mode.Some? then [s.mode.value] else [] }

  lemma BatchModes(s: State)
    ensures Modes(Batch(s)) == PendingMode(s)
  {
    assert Modes([S.Redial]) == [] by { assert [S.Redial][1..] == []; }
    if s.mode.Some? {
      var b := Batch(s);
      assert b[1..] == if s.redial then [S.Redial] else [];
    }
  }

  predicate LastIs(d: seq<NetMode>, s: seq<NetMode>) {
    s != [] ==> d != [] && d[|d| - 1] == s[|s| - 1]
  }

  /** What has been delivered or is pending, against what has been sent. */
  predicate Faithful(known: seq<NetMode>, sent: seq<NetMode>) {
    Subsequence(known, sent) && LastIs(known, sent) && |known| <= |sent|
  }

  /** A new mode replaces the pending one. */
  lemma PutKeepsFaith(d: seq<NetMode>, pending: seq<NetMode>, sent: seq<NetMode>, mode: NetMode)
    requires |pending| <= 1 && Faithful(d + pending, sent)
    ensures Faithful(d + [mode], sent + [mode])
  {
    hide Subsequence;
    if pending != [] {
      SubsequenceShrinks(d + pending, sent);
      assert (d + pending)[..|d + pending| - 1] == d;
    } else {
      assert d + pending == d;
    }
    SubsequenceGrows(d, sent, mode);
  }

  /** What one step does to the modes delivered and pending, and to those sent. */
  lemma ModesStep(run: seq<Step>, n: nat)
    requires 0 < n <= |run|
    ensures var s, step := StateAt(run, n - 1), run[n - 1];
            if step.Put? && step.cmd.SetMode? then
              && Sent(run, n) == Sent(run, n - 1) + [step.cmd.mode]
              && Delivered(run, n) + PendingMode(StateAt(run, n)) == Delivered(run, n - 1) + [step.cmd.mode]
            else
              && Sent(run, n) == Sent(run, n - 1)
              && Delivered(run, n) + PendingMode(StateAt(run, n)) == Delivered(run, n - 1) + PendingMode(s)
  {
    hide Apply, Batch, Modes, PendingMode;
    var s, step := StateAt(run, n - 1), run[n - 1];
    PendingStep(s, step);
    BatchModes(s);
    NothingMore(Sent(run, n - 1), Delivered(run, n - 1), PendingMode(s));
  }

  lemma NothingMore(a: seq<NetMode>, b: seq<NetMode>, c: seq<NetMode>)
    ensures a + [] == a && b + [] == b && b + c + [] == b + c && (b + []) + c == b + c
  {}

  lemma NothingKnownYet(run: seq<Step>)
    ensures Faithful(Delivered(run, 0) + PendingMode(StateAt(run, 0)), Sent(run, 0))
  {}

  lemma {:induction false} KnownIsFaithful(run: seq<Step>, n: nat)
    requires n <= |run|
    ensures Faithful(Delivered(run, n) + PendingMode(StateAt(run, n)), Sent(run, n))
  {
    hide Faithful, StateAt, Sent, Delivered, Apply;
    if n == 0 {
      NothingKnownYet(run);
    } else {
      KnownIsFaithful(run, n - 1);
      ModesStep(run, n);
      var step := run[n - 1];
      if step.Put? && step.cmd.SetMode? {
        PutKeepsFaith(Delivered(run, n - 1), PendingMode(StateAt(run, n - 1)), Sent(run, n - 1), step.cmd.mode);
      }
    }
  }

  /** Delivered modes, and the one still pending, are a subsequence of the modes sent, and
      end in the last one sent: coalescing skips, but never reorders, repeats, invents, or
      loses the latest. */
  lemma LatestModeWins(run: seq<Step>, n: nat)
    requires n <= |run|
    ensures var known := Delivered(run, n) + PendingMode(StateAt(run, n));
            Subsequence(known, Sent(run, n)) && LastIs(known, Sent(run, n)) && |known| <= |Sent(run, n)|
  {
    hide Subsequence, LastIs, StateAt, Sent, Delivered, PendingMode;
    KnownIsFaithful(run, n);
  }

  // ---------------------------------------------------------------------------
  // Delivery
  // ---------------------------------------------------------------------------

  /** The steps the current holder and the receiver still owe. */
  function Owed(s: State): seq<Step> {
    (if s.holder.Some? then [Ring(s.holder.value)] else []) + (if s.taking then [TakePending] else [TakeToken, TakePending])
  }

  function ApplyAll(s: State, steps: seq<Step>): State
    decreases |steps|
  {
    if steps == [] then s else ApplyAll(Apply(s, steps[0]), steps[1..])
  }

  predicate AllEnabled(s: State, steps: seq<Step>)
    decreases |steps|
  {
    steps == [] || (Enabled(s, steps[0]) && AllEnabled(Apply(s, steps[0]), steps[1..]))
  }

  /** Whenever mail is pending, at most three steps of parties already on their way deliver
      all of it; no further send is needed. */
  lemma MailIsDelivered(run: seq<Step>, n: nat)
    requires Possible(run) && n <= |run| && !StateAt(run, n).Empty() && !StateAt(run, n).ended
    ensures var s := StateAt(run, n);
            |Owed(s)| <= 3 && AllEnabled(s, Owed(s)) && ApplyAll(s, Owed(s)).Empty()
            && Owed(s)[|Owed(s)| - 1] == TakePending
  {
    NeverAsleepOnMail(run, n);
    var s := StateAt(run, n);
    var owed := Owed(s);
    if s.holder.Some? {
      var s1 := Apply(s, Ring(s.holder.value));
      assert owed[1..] == if s.taking then [TakePending] else [TakeToken, TakePending];
      ReceiverFinishes(s1);
    } else {
      assert owed == if s.taking then [TakePending] else [TakeToken, TakePending];
      ReceiverFinishes(s);
    }
  }

  lemma ReceiverFinishes(s: State)
    requires s.holder.None? && (s.taking || s.token) && !s.ended
    ensures var steps := if s.taking then [TakePending] else [TakeToken, TakePending];
            AllEnabled(s, steps) && ApplyAll(s, steps).Empty()
  {
    assert [TakePending][1..] == [];
    if !s.taking {
      assert [TakeToken, TakePending][1..] == [TakePending];
      assert ApplyAll(s, [TakeToken, TakePending]) == ApplyAll(Apply(s, TakeToken), [TakePending]);
    }
  }

  // ---------------------------------------------------------------------------
  // The object: each method is one atomic step
  // ---------------------------------------------------------------------------

  class CommandChannel {
    var redial: bool
    var mode: Option<NetMode>
    var token: bool
    var holder: Option<nat>
    var taking: bool
    var senders: set<nat>
    var ended: bool

    function View(): State
      reads this
    {
      State(redial, mode, token, holder, taking, senders, ended)
    }

    constructor ()
      ensures View() == FRESH
    {
      redial, mode, token, holder, taking, senders, ended := false, None, false, None, false, {0}, false;
    }

    /** The first half of `send`: lock and update. */
    method LockAndUpdate(id: nat, cmd: S.Command)
      requires Enabled(View(), Put(id, cmd))
      modifies this
      ensures View() == Apply(old(View()), Put(id, cmd))
    {
      holder := Some(id);
      match cmd {
        case Redial => redial := true;
        case SetMode(m) => mode := Some(m);
      }
    }

    /** The second half: `try_send`, where a full channel is fine, and unlock. */
    method WakeAndUnlock()
      requires holder.Some?
      modifies this
      ensures View() == Apply(old(View()), Ring(old(holder).value))
    {
      if !token { token := true; }
      holder := None;
    }

    /** The first half of `recv`. */
    method ReceiveToken()
      requires Enabled(View(), TakeToken)
      modifies this
      ensures View() == Apply(old(View()), TakeToken)
    {
      token, taking := false, true;
    }

    /** The second half: take everything under the lock. */
    method Receive() returns (batch: seq<S.Command>)
      requires Enabled(View(), TakePending)
      modifies this
      ensures View() == Apply(old(View()), TakePending)
      ensures batch == Batch(old(View()))
    {
      batch := [];
      if mode.Some? { batch := batch + [S.SetMode(mode.value)]; }
      if redial { batch := batch + [S.Redial]; }
      redial, mode, taking := false, None, false;
    }
  }
}
