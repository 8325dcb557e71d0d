/** src/supervisor/notification.rs: one toast per key in flight, and a quiet window that
    opens only when a toast was really delivered. */
module Notifications {
  import opened Types

  datatype ToastKey = HeartbeatError | RedialFailing

  const NOTIFY_THROTTLE_MS: nat := 1_800_000

  /** The ledger as a set and a map; the object below keeps the source's two vectors. */
  datatype Ledger = Ledger(inFlight: set<ToastKey>, deliveredAt: map<ToastKey, nat>)

  const EMPTY: Ledger := Ledger({}, map[])

  function OnResult(l: Ledger, key: ToastKey, delivered: bool, now: nat): Ledger {
    if key !in l.inFlight then l
    else Ledger(l.inFlight - {key}, if delivered then l.deliveredAt[key := now] else l.deliveredAt)
  }

  predicate Allowed(l: Ledger, key: ToastKey, now: nat) {
    key !in l.inFlight && (key in l.deliveredAt ==> SatSub(now, l.deliveredAt[key]) >= NOTIFY_THROTTLE_MS)
  }

  function MaybeNotify(l: Ledger, key: ToastKey, now: nat): Ledger {
    if Allowed(l, key, now) then l.(inFlight := l.inFlight + {key}) else l
  }

  class NotificationLedger {
    var inFlight: seq<ToastKey>
    var deliveredAt: seq<(ToastKey, nat)>
    ghost var ledger: Ledger

    /** Neither vector names a key twice, and together they are the ledger. */
    ghost predicate Valid()
      reads this
    {
      && (forall i, j | 0 <= i < j < |inFlight| :: inFlight[i] != inFlight[j])
      && (forall i, j | 0 <= i < j < |deliveredAt| :: deliveredAt[i].0 != deliveredAt[j].0)
      && (forall k :: k in ledger.inFlight <==> k in inFlight)
      && (forall k, t :: k in ledger.deliveredAt && ledger.deliveredAt[k] == t <==> (k, t) in deliveredAt)
    }

    constructor ()
      ensures Valid() && ledger == EMPTY
    {
      inFlight, deliveredAt, ledger := [], [], EMPTY;
    }

    method Result(key: ToastKey, delivered: bool, now: nat)
      requires Valid()
      modifies this
      ensures Valid() && ledger == OnResult(old(ledger), key, delivered, now)
    {
      var pos := 0;
      while pos < |inFlight| && inFlight[pos] != key
        invariant pos <= |inFlight| && key !in inFlight[..pos]
      {
        pos := pos + 1;
      }
      if pos == |inFlight| {
        return;
      }
      ledger := OnResult(ledger, key, delivered, now);
      RemoveAt(pos);
      if delivered {
        Forget(key);
        deliveredAt := deliveredAt + [(key, now)];
      }
    }

    method RemoveAt(pos: nat)
      requires pos < |inFlight| && forall i, j | 0 <= i < j < |inFlight| :: inFlight[i] != inFlight[j]
      modifies this`inFlight
      ensures forall i, j | 0 <= i < j < |inFlight| :: inFlight[i] != inFlight[j]
      ensures forall k :: k in inFlight <==> k in old(inFlight) && k != old(inFlight)[pos]
    {
      inFlight := inFlight[..pos] + inFlight[pos + 1..];
    }

    /** `retain(|(k, _)| k != key)` */
    method Forget(key: ToastKey)
      requires forall i, j | 0 <= i < j < |deliveredAt| :: deliveredAt[i].0 != deliveredAt[j].0
      modifies this`deliveredAt
      ensures forall i, j | 0 <= i < j < |deliveredAt| :: deliveredAt[i].0 != deliveredAt[j].0
      ensures forall e :: e in deliveredAt <==> e in old(deliveredAt) && e.0 != key
    {
      var kept: seq<(ToastKey, nat)> := [];
      for i := 0 to |deliveredAt|
        invariant forall e :: e in kept <==> e in deliveredAt[..i] && e.0 != key
        invariant forall a, b | 0 <= a < b < |kept| :: kept[a].0 != kept[b].0
      {
        if deliveredAt[i].0 != key {
          assert forall a | 0 <= a < |kept| :: kept[a] in deliveredAt[..i];
          kept := kept + [deliveredAt[i]];
        }
      }
      deliveredAt := kept;
    }

    /** Whether a toast goes out now. */
    method Notify(key: ToastKey, now: nat) returns (send: bool)
      requires Valid()
      modifies this
      ensures Valid() && ledger == MaybeNotify(old(ledger), key, now)
      ensures send == Allowed(old(ledger), key, now)
    {
      if key in inFlight {
        return false;
      }
      var i := 0;
      while i < |deliveredAt| && deliveredAt[i].0 != key
        invariant i <= |deliveredAt| && forall e | e in deliveredAt[..i] :: e.0 != key
      {
        i := i + 1;
      }
      if i < |deliveredAt| {
        assert (key, deliveredAt[i].1) in deliveredAt;
        if SatSub(now, deliveredAt[i].1) < NOTIFY_THROTTLE_MS {
          return false;
        }
      }
      assert key in ledger.deliveredAt ==> (key, ledger.deliveredAt[key]) in deliveredAt;
      assert Allowed(ledger, key, now);
      ledger := MaybeNotify(ledger, key, now);
      inFlight := inFlight + [key];
      return true;
    }
  }
}
