/** Vocabulary shared by the service core: what the snapshot protocol, the
    probes and the configuration speak about. */
module Types {

  datatype Option<+T> = None | Some(value: T)

  /** src/ipc/protocol.rs: NetMode. */
  datatype NetMode = WiredExclusive | WiredPlusStandby

  /** src/ipc/protocol.rs: WPhase. */
  datatype WPhase = Off | Joining | Authing | Online | Error

  /** src/ipc/protocol.rs: SessionStatus; the watchdog's own Phase maps onto it one to one. */
  datatype SessionStatus = Idle | Dialing | Connected | Backoff | AuthFail

  /** src/probe.rs: ProbeVerdict. */
  datatype Verdict = Alive | LinkDown | Kicked

  /** Why the wired session was last lost or not established. */
  datatype DropReason =
    | EthernetLinkDown
    | ManualRedial
    | SessionNotFound
    | ProbeFailed(fails: nat, verdict: Verdict)
    | AuthFailed(code: nat)
    | DialFailed(code: nat)

  /** src/watchdog.rs: SessionView. */
  datatype SessionView = SessionView(status: SessionStatus, since: Option<nat>, lastDrop: Option<DropReason>, attempts: nat)

  type Ipv4 = x: int | 0 <= x < 0x1_0000_0000

  /** src/wireless/egress.rs: WlanEndpoint. */
  datatype WlanEndpoint = WlanEndpoint(gateway: Ipv4, ifindex: nat)

  type Byte = x: int | 0 <= x < 256
  type Bytes = seq<Byte>

  const U32_MAX: nat := 0xFFFF_FFFF

  /** `saturating_add(1)` on a u32 counter. */
  function Bump32(n: nat): nat { if n < U32_MAX then n + 1 else n }

  /** `saturating_sub` on unsigned integers. */
  function SatSub(a: nat, b: nat): nat { if a >= b then a - b else 0 }

  function Min(a: int, b: int): int { if a <= b then a else b }

  function Max(a: int, b: int): int { if a >= b then a else b }

  /** The sum of a measure over a sequence; every ledger of outstanding work is one of these. */
  function Sum<T>(f: T -> nat, s: seq<T>): nat {
    if s == [] then 0 else f(s[0]) + Sum(f, s[1..])
  }

  lemma {:induction false} SumAppend<T>(f: T -> nat, a: seq<T>, b: seq<T>)
    ensures Sum(f, a + b) == Sum(f, a) + Sum(f, b)
  {
    if a == [] {
      assert a + b == b;
    } else {
      assert (a + b)[1..] == a[1..] + b;
      SumAppend(f, a[1..], b);
    }
  }
}
