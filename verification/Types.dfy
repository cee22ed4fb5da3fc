/** The agent's vocabulary: machine integers, microsecond time, identifiers and attempt outcomes. */
module Types {

  datatype Option<+T> = None | Some(value: T)

  type byte = x: int | 0 <= x < 0x100
  type u32 = x: int | 0 <= x < 0x1_0000_0000
  type u64 = x: int | 0 <= x < 0x1_0000_0000_0000_0000
  type i32 = x: int | -0x8000_0000 <= x < 0x8000_0000
  type i64 = x: int | -0x8000_0000_0000_0000 <= x < 0x8000_0000_0000_0000

  const I64_MAX: i64 := 0x7FFF_FFFF_FFFF_FFFF

  /** A signed span in whole microseconds. */
  type Duration = i64

  const MIN_MICROS := -62_135_596_800_000_000
  const MAX_MICROS := 253_402_300_799_999_999

  /** A wall-clock instant in microseconds, bounded to four-digit years. */
  type Timestamp = x: int | MIN_MICROS <= x <= MAX_MICROS

  function ClampTime(x: int): Timestamp {
    if x < MIN_MICROS then MIN_MICROS else if x > MAX_MICROS then MAX_MICROS else x
  }

  function SatAdd(t: Timestamp, d: Duration): Timestamp { ClampTime(t + d) }

  function SatSub(t: Timestamp, d: Duration): Timestamp { ClampTime(t - d) }

  function FromMicros(us: i64): Option<Timestamp> {
    if MIN_MICROS <= us <= MAX_MICROS then Some(us) else None
  }

  function ClampI64(x: int): i64 {
    if x < -0x8000_0000_0000_0000 then -0x8000_0000_0000_0000 else if x > I64_MAX then I64_MAX else x
  }

  function Max(x: int, y: int): int { if x < y then y else x }

  function Min(x: int, y: int): int { if x < y then x else y }

  /** An unsigned wire span as a signed one, saturating. */
  function RuntimeBound(us: u64): Duration { if us <= I64_MAX then us else I64_MAX }

  /** Identifiers are 128-bit UUIDs, ordered as unsigned integers. */
  type Uuid = x: int | 0 <= x < 0x1_0000_0000_0000_0000_0000_0000_0000_0000
  type AllocationId = Uuid
  type AttemptId = Uuid
  type JobId = Uuid

  datatype PreemptReason =
    | Priority(forJob: JobId)
    | Relocation(forJob: JobId)
    | Drain
    | Interruption

  datatype Outcome =
    | Exited(code: i32)
    | MemoryLimitExceeded
    | RuntimeLimitExceeded
    | DiskLimitExceeded
    | Aborted
    | Revoked
    | PullFailed(userError: bool)
    | StartFailed(userError: bool)
    | NodeLost
    | AgentError
    | Preempted(reason: PreemptReason)

  datatype NoticeSignal = Sighup | Sigint | Sigusr1 | Sigusr2 | Sigterm

  function Get<K, V>(m: map<K, V>, k: K): Option<V> {
    if k in m then Some(m[k]) else None
  }

  ghost predicate IsLeast(m: Uuid, s: set<Uuid>) {
    m in s && forall x :: x in s ==> m <= x
  }

  lemma LeastExists(s: set<Uuid>)
    requires s != {}
    ensures exists m :: IsLeast(m, s)
  {
    var y :| y in s;
    var rest := s - {y};
    if rest == {} {
      assert s == {y};
      assert IsLeast(y, s);
    } else {
      LeastExists(rest);
      var m :| IsLeast(m, rest);
      var least := if m <= y then m else y;
      forall x | x in s ensures least <= x {
        if x != y { assert x in rest; }
      }
      assert IsLeast(least, s);
    }
  }

  function Least(s: set<Uuid>): (m: Uuid)
    requires s != {}
    ensures m in s && forall x :: x in s ==> m <= x
  {
    LeastExists(s);
    assert exists m :: m in s && forall x :: x in s ==> m <= x by {
      var m :| IsLeast(m, s);
    }
    var m :| m in s && forall x :: x in s ==> m <= x;
    m
  }

  predicate StrictlyAscending(ks: seq<Uuid>) {
    forall i, j :: 0 <= i < j < |ks| ==> ks[i] < ks[j]
  }

  /** The iteration order of a B-tree keyed by `s`: every element once, ascending. */
  function Ascending(s: set<Uuid>): (ks: seq<Uuid>)
    ensures StrictlyAscending(ks)
    ensures forall k :: k in ks <==> k in s
    decreases |s|
  {
    if s == {} then []
    else
      var m := Least(s);
      [m] + Ascending(s - {m})
  }

  lemma HasElement(b: seq<Uuid>)
    ensures b != [] ==> exists k :: k in b
  {
    if b != [] { assert b[0] in b; }
  }

  /** Two ascending enumerations of the same elements are the same sequence. */
  lemma {:induction false} AscendingUnique(a: seq<Uuid>, b: seq<Uuid>)
    requires StrictlyAscending(a) && StrictlyAscending(b)
    requires forall k :: k in a <==> k in b
    ensures a == b
  {
    if a == [] {
      HasElement(b);
    } else {
      assert a[0] in b;
      assert b[0] in a;
      var i :| 0 <= i < |b| && b[i] == a[0];
      var j :| 0 <= j < |a| && a[j] == b[0];
      assert a[0] == b[0];
      forall k ensures k in a[1..] <==> k in b[1..] {
        if k in a[1..] { assert k in b; }
        if k in b[1..] { assert k in a; }
      }
      AscendingUnique(a[1..], b[1..]);
      assert a == [a[0]] + a[1..];
      assert b == [b[0]] + b[1..];
    }
  }
}
