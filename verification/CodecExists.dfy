/** A lawful payload codec exists, so nothing proved of every lawful codec is empty. */
module CodecExists {
  import opened Types
  import opened JournalState
  import opened Wire
  import opened Framing

  // ---- integers as fixed-width words ----

  const WIDTH := 17

  function Pow256(n: nat): nat { if n == 0 then 1 else 256 * Pow256(n - 1) }

  function Bytes(n: nat, width: nat): (b: seq<byte>)
    ensures |b| == width
  {
    if width == 0 then [] else [n % 256] + Bytes(n / 256, width - 1)
  }

  function Value(b: seq<byte>): nat { if b == [] then 0 else b[0] + 256 * Value(b[1..]) }

  lemma {:induction false} BytesRoundTrip(n: nat, width: nat)
    requires n < Pow256(width)
    ensures Value(Bytes(n, width)) == n
    decreases width
  {
    if width > 0 {
      BytesRoundTrip(n / 256, width - 1);
      assert Bytes(n, width)[1..] == Bytes(n / 256, width - 1);
    }
  }

  /** Every number a record carries, signed or 128-bit. */
  predicate Small(x: int) { -0x8000_0000_0000_0000 <= x < 0x1_0000_0000_0000_0000_0000_0000_0000_0000 }

  function Word(x: int): (b: seq<byte>)
    requires Small(x)
    ensures |b| == WIDTH
  {
    Bytes(x + 0x8000_0000_0000_0000, WIDTH)
  }

  lemma WordRoundTrip(x: int)
    requires Small(x)
    ensures Value(Word(x)) == x + 0x8000_0000_0000_0000
  {
    assert Pow256(4) == 0x1_0000_0000;
    assert Pow256(8) == 0x1_0000_0000 * Pow256(4);
    assert Pow256(12) == 0x1_0000_0000 * Pow256(8);
    assert Pow256(16) == 0x1_0000_0000 * Pow256(12);
    assert Pow256(17) == 256 * Pow256(16);
    BytesRoundTrip(x + 0x8000_0000_0000_0000, WIDTH);
  }

  ghost predicate AllSmall(xs: seq<int>) { forall i :: 0 <= i < |xs| ==> Small(xs[i]) }

  function Words(xs: seq<int>): (b: seq<byte>)
    requires AllSmall(xs)
    ensures |b| == WIDTH * |xs|
  {
    if xs == [] then [] else Word(xs[0]) + Words(xs[1..])
  }

  lemma {:induction false} WordsInjective(xs: seq<int>, ys: seq<int>)
    requires AllSmall(xs) && AllSmall(ys) && Words(xs) == Words(ys)
    ensures xs == ys
    decreases |xs|
  {
    assert |xs| == |ys|;
    if xs != [] {
      WordRoundTrip(xs[0]);
      WordRoundTrip(ys[0]);
      assert Words(xs)[..WIDTH] == Word(xs[0]) && Words(ys)[..WIDTH] == Word(ys[0]);
      assert Words(xs)[WIDTH..] == Words(xs[1..]) && Words(ys)[WIDTH..] == Words(ys[1..]);
      WordsInjective(xs[1..], ys[1..]);
      assert xs == [xs[0]] + xs[1..] && ys == [ys[0]] + ys[1..];
    }
  }

  // ---- records as lists of integers ----

  function ReasonNumbers(r: PreemptReason): (int, int) {
    match r
    case Priority(job) => (0, job)
    case Relocation(job) => (1, job)
    case Drain => (2, 0)
    case Interruption => (3, 0)
  }

  function OutcomeNumbers(o: Outcome): (int, int, int) {
    match o
    case Exited(code) => (0, code, 0)
    case MemoryLimitExceeded => (1, 0, 0)
    case RuntimeLimitExceeded => (2, 0, 0)
    case DiskLimitExceeded => (3, 0, 0)
    case Aborted => (4, 0, 0)
    case Revoked => (5, 0, 0)
    case PullFailed(user) => (6, if user then 1 else 0, 0)
    case StartFailed(user) => (7, if user then 1 else 0, 0)
    case NodeLost => (8, 0, 0)
    case AgentError => (9, 0, 0)
    case Preempted(r) => (10, ReasonNumbers(r).0, ReasonNumbers(r).1)
  }

  function Id(f: Field<Uuid>): (int, int) {
    match f
    case Missing => (0, 0)
    case Malformed => (1, 0)
    case Present(v) => (2, v)
  }

  function Reason(f: Field<PreemptReason>): (int, int, int) {
    match f
    case Missing => (0, 0, 0)
    case Malformed => (1, 0, 0)
    case Present(r) => (2, ReasonNumbers(r).0, ReasonNumbers(r).1)
  }

  function Ended(f: Field<Outcome>): (int, int, int, int) {
    match f
    case Missing => (0, 0, 0, 0)
    case Malformed => (1, 0, 0, 0)
    case Present(o) => (2, OutcomeNumbers(o).0, OutcomeNumbers(o).1, OutcomeNumbers(o).2)
  }

  function Optional(o: Option<int>): (int, int) { if o.None? then (0, 0) else (1, o.value) }

  function Stone(t: WireTombstone): (int, int, int, int) {
    match t
    case NoReason => (0, 0, 0, 0)
    case AbortReason => (1, 0, 0, 0)
    case PreemptedFor(r) => (2, Reason(r).0, Reason(r).1, Reason(r).2)
  }

  function Numbers(w: WireRecord): seq<int> {
    match w
    case NoBody => [0]
    case FencingUpdate(term, epoch) => [1, term, epoch]
    case IntentUpdate(a, t, j, epoch, max, signal, notice, grace, margin) =>
      [2, Id(a).0, Id(a).1, Id(t).0, Id(t).1, Id(j).0, Id(j).1, epoch, Optional(max).0, Optional(max).1,
       signal, notice, grace, margin]
    case TombstoneUpdate(a, t) => [3, Id(a).0, Id(a).1, Stone(t).0, Stone(t).1, Stone(t).2, Stone(t).3]
    case ExitUpdate(a, t, j, o, runtime) =>
      [4, Id(a).0, Id(a).1, Id(t).0, Id(t).1, Id(j).0, Id(j).1, Ended(o).0, Ended(o).1, Ended(o).2, Ended(o).3, runtime]
    case NoticeIntentUpdate(a, r) => [5, Id(a).0, Id(a).1, Reason(r).0, Reason(r).1, Reason(r).2]
    case NoticeMarkUpdate(a, stop, shortfall, notified) => [6, Id(a).0, Id(a).1, stop, shortfall, notified]
    case DrainPlanUpdate(deadline, window, interruption) =>
      [7, Optional(deadline).0, Optional(deadline).1, window, Optional(interruption).0, Optional(interruption).1]
  }

  lemma NumbersSmall(w: WireRecord)
    ensures AllSmall(Numbers(w)) && |Numbers(w)| <= 14
  {
  }

  lemma PartsInjective()
    ensures forall r, s: PreemptReason :: ReasonNumbers(r) == ReasonNumbers(s) ==> r == s
    ensures forall o, p: Outcome :: OutcomeNumbers(o) == OutcomeNumbers(p) ==> o == p
  {
    forall o, p: Outcome | OutcomeNumbers(o) == OutcomeNumbers(p) ensures o == p {
      if o.Preempted? { assert ReasonNumbers(o.reason) == ReasonNumbers(p.reason); }
    }
  }

  lemma FieldsInjective()
    ensures forall f, g: Field<Uuid> :: Id(f) == Id(g) ==> f == g
    ensures forall f, g: Field<PreemptReason> :: Reason(f) == Reason(g) ==> f == g
    ensures forall f, g: Field<Outcome> :: Ended(f) == Ended(g) ==> f == g
    ensures forall f, g: WireTombstone :: Stone(f) == Stone(g) ==> f == g
  {
    PartsInjective();
    forall f, g: Field<PreemptReason> | Reason(f) == Reason(g) ensures f == g {
      if f.Present? { assert ReasonNumbers(f.value) == ReasonNumbers(g.value); }
    }
    forall f, g: Field<Outcome> | Ended(f) == Ended(g) ensures f == g {
      if f.Present? { assert OutcomeNumbers(f.value) == OutcomeNumbers(g.value); }
    }
    forall f, g: WireTombstone | Stone(f) == Stone(g) ensures f == g {
      if f.PreemptedFor? { assert Reason(f.reason) == Reason(g.reason); }
    }
  }

  lemma NumbersInjective(v: WireRecord, w: WireRecord)
    requires Numbers(v) == Numbers(w)
    ensures v == w
  {
    hide Id, Reason, Ended, Stone;
    FieldsInjective();
    assert Numbers(v)[0] == Numbers(w)[0];
    assert forall i :: 0 <= i < |Numbers(v)| ==> Numbers(v)[i] == Numbers(w)[i];
    match v
    case NoBody =>
    case FencingUpdate(_, _) => assert Numbers(v)[1] == Numbers(w)[1] && Numbers(v)[2] == Numbers(w)[2];
    case IntentUpdate(a, t, j, epoch, max, signal, notice, grace, margin) =>
      assert Id(a) == Id(w.allocation) && Id(t) == Id(w.attempt) && Id(j) == Id(w.job);
      assert Optional(max) == Optional(w.maxRuntimeUs);
    case TombstoneUpdate(a, t) => assert Id(a) == Id(w.allocation) && Stone(t) == Stone(w.tombstone);
    case ExitUpdate(a, t, j, o, runtime) =>
      assert Id(a) == Id(w.allocation) && Id(t) == Id(w.attempt) && Id(j) == Id(w.job) && Ended(o) == Ended(w.outcome);
    case NoticeIntentUpdate(a, r) => assert Id(a) == Id(w.allocation) && Reason(r) == Reason(w.reason);
    case NoticeMarkUpdate(a, _, _, _) => assert Id(a) == Id(w.allocation);
    case DrainPlanUpdate(deadline, window, interruption) =>
      assert Optional(deadline) == Optional(w.operatorDeadlineUs)
             && Optional(interruption) == Optional(w.interruptionDeadlineUs);
  }

  // ---- the codec ----

  function Payload(w: WireRecord): seq<byte> {
    NumbersSmall(w);
    Words(Numbers(w))
  }

  ghost function Decoded(b: seq<byte>): Option<WireRecord> {
    if exists w :: Payload(w) == b then
      var w :| Payload(w) == b;
      Some(w)
    else None
  }

  lemma PayloadDecodes(w: WireRecord)
    ensures |Payload(w)| < 0x1_0000_0000 && Decoded(Payload(w)) == Some(w)
  {
    NumbersSmall(w);
    var v := Decoded(Payload(w)).value;
    assert Payload(v) == Payload(w);
    NumbersSmall(v);
    WordsInjective(Numbers(v), Numbers(w));
    NumbersInjective(v, w);
  }

  /** Whatever the checksum, some codec decodes all it encodes within the length a header can say. */
  lemma LawfulCodecExists(crc: seq<byte> -> u32)
    ensures exists c: Codec :: Lawful(c) && c.crc == crc
  {
    var c := Codec(w => Payload(w), b => Decoded(b), crc);
    forall w: WireRecord ensures |c.encode(w)| < 0x1_0000_0000 && c.decode(c.encode(w)) == Some(w) {
      PayloadDecodes(w);
    }
    assert Lawful(c);
  }
}
