/** The journal file's framing: length, checksum, payload; scanning with torn-tail recovery. */
module Framing {
  import opened Types
  import opened JournalState
  import opened Wire

  /** The payload codec and checksum, left uninterpreted. */
  datatype Codec = Codec(
    encode: WireRecord -> seq<byte>,
    decode: seq<byte> -> Option<WireRecord>,
    crc: seq<byte> -> u32)

  /**
   * Decoding inverts encoding, and a payload's length fits its 32-bit header. Every field of a record
   * is of bounded width, so such a codec exists (`CodecExists`).
   */
  ghost predicate Lawful(c: Codec) {
    forall w: WireRecord :: |c.encode(w)| < 0x1_0000_0000 && c.decode(c.encode(w)) == Some(w)
  }

  function ToLe32(n: u32): seq<byte> {
    var n1 := n / 0x100;
    var n2 := n1 / 0x100;
    [n % 0x100, n1 % 0x100, n2 % 0x100, n2 / 0x100]
  }

  function FromLe32(b: seq<byte>): u32
    requires |b| == 4
  {
    var (b0: int, b1: int, b2: int, b3: int) := (b[0], b[1], b[2], b[3]);
    b0 + 0x100 * b1 + 0x1_0000 * b2 + 0x100_0000 * b3
  }

  lemma Le32RoundTrip(n: u32)
    ensures FromLe32(ToLe32(n)) == n
  {
  }

  const HEADER: nat := 8

  function Framed(c: Codec, payload: seq<byte>): seq<byte>
    requires |payload| < 0x1_0000_0000
  {
    ToLe32(|payload|) + ToLe32(c.crc(payload)) + payload
  }

  ghost function Frame(c: Codec, r: Record): (f: seq<byte>)
    requires Lawful(c)
    ensures |f| == HEADER + |c.encode(ToWire(r))|
  {
    Framed(c, c.encode(ToWire(r)))
  }

  ghost function EncodeLog(c: Codec, log: seq<Record>): seq<byte>
    requires Lawful(c)
    decreases |log|
  {
    if log == [] then [] else Frame(c, log[0]) + EncodeLog(c, log[1..])
  }

  /** The payload of an intact leading frame, if the bytes begin with one. */
  function IntactPayload(c: Codec, b: seq<byte>): (p: Option<seq<byte>>)
    ensures p.Some? ==> HEADER + |p.value| <= |b|
  {
    if |b| < HEADER then None
    else
      var plen := FromLe32(b[..4]);
      if HEADER + plen > |b| then None
      else
        var payload := b[HEADER..HEADER + plen];
        if c.crc(payload) != FromLe32(b[4..HEADER]) then None else Some(payload)
  }

  /** Apply frames to `s` in order until one is not intact; an intact one that does not decode is corruption. */
  function Scan(c: Codec, b: seq<byte>, s: State): Replayed
    decreases |b|
  {
    match IntactPayload(c, b)
    case None => Ok(s)
    case Some(payload) =>
      match c.decode(payload)
      case None => CorruptJournal
      case Some(w) =>
        match ApplyWire(s, w)
        case CorruptJournal => CorruptJournal
        case Ok(s') => Scan(c, b[HEADER + |payload|..], s')
  }

  lemma FrameIsIntact(c: Codec, payload: seq<byte>, rest: seq<byte>)
    requires |payload| < 0x1_0000_0000
    ensures IntactPayload(c, Framed(c, payload) + rest) == Some(payload)
    ensures (Framed(c, payload) + rest)[HEADER + |payload|..] == rest
  {
    var b := Framed(c, payload) + rest;
    assert b[..4] == ToLe32(|payload|);
    assert b[4..HEADER] == ToLe32(c.crc(payload));
    assert b[HEADER..HEADER + |payload|] == payload;
    Le32RoundTrip(|payload|);
    Le32RoundTrip(c.crc(payload));
  }

  /** A leading frame is consumed whole, whatever follows it. */
  lemma ScanFrame(c: Codec, r: Record, rest: seq<byte>, s: State)
    requires Lawful(c)
    ensures Representable(r) ==> Scan(c, Frame(c, r) + rest, s) == Scan(c, rest, Apply(s, r))
    ensures r.ObservedExit? && r.exit.runtime < 0 ==> Scan(c, Frame(c, r) + rest, s) == CorruptJournal
  {
    FrameIsIntact(c, c.encode(ToWire(r)), rest);
    WireRoundTrip(r);
  }

  lemma {:induction false} ScanLog(c: Codec, log: seq<Record>, rest: seq<byte>, s: State)
    requires Lawful(c) && AllRepresentable(log)
    ensures Scan(c, EncodeLog(c, log) + rest, s) == Scan(c, rest, Replay(s, log))
    decreases |log|
  {
    if log == [] {
      assert EncodeLog(c, log) + rest == rest;
    } else {
      var tail := EncodeLog(c, log[1..]) + rest;
      assert EncodeLog(c, log) + rest == Frame(c, log[0]) + tail;
      ScanFrame(c, log[0], tail, s);
      ScanLog(c, log[1..], rest, Apply(s, log[0]));
    }
  }

  lemma {:induction false} EncodeConcat(c: Codec, a: seq<Record>, b: seq<Record>)
    requires Lawful(c)
    ensures EncodeLog(c, a + b) == EncodeLog(c, a) + EncodeLog(c, b)
    decreases |a|
  {
    if a == [] {
      assert a + b == b;
    } else {
      assert (a + b)[0] == a[0] && (a + b)[1..] == a[1..] + b;
      EncodeConcat(c, a[1..], b);
    }
  }

  lemma EncodeOne(c: Codec, r: Record)
    requires Lawful(c)
    ensures EncodeLog(c, [r]) == Frame(c, r)
  {
    assert EncodeLog(c, [r][1..]) == [];
  }

  /** A frame cut anywhere strictly inside is not intact: the header is short, or promises more than follows. */
  lemma CutFrameIsTorn(c: Codec, r: Record, cut: nat)
    requires Lawful(c) && cut < |Frame(c, r)|
    ensures IntactPayload(c, Frame(c, r)[..cut]) == None
  {
    var payload := c.encode(ToWire(r));
    if cut >= HEADER {
      assert Frame(c, r)[..cut][..4] == ToLe32(|payload|);
      Le32RoundTrip(|payload|);
    }
  }

  /** Torn-tail exactness: uncut bytes replay every record; any cut inside the last frame drops only it. */
  lemma TornTailExact(c: Codec, log: seq<Record>, last: Record, cut: nat)
    requires Lawful(c) && AllRepresentable(log) && Representable(last) && cut < |Frame(c, last)|
    ensures Scan(c, EncodeLog(c, log) + Frame(c, last)[..cut], EMPTY) == Ok(Replay(EMPTY, log))
    ensures Scan(c, EncodeLog(c, log) + Frame(c, last), EMPTY) == Ok(Apply(Replay(EMPTY, log), last))
  {
    ScanLog(c, log, Frame(c, last)[..cut], EMPTY);
    CutFrameIsTorn(c, last, cut);
    ScanLog(c, log, Frame(c, last), EMPTY);
    assert Frame(c, last) + [] == Frame(c, last);
    ScanFrame(c, last, [], Replay(EMPTY, log));
  }

  /** A tail whose first frame is short or fails its checksum ends the scan, however it continues. */
  lemma GarbageTailIsDropped(c: Codec, log: seq<Record>, tail: seq<byte>)
    requires Lawful(c) && AllRepresentable(log) && IntactPayload(c, tail) == None
    ensures Scan(c, EncodeLog(c, log) + tail, EMPTY) == Ok(Replay(EMPTY, log))
  {
    ScanLog(c, log, tail, EMPTY);
  }

  /** The bytes of a session that went on appending after an append stopped short at `cut`. */
  ghost function BehindTornFrame(c: Codec, last: Record, cut: nat, later: seq<Record>): seq<byte>
    requires Lawful(c) && cut <= |Frame(c, last)|
  {
    Frame(c, last)[..cut] + EncodeLog(c, later)
  }

  /**
   * A session that goes on after a failed append loses what it writes next: unless the failed append left
   * no byte at all, every later record lies behind a frame that is not intact, by its length or by its
   * checksum, and the next open drops them all, though each was fsynced and acted on.
   */
  lemma AppendsBehindATornFrame(c: Codec, log: seq<Record>, last: Record, cut: nat, later: seq<Record>)
    requires Lawful(c) && AllRepresentable(log) && AllRepresentable(later) && cut < |Frame(c, last)|
    ensures cut == 0 ==>
              Scan(c, EncodeLog(c, log) + BehindTornFrame(c, last, cut, later), EMPTY) == Ok(Replay(EMPTY, log + later))
    ensures IntactPayload(c, BehindTornFrame(c, last, cut, later)) == None ==>
              Scan(c, EncodeLog(c, log) + BehindTornFrame(c, last, cut, later), EMPTY) == Ok(Replay(EMPTY, log))
  {
    var tail := BehindTornFrame(c, last, cut, later);
    if cut == 0 {
      assert tail == EncodeLog(c, later);
      EncodeConcat(c, log, later);
      CleanScans(c, EncodeLog(c, log + later), Replay(EMPTY, log + later));
    }
    if IntactPayload(c, tail) == None { GarbageTailIsDropped(c, log, tail); }
  }

  // ---- the three facts the rest of the agent rests on ----

  /** `disk` is exactly the frames of some records whose replay is `s`. */
  ghost predicate Clean(c: Codec, disk: seq<byte>, s: State)
    requires Lawful(c)
  {
    exists log: seq<Record> ::
      AllRepresentable(log) && disk == EncodeLog(c, log) && Replay(EMPTY, log) == s
  }

  lemma CleanScans(c: Codec, disk: seq<byte>, s: State)
    requires Lawful(c) && Clean(c, disk, s)
    ensures Scan(c, disk, EMPTY) == Ok(s)
  {
    var log: seq<Record> :| AllRepresentable(log) && disk == EncodeLog(c, log) && Replay(EMPTY, log) == s;
    assert disk + [] == disk;
    ScanLog(c, log, [], EMPTY);
  }

  lemma CleanAppend(c: Codec, disk: seq<byte>, s: State, r: Record)
    requires Lawful(c) && Clean(c, disk, s) && Representable(r)
    ensures Clean(c, disk + Frame(c, r), Apply(s, r))
  {
    var log: seq<Record> :| AllRepresentable(log) && disk == EncodeLog(c, log) && Replay(EMPTY, log) == s;
    EncodeConcat(c, log, [r]);
    EncodeOne(c, r);
    ReplayConcat(EMPTY, log, [r]);
    assert Replay(s, [r]) == Replay(Apply(s, r), [r][1..]);
    var longer := log + [r];
    assert AllRepresentable(longer);
    assert disk + Frame(c, r) == EncodeLog(c, longer);
  }

  lemma TornAppendScans(c: Codec, disk: seq<byte>, s: State, r: Record, cut: nat)
    requires Lawful(c) && Clean(c, disk, s) && Representable(r) && cut < |Frame(c, r)|
    ensures Scan(c, disk + Frame(c, r)[..cut], EMPTY) == Ok(s)
  {
    var log: seq<Record> :| AllRepresentable(log) && disk == EncodeLog(c, log) && Replay(EMPTY, log) == s;
    TornTailExact(c, log, r, cut);
  }

  /** Whatever bytes a scan accepts, the state it yields is well formed. */
  lemma {:induction false} ScanWellFormed(c: Codec, b: seq<byte>, s: State)
    requires WellFormed(s)
    ensures Scan(c, b, s).Ok? ==> WellFormed(Scan(c, b, s).state)
    decreases |b|
  {
    var p := IntactPayload(c, b);
    if p.Some? && c.decode(p.value).Some? {
      var w := c.decode(p.value).value;
      match FromWire(w)
      case Corrupt =>
      case Nothing => ScanWellFormed(c, b[HEADER + |p.value|..], s);
      case Decoded(r) =>
        DecodedIsRepresentable(w);
        ApplyWellFormed(s, r);
        ScanWellFormed(c, b[HEADER + |p.value|..], Apply(s, r));
    }
  }

  /**
   * Opening any file, torn or not, and opening the compacted rewrite give the same state: a crash
   * during recovery leaves either file, and either one recovers alike.
   */
  lemma RecoveryIsIdempotent(c: Codec, b: seq<byte>)
    requires Lawful(c)
    ensures var r := Scan(c, b, EMPTY);
            r.Ok? ==> Scan(c, EncodeLog(c, Canonical(r.state)), EMPTY) == r
  {
    ScanWellFormed(c, b, EMPTY);
    var r := Scan(c, b, EMPTY);
    if r.Ok? { CompactedIsClean(c, r.state); }
  }

  /** The compacted file is clean: it holds exactly the state it was written from. */
  lemma CompactedIsClean(c: Codec, s: State)
    requires Lawful(c) && WellFormed(s)
    ensures Clean(c, EncodeLog(c, Canonical(s)), s)
    ensures Scan(c, EncodeLog(c, Canonical(s)), EMPTY) == Ok(s)
  {
    CanonicalReplays(s);
    CleanScans(c, EncodeLog(c, Canonical(s)), s);
  }

  /** Compacting first changes nothing: any records appended afterwards recover to the same state. */
  lemma CompactionCommutesWithAppends(c: Codec, log: seq<Record>, suffix: seq<Record>)
    requires Lawful(c) && AllRepresentable(log) && AllRepresentable(suffix)
    ensures var compacted := EncodeLog(c, Canonical(Replay(EMPTY, log)));
            && Scan(c, compacted + EncodeLog(c, suffix), EMPTY) ==
                 Scan(c, EncodeLog(c, log) + EncodeLog(c, suffix), EMPTY)
            && Scan(c, compacted + EncodeLog(c, suffix), EMPTY) == Ok(Replay(Replay(EMPTY, log), suffix))
  {
    var s := Replay(EMPTY, log);
    ReplayWellFormed(EMPTY, log);
    CanonicalReplays(s);
    assert EncodeLog(c, suffix) + [] == EncodeLog(c, suffix);
    ScanLog(c, Canonical(s), EncodeLog(c, suffix), EMPTY);
    ScanLog(c, log, EncodeLog(c, suffix), EMPTY);
    ScanLog(c, suffix, [], s);
  }

  /**
   * An exit whose runtime is negative cannot be read back: the appended journal opens if and only
   * if the runtime is non-negative.
   */
  lemma ExitReopensIffRuntimeNonNegative(c: Codec, disk: seq<byte>, s: State, e: Exit)
    requires Lawful(c) && Clean(c, disk, s)
    ensures Scan(c, disk + Frame(c, ObservedExit(e)), EMPTY) ==
            if e.runtime >= 0 then Ok(Apply(s, ObservedExit(e))) else CorruptJournal
  {
    var log: seq<Record> :| AllRepresentable(log) && disk == EncodeLog(c, log) && Replay(EMPTY, log) == s;
    ScanLog(c, log, Frame(c, ObservedExit(e)), EMPTY);
    assert Frame(c, ObservedExit(e)) + [] == Frame(c, ObservedExit(e));
    ScanFrame(c, ObservedExit(e), [], s);
  }
}
