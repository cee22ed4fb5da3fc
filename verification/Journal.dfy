/** The journal file itself: scanned and compacted on open, appended to while the agent runs. */
module Journal {
  import opened Types
  import opened JournalState
  import opened Wire
  import opened Framing

  /** The loop behind `Scan`, moving an offset instead of slicing. */
  method ScanFrames(c: Codec, file: seq<byte>) returns (r: Replayed)
    ensures r == Scan(c, file, EMPTY)
  {
    var len := |file|;
    var off := 0;
    var state := EMPTY;
    assert file[0..] == file;
    while true
      invariant 0 <= off <= len
      invariant Scan(c, file, EMPTY) == Scan(c, file[off..], state)
      decreases len - off
    {
      if off + HEADER > len { break; }
      assert file[off..][..4] == file[off..off + 4];
      assert file[off..][4..HEADER] == file[off + 4..off + HEADER];
      var plen := FromLe32(file[off..off + 4]);
      var crc := FromLe32(file[off + 4..off + HEADER]);
      if off + HEADER + plen > len { break; }
      var payload := file[off + HEADER..off + HEADER + plen];
      assert file[off..][HEADER..HEADER + plen] == payload;
      if c.crc(payload) != crc { break; }
      var rec := c.decode(payload);
      if rec.None? { return CorruptJournal; }
      var applied := ApplyWire(state, rec.value);
      if applied.CorruptJournal? { return CorruptJournal; }
      state := applied.state;
      assert file[off..][HEADER + plen..] == file[off + HEADER + plen..];
      off := off + HEADER + plen;
    }
    r := Ok(state);
  }

  method EncodeFrame(c: Codec, rec: Record) returns (frame: seq<byte>)
    requires Lawful(c)
    ensures frame == Frame(c, rec)
  {
    hide ToLe32;
    var payload := c.encode(ToWire(rec));
    assert |payload| % 0x1_0000_0000 == |payload|;
    frame := ToLe32(|payload| % 0x1_0000_0000) + ToLe32(c.crc(payload)) + payload;
  }

  method EncodeRecords(c: Codec, records: seq<Record>) returns (out: seq<byte>)
    requires Lawful(c)
    ensures out == EncodeLog(c, records)
  {
    out := [];
    for i := 0 to |records|
      invariant EncodeLog(c, records) == out + EncodeLog(c, records[i..])
    {
      var frame := EncodeFrame(c, records[i]);
      assert records[i..][1..] == records[i + 1..];
      out := out + frame;
    }
  }

  lemma SectionStep(s: State, t: Table, ks: seq<AllocationId>, i: nat)
    requires i < |ks| && forall k :: k in ks ==> k in Keys(s, t)
    ensures Section(s, t, ks[i..]) == [Row(s, t, ks[i])] + Section(s, t, ks[i + 1..])
  {
    assert ks[i..][1..] == ks[i + 1..];
  }

  lemma PushOne(done: seq<Record>, r: Record, rest: seq<Record>)
    ensures done + ([r] + rest) == (done + [r]) + rest
  {
  }

  /** One table's records, pushed in key order. */
  method PushSection(records: seq<Record>, s: State, t: Table) returns (out: seq<Record>)
    ensures out == records + WholeSection(s, t)
  {
    var ks := Ascending(Keys(s, t));
    ghost var whole := records + WholeSection(s, t);
    out := records;
    assert ks[0..] == ks;
    for i := 0 to |ks|
      invariant whole == out + Section(s, t, ks[i..])
    {
      SectionStep(s, t, ks, i);
      PushOne(out, Row(s, t, ks[i]), Section(s, t, ks[i + 1..]));
      out := out + [Row(s, t, ks[i])];
    }
    assert Section(s, t, ks[|ks|..]) == [];
  }

  lemma SectionsAssociate(f: seq<Record>, i: seq<Record>, t: seq<Record>, n: seq<Record>,
                          m: seq<Record>, p: seq<Record>, e: seq<Record>)
    ensures (((((f + i) + t) + n) + m) + p) + e == f + (i + (t + (n + (m + (p + e)))))
  {
  }

  method CanonicalRecords(s: State) returns (records: seq<Record>)
    ensures records == Canonical(s)
  {
    records := [Fencing(s.watermark)];
    records := PushSection(records, s, Intents);
    records := PushSection(records, s, Tombstones);
    records := PushSection(records, s, NoticeIntents);
    records := PushSection(records, s, Marks);
    ghost var upToMarks := records;
    if s.plan.operator.Some? || s.plan.interruption.Some? {
      records := records + [DrainPlan(s.plan)];
    }
    assert records == upToMarks + PlanSection(s);
    records := PushSection(records, s, Exits);
    SectionsAssociate([Fencing(s.watermark)], WholeSection(s, Intents), WholeSection(s, Tombstones),
                      WholeSection(s, NoticeIntents), WholeSection(s, Marks), PlanSection(s), WholeSection(s, Exits));
  }

  class File {
    const codec: Codec
    /** The bytes on disk. */
    var bytes: seq<byte>

    constructor (codec: Codec, bytes: seq<byte>)
      ensures this.codec == codec && this.bytes == bytes
    {
      this.codec := codec;
      this.bytes := bytes;
    }

    /** Append one record's frame and fsync. */
    method Append(rec: Record)
      requires Lawful(codec)
      modifies this
      ensures bytes == old(bytes) + Frame(codec, rec)
    {
      var frame := EncodeFrame(codec, rec);
      bytes := bytes + frame;
    }
  }

  /** Open the journal: scan whatever is there, rewrite the live set, hand back an appendable file. */
  method OpenLocked(c: Codec, existing: Option<seq<byte>>) returns (journal: File?, recovered: Replayed)
    requires Lawful(c)
    ensures recovered == if existing.None? then Ok(EMPTY) else Scan(c, existing.value, EMPTY)
    ensures journal == null <==> recovered == CorruptJournal
    ensures recovered.Ok? ==>
              && fresh(journal) && journal.codec == c
              && journal.bytes == EncodeLog(c, Canonical(recovered.state))
              && Clean(c, journal.bytes, recovered.state)
              && WellFormed(recovered.state)
  {
    recovered := Ok(EMPTY);
    if existing.Some? {
      recovered := ScanFrames(c, existing.value);
      ScanWellFormed(c, existing.value, EMPTY);
    }
    if recovered.CorruptJournal? {
      return null, recovered;
    }
    var records := CanonicalRecords(recovered.state);
    var bytes := EncodeRecords(c, records);
    CompactedIsClean(c, recovered.state);
    journal := new File(c, bytes);
  }
}
