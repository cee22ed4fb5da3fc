/** The journal's protobuf records and their conversion into domain records, with every corrupt case. */
module Wire {
  import opened Types
  import opened JournalState

  /** A required message field as decoded: absent, present but not convertible, or converted. */
  datatype Field<+T> = Missing | Malformed | Present(value: T)

  datatype WireTombstone = NoReason | AbortReason | PreemptedFor(reason: Field<PreemptReason>)

  datatype WireRecord =
    | NoBody
    | FencingUpdate(leaderTerm: u64, nodeEpoch: u64)
    | IntentUpdate(allocation: Field<AllocationId>, attempt: Field<AttemptId>, job: Field<JobId>,
                   nodeEpoch: u64, maxRuntimeUs: Option<u64>, noticeSignal: i32,
                   noticeUs: u64, abortGraceUs: u64, cleanupMarginUs: u64)
    | TombstoneUpdate(allocation: Field<AllocationId>, tombstone: WireTombstone)
    | ExitUpdate(allocation: Field<AllocationId>, attempt: Field<AttemptId>, job: Field<JobId>,
                 outcome: Field<Outcome>, runtimeUs: u64)
    | NoticeIntentUpdate(allocation: Field<AllocationId>, reason: Field<PreemptReason>)
    | NoticeMarkUpdate(allocation: Field<AllocationId>, stopAtUs: i64, shortfallUs: u64, notifiedAtUs: i64)
    | DrainPlanUpdate(operatorDeadlineUs: Option<i64>, noticeWindowUs: u64, interruptionDeadlineUs: Option<i64>)

  // ---- encoding ----

  /** A span on the wire: unsigned, so a negative span is clipped to zero. */
  function ClippedSpan(d: Duration): u64 { if d < 0 then 0 else d }

  /** A signed value reinterpreted as unsigned: a negative one wraps past the signed range. */
  function WrappedSpan(d: Duration): u64 { if d < 0 then d + 0x1_0000_0000_0000_0000 else d }

  function SignalNumber(s: NoticeSignal): i32 {
    match s
    case Sighup => 1
    case Sigint => 2
    case Sigusr1 => 3
    case Sigusr2 => 4
    case Sigterm => 5
  }

  function MapSpan(d: Option<Duration>): Option<u64> {
    if d.None? then None else Some(ClippedSpan(d.value))
  }

  function ToWire(r: Record): WireRecord {
    match r
    case Fencing(w) => FencingUpdate(w.leaderTerm, w.nodeEpoch)
    case StartIntent(i) =>
      IntentUpdate(Present(i.allocation), Present(i.attempt), Present(i.job), i.nodeEpoch, MapSpan(i.maxRuntime),
                   SignalNumber(i.noticeSignal), ClippedSpan(i.notice), ClippedSpan(i.abortGrace),
                   ClippedSpan(i.cleanupMargin))
    case Tombstone(a, Abort) => TombstoneUpdate(Present(a), AbortReason)
    case Tombstone(a, Preempt(reason)) => TombstoneUpdate(Present(a), PreemptedFor(Present(reason)))
    case ObservedExit(e) =>
      ExitUpdate(Present(e.allocation), Present(e.attempt), Present(e.job), Present(e.outcome), WrappedSpan(e.runtime))
    case NoticeIntent(a, reason) => NoticeIntentUpdate(Present(a), Present(reason))
    case NoticeMark(a, m) => NoticeMarkUpdate(Present(a), m.stopAt, ClippedSpan(m.shortfall), m.notifiedAt)
    case DrainPlan(p) =>
      DrainPlanUpdate(
        if p.operator.None? then None else Some(p.operator.value.deadline),
        if p.operator.None? then 0 else ClippedSpan(p.operator.value.noticeWindow),
        if p.interruption.None? then None else Some(p.interruption.value))
  }

  // ---- decoding ----

  function TryDuration(us: u64): Option<Duration> { if us <= I64_MAX then Some(us) else None }

  function SignalFromNumber(n: i32): Option<NoticeSignal> {
    if n == 1 then Some(Sighup)
    else if n == 2 then Some(Sigint)
    else if n == 3 then Some(Sigusr1)
    else if n == 4 then Some(Sigusr2)
    else if n == 5 then Some(Sigterm)
    else None
  }

  /** The plan a DrainPlan record names, or nothing if an instant or the window is out of range. */
  function TryPlan(w: WireRecord): Option<Plan>
    requires w.DrainPlanUpdate?
  {
    var deadline := if w.operatorDeadlineUs.None? then None else FromMicros(w.operatorDeadlineUs.value);
    var window := TryDuration(w.noticeWindowUs);
    var interruption := if w.interruptionDeadlineUs.None? then None else FromMicros(w.interruptionDeadlineUs.value);
    if w.operatorDeadlineUs.Some? && (deadline.None? || window.None?) then None
    else if w.interruptionDeadlineUs.Some? && interruption.None? then None
    else Some(Plan(if w.operatorDeadlineUs.None? then None else Some(OperatorDrain(deadline.value, window.value)),
                   interruption))
  }

  datatype Decoded = Nothing | Corrupt | Decoded(record: Record)

  /** The domain record a CRC-valid wire record stands for; anything a writer never produces is corruption. */
  function FromWire(w: WireRecord): Decoded {
    match w
    case NoBody => Nothing
    case FencingUpdate(term, epoch) => Decoded(Fencing(Watermark(term, epoch)))
    case IntentUpdate(Present(a), Present(at), Present(j), epoch, max, sig, n, g, m) =>
      var signal := SignalFromNumber(sig);
      if signal.None? || TryDuration(n).None? || TryDuration(g).None? || TryDuration(m).None? then Corrupt
      else Decoded(StartIntent(Intent(
        a, at, j, epoch, if max.None? then None else Some(RuntimeBound(max.value)), signal.value,
        TryDuration(n).value, TryDuration(g).value, TryDuration(m).value)))
    case TombstoneUpdate(Present(a), AbortReason) => Decoded(Tombstone(a, Abort))
    case TombstoneUpdate(Present(a), PreemptedFor(Present(reason))) => Decoded(Tombstone(a, Preempt(reason)))
    case ExitUpdate(Present(a), Present(at), Present(j), Present(o), us) =>
      if TryDuration(us).None? then Corrupt
      else Decoded(ObservedExit(Exit(a, at, j, o, TryDuration(us).value)))
    case NoticeIntentUpdate(Present(a), Present(reason)) => Decoded(NoticeIntent(a, reason))
    case NoticeMarkUpdate(Present(a), stop, short, notified) =>
      if FromMicros(stop).None? || TryDuration(short).None? || FromMicros(notified).None? then Corrupt
      else Decoded(NoticeMark(a, Mark(FromMicros(stop).value, TryDuration(short).value, FromMicros(notified).value)))
    case DrainPlanUpdate(_, _, _) =>
      var p := TryPlan(w);
      if p.None? then Corrupt else Decoded(DrainPlan(p.value))
    case _ => Corrupt
  }

  datatype Replayed = Ok(state: State) | CorruptJournal

  function ApplyWire(s: State, w: WireRecord): Replayed {
    match FromWire(w)
    case Nothing => Ok(s)
    case Corrupt => CorruptJournal
    case Decoded(r) => Ok(Apply(s, r))
  }

  /** A record as it comes back from the wire: negative spans clipped to zero. */
  function Clip(d: Duration): Duration { if d < 0 then 0 else d }

  function Clipped(r: Record): Record {
    match r
    case StartIntent(i) =>
      StartIntent(i.(maxRuntime := if i.maxRuntime.None? then None else Some(Clip(i.maxRuntime.value)),
                     notice := Clip(i.notice), abortGrace := Clip(i.abortGrace),
                     cleanupMargin := Clip(i.cleanupMargin)))
    case NoticeMark(a, m) => NoticeMark(a, m.(shortfall := Clip(m.shortfall)))
    case DrainPlan(p) =>
      if p.operator.None? then r
      else DrainPlan(p.(operator := Some(p.operator.value.(noticeWindow := Clip(p.operator.value.noticeWindow)))))
    case _ => r
  }

  /**
   * What encoding and decoding a record does, exactly: an exit with a negative runtime wraps
   * and comes back as corruption, every other record comes back with its negative spans clipped.
   */
  lemma WireRoundTrip(r: Record)
    ensures FromWire(ToWire(r)) == if r.ObservedExit? && r.exit.runtime < 0 then Corrupt else Decoded(Clipped(r))
    ensures FromWire(ToWire(r)) == Decoded(r) <==> Representable(r)
  {
    if r.Tombstone? {
      match r.tombstone
      case Abort =>
      case Preempt(_) =>
    }
  }

  /** Only representable records come off the wire. */
  lemma DecodedIsRepresentable(w: WireRecord)
    ensures FromWire(w).Decoded? ==> Representable(FromWire(w).record)
  {
  }
}
