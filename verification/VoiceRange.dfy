/** Every number that the voice path writes to a payload fits its field. */
module VoiceRange {
  import opened Bytes
  import opened Options
  import opened HostAudio
  import opened Voice
  import opened AudioWire

  /** A record whose octets say what the record says.  The totals of an END are the subject of
      the conservation proof. */
  predicate Storable(r: Record)
  {
    match r
    case Ended(e) => e.endedUs <= U64_MAX
    case _ => RecordFits(r)
  }

  predicate AllStorable(q: seq<Queued>)
  {
    forall i :: 0 <= i < |q| ==> Storable(q[i].record)
  }

  predicate Written(rs: seq<Record>)
  {
    forall i :: 0 <= i < |rs| ==> Storable(rs[i])
  }

  predicate Counters(s: State)
  {
    && s.nextStreamId <= U32_MAX && s.pipe.streamId <= U32_MAX
    && s.source.units <= U32_MAX && s.source.epoch <= U32_MAX && s.source.samples <= U64_MAX
    && s.progress.frameSeq <= U32_MAX && s.progress.offset <= U32_MAX
  }

  predicate Ranged(s: State)
  {
    Counters(s) && AllStorable(s.pipe.media) && Written(s.pipe.committed)
  }

  // ----- flushing and queueing -----

  lemma CommitRanged(s: State)
    requires Ranged(s) && s.pipe.media != []
    ensures Ranged(CommitOne(s))
  {
  }

  lemma {:induction false} CommitSomeRanged(s: State, n: nat)
    requires Ranged(s)
    ensures Ranged(CommitSome(s, n))
    decreases n
  {
    if n > 0 && s.pipe.media != [] {
      CommitRanged(s);
      CommitSomeRanged(CommitOne(s), n - 1);
    }
  }

  lemma FlushRanged(s: State, f: Flush)
    requires Ranged(s)
    ensures Ranged(FlushOutput(s, f))
  {
    CommitSomeRanged(s, f.count);
  }

  lemma EnqueueRanged(c: Config, s: State, r: Record, f: Flush)
    requires Ranged(s) && Storable(r)
    ensures Ranged(Enqueue(c, s, r, f).s)
  {
    FlushRanged(s, f);
  }

  lemma {:induction false} KeptStorable(q: seq<Queued>, id: nat)
    requires AllStorable(q)
    ensures AllStorable(Kept(q, id))
  {
    if q != [] {
      KeptStorable(q[1..], id);
    }
  }

  // ----- ending -----

  lemma CutRanged(c: Config, s: State, reason: nat, f: Flush)
    requires Ranged(s)
    ensures Ranged(CutStream(c, s, reason, f))
  {
    KeptStorable(s.pipe.media, s.pipe.streamId);
    EnqueueRanged(c, s.(pipe := Discarded(s.pipe)), EndRecord(s, reason, s.pipe.delivered), f);
  }

  lemma FinishRanged(c: Config, s: State, reason: nat, clear: bool, f: Flush)
    requires Ranged(s)
    ensures Ranged(FinishStream(c, s, reason, clear, f))
  {
    if clear {
      CutRanged(c, s, reason, f);
    } else if s.progress.offset != 0 {
      CutRanged(c, s, END_INVALID_ENCODED_DATA, f);
    } else {
      EnqueueRanged(c, s, EndRecord(s, reason, s.source), f);
    }
  }

  lemma FaultRanged(c: Config, s: State, reason: nat, f: Flush)
    requires Ranged(s)
    ensures Ranged(Fault(c, s, reason, f))
  {
    FinishRanged(c, s, reason, true, f);
  }

  // ----- formats -----

  lemma FormatStorable(c: Config, s: State, f: SourceFormat, epoch: nat, start: bool)
    requires s.pipe.streamId <= U32_MAX && s.source.samples <= U64_MAX && Accepted(c, s, f) && epoch <= U32_MAX && c.Valid()
    ensures FormatFits(FormatOf(s, f, epoch, start))
  {
  }

  lemma QueueFormatRanged(c: Config, s: State, f: SourceFormat, start: bool, o: Oracle)
    requires Ranged(s) && c.Valid()
    ensures Ranged(QueueFormat(c, s, f, start, o).s)
  {
    if !Accepted(c, s, f) {
      FaultRanged(c, s, END_UNSUPPORTED_FORMAT, o(0));
    } else if s.progress.offset != 0 || s.source.epoch == U32_MAX {
      FaultRanged(c, s, END_SOURCE_DATA_LOST, o(0));
    } else {
      var epoch := if start then 1 else s.source.epoch + 1;
      var fmt := FormatOf(s, f, epoch, start);
      FormatStorable(c, s, f, epoch, start);
      EnqueueRanged(c, s, if start then Started(fmt) else Reformat(fmt), o(0));
    }
  }

  lemma StartRanged(c: Config, s: State, f: SourceFormat, o: Oracle)
    requires Ranged(s) && c.Valid()
    ensures Ranged(OnStart(c, s, f, o))
  {
    FaultRanged(c, s, END_INVALID_ENCODED_DATA, o(1));
    FinishRanged(c, s, END_BUFFER_OVERRUN, true, o(2));
    var s1 := if s.delivering then FinishStream(c, s, END_BUFFER_OVERRUN, true, o(2)) else s;
    FaultRanged(c, s1, END_UNSUPPORTED_FORMAT, o(3));
    if s1.nextStreamId < U32_MAX {
      QueueFormatRanged(c, Opened(s1), f, true, o);
      FaultRanged(c, Closed(QueueFormat(c, Opened(s1), f, true, o).s), END_BUFFER_OVERRUN, o(4));
    }
  }

  lemma FormatEventRanged(c: Config, s: State, f: SourceFormat, o: Oracle)
    requires Ranged(s) && c.Valid()
    ensures Ranged(OnFormatEvent(c, s, f, o))
  {
    QueueFormatRanged(c, s, f, false, o);
    FaultRanged(c, QueueFormat(c, s, f, false, o).s, END_BUFFER_OVERRUN, o(1));
  }

  // ----- encoded data -----

  /** What is left of the unit part still fits the unit, and the unit has a number. */
  predicate Fitting(s: State, e: Encoded, bytes: seq<byte>)
  {
    bytes != [] && s.delivering ==> s.progress.offset + |bytes| <= e.unitSize && s.source.units < U32_MAX
  }

  lemma FragmentStorable(s: State, e: Encoded, bytes: seq<byte>)
    requires s.pipe.streamId <= U32_MAX && s.source.samples <= U64_MAX && s.source.epoch <= U32_MAX
    requires s.progress.frameSeq < U32_MAX && s.source.units < U32_MAX
    requires 1 <= |bytes| <= FRAGMENT && s.progress.offset + |bytes| <= e.unitSize
    ensures Storable(FragmentOf(s, e, bytes))
  {
  }

  /** Flushing and queueing leave the source where it was. */
  lemma EnqueueKeeps(c: Config, s: State, r: Record, f: Flush)
    ensures var t := Enqueue(c, s, r, f).s;
      t.source == s.source && t.progress == s.progress && t.nextStreamId == s.nextStreamId && t.gate.nowUs == s.gate.nowUs
  {
    CommitKeeps(s, f.count);
  }

  lemma {:induction false} CommitKeeps(s: State, n: nat)
    ensures var t := CommitSome(s, n);
      t.source == s.source && t.progress == s.progress && t.nextStreamId == s.nextStreamId && t.gate == s.gate && t.active == s.active
    decreases n
  {
    if n > 0 && s.pipe.media != [] {
      CommitKeeps(CommitOne(s), n - 1);
    }
  }

  lemma {:induction false} FragmentsRanged(c: Config, s: State, e: Encoded, bytes: seq<byte>, o: Oracle, k: nat)
    requires Ranged(s) && Fitting(s, e, bytes)
    ensures Ranged(Fragments(c, s, e, bytes, o, k))
    decreases |bytes|
  {
    if bytes != [] && s.delivering {
      if s.progress.frameSeq == U32_MAX {
        FaultRanged(c, s, END_INVALID_ENCODED_DATA, o(k));
      } else {
        var take := if |bytes| > FRAGMENT then FRAGMENT else |bytes|;
        var r := FragmentOf(s, e, bytes[..take]);
        FragmentStorable(s, e, bytes[..take]);
        EnqueueRanged(c, s, r, o(k));
        EnqueueKeeps(c, s, r, o(k));
        var t := Enqueue(c, s, r, o(k));
        if t.ok {
          FragmentsRanged(c, Counted(t.s, e, take), e, bytes[take..], o, k + 1);
        } else {
          FaultRanged(c, t.s, END_BUFFER_OVERRUN, o(k + 1));
        }
      }
    }
  }

  lemma EncodedRanged(c: Config, s: State, e: Encoded, o: Oracle)
    requires Ranged(s)
    ensures Ranged(OnEncoded(c, s, e, o))
  {
    FaultRanged(c, s, END_UNSUPPORTED_FORMAT, o(0));
    FaultRanged(c, s, END_INVALID_ENCODED_DATA, o(0));
    var s1 := s.(progress := s.progress.(unitSize := e.unitSize, unitSamples := e.samples));
    if Fitting(s1, e, e.data) {
      FragmentsRanged(c, s1, e, e.data, o, 0);
    }
  }

  // ----- every event -----

  lemma StepRanged(c: Config, s: State, ev: Event, o: Oracle)
    requires Ranged(s) && c.Valid() && Proper(s, ev)
    ensures Ranged(Step(c, s, ev, o))
  {
    match ev
    case Start(f) => StartRanged(c, s, f, o);
    case Reformatted(f) => FormatEventRanged(c, s, f, o);
    case EncodedData(e) => EncodedRanged(c, s, e, o);
    case Faulted(reason) => FaultRanged(c, s, reason, o(0));
    case SourceEnd(reason) => SourceEndRanged(c, s, reason, o);
    case Abort(reason) => FinishRanged(c, s, reason, true, o(0));
    case LinkGone => FinishRanged(c, s, END_LINK_LOST, true, o(0));
    case Disable => FinishRanged(c, s.(gate := GateStep(s, ev)), END_CONSUMER_DISABLED, true, o(0));
    case Flushed(f) => FlushRanged(s, f);
    case SessionLost =>
    case _ =>
  }

  lemma SourceEndRanged(c: Config, s: State, reason: nat, o: Oracle)
    requires Ranged(s)
    ensures Ranged(OnSourceEnd(c, s, reason, o))
  {
    var s1 := s.(gate := s.gate.(sourceActive := false, waitingIdle := false));
    var why := EndReason(s.gate, reason);
    FinishRanged(c, s1, why, !DrainReason(why), o(0));
  }
}
