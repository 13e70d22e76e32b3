/** The voice half of the server object, field by field and in place: counters beside the media
    rings, against the transitions of module Voice. */
module VoiceServer {
  import opened Bytes
  import opened Options
  import opened HostAudio
  import opened Voice
  import opened AudioWire
  import opened VoiceRange
  import VoiceMedia

  /** The payloads of records, in order. */
  function Payloads(rs: seq<Record>): (ps: seq<seq<byte>>)
    ensures |ps| == |rs|
  {
    if rs == [] then [] else Payloads(rs[..|rs| - 1]) + [Payload(rs[|rs| - 1])]
  }

  lemma PayloadsSnoc(rs: seq<Record>, r: Record)
    ensures Payloads(rs + [r]) == Payloads(rs) + [Payload(r)]
  {
    assert (rs + [r])[..|rs|] == rs;
  }

  /** The counters and flags of `media_flush_one` for the head record. */
  function Credited(s: State): State
    requires s.pipe.media != []
  {
    var m := s.pipe.media[0];
    if m.stream != s.pipe.streamId then s
    else if m.record.Ended? then s.(delivering := false, ending := false, pipe := s.pipe.(streamId := 0))
    else s.(pipe := s.pipe.(delivered := Delivered(s.pipe.delivered, m.record)))
  }

  /** The head record has left the queue. */
  function Left(s: State): State
    requires s.pipe.media != []
  {
    s.(pipe := s.pipe.(media := s.pipe.media[1..], committed := s.pipe.committed + [s.pipe.media[0].record]))
  }

  /** States reached by committing one record at a time. */
  ghost predicate Trail(t: seq<State>)
  {
    t != [] && forall i :: 0 <= i < |t| - 1 ==> t[i].pipe.media != [] && t[i + 1] == CommitOne(t[i])
  }

  lemma TrailGrows(t: seq<State>, s: State)
    requires Trail(t) && t[|t| - 1].pipe.media != [] && s == CommitOne(t[|t| - 1])
    ensures Trail(t + [s])
  {
  }

  lemma {:induction false} TrailCommits(t: seq<State>, n: nat)
    requires Trail(t) && |t| <= n + 1 && (|t| < n + 1 ==> t[|t| - 1].pipe.media == [])
    ensures CommitSome(t[0], n) == t[|t| - 1]
    decreases n
  {
    if |t| > 1 {
      assert t[1..][0] == t[1] == CommitOne(t[0]);
      TrailCommits(t[1..], n - 1);
    }
  }

  lemma CommitInTwo(s: State)
    requires s.pipe.media != []
    ensures CommitOne(s) == Left(Credited(s))
  {
  }

  lemma FormatRefused(c: Config, s: State, f: SourceFormat, start: bool, o: Oracle)
    requires !Accepted(c, s, f) || s.progress.offset != 0 || s.source.epoch == U32_MAX
    ensures QueueFormat(c, s, f, start, o)
         == Try(Fault(c, s, if Accepted(c, s, f) then END_SOURCE_DATA_LOST else END_UNSUPPORTED_FORMAT, o(0)), false)
  {
  }

  lemma FormatTaken(c: Config, s: State, f: SourceFormat, start: bool, o: Oracle)
    requires Accepted(c, s, f) && s.progress.offset == 0 && s.source.epoch != U32_MAX
    ensures QueueFormat(c, s, f, start, o) == FormatTry(c, s, f, start, o(0))
  {
  }

  /** One fragment queued and counted. */
  function FragmentTry(c: Config, s: State, e: Encoded, part: seq<byte>, f: Flush): Try
  {
    var t := Enqueue(c, s, FragmentOf(s, e, part), f);
    if t.ok then Try(Counted(t.s, e, |part|), true) else t
  }

  /** One turn of the fragment loop. */
  lemma FragmentsTurn(c: Config, s: State, e: Encoded, bytes: seq<byte>, o: Oracle, k: nat)
    requires bytes != [] && s.delivering && Fitting(s, e, bytes)
    ensures var take := if |bytes| > FRAGMENT then FRAGMENT else |bytes|;
            var t := FragmentTry(c, s, e, bytes[..take], o(k));
            && Fragments(c, s, e, bytes, o, k)
               == (if s.progress.frameSeq == U32_MAX then Fault(c, s, END_INVALID_ENCODED_DATA, o(k))
                   else if !t.ok then Fault(c, t.s, END_BUFFER_OVERRUN, o(k + 1))
                   else Fragments(c, t.s, e, bytes[take..], o, k + 1))
            && (t.ok ==> Fitting(t.s, e, bytes[take..]))
  {
    var take := if |bytes| > FRAGMENT then FRAGMENT else |bytes|;
    EnqueueKeeps(c, s, FragmentOf(s, e, bytes[..take]), o(k));
  }

  /** `queue_format` for an accepted format at a unit boundary. */
  function FormatTry(c: Config, s: State, f: SourceFormat, start: bool, fl: Flush): Try
  {
    var e := if start then 1 else s.source.epoch + 1;
    EpochTry(c, s, FormatRecord(s, f, e, start), e, f.maxUnitBytes, fl)
  }

  function EpochTry(c: Config, s: State, r: Record, e: nat, maxUnit: nat, fl: Flush): Try
  {
    var t := Enqueue(c, s, r, fl);
    if t.ok then Try(Adopted(t.s, e, maxUnit), true) else t
  }

  function FormatRecord(s: State, f: SourceFormat, e: nat, start: bool): Record
  {
    if start then Started(FormatOf(s, f, e, start)) else Reformat(FormatOf(s, f, e, start))
  }

  /** The voice variables of the server. */
  datatype Vars = Vars(
    active: bool, gate: Gate, nextStreamId: u32, streamId: u32, delivering: bool, ending: bool,
    source: Tally, progress: Progress, delivered: Tally)

  /** The 32-bit and 64-bit variables that go into payloads. */
  predicate InBounds(v: Vars)
  {
    && v.source.epoch <= U32_MAX && v.source.samples <= U64_MAX && v.source.units <= U32_MAX
    && v.progress.frameSeq <= U32_MAX
  }

  ghost function Whole(v: Vars, queued: seq<Queued>, committed: seq<Record>): State
  {
    State(v.active, v.gate, v.nextStreamId, v.delivering, v.ending, v.source, v.progress,
          Pipe(v.streamId, v.delivered, queued, committed))
  }

  /** The counters of `media_flush_one`, read off the payload: octets 12 to 15 for an epoch, 16
      to 23 and 32 to 35 for a unit. */
  method CountDelivered(was: Tally, opcode: u16, p: seq<byte>, ghost r: Record) returns (t: Tally)
    requires opcode == Opcode(r) && p == Payload(r) && Storable(r)
    ensures t == Delivered(was, r)
  {
    t := was;
    if opcode == OP_DATA {
      UnitCompleteOnWire(r.frag);
      HeaderBack(r.frag, p);
      LeRoundTrip4(r.frag.unitSamples);
      t := t.(bytes := t.bytes + |p| - DATA_HEADER);
      if (LeValue(p[20..24]) + |p| - DATA_HEADER) % 0x1_0000_0000 == LeValue(p[16..20]) {
        t := t.(units := t.units + 1, samples := Advance(t.samples, LeValue(p[32..36])));
      }
    } else if opcode == OP_STARTED || opcode == OP_FORMAT {
      EpochAtTwelve(r.fmt);
      t := t.(epoch := LeValue(p[12..16]));
    }
  }

  class Server {
    const c: Config
    const store: VoiceMedia.Store
    var v: Vars
    var connection: u32
    var order: nat
    ghost var committed: seq<Record>
    ghost var sent: seq<seq<byte>>

    ghost function Model(): State
      reads this, store
    {
      Whole(v, store.queued, committed)
    }

    ghost predicate Valid()
      reads this, store, store.media, store.media.q, store.media.pool
    {
      && c.Valid() && store.Valid() && store.media.q.Length == c.depth && store.media.pool.Length == c.pool
      && sent == Payloads(committed) && InBounds(v)
    }

    constructor (c: Config)
      requires c.Valid() && c.depth > 0 && c.pool > 0
      ensures Valid() && fresh(store) && fresh(store.media) && fresh(store.media.q) && fresh(store.media.pool)
      ensures this.c == c && store.queued == [] && committed == [] && !v.active
    {
      this.c := c;
      store := new VoiceMedia.Store(c.depth, c.pool);
      v := Vars(false, Gate(false, false, false, false, false, false, 0, 0), 0, 0, false, false,
                Tally(0, 0, 0, 0), Progress(0, 0, 0, 0, 0), Tally(0, 0, 0, 0));
      connection, order := 0, 0;
      committed, sent := [], [];
    }

    // ----- the media queue -----

    /** The head record counts as delivered. */
    method Credit() returns (p: seq<byte>)
      requires Valid() && store.queued != []
      modifies this`v
      ensures Valid() && Model() == Credited(old(Model())) && p == Payload(store.queued[0].record)
    {
      var stream, opcode, payload := store.Head();
      p := payload;
      if stream == v.streamId {
        if opcode == OP_ENDED {
          v := v.(delivering := false, ending := false, streamId := 0);
        } else {
          var t := CountDelivered(v.delivered, opcode, p, store.queued[0].record);
          v := v.(delivered := t);
        }
      }
    }

    /** The part of `media_flush_one` after the frame has entered the output ring. */
    method FlushOne()
      requires Valid() && store.queued != []
      modifies this, store, store.media
      ensures Valid() && Model() == CommitOne(old(Model()))
    {
      ghost var s := Model();
      CommitInTwo(s);
      var p := Credit();
      assert Model() == Credited(s);
      Leave(p);
    }

    /** The head record has left the rings, its octets handed over. */
    method Leave(p: seq<byte>)
      requires Valid() && store.queued != [] && p == Payload(store.queued[0].record)
      modifies this`committed, this`sent, store, store.media
      ensures Valid() && Model() == Left(old(Model()))
    {
      PayloadsSnoc(committed, store.queued[0].record);
      committed, sent := committed + [store.queued[0].record], sent + [p];
      store.Drop();
    }

    method TearDown()
      requires Valid()
      modifies this`v, store, store.media
      ensures Valid() && Model() == Teardown(old(Model()))
    {
      store.Clear();
      v := v.(active := false, delivering := false, ending := false, streamId := 0,
              gate := v.gate.(listed := false, enabled := false, waitingIdle := false, stopRequested := v.gate.sourceActive));
    }

    /** Up to `count` head records find room in the output ring. */
    method FlushSome(count: nat)
      requires Valid()
      modifies this, store, store.media
      ensures Valid() && Model() == CommitSome(old(Model()), count)
    {
      ghost var trail := [Model()];
      var n := count;
      var empty := store.IsEmpty();
      while n > 0 && !empty
        invariant Valid() && (empty <==> store.queued == []) && Trail(trail) && |trail| + n == count + 1
        invariant trail[0] == old(Model()) && trail[|trail| - 1] == Model()
        decreases n
      {
        FlushOne();
        TrailGrows(trail, Model());
        trail := trail + [Model()];
        n := n - 1;
        empty := store.IsEmpty();
      }
      TrailCommits(trail, count);
    }

    method FlushAll(f: Flush)
      requires Valid()
      modifies this, store, store.media
      ensures Valid() && Model() == FlushOutput(old(Model()), f)
    {
      if !v.active { return; }
      FlushSome(f.count);
      if f.torn { TearDown(); }
    }

    /** The flush attempt of `media_enqueue`. */
    method MakeRoom(r: Record, f: Flush) returns (room: bool)
      requires Valid()
      modifies this, store, store.media
      ensures Valid()
      ensures Model() == if Full(c, old(Model()), r) then FlushOutput(old(Model()), f) else old(Model())
      ensures room <==> !Full(c, Model(), r)
      ensures room <==> !store.media.Lacks(|Payload(r)|)
    {
      room := store.HasRoom(r);
      if !room {
        FlushAll(f);
        room := store.HasRoom(r);
      }
    }

    method PutRecord(r: Record)
      requires Valid() && Storable(r) && !store.media.Lacks(|Payload(r)|)
      modifies this`order, store, store.media, store.media.q, store.media.pool
      ensures Valid() && Model() == old(Model()).(pipe := Append(old(Model()).pipe, r))
    {
      order := order + 1;
      store.Put(v.streamId, connection, order, r);
    }

    /** `media_enqueue`: the record goes into both rings, after a flush when they lack room. */
    method MediaEnqueue(r: Record, f: Flush) returns (ok: bool)
      requires Valid() && Storable(r)
      modifies this, store, store.media, store.media.q, store.media.pool
      ensures Valid() && Try(Model(), ok) == Enqueue(c, old(Model()), r, f)
    {
      var room := MakeRoom(r, f);
      if !v.active || !room { return false; }
      PutRecord(r);
      ok := true;
    }

    /** `media_discard_current`. */
    method MediaDiscardCurrent()
      requires Valid()
      modifies store, store.media, store.media.q, store.media.pool
      ensures Valid() && Model() == old(Model()).(pipe := Discarded(old(Model()).pipe))
    {
      store.Discard(v.streamId);
    }

    /** `voice_finish_stream`. */
    method FinishVoice(reason: nat, clear: bool, f: Flush)
      requires Valid()
      modifies this, store, store.media, store.media.q, store.media.pool
      ensures Valid() && Model() == FinishStream(c, old(Model()), reason, clear, f)
    {
      if !v.delivering { return; }
      var why, cut := reason, clear;
      if !clear && v.progress.offset != 0 { why, cut := END_INVALID_ENCODED_DATA, true; }
      if cut {
        CutVoice(why, f);
      } else if !v.ending {
        var ok := WriteEnd(why, v.source, f);
        if ok { v := v.(ending := true); } else { TearDown(); }
      }
    }

    method CutVoice(reason: nat, f: Flush)
      requires Valid()
      modifies this, store, store.media, store.media.q, store.media.pool
      ensures Valid() && Model() == CutStream(c, old(Model()), reason, f)
    {
      MediaDiscardCurrent();
      var ok := WriteEnd(reason, v.delivered, f);
      if ok { CloseStream(); } else { TearDown(); }
    }

    method CloseStream()
      requires Valid()
      modifies this
      ensures Valid() && Model() == Closed(old(Model()))
    {
      v := v.(delivering := false, ending := false, streamId := 0);
    }

    method WriteEnd(reason: nat, t: Tally, f: Flush) returns (ok: bool)
      requires Valid()
      modifies this, store, store.media, store.media.q, store.media.pool
      ensures Valid() && Try(Model(), ok) == Enqueue(c, old(Model()), EndRecord(old(Model()), reason, t), f)
    {
      ok := MediaEnqueue(Ended(Ending(v.streamId, reason, t.bytes, v.gate.nowUs, t.units, t.samples, t.epoch)), f);
    }

    /** `voice_fault`. */
    method FaultVoice(reason: nat, f: Flush)
      requires Valid()
      modifies this, store, store.media, store.media.q, store.media.pool
      ensures Valid() && Model() == Fault(c, old(Model()), reason, f)
    {
      var hadStream := v.delivering;
      FinishVoice(reason, true, f);
      if v.gate.sourceActive { v := v.(gate := v.gate.(stopRequested := true)); }
      if reason == END_UNSUPPORTED_FORMAT || !hadStream { DisableVoice(f.lost); }
    }

    /** Voice is switched off; publishing that may end the session. */
    method DisableVoice(lost: bool)
      requires Valid()
      modifies this, store, store.media
      ensures Valid()
      ensures var t := old(Model()).(gate := old(Model()).gate.(enabled := false));
              Model() == if lost && t.active then Teardown(t) else t
    {
      v := v.(gate := v.gate.(enabled := false));
      if lost && v.active { TearDown(); }
    }

    method QueueFormatEvent(f: SourceFormat, start: bool, o: Oracle) returns (ok: bool)
      requires Valid()
      modifies this, store, store.media, store.media.q, store.media.pool
      ensures Valid() && Try(Model(), ok) == QueueFormat(c, old(Model()), f, start, o)
    {
      ghost var s := Model();
      var accepted := CodecAccepted(f);
      if !accepted || v.progress.offset != 0 || v.source.epoch == U32_MAX {
        FormatRefused(c, s, f, start, o);
        FaultVoice(if accepted then END_SOURCE_DATA_LOST else END_UNSUPPORTED_FORMAT, o(0));
        return false;
      }
      FormatTaken(c, s, f, start, o);
      ok := WriteFormat(f, start, o(0));
    }

    /** An accepted format at a unit boundary: its record, then the new epoch. */
    method WriteFormat(f: SourceFormat, start: bool, fl: Flush) returns (ok: bool)
      requires Valid() && Accepted(c, Model(), f) && v.source.epoch < U32_MAX
      modifies this, store, store.media, store.media.q, store.media.pool
      ensures Valid() && Try(Model(), ok) == FormatTry(c, old(Model()), f, start, fl)
    {
      ghost var s := Model();
      var e := if start then 1 else v.source.epoch + 1;
      var r := MakeFormat(f, e, start);
      assert FormatTry(c, s, f, start, fl) == EpochTry(c, s, r, e, f.maxUnitBytes, fl);
      ok := QueueEpoch(r, e, f.maxUnitBytes, fl);
    }

    method QueueEpoch(r: Record, e: u32, maxUnit: nat, fl: Flush) returns (ok: bool)
      requires Valid() && Storable(r)
      modifies this, store, store.media, store.media.q, store.media.pool
      ensures Valid() && Try(Model(), ok) == EpochTry(c, old(Model()), r, e, maxUnit, fl)
    {
      ok := MediaEnqueue(r, fl);
      if ok { Adopt(e, maxUnit); }
    }

    method MakeFormat(f: SourceFormat, e: u32, start: bool) returns (r: Record)
      requires Valid() && Accepted(c, Model(), f)
      ensures r == FormatRecord(Model(), f, e, start) && Storable(r)
    {
      FormatStorable(c, Model(), f, e, start);
      var fmt := Format(v.streamId, e, f.codec, f.sampleRate, f.channels, f.config, f.maxUnitBytes, v.source.samples,
                        if start then v.gate.startedUs else v.gate.nowUs, (v.source.units + 1) % 0x1_0000_0000);
      r := if start then Started(fmt) else Reformat(fmt);
    }

    method Adopt(e: u32, maxUnit: nat)
      requires Valid()
      modifies this`v
      ensures Valid() && Model() == Adopted(old(Model()), e, maxUnit)
    {
      v := v.(source := v.source.(epoch := e), progress := v.progress.(maxUnit := maxUnit));
    }

    method CodecAccepted(f: SourceFormat) returns (ok: bool)
      ensures ok == Accepted(c, Model(), f)
    {
      if f.codec.id == 0 || f.codec.id >= 0x8000_0000 || f.codec.revision == 0 || f.codec.revision > U16_MAX
         || f.sampleRate == 0 || f.sampleRate > 384000 || f.channels == 0 || f.channels > 8
         || |f.config| > 256 || f.maxUnitBytes == 0 || !v.gate.listed || f.maxUnitBytes > c.terms.maxUnit
         || c.caps.None? || f.maxUnitBytes > c.caps.value.maxUnit { return false; }
      ok := f.codec in c.caps.value.accepted && f.codec in c.terms.accepted;
    }

    method OpenStream()
      requires Valid() && v.nextStreamId < U32_MAX
      modifies this`v
      ensures Valid() && Model() == Opened(old(Model()))
    {
      v := v.(nextStreamId := v.nextStreamId + 1, streamId := v.nextStreamId + 1, delivering := true, ending := false,
              source := Tally(0, 0, 0, 0), delivered := Tally(0, 0, 0, 1),
              progress := v.progress.(frameSeq := 0, offset := 0));
    }

    /** The START case of `rbp_server_on_voice`. */
    method StartEvent(f: SourceFormat, o: Oracle)
      requires Valid()
      modifies this, store, store.media, store.media.q, store.media.pool
      ensures Valid() && Model() == OnStart(c, old(Model()), f, o)
    {
      if !v.gate.sourceActive {
        FaultVoice(END_INVALID_ENCODED_DATA, o(1));
        return;
      }
      if !v.gate.enabled || !v.active || v.gate.waitingIdle {
        v := v.(gate := v.gate.(stopRequested := true));
        return;
      }
      if v.delivering { FinishVoice(END_BUFFER_OVERRUN, true, o(2)); }
      var accepted := CodecAccepted(f);
      if !accepted {
        FaultVoice(END_UNSUPPORTED_FORMAT, o(3));
        return;
      }
      if v.nextStreamId == U32_MAX {
        TearDown();
        return;
      }
      AdmitStream(f, o);
    }

    method AdmitStream(f: SourceFormat, o: Oracle)
      requires Valid() && v.nextStreamId < U32_MAX
      modifies this, store, store.media, store.media.q, store.media.pool
      ensures Valid()
      ensures var t := QueueFormat(c, Opened(old(Model())), f, true, o);
              Model() == if t.ok then t.s else Fault(c, Closed(t.s), END_BUFFER_OVERRUN, o(4))
    {
      OpenStream();
      var ok := QueueFormatEvent(f, true, o);
      if !ok {
        CloseStream();
        FaultVoice(END_BUFFER_OVERRUN, o(4));
      }
    }

    /** The FORMAT case. */
    method FormatEvent(f: SourceFormat, o: Oracle)
      requires Valid()
      modifies this, store, store.media, store.media.q, store.media.pool
      ensures Valid() && Model() == OnFormatEvent(c, old(Model()), f, o)
    {
      if v.delivering && !v.ending {
        var ok := QueueFormatEvent(f, false, o);
        if !ok && v.delivering { FaultVoice(END_BUFFER_OVERRUN, o(1)); }
      }
    }

    /** The ENCODED case: one adapter unit part, cut into fragments of at most 256 octets. */
    method EncodedEvent(e: Encoded, o: Oracle)
      requires Valid()
      modifies this, store, store.media, store.media.q, store.media.pool
      ensures Valid() && Model() == OnEncoded(c, old(Model()), e, o)
    {
      if !v.gate.sourceActive || !v.delivering || v.ending { return; }
      if e.unitSize > v.progress.maxUnit {
        FaultVoice(END_UNSUPPORTED_FORMAT, o(0));
        return;
      }
      if |e.data| == 0 || e.unitSize == 0 || e.offset != v.progress.offset || e.offset > e.unitSize
         || |e.data| > e.unitSize - e.offset
         || (e.offset != 0 && (e.unitSize != v.progress.unitSize || e.samples != v.progress.unitSamples))
         || v.source.units == U32_MAX {
        FaultVoice(END_INVALID_ENCODED_DATA, o(0));
        return;
      }
      v := v.(progress := v.progress.(unitSize := e.unitSize, unitSamples := e.samples));
      FragmentLoop(e, o);
    }

    /** Fragments of at most 256 octets, while the stream lives. */
    method FragmentLoop(e: Encoded, o: Oracle)
      requires Valid() && Fitting(Model(), e, e.data)
      modifies this, store, store.media, store.media.q, store.media.pool
      ensures Valid() && Model() == Fragments(c, old(Model()), e, e.data, o, 0)
    {
      ghost var s := Model();
      var bytes, k := e.data, 0;
      while |bytes| > 0 && v.delivering
        invariant k >= 0 && Valid() && Model() == s && Fitting(s, e, bytes)
        invariant Fragments(c, s, e, bytes, o, k) == Fragments(c, old(Model()), e, e.data, o, 0)
        decreases |bytes|
      {
        var take := if |bytes| > FRAGMENT then FRAGMENT else |bytes|;
        FragmentsTurn(c, s, e, bytes, o, k);
        if v.progress.frameSeq == U32_MAX {
          FaultVoice(END_INVALID_ENCODED_DATA, o(k));
          return;
        }
        var ok := QueueFragment(e, bytes[..take], o(k));
        if !ok {
          FaultVoice(END_BUFFER_OVERRUN, o(k + 1));
          return;
        }
        s := FragmentTry(c, s, e, bytes[..take], o(k)).s;
        bytes, k := bytes[take..], k + 1;
      }
    }

    /** One fragment: queued and counted. */
    method QueueFragment(e: Encoded, part: seq<byte>, f: Flush) returns (ok: bool)
      requires Valid() && v.progress.frameSeq < U32_MAX && v.source.units < U32_MAX
      requires 1 <= |part| <= FRAGMENT && v.progress.offset + |part| <= e.unitSize
      modifies this, store, store.media, store.media.q, store.media.pool
      ensures Valid() && Try(Model(), ok) == FragmentTry(c, old(Model()), e, part, f)
    {
      ghost var s := Model();
      var r := MakeFragment(e, part);
      FragmentStorable(s, e, part);
      EnqueueKeeps(c, s, r, f);
      ok := MediaEnqueue(r, f);
      if ok { CountFragment(e, |part|); }
    }

    method MakeFragment(e: Encoded, part: seq<byte>) returns (r: Record)
      ensures r == FragmentOf(Model(), e, part)
    {
      r := Data(Fragment(v.streamId, v.progress.frameSeq + 1, v.source.epoch, v.source.units + 1, e.unitSize,
                         v.progress.offset, v.source.samples, e.samples, part));
    }

    method CountFragment(e: Encoded, take: nat)
      requires Valid() && v.progress.frameSeq < U32_MAX && v.source.units < U32_MAX
      modifies this`v
      ensures Valid() && Model() == Counted(old(Model()), e, take)
    {
      v := v.(source := v.source.(bytes := v.source.bytes + take),
              progress := v.progress.(frameSeq := v.progress.frameSeq + 1, offset := v.progress.offset + take));
      if v.progress.offset == e.unitSize {
        v := v.(progress := v.progress.(offset := 0),
                source := v.source.(units := v.source.units + 1, samples := Advance(v.source.samples, e.samples)));
      }
    }

    /** The END case. */
    method SourceEndEvent(reason: nat, o: Oracle)
      requires Valid()
      modifies this, store, store.media, store.media.q, store.media.pool
      ensures Valid() && Model() == OnSourceEnd(c, old(Model()), reason, o)
    {
      v := v.(gate := v.gate.(sourceActive := false, waitingIdle := false));
      var why := reason;
      if why == END_NORMAL && v.gate.captureLimited {
        why := END_CAPTURE_LIMIT;
      } else if v.gate.stopRequested && why == END_NORMAL {
        why := END_REQUESTED_STOP;
      }
      FinishVoice(why, !DrainReason(why), o(0));
    }
  }
}
