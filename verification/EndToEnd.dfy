/** Voice from the server's counters to the host's acceptor, by way of the octets on the wire. */
module EndToEnd {
  import opened Bytes
  import opened Options
  import opened Cobs
  import opened Frame
  import opened HostAudio
  import opened AudioWire
  import V = Voice
  import opened VoiceProof
  import opened VoiceRange
  import opened Session
  import opened SessionProof
  import R = Receiver
  import opened ClientWire

  // ----- every committed record fits its fields -----

  predicate StreamFits(h: Stream)
  {
    h.streamId <= U32_MAX && h.unit <= U32_MAX + 1 && h.samples <= U64_MAX && h.epoch <= U32_MAX
  }

  /** The host's own counters stay within the fields of what it has accepted. */
  lemma {:induction false} ListeningFits(t: Terms, rs: seq<Record>)
    requires Written(rs) && HearAll(t, Silent, rs).Listening?
    ensures StreamFits(HearAll(t, Silent, rs).stream)
    decreases |rs|
  {
    if rs != [] {
      var before, r := rs[..|rs| - 1], rs[|rs| - 1];
      assert rs == before + [r];
      HearSnoc(t, Silent, before, r);
      assert Storable(r);
      if HearAll(t, Silent, before).Listening? {
        ListeningFits(t, before);
      }
    }
  }

  /** The 64-bit octet counter is not exhausted. */
  predicate Countable(rs: seq<Record>)
  {
    forall i :: 0 <= i < |rs| && rs[i].Ended? ==> rs[i].end.encodedBytes <= U64_MAX
  }

  predicate AllFit(rs: seq<Record>)
  {
    forall i :: 0 <= i < |rs| ==> RecordFits(rs[i])
  }

  /** Accepted records whose totals are countable fit their payload fields. */
  lemma AcceptedFit(t: Terms, rs: seq<Record>)
    requires Written(rs) && Countable(rs) && HearAll(t, Silent, rs) != Rejected
    ensures AllFit(rs)
  {
    forall i | 0 <= i < |rs|
      ensures RecordFits(rs[i])
    {
      assert Storable(rs[i]);
      if rs[i].Ended? {
        EndFitsHere(t, rs, i);
      }
    }
  }

  lemma EndFitsHere(t: Terms, rs: seq<Record>, i: nat)
    requires Written(rs) && Countable(rs) && HearAll(t, Silent, rs) != Rejected && i < |rs| && rs[i].Ended?
    ensures EndFits(rs[i].end)
  {
    assert rs == rs[..i + 1] + rs[i + 1..];
    PrefixAccepted(t, Silent, rs[..i + 1], rs[i + 1..]);
    assert rs[..i + 1] == rs[..i] + [rs[i]];
    HearSnoc(t, Silent, rs[..i], rs[i]);
    ListeningFits(t, rs[..i]);
    assert Storable(rs[i]);
  }

  lemma {:induction false} RunRanged(c: V.Config, s: V.State, xs: seq<Happening>)
    requires Ranged(s) && c.Valid() && ProperRun(c, s, xs)
    ensures Ranged(VoiceProof.Run(c, s, xs))
    decreases |xs|
  {
    if xs != [] {
      StepRanged(c, s, xs[0].ev, xs[0].o);
      RunRanged(c, V.Step(c, s, xs[0].ev, xs[0].o), xs[1..]);
    }
  }

  /** A session that has just been created, with 32-bit counters. */
  ghost predicate Begins(c: V.Config, s: V.State)
  {
    c.Valid() && Initial(s) && Counters(s)
  }

  /** All that a run commits fits its fields and is accepted. */
  lemma CommittedFit(c: V.Config, s: V.State, xs: seq<Happening>)
    requires Begins(c, s) && ProperRun(c, s, xs) && Countable(VoiceProof.Run(c, s, xs).pipe.committed)
    ensures var rs := VoiceProof.Run(c, s, xs).pipe.committed;
      AllFit(rs) && HearAll(c.terms, Silent, rs) != Rejected
  {
    RunRanged(c, s, xs);
    HostAcceptsEveryRun(c, s, xs);
    AcceptedFit(c.terms, VoiceProof.Run(c, s, xs).pipe.committed);
  }

  /** Every record that a run commits parses back to itself at the client. */
  lemma CommittedParse(c: V.Config, s: V.State, xs: seq<Happening>, i: nat)
    requires Begins(c, s) && ProperRun(c, s, xs)
    requires var rs := VoiceProof.Run(c, s, xs).pipe.committed; Countable(rs) && i < |rs|
    ensures var r := VoiceProof.Run(c, s, xs).pipe.committed[i];
      RecordFits(r) && |Payload(r)| <= MAX_PAYLOAD && ParseRecord(Opcode(r), Payload(r)) == Some(r)
  {
    CommittedFit(c, s, xs);
    var rs := VoiceProof.Run(c, s, xs).pipe.committed;
    PayloadSize(rs[i]);
    ParseWritten(rs[i]);
  }

  // ----- what a receiver makes of part of the stream -----

  predicate MediaOp(op: u16)
  {
    op == OP_STARTED || op == OP_DATA || op == OP_ENDED || op == OP_FORMAT
  }

  /** The header under which the client takes a record. */
  predicate Labelled(h: Header, r: Record)
  {
    h.opcode == Opcode(r) && h.kind == (if r.Data? then KIND_AUDIO else KIND_EVENT) && h.requestId == 0 && h.status == 0
  }

  predicate Matches(f: Sent, r: Record)
  {
    Labelled(f.header, r) && f.payload == Payload(r)
  }

  /** The media frames among `fs` carry these records, in order. */
  ghost predicate Carries(fs: seq<Sent>, rs: seq<Record>)
    decreases |fs|
  {
    if fs == [] then rs == []
    else if !Decent(fs[0].header, fs[0].payload) then false
    else if MediaOp(fs[0].header.opcode) then rs != [] && Matches(fs[0], rs[0]) && Carries(fs[1..], rs[1..])
    else Carries(fs[1..], rs)
  }

  /** The client's view of the parser's events: the media records; `None` once an event is no
      good frame, a media frame has a wrong header or its record does not parse. */
  ghost function Heard(evs: seq<RxEvent>): Option<seq<Record>>
  {
    if evs == [] then Some([])
    else
      var rest := Heard(evs[1..]);
      if rest.None? || !evs[0].FrameIn? || !evs[0].crcOk then None
      else if !MediaOp(evs[0].header.opcode) then rest
      else
        var r := ParseRecord(evs[0].header.opcode, evs[0].payload);
        if r.None? || !Labelled(evs[0].header, r.value) then None else Some([r.value] + rest.value)
  }

  predicate Parses(f: Sent, r: Record)
  {
    ParseRecord(f.header.opcode, f.payload) == Some(r) && Labelled(f.header, r)
  }

  lemma MatchParses(f: Sent, r: Record)
    requires Matches(f, r) && RecordFits(r)
    ensures Parses(f, r)
  {
    ParseWritten(r);
  }

  lemma HeardOne(f: Sent, r: Record, evs: seq<RxEvent>, rs: seq<Record>)
    requires MediaOp(f.header.opcode) && Parses(f, r) && Heard(evs) == Some(rs)
    ensures Heard([FrameIn(f.header, f.payload, true)] + evs) == Some([r] + rs)
  {
    var all := [FrameIn(f.header, f.payload, true)] + evs;
    assert all[1..] == evs;
  }

  lemma HeardOther(f: Sent, evs: seq<RxEvent>, rs: seq<Record>)
    requires !MediaOp(f.header.opcode) && Heard(evs) == Some(rs)
    ensures Heard([FrameIn(f.header, f.payload, true)] + evs) == Some(rs)
  {
    var all := [FrameIn(f.header, f.payload, true)] + evs;
    assert all[1..] == evs;
  }

  lemma {:induction false} MediaOfArrivals(fs: seq<Sent>, rs: seq<Record>)
    requires Carries(fs, rs) && AllFit(rs)
    ensures Heard(Arrivals(fs)) == Some(rs)
    decreases |fs|
  {
    if fs != [] {
      if MediaOp(fs[0].header.opcode) {
        MediaOfArrivals(fs[1..], rs[1..]);
        MatchParses(fs[0], rs[0]);
        HeardOne(fs[0], rs[0], Arrivals(fs[1..]), rs[1..]);
        assert [rs[0]] + rs[1..] == rs;
      } else {
        MediaOfArrivals(fs[1..], rs);
        HeardOther(fs[0], Arrivals(fs[1..]), rs);
      }
    }
  }

  /** The first frames carry the first records. */
  lemma {:induction false} CarriesPrefix(fs: seq<Sent>, rs: seq<Record>, k: nat) returns (n: nat)
    requires Carries(fs, rs) && k <= |fs|
    ensures n <= |rs| && Carries(fs[..k], rs[..n])
    decreases k
  {
    n := 0;
    if k > 0 {
      assert fs[..k][1..] == fs[1..][..k - 1];
      if MediaOp(fs[0].header.opcode) {
        var m := CarriesPrefix(fs[1..], rs[1..], k - 1);
        n := m + 1;
        assert rs[..n][1..] == rs[1..][..m];
      } else {
        n := CarriesPrefix(fs[1..], rs, k - 1);
      }
    }
  }

  /** One more frame, and one more record if it is a media frame. */
  lemma {:induction false} CarriesSnoc(fs: seq<Sent>, rs: seq<Record>, f: Sent, more: seq<Record>)
    requires Carries(fs, rs)
    requires Decent(f.header, f.payload)
    requires if MediaOp(f.header.opcode) then |more| == 1 && Matches(f, more[0]) else more == []
    ensures Carries(fs + [f], rs + more)
    decreases |fs|
  {
    if fs == [] {
      assert fs + [f] == [f] && [f][1..] == [] && rs + more == more && (more != [] ==> more[1..] == []);
    } else {
      assert (fs + [f])[1..] == fs[1..] + [f];
      if MediaOp(fs[0].header.opcode) {
        assert (rs + more)[1..] == rs[1..] + more;
        CarriesSnoc(fs[1..], rs[1..], f, more);
      } else {
        CarriesSnoc(fs[1..], rs, f, more);
      }
    }
  }

  lemma {:induction false} CarriesLength(fs: seq<Sent>, a: seq<Record>, b: seq<Record>)
    requires Carries(fs, a) && Carries(fs, b)
    ensures |a| == |b|
    decreases |fs|
  {
    if fs != [] {
      if MediaOp(fs[0].header.opcode) {
        CarriesLength(fs[1..], a[1..], b[1..]);
      } else {
        CarriesLength(fs[1..], a, b);
      }
    }
  }

  /** Draining what the transport has taken of whole frames: the complete ones arrive, the rest
      waits. */
  lemma {:induction false} TakenArrives(fs: seq<Sent>, taken: seq<byte>, now: u32) returns (k: nat)
    requires Short(fs) && taken <= Join(Images(fs))
    ensures k <= |fs| && R.Drain(R.Idle, taken, now).events == Arrivals(fs[..k])
    ensures taken == Join(Images(fs)) ==> k == |fs|
    decreases |fs|
  {
    hide Session.Octets, R.Drain, Short;
    if fs == [] {
      k := 0;
      NothingWaits(taken, now);
    } else if |taken| < |Session.Octets(fs[0])| {
      assert Join(Images(fs)) == Session.Octets(fs[0]) + Join(Images(fs[1..]));
      assert taken == Session.Octets(fs[0])[..|taken|];
      FirstShort(fs);
      PartWaits(fs[0], taken, now);
      k := 0;
    } else {
      var first, rest := Session.Octets(fs[0]), Join(Images(fs[1..]));
      assert Join(Images(fs)) == first + rest;
      Parted(first, rest, taken);
      FirstShort(fs);
      k := TakenArrives(fs[1..], taken[|first|..], now);
      FirstArrives(fs[0], taken[|first|..], now);
      assert fs[..k + 1][1..] == fs[1..][..k];
      k := k + 1;
    }
  }

  lemma NothingWaits(taken: seq<byte>, now: u32)
    requires taken == []
    ensures R.Drain(R.Idle, taken, now).events == []
  {
  }

  lemma FirstShort(fs: seq<Sent>)
    requires Short(fs) && fs != []
    ensures |fs[0].payload| <= MAX_PAYLOAD && Recognised(fs[0].header) && Short(fs[1..])
  {
  }

  lemma Parted(first: seq<byte>, rest: seq<byte>, taken: seq<byte>)
    requires taken <= first + rest && |first| <= |taken|
    ensures taken == first + taken[|first|..] && taken[|first|..] <= rest
    ensures taken == first + rest ==> taken[|first|..] == rest
  {
    assert first == taken[..|first|];
  }

  /** Part of a frame makes no event. */
  lemma PartWaits(f: Sent, taken: seq<byte>, now: u32)
    requires |f.payload| <= MAX_PAYLOAD && taken < Session.Octets(f)
    ensures R.Drain(R.Idle, taken, now).events == []
  {
    var enc := Encode(Raw(f.header, f.payload));
    WireShape(f.header, f.payload);
    assert Session.Octets(f) == enc + [0];
    assert taken == enc[..|taken|];
    R.CollectPart([], now, taken, now);
  }

  lemma FirstArrives(f: Sent, more: seq<byte>, now: u32)
    requires |f.payload| <= MAX_PAYLOAD && Recognised(f.header)
    ensures R.Drain(R.Idle, Session.Octets(f) + more, now).events
         == [FrameIn(f.header, f.payload, true)] + R.Drain(R.Idle, more, now).events
  {
    var enc := Encode(Raw(f.header, f.payload));
    WireShape(f.header, f.payload);
    ReceiveEncoded(f.header, f.payload);
    assert [] + enc == enc;
    R.LastPart([], now, enc, now, enc);
    R.DrainConcat(R.Idle, enc + [0], more, now);
  }
}
