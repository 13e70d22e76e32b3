/** A change of format after the last unit that a stream can number. */
module FormatLimit {
  import opened Bytes
  import opened Options
  import opened HostAudio
  import opened Voice
  import opened VoiceProof

  const CALM: Oracle := (k: nat) => Flush(0, false, false)

  const TONE := EncodedData(Encoded(1, 0, 0, [0]))

  const SENT := Voice.Flushed(Flush(1, false, false))

  /** The adapter may announce `f` in this session, and no voice has begun. */
  predicate Ready(c: Config, s: State, f: SourceFormat)
  {
    && Accepted(c, s.(gate := s.gate.(listed := true)), f) && c.depth > 0 && c.pool >= Size(Started(FormatOf(s, f, 1, true)))
    && !s.gate.enabled && !s.gate.sourceActive && s.nextStreamId < U32_MAX
  }

  /** A stream that has delivered `n` units in `n` frames. */
  predicate Spoken(c: Config, s: State, f: SourceFormat, n: nat)
  {
    && s.active && s.delivering && !s.ending && s.gate.sourceActive && Accepted(c, s, f)
    && s.source.units == n && s.source.epoch == 1 && s.progress.frameSeq == n && s.progress.offset == 0
    && s.progress.maxUnit >= 1 && s.pipe.media == [] && s.pipe.streamId != 0
    && c.depth > 0 && c.pool >= 87 + |f.config|
  }

  /** One event ahead of a run. */
  lemma Before(c: Config, s: State, ev: Event, rest: seq<Happening>) returns (xs: seq<Happening>)
    requires Proper(s, ev) && ProperRun(c, Step(c, s, ev, CALM), rest)
    ensures ProperRun(c, s, xs) && VoiceProof.Run(c, s, xs) == VoiceProof.Run(c, Step(c, s, ev, CALM), rest)
  {
    xs := [Happening(ev, CALM)] + rest;
    assert xs[1..] == rest;
  }

  /** A stream begins. */
  lemma Begin(c: Config, s: State, f: SourceFormat) returns (xs: seq<Happening>)
    requires Initial(s) && Ready(c, s, f)
    ensures ProperRun(c, s, xs) && Spoken(c, VoiceProof.Run(c, s, xs), f, 0)
  {
    var s1 := Step(c, s, Enable, CALM);
    var s2 := Step(c, s1, SourceBegin, CALM);
    var s3 := Step(c, s2, Start(f), CALM);
    Admitted(c, s2, f);
    Delivers(c, s3, f, 0);
    xs := Before(c, s3, SENT, []);
    xs := Before(c, s2, Start(f), xs);
    xs := Before(c, s1, SourceBegin, xs);
    xs := Before(c, s, Enable, xs);
  }

  /** As `Spoken`, with the last record still queued. */
  predicate Queueing(c: Config, s: State, f: SourceFormat, n: nat)
  {
    && |s.pipe.media| == 1 && s.pipe.media[0].stream == s.pipe.streamId && !s.pipe.media[0].record.Ended?
    && Spoken(c, s.(pipe := s.pipe.(media := [])), f, n)
  }

  lemma Admitted(c: Config, s: State, f: SourceFormat)
    requires s.active && !s.delivering && s.gate.enabled && s.gate.sourceActive && !s.gate.waitingIdle && s.pipe.media == []
    requires Accepted(c, s, f) && s.nextStreamId < U32_MAX && c.depth > 0 && c.pool >= 87 + |f.config|
    ensures Queueing(c, Step(c, s, Start(f), CALM), f, 0)
  {
  }

  lemma Delivers(c: Config, s: State, f: SourceFormat, n: nat)
    requires Queueing(c, s, f, n)
    ensures Spoken(c, Step(c, s, SENT, CALM), f, n)
  {
    assert CommitSome(s, 1) == CommitSome(CommitOne(s), 0);
  }

  /** One unit of one octet. */
  lemma OneTone(c: Config, s: State, f: SourceFormat, n: nat)
    requires Spoken(c, s, f, n) && n < U32_MAX
    ensures Queueing(c, Step(c, s, TONE, CALM), f, n + 1)
  {
    var e := TONE.unit;
    var s1 := s.(progress := s.progress.(unitSize := 1, unitSamples := 0));
    var t := Enqueue(c, s1, FragmentOf(s1, e, [0]), CALM(0));
    assert e.data[..1] == [0] && e.data[1..] == [];
    assert t.ok;
    assert Step(c, s, TONE, CALM) == Fragments(c, Counted(t.s, e, 1), e, [], CALM, 1);
  }

  lemma {:induction false} Talk(c: Config, s: State, f: SourceFormat, n: nat, more: nat) returns (xs: seq<Happening>)
    requires Spoken(c, s, f, n) && n + more <= U32_MAX
    ensures ProperRun(c, s, xs) && Spoken(c, VoiceProof.Run(c, s, xs), f, n + more)
    decreases more
  {
    xs := [];
    if more > 0 {
      var s1 := Step(c, s, TONE, CALM);
      OneTone(c, s, f, n);
      Delivers(c, s1, f, n + 1);
      var rest := Talk(c, Step(c, s1, SENT, CALM), f, n + 1, more - 1);
      xs := Before(c, s1, SENT, rest);
      xs := Before(c, s, TONE, xs);
    }
  }

  lemma {:induction false} RunTwice(c: Config, s: State, a: seq<Happening>, b: seq<Happening>)
    ensures VoiceProof.Run(c, s, a + b) == VoiceProof.Run(c, VoiceProof.Run(c, s, a), b)
    ensures ProperRun(c, s, a) && ProperRun(c, VoiceProof.Run(c, s, a), b) ==> ProperRun(c, s, a + b)
    decreases |a|
  {
    if a == [] {
      assert a + b == b;
    } else {
      assert (a + b)[1..] == a[1..] + b;
      RunTwice(c, Step(c, s, a[0].ev, a[0].o), a[1..], b);
    }
  }

  /** A FORMAT after that many units is queued and committed, and the host rejects it. */
  lemma LateFormat(c: Config, s: State, f: SourceFormat)
    requires Inv(c, s) && Spoken(c, s, f, U32_MAX)
    ensures var s' := Step(c, Step(c, s, Reformatted(f), CALM), SENT, CALM);
      s'.active && s'.delivering && HearAll(c.terms, Silent, s'.pipe.committed) == Rejected
  {
    var r := Reformat(FormatOf(s, f, 2, false));
    var p := Append(s.pipe, r);
    var s1 := Step(c, s, Reformatted(f), CALM);
    assert s1.pipe == p;
    FormatHeard(c, s, f);
    AppendHeard(c.terms, s.pipe, r);
    CommitHeard(c.terms, p);
    assert CommitSome(s1, 1) == CommitSome(CommitOne(s1), 0);
  }

  /** In every session that admits a format a proper run leads to a stream of 2^32 - 1 units;
      the FORMAT that follows it breaks the stream at the host. */
  lemma FormatPastLastUnit(c: Config, s: State, f: SourceFormat) returns (xs: seq<Happening>)
    requires c.Valid() && Initial(s) && Ready(c, s, f)
    ensures ProperRun(c, s, xs) && VoiceProof.Run(c, s, xs).source.units == U32_MAX
    ensures var late := Step(c, Step(c, VoiceProof.Run(c, s, xs), Reformatted(f), CALM), SENT, CALM);
      late.active && HearAll(c.terms, Silent, late.pipe.committed) == Rejected
  {
    var start := Begin(c, s, f);
    var talk := Talk(c, VoiceProof.Run(c, s, start), f, 0, U32_MAX);
    xs := start + talk;
    RunTwice(c, s, start, talk);
    RunInv(c, s, xs);
    LateFormat(c, VoiceProof.Run(c, s, xs), f);
  }
}
