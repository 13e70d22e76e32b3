/** Why every committed media sequence is one the host accepts. */
module VoiceProof {
  import opened Bytes
  import opened Options
  import opened HostAudio
  import opened Voice

  // ----- queues -----

  ghost predicate Own(q: seq<Queued>, id: nat)
  {
    forall i :: 0 <= i < |q| ==> q[i].stream == id
  }

  ghost predicate Foreign(q: seq<Queued>, id: nat)
  {
    forall i :: 0 <= i < |q| ==> q[i].stream != id
  }

  ghost predicate NoStart(q: seq<Queued>)
  {
    forall i :: 0 <= i < |q| ==> !q[i].record.Started?
  }

  lemma {:induction false} RecordsConcat(a: seq<Queued>, b: seq<Queued>)
    ensures Records(a + b) == Records(a) + Records(b)
    decreases |a|
  {
    if a == [] {
      assert a + b == b;
    } else {
      assert (a + b)[1..] == a[1..] + b;
      RecordsConcat(a[1..], b);
    }
  }

  lemma RecordsSnoc(a: seq<Queued>, m: Queued)
    ensures Records(a + [m]) == Records(a) + [m.record]
  {
    RecordsConcat(a, [m]);
    assert [m][1..] == [];
    assert Records([m]) == [m.record];
  }

  /** Discarding the current stream removes all of its records but START. */
  lemma {:induction false} KeptForeign(q: seq<Queued>, id: nat)
    requires Foreign(q, id)
    ensures Kept(q, id) == q
  {
    if q != [] {
      KeptForeign(q[1..], id);
      assert q == [q[0]] + q[1..];
    }
  }

  lemma {:induction false} KeptOwn(q: seq<Queued>, id: nat)
    requires Own(q, id) && NoStart(q)
    ensures Kept(q, id) == []
  {
    if q != [] {
      KeptOwn(q[1..], id);
    }
  }

  lemma {:induction false} KeptConcat(a: seq<Queued>, b: seq<Queued>, id: nat)
    ensures Kept(a + b, id) == Kept(a, id) + Kept(b, id)
    decreases |a|
  {
    if a == [] {
      assert a + b == b;
    } else {
      var h := if a[0].stream == id && !a[0].record.Started? then [] else [a[0]];
      assert (a + b)[0] == a[0] && (a + b)[1..] == a[1..] + b;
      KeptConcat(a[1..], b, id);
      assert Kept(a + b, id) == h + (Kept(a[1..], id) + Kept(b, id));
    }
  }

  // ----- what the host hears -----

  /** The host after the committed records; after the first `k` queued ones as well; after all. */
  ghost function HeardDone(t: Terms, p: Pipe): Listener
  {
    HearAll(t, Silent, p.committed)
  }

  ghost function HeardOlder(t: Terms, p: Pipe, k: nat): Listener
    requires k <= |p.media|
  {
    HearAll(t, HeardDone(t, p), Records(p.media[..k]))
  }

  ghost function Heard(t: Terms, p: Pipe): Listener
  {
    HearAll(t, HeardDone(t, p), Records(p.media))
  }

  lemma HeardSplit(t: Terms, p: Pipe, k: nat)
    requires k <= |p.media|
    ensures Heard(t, p) == HearAll(t, HeardOlder(t, p, k), Records(p.media[k..]))
  {
    assert p.media == p.media[..k] + p.media[k..];
    RecordsConcat(p.media[..k], p.media[k..]);
    HearConcat(t, HeardDone(t, p), Records(p.media[..k]), Records(p.media[k..]));
  }

  /** A silent host rejects whatever does not begin with START. */
  lemma SilentRejects(t: Terms, q: seq<Queued>)
    requires NoStart(q) && q != []
    ensures HearAll(t, Silent, Records(q)) == Rejected
  {
    RejectedForGood(t, Records(q)[1..]);
  }

  /** The counters agree with a host that is inside stream `id`. */
  ghost predicate Tallied(id: nat, t: Tally, h: Stream)
  {
    && h.streamId == id && h.encodedBytes == t.bytes && h.unit == t.units + 1
    && h.samples == t.samples && h.epoch == t.epoch
  }

  // ----- the shape of the queue -----

  /** No record of the current stream is queued and every older stream is complete. */
  ghost predicate Quiet(t: Terms, p: Pipe)
  {
    Foreign(p.media, p.streamId) && Heard(t, p) == Silent
  }

  /** START is committed: everything queued is the rest of the current stream. */
  ghost predicate Underway(t: Terms, p: Pipe)
  {
    && Own(p.media, p.streamId) && NoStart(p.media)
    && HeardDone(t, p).Listening? && Tallied(p.streamId, p.delivered, HeardDone(t, p).stream)
  }

  /** START is queued at `k`, behind the complete records of older streams. */
  ghost predicate Waiting(t: Terms, p: Pipe, k: nat)
  {
    && k < |p.media| && Foreign(p.media[..k], p.streamId) && Own(p.media[k..], p.streamId)
    && p.media[k].record.Started? && p.media[k].record.fmt.streamId == p.streamId && NoStart(p.media[k + 1..])
    && HeardOlder(t, p, k) == Silent && p.delivered == Tally(0, 0, 0, 1)
  }

  ghost predicate Laid(t: Terms, p: Pipe)
  {
    Underway(t, p) || exists k: nat :: Waiting(t, p, k)
  }

  /** The last queued record is the END of a stream the host is still inside. */
  ghost predicate Closing(t: Terms, p: Pipe)
  {
    && p.media != [] && p.media[|p.media| - 1].record.Ended?
    && HeardOlder(t, p, |p.media| - 1).Listening? && Heard(t, p) == Silent
  }

  // ----- committing a record -----

  lemma CommitHeard(t: Terms, p: Pipe)
    requires p.media != []
    ensures HeardDone(t, Commit(p)) == Hear(t, HeardDone(t, p), p.media[0].record)
    ensures Heard(t, Commit(p)) == Heard(t, p)
    ensures HeardDone(t, Commit(p)) == Rejected ==> Heard(t, p) == Rejected
  {
    assert Records(p.media)[1..] == Records(p.media[1..]);
    HearSnoc(t, Silent, p.committed, p.media[0].record);
    RejectedForGood(t, Records(p.media[1..]));
  }

  lemma CommitHeardOlder(t: Terms, p: Pipe, k: nat)
    requires 0 < k <= |p.media|
    ensures HeardOlder(t, Commit(p), k - 1) == HeardOlder(t, p, k)
  {
    CommitHeard(t, p);
    assert Commit(p).media[..k - 1] == p.media[..k][1..];
    assert Records(p.media[..k])[1..] == Records(p.media[..k][1..]);
  }

  /** The END at the tail is still there after the head has gone. */
  lemma ClosingKept(t: Terms, p: Pipe)
    requires |p.media| > 1 && Closing(t, p)
    ensures Closing(t, Commit(p))
  {
    CommitHeard(t, p);
    CommitHeardOlder(t, p, |p.media| - 1);
  }

  lemma CommitQuiet(t: Terms, p: Pipe)
    requires Quiet(t, p) && p.media != []
    ensures Quiet(t, Commit(p)) && Commit(p).streamId == p.streamId && Commit(p).delivered == p.delivered
    ensures !Finishes(p)
  {
    CommitHeard(t, p);
  }

  /** Nothing of a stream follows its END. */
  lemma EndIsLast(t: Terms, p: Pipe)
    requires p.media != [] && Underway(t, p) && Finishes(p) && Heard(t, p) != Rejected
    ensures |p.media| == 1 && Heard(t, p) == Silent
  {
    CommitHeard(t, p);
    if |p.media| > 1 {
      SilentRejects(t, p.media[1..]);
    }
  }

  /** The head record belongs to the current stream and its START is already out. */
  lemma CommitUnderway(t: Terms, p: Pipe)
    requires p.media != [] && Underway(t, p) && Heard(t, p) != Rejected
    ensures if Finishes(p) then Commit(p).media == [] && Heard(t, p) == Silent
            else Underway(t, Commit(p)) && Commit(p).streamId == p.streamId
  {
    CommitHeard(t, p);
    if Finishes(p) {
      EndIsLast(t, p);
    }
  }

  /** The head record precedes, or is, the queued START. */
  lemma CommitWaiting(t: Terms, p: Pipe, k: nat)
    requires Waiting(t, p, k) && Heard(t, p) != Rejected
    ensures !Finishes(p) && Commit(p).delivered == p.delivered && Commit(p).streamId == p.streamId
    ensures k == 0 ==> Underway(t, Commit(p))
    ensures k > 0 ==> Waiting(t, Commit(p), k - 1)
  {
    CommitHeard(t, p);
    if k == 0 {
      assert p.media[0..] == p.media && p.media[..0] == [];
    } else {
      var p' := Commit(p);
      CommitHeardOlder(t, p, k);
      assert p.media[..k][0] == p.media[0];
      assert p'.media[..k - 1] == p.media[..k][1..];
      assert p'.media[k - 1..] == p.media[k..];
      assert p'.media[k..] == p.media[k + 1..];
    }
  }

  lemma CommitLaid(t: Terms, p: Pipe)
    requires p.media != [] && Laid(t, p) && Heard(t, p) != Rejected
    ensures if Finishes(p) then Commit(p).media == [] && Heard(t, p) == Silent
            else Laid(t, Commit(p)) && Commit(p).streamId == p.streamId
  {
    if Underway(t, p) {
      CommitUnderway(t, p);
    } else {
      var k: nat :| Waiting(t, p, k);
      CommitWaiting(t, p, k);
    }
  }

  // ----- appending a record -----

  lemma AppendHeard(t: Terms, p: Pipe, r: Record)
    ensures Heard(t, Append(p, r)) == Hear(t, Heard(t, p), r)
    ensures HeardOlder(t, Append(p, r), |p.media|) == Heard(t, p)
  {
    RecordsSnoc(p.media, Queued(p.streamId, r));
    HearSnoc(t, HeardDone(t, p), Records(p.media), r);
    assert Append(p, r).media[..|p.media|] == p.media;
  }

  /** A further record of the current stream keeps the shape of the queue. */
  lemma AppendLaid(t: Terms, p: Pipe, r: Record)
    requires Laid(t, p) && !r.Started?
    ensures Laid(t, Append(p, r))
  {
    var p', m := Append(p, r), Queued(p.streamId, r);
    if !Underway(t, p) {
      var k: nat :| Waiting(t, p, k);
      assert p'.media[..k] == p.media[..k];
      assert p'.media[k..] == p.media[k..] + [m];
      assert p'.media[k + 1..] == p.media[k + 1..] + [m];
      assert Waiting(t, p', k);
    }
  }

  // ----- discarding the current stream -----

  /** After the discard: the queue ends with this stream's START, or is empty behind it. */
  ghost predicate Cut(t: Terms, p: Pipe)
  {
    if p.media == [] then Underway(t, p)
    else Waiting(t, p, |p.media| - 1) && Heard(t, p).Listening?
  }

  lemma DiscardCut(t: Terms, p: Pipe)
    requires Laid(t, p) && Heard(t, p) != Rejected
    ensures Cut(t, Discarded(p))
  {
    if Underway(t, p) {
      KeptOwn(p.media, p.streamId);
    } else {
      var k: nat :| Waiting(t, p, k);
      KeptWaiting(p.media, k, p.streamId);
      CutWaiting(t, p, k);
    }
  }

  lemma KeptWaiting(q: seq<Queued>, k: nat, id: nat)
    requires k < |q| && Foreign(q[..k], id) && q[k].record.Started? && Own(q[k..], id) && NoStart(q[k + 1..])
    ensures Kept(q, id) == q[..k] + [q[k]]
  {
    var older, tail := q[..k], q[k + 1..];
    assert q == older + ([q[k]] + tail);
    KeptConcat(older, [q[k]] + tail, id);
    KeptForeign(older, id);
    assert ([q[k]] + tail)[1..] == tail;
    assert Own(tail, id) by { assert forall i :: 0 <= i < |tail| ==> tail[i] == q[k..][i + 1]; }
    KeptOwn(tail, id);
  }

  lemma CutWaiting(t: Terms, p: Pipe, k: nat)
    requires Waiting(t, p, k) && Heard(t, p) != Rejected
    ensures Cut(t, p.(media := p.media[..k] + [p.media[k]]))
  {
    var p', m := p.(media := p.media[..k] + [p.media[k]]), p.media[k];
    assert p'.media[..k] == p.media[..k] && p'.media[k..] == [m] && p'.media[k + 1..] == [];
    HeardSplit(t, p', k);
    HeardSplit(t, p, k);
    assert p.media[k..][1..] == p.media[k + 1..] && [m][1..] == [];
    assert m == p.media[k..][0];
    RejectedForGood(t, Records(p.media[k + 1..]));
    assert Records(p.media[k..])[1..] == Records(p.media[k + 1..]);
  }

  /** What the host holds after a cut queue is what the delivered counters say. */
  lemma CutHeard(t: Terms, p: Pipe)
    requires Cut(t, p)
    ensures Heard(t, p).Listening? && Tallied(p.streamId, p.delivered, Heard(t, p).stream)
  {
    if p.media != [] {
      var k := |p.media| - 1;
      HeardSplit(t, p, k);
      assert p.media[k..] == [p.media[k]];
      assert [p.media[k]][1..] == [];
    }
  }

  lemma CutCommit(t: Terms, p: Pipe)
    requires Cut(t, p) && p.media != []
    ensures !Finishes(p) && Cut(t, Commit(p))
    ensures Commit(p).delivered == p.delivered && Commit(p).streamId == p.streamId
  {
    CommitHeard(t, p);
    CommitWaiting(t, p, |p.media| - 1);
  }

  // ----- the invariant -----

  ghost predicate SourceIs(s: State, h: Stream)
  {
    && Tallied(s.pipe.streamId, s.source, h)
    && h.seqNo == s.progress.frameSeq && h.offset == s.progress.offset && h.maxUnitBytes == s.progress.maxUnit
    && h.pending == if h.offset == 0 then None
                    else Some(Meta(h.unit, s.progress.unitSize, h.samples, s.progress.unitSamples, h.epoch))
  }

  /** The host, once it has heard everything queued but a final END, stands where the source
      stands. */
  ghost predicate Drawn(t: Terms, s: State)
  {
    if s.ending then
      && Closing(t, s.pipe) && s.progress.offset == 0
      && SourceIs(s, HeardOlder(t, s.pipe, |s.pipe.media| - 1).stream)
    else Heard(t, s.pipe).Listening? && SourceIs(s, Heard(t, s.pipe).stream)
  }

  ghost predicate Numbered(q: seq<Queued>, last: nat)
  {
    forall i :: 0 <= i < |q| ==> 0 < q[i].stream <= last
  }

  /** Counters that still fit the fields they are sent in. */
  ghost predicate InRange(t: Tally)
  {
    t.samples <= U64_MAX && t.units <= U32_MAX && t.epoch <= U32_MAX
  }

  ghost predicate Bounds(s: State)
  {
    && s.gate.nowUs <= U64_MAX && s.gate.startedUs <= U64_MAX && s.nextStreamId <= U32_MAX
    && InRange(s.source)
    && Numbered(s.pipe.media, s.nextStreamId)
    && (if s.delivering then s.active && 0 < s.pipe.streamId <= s.nextStreamId else s.pipe.streamId == 0 && !s.ending)
  }

  ghost predicate Inv(c: Config, s: State)
  {
    && c.Valid() && Bounds(s)
    && (!s.active ==> s.pipe.media == [] && HeardDone(c.terms, s.pipe) != Rejected)
    && (s.active && !s.delivering ==> Quiet(c.terms, s.pipe))
    && (s.delivering ==> Laid(c.terms, s.pipe) && Drawn(c.terms, s))
  }

  /** The headline: whatever the server has committed, the host has accepted. */
  lemma InvAccepts(c: Config, s: State)
    requires Inv(c, s)
    ensures HeardDone(c.terms, s.pipe) != Rejected
  {
    RejectedForGood(c.terms, Records(s.pipe.media));
    if s.ending {
      RejectedForGood(c.terms, Records(s.pipe.media[..|s.pipe.media| - 1]));
    }
  }

  /** Committing touches nothing the source side owns. */
  ghost predicate Steady(s: State, s': State)
  {
    && s'.active == s.active && s'.gate == s.gate && s'.nextStreamId == s.nextStreamId
    && s'.source == s.source && s'.progress == s.progress
    && (s.delivering && !s.ending ==> s'.delivering && !s'.ending && s'.pipe.streamId == s.pipe.streamId)
  }

  lemma CommitInv(c: Config, s: State)
    requires Inv(c, s) && s.active && s.pipe.media != []
    ensures Inv(c, CommitOne(s)) && Steady(s, CommitOne(s))
    ensures Heard(c.terms, CommitOne(s).pipe) == Heard(c.terms, s.pipe)
  {
    var t, p := c.terms, s.pipe;
    CommitHeard(t, p);
    if !s.delivering {
      CommitQuiet(t, p);
    } else {
      CommitLaid(t, p);
      if s.ending && !Finishes(p) { EndingKept(t, s); }
    }
  }

  lemma EndingKept(t: Terms, s: State)
    requires s.delivering && s.ending && Laid(t, s.pipe) && Drawn(t, s) && !Finishes(s.pipe)
    ensures Drawn(t, CommitOne(s))
  {
    var p := s.pipe;
    if |p.media| == 1 {
      OnlyEnd(t, p);
    } else {
      ClosingKept(t, p);
      CommitHeardOlder(t, p, |p.media| - 1);
    }
  }

  /** A single queued END is the current stream's. */
  lemma OnlyEnd(t: Terms, p: Pipe)
    requires Laid(t, p) && |p.media| == 1 && p.media[0].record.Ended?
    ensures Finishes(p)
  {
  }

  lemma {:induction false} CommitSomeInv(c: Config, s: State, n: nat)
    requires Inv(c, s) && s.active
    ensures Inv(c, CommitSome(s, n)) && Steady(s, CommitSome(s, n))
    ensures Heard(c.terms, CommitSome(s, n).pipe) == Heard(c.terms, s.pipe)
    decreases n
  {
    if n > 0 && s.pipe.media != [] {
      CommitInv(c, s);
      CommitSomeInv(c, CommitOne(s), n - 1);
    }
  }

  lemma TeardownInv(c: Config, s: State)
    requires c.Valid() && s.gate.nowUs <= U64_MAX && s.gate.startedUs <= U64_MAX && s.nextStreamId <= U32_MAX
    requires InRange(s.source)
    requires HeardDone(c.terms, s.pipe) != Rejected
    ensures Inv(c, Teardown(s))
  {
  }

  lemma FlushInv(c: Config, s: State, f: Flush)
    requires Inv(c, s)
    ensures var s' := FlushOutput(s, f);
            Inv(c, s') && (s'.active ==> Steady(s, s') && Heard(c.terms, s'.pipe) == Heard(c.terms, s.pipe))
  {
    if s.active {
      CommitSomeInv(c, s, f.count);
      InvAccepts(c, CommitSome(s, f.count));
      TeardownInv(c, CommitSome(s, f.count));
    }
  }

  /** The state in which `media_enqueue` decides: flushed first when there was no room. */
  ghost function Ready(c: Config, s: State, r: Record, f: Flush): State
  {
    if Full(c, s, r) then FlushOutput(s, f) else s
  }

  lemma ReadyInv(c: Config, s: State, r: Record, f: Flush)
    requires Inv(c, s)
    ensures var s' := Ready(c, s, r, f);
            Inv(c, s') && (s'.active ==> Steady(s, s') && Heard(c.terms, s'.pipe) == Heard(c.terms, s.pipe))
  {
    FlushInv(c, s, f);
  }

  // ----- ending a stream -----

  /** A drained END reports what the source produced, and the host agrees. */
  lemma DrainInv(c: Config, s: State, reason: nat, f: Flush)
    requires Inv(c, s) && s.delivering && !s.ending && s.progress.offset == 0 && reason <= 9
    ensures Inv(c, FinishStream(c, s, reason, false, f))
  {
    var r := EndRecord(s, reason, s.source);
    var s1 := Ready(c, s, r, f);
    ReadyInv(c, s, r, f);
    if s1.active && !Full(c, s1, r) {
      AppendHeard(c.terms, s1.pipe, r);
      AppendLaid(c.terms, s1.pipe, r);
    } else {
      InvAccepts(c, s1);
      TeardownInv(c, s1);
    }
  }

  /** The delivered counters during an abort, while its END is being queued. */
  ghost predicate Cutting(c: Config, s: State)
  {
    && c.Valid() && Bounds(s) && s.active && s.delivering && Cut(c.terms, s.pipe)
  }

  /** Even when queuing END flushes the queue, the counters it reports do not move. */
  lemma {:induction false} CuttingCommits(c: Config, s: State, n: nat)
    requires Cutting(c, s)
    ensures var s' := CommitSome(s, n);
            Cutting(c, s') && s'.pipe.delivered == s.pipe.delivered && s'.pipe.streamId == s.pipe.streamId
            && s'.gate == s.gate && s'.nextStreamId == s.nextStreamId && s'.source == s.source
    decreases n
  {
    if n > 0 && s.pipe.media != [] {
      CutCommit(c.terms, s.pipe);
      CuttingCommits(c, CommitOne(s), n - 1);
    }
  }

  lemma CutAccepts(t: Terms, p: Pipe)
    requires Cut(t, p)
    ensures HeardDone(t, p) != Rejected
  {
    CutHeard(t, p);
    RejectedForGood(t, Records(p.media));
  }

  lemma DiscardCutting(c: Config, s: State)
    requires Inv(c, s) && s.delivering
    ensures Cutting(c, s.(pipe := Discarded(s.pipe)))
  {
    DiscardCut(c.terms, s.pipe);
    KeptNumbered(s.pipe.media, s.pipe.streamId, s.nextStreamId);
  }

  lemma {:induction false} KeptNumbered(q: seq<Queued>, id: nat, last: nat)
    requires Numbered(q, last)
    ensures Numbered(Kept(q, id), last)
  {
    if q != [] {
      KeptNumbered(q[1..], id, last);
    }
  }

  /** An aborting END reports exactly the DATA committed before it, and the host agrees. */
  lemma CutEnds(c: Config, s: State, reason: nat)
    requires Cutting(c, s) && reason <= 9 && !DrainReason(reason)
    ensures Inv(c, Closed(s.(pipe := Append(s.pipe, EndRecord(s, reason, s.pipe.delivered)))))
  {
    var r := EndRecord(s, reason, s.pipe.delivered);
    CutHeard(c.terms, s.pipe);
    AppendHeard(c.terms, s.pipe, r);
    var p := Append(s.pipe, r);
    assert Heard(c.terms, p.(streamId := 0)) == Heard(c.terms, p);
  }

  lemma CutFlush(c: Config, s: State, r: Record, f: Flush)
    requires Cutting(c, s)
    ensures var s' := Ready(c, s, r, f);
            if s'.active then
              Cutting(c, s') && s'.pipe.delivered == s.pipe.delivered && s'.pipe.streamId == s.pipe.streamId
              && s'.gate == s.gate
            else Inv(c, s')
    ensures Inv(c, Teardown(Ready(c, s, r, f)))
  {
    var s1 := CommitSome(s, f.count);
    CuttingCommits(c, s, f.count);
    CutAccepts(c.terms, s1.pipe);
    CutAccepts(c.terms, s.pipe);
    TeardownInv(c, s1);
    TeardownInv(c, s);
    TeardownInv(c, Teardown(s1));
  }

  lemma CutInv(c: Config, s: State, reason: nat, f: Flush)
    requires Inv(c, s) && s.delivering && reason <= 9 && !DrainReason(reason)
    ensures Inv(c, CutStream(c, s, reason, f)) && !CutStream(c, s, reason, f).delivering
  {
    var s0, r := s.(pipe := Discarded(s.pipe)), EndRecord(s, reason, s.pipe.delivered);
    DiscardCutting(c, s);
    CutFlush(c, s0, r, f);
    var s1 := Ready(c, s0, r, f);
    if s1.active {
      assert r == EndRecord(s1, reason, s1.pipe.delivered);
      CutEnds(c, s1, reason);
    }
  }

  lemma FinishInv(c: Config, s: State, reason: nat, clear: bool, f: Flush)
    requires Inv(c, s) && reason <= 9 && (clear ==> !DrainReason(reason))
    ensures Inv(c, FinishStream(c, s, reason, clear, f))
    ensures clear ==> !FinishStream(c, s, reason, clear, f).delivering
  {
    if s.delivering {
      if clear {
        CutInv(c, s, reason, f);
      } else if s.progress.offset != 0 {
        CutInv(c, s, END_INVALID_ENCODED_DATA, f);
      } else if !s.ending {
        DrainInv(c, s, reason, f);
      }
    }
  }

  lemma GateInv(c: Config, s: State, g: Gate)
    requires Inv(c, s) && g.nowUs <= U64_MAX && g.startedUs <= U64_MAX
    ensures Inv(c, s.(gate := g))
  {
  }

  lemma FaultInv(c: Config, s: State, reason: nat, f: Flush)
    requires Inv(c, s) && reason <= 9 && !DrainReason(reason)
    ensures Inv(c, Fault(c, s, reason, f)) && !Fault(c, s, reason, f).delivering
  {
    FinishInv(c, s, reason, true, f);
    var s1 := FinishStream(c, s, reason, true, f);
    var s2 := if s1.gate.sourceActive then StopSource(s1) else s1;
    GateInv(c, s1, s2.gate);
    var s3 := s2.(gate := s2.gate.(enabled := false));
    GateInv(c, s2, s3.gate);
    InvAccepts(c, s3);
    TeardownInv(c, s3);
  }

  // ----- opening a stream -----

  /** Between the new identity and its START record: nothing of it is queued yet. */
  ghost predicate Opening(c: Config, s: State)
  {
    && c.Valid() && Bounds(s) && s.active && s.delivering && !s.ending && Quiet(c.terms, s.pipe)
    && s.pipe.delivered == Tally(0, 0, 0, 1) && s.source == Tally(0, 0, 0, 0)
    && s.progress.frameSeq == 0 && s.progress.offset == 0
  }

  lemma OpenedOpening(c: Config, s: State)
    requires Inv(c, s) && s.active && !s.delivering && s.nextStreamId < U32_MAX
    ensures Opening(c, Opened(s))
  {
    assert Heard(c.terms, Opened(s).pipe) == Heard(c.terms, s.pipe);
  }

  lemma {:induction false} OpeningCommits(c: Config, s: State, n: nat)
    requires Opening(c, s)
    ensures Opening(c, CommitSome(s, n)) && Steady(s, CommitSome(s, n))
    decreases n
  {
    if n > 0 && s.pipe.media != [] {
      CommitQuiet(c.terms, s.pipe);
      OpeningCommits(c, CommitOne(s), n - 1);
    }
  }

  lemma OpeningCloses(c: Config, s: State)
    requires Opening(c, s)
    ensures Inv(c, Closed(s)) && Inv(c, Teardown(s))
  {
    assert Heard(c.terms, Closed(s).pipe) == Heard(c.terms, s.pipe);
    RejectedForGood(c.terms, Records(s.pipe.media));
    TeardownInv(c, s);
  }

  lemma StartHeard(c: Config, s: State, f: SourceFormat)
    requires Opening(c, s) && Accepted(c, s, f)
    ensures var fmt := FormatOf(s, f, 1, true);
            Hear(c.terms, Silent, Started(fmt))
            == Listening(Stream(s.pipe.streamId, 0, 1, 0, 0, 0, 1, None, f.maxUnitBytes))
  {
  }

  lemma StartQueued(c: Config, s: State, f: SourceFormat)
    requires Opening(c, s) && Accepted(c, s, f)
    ensures Inv(c, Adopted(s.(pipe := Append(s.pipe, Started(FormatOf(s, f, 1, true)))), 1, f.maxUnitBytes))
  {
    var r := Started(FormatOf(s, f, 1, true));
    var p, k := Append(s.pipe, r), |s.pipe.media|;
    AppendHeard(c.terms, s.pipe, r);
    StartHeard(c, s, f);
    assert p.media[..k] == s.pipe.media && p.media[k..] == [Queued(p.streamId, r)] && p.media[k + 1..] == [];
    assert Waiting(c.terms, p, k);
  }

  lemma StartInv(c: Config, s: State, f: SourceFormat, o: Oracle)
    requires Inv(c, s)
    ensures Inv(c, OnStart(c, s, f, o))
  {
    if !s.gate.sourceActive {
      FaultInv(c, s, END_INVALID_ENCODED_DATA, o(1));
    } else if !s.gate.enabled || !s.active || s.gate.waitingIdle {
      GateInv(c, s, StopSource(s).gate);
    } else {
      FinishInv(c, s, END_BUFFER_OVERRUN, true, o(2));
      var s1 := if s.delivering then FinishStream(c, s, END_BUFFER_OVERRUN, true, o(2)) else s;
      if !Accepted(c, s1, f) {
        FaultInv(c, s1, END_UNSUPPORTED_FORMAT, o(3));
      } else if s1.nextStreamId == U32_MAX {
        InvAccepts(c, s1);
        TeardownInv(c, s1);
      } else {
        FinishedActive(c, s, o(2));
        OpenStream(c, s1, f, o);
      }
    }
  }

  /** A session that ended with the old stream no longer has a codec list to accept from. */
  lemma FinishedActive(c: Config, s: State, f: Flush)
    requires Inv(c, s) && s.active
    ensures var s1 := FinishStream(c, s, END_BUFFER_OVERRUN, true, f);
            s1.active || !s1.gate.listed
  {
  }

  lemma OpenStream(c: Config, s: State, f: SourceFormat, o: Oracle)
    requires Inv(c, s) && s.active && !s.delivering && s.nextStreamId < U32_MAX && Accepted(c, s, f)
    ensures var t := QueueFormat(c, Opened(s), f, true, o);
            if t.ok then Inv(c, t.s) else Inv(c, Fault(c, Closed(t.s), END_BUFFER_OVERRUN, o(4)))
  {
    var s0 := Opened(s);
    OpenedOpening(c, s);
    assert Accepted(c, s0, f);
    var r := Started(FormatOf(s0, f, 1, true));
    OpeningCommits(c, s0, o(0).count);
    var s1 := Ready(c, s0, r, o(0));
    if s1.active {
      assert r == Started(FormatOf(s1, f, 1, true)) && Accepted(c, s1, f);
      StartQueued(c, s1, f);
      OpeningCloses(c, s1);
      FaultInv(c, Closed(s1), END_BUFFER_OVERRUN, o(4));
    } else {
      OpeningCloses(c, CommitSome(s0, o(0).count));
      assert Closed(s1) == s1;
      FaultInv(c, s1, END_BUFFER_OVERRUN, o(4));
    }
  }

  // ----- a new format -----

  /** The queued FORMAT is the one the host will take next, exactly while the unit counter
      still fits its 32-bit field. */
  lemma FormatHeard(c: Config, s: State, f: SourceFormat)
    requires Inv(c, s) && s.delivering && !s.ending && Accepted(c, s, f)
    requires s.progress.offset == 0 && s.source.epoch < U32_MAX
    ensures var r := Reformat(FormatOf(s, f, s.source.epoch + 1, false));
            var h := Heard(c.terms, s.pipe).stream;
            Hear(c.terms, Listening(h), r)
            == if s.source.units < U32_MAX
               then Listening(h.(epoch := s.source.epoch + 1, maxUnitBytes := f.maxUnitBytes)) else Rejected
  {
  }

  lemma FormatQueued(c: Config, s: State, f: SourceFormat)
    requires Inv(c, s) && s.delivering && !s.ending && Accepted(c, s, f)
    requires s.progress.offset == 0 && s.source.epoch < U32_MAX && s.source.units < U32_MAX
    ensures var e := s.source.epoch + 1;
            Inv(c, Adopted(s.(pipe := Append(s.pipe, Reformat(FormatOf(s, f, e, false)))), e, f.maxUnitBytes))
  {
    var r := Reformat(FormatOf(s, f, s.source.epoch + 1, false));
    FormatHeard(c, s, f);
    AppendHeard(c.terms, s.pipe, r);
    AppendLaid(c.terms, s.pipe, r);
  }

  lemma FormatInv(c: Config, s: State, f: SourceFormat, o: Oracle)
    requires Inv(c, s) && s.source.units < U32_MAX
    ensures Inv(c, OnFormatEvent(c, s, f, o))
  {
    if s.delivering && !s.ending {
      if !Accepted(c, s, f) {
        FaultInv(c, s, END_UNSUPPORTED_FORMAT, o(0));
      } else if s.progress.offset != 0 || s.source.epoch == U32_MAX {
        FaultInv(c, s, END_SOURCE_DATA_LOST, o(0));
      } else {
        NewFormatInv(c, s, f, o);
        FaultInv(c, QueueFormat(c, s, f, false, o).s, END_BUFFER_OVERRUN, o(1));
      }
    }
  }

  /** An acceptable format between units is queued or refused for lack of room. */
  lemma FormatTried(c: Config, s: State, f: SourceFormat, o: Oracle)
    requires Accepted(c, s, f) && s.progress.offset == 0 && s.source.epoch < U32_MAX
    ensures var e := s.source.epoch + 1;
      var r := Reformat(FormatOf(s, f, e, false));
      var s1 := Ready(c, s, r, o(0));
      QueueFormat(c, s, f, false, o).s
      == if s1.active && !Full(c, s1, r) then Adopted(s1.(pipe := Append(s1.pipe, r)), e, f.maxUnitBytes) else s1
  {
  }

  lemma NewFormatInv(c: Config, s: State, f: SourceFormat, o: Oracle)
    requires Inv(c, s) && s.delivering && !s.ending && Accepted(c, s, f) && s.source.units < U32_MAX
    requires s.progress.offset == 0 && s.source.epoch < U32_MAX
    ensures Inv(c, QueueFormat(c, s, f, false, o).s)
  {
    var r := Reformat(FormatOf(s, f, s.source.epoch + 1, false));
    FormatTried(c, s, f, o);
    ReadyInv(c, s, r, o(0));
    var s1 := Ready(c, s, r, o(0));
    if s1.active {
      RoomForFormat(c, s, s1, f);
    }
  }

  /** The FORMAT goes in once there is room; the flush before it has moved no counter of the
      source. */
  lemma RoomForFormat(c: Config, s: State, s1: State, f: SourceFormat)
    requires Inv(c, s1) && Steady(s, s1) && s1.delivering && !s1.ending && s1.pipe.streamId == s.pipe.streamId
    requires Accepted(c, s, f) && s.source.units < U32_MAX && s.progress.offset == 0 && s.source.epoch < U32_MAX
    ensures var e := s.source.epoch + 1;
      Inv(c, Adopted(s1.(pipe := Append(s1.pipe, Reformat(FormatOf(s, f, e, false)))), e, f.maxUnitBytes))
  {
    assert FormatOf(s, f, s.source.epoch + 1, false) == FormatOf(s1, f, s1.source.epoch + 1, false);
    FormatQueued(c, s1, f);
  }

  // ----- encoded data -----

  /** What the fragment loop relies on at each turn. */
  ghost predicate Fitting(s: State, e: Encoded, bytes: seq<byte>)
  {
    && !s.ending && e.unitSize == s.progress.unitSize && e.samples == s.progress.unitSamples
    && 1 <= e.unitSize <= s.progress.maxUnit && s.progress.offset + |bytes| <= e.unitSize
    && s.source.units < U32_MAX
  }

  lemma FragmentHeard(c: Config, s: State, e: Encoded, bytes: seq<byte>)
    requires Inv(c, s) && s.delivering && Fitting(s, e, bytes) && bytes != []
    ensures var s' := Counted(s.(pipe := Append(s.pipe, FragmentOf(s, e, bytes))), e, |bytes|);
            var l := Hear(c.terms, Heard(c.terms, s.pipe), FragmentOf(s, e, bytes));
            l.Listening? && SourceIs(s', l.stream)
  {
  }

  lemma FragmentQueued(c: Config, s: State, e: Encoded, bytes: seq<byte>)
    requires Inv(c, s) && s.delivering && Fitting(s, e, bytes) && bytes != []
    ensures Inv(c, Counted(s.(pipe := Append(s.pipe, FragmentOf(s, e, bytes))), e, |bytes|))
  {
    var r := FragmentOf(s, e, bytes);
    FragmentHeard(c, s, e, bytes);
    AppendHeard(c.terms, s.pipe, r);
    AppendLaid(c.terms, s.pipe, r);
  }

  lemma {:induction false} FragmentsInv(c: Config, s: State, e: Encoded, bytes: seq<byte>, o: Oracle, k: nat)
    requires Inv(c, s) && (s.delivering && bytes != [] ==> Fitting(s, e, bytes))
    ensures Inv(c, Fragments(c, s, e, bytes, o, k))
    decreases |bytes|
  {
    if bytes != [] && s.delivering {
      if s.progress.frameSeq == U32_MAX {
        FaultInv(c, s, END_INVALID_ENCODED_DATA, o(k));
      } else {
        var take := if |bytes| > FRAGMENT then FRAGMENT else |bytes|;
        var r := FragmentOf(s, e, bytes[..take]);
        var s1 := Ready(c, s, r, o(k));
        ReadyInv(c, s, r, o(k));
        if s1.active && !Full(c, s1, r) {
          assert r == FragmentOf(s1, e, bytes[..take]);
          FragmentQueued(c, s1, e, bytes[..take]);
          FragmentsInv(c, Counted(s1.(pipe := Append(s1.pipe, r)), e, take), e, bytes[take..], o, k + 1);
        } else {
          FaultInv(c, s1, END_BUFFER_OVERRUN, o(k + 1));
        }
      }
    }
  }

  lemma EncodedInv(c: Config, s: State, e: Encoded, o: Oracle)
    requires Inv(c, s)
    ensures Inv(c, OnEncoded(c, s, e, o))
  {
    if s.gate.sourceActive && s.delivering && !s.ending {
      FaultInv(c, s, END_UNSUPPORTED_FORMAT, o(0));
      FaultInv(c, s, END_INVALID_ENCODED_DATA, o(0));
      if e.unitSize <= s.progress.maxUnit && !Misplaced(s, e) {
        var s1 := s.(progress := s.progress.(unitSize := e.unitSize, unitSamples := e.samples));
        assert Inv(c, s1);
        FragmentsInv(c, s1, e, e.data, o, 0);
      }
    }
  }

  // ----- every run -----

  lemma StepInv(c: Config, s: State, ev: Event, o: Oracle)
    requires Inv(c, s) && Proper(s, ev)
    ensures Inv(c, Step(c, s, ev, o))
  {
    match ev
    case Start(f) => StartInv(c, s, f, o);
    case Reformatted(f) => FormatInv(c, s, f, o);
    case EncodedData(e) => EncodedInv(c, s, e, o);
    case Faulted(reason) => FaultInv(c, s, reason, o(0));
    case SourceEnd(reason) => SourceEndInv(c, s, reason, o);
    case Abort(reason) => FinishInv(c, s, reason, true, o(0));
    case LinkGone =>
      FinishInv(c, s, END_LINK_LOST, true, o(0));
      var s' := FinishStream(c, s, END_LINK_LOST, true, o(0));
      GateInv(c, s', GateStep(s', ev));
    case Disable =>
      GateInv(c, s, GateStep(s, ev));
      FinishInv(c, s.(gate := GateStep(s, ev)), END_CONSUMER_DISABLED, true, o(0));
    case Flushed(f) => FlushInv(c, s, f);
    case SessionLost =>
      InvAccepts(c, s);
      TeardownInv(c, s);
    case _ => GateInv(c, s, GateStep(s, ev));
  }

  lemma SourceEndInv(c: Config, s: State, reason: nat, o: Oracle)
    requires Inv(c, s) && reason <= 9
    ensures Inv(c, OnSourceEnd(c, s, reason, o))
  {
    var s1 := s.(gate := s.gate.(sourceActive := false, waitingIdle := false));
    GateInv(c, s, s1.gate);
    var why := EndReason(s.gate, reason);
    FinishInv(c, s1, why, !DrainReason(why), o(0));
  }

  /** One event and how the flushes inside its handling turned out. */
  datatype Happening = Happening(ev: Event, o: Oracle)

  ghost function Run(c: Config, s: State, xs: seq<Happening>): State
    decreases |xs|
  {
    if xs == [] then s else Run(c, Step(c, s, xs[0].ev, xs[0].o), xs[1..])
  }

  ghost predicate ProperRun(c: Config, s: State, xs: seq<Happening>)
    decreases |xs|
  {
    xs != [] ==> Proper(s, xs[0].ev) && ProperRun(c, Step(c, s, xs[0].ev, xs[0].o), xs[1..])
  }

  lemma {:induction false} RunInv(c: Config, s: State, xs: seq<Happening>)
    requires Inv(c, s) && ProperRun(c, s, xs)
    ensures Inv(c, Run(c, s, xs))
    decreases |xs|
  {
    if xs != [] {
      StepInv(c, s, xs[0].ev, xs[0].o);
      RunInv(c, Step(c, s, xs[0].ev, xs[0].o), xs[1..]);
    }
  }

  /** A session that has just been created. */
  ghost predicate Initial(s: State)
  {
    && s.active && !s.delivering && !s.ending && s.pipe.streamId == 0 && s.pipe.media == [] && s.pipe.committed == []
    && s.gate.nowUs <= U64_MAX && s.gate.startedUs <= U64_MAX && s.nextStreamId <= U32_MAX
    && InRange(s.source)
  }

  /** Every run of one session commits a media sequence that the host accepts without error:
      epochs, frame, unit and sample numbers, offsets and END totals all match, and streams
      never overlap. */
  lemma HostAcceptsEveryRun(c: Config, s: State, xs: seq<Happening>)
    requires c.Valid() && Initial(s) && ProperRun(c, s, xs)
    ensures HearAll(c.terms, Silent, Run(c, s, xs).pipe.committed) != Rejected
  {
    RunInv(c, s, xs);
    InvAccepts(c, Run(c, s, xs));
  }

  // ----- conservation -----

  /** The delivered counters once every queued record of stream `id` has been committed. */
  ghost function Settled(t: Tally, q: seq<Queued>, id: nat): Tally
    decreases |q|
  {
    if q == [] then t
    else Settled(if q[0].stream == id then Delivered(t, q[0].record) else t, q[1..], id)
  }

  lemma {:induction false} SettledForeign(t: Tally, a: seq<Queued>, b: seq<Queued>, id: nat)
    requires Foreign(a, id)
    ensures Settled(t, a + b, id) == Settled(t, b, id)
    decreases |a|
  {
    if a == [] {
      assert a + b == b;
    } else {
      assert (a + b)[1..] == a[1..] + b;
      SettledForeign(t, a[1..], b, id);
    }
  }

  /** The host's counters and the settled ones advance together. */
  lemma {:induction false} SettledHeard(terms: Terms, t: Tally, h: Stream, q: seq<Queued>, id: nat)
    requires Own(q, id) && NoStart(q) && Tallied(id, t, h)
    ensures var l := HearAll(terms, Listening(h), Records(q));
            l.Listening? ==> Tallied(id, Settled(t, q, id), l.stream)
    decreases |q|
  {
    if q != [] {
      var l := Hear(terms, Listening(h), q[0].record);
      assert Records(q)[1..] == Records(q[1..]);
      RejectedForGood(terms, Records(q[1..]));
      if l.Silent? && |q| > 1 { SilentRejects(terms, q[1..]); }
      if l.Listening? {
        SettledHeard(terms, Delivered(t, q[0].record), l.stream, q[1..], id);
      }
    }
  }

  lemma SettledLaid(t: Terms, p: Pipe)
    requires Laid(t, p) && Heard(t, p).Listening?
    ensures Tallied(p.streamId, Settled(p.delivered, p.media, p.streamId), Heard(t, p).stream)
  {
    if Underway(t, p) {
      SettledHeard(t, p.delivered, HeardDone(t, p).stream, p.media, p.streamId);
    } else {
      var k: nat :| Waiting(t, p, k);
      var own, tail := p.media[k..], p.media[k + 1..];
      assert p.media == p.media[..k] + own && own[1..] == tail;
      SettledForeign(p.delivered, p.media[..k], own, p.streamId);
      HeardSplit(t, p, k);
      var l := Hear(t, Silent, own[0].record);
      assert Records(own)[1..] == Records(tail);
      RejectedForGood(t, Records(tail));
      SettledHeard(t, p.delivered, l.stream, tail, p.streamId);
    }
  }

  /** In every reachable state with a live stream, what the source has produced is what has
      been committed plus what is still queued: octets, units, samples and epoch. */
  lemma Conservation(c: Config, s: State)
    requires Inv(c, s) && s.delivering
    ensures s.source == Settled(s.pipe.delivered, s.pipe.media, s.pipe.streamId)
  {
    var t, p := c.terms, s.pipe;
    if s.ending {
      var n := |p.media| - 1;
      var body := p.(media := p.media[..n]);
      LaidWithoutEnd(t, p);
      SettledLaid(t, body);
      assert p.media == p.media[..n] + [p.media[n]];
      SettledEnd(p.delivered, p.media[..n], p.media[n], p.streamId);
    } else {
      SettledLaid(t, p);
    }
  }

  lemma {:induction false} SettledEnd(t: Tally, q: seq<Queued>, m: Queued, id: nat)
    requires m.record.Ended?
    ensures Settled(t, q + [m], id) == Settled(t, q, id)
    decreases |q|
  {
    if q == [] {
      assert q + [m] == [m] && [m][1..] == [];
    } else {
      assert (q + [m])[1..] == q[1..] + [m];
      SettledEnd(if q[0].stream == id then Delivered(t, q[0].record) else t, q[1..], m, id);
    }
  }

  lemma LaidWithoutEnd(t: Terms, p: Pipe)
    requires Laid(t, p) && Closing(t, p)
    ensures var body := p.(media := p.media[..|p.media| - 1]);
            Laid(t, body) && Heard(t, body).Listening?
  {
    var n := |p.media| - 1;
    var body := p.(media := p.media[..n]);
    if Underway(t, p) {
      assert Underway(t, body);
    } else {
      var k: nat :| Waiting(t, p, k);
      WaitingWithoutEnd(t, p, k);
    }
  }

  lemma WaitingWithoutEnd(t: Terms, p: Pipe, k: nat)
    requires Waiting(t, p, k) && Closing(t, p)
    ensures Waiting(t, p.(media := p.media[..|p.media| - 1]), k)
  {
    var n, q := |p.media| - 1, p.media[..|p.media| - 1];
    assert k < n;
    assert q[..k] == p.media[..k];
    assert q[k..] == p.media[k..][..n - k];
    assert q[k + 1..] == p.media[k + 1..][..n - k - 1];
  }

  ghost function QueuedBytes(q: seq<Queued>, id: nat): nat
  {
    if q == [] then 0
    else (if q[0].stream == id && q[0].record.Data? then |q[0].record.frag.data| else 0) + QueuedBytes(q[1..], id)
  }

  /** Whole units among the queued fragments: those whose last octet is there. */
  ghost function QueuedUnits(q: seq<Queued>, id: nat): nat
  {
    if q == [] then 0
    else (if q[0].stream == id && q[0].record.Data?
             && q[0].record.frag.offset + |q[0].record.frag.data| == q[0].record.frag.unitSize then 1 else 0)
         + QueuedUnits(q[1..], id)
  }

  lemma {:induction false} SettledSums(t: Tally, q: seq<Queued>, id: nat)
    ensures Settled(t, q, id).bytes == t.bytes + QueuedBytes(q, id)
    ensures Settled(t, q, id).units == t.units + QueuedUnits(q, id)
    decreases |q|
  {
    if q != [] {
      SettledSums(if q[0].stream == id then Delivered(t, q[0].record) else t, q[1..], id);
    }
  }

  /** Conservation over whole runs, spelled out for octets and units. */
  lemma NothingLostOrInvented(c: Config, s: State, xs: seq<Happening>)
    requires c.Valid() && Initial(s) && ProperRun(c, s, xs)
    ensures var e := Run(c, s, xs);
            e.delivering ==>
              && e.source.bytes == e.pipe.delivered.bytes + QueuedBytes(e.pipe.media, e.pipe.streamId)
              && e.source.units == e.pipe.delivered.units + QueuedUnits(e.pipe.media, e.pipe.streamId)
              && e.source == Settled(e.pipe.delivered, e.pipe.media, e.pipe.streamId)
  {
    RunInv(c, s, xs);
    var e := Run(c, s, xs);
    if e.delivering {
      Conservation(c, e);
      SettledSums(e.pipe.delivered, e.pipe.media, e.pipe.streamId);
    }
  }

  // ----- what an END says about the wire -----

  datatype Totals = Totals(bytes: nat, units: nat, samples: nat, epoch: nat)

  /** What is on the wire since the last START: DATA octets, complete units and their samples,
      and the format epoch. */
  ghost function Capture(rs: seq<Record>): Totals
    decreases |rs|
  {
    if rs == [] then Totals(0, 0, 0, 0)
    else
      var r, t := rs[|rs| - 1], Capture(rs[..|rs| - 1]);
      match r
      case Started(f) => Totals(0, 0, 0, f.epoch)
      case Reformat(f) => t.(epoch := f.epoch)
      case Data(c) =>
        if c.offset + |c.data| == c.unitSize then
          Totals(t.bytes + |c.data|, t.units + 1, Advance(t.samples, c.unitSamples), t.epoch)
        else t.(bytes := t.bytes + |c.data|)
      case Ended(_) => t
  }

  lemma {:induction false} ListeningTotals(t: Terms, rs: seq<Record>)
    requires HearAll(t, Silent, rs).Listening?
    ensures var h := HearAll(t, Silent, rs).stream;
            h.unit >= 1 && Capture(rs) == Totals(h.encodedBytes, h.unit - 1, h.samples, h.epoch)
    decreases |rs|
  {
    if rs != [] {
      var before, r := rs[..|rs| - 1], rs[|rs| - 1];
      assert rs == before + [r];
      HearSnoc(t, Silent, before, r);
      if HearAll(t, Silent, before).Listening? { ListeningTotals(t, before); }
    }
  }

  /** Each committed END, drained or aborted, reports exactly what was committed since its
      START: octets, complete units, samples and the last epoch. */
  lemma EndReportsCapture(c: Config, s: State, xs: seq<Happening>, i: nat)
    requires c.Valid() && Initial(s) && ProperRun(c, s, xs)
    requires i < |Run(c, s, xs).pipe.committed| && Run(c, s, xs).pipe.committed[i].Ended?
    ensures var rs := Run(c, s, xs).pipe.committed;
            var e := rs[i].end;
            Totals(e.encodedBytes, e.units, e.samples, e.finalEpoch) == Capture(rs[..i])
  {
    HostAcceptsEveryRun(c, s, xs);
    var rs := Run(c, s, xs).pipe.committed;
    assert rs == rs[..i + 1] + rs[i + 1..];
    PrefixAccepted(c.terms, Silent, rs[..i + 1], rs[i + 1..]);
    assert rs[..i + 1] == rs[..i] + [rs[i]];
    HearSnoc(c.terms, Silent, rs[..i], rs[i]);
    ListeningTotals(c.terms, rs[..i]);
  }
}
