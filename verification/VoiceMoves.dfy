/** The media path seen from outside: four kinds of moves on the queue and the committed
    records. */
module VoiceMoves {
  import opened Bytes
  import opened HostAudio
  import opened Voice

  /** Whether the session lives, what is queued and what has been committed. */
  datatype Tape = Tape(live: bool, media: seq<Queued>, committed: seq<Record>)

  datatype Move =
    | Put(item: Queued)
    | Drop(stream: nat)       // discard what is queued of a stream, its STARTED aside
    | Take(count: nat)        // commit up to so many heads
    | Wipe                    // the session is torn down

  function Least(a: nat, b: nat): nat
  {
    if a < b then a else b
  }

  function Play(t: Tape, m: Move): Tape
  {
    match m
    case Put(item) => if t.live then t.(media := t.media + [item]) else t
    case Drop(stream) => t.(media := Kept(t.media, stream))
    case Take(count) =>
      if !t.live then t
      else
        var n := Least(count, |t.media|);
        t.(media := t.media[n..], committed := t.committed + Records(t.media[..n]))
    case Wipe => Tape(false, [], t.committed)
  }

  function PlayAll(t: Tape, ms: seq<Move>): Tape
    decreases |ms|
  {
    if ms == [] then t else PlayAll(Play(t, ms[0]), ms[1..])
  }

  function TapeOf(s: State): Tape
  {
    Tape(s.active, s.pipe.media, s.pipe.committed)
  }

  // ----- flushing -----

  lemma TakeNone(tape: Tape)
    ensures Play(tape, Take(0)) == tape
  {
    assert tape.media[..0] == [] && tape.media[0..] == tape.media;
  }

  /** The head alone. */
  function TakeHead(tape: Tape): Tape
    requires tape.media != []
  {
    tape.(media := tape.media[1..], committed := tape.committed + [tape.media[0].record])
  }

  lemma TakeOneMore(tape: Tape, n: nat)
    requires tape.live && tape.media != []
    ensures Play(TakeHead(tape), Take(n)) == Play(tape, Take(n + 1))
  {
    var q := tape.media;
    var k := Least(n, |q| - 1);
    assert q[1..][k..] == q[k + 1..];
    assert q[..k + 1][1..] == q[1..][..k];
  }

  lemma {:induction false} CommitSomeTape(s: State, n: nat)
    requires s.active
    ensures TapeOf(CommitSome(s, n)) == Play(TapeOf(s), Take(n))
    decreases n
  {
    if n == 0 || s.pipe.media == [] {
      TakeNone(TapeOf(s));
    } else {
      CommitSomeTape(CommitOne(s), n - 1);
      TakeOneMore(TapeOf(s), n - 1);
    }
  }
}
