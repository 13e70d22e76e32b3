/** IMA ADPCM: the decoder of the client and the encoder that mirrors it. */
module Ima {
  import opened Bytes

  const LAST := 88

  type sample = x: int | -32768 <= x <= 32767
  type nibble = x: int | 0 <= x < 16

  datatype State = State(predictor: sample, index: nat)

  predicate Valid(s: State)
  {
    s.index <= LAST
  }

  /** A step table: 89 positive 16-bit steps, the smallest at least 7. */
  predicate TableOk(t: seq<nat>)
  {
    |t| == LAST + 1 && forall i :: 0 <= i < |t| ==> 7 <= t[i] <= 32767
  }

  function IndexChange(m: nibble): int
    requires m < 8
  {
    if m < 4 then -1 else 2 * (m - 3)
  }

  function Clamp(x: int): sample
  {
    if x > 32767 then 32767 else if x < -32768 then -32768 else x
  }

  function ClampIndex(i: int): (r: nat)
    ensures r <= LAST
  {
    if i < 0 then 0 else if i > LAST then LAST else i
  }

  /** The bits of a nibble: sign, then step, half and quarter. */
  function Sign(n: nibble): bool
  {
    n >= 8
  }

  function Magnitude(n: nibble): (m: nibble)
    ensures m < 8
  {
    if n >= 8 then n - 8 else n
  }

  function Whole(m: nibble): bool
    requires m < 8
  {
    m >= 4
  }

  function Half(m: nibble): bool
    requires m < 8
  {
    m == 2 || m == 3 || m == 6 || m == 7
  }

  function Quarter(m: nibble): bool
    requires m < 8
  {
    m == 1 || m == 3 || m == 5 || m == 7
  }

  function Part(b: bool, x: nat): nat
  {
    if b then x else 0
  }

  function StepAt(t: seq<nat>, i: nat): nat
  {
    if i < |t| then t[i] else 0
  }

  /** How far a nibble of this magnitude moves the predictor. */
  function Move(step: nat, m: nibble): nat
    requires m < 8
  {
    step / 8 + Part(Whole(m), step) + Part(Half(m), step / 2) + Part(Quarter(m), step / 4)
  }

  /** `ima_decode_nibble`: the new state, whose predictor is the sample. */
  function DecodeNibble(t: seq<nat>, s: State, n: nibble): (r: State)
    ensures Valid(r)
  {
    var m := Magnitude(n);
    var d := Move(StepAt(t, s.index), m);
    State(Clamp(if Sign(n) then s.predictor - d else s.predictor + d), ClampIndex(s.index + IndexChange(m)))
  }

  // ----- the encoder -----

  datatype Coded = Coded(code: nibble, state: State)

  /** Three bits for a distance, by successive subtraction. */
  function Quantise(step: nat, diff: nat): (q: nibble)
    ensures q < 8
  {
    var b4 := diff >= step;
    var d1 := if b4 then diff - step else diff;
    var b2 := d1 >= step / 2;
    var d2 := if b2 then d1 - step / 2 else d1;
    Part(b4, 4) + Part(b2, 2) + Part(d2 >= step / 4, 1)
  }

  function Distance(a: int, b: int): nat
  {
    if a >= b then a - b else b - a
  }

  /** `enc_nibble`. */
  function EncodeSample(t: seq<nat>, s: State, x: sample): (c: Coded)
    ensures Valid(c.state)
  {
    var sign := x < s.predictor;
    var step := StepAt(t, s.index);
    var q := Quantise(step, Distance(x, s.predictor));
    var d := step / 8 + Part(Whole(q), step) + Part(Half(q), step / 2) + Part(Quarter(q), step / 4);
    Coded(q + Part(sign, 8),
          State(Clamp(if sign then s.predictor - d else s.predictor + d), ClampIndex(s.index + IndexChange(q))))
  }

  /** Decoding an encoded sample leaves the decoder in exactly the encoder's state. */
  lemma DecoderTracks(t: seq<nat>, s: State, x: sample)
    ensures DecodeNibble(t, s, EncodeSample(t, s, x).code) == EncodeSample(t, s, x).state
  {
    var q := Quantise(StepAt(t, s.index), Distance(x, s.predictor));
    assert Magnitude(q) == q && Magnitude(q + 8) == q;
  }

  // ----- the error -----

  /** What is left of a distance after its three bits. */
  lemma QuantiseError(step: nat, diff: nat)
    requires step >= 7
    ensures var d := Move(step, Quantise(step, diff));
      if diff < 2 * step then -(step / 8) <= diff - d <= step / 8 + 2 else 0 <= diff - d < diff
  {
    QuantiseBits(step, diff);
  }

  lemma QuantiseBits(step: nat, diff: nat)
    ensures var b4 := diff >= step;
      var d1 := if b4 then diff - step else diff;
      var b2 := d1 >= step / 2;
      var d2 := if b2 then d1 - step / 2 else d1;
      var q := Quantise(step, diff);
      Whole(q) == b4 && Half(q) == b2 && Quarter(q) == (d2 >= step / 4)
  {
  }

  lemma ClampCloser(x: sample, p: int)
    ensures Distance(x, Clamp(p)) <= Distance(x, p)
  {
  }

  /** A sample within two steps of the predictor is coded with an error of at most an eighth of
      a step and two, even when the predictor is clamped; a sample further away is approached. */
  lemma ErrorBound(t: seq<nat>, s: State, x: sample)
    requires TableOk(t) && Valid(s)
    ensures var before, after := Distance(x, s.predictor), Distance(x, EncodeSample(t, s, x).state.predictor);
      && (before < 2 * t[s.index] ==> after <= t[s.index] / 8 + 2 && after <= t[s.index] / 4 + 1)
      && (before >= 2 * t[s.index] ==> after < before)
  {
    var step, diff := t[s.index], Distance(x, s.predictor);
    var d := Move(step, Quantise(step, diff));
    QuantiseError(step, diff);
    ClampCloser(x, if x < s.predictor then s.predictor - d else s.predictor + d);
  }

  // ----- streams, for any nibble decoder and encoder -----

  datatype Decoded = Decoded(samples: seq<sample>, state: State)

  function High(b: byte): nibble
  {
    b / 16
  }

  function Lower(b: byte): nibble
  {
    b % 16
  }

  /** Two samples an octet, the high nibble first. */
  function Decode(f: (State, nibble) -> State, s: State, data: seq<byte>): (d: Decoded)
    ensures |d.samples| == 2 * |data|
    decreases |data|
  {
    if data == [] then Decoded([], s)
    else
      var s1 := f(s, High(data[0]));
      var s2 := f(s1, Lower(data[0]));
      var rest := Decode(f, s2, data[1..]);
      Decoded([s1.predictor, s2.predictor] + rest.samples, rest.state)
  }

  lemma DecodeFirst(f: (State, nibble) -> State, s: State, b: byte, rest: seq<byte>)
    ensures var s1 := f(s, High(b));
      var s2 := f(s1, Lower(b));
      var d := Decode(f, s2, rest);
      Decode(f, s, [b] + rest) == Decoded([s1.predictor, s2.predictor] + d.samples, d.state)
  {
    assert ([b] + rest)[1..] == rest;
  }

  /** Decoding may be cut anywhere when the state is carried over. */
  lemma {:induction false} DecodeConcat(f: (State, nibble) -> State, s: State, a: seq<byte>, b: seq<byte>)
    ensures Decode(f, s, a + b).samples == Decode(f, s, a).samples + Decode(f, Decode(f, s, a).state, b).samples
    ensures Decode(f, s, a + b).state == Decode(f, Decode(f, s, a).state, b).state
    decreases |a|
  {
    if a == [] {
      assert a + b == b;
    } else {
      assert a + b == [a[0]] + (a[1..] + b) && a == [a[0]] + a[1..];
      DecodeFirst(f, s, a[0], a[1..] + b);
      DecodeFirst(f, s, a[0], a[1..]);
      DecodeConcat(f, f(f(s, High(a[0])), Lower(a[0])), a[1..], b);
    }
  }

  datatype Encoded = Encoded(data: seq<byte>, heard: seq<sample>, state: State)

  lemma Nibbles(hi: nibble, lo: nibble)
    ensures hi * 16 + lo < 256 && High(hi * 16 + lo) == hi && Lower(hi * 16 + lo) == lo
  {
  }

  /** Pairs of samples to octets; `heard` lists the predictor after each sample. */
  function Encode(g: (State, sample) -> Coded, s: State, xs: seq<sample>): (e: Encoded)
    requires |xs| % 2 == 0
    decreases |xs|
  {
    if xs == [] then Encoded([], [], s)
    else
      var c1 := g(s, xs[0]);
      var c2 := g(c1.state, xs[1]);
      var rest := Encode(g, c2.state, xs[2..]);
      Encoded([c1.code * 16 + c2.code] + rest.data, [c1.state.predictor, c2.state.predictor] + rest.heard, rest.state)
  }

  /** The decoder follows the encoder sample by sample. */
  ghost predicate Tracks(f: (State, nibble) -> State, g: (State, sample) -> Coded)
  {
    forall s, x :: f(s, g(s, x).code) == g(s, x).state
  }

  lemma {:induction false} DecodeFollows(f: (State, nibble) -> State, g: (State, sample) -> Coded, s: State, xs: seq<sample>)
    requires Tracks(f, g) && |xs| % 2 == 0
    ensures Decode(f, s, Encode(g, s, xs).data) == Decoded(Encode(g, s, xs).heard, Encode(g, s, xs).state)
    decreases |xs|
  {
    if xs != [] {
      var c1 := g(s, xs[0]);
      var c2 := g(c1.state, xs[1]);
      DecodeFollows(f, g, c2.state, xs[2..]);
      Nibbles(c1.code, c2.code);
      DecodeFirst(f, s, c1.code * 16 + c2.code, Encode(g, c2.state, xs[2..]).data);
    }
  }

  // ----- IMA streams -----

  function Decoder(t: seq<nat>): (State, nibble) -> State
  {
    (s: State, n: nibble) => DecodeNibble(t, s, n)
  }

  function Encoder(t: seq<nat>): (State, sample) -> Coded
  {
    (s: State, x: sample) => EncodeSample(t, s, x)
  }

  lemma ImaTracks(t: seq<nat>)
    ensures Tracks(Decoder(t), Encoder(t))
  {
    forall s: State, x: sample
      ensures Decoder(t)(s, Encoder(t)(s, x).code) == Encoder(t)(s, x).state
    {
      DecoderTracks(t, s, x);
    }
  }

  /** Over any samples and any start: the decoder gives exactly the encoder's predictors and
      ends in its state. */
  lemma DecodeEncode(t: seq<nat>, s: State, xs: seq<sample>)
    requires |xs| % 2 == 0
    ensures var e := Encode(Encoder(t), s, xs);
      Decode(Decoder(t), s, e.data) == Decoded(e.heard, e.state)
  {
    ImaTracks(t);
    DecodeFollows(Decoder(t), Encoder(t), s, xs);
  }

  // ----- as it runs -----

  lemma DecodeSnoc(f: (State, nibble) -> State, s: State, data: seq<byte>, b: byte)
    ensures var d := Decode(f, s, data);
      var s1 := f(d.state, High(b));
      var s2 := f(s1, Lower(b));
      Decode(f, s, data + [b]) == Decoded(d.samples + [s1.predictor] + [s2.predictor], s2)
  {
    DecodeConcat(f, s, data, [b]);
    assert [b][1..] == [];
  }

  /** `ima_decode`, for the nibble decoder `f`: whole octets only, as many as the output has
      room for. */
  method DecodeInto(f: (State, nibble) -> State, start: State, data: seq<byte>, out: array<int>) returns (n: nat, end: State)
    modifies out
    ensures n == if 2 * |data| <= out.Length then 2 * |data| else out.Length / 2 * 2
    ensures var d := Decode(f, start, data[..n / 2]); out[..n] == d.samples && end == d.state
    ensures forall k :: n <= k < out.Length ==> out[k] == old(out[k])
  {
    n, end := 0, start;
    var i := 0;
    assert data[..0] == [] && Decode(f, start, []) == Decoded([], start);
    hide Decode;
    while i < |data| && n + 2 <= out.Length
      invariant i <= |data| && n == 2 * i <= out.Length
      invariant var d := Decode(f, start, data[..i]); out[..n] == d.samples && end == d.state
      invariant forall k :: n <= k < out.Length ==> out[k] == old(out[k])
    {
      DecodeSnoc(f, start, data[..i], data[i]);
      assert data[..i + 1] == data[..i] + [data[i]];
      end := PutOctet(f, end, data[i], out, n);
      n := n + 2;
      i := i + 1;
    }
  }

  /** Both nibbles of one octet. */
  method PutOctet(f: (State, nibble) -> State, s: State, b: byte, out: array<int>, n: nat) returns (end: State)
    requires n + 2 <= out.Length
    modifies out
    ensures end == f(f(s, High(b)), Lower(b))
    ensures out[..n + 2] == old(out[..n]) + [f(s, High(b)).predictor, end.predictor]
    ensures forall k :: n + 2 <= k < out.Length ==> out[k] == old(out[k])
  {
    end := f(s, High(b));
    PutSample(out, n, end.predictor);
    end := f(end, Lower(b));
    PutSample(out, n + 1, end.predictor);
  }

  method PutSample(out: array<int>, n: nat, x: sample)
    requires n < out.Length
    modifies out
    ensures out[..n + 1] == old(out[..n]) + [x]
    ensures forall k :: n < k < out.Length ==> out[k] == old(out[k])
  {
    out[n] := x;
  }
}
