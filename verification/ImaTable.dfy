/** The step table that decoder and encoder share. */
module ImaTable {
  import opened Ima

  const ROW_0: seq<nat> := [7, 8, 9, 10, 11, 12, 13, 14, 16, 17]
  const ROW_1: seq<nat> := [19, 21, 23, 25, 28, 31, 34, 37, 41, 45]
  const ROW_2: seq<nat> := [50, 55, 60, 66, 73, 80, 88, 97, 107, 118]
  const ROW_3: seq<nat> := [130, 143, 157, 173, 190, 209, 230, 253, 279, 307]
  const ROW_4: seq<nat> := [337, 371, 408, 449, 494, 544, 598, 658, 724, 796]
  const ROW_5: seq<nat> := [876, 963, 1060, 1166, 1282, 1411, 1552, 1707, 1878, 2066]
  const ROW_6: seq<nat> := [2272, 2499, 2749, 3024, 3327, 3660, 4026, 4428, 4871, 5358]
  const ROW_7: seq<nat> := [5894, 6484, 7132, 7845, 8630, 9493, 10442, 11487, 12635, 13899]
  const ROW_8: seq<nat> := [15289, 16818, 18500, 20350, 22385, 24623, 27086, 29794, 32767]

  const STEPS: seq<nat> := ROW_0 + ROW_1 + ROW_2 + ROW_3 + ROW_4 + ROW_5 + ROW_6 + ROW_7 + ROW_8

  predicate InRange(t: seq<nat>)
  {
    forall i :: 0 <= i < |t| ==> 7 <= t[i] <= 32767
  }

  lemma TableFits()
    ensures TableOk(STEPS)
  {
    assert InRange(ROW_0);
    assert InRange(ROW_1);
    assert InRange(ROW_2);
    assert InRange(ROW_3);
    assert InRange(ROW_4);
    assert InRange(ROW_5);
    assert InRange(ROW_6);
    assert InRange(ROW_7);
    assert InRange(ROW_8);
  }

  /** `y` stands for the sample `x`, coded in state `s`: within an eighth of a step and two when
      the predictor was within two steps, nearer than the predictor otherwise. */
  predicate Near(s: State, x: sample, y: sample)
    requires Valid(s)
  {
    |STEPS| == LAST + 1 &&
    var before := Distance(x, s.predictor);
    if before < 2 * STEPS[s.index] then Distance(x, y) <= STEPS[s.index] / 8 + 2 else Distance(x, y) < before
  }

  /** Each of the samples `ys` stands for the one of `xs` in its place. */
  predicate AllNear(s: State, xs: seq<sample>, ys: seq<sample>)
    requires Valid(s)
    decreases |xs|
  {
    if xs == [] then ys == []
    else ys != [] && Near(s, xs[0], ys[0]) && AllNear(EncodeSample(STEPS, s, xs[0]).state, xs[1..], ys[1..])
  }

  lemma SampleNear(s: State, x: sample)
    requires Valid(s)
    ensures Near(s, x, EncodeSample(STEPS, s, x).state.predictor)
  {
    TableFits();
    ErrorBound(STEPS, s, x);
  }

  lemma {:induction false} HeardNear(s: State, xs: seq<sample>)
    requires Valid(s) && |xs| % 2 == 0
    ensures AllNear(s, xs, Encode(Encoder(STEPS), s, xs).heard)
    decreases |xs|
  {
    if xs != [] {
      var s1 := EncodeSample(STEPS, s, xs[0]).state;
      var s2 := EncodeSample(STEPS, s1, xs[1]).state;
      var rest := Encode(Encoder(STEPS), s2, xs[2..]).heard;
      SampleNear(s, xs[0]);
      SampleNear(s1, xs[1]);
      HeardNear(s2, xs[2..]);
      var heard := [s1.predictor, s2.predictor] + rest;
      assert xs[1..][1..] == xs[2..] && heard[1..] == [s2.predictor] + rest && heard[1..][1..] == rest;
    }
  }

  /** What the client decodes from any encoded stream stays near the samples it was made of. */
  lemma StreamError(s: State, xs: seq<sample>)
    requires Valid(s) && |xs| % 2 == 0
    ensures AllNear(s, xs, Decode(Decoder(STEPS), s, Encode(Encoder(STEPS), s, xs).data).samples)
  {
    DecodeEncode(STEPS, s, xs);
    HeardNear(s, xs);
  }
}
