/**
  The assistant's microphone: audio blocks of any size, at the device's rate,
  become 16-bit samples at 16 kHz in chunks of 100 ms. However the input is cut
  into blocks, what comes out is one interpolation of the whole of it. Samples
  are real numbers here: rounding is not modelled.
 */
module Resampler {
  const CHUNK := 1600

  function Clamp(s: real): real {
    if s > 1.0 then 1.0 else if s < -1.0 then -1.0 else s
  }

  /** A sample as a 16-bit integer, cut toward zero. */
  function Quantized(s: real): int {
    if s < 0.0 then -(-s * 32768.0).Floor else (s * 32767.0).Floor
  }

  /** m steps. */
  function Span(m: nat, step: real): real { m as real * step }

  function At(x: seq<real>, i: int): real
    requires i < |x|
  {
    if i < 0 then 0.0 else x[i]
  }

  /** The point a fraction of the way from a to b. */
  function Lerp(a: real, b: real, frac: real): real { a + (b - a) * frac }

  /** The input at position p, between the sample before it and its own; silence comes before the first. */
  function Between(x: seq<real>, p: real): real
    requires 0.0 <= p < |x| as real
  {
    var i := p.Floor;
    Lerp(At(x, i - 1), x[i], p - i as real)
  }

  function Sample(x: seq<real>, p: real): int
    requires 0.0 <= p < |x| as real
  {
    Quantized(Clamp(Between(x, p)))
  }

  /** out is the whole input sampled at 0, step, 2 * step and so on, as far as it goes. */
  ghost predicate Resampled(x: seq<real>, step: real, out: seq<int>)
    requires step > 0.0
  {
    && (forall k :: 0 <= k < |out| ==> SampleIs(x, step, out, k))
    && Span(|out|, step) >= |x| as real
  }

  ghost predicate SampleIs(x: seq<real>, step: real, out: seq<int>, k: nat)
    requires step > 0.0 && k < |out|
  {
    0.0 <= Span(k, step) < |x| as real && out[k] == Sample(x, Span(k, step))
  }

  function Joined(chunks: seq<seq<int>>): seq<int> {
    if chunks == [] then [] else Joined(chunks[..|chunks| - 1]) + chunks[|chunks| - 1]
  }

  // --- the input grows ---------------------------------------------------------------

  lemma FloorShift(n: int, r: real)
    ensures (n as real + r).Floor == n + r.Floor
  {
  }

  // What was sampled stays as it was when more input comes.
  lemma SampleStays(x: seq<real>, more: seq<real>, step: real, out: seq<int>, k: nat)
    requires step > 0.0 && k < |out| && SampleIs(x, step, out, k)
    ensures SampleIs(x + more, step, out, k)
  {
    var p := Span(k, step);
    assert (x + more)[p.Floor] == x[p.Floor];
    assert At(x + more, p.Floor - 1) == At(x, p.Floor - 1);
  }

  // Sampling a block at its own positions is sampling the whole input, given the sample before the block.
  lemma BlockSample(x: seq<real>, block: seq<real>, prev: real, pos: real)
    requires 0.0 <= pos < |block| as real && prev == At(x, |x| - 1)
    ensures var i := pos.Floor;
            0 <= i < |block| &&
            var a := if i == 0 then prev else block[i - 1];
            Sample(x + block, |x| as real + pos) == Quantized(Clamp(Lerp(a, block[i], pos - i as real)))
  {
    FloorShift(|x|, pos);
    var i := pos.Floor;
    assert (x + block)[|x| + i] == block[i];
  }

  lemma FitsSixteenBits(s: real)
    ensures -32768 <= Quantized(Clamp(s)) <= 32767
  {
  }

  lemma JoinedSnoc(chunks: seq<seq<int>>, c: seq<int>)
    ensures Joined(chunks + [c]) == Joined(chunks) + c
  {
    assert (chunks + [c])[..|chunks|] == chunks;
  }

  // Some number of steps covers any distance.
  lemma Enough(d: real, step: real) returns (m: nat)
    requires step > 0.0
    ensures Span(m, step) >= d
  {
    var q := d / step;
    assert q * step == d;
    m := if q < 0.0 then 0 else q.Floor + 1;
    Scaled(m as real, q, step);
  }

  lemma OneLess(m: nat, step: real)
    ensures m == 0 ==> Span(m, step) == 0.0
    ensures m > 0 ==> Span(m, step) == Span(m - 1, step) + step
  {
  }

  lemma Scaled(a: real, b: real, step: real)
    requires step > 0.0 && a >= b
    ensures a * step >= b * step
  {
    assert (a - b) * step >= 0.0;
  }

  /** There is one result: two processors that heard the same input, cut differently, have said the same. */
  lemma OneResult(x: seq<real>, step: real, a: seq<int>, b: seq<int>)
    requires step > 0.0 && Resampled(x, step, a) && Resampled(x, step, b)
    ensures a == b
  {
    HowMany(x, step, a, |a|);
    HowMany(x, step, b, |a|);
    HowMany(x, step, a, |b|);
    HowMany(x, step, b, |b|);
    forall k | 0 <= k < |a| ensures a[k] == b[k] {
      assert SampleIs(x, step, a, k) && SampleIs(x, step, b, k);
    }
  }

  /** How many samples come of an input: one for each multiple of step below its length. */
  lemma HowMany(x: seq<real>, step: real, out: seq<int>, k: nat)
    requires step > 0.0 && Resampled(x, step, out)
    ensures k < |out| <==> Span(k, step) < |x| as real
  {
    if k < |out| {
      assert SampleIs(x, step, out, k);
    } else {
      Scaled(k as real, |out| as real, step);
    }
  }

  /**
    v is on the straight line from the sample before position p (silence before
    the first) to the one at it, cut to [-1, 1].
   */
  ghost predicate OnTheLine(x: seq<real>, p: real, v: real)
    requires 0.0 <= p < |x| as real
  {
    var i := p.Floor;
    var before := if i == 0 then 0.0 else x[i - 1];
    var line := before + (x[i] - before) * (p - i as real);
    && -1.0 <= v <= 1.0
    && (-1.0 <= line <= 1.0 ==> v == line) && (line > 1.0 ==> v == 1.0) && (line < -1.0 ==> v == -1.0)
  }

  /** A 16-bit sample of v: the whole range on either side of silence, cut toward it. */
  ghost predicate Sampled(v: real, s: int) {
    && (v >= 0.0 ==> 0.0 <= v * 32767.0 - s as real < 1.0)
    && (v < 0.0 ==> 0.0 <= s as real - v * 32768.0 < 1.0)
  }

  /** Every sample is that of the input's own line, at its multiple of the step. */
  lemma SamplesAreOnTheLine(x: seq<real>, step: real, out: seq<int>, k: nat) returns (v: real)
    requires step > 0.0 && Resampled(x, step, out) && k < |out|
    ensures 0.0 <= Span(k, step) < |x| as real
    ensures OnTheLine(x, Span(k, step), v) && Sampled(v, out[k])
  {
    assert SampleIs(x, step, out, k);
    hide Span;
    v := Clamp(Between(x, Span(k, step)));
  }

  class PcmProcessor {
    const step: real
    var pos: real
    var prev: real
    var out: array<int>
    var n: nat
    var posted: seq<seq<int>>      // chunks sent to the page
    ghost var heard: seq<real>     // all input so far

    /** Everything said: the chunks posted, and the one being filled. */
    ghost function Said(): seq<int>
      requires n <= out.Length
      reads `posted, `n, `out, out
    {
      Joined(posted) + out[..n]
    }

    ghost predicate Valid()
      reads this, out
    {
      && step > 0.0
      && out.Length == CHUNK && n < CHUNK
      && (forall i :: 0 <= i < |posted| ==> |posted[i]| == CHUNK)
      && Resampled(heard, step, Said())
      && (forall k :: 0 <= k < |Said()| ==> -32768 <= Said()[k] <= 32767)
      && pos == Span(|Said()|, step) - |heard| as real
      && prev == At(heard, |heard| - 1)
    }

    constructor (step: real)
      requires step > 0.0
      ensures Valid() && fresh(out) && heard == [] && this.step == step
    {
      this.step := step;
      pos, prev, n, posted, heard := 0.0, 0.0, 0, [], [];
      out := new int[CHUNK];
    }

    /** What was said is the sampled line of all that was heard. */
    lemma SaysTheLine(k: nat) returns (v: real)
      requires Valid() && k < |Said()|
      ensures 0.0 <= Span(k, step) < |heard| as real
      ensures OnTheLine(heard, Span(k, step), v) && Sampled(v, Said()[k])
    {
      v := SamplesAreOnTheLine(heard, step, Said(), k);
    }

    /** Takes one sample; a full chunk is posted. */
    method Put(s: int)
      requires out.Length == CHUNK && n < CHUNK
      requires forall i :: 0 <= i < |posted| ==> |posted[i]| == CHUNK
      modifies `out, `n, `posted, out
      ensures out.Length == CHUNK && n < CHUNK && (out == old(out) || fresh(out))
      ensures forall i :: 0 <= i < |posted| ==> |posted[i]| == CHUNK
      ensures Said() == old(Said()) + [s]
    {
      ghost var before := out[..n];
      out[n] := s;
      n := n + 1;
      assert out[..n] == before + [s];
      assert Joined(posted) + out[..n] == old(Said()) + [s];
      if n == CHUNK {
        JoinedSnoc(posted, out[..]);
        assert out[..] == out[..n];
        posted := posted + [out[..]];
        out := new int[CHUNK];
        n := 0;
        assert Said() == Joined(posted) + [];
      }
    }

    /** The next sample, between two samples of the block or the last one before it and its first. */
    method Interpolate(input: seq<real>) returns (s: int)
      requires 0.0 <= pos < |input| as real && prev == At(heard, |heard| - 1)
      ensures s == Sample(heard + input, |heard| as real + pos)
    {
      BlockSample(heard, input, prev, pos);
      hide Quantized, Clamp, Sample, Lerp;
      var i := pos.Floor;
      var frac := pos - i as real;
      var a := if i == 0 then prev else input[i - 1];
      var b := input[i];
      s := Quantized(Clamp(Lerp(a, b, frac)));
    }

    method Next(input: seq<real>)
      requires out.Length == CHUNK && n < CHUNK
      requires forall i :: 0 <= i < |posted| ==> |posted[i]| == CHUNK
      requires 0.0 <= pos < |input| as real && prev == At(heard, |heard| - 1)
      requires Sofar(heard + input, step, Said(), |heard|, pos)
      modifies `out, `n, `posted, `pos, out
      ensures out.Length == CHUNK && n < CHUNK && (out == old(out) || fresh(out))
      ensures forall i :: 0 <= i < |posted| ==> |posted[i]| == CHUNK
      ensures pos == old(pos) + step
      ensures Sofar(heard + input, step, Said(), |heard|, pos)
    {
      hide Sofar, Sample, At, Said, Joined;
      Extended(heard + input, step, Said(), |heard|, pos);
      var s := Interpolate(input);
      Put(s);
      pos := pos + step;
    }

    // Takes samples for as long as the block reaches.
    method TakeAll(input: seq<real>)
      requires out.Length == CHUNK && n < CHUNK && step > 0.0
      requires forall i :: 0 <= i < |posted| ==> |posted[i]| == CHUNK
      requires 0.0 <= pos && prev == At(heard, |heard| - 1)
      requires Sofar(heard + input, step, Said(), |heard|, pos)
      modifies `out, `n, `posted, `pos, out
      ensures out.Length == CHUNK && n < CHUNK && (out == old(out) || fresh(out))
      ensures forall i :: 0 <= i < |posted| ==> |posted[i]| == CHUNK
      ensures pos >= |input| as real
      ensures Sofar(heard + input, step, Said(), |heard|, pos)
    {
      hide Sofar, At, Joined, Said, Span;
      ghost var left := Enough(|input| as real - pos, step);
      while pos < |input| as real
        invariant out.Length == CHUNK && n < CHUNK && (out == old(out) || fresh(out))
        invariant forall i :: 0 <= i < |posted| ==> |posted[i]| == CHUNK
        invariant Sofar(heard + input, step, Said(), |heard|, pos)
        invariant pos >= 0.0
        invariant pos + Span(left, step) >= |input| as real
        decreases left
      {
        OneLess(left, step);
        Next(input);
        left := left - 1;
      }
    }

    /** A block of input; the audio engine never sends an empty one. */
    method Process(input: seq<real>)
      requires Valid() && input != []
      modifies this, out
      ensures Valid() && heard == old(heard) + input
      ensures out == old(out) || fresh(out)
    {
      hide Joined, Said, SampleIs, At, Span;
      Begin(heard, input, step, Said(), pos);
      TakeAll(input);
      LastOf(heard, input);
      Done(heard + input, step, Said(), |heard|, pos);
      pos := pos - |input| as real;
      prev := input[|input| - 1];
      heard := heard + input;
    }
  }

  /** Part of an input of which n samples came before this block is resampled, up to position pos of the block. */
  ghost predicate Sofar(x: seq<real>, step: real, said: seq<int>, n: nat, pos: real) {
    && step > 0.0 && pos >= 0.0
    && (forall k :: 0 <= k < |said| ==> SampleIs(x, step, said, k) && -32768 <= said[k] <= 32767)
    && pos == Span(|said|, step) - n as real
  }

  lemma Begin(x: seq<real>, more: seq<real>, step: real, said: seq<int>, pos: real)
    requires step > 0.0 && Resampled(x, step, said) && pos == Span(|said|, step) - |x| as real
    requires forall k :: 0 <= k < |said| ==> -32768 <= said[k] <= 32767
    ensures Sofar(x + more, step, said, |x|, pos)
  {
    forall k | 0 <= k < |said| ensures SampleIs(x + more, step, said, k) {
      SampleStays(x, more, step, said, k);
    }
  }

  lemma Done(x: seq<real>, step: real, said: seq<int>, n: nat, pos: real)
    requires Sofar(x, step, said, n, pos) && n as real + pos >= |x| as real
    ensures Resampled(x, step, said) && (forall k :: 0 <= k < |said| ==> -32768 <= said[k] <= 32767)
    ensures pos == Span(|said|, step) - n as real
  {
  }

  lemma LastOf(x: seq<real>, block: seq<real>)
    requires block != []
    ensures At(x + block, |x + block| - 1) == block[|block| - 1]
  {
  }

  // One more sample, taken where the last ones end.
  lemma Extended(x: seq<real>, step: real, said: seq<int>, n: nat, pos: real)
    requires Sofar(x, step, said, n, pos) && n as real + pos < |x| as real
    ensures Sofar(x, step, said + [Sample(x, n as real + pos)], n, pos + step)
  {
    var s := Sample(x, n as real + pos);
    FitsSixteenBits(Between(x, n as real + pos));
    forall k | 0 <= k <= |said| ensures SampleIs(x, step, said + [s], k) {
      assert k < |said| ==> SampleIs(x, step, said, k);
    }
    OneLess(|said| + 1, step);
  }
}
