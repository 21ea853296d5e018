/**
 * What the programs read out of the response buffer: 12-bit ADC codes taken
 * two bytes at a time (stride 2), or three per frame (stride 6), and the
 * running statistic ftdi_readWrite.cpp keeps over the first ADC.
 */
module Decoding {
  import opened Bytes
  import opened Codes
  import opened Seqs

  /** The three ADC codes of one frame. */
  datatype Sample = Sample(adc0: bv16, adc1: bv16, adc2: bv16)

  /** `(b[i] << 4) + (b[i+1] & 0x0F)`. */
  function CodeAt(rb: seq<byte>, i: nat): (c: bv16)
    requires i + 2 <= |rb|
    ensures c < 4096
  {
    Code12(rb[i], rb[i + 1])
  }

  function SampleAt(rb: seq<byte>, i: nat): Sample
    requires i + 6 <= |rb|
  {
    Sample(CodeAt(rb, i), CodeAt(rb, i + 2), CodeAt(rb, i + 4))
  }

  /** The first n codes of a stride-2 response, in order. */
  function DecodeCodes(rb: seq<byte>, n: nat): seq<bv16>
    requires 2 * n <= |rb|
  {
    if n == 0 then [] else DecodeCodes(rb, n - 1) + [CodeAt(rb, 2 * (n - 1))]
  }

  /** The first n frames of a stride-6 response, in order. */
  function DecodeSamples(rb: seq<byte>, n: nat): seq<Sample>
    requires 6 * n <= |rb|
  {
    if n == 0 then [] else DecodeSamples(rb, n - 1) + [SampleAt(rb, 6 * (n - 1))]
  }

  /** Below a multiple of the stride, a whole block is left. */
  lemma NextBlock(k: nat, n: nat, stride: nat)
    requires stride == 2 || stride == 6
    requires n % stride == 0 && stride * k < n
    ensures stride * k + stride <= n
  {
  }

  /** Code k comes from bytes 2k and 2k+1. */
  lemma {:induction false} DecodeCodesAt(rb: seq<byte>, n: nat)
    requires 2 * n <= |rb|
    ensures |DecodeCodes(rb, n)| == n
    ensures forall k :: 0 <= k < n ==> DecodeCodes(rb, n)[k] == Code12(rb[2 * k], rb[2 * k + 1])
  {
    if n > 0 {
      DecodeCodesAt(rb, n - 1);
    }
  }

  /** ADC j of frame k comes from bytes 6k+2j and 6k+2j+1. */
  lemma {:induction false} DecodeSamplesAt(rb: seq<byte>, n: nat)
    requires 6 * n <= |rb|
    ensures |DecodeSamples(rb, n)| == n
    ensures forall k :: 0 <= k < n ==>
              DecodeSamples(rb, n)[k] == Sample(Code12(rb[6 * k], rb[6 * k + 1]),
                                                Code12(rb[6 * k + 2], rb[6 * k + 3]),
                                                Code12(rb[6 * k + 4], rb[6 * k + 5]))
  {
    if n > 0 {
      DecodeSamplesAt(rb, n - 1);
    }
  }

  /** The first n codes depend on the first 2n bytes and on nothing past them. */
  lemma DecodeCodesPrefix(rb: seq<byte>, n: nat)
    requires 2 * n <= |rb|
    ensures DecodeCodes(rb, n) == DecodeCodes(rb[..2 * n], n)
  {
    DecodeCodesAt(rb, n);
    DecodeCodesAt(rb[..2 * n], n);
  }

  /** The first n frames depend on the first 6n bytes and on nothing past them. */
  lemma DecodeSamplesPrefix(rb: seq<byte>, n: nat)
    requires 6 * n <= |rb|
    ensures DecodeSamples(rb, n) == DecodeSamples(rb[..6 * n], n)
  {
    DecodeSamplesAt(rb, n);
    DecodeSamplesAt(rb[..6 * n], n);
  }

  /** The high nibble of every second byte does not matter. */
  lemma DecodeCodesIgnoresHighNibble(rb: seq<byte>, rb': seq<byte>, n: nat)
    requires 2 * n <= |rb| && 2 * n <= |rb'|
    requires forall k :: 0 <= k < n ==> rb[2 * k] == rb'[2 * k] && rb[2 * k + 1] & 0x0F == rb'[2 * k + 1] & 0x0F
    ensures DecodeCodes(rb, n) == DecodeCodes(rb', n)
  {
    DecodeCodesAt(rb, n);
    DecodeCodesAt(rb', n);
  }

  /** The same for frames: the high nibble of every second byte does not matter. */
  lemma {:induction false} DecodeSamplesIgnoresHighNibble(rb: seq<byte>, rb': seq<byte>, n: nat)
    requires 6 * n <= |rb| && 6 * n <= |rb'|
    requires forall k :: 0 <= k < 3 * n ==> rb[2 * k] == rb'[2 * k] && rb[2 * k + 1] & 0x0F == rb'[2 * k + 1] & 0x0F
    ensures DecodeSamples(rb, n) == DecodeSamples(rb', n)
  {
    if n > 0 {
      var m := n - 1;
      DecodeSamplesIgnoresHighNibble(rb, rb', m);
      SameCode(rb, rb', 3 * m, 6 * m);
      SameCode(rb, rb', 3 * m + 1, 6 * m + 2);
      SameCode(rb, rb', 3 * m + 2, 6 * m + 4);
    }
  }

  lemma SameCode(rb: seq<byte>, rb': seq<byte>, k: nat, i: nat)
    requires i == 2 * k && i + 2 <= |rb| && i + 2 <= |rb'|
    requires rb[2 * k] == rb'[2 * k] && rb[2 * k + 1] & 0x0F == rb'[2 * k + 1] & 0x0F
    ensures Code12(rb[i], rb[i + 1]) == Code12(rb'[i], rb'[i + 1])
  {
  }

  /** The two response bytes that carry a code: its high eight bits, then its low four. */
  function CodeBytes(c: bv16): (b: seq<byte>)
    requires c < 4096
    ensures |b| == 2 && Code12(b[0], b[1]) == c
  {
    Code12Split(c);
    [(c >> 4) as byte, (c & 0x0F) as byte]
  }

  predicate AllCodes(cs: seq<bv16>)
  {
    forall k :: 0 <= k < |cs| ==> cs[k] < 4096
  }

  /** The response an ADC would send for these codes, one after another. */
  function CodesImage(cs: seq<bv16>): seq<byte>
    requires AllCodes(cs)
  {
    if cs == [] then [] else CodesImage(cs[..|cs| - 1]) + CodeBytes(cs[|cs| - 1])
  }

  lemma {:induction false} CodesImageAt(cs: seq<bv16>)
    requires AllCodes(cs)
    ensures |CodesImage(cs)| == 2 * |cs|
    ensures forall k :: 0 <= k < |cs| ==> CodesImage(cs)[2 * k..2 * k + 2] == CodeBytes(cs[k])
  {
    if cs != [] {
      var init := cs[..|cs| - 1];
      assert AllCodes(init);
      assert CodesImage(cs) == CodesImage(init) + CodeBytes(cs[|cs| - 1]);
      CodesImageAt(init);
      forall k | 0 <= k < |cs| ensures CodesImage(cs)[2 * k..2 * k + 2] == CodeBytes(cs[k]) {
        if k < |init| {
          SliceOfFront(CodesImage(init), CodeBytes(cs[|cs| - 1]), 2 * k, 2 * k + 2);
        } else {
          SliceOfBack(CodesImage(init), CodeBytes(cs[|cs| - 1]));
        }
      }
    }
  }

  /** Decoding the response made from a list of codes gives the list back. */
  lemma DecodeCodesImage(cs: seq<bv16>)
    requires AllCodes(cs)
    ensures 2 * |cs| <= |CodesImage(cs)| && DecodeCodes(CodesImage(cs), |cs|) == cs
  {
    var rb := CodesImage(cs);
    CodesImageAt(cs);
    DecodeCodesAt(rb, |cs|);
    forall k | 0 <= k < |cs| ensures DecodeCodes(rb, |cs|)[k] == cs[k] {
      assert rb[2 * k] == rb[2 * k..2 * k + 2][0] && rb[2 * k + 1] == rb[2 * k..2 * k + 2][1];
    }
  }

  predicate SampleCodes(s: Sample)
  {
    s.adc0 < 4096 && s.adc1 < 4096 && s.adc2 < 4096
  }

  /** The six response bytes of a frame. */
  function SampleBytes(s: Sample): (b: seq<byte>)
    requires SampleCodes(s)
    ensures |b| == 6
  {
    CodeBytes(s.adc0) + CodeBytes(s.adc1) + CodeBytes(s.adc2)
  }

  /** The six bytes of a frame decode, two at a time, to its three codes. */
  lemma SampleBytesDecode(s: Sample)
    requires SampleCodes(s)
    ensures var b := SampleBytes(s);
      Sample(Code12(b[0], b[1]), Code12(b[2], b[3]), Code12(b[4], b[5])) == s
  {
    var c0, c1, c2 := CodeBytes(s.adc0), CodeBytes(s.adc1), CodeBytes(s.adc2);
    var b := SampleBytes(s);
    assert b == c0 + c1 + c2;
    assert b[0] == c0[0] && b[1] == c0[1] && b[2] == c1[0] && b[3] == c1[1] && b[4] == c2[0] && b[5] == c2[1];
  }

  predicate AllSamples(ss: seq<Sample>)
  {
    forall k :: 0 <= k < |ss| ==> SampleCodes(ss[k])
  }

  function SamplesImage(ss: seq<Sample>): seq<byte>
    requires AllSamples(ss)
  {
    if ss == [] then [] else SamplesImage(ss[..|ss| - 1]) + SampleBytes(ss[|ss| - 1])
  }

  lemma {:induction false} SamplesImageAt(ss: seq<Sample>)
    requires AllSamples(ss)
    ensures |SamplesImage(ss)| == 6 * |ss|
    ensures forall k :: 0 <= k < |ss| ==> SamplesImage(ss)[6 * k..6 * k + 6] == SampleBytes(ss[k])
  {
    if ss != [] {
      var init, last := ss[..|ss| - 1], ss[|ss| - 1];
      assert AllSamples(init);
      var front, back := SamplesImage(init), SampleBytes(last);
      assert SamplesImage(ss) == front + back;
      SamplesImageAt(init);
      forall k | 0 <= k < |ss| ensures SamplesImage(ss)[6 * k..6 * k + 6] == SampleBytes(ss[k]) {
        if k < |init| {
          assert ss[k] == init[k];
          SliceOfFront(front, back, 6 * k, 6 * k + 6);
        } else {
          assert ss[k] == last;
          SliceOfBack(front, back);
        }
      }
    }
  }

  /** Decoding the response made from a list of frames gives the list back. */
  lemma DecodeSamplesImage(ss: seq<Sample>)
    requires AllSamples(ss)
    ensures 6 * |ss| <= |SamplesImage(ss)| && DecodeSamples(SamplesImage(ss), |ss|) == ss
  {
    var rb := SamplesImage(ss);
    SamplesImageAt(ss);
    DecodeSamplesAt(rb, |ss|);
    forall k | 0 <= k < |ss| ensures DecodeSamples(rb, |ss|)[k] == ss[k] {
      var b := rb[6 * k..6 * k + 6];
      assert b == SampleBytes(ss[k]);
      SampleBytesDecode(ss[k]);
      assert rb[6 * k] == b[0] && rb[6 * k + 1] == b[1] && rb[6 * k + 2] == b[2];
      assert rb[6 * k + 3] == b[3] && rb[6 * k + 4] == b[4] && rb[6 * k + 5] == b[5];
    }
  }

  /**
   * The integer part of the sum ftdi_readWrite.cpp accumulates: the signed
   * value of ADC0 over every frame except the first.
   */
  function Statistic(fs: seq<Sample>): int
  {
    if |fs| <= 1 then 0 else Statistic(fs[..|fs| - 1]) + Signed12(fs[|fs| - 1].adc0)
  }

  /** Zero for at most one frame; otherwise between -2048 and 2047 per frame after the first. */
  lemma {:induction false} StatisticRange(fs: seq<Sample>)
    ensures |fs| <= 1 ==> Statistic(fs) == 0
    ensures |fs| >= 1 ==> -2048 * (|fs| - 1) <= Statistic(fs) <= 2047 * (|fs| - 1)
  {
    if |fs| > 1 {
      StatisticRange(fs[..|fs| - 1]);
    }
  }

  /** One more frame adds its ADC0 value, unless it is the first. */
  lemma StatisticSnoc(fs: seq<Sample>, f: Sample)
    ensures Statistic(fs + [f]) == if fs == [] then 0 else Statistic(fs) + Signed12(f.adc0)
  {
    assert (fs + [f])[..|fs|] == fs;
  }

  /** Sum of the signed ADC0 values, front to back. */
  function SignedSum(fs: seq<Sample>): int
  {
    if fs == [] then 0 else Signed12(fs[0].adc0) + SignedSum(fs[1..])
  }

  lemma {:induction false} SignedSumSnoc(fs: seq<Sample>, f: Sample)
    ensures SignedSum(fs + [f]) == SignedSum(fs) + Signed12(f.adc0)
  {
    if fs == [] {
      assert [] + [f] == [f];
    } else {
      assert (fs + [f])[1..] == fs[1..] + [f];
      SignedSumSnoc(fs[1..], f);
    }
  }

  /** The statistic is the plain sum over the frames after the first. */
  lemma {:induction false} StatisticIsSumOfLater(fs: seq<Sample>)
    requires |fs| >= 1
    ensures Statistic(fs) == SignedSum(fs[1..])
  {
    if |fs| > 1 {
      var init := fs[..|fs| - 1];
      StatisticIsSumOfLater(init);
      assert fs[1..] == init[1..] + [fs[|fs| - 1]];
      SignedSumSnoc(init[1..], fs[|fs| - 1]);
    }
  }

  /** The first frame never reaches the statistic. */
  lemma StatisticSkipsFirst(fs: seq<Sample>, g: Sample)
    requires |fs| >= 1
    ensures Statistic(fs) == Statistic([g] + fs[1..])
  {
    StatisticIsSumOfLater(fs);
    StatisticIsSumOfLater([g] + fs[1..]);
    assert ([g] + fs[1..])[1..] == fs[1..];
  }
}
