/** The round-trip-time estimator and the retransmission timeout that it sets, in 32-bit arithmetic. */
module Rtt {
  import opened EfcpTypes

  /** Milliseconds; `tr` is the retransmission timeout. */
  datatype RttVars = RttVars(rtt: nat, srtt: nat, rttvar: nat, tr: nat)

  function U32(x: int): nat { x % TWO32 }

  /** The value of a 32-bit word read as a signed integer. */
  function S32(x: nat): int
    requires x < TWO32
  {
    if x < TWO32 / 2 then x else x - TWO32
  }

  function Abs(x: int): nat { if x < 0 then -x else x }

  const CLOCK_GRANULARITY: nat := 100

  function Timeout(rttvar: nat, srtt: nat, a: nat): nat {
    U32(Max(CLOCK_GRANULARITY, U32(rttvar * 4)) + srtt + a)
  }

  function Calculate(v: RttVars, sample: nat, a: nat): RttVars {
    if v.rtt == 0 then
      RttVars(sample, sample, sample / 2, Timeout(sample / 2, sample, a))
    else
      var rtt := U32(U32(v.rtt * 112) + U32(sample * 16)) / 128;
      var rttvar := U32(U32(3 * v.rttvar) / 4 + Abs(S32(U32(v.srtt - sample))) / 4);
      RttVars(rtt, v.srtt, rttvar, Timeout(rttvar, v.srtt, a))
  }

  function Samples(v: RttVars, samples: seq<nat>, a: nat): RttVars {
    if samples == [] then v
    else Calculate(Samples(v, samples[..|samples| - 1], a), samples[|samples| - 1], a)
  }

  ghost predicate Within(samples: seq<nat>, lo: nat, hi: nat) {
    forall i :: 0 <= i < |samples| ==> lo <= samples[i] <= hi
  }

  lemma Fits(x: nat)
    requires x < TWO32
    ensures U32(x) == x
  {
  }

  lemma SignedDifference(x: nat, y: nat)
    requires x < TWO32 / 2 && y < TWO32 / 2
    ensures S32(U32(x - y)) == x - y
  {
    if x < y {
      assert x - y == -1 * TWO32 + (x - y + TWO32);
    }
  }

  lemma Sixteenths(k: nat)
    ensures (16 * k) / 128 == k / 8
  {
  }

  /** The estimate without wrap-around: RTT <- 7/8 RTT + 1/8 sample. */
  lemma RttStep(v: RttVars, sample: nat, a: nat, m: nat)
    requires 128 * m < TWO32 && sample <= m && v.rtt <= m && v.rtt != 0
    ensures Calculate(v, sample, a).rtt == (v.rtt * 7 + sample) / 8
  {
    Fits(v.rtt * 112);
    Fits(sample * 16);
    Fits(v.rtt * 112 + sample * 16);
    Sixteenths(v.rtt * 7 + sample);
  }

  /** The variation without wrap-around, and the bound that it keeps. */
  lemma VarStep(v: RttVars, sample: nat, a: nat, m: nat)
    requires 128 * m < TWO32 && sample <= m && v.srtt <= m && v.rttvar <= m && v.rtt != 0
    ensures Calculate(v, sample, a).rttvar == (3 * v.rttvar) / 4 + Abs(v.srtt - sample) / 4 <= m
  {
    Fits(3 * v.rttvar);
    SignedDifference(v.srtt, sample);
    Fits((3 * v.rttvar) / 4 + Abs(v.srtt - sample) / 4);
  }

  lemma TimeoutStep(rttvar: nat, srtt: nat, a: nat, m: nat)
    requires rttvar <= m && srtt <= m
    requires 128 * m < TWO32 && Max(CLOCK_GRANULARITY, 4 * m) + m + a < TWO32
    ensures Timeout(rttvar, srtt, a) == Max(CLOCK_GRANULARITY, 4 * rttvar) + srtt + a
  {
    Fits(rttvar * 4);
    Fits(Max(CLOCK_GRANULARITY, 4 * rttvar) + srtt + a);
  }

  /**
   What a sample does when nothing wraps: the first one is taken as it is, with half of it as the variation; a later one
   moves the estimate by an eighth of the way and the variation by a quarter. The timeout is srtt plus four times the
   variation, but at least the clock granularity, plus A.
   */
  lemma SampleTaken(v: RttVars, sample: nat, a: nat, m: nat)
    requires 128 * m < TWO32 && Max(CLOCK_GRANULARITY, 4 * m) + m + a < TWO32
    requires sample <= m && v.rtt <= m && v.srtt <= m && v.rttvar <= m
    ensures var v' := Calculate(v, sample, a);
            && v'.tr == Max(100, 4 * v'.rttvar) + v'.srtt + a
            && (v.rtt == 0 ==> v'.rtt == v'.srtt == sample && v'.rttvar == sample / 2)
            && (v.rtt != 0 ==> v'.rtt == (v.rtt * 7 + sample) / 8 && v'.srtt == v.srtt
                               && v'.rttvar == (3 * v.rttvar) / 4 + Abs(v.srtt - sample) / 4)
  {
    if v.rtt == 0 {
      TimeoutStep(sample / 2, sample, a, m);
    } else {
      RttStep(v, sample, a, m);
      VarStep(v, sample, a, m);
      TimeoutStep(Calculate(v, sample, a).rttvar, v.srtt, a, m);
    }
  }

  /**
   For every run of samples in [lo, hi] the estimate stays in [lo, hi], nothing wraps, and the timeout
   lies between srtt + 100 + A and max(100, 4 hi) + hi + A. Unlike section 2.3 of RFC 6298, srtt is
   never smoothed: with non-zero samples it stays the first one.
   */
  lemma {:induction false} EstimatorBounds(samples: seq<nat>, lo: nat, hi: nat, a: nat, first: RttVars)
    requires samples != [] && Within(samples, lo, hi)
    requires 128 * hi < TWO32 && Max(CLOCK_GRANULARITY, 4 * hi) + hi + a < TWO32
    requires first.rtt == first.srtt == first.rttvar == 0
    ensures var v := Samples(first, samples, a);
            && lo <= v.rtt <= hi && v.rttvar <= hi && lo <= v.srtt <= hi
            && v.srtt + CLOCK_GRANULARITY + a <= v.tr <= Max(CLOCK_GRANULARITY, 4 * hi) + hi + a
            && (lo >= 1 ==> v.srtt == samples[0])
  {
    var n := |samples| - 1;
    if n == 0 {
      assert samples[..0] == [];
      TimeoutStep(samples[0] / 2, samples[0], a, hi);
    } else {
      EstimatorBounds(samples[..n], lo, hi, a, first);
      var v := Samples(first, samples[..n], a);
      var v' := Calculate(v, samples[n], a);
      if v.rtt == 0 {
        TimeoutStep(samples[n] / 2, samples[n], a, hi);
      } else {
        RttStep(v, samples[n], a, hi);
        VarStep(v, samples[n], a, hi);
        TimeoutStep(v'.rttvar, v'.srtt, a, hi);
      }
    }
  }
}
