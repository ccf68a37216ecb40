/** The decision logic of the TSL2561 lux conversion: which segment of the
    piecewise formula applies to a pair of channel counts, and which gain and
    integration multipliers a timing byte selects. The formula's numeric value
    (a float power and decimal coefficients) is not part of this model. */
module LuxDecision {
  import opened Registers

  datatype Option<T> = None | Some(value: T)

  /** The outcome of the ratio test on (ch0, ch1). */
  datatype LuxCase =
    | NoLight      // ch0 == 0: the reading is 0
    | UpTo050      // 0 < ch1/ch0 <= 0.50
    | UpTo061      // ch1/ch0 <= 0.61 (this also catches ch1 == 0)
    | UpTo080      // ch1/ch0 <= 0.80
    | UpTo130      // ch1/ch0 <= 1.30
    | AboveRange   // ch1/ch0 > 1.30: the reading is 0

  /** Segments whose reading is the constant 0 and needs no timing byte. */
  predicate IsZeroCase(c: LuxCase) { c == NoLight || c == AboveRange }

  /** Segment index in the order the tests are made. */
  function Rank(c: LuxCase): int
  {
    match c
    case NoLight => 0
    case UpTo050 => 1
    case UpTo061 => 2
    case UpTo080 => 3
    case UpTo130 => 4
    case AboveRange => 5
  }

  /** The infrared to full-spectrum ratio, as an exact quotient. */
  function Ratio(ch0: nat, ch1: nat): (r: real)
    requires ch0 > 0
    ensures r >= 0.0 && r * ch0 as real == ch1 as real
  {
    ch1 as real / ch0 as real
  }

  /** The ratio test as the driver writes it: the quotient compared, in order,
      against the segment bounds. */
  function RatioCase(ch0: nat, ch1: nat): (r: LuxCase)
    ensures r == NoLight <==> ch0 == 0
    ensures IsZeroCase(r) <==> ch0 == 0 || Ratio(ch0, ch1) > 1.30
    ensures r == UpTo050 ==> ch1 > 0
  {
    if ch0 == 0 then NoLight
    else
      var ratio := Ratio(ch0, ch1);
      if 0.0 < ratio && ratio <= 0.50 then UpTo050
      else if ratio <= 0.61 then UpTo061
      else if ratio <= 0.80 then UpTo080
      else if ratio <= 1.30 then UpTo130
      else AboveRange
  }

  /** The same ratio test in integer arithmetic: each bound p/q becomes the
      cross-multiplication q * ch1 <= p * ch0. */
  function LuxBranch(ch0: nat, ch1: nat): (r: LuxCase)
    ensures r == NoLight <==> ch0 == 0
    ensures IsZeroCase(r) <==> ch0 == 0 || 10 * ch1 > 13 * ch0
    ensures r == UpTo050 ==> ch1 > 0
  {
    if ch0 == 0 then NoLight
    else if 0 < ch1 && 2 * ch1 <= ch0 then UpTo050
    else if 100 * ch1 <= 61 * ch0 then UpTo061
    else if 5 * ch1 <= 4 * ch0 then UpTo080
    else if 10 * ch1 <= 13 * ch0 then UpTo130
    else AboveRange
  }

  /** Comparing the quotient ch1/ch0 with p/q is comparing q*ch1 with p*ch0. */
  lemma {:induction false} RatioAtMost(ch0: nat, ch1: nat, p: nat, q: nat)
    requires ch0 > 0 && q > 0
    ensures (ch1 as real / ch0 as real <= p as real / q as real) <==> q * ch1 <= p * ch0
  {
    var r := ch1 as real / ch0 as real;
    var b := p as real / q as real;
    assert r * ch0 as real == ch1 as real;
    assert b * q as real == p as real;
    var k := (ch0 * q) as real;
    assert k > 0.0;
    assert r * k == (q * ch1) as real;
    assert b * k == (p * ch0) as real;
    if r <= b {
      assert r * k <= b * k;
    } else {
      assert r * k > b * k;
    }
  }

  /** The integer test picks the same segment as the quotient test, for all counts. */
  lemma {:induction false} BranchesAgree(ch0: nat, ch1: nat)
    ensures LuxBranch(ch0, ch1) == RatioCase(ch0, ch1)
  {
    if ch0 > 0 {
      RatioAtMost(ch0, ch1, 1, 2);
      RatioAtMost(ch0, ch1, 61, 100);
      RatioAtMost(ch0, ch1, 4, 5);
      RatioAtMost(ch0, ch1, 13, 10);
      assert 0.50 == 1 as real / 2 as real;
      assert 0.61 == 61 as real / 100 as real;
      assert 0.80 == 4 as real / 5 as real;
      assert 1.30 == 13 as real / 10 as real;
      assert (0.0 < ch1 as real / ch0 as real) <==> 0 < ch1;
    }
  }

  /** More infrared light against the same full-spectrum count never moves the
      reading to an earlier segment, except out of the ch1 == 0 special case. */
  lemma {:induction false} BranchMonotone(ch0: nat, ch1: nat, ch1': nat)
    requires 0 < ch1 <= ch1'
    ensures Rank(LuxBranch(ch0, ch1)) <= Rank(LuxBranch(ch0, ch1'))
  {
  }

  /** Gain multipliers indexed by timing bit 4. */
  const GainValues: seq<int> := [16, 1]

  /** Integration multipliers indexed by timing bits 0-1; select 3 has no entry. */
  const IntegrationTimes: seq<real> := [1.0 / 0.034, 1.0 / 0.252, 1.0]

  /** The gain multiplier a timing byte selects: 16 with bit 4 clear (low gain
      counts scaled up), 1 with bit 4 set. */
  function GainMult(timing: byte): (g: int)
    ensures g == 16 <==> !GainIsHigh(timing)
    ensures g == 1 <==> GainIsHigh(timing)
  {
    GainValues[((timing >> 4) & 0x01) as int]
  }

  /** The integration multiplier a timing byte selects, or None where the table
      lookup is out of range. */
  function IntegMult(timing: byte): (m: Option<real>)
    ensures m.None? <==> IntegrationSelect(timing) == 3
    ensures m.Some? ==> m.value >= 1.0
    ensures IntegrationSelect(timing) == 0 ==> m == Some(1.0 / 0.034)
    ensures IntegrationSelect(timing) == 1 ==> m == Some(1.0 / 0.252)
    ensures IntegrationSelect(timing) == 2 ==> m == Some(1.0)
  {
    var i := (timing & 0x03) as int;
    if i < |IntegrationTimes| then Some(IntegrationTimes[i]) else None
  }

  /** The gain set_gain writes is the one lux reads back: "high" scales by 1,
      "low" by 16. */
  lemma GainRoundTrip(cur: byte, high: bool)
    ensures GainMult(GainByte(cur, high)) == if high then 1 else 16
  {
  }

  /** The integration select set_integration_cycle writes is the one lux
      reads back: 0..2 have a multiplier, 3 has none. */
  lemma IntegrationRoundTrip(cur: byte, t: byte)
    requires t <= 3
    ensures IntegMult(IntegrationByte(cur, t)).None? <==> t == 3
    ensures t == 0 ==> IntegMult(IntegrationByte(cur, t)) == Some(1.0 / 0.034)
    ensures t == 1 ==> IntegMult(IntegrationByte(cur, t)) == Some(1.0 / 0.252)
    ensures t == 2 ==> IntegMult(IntegrationByte(cur, t)) == Some(1.0)
  {
  }

  /** What the lux computation yields: the constant 0, the selected segment's
      value scaled by the two multipliers, or the failed table lookup. */
  datatype LuxReading =
    | Zero
    | Scaled(segment: LuxCase, gain: int, integration: real)
    | IntegrationIndexError

  /** The scaling step for a non-zero segment: the gain and integration
      multipliers the timing byte selects, or the failed table lookup. */
  function ScaleOf(segment: LuxCase, timing: byte): (r: LuxReading)
    ensures r != Zero
    ensures r.Scaled? <==> IntegrationSelect(timing) != 3
    ensures r.Scaled? ==> r.segment == segment && r.gain == GainMult(timing) && IntegMult(timing) == Some(r.integration)
  {
    match IntegMult(timing)
    case Some(m) => Scaled(segment, GainMult(timing), m)
    case None => IntegrationIndexError
  }

  /** Lux decision for channel counts and a timing byte. The timing byte only
      matters when the segment is not a zero case. */
  function LuxOf(ch0: nat, ch1: nat, timing: byte): (r: LuxReading)
    ensures IsZeroCase(LuxBranch(ch0, ch1)) <==> r == Zero
    ensures r.Scaled? ==>
              r.segment == LuxBranch(ch0, ch1) && r.gain == GainMult(timing) && IntegMult(timing) == Some(r.integration)
    ensures r == IntegrationIndexError <==> !IsZeroCase(LuxBranch(ch0, ch1)) && IntegrationSelect(timing) == 3
  {
    var c := LuxBranch(ch0, ch1);
    if IsZeroCase(c) then Zero else ScaleOf(c, timing)
  }

  /** The same decision stated with the quotient test the driver writes: the
      reading is 0 exactly in the quotient's zero cases, and otherwise scales
      the segment the quotient selects. */
  lemma {:induction false} LuxOfFollowsRatio(ch0: nat, ch1: nat, timing: byte)
    ensures IsZeroCase(RatioCase(ch0, ch1)) <==> LuxOf(ch0, ch1, timing) == Zero
    ensures LuxOf(ch0, ch1, timing).Scaled? ==> LuxOf(ch0, ch1, timing).segment == RatioCase(ch0, ch1)
  {
    BranchesAgree(ch0, ch1);
  }

  /** No full-spectrum light reads 0, whatever the infrared count and the timing byte. */
  lemma NoLightIsZero(ch1: nat, timing: byte)
    ensures LuxOf(0, ch1, timing) == Zero
  {
  }

  /** A ratio above 1.30 reads 0, whatever the timing byte. */
  lemma {:induction false} AboveRangeIsZero(ch0: nat, ch1: nat, timing: byte)
    requires ch0 > 0 && ch1 as real / ch0 as real > 1.30
    ensures LuxOf(ch0, ch1, timing) == Zero
  {
    BranchesAgree(ch0, ch1);
  }

  /** With ch0 > 0 and no infrared light, the ratio 0 fails the first test and
      the second segment applies. */
  lemma NoInfraredIsSecondSegment(ch0: nat)
    requires ch0 > 0
    ensures LuxBranch(ch0, 0) == UpTo061
  {
  }

  /** Boundary ratios belong to the segment they close. */
  lemma {:induction false} BoundariesInclusive(k: nat)
    requires k > 0
    ensures RatioCase(100 * k, 50 * k) == UpTo050
    ensures RatioCase(100 * k, 61 * k) == UpTo061
    ensures RatioCase(100 * k, 80 * k) == UpTo080
    ensures RatioCase(100 * k, 130 * k) == UpTo130
    ensures RatioCase(100 * k, 130 * k + 1) == AboveRange
  {
    BranchesAgree(100 * k, 50 * k);
    BranchesAgree(100 * k, 61 * k);
    BranchesAgree(100 * k, 80 * k);
    BranchesAgree(100 * k, 130 * k);
    BranchesAgree(100 * k, 130 * k + 1);
  }
}
