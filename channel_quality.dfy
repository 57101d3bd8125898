/**
 * Link adaptation (src/channel_quality_index.py): the SNR threshold of each
 * CQI read off AWGN BLER curves, the number of coded bits a grant carries,
 * the CQI -> (modulation order, transport block size) lookup, and the
 * wideband CQI scan.
 */
module ChannelQualityIndex {

  import opened Wrappers
  import opened SeqMath
  import SystemConfig

  // ---------------------------------------------------------------------------
  // Bit counts

  /** Data symbols in a grant of nrofResourceBlocks RBs (the count used for code rates). */
  function NrofDataSymbols(nrofResourceBlocks: nat): nat
  {
    nrofResourceBlocks * SystemConfig.NrofSubcarriersPerPrb * SystemConfig.NrofDataSymbolsPerSubframe
  }

  /**
   * calculate_nrof_transmit_bits: coded bits carried by a grant. It counts the
   * resource elements with the OFDM-symbol constants, and agrees with the
   * data-symbol count used for code rates.
   */
  function NrofTransmitBits(modulationOrder: nat, nrofResourceBlocks: nat): (r: nat)
    ensures r == modulationOrder * NrofDataSymbols(nrofResourceBlocks)
    ensures r == 168 * nrofResourceBlocks * modulationOrder
  {
    var nrofSubcarriers := SystemConfig.SubcarriersPerPrb * nrofResourceBlocks;
    var nrofResourceElements := SystemConfig.NrofOfdmSymbolsPerSubframe * nrofSubcarriers;
    nrofResourceElements * modulationOrder
  }

  // ---------------------------------------------------------------------------
  // CQI -> (modulation order, transport block size)

  datatype TransmissionParameters = TransmissionParameters(modulationOrder: nat, transportBlockSize: nat)

  /** A dictionary lookup on a missing key. */
  datatype LookupError = KeyError(key: int)

  /** The CQIs the table has a row for, besides the outage CQI 0. */
  predicate IsTableCqi(cqi: int)
  {
    0 < cqi < |SystemConfig.CqiIndexModOrderRate|
  }

  /**
   * |1024 * tbs / (modulation order * data symbols) - rate|: how far the code
   * rate of a transport block of tbs bits is from the CQI's rate.
   */
  function RateDifference(cqi: int, nrofResourceBlocks: int, tbs: nat): real
    requires IsTableCqi(cqi) && nrofResourceBlocks in SystemConfig.ValidTbs
  {
    var row := SystemConfig.CqiIndexModOrderRate[cqi];
    var denominator := SharedDenominator(cqi, nrofResourceBlocks) as real;
    Abs(SystemConfig.CqiRateMultiplier as real * tbs as real / denominator - row.rate as real)
  }

  /** The rate differences of every valid TBS, in table order. */
  function RateDifferences(cqi: int, nrofResourceBlocks: int): (r: seq<real>)
    requires IsTableCqi(cqi) && nrofResourceBlocks in SystemConfig.ValidTbs
    ensures |r| == |SystemConfig.ValidTbs[nrofResourceBlocks]|
    ensures forall k :: 0 <= k < |r| ==>
      r[k] == RateDifference(cqi, nrofResourceBlocks, SystemConfig.ValidTbs[nrofResourceBlocks][k])
  {
    var validTbs := SystemConfig.ValidTbs[nrofResourceBlocks];
    seq(|validTbs|, k requires 0 <= k < |validTbs| => RateDifference(cqi, nrofResourceBlocks, validTbs[k]))
  }

  /** The lowest TBS index whose code rate is nearest to the CQI's rate. */
  function NearestTbsIndex(cqi: int, nrofResourceBlocks: int): (k: nat)
    requires IsTableCqi(cqi) && nrofResourceBlocks in SystemConfig.ValidTbs
    ensures k < |SystemConfig.ValidTbs[nrofResourceBlocks]|
    ensures forall j :: 0 <= j < |SystemConfig.ValidTbs[nrofResourceBlocks]| ==>
      RateDifference(cqi, nrofResourceBlocks, SystemConfig.ValidTbs[nrofResourceBlocks][k])
        <= RateDifference(cqi, nrofResourceBlocks, SystemConfig.ValidTbs[nrofResourceBlocks][j])
    ensures forall j :: 0 <= j < k ==>
      RateDifference(cqi, nrofResourceBlocks, SystemConfig.ValidTbs[nrofResourceBlocks][k])
        < RateDifference(cqi, nrofResourceBlocks, SystemConfig.ValidTbs[nrofResourceBlocks][j])
  {
    var d := RateDifferences(cqi, nrofResourceBlocks);
    FirstArgMin(d)
  }

  /** The offset TBS index, clamped into [0, length - 1]. */
  function ClampIndex(index: int, length: nat): (r: nat)
    requires length > 0
    ensures r < length
    ensures 0 <= index < length ==> r == index
    ensures index < 0 ==> r == 0
    ensures index >= length ==> r == length - 1
  {
    if index < 0 then 0 else if index >= length then length - 1 else index
  }

  /**
   * get_transmission_parameters_from_cqi. CQI 0 is the outage report and
   * gives (0, 0) without any lookup. Any other CQI and the RB count are
   * dictionary keys, and a missing key raises. `adaptiveTbs` is accepted and
   * not used.
   */
  function GetTransmissionParametersFromCqi(cqi: int, nrofResourceBlocks: int, offset: int, adaptiveTbs: bool)
    : (r: Result<TransmissionParameters, LookupError>)
    ensures r.Ok? <==> cqi == 0 || (IsTableCqi(cqi) && nrofResourceBlocks in SystemConfig.ValidTbs)
    ensures cqi == 0 ==> r == Ok(TransmissionParameters(0, 0))
    ensures r.Ok? && cqi != 0 ==>
      && r.value.modulationOrder == SystemConfig.CqiIndexModOrderRate[cqi].modulationOrder
      && r.value.modulationOrder > 0
      && r.value.transportBlockSize in SystemConfig.ValidTbs[nrofResourceBlocks]
      && r.value.transportBlockSize == SystemConfig.ValidTbs[nrofResourceBlocks][
           ClampIndex(NearestTbsIndex(cqi, nrofResourceBlocks) + offset, |SystemConfig.ValidTbs[nrofResourceBlocks]|)]
  {
    if cqi == 0 then
      Ok(TransmissionParameters(0, 0))
    else if !IsTableCqi(cqi) then
      Err(KeyError(cqi))
    else if nrofResourceBlocks !in SystemConfig.ValidTbs then
      Err(KeyError(nrofResourceBlocks))
    else
      var row := SystemConfig.CqiIndexModOrderRate[cqi];
      SystemConfig.EveryRow(cqi);
      var validTbs := SystemConfig.ValidTbs[nrofResourceBlocks];
      var tbsIndex := ClampIndex(NearestTbsIndex(cqi, nrofResourceBlocks) + offset, |validTbs|);
      Ok(TransmissionParameters(row.modulationOrder, validTbs[tbsIndex]))
  }

  /** A larger offset never selects a smaller transport block (VALID_TBS[1] is increasing). */
  lemma OffsetIsMonotone(cqi: int, offset1: int, offset2: int)
    requires IsTableCqi(cqi) && offset1 <= offset2
    ensures GetTransmissionParametersFromCqi(cqi, 1, offset1, false).value.transportBlockSize
         <= GetTransmissionParametersFromCqi(cqi, 1, offset2, false).value.transportBlockSize
  {
    SystemConfig.ValidTbsShape();
    var k := NearestTbsIndex(cqi, 1);
    var i1, i2 := ClampIndex(k + offset1, 200), ClampIndex(k + offset2, 200);
    assert i1 <= i2;
  }

  /** Offsets far enough out select the smallest or the largest transport block. */
  lemma OffsetSaturates(cqi: int, offset: int)
    requires IsTableCqi(cqi)
    ensures offset <= -200 ==> GetTransmissionParametersFromCqi(cqi, 1, offset, false).value.transportBlockSize == 0
    ensures offset >= 200 ==> GetTransmissionParametersFromCqi(cqi, 1, offset, false).value.transportBlockSize == 796
  {
    SystemConfig.ValidTbsShape();
  }

  /** |1024 * tbs - rate * mod * 168 * rb|: the rate difference scaled by its positive denominator. */
  function RateErrorInIntegers(cqi: int, nrofResourceBlocks: int, tbs: nat): nat
    requires IsTableCqi(cqi) && nrofResourceBlocks in SystemConfig.ValidTbs
  {
    var e := 1024 * tbs - SystemConfig.CqiIndexModOrderRate[cqi].rate * SharedDenominator(cqi, nrofResourceBlocks);
    if e < 0 then -e else e
  }

  /** |a / d| == |a| / d for a positive denominator. */
  lemma AbsOfQuotient(a: real, d: real)
    requires d > 0.0
    ensures Abs(a / d) == Abs(a) / d
  {
    if a < 0.0 {
      assert a / d < 0.0;
      assert -(a / d) == (-a) / d;
    } else {
      assert a / d >= 0.0;
    }
  }

  lemma DivideKeepsOrder(x: real, y: real, d: real)
    requires d > 0.0
    ensures x <= y <==> x / d <= y / d
  {
    assert x == (x / d) * d && y == (y / d) * d;
    if x / d <= y / d {
      assert (y / d - x / d) * d >= 0.0;
    }
  }

  lemma CastOfProduct(a: int, b: int)
    ensures (a * b) as real == a as real * b as real
  {
  }

  /** |x / d - r| == |x - r * d| / d for a positive denominator. */
  lemma ScaledDifference(x: real, r: real, d: real)
    requires d > 0.0
    ensures Abs(x / d - r) == Abs(x - r * d) / d
  {
    assert x / d - r == (x - r * d) / d;
    AbsOfQuotient(x - r * d, d);
  }

  lemma ScaledError(tbs: nat, rate: nat, m: nat)
    requires m > 0
    ensures Abs(1024.0 * tbs as real / m as real - rate as real) == Abs((1024 * tbs - rate * m) as real) / m as real
  {
    CastOfProduct(rate, m);
    ScaledDifference(1024.0 * tbs as real, rate as real, m as real);
  }

  /** A rate difference is the integer rate error over the shared denominator mod * 168 * rb. */
  lemma RateDifferenceInIntegers(cqi: int, nrofResourceBlocks: int, tbs: nat)
    requires IsTableCqi(cqi) && nrofResourceBlocks in SystemConfig.ValidTbs
    ensures RateDifference(cqi, nrofResourceBlocks, tbs) ==
      RateErrorInIntegers(cqi, nrofResourceBlocks, tbs) as real / (SharedDenominator(cqi, nrofResourceBlocks) as real)
  {
    var rate := SystemConfig.CqiIndexModOrderRate[cqi].rate;
    var m := SharedDenominator(cqi, nrofResourceBlocks);
    ScaledError(tbs, rate, m);
  }

  /** modulation order * data symbols: the positive denominator every rate of one lookup shares. */
  function SharedDenominator(cqi: int, nrofResourceBlocks: int): (m: nat)
    requires IsTableCqi(cqi) && nrofResourceBlocks in SystemConfig.ValidTbs
    ensures m > 0
    ensures m == SystemConfig.CqiIndexModOrderRate[cqi].modulationOrder * 168 * nrofResourceBlocks
  {
    SystemConfig.EveryRow(cqi);
    SystemConfig.CqiIndexModOrderRate[cqi].modulationOrder * NrofDataSymbols(nrofResourceBlocks)
  }

  /**
   * The nearest-rate comparison in exact integers: two transport blocks'
   * rate differences compare as |1024 * tbs - rate * mod * 168 * rb| do.
   */
  lemma RateComparisonInIntegers(cqi: int, nrofResourceBlocks: int, tbs1: nat, tbs2: nat)
    requires IsTableCqi(cqi) && nrofResourceBlocks in SystemConfig.ValidTbs
    ensures (RateDifference(cqi, nrofResourceBlocks, tbs1) <= RateDifference(cqi, nrofResourceBlocks, tbs2))
        <==> (RateErrorInIntegers(cqi, nrofResourceBlocks, tbs1) <= RateErrorInIntegers(cqi, nrofResourceBlocks, tbs2))
  {
    RateDifferenceInIntegers(cqi, nrofResourceBlocks, tbs1);
    RateDifferenceInIntegers(cqi, nrofResourceBlocks, tbs2);
    var d := SharedDenominator(cqi, nrofResourceBlocks) as real;
    DivideKeepsOrder(RateErrorInIntegers(cqi, nrofResourceBlocks, tbs1) as real,
                     RateErrorInIntegers(cqi, nrofResourceBlocks, tbs2) as real, d);
  }

  // ---------------------------------------------------------------------------
  // SNR at the BLER target, per CQI

  /** Largest index whose entry exceeds t, or -1 when there is none. */
  function LastIndexAbove(s: seq<real>, t: real): (k: int)
    ensures -1 <= k < |s|
    ensures k >= 0 ==> s[k] > t
    ensures forall j :: k < j < |s| ==> s[j] <= t
    decreases |s|
  {
    if s == [] then -1
    else if s[|s| - 1] > t then |s| - 1
    else LastIndexAbove(s[..|s| - 1], t)
  }

  /** Smallest index whose entry is below t, or |s| when there is none. */
  function FirstIndexBelow(s: seq<real>, t: real): (k: nat)
    ensures k <= |s|
    ensures k < |s| ==> s[k] < t
    ensures forall j :: 0 <= j < k ==> s[j] >= t
    decreases |s|
  {
    if s == [] then 0
    else if s[0] < t then 0
    else 1 + FirstIndexBelow(s[1..], t)
  }

  function MinOf(s: seq<real>): (m: real)
    requires |s| > 0
    ensures (forall j :: 0 <= j < |s| ==> m <= s[j]) && m in s
  {
    s[FirstArgMin(s)]
  }

  function MaxOf(s: seq<real>): (m: real)
    requires |s| > 0
    ensures (forall j :: 0 <= j < |s| ==> s[j] <= m) && m in s
  {
    s[FirstArgMax(s)]
  }

  /**
   * The SNR at which one CQI's BLER curve meets the target: the smallest SNR
   * when no sample is above the target, else the largest SNR when no sample is
   * below it, else the midpoint between the last SNR above the target and the
   * first SNR below it.
   */
  function ColumnThreshold(snrRangeDb: seq<real>, bler: seq<real>, blerTarget: real): (r: real)
    requires |snrRangeDb| == |bler| > 0
    ensures MinOf(snrRangeDb) <= r <= MaxOf(snrRangeDb)
  {
    var hi := LastIndexAbove(bler, blerTarget);
    var lo := FirstIndexBelow(bler, blerTarget);
    if hi < 0 then MinOf(snrRangeDb)
    else if lo == |bler| then MaxOf(snrRangeDb)
    else (snrRangeDb[hi] + snrRangeDb[lo]) / 2.0
  }

  /**
   * The three cases of the threshold, stated without the search functions:
   * no sample above the target gives the smallest SNR; samples above but none
   * below give the largest SNR; otherwise the midpoint of the SNRs at the last
   * index above and the first index below the target.
   */
  lemma ColumnThresholdCases(snrRangeDb: seq<real>, bler: seq<real>, blerTarget: real)
    requires |snrRangeDb| == |bler| > 0
    ensures (forall j :: 0 <= j < |bler| ==> bler[j] <= blerTarget) ==>
      ColumnThreshold(snrRangeDb, bler, blerTarget) == MinOf(snrRangeDb)
    ensures ((exists j :: 0 <= j < |bler| && bler[j] > blerTarget) &&
             (forall j :: 0 <= j < |bler| ==> bler[j] >= blerTarget)) ==>
      ColumnThreshold(snrRangeDb, bler, blerTarget) == MaxOf(snrRangeDb)
    ensures forall hi, lo ::
      (0 <= hi < |bler| && 0 <= lo < |bler| &&
       bler[hi] > blerTarget && (forall j :: hi < j < |bler| ==> bler[j] <= blerTarget) &&
       bler[lo] < blerTarget && (forall j :: 0 <= j < lo ==> bler[j] >= blerTarget)) ==>
        ColumnThreshold(snrRangeDb, bler, blerTarget) == (snrRangeDb[hi] + snrRangeDb[lo]) / 2.0
  {
  }

  /** An SNR-by-CQI BLER table: one row per SNR point, every row nrofCqi wide. */
  predicate IsBlerTable(snrRangeDb: seq<real>, snrVsBler: seq<seq<real>>, nrofCqi: nat)
  {
    |snrRangeDb| == |snrVsBler| > 0 && forall row :: row in snrVsBler ==> |row| == nrofCqi
  }

  /** The threshold of CQI 0, the out-of-range link. */
  const OutOfRangeThreshold: real := -100.0

  /** Entry i of the threshold vector: -100 for CQI 0, the column's threshold otherwise. */
  function SnrAtBlerTarget(snrRangeDb: seq<real>, snrVsBler: seq<seq<real>>, nrofCqi: nat, blerTarget: real, i: nat): real
    requires IsBlerTable(snrRangeDb, snrVsBler, nrofCqi) && i < nrofCqi
  {
    if i == 0 then OutOfRangeThreshold else ColumnThreshold(snrRangeDb, Column(snrVsBler, i), blerTarget)
  }

  /**
   * determine_snr_at_bler_target: the threshold vector, filled one CQI at a
   * time.
   */
  method DetermineSnrAtBlerTarget(snrRangeDb: seq<real>, snrVsBler: seq<seq<real>>, nrofCqi: nat, blerTarget: real)
    returns (snrAtBlerTarget: seq<real>)
    requires IsBlerTable(snrRangeDb, snrVsBler, nrofCqi) && nrofCqi > 0
    ensures |snrAtBlerTarget| == nrofCqi
    ensures forall i :: 0 <= i < nrofCqi ==>
      snrAtBlerTarget[i] == SnrAtBlerTarget(snrRangeDb, snrVsBler, nrofCqi, blerTarget, i)
  {
    var thresholds := new real[nrofCqi];
    thresholds[0] := OutOfRangeThreshold;
    for i := 1 to nrofCqi
      invariant forall k :: 0 <= k < i ==>
        thresholds[k] == SnrAtBlerTarget(snrRangeDb, snrVsBler, nrofCqi, blerTarget, k)
    {
      var bler := Column(snrVsBler, i);
      thresholds[i] := ColumnThreshold(snrRangeDb, bler, blerTarget);
    }
    snrAtBlerTarget := thresholds[..];
  }

  // ---------------------------------------------------------------------------
  // Wideband CQI selection

  /** CQI i is supported when its threshold lies below its effective SNR. */
  predicate Qualifies(snrAtBlerTarget: seq<real>, eesmDb: seq<real>, i: nat)
    requires |snrAtBlerTarget| == |eesmDb|
  {
    i < |snrAtBlerTarget| && snrAtBlerTarget[i] < eesmDb[i]
  }

  /**
   * The largest CQI among the first n whose threshold lies below its
   * effective SNR, or 0 when none does.
   */
  function HighestQualifyingCqi(snrAtBlerTarget: seq<real>, eesmDb: seq<real>, n: nat): (cqi: nat)
    requires |snrAtBlerTarget| == |eesmDb| && n <= |eesmDb|
    ensures cqi < n || cqi == 0
    ensures forall j :: cqi < j < n ==> !Qualifies(snrAtBlerTarget, eesmDb, j)
    ensures Qualifies(snrAtBlerTarget, eesmDb, cqi) || forall j :: 0 <= j < n ==> !Qualifies(snrAtBlerTarget, eesmDb, j)
    ensures !Qualifies(snrAtBlerTarget, eesmDb, cqi) ==> cqi == 0
    decreases n
  {
    if n == 0 then 0
    else if snrAtBlerTarget[n - 1] < eesmDb[n - 1] then n - 1
    else HighestQualifyingCqi(snrAtBlerTarget, eesmDb, n - 1)
  }

  /**
   * The selection scan of calculate_wideband_channel_quality_index: CQIs are
   * tried from the highest down and the first one whose threshold lies below
   * its effective SNR (in dB) is reported. The EESM computation of eesmDb is
   * not part of this model; it is an input.
   */
  method CalculateWidebandChannelQualityIndex(eesmDb: seq<real>, snrAtBlerTarget: seq<real>) returns (cqi: nat)
    requires |eesmDb| == |snrAtBlerTarget|
    ensures cqi == HighestQualifyingCqi(snrAtBlerTarget, eesmDb, |eesmDb|)
    ensures cqi < |snrAtBlerTarget| || cqi == 0
  {
    var nrofCqi := |snrAtBlerTarget|;
    for i := 0 to nrofCqi
      invariant HighestQualifyingCqi(snrAtBlerTarget, eesmDb, nrofCqi) ==
                HighestQualifyingCqi(snrAtBlerTarget, eesmDb, nrofCqi - i)
    {
      var currentCqi := nrofCqi - i - 1;
      if snrAtBlerTarget[currentCqi] < eesmDb[currentCqi] {
        return currentCqi;
      }
    }
    return 0;
  }

  /** One effective SNR for every CQI, as when every EESM beta is 1. */
  function Flat(value: real, n: nat): (r: seq<real>)
    ensures |r| == n && forall i :: 0 <= i < n ==> r[i] == value
  {
    seq(n, _ => value)
  }

  /** A better channel never reports a lower CQI. */
  lemma WidebandCqiIsMonotone(snrAtBlerTarget: seq<real>, snr1: real, snr2: real)
    requires snr1 <= snr2
    ensures HighestQualifyingCqi(snrAtBlerTarget, Flat(snr1, |snrAtBlerTarget|), |snrAtBlerTarget|)
         <= HighestQualifyingCqi(snrAtBlerTarget, Flat(snr2, |snrAtBlerTarget|), |snrAtBlerTarget|)
  {
    var n := |snrAtBlerTarget|;
    var c1 := HighestQualifyingCqi(snrAtBlerTarget, Flat(snr1, n), n);
    var c2 := HighestQualifyingCqi(snrAtBlerTarget, Flat(snr2, n), n);
    if c1 > 0 {
      assert Qualifies(snrAtBlerTarget, Flat(snr1, n), c1);
      assert Qualifies(snrAtBlerTarget, Flat(snr2, n), c1);
    }
  }
}
