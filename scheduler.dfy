/**
 * The subframe-by-subframe downlink scheduler with HARQ retransmission
 * (radio_multilink_scheduler.py). Each call of Transmit refreshes the CQI
 * reports, resets the UEs whose HARQ process has used all its transmissions,
 * picks one UE, grants it one resource block, sends (part of) its coded
 * block over the channel, soft-combines what comes back, and moves its HARQ
 * process on by the decoding outcome.
 *
 * The physical layer (fading channel, OFDM, QAM, the convolutional code and
 * its random interleaver, the EESM average) is not modelled; it reaches the
 * scheduler only through the functions of a `Phy` value.
 */
module Scheduler {

  import opened Wrappers
  import opened SeqMath
  import SystemConfig
  import opened BufferManipulation
  import opened ChannelQualityIndex
  import Modular

  const NrofBitsInPacket: nat := 1000000
  const NrofMaxHarqTransmissions: nat := 4
  const BlerTarget: real := 0.1
  /** The default scheduled_ue_index: no UE is forced, the policy decides. */
  const NoForcedUe: int := -1
  /** The proportional-fair metric of a UE whose average rate is 0 (1e12). */
  const StarvedMetric: real := 1000000000000.0

  datatype SchedulerType = Random | RoundRobin | MaxRate | PropFair | Unsupported(name: string)

  /** The scheduling grant dict: empty until the UE's first fresh block. */
  datatype GrantState =
    | NoGrant
    | Grant(startResourceBlock: nat, nrofResourceBlocks: nat, modulationOrder: nat, transportBlockSize: nat)

  /** The per-UE entries of the state dict built by _setup_state_variables. */
  datatype UeState = UeState(
    cqi: nat,
    harqTransmissionIndex: nat,
    currentDataBufferIndex: nat,
    currentHarqBufferIndex: nat,
    nextHarqBufferIndex: nat,
    grant: GrantState,
    transmitDataBuffer: seq<Bit>,
    transportBits: seq<Bit>,
    transmitHarqBuffer: seq<Bit>,
    interleaverSequence: seq<int>,
    receiveHarqBuffer: seq<real>,
    subframeThroughput: seq<nat>)

  /** Coded bits and the interleaver used to produce them. */
  datatype Encoded = Encoded(codedBits: seq<Bit>, interleaver: seq<int>)

  /**
   * The physical layer as seen by the scheduler:
   * - effectiveSnrDb(ue, subframe): the EESM effective SNR in dB of the UE's
   *   channel in that subframe (every EESM beta is 1, so one value serves all CQIs);
   * - encode: channel coding and interleaving of a transport block;
   * - propagate(bits, modulation order, resource blocks, ue, subframe): the soft
   *   values received for the transmitted bits;
   * - decode(soft values, interleaver): deinterleaving and channel decoding.
   */
  datatype Phy = Phy(
    effectiveSnrDb: (nat, nat) -> real,
    encode: seq<Bit> -> Encoded,
    propagate: (seq<Bit>, nat, nat, nat, nat) -> seq<real>,
    decode: (seq<real>, seq<int>) -> seq<Bit>)
  {
    /** The code always emits bits (a convolutional code appends tail bits even to an empty block). */
    ghost predicate WellFormed()
    {
      forall bits :: |encode(bits).codedBits| > 0
    }
  }

  datatype TransmitError = IndexError | NameError

  /** The UE picked: its position in the per-UE lists, and the index transmit returns. */
  datatype Selection = Selection(slot: nat, reported: int)

  /** What transmit returns: (scheduled_ue_index, cqi, tput). */
  datatype Outcome = Outcome(scheduledUeIndex: int, cqi: nat, throughput: nat)

  /** The scheduler's constructor arguments, with the thresholds derived from the BLER table. */
  datatype Settings = Settings(
    nrofUes: nat,
    schedulerType: SchedulerType,
    propFairWindowSize: nat,
    cqiReportingInterval: nat,
    snrAtBlerTarget: seq<real>)

  predicate SettingsValid(p: Settings)
  {
    p.nrofUes > 0 && p.propFairWindowSize > 0 && p.cqiReportingInterval > 0
    && 0 < |p.snrAtBlerTarget| <= |SystemConfig.CqiIndexModOrderRate|
  }

  /**
   * What holds of every UE between two calls: the HARQ index never exceeds
   * the maximum, the throughput history keeps the window length, the two read
   * cursors stay at 0 (nothing advances them), the CQI is one the threshold
   * table can report, and a UE in the middle of a HARQ process holds a
   * one-RB grant with a non-empty coded block and a soft buffer as long as it.
   */
  predicate UeValid(ue: UeState, windowSize: nat, nrofCqi: nat)
  {
    && ue.harqTransmissionIndex <= NrofMaxHarqTransmissions
    && |ue.subframeThroughput| == windowSize
    && ue.currentDataBufferIndex == 0
    && ue.currentHarqBufferIndex == 0
    && ue.cqi < nrofCqi
    && (ue.harqTransmissionIndex > 0 ==>
          && ue.grant.Grant?
          && ue.grant.startResourceBlock == 0
          && ue.grant.nrofResourceBlocks == 1
          && ue.grant.modulationOrder > 0
          && ue.grant.transportBlockSize > 0
          && |ue.transmitHarqBuffer| > 0
          && |ue.receiveHarqBuffer| == |ue.transmitHarqBuffer|)
  }

  predicate ValidState(p: Settings, state: seq<UeState>)
  {
    && SettingsValid(p)
    && |state| == p.nrofUes
    && forall k :: 0 <= k < |state| ==> UeValid(state[k], p.propFairWindowSize, |p.snrAtBlerTarget|)
  }

  // ---------------------------------------------------------------------------
  // Setup

  /** A UE as _setup_state_variables creates it; the throughput history starts as zeros. */
  function InitialUe(transmitDataBuffer: seq<Bit>, windowSize: nat): (ue: UeState)
  {
    UeState(0, 0, 0, 0, 0, NoGrant, transmitDataBuffer, [], [], [], [], NatZeros(windowSize))
  }

  function NatZeros(n: nat): (r: seq<nat>)
    ensures |r| == n && forall i :: 0 <= i < n ==> r[i] == 0
  {
    seq(n, i => 0)
  }

  function InitialState(transmitDataBuffers: seq<seq<Bit>>, windowSize: nat): (state: seq<UeState>)
    ensures |state| == |transmitDataBuffers|
    ensures forall k :: 0 <= k < |state| ==> state[k] == InitialUe(transmitDataBuffers[k], windowSize)
  {
    seq(|transmitDataBuffers|, k requires 0 <= k < |transmitDataBuffers| => InitialUe(transmitDataBuffers[k], windowSize))
  }

  /** A freshly set-up scheduler satisfies the between-calls invariant, with no HARQ process running. */
  lemma InitialStateIsValid(p: Settings, transmitDataBuffers: seq<seq<Bit>>)
    requires SettingsValid(p) && |transmitDataBuffers| == p.nrofUes
    ensures ValidState(p, InitialState(transmitDataBuffers, p.propFairWindowSize))
    ensures forall k :: 0 <= k < p.nrofUes ==>
      && InitialState(transmitDataBuffers, p.propFairWindowSize)[k].harqTransmissionIndex == 0
      && InitialState(transmitDataBuffers, p.propFairWindowSize)[k].grant == NoGrant
      && Mean(AsReals(InitialState(transmitDataBuffers, p.propFairWindowSize)[k].subframeThroughput)) == 0.0
  {
    var state := InitialState(transmitDataBuffers, p.propFairWindowSize);
    forall k | 0 <= k < p.nrofUes
      ensures Mean(AsReals(state[k].subframeThroughput)) == 0.0
    {
      SumOfZeros(AsReals(state[k].subframeThroughput));
    }
  }

  lemma {:induction false} SumOfZeros(s: seq<real>)
    requires forall i :: 0 <= i < |s| ==> s[i] == 0.0
    ensures Sum(s) == 0.0
    decreases |s|
  {
    if s != [] {
      SumOfZeros(s[..|s| - 1]);
    }
  }

  // ---------------------------------------------------------------------------
  // Housekeeping: CQI reports and exhausted HARQ processes

  /** The CQI the UE reports when its effective SNR is snrDb. */
  function ReportedCqi(snrAtBlerTarget: seq<real>, snrDb: real): (cqi: nat)
    requires |snrAtBlerTarget| > 0
    ensures cqi < |snrAtBlerTarget|
  {
    HighestQualifyingCqi(snrAtBlerTarget, Flat(snrDb, |snrAtBlerTarget|), |snrAtBlerTarget|)
  }

  /** One UE after the housekeeping step: a new CQI when reporting, HARQ reset at the maximum. */
  function Housekept(ue: UeState, reportedCqi: nat, report: bool): UeState
  {
    var refreshed := if report then ue.(cqi := reportedCqi) else ue;
    if refreshed.harqTransmissionIndex == NrofMaxHarqTransmissions then refreshed.(harqTransmissionIndex := 0)
    else refreshed
  }

  /** Every UE after the housekeeping loop of subframe sf. */
  function Housekeeping(p: Settings, state: seq<UeState>, sf: nat, phy: Phy): (kept: seq<UeState>)
    requires SettingsValid(p)
    ensures |kept| == |state|
  {
    seq(|state|, k requires 0 <= k < |state| =>
      Housekept(state[k], ReportedCqi(p.snrAtBlerTarget, phy.effectiveSnrDb(k, sf)), sf % p.cqiReportingInterval == 0))
  }

  /**
   * Housekeeping touches every UE, scheduled or not: CQIs are refreshed
   * exactly at reporting subframes, a HARQ index at the maximum goes back to
   * 0 and any other is kept, so afterwards every index is below the maximum;
   * nothing else changes.
   */
  lemma HousekeepingEffect(p: Settings, state: seq<UeState>, sf: nat, phy: Phy, k: nat)
    requires ValidState(p, state) && k < |state|
    ensures Housekeeping(p, state, sf, phy)[k].harqTransmissionIndex < NrofMaxHarqTransmissions
    ensures state[k].harqTransmissionIndex == NrofMaxHarqTransmissions ==>
      Housekeeping(p, state, sf, phy)[k].harqTransmissionIndex == 0
    ensures state[k].harqTransmissionIndex < NrofMaxHarqTransmissions ==>
      Housekeeping(p, state, sf, phy)[k].harqTransmissionIndex == state[k].harqTransmissionIndex
    ensures sf % p.cqiReportingInterval == 0 ==>
      Housekeeping(p, state, sf, phy)[k].cqi == ReportedCqi(p.snrAtBlerTarget, phy.effectiveSnrDb(k, sf))
    ensures sf % p.cqiReportingInterval != 0 ==> Housekeeping(p, state, sf, phy)[k].cqi == state[k].cqi
    ensures Housekeeping(p, state, sf, phy)[k] ==
      state[k].(cqi := Housekeeping(p, state, sf, phy)[k].cqi,
                harqTransmissionIndex := Housekeeping(p, state, sf, phy)[k].harqTransmissionIndex)
  {
    var kept := Housekeeping(p, state, sf, phy);
    assert kept[k] == Housekept(state[k], ReportedCqi(p.snrAtBlerTarget, phy.effectiveSnrDb(k, sf)), sf % p.cqiReportingInterval == 0);
  }

  /** Housekeeping keeps the between-calls invariant. */
  lemma HousekeepingKeepsValid(p: Settings, state: seq<UeState>, sf: nat, phy: Phy)
    requires ValidState(p, state)
    ensures ValidState(p, Housekeeping(p, state, sf, phy))
  {
    var kept := Housekeeping(p, state, sf, phy);
    forall k | 0 <= k < |kept|
      ensures UeValid(kept[k], p.propFairWindowSize, |p.snrAtBlerTarget|)
    {
      HousekeepingEffect(p, state, sf, phy, k);
    }
  }

  // ---------------------------------------------------------------------------
  // UE selection

  /** The CQIs of all UEs, in UE order. */
  function Cqis(state: seq<UeState>): (cqis: seq<int>)
    ensures |cqis| == |state| && forall k :: 0 <= k < |state| ==> cqis[k] == state[k].cqi
  {
    seq(|state|, k requires 0 <= k < |state| => state[k].cqi)
  }

  /** The grant parameters of a CQI for one resource block (the lookup cannot fail here). */
  function GrantParameters(cqi: nat): (r: TransmissionParameters)
    requires cqi < |SystemConfig.CqiIndexModOrderRate|
    ensures cqi == 0 ==> r == TransmissionParameters(0, 0)
    ensures cqi != 0 ==> r.modulationOrder > 0 && r.transportBlockSize in SystemConfig.ValidTbs[1]
    ensures Ok(r) == GetTransmissionParametersFromCqi(cqi, 1, 0, false)
  {
    SystemConfig.ValidTbsShape();
    GetTransmissionParametersFromCqi(cqi, 1, 0, false).value
  }

  /** TBS(cqi, 1) * 1000 over the mean of the throughput history, or 1e12 when that mean is 0. */
  function PropFairMetric(ue: UeState): real
    requires ue.cqi < |SystemConfig.CqiIndexModOrderRate| && |ue.subframeThroughput| > 0
  {
    var instantRate := GrantParameters(ue.cqi).transportBlockSize as real * 1000.0;
    var averageRate := Mean(AsReals(ue.subframeThroughput));
    if averageRate == 0.0 then StarvedMetric else instantRate / averageRate
  }

  predicate Ranked(state: seq<UeState>)
  {
    forall k :: 0 <= k < |state| ==>
      state[k].cqi < |SystemConfig.CqiIndexModOrderRate| && |state[k].subframeThroughput| > 0
  }

  function PropFairMetrics(state: seq<UeState>): (r: seq<real>)
    requires Ranked(state)
    ensures |r| == |state| && forall k :: 0 <= k < |state| ==> r[k] == PropFairMetric(state[k])
  {
    seq(|state|, k requires 0 <= k < |state| => PropFairMetric(state[k]))
  }

  /** The proportional_rate list, built UE by UE. */
  method ProportionalRates(state: seq<UeState>) returns (proportionalRate: seq<real>)
    requires Ranked(state)
    ensures proportionalRate == PropFairMetrics(state)
  {
    proportionalRate := [];
    for ueIndex := 0 to |state|
      invariant |proportionalRate| == ueIndex
      invariant forall k :: 0 <= k < ueIndex ==> proportionalRate[k] == PropFairMetric(state[k])
    {
      proportionalRate := proportionalRate + [PropFairMetric(state[ueIndex])];
    }
  }

  /**
   * The UE scheduled in subframe sf. A forced index other than -1 is used as
   * a Python list index (negative values count from the end) and raises
   * IndexError when out of range; otherwise the policy decides, and an
   * unsupported policy raises NameError. randomDraw is the value pyp.randi
   * draws from [0, nrofUes).
   */
  function SelectUe(p: Settings, kept: seq<UeState>, sf: nat, forced: int, randomDraw: nat): Result<Selection, TransmitError>
    requires ValidState(p, kept) && randomDraw < p.nrofUes
  {
    if forced != NoForcedUe then
      if 0 <= forced < p.nrofUes then Ok(Selection(forced, forced))
      else if -(p.nrofUes as int) <= forced < 0 then Ok(Selection((p.nrofUes as int + forced) as nat, forced))
      else Err(IndexError)
    else
      match p.schedulerType
      case Random => Ok(Selection(randomDraw, randomDraw))
      case RoundRobin => Ok(Selection(sf % p.nrofUes, sf % p.nrofUes))
      case MaxRate =>
        var ue := FirstArgMax(AsReals(Cqis(kept)));
        Ok(Selection(ue, ue))
      case PropFair =>
        if sf < p.propFairWindowSize then Ok(Selection(sf % p.nrofUes, sf % p.nrofUes))
        else
          var ue := FirstArgMax(PropFairMetrics(kept));
          Ok(Selection(ue, ue))
      case Unsupported(_) => Err(NameError)
  }

  /** Lines 91-120 of transmit: the UE scheduled in subframe sf. */
  method SelectScheduledUe(p: Settings, kept: seq<UeState>, sf: nat, scheduledUeIndex: int, randomDraw: nat)
    returns (selection: Result<Selection, TransmitError>)
    requires ValidState(p, kept) && randomDraw < p.nrofUes
    ensures selection == SelectUe(p, kept, sf, scheduledUeIndex, randomDraw)
  {
    SystemConfig.CqiTableShape();
    if scheduledUeIndex != NoForcedUe {
      if 0 <= scheduledUeIndex < p.nrofUes {
        selection := Ok(Selection(scheduledUeIndex, scheduledUeIndex));
      } else if -(p.nrofUes as int) <= scheduledUeIndex < 0 {
        selection := Ok(Selection((p.nrofUes as int + scheduledUeIndex) as nat, scheduledUeIndex));
      } else {
        selection := Err(IndexError);
      }
      return;
    }
    match p.schedulerType {
      case Random =>
        selection := Ok(Selection(randomDraw, randomDraw));
      case RoundRobin =>
        selection := Ok(Selection(sf % p.nrofUes, sf % p.nrofUes));
      case MaxRate =>
        var cqi := Cqis(kept);
        var ue := FirstArgMax(AsReals(cqi));
        selection := Ok(Selection(ue, ue));
      case PropFair =>
        if sf < p.propFairWindowSize {
          selection := Ok(Selection(sf % p.nrofUes, sf % p.nrofUes));
        } else {
          var proportionalRate := ProportionalRates(kept);
          var ue := FirstArgMax(proportionalRate);
          selection := Ok(Selection(ue, ue));
        }
      case Unsupported(_) =>
        selection := Err(NameError);
    }
  }

  /** Whatever picks it, the selected UE is one of the UEs, and its index is reported back. */
  lemma SelectionIsInRange(p: Settings, kept: seq<UeState>, sf: nat, forced: int, randomDraw: nat)
    requires ValidState(p, kept) && randomDraw < p.nrofUes
    ensures SelectUe(p, kept, sf, forced, randomDraw).Ok? ==>
      && SelectUe(p, kept, sf, forced, randomDraw).value.slot < p.nrofUes
      && (SelectUe(p, kept, sf, forced, randomDraw).value.reported == SelectUe(p, kept, sf, forced, randomDraw).value.slot
          || SelectUe(p, kept, sf, forced, randomDraw).value.reported == SelectUe(p, kept, sf, forced, randomDraw).value.slot - p.nrofUes)
  {
  }

  /**
   * A forced index bypasses the policy: it is accepted exactly when Python
   * accepts it as a list index, and names the same UE whatever the policy.
   */
  lemma ForcedIndexBypassesPolicy(p: Settings, kept: seq<UeState>, sf: nat, forced: int, randomDraw: nat, policy: SchedulerType)
    requires ValidState(p, kept) && randomDraw < p.nrofUes && forced != NoForcedUe
    ensures SelectUe(p, kept, sf, forced, randomDraw).Ok? <==> -(p.nrofUes as int) <= forced < p.nrofUes
    ensures SelectUe(p, kept, sf, forced, randomDraw).Err? ==> SelectUe(p, kept, sf, forced, randomDraw).error == IndexError
    ensures SelectUe(p, kept, sf, forced, randomDraw) == SelectUe(p.(schedulerType := policy), kept, sf, forced, randomDraw)
    ensures SelectUe(p, kept, sf, forced, randomDraw).Ok? ==>
      && SelectUe(p, kept, sf, forced, randomDraw).value.reported == forced
      && SelectUe(p, kept, sf, forced, randomDraw).value.slot == forced % p.nrofUes
  {
    var n := p.nrofUes as int;
    if 0 <= forced < n {
      Modular.ModUnique(forced, n, 0, forced);
    } else if -n <= forced < 0 {
      Modular.ModUnique(forced, n, -1, n + forced);
    }
  }

  /** Without a forced index, an unsupported policy raises NameError. */
  lemma UnsupportedPolicyRaises(p: Settings, kept: seq<UeState>, sf: nat, randomDraw: nat)
    requires ValidState(p, kept) && randomDraw < p.nrofUes && p.schedulerType.Unsupported?
    ensures SelectUe(p, kept, sf, NoForcedUe, randomDraw) == Err(NameError)
  {
  }

  /** RoundRobin picks sf mod nrofUes; PropFair picks the same UE until the window has filled. */
  lemma PropFairWarmUpIsRoundRobin(p: Settings, kept: seq<UeState>, sf: nat, randomDraw: nat)
    requires ValidState(p, kept) && randomDraw < p.nrofUes && sf < p.propFairWindowSize
    ensures SelectUe(p.(schedulerType := RoundRobin), kept, sf, NoForcedUe, randomDraw) == Ok(Selection(sf % p.nrofUes, sf % p.nrofUes))
    ensures SelectUe(p.(schedulerType := PropFair), kept, sf, NoForcedUe, randomDraw) ==
            SelectUe(p.(schedulerType := RoundRobin), kept, sf, NoForcedUe, randomDraw)
  {
  }

  /** MaxRate picks a UE with the largest CQI, the lowest-indexed one among ties. */
  lemma MaxRatePicksFirstHighestCqi(p: Settings, kept: seq<UeState>, sf: nat, randomDraw: nat)
    requires ValidState(p, kept) && randomDraw < p.nrofUes && p.schedulerType == MaxRate
    ensures SelectUe(p, kept, sf, NoForcedUe, randomDraw).Ok?
    ensures forall j :: 0 <= j < |kept| ==> kept[j].cqi <= kept[SelectUe(p, kept, sf, NoForcedUe, randomDraw).value.slot].cqi
    ensures forall j :: 0 <= j < SelectUe(p, kept, sf, NoForcedUe, randomDraw).value.slot ==>
      kept[j].cqi < kept[SelectUe(p, kept, sf, NoForcedUe, randomDraw).value.slot].cqi
  {
    var cqis := AsReals(Cqis(kept));
    var ue := FirstArgMax(cqis);
    assert forall j :: 0 <= j < |kept| ==> cqis[j] == kept[j].cqi as real;
  }

  /**
   * After the window PropFair picks the lowest-indexed UE with the largest
   * metric; a UE whose history averages 0 scores 1e12.
   */
  lemma PropFairPicksFirstHighestMetric(p: Settings, kept: seq<UeState>, sf: nat, randomDraw: nat)
    requires ValidState(p, kept) && randomDraw < p.nrofUes && p.schedulerType == PropFair
    requires sf >= p.propFairWindowSize
    ensures Ranked(kept)
    ensures SelectUe(p, kept, sf, NoForcedUe, randomDraw).Ok?
    ensures forall j :: 0 <= j < |kept| ==>
      PropFairMetric(kept[j]) <= PropFairMetric(kept[SelectUe(p, kept, sf, NoForcedUe, randomDraw).value.slot])
    ensures forall j :: 0 <= j < SelectUe(p, kept, sf, NoForcedUe, randomDraw).value.slot ==>
      PropFairMetric(kept[j]) < PropFairMetric(kept[SelectUe(p, kept, sf, NoForcedUe, randomDraw).value.slot])
  {
    SystemConfig.CqiTableShape();
  }

  // ---------------------------------------------------------------------------
  // Serving the scheduled UE

  /** itpp's shift_left(x, 1): drop the oldest entry, append x. */
  function ShiftLeft(history: seq<nat>, x: nat): (r: seq<nat>)
    requires |history| > 0
  {
    history[1..] + [x]
  }

  /** The history keeps its length, loses its oldest entry and ends with the newest. */
  lemma ShiftLeftEffect(history: seq<nat>, x: nat)
    requires |history| > 0
    ensures |ShiftLeft(history, x)| == |history|
    ensures ShiftLeft(history, x)[|history| - 1] == x
    ensures forall i :: 0 <= i < |history| - 1 ==> ShiftLeft(history, x)[i] == history[i + 1]
  {
  }

  /** What serving a UE produces: its new state and the throughput of this subframe. */
  datatype Served = Served(ue: UeState, throughput: nat)

  /** What serving a UE needs: a CQI the table knows, a history, and a running process's grant and buffers. */
  predicate ServeReady(ue: UeState)
  {
    && ue.cqi < |SystemConfig.CqiIndexModOrderRate|
    && |ue.subframeThroughput| > 0
    && ue.currentDataBufferIndex == 0
    && ue.currentHarqBufferIndex == 0
    && (ue.harqTransmissionIndex > 0 ==>
          ue.grant.Grant? && |ue.transmitHarqBuffer| > 0 && |ue.receiveHarqBuffer| > 0)
  }

  /**
   * A new HARQ process: the transport block is read from the data buffer at
   * the data cursor (zero-padded), encoded and interleaved, and the soft
   * buffer starts as zeros of the coded length.
   */
  function NewBlock(ue: UeState, transportBlockSize: nat, phy: Phy): (r: UeState)
    requires ue.currentDataBufferIndex <= |ue.transmitDataBuffer| && phy.WellFormed()
    ensures |r.transportBits| == transportBlockSize
    ensures r.transportBits == ExtractNextBitsWithZeroPadding(ue.transmitDataBuffer, ue.currentDataBufferIndex, transportBlockSize)
    ensures r.transmitHarqBuffer == phy.encode(r.transportBits).codedBits
    ensures r.interleaverSequence == phy.encode(r.transportBits).interleaver
    ensures |r.transmitHarqBuffer| > 0 && |r.receiveHarqBuffer| == |r.transmitHarqBuffer|
    ensures forall j :: 0 <= j < |r.receiveHarqBuffer| ==> r.receiveHarqBuffer[j] == 0.0
    ensures r == ue.(transportBits := r.transportBits, transmitHarqBuffer := r.transmitHarqBuffer,
                     interleaverSequence := r.interleaverSequence, receiveHarqBuffer := r.receiveHarqBuffer)
  {
    var bits := ExtractNextBitsWithZeroPadding(ue.transmitDataBuffer, ue.currentDataBufferIndex, transportBlockSize);
    var encoded := phy.encode(bits);
    ue.(transportBits := bits,
        transmitHarqBuffer := encoded.codedBits,
        interleaverSequence := encoded.interleaver,
        receiveHarqBuffer := RealZeros(|encoded.codedBits|))
  }

  /**
   * One transmission of the running process: the grant's bit count is read
   * circularly from the coded block at the HARQ cursor, sent over the channel,
   * added into the soft buffer, and decoded. Success ends the process with
   * the grant's TBS as throughput; failure counts one more transmission.
   */
  function Attempt(ue: UeState, slot: nat, sf: nat, phy: Phy): (r: Served)
    requires ue.grant.Grant? && |ue.transmitHarqBuffer| > 0 && |ue.subframeThroughput| > 0
  {
    var grant := ue.grant;
    var transmitBits := Circular(ue.transmitHarqBuffer, ue.currentHarqBufferIndex,
                                 NrofTransmitBits(grant.modulationOrder, grant.nrofResourceBlocks));
    var received := phy.propagate(transmitBits, grant.modulationOrder, grant.nrofResourceBlocks, slot, sf);
    var combined := Combined(ue.receiveHarqBuffer, ue.currentHarqBufferIndex, received);
    var sent := ue.(nextHarqBufferIndex := (ue.currentHarqBufferIndex + |transmitBits|) % |ue.transmitHarqBuffer|,
                    receiveHarqBuffer := combined);
    if phy.decode(combined, ue.interleaverSequence) == ue.transportBits then
      Served(sent.(harqTransmissionIndex := 0,
                   subframeThroughput := ShiftLeft(ue.subframeThroughput, grant.transportBlockSize)),
             grant.transportBlockSize)
    else
      Served(sent.(harqTransmissionIndex := ue.harqTransmissionIndex + 1,
                   subframeThroughput := ShiftLeft(ue.subframeThroughput, 0)),
             0)
  }

  /**
   * Serving the scheduled UE (lines 128-180 of transmit). A UE with HARQ index
   * 0 gets a fresh one-RB grant from its current CQI; a TBS of 0 ends the
   * call there with throughput 0. Otherwise a new block is set up when the
   * index is 0, and one transmission is attempted.
   */
  function Serve(ue: UeState, slot: nat, sf: nat, phy: Phy): Served
    requires ServeReady(ue) && phy.WellFormed()
  {
    if ue.harqTransmissionIndex == 0 then
      var parameters := GrantParameters(ue.cqi);
      var granted := ue.(grant := Grant(0, 1, parameters.modulationOrder, parameters.transportBlockSize));
      if parameters.transportBlockSize == 0 then
        Served(granted.(subframeThroughput := ShiftLeft(ue.subframeThroughput, 0)), 0)
      else
        Attempt(NewBlock(granted, parameters.transportBlockSize, phy), slot, sf, phy)
    else
      Attempt(ue, slot, sf, phy)
  }

  /** serve_scheduled_ue: lines 128-180 of transmit, applied to the scheduled UE's entries. */
  method ServeScheduledUe(ue: UeState, slot: nat, sf: nat, phy: Phy) returns (served: UeState, tput: nat)
    requires ServeReady(ue) && phy.WellFormed()
    ensures Served(served, tput) == Serve(ue, slot, sf, phy)
  {
    served := ue;
    var transportBlockSize := 0;
    if served.harqTransmissionIndex == 0 {
      var parameters := GrantParameters(served.cqi);
      served := served.(grant := Grant(0, 1, parameters.modulationOrder, parameters.transportBlockSize));
      transportBlockSize := parameters.transportBlockSize;
      if transportBlockSize == 0 {
        tput := 0;
        served := served.(subframeThroughput := ShiftLeft(served.subframeThroughput, tput));
        return;
      }
    }
    if served.harqTransmissionIndex == 0 {
      var bits := ExtractNextBitsWithZeroPadding(served.transmitDataBuffer, served.currentDataBufferIndex, transportBlockSize);
      var encoded := phy.encode(bits);
      served := served.(transportBits := bits,
                        transmitHarqBuffer := encoded.codedBits,
                        interleaverSequence := encoded.interleaver,
                        receiveHarqBuffer := RealZeros(|encoded.codedBits|));
    }
    served, tput := TransmitAndDecode(served, slot, sf, phy);
  }

  /** Lines 159-180 of transmit: one transmission of the running HARQ process. */
  method TransmitAndDecode(ue: UeState, slot: nat, sf: nat, phy: Phy) returns (served: UeState, tput: nat)
    requires ue.grant.Grant? && |ue.transmitHarqBuffer| > 0 && |ue.subframeThroughput| > 0
    requires ue.currentHarqBufferIndex == 0 && |ue.receiveHarqBuffer| > 0
    ensures Served(served, tput) == Attempt(ue, slot, sf, phy)
  {
    served := ue;
    var grant := served.grant;
    var nrofTransmitBits := NrofTransmitBits(grant.modulationOrder, grant.nrofResourceBlocks);
    var transmitBits := ExtractNextBitsWithWraparound(served.transmitHarqBuffer, served.currentHarqBufferIndex, nrofTransmitBits);
    served := served.(nextHarqBufferIndex := (served.currentHarqBufferIndex + |transmitBits|) % |served.transmitHarqBuffer|);
    var receivedSoftValues := phy.propagate(transmitBits, grant.modulationOrder, grant.nrofResourceBlocks, slot, sf);
    var combined := AddValuesWithWraparound(served.receiveHarqBuffer, served.currentHarqBufferIndex, receivedSoftValues);
    assert combined == Combined(ue.receiveHarqBuffer, ue.currentHarqBufferIndex, receivedSoftValues);
    served := served.(receiveHarqBuffer := combined);
    var decodedBits := phy.decode(served.receiveHarqBuffer, served.interleaverSequence);
    if decodedBits == served.transportBits {
      served := served.(harqTransmissionIndex := 0);
      tput := grant.transportBlockSize;
    } else {
      served := served.(harqTransmissionIndex := served.harqTransmissionIndex + 1);
      tput := 0;
    }
    served := served.(subframeThroughput := ShiftLeft(served.subframeThroughput, tput));
  }

  // ---------------------------------------------------------------------------
  // The whole call

  /** The result of one call of transmit, and the state and subframe index it leaves. */
  datatype Transition = Transition(result: Result<Outcome, TransmitError>, state: seq<UeState>, subframeIndex: nat)

  /** The selection a call makes, on the state after housekeeping. */
  function Selected(p: Settings, state: seq<UeState>, sf: nat, forced: int, randomDraw: nat, phy: Phy): (r: Result<Selection, TransmitError>)
    requires ValidState(p, state) && randomDraw < p.nrofUes
    ensures r.Ok? ==> r.value.slot < |state|
  {
    HousekeepingKeepsValid(p, state, sf, phy);
    SelectionIsInRange(p, Housekeeping(p, state, sf, phy), sf, forced, randomDraw);
    SelectUe(p, Housekeeping(p, state, sf, phy), sf, forced, randomDraw)
  }

  /**
   * One call of transmit in subframe sf. An exception leaves the
   * housekeeping in place and the subframe index as it was.
   */
  function Step(p: Settings, state: seq<UeState>, sf: nat, forced: int, randomDraw: nat, phy: Phy): Transition
    requires ValidState(p, state) && randomDraw < p.nrofUes && phy.WellFormed()
  {
    var kept := Housekeeping(p, state, sf, phy);
    HousekeepingKeepsValid(p, state, sf, phy);
    SystemConfig.CqiTableShape();
    match Selected(p, state, sf, forced, randomDraw, phy)
    case Err(e) => Transition(Err(e), kept, sf)
    case Ok(selection) =>
      SelectionIsInRange(p, kept, sf, forced, randomDraw);
      var ue := kept[selection.slot];
      var served := Serve(ue, selection.slot, sf, phy);
      Transition(Ok(Outcome(selection.reported, ue.cqi, served.throughput)), kept[selection.slot := served.ue], sf + 1)
  }

  class RadioMultilinkScheduler {
    const nrofUes: nat
    const schedulerType: SchedulerType
    const propFairWindowSize: nat
    const cqiReportingInterval: nat
    /** SNR (dB) at which each CQI reaches the BLER target; entry 0 is the out-of-range CQI. */
    const snrAtBlerTarget: seq<real>
    var subframeIndex: nat
    var state: seq<UeState>

    function Parameters(): Settings
    {
      Settings(nrofUes, schedulerType, propFairWindowSize, cqiReportingInterval, snrAtBlerTarget)
    }

    predicate Valid()
      reads this
    {
      ValidState(Parameters(), state)
    }

    /**
     * The thresholds come from the AWGN BLER table (snrRangeDb, snrVsBler), one
     * column per CQI; each UE's data buffer holds one packet of random bits.
     */
    constructor(nrofUes: nat, schedulerType: SchedulerType, propFairWindowSize: nat, cqiReportingInterval: nat,
                snrRangeDb: seq<real>, snrVsBler: seq<seq<real>>, nrofCqi: nat, transmitDataBuffers: seq<seq<Bit>>)
      requires nrofUes > 0 && propFairWindowSize > 0 && cqiReportingInterval > 0
      requires IsBlerTable(snrRangeDb, snrVsBler, nrofCqi) && 0 < nrofCqi <= |SystemConfig.CqiIndexModOrderRate|
      requires |transmitDataBuffers| == nrofUes
      requires forall k :: 0 <= k < nrofUes ==> |transmitDataBuffers[k]| == NrofBitsInPacket
      ensures this.nrofUes == nrofUes && this.schedulerType == schedulerType
      ensures this.propFairWindowSize == propFairWindowSize && this.cqiReportingInterval == cqiReportingInterval
      ensures |snrAtBlerTarget| == nrofCqi
      ensures forall i :: 0 <= i < nrofCqi ==>
        snrAtBlerTarget[i] == SnrAtBlerTarget(snrRangeDb, snrVsBler, nrofCqi, BlerTarget, i)
      ensures subframeIndex == 0
      ensures state == InitialState(transmitDataBuffers, propFairWindowSize)
      ensures Valid()
    {
      this.nrofUes := nrofUes;
      this.schedulerType := schedulerType;
      this.propFairWindowSize := propFairWindowSize;
      this.cqiReportingInterval := cqiReportingInterval;
      this.subframeIndex := 0;
      var thresholds := DetermineSnrAtBlerTarget(snrRangeDb, snrVsBler, nrofCqi, BlerTarget);
      this.snrAtBlerTarget := thresholds;
      this.state := InitialState(transmitDataBuffers, propFairWindowSize);
      new;
      SystemConfig.CqiTableShape();
      InitialStateIsValid(Parameters(), transmitDataBuffers);
    }

    /** Lines 76-88 of transmit: refresh the CQI reports and reset exhausted HARQ processes, UE by UE. */
    method Housekeep(phy: Phy)
      requires Valid()
      modifies this
      ensures subframeIndex == old(subframeIndex)
      ensures state == Housekeeping(Parameters(), old(state), subframeIndex, phy)
      ensures Valid()
    {
      ghost var before := state;
      var sf := subframeIndex;
      for ueIndex := 0 to nrofUes
        invariant |state| == nrofUes && subframeIndex == sf
        invariant forall k :: 0 <= k < ueIndex ==> state[k] == Housekeeping(Parameters(), before, sf, phy)[k]
        invariant forall k :: ueIndex <= k < nrofUes ==> state[k] == before[k]
      {
        var ue := state[ueIndex];
        if sf % cqiReportingInterval == 0 {
          var cqi := CalculateWidebandChannelQualityIndex(Flat(phy.effectiveSnrDb(ueIndex, sf), |snrAtBlerTarget|), snrAtBlerTarget);
          ue := ue.(cqi := cqi);
        }
        if ue.harqTransmissionIndex == NrofMaxHarqTransmissions {
          ue := ue.(harqTransmissionIndex := 0);
        }
        assert ue == Housekept(before[ueIndex], ReportedCqi(snrAtBlerTarget, phy.effectiveSnrDb(ueIndex, sf)),
                               sf % cqiReportingInterval == 0);
        state := state[ueIndex := ue];
      }
      assert state == Housekeeping(Parameters(), before, sf, phy);
      HousekeepingKeepsValid(Parameters(), before, sf, phy);
    }

    /**
     * transmit(scheduled_ue_index): one subframe. randomDraw is what pyp.randi
     * returns when the Random policy runs; phy supplies the channel.
     */
    method Transmit(scheduledUeIndex: int, randomDraw: nat, phy: Phy) returns (result: Result<Outcome, TransmitError>)
      requires Valid() && randomDraw < nrofUes && phy.WellFormed()
      modifies this
      ensures Valid()
      ensures Transition(result, state, subframeIndex) ==
              Step(Parameters(), old(state), old(subframeIndex), scheduledUeIndex, randomDraw, phy)
    {
      ghost var before := state;
      var sf := subframeIndex;
      Housekeep(phy);
      var selection := SelectScheduledUe(Parameters(), state, sf, scheduledUeIndex, randomDraw);
      SystemConfig.CqiTableShape();
      assert Step(Parameters(), before, sf, scheduledUeIndex, randomDraw, phy) ==
        match selection
        case Err(e) => Transition(Err(e), state, sf)
        case Ok(chosen) =>
          Transition(Ok(Outcome(chosen.reported, state[chosen.slot].cqi, Serve(state[chosen.slot], chosen.slot, sf, phy).throughput)),
                     state[chosen.slot := Serve(state[chosen.slot], chosen.slot, sf, phy).ue], sf + 1);
      if selection.Err? {
        result := Err(selection.error);
        return;
      }
      var slot := selection.value.slot;
      SelectionIsInRange(Parameters(), state, sf, scheduledUeIndex, randomDraw);

      var scheduledUe := state[slot];
      var served, tput := ServeScheduledUe(scheduledUe, slot, sf, phy);
      state := state[slot := served];
      subframeIndex := subframeIndex + 1;
      result := Ok(Outcome(selection.value.reported, scheduledUe.cqi, tput));
      StepKeepsValid(Parameters(), before, sf, scheduledUeIndex, randomDraw, phy);
    }
  }

  // ---------------------------------------------------------------------------
  // Properties of one call

  /** Serving keeps a UE's invariant: the HARQ index stays within the maximum, the grant and buffers stay usable. */
  lemma ServeKeepsValid(ue: UeState, slot: nat, sf: nat, phy: Phy, windowSize: nat, nrofCqi: nat)
    requires UeValid(ue, windowSize, nrofCqi) && ue.harqTransmissionIndex < NrofMaxHarqTransmissions
    requires windowSize > 0 && nrofCqi <= |SystemConfig.CqiIndexModOrderRate| && phy.WellFormed()
    ensures ServeReady(ue)
    ensures UeValid(Serve(ue, slot, sf, phy).ue, windowSize, nrofCqi)
  {
    if ue.harqTransmissionIndex == 0 {
      var parameters := GrantParameters(ue.cqi);
      if parameters.transportBlockSize != 0 {
        var granted := ue.(grant := Grant(0, 1, parameters.modulationOrder, parameters.transportBlockSize));
        var started := NewBlock(granted, parameters.transportBlockSize, phy);
      }
    }
  }

  /** A call keeps the between-calls invariant. */
  lemma StepKeepsValid(p: Settings, state: seq<UeState>, sf: nat, forced: int, randomDraw: nat, phy: Phy)
    requires ValidState(p, state) && randomDraw < p.nrofUes && phy.WellFormed()
    ensures ValidState(p, Step(p, state, sf, forced, randomDraw, phy).state)
  {
    var kept := Housekeeping(p, state, sf, phy);
    HousekeepingKeepsValid(p, state, sf, phy);
    SystemConfig.CqiTableShape();
    var selection := SelectUe(p, kept, sf, forced, randomDraw);
    if selection.Ok? {
      SelectionIsInRange(p, kept, sf, forced, randomDraw);
      var k := selection.value.slot;
      HousekeepingEffect(p, state, sf, phy, k);
      ServeKeepsValid(kept[k], k, sf, phy, p.propFairWindowSize, |p.snrAtBlerTarget|);
    }
  }

  /**
   * A call raises exactly when the forced index is out of range (IndexError) or,
   * without one, the policy is unsupported (NameError); then the housekept
   * state stays and the subframe index does not move. Otherwise the subframe
   * index moves on by one, the reported CQI is the scheduled UE's after
   * housekeeping, and only the scheduled UE's entries change.
   */
  lemma StepEffect(p: Settings, state: seq<UeState>, sf: nat, forced: int, randomDraw: nat, phy: Phy)
    requires ValidState(p, state) && randomDraw < p.nrofUes && phy.WellFormed()
    ensures Step(p, state, sf, forced, randomDraw, phy).result.Err? <==>
      (forced != NoForcedUe && !(-(p.nrofUes as int) <= forced < p.nrofUes))
      || (forced == NoForcedUe && p.schedulerType.Unsupported?)
    ensures Step(p, state, sf, forced, randomDraw, phy).result.Err? ==>
      && Step(p, state, sf, forced, randomDraw, phy).state == Housekeeping(p, state, sf, phy)
      && Step(p, state, sf, forced, randomDraw, phy).subframeIndex == sf
    ensures Step(p, state, sf, forced, randomDraw, phy).result.Ok? ==>
      && Step(p, state, sf, forced, randomDraw, phy).subframeIndex == sf + 1
      && Selected(p, state, sf, forced, randomDraw, phy).Ok?
      && Step(p, state, sf, forced, randomDraw, phy).result.value.scheduledUeIndex ==
           Selected(p, state, sf, forced, randomDraw, phy).value.reported
      && Step(p, state, sf, forced, randomDraw, phy).result.value.cqi ==
           Housekeeping(p, state, sf, phy)[Selected(p, state, sf, forced, randomDraw, phy).value.slot].cqi
      && forall k :: 0 <= k < |state| && k != Selected(p, state, sf, forced, randomDraw, phy).value.slot ==>
           && Step(p, state, sf, forced, randomDraw, phy).state[k] == Housekeeping(p, state, sf, phy)[k]
           && Step(p, state, sf, forced, randomDraw, phy).state[k].subframeThroughput == state[k].subframeThroughput
  {
    var kept := Housekeeping(p, state, sf, phy);
    HousekeepingKeepsValid(p, state, sf, phy);
    SystemConfig.CqiTableShape();
    if forced != NoForcedUe {
      ForcedIndexBypassesPolicy(p, kept, sf, forced, randomDraw, p.schedulerType);
    }
    var selection := SelectUe(p, kept, sf, forced, randomDraw);
    if selection.Ok? {
      SelectionIsInRange(p, kept, sf, forced, randomDraw);
      forall k | 0 <= k < |state| && k != selection.value.slot
        ensures Step(p, state, sf, forced, randomDraw, phy).state[k].subframeThroughput == state[k].subframeThroughput
      {
        HousekeepingEffect(p, state, sf, phy, k);
      }
    }
  }

  /**
   * A UE whose HARQ index is 0 gets a fresh grant from its current CQI: one
   * resource block starting at 0, with the modulation and TBS of the lookup.
   * When that TBS is 0 the call ends early: throughput 0 is shifted into the
   * history, the grant is recorded, and the HARQ index and all buffers are
   * left as they were.
   */
  lemma FreshGrantOutOfRange(ue: UeState, slot: nat, sf: nat, phy: Phy)
    requires ServeReady(ue) && phy.WellFormed() && ue.harqTransmissionIndex == 0
    requires GetTransmissionParametersFromCqi(ue.cqi, 1, 0, false).value.transportBlockSize == 0
    ensures Serve(ue, slot, sf, phy).throughput == 0
    ensures Serve(ue, slot, sf, phy).ue ==
      ue.(grant := Grant(0, 1, GetTransmissionParametersFromCqi(ue.cqi, 1, 0, false).value.modulationOrder, 0),
          subframeThroughput := ShiftLeft(ue.subframeThroughput, 0))
    ensures ue.cqi == 0 ==> Serve(ue, slot, sf, phy).ue.grant == Grant(0, 1, 0, 0)
  {
  }

  /**
   * A retransmission (HARQ index above 0) reuses the stored grant whatever
   * the CQI now is: it sends the first mod * 168 * rb coded bits, read
   * circularly from the start of the coded block, and adds what comes back
   * into the soft buffer; the transport block, coded block and interleaver
   * are kept, and the next HARQ cursor lands just past the bits sent.
   */
  lemma RetransmissionReusesGrant(ue: UeState, slot: nat, sf: nat, phy: Phy)
    requires ServeReady(ue) && phy.WellFormed() && ue.harqTransmissionIndex > 0
    ensures Serve(ue, slot, sf, phy).ue.grant == ue.grant
    ensures Serve(ue, slot, sf, phy).ue.transportBits == ue.transportBits
    ensures Serve(ue, slot, sf, phy).ue.transmitHarqBuffer == ue.transmitHarqBuffer
    ensures Serve(ue, slot, sf, phy).ue.interleaverSequence == ue.interleaverSequence
    ensures Serve(ue, slot, sf, phy).ue.nextHarqBufferIndex ==
      (168 * ue.grant.nrofResourceBlocks * ue.grant.modulationOrder) % |ue.transmitHarqBuffer|
    ensures Serve(ue, slot, sf, phy).ue.receiveHarqBuffer ==
      Combined(ue.receiveHarqBuffer, 0,
        phy.propagate(Circular(ue.transmitHarqBuffer, 0, 168 * ue.grant.nrofResourceBlocks * ue.grant.modulationOrder),
                      ue.grant.modulationOrder, ue.grant.nrofResourceBlocks, slot, sf))
  {
  }

  /**
   * A new block (HARQ index 0, TBS above 0) transmits the first TBS bits of
   * the data buffer (zero-padded), encoded with a new interleaver, into a
   * soft buffer that starts from zeros.
   */
  lemma NewBlockStartsFromZeros(ue: UeState, slot: nat, sf: nat, phy: Phy)
    requires ServeReady(ue) && phy.WellFormed() && ue.harqTransmissionIndex == 0
    requires GrantParameters(ue.cqi).transportBlockSize > 0
    ensures Serve(ue, slot, sf, phy).ue.grant ==
      Grant(0, 1, GrantParameters(ue.cqi).modulationOrder, GrantParameters(ue.cqi).transportBlockSize)
    ensures Serve(ue, slot, sf, phy).ue.transportBits ==
      ExtractNextBitsWithZeroPadding(ue.transmitDataBuffer, 0, GrantParameters(ue.cqi).transportBlockSize)
    ensures Serve(ue, slot, sf, phy).ue.transmitHarqBuffer == phy.encode(Serve(ue, slot, sf, phy).ue.transportBits).codedBits
    ensures Serve(ue, slot, sf, phy).ue.interleaverSequence == phy.encode(Serve(ue, slot, sf, phy).ue.transportBits).interleaver
    ensures Serve(ue, slot, sf, phy).ue.nextHarqBufferIndex ==
      (168 * GrantParameters(ue.cqi).modulationOrder) % |Serve(ue, slot, sf, phy).ue.transmitHarqBuffer|
    ensures Serve(ue, slot, sf, phy).ue.receiveHarqBuffer ==
      Combined(RealZeros(|Serve(ue, slot, sf, phy).ue.transmitHarqBuffer|), 0,
        phy.propagate(
          Circular(Serve(ue, slot, sf, phy).ue.transmitHarqBuffer, 0, 168 * GrantParameters(ue.cqi).modulationOrder),
          GrantParameters(ue.cqi).modulationOrder, 1, slot, sf))
  {
  }

  /**
   * The decoding outcome moves the HARQ process: success ends it (index 0)
   * with the grant's TBS as throughput, failure adds one transmission with
   * throughput 0. Either way the throughput is shifted into the history.
   */
  lemma DecodeOutcome(ue: UeState, slot: nat, sf: nat, phy: Phy)
    requires ServeReady(ue) && phy.WellFormed()
    requires ue.harqTransmissionIndex > 0 || GrantParameters(ue.cqi).transportBlockSize > 0
    ensures Serve(ue, slot, sf, phy).ue.grant.Grant?
    ensures phy.decode(Serve(ue, slot, sf, phy).ue.receiveHarqBuffer, Serve(ue, slot, sf, phy).ue.interleaverSequence)
              == Serve(ue, slot, sf, phy).ue.transportBits ==>
      && Serve(ue, slot, sf, phy).ue.harqTransmissionIndex == 0
      && Serve(ue, slot, sf, phy).throughput == Serve(ue, slot, sf, phy).ue.grant.transportBlockSize
    ensures phy.decode(Serve(ue, slot, sf, phy).ue.receiveHarqBuffer, Serve(ue, slot, sf, phy).ue.interleaverSequence)
              != Serve(ue, slot, sf, phy).ue.transportBits ==>
      && Serve(ue, slot, sf, phy).ue.harqTransmissionIndex == ue.harqTransmissionIndex + 1
      && Serve(ue, slot, sf, phy).throughput == 0
    ensures Serve(ue, slot, sf, phy).ue.subframeThroughput ==
      ShiftLeft(ue.subframeThroughput, Serve(ue, slot, sf, phy).throughput)
  {
  }
}
