# gym_radio_scheduler: scheduler, HARQ and link adaptation in Dafny

This project models the control logic of the gym_radio_scheduler downlink
simulator and proves properties of it. The simulator schedules one UE per
1 ms subframe over a single resource block, with chase-combining HARQ.

The model covers:

- **The scheduler / HARQ state machine** (`scheduler.dfy`, module `Scheduler`).
  - `RadioMultilinkScheduler` is a class with the subframe index and the per-UE state as fields.
  - Each call of `Transmit` refreshes the CQI reports at the reporting interval.
  - It resets every UE whose HARQ process has used its 4 transmissions.
  - It picks a UE: a forced index, Random, RoundRobin, MaxRate or PropFair.
  - On a fresh process it grants one RB from the UE's CQI. When that TBS is 0 it returns early.
  - It sends the grant's bit count from the circular coded buffer and soft-combines the received values.
  - On a decode success the HARQ index returns to 0; on a failure it goes up by one.
  - Finally it shifts the throughput into the UE's history and advances the subframe index.
  - `Transmit` is proved equal to a pure `Step` function, and the properties are lemmas about `Step`, `Serve` and `SelectUe`.
- **Buffer manipulation** (`buffers.dfy`): zero-padded extraction, circular extraction, and additive wraparound combining.
- **Link adaptation** (`channel_quality.dfy`):
  - the bit-count formula;
  - the CQI to (modulation order, TBS) lookup, including nearest-rate selection with first-minimum tie-break and offset clamping;
  - the SNR-at-BLER-target curve;
  - the downward wideband-CQI scan.
- **The custom system configuration** (`system_config.dfy`): the TBS table, the CQI table and the RB/symbol constants.
- **Baseband helpers** (`baseband.dfy`): the QPP turbo interleaver formula with f1 = 3, f2 = 10, and the resource-element count.
- **Plot statistics** (`plot_utils.dfy`): window and moving averages, and Jain's fairness index.

Where the source works with a loop, the model has a method with that loop: `CalculateWindowAverage`, `CalculateMovingAverage`, `SelectScheduledUe`, `ServeScheduledUe`, `TransmitAndDecode` and others. Each is proved equal to a pure function (`WindowAverage`, `MovingAverage`, `SelectUe`, `Serve`, `Attempt`), and the lemmas state their properties about those functions.

Shared helpers live in `seq_math.dfy`: sums, first argmax/argmin, Cauchy-Schwarz. `modular.dfy` holds modular arithmetic and `wrappers.dfy` the `Result` type.

Reals are exact: the model has no floating-point rounding. Python exceptions become `Err` values. The physical layer reaches the scheduler only through a `Phy` value, which has four parts:

- the EESM effective SNR of a UE in a subframe;
- the encoder;
- the channel (bits in, soft values out);
- the decoder.

`Phy.WellFormed` assumes that the encoder never returns an empty block. The convolutional code always appends tail bits.

## Model

| member | source | states |
|---|---|---|
| SystemConfig.ValidTbsShape | gym_radio_scheduler/envs/src/CONSTANTS/CUSTOM_SYSTEM_CONFIG.py:27 | VALID_TBS has the single key 1, holding 200 entries 4*i: it starts at 0, is strictly increasing, and every entry is a multiple of 4 |
| SystemConfig.CqiTableShape | gym_radio_scheduler/envs/src/CONSTANTS/CUSTOM_SYSTEM_CONFIG.py:31-53 | the CQI table has 23 rows and CQI 0 is (0, 0); modulation order is 2 for CQI 1-8, 4 for 9-15 and 6 for 16-22; within a band the rate rises by 64 per step |
| SystemConfig.EveryRow | gym_radio_scheduler/envs/src/CONSTANTS/CUSTOM_SYSTEM_CONFIG.py:31-53 | each row's modulation order and code rate in closed form |
| SystemConfig.ResourceElementsPerPrb | gym_radio_scheduler/envs/src/CONSTANTS/CUSTOM_SYSTEM_CONFIG.py:11-13 | 12 subcarriers x 14 symbols = 168 resource elements per RB in both formulas; 72 subcarriers in total; rate multiplier 1024 |
| SystemConfig.MultiplesOfFour | gym_radio_scheduler/envs/src/CONSTANTS/CUSTOM_SYSTEM_CONFIG.py:27 | the list [4*x for x in range(n)]: n entries, entry x is 4x |
| BufferManipulation.ExtractNextBitsWithZeroPadding | gym_radio_scheduler/envs/src/buffer_manipulation.py:6-17 | exactly nrofBits bits: the buffer from index onwards, then zeros past the buffer end |
| BufferManipulation.ZeroPaddingWithinBuffer | gym_radio_scheduler/envs/src/buffer_manipulation.py:10-11 | when index + n fits, the result is buffer[index..index+n] |
| BufferManipulation.ZeroPaddingPastEnd | gym_radio_scheduler/envs/src/buffer_manipulation.py:12-15 | otherwise it is the tail of the buffer followed by zeros; it never wraps |
| BufferManipulation.ExtractNextBitsWithWraparound | gym_radio_scheduler/envs/src/buffer_manipulation.py:22-40 | for any n (also above 2x the buffer length), n bits with out[i] = buffer[(index + i) mod length]; the loop terminates on a non-empty buffer |
| BufferManipulation.CircularWithoutWrap | gym_radio_scheduler/envs/src/buffer_manipulation.py:26-27 | without wrap the circular read is the plain slice |
| BufferManipulation.CircularFullPasses | gym_radio_scheduler/envs/src/buffer_manipulation.py:33-38 | reading k full lengths from 0 gives the buffer repeated k times |
| BufferManipulation.CircularPeriodic | gym_radio_scheduler/envs/src/buffer_manipulation.py:33-38 | the extracted bits repeat with the buffer length as period |
| BufferManipulation.AddValuesWithWraparound | gym_radio_scheduler/envs/src/buffer_manipulation.py:42-65 | the corrected combining: same length as the buffer, and position j gains the sum of every value whose circular position from index is j |
| BufferManipulation.AddValuesWithWraparoundAsWritten | gym_radio_scheduler/envs/src/buffer_manipulation.py:45-65 | the code as written, including the line-53 read of values from offset index, equals CombinedAsWritten |
| BufferManipulation.AddLaps | gym_radio_scheduler/envs/src/buffer_manipulation.py:55-63 | the wraparound loop: values from start onwards are added around the buffer from position 0, so position j gains every value whose offset from start is j modulo the length |
| BufferManipulation.AsWrittenAgreesAtIndexZero | gym_radio_scheduler/envs/src/buffer_manipulation.py:53-65 | at index 0, the only index the scheduler passes, the code as written and the corrected combining agree |
| BufferManipulation.AsWrittenAgreesWithoutWrap | gym_radio_scheduler/envs/src/buffer_manipulation.py:50-51 | without wrap, the two agree |
| BufferManipulation.AsWrittenDropsLeadingValues | gym_radio_scheduler/envs/src/buffer_manipulation.py:53 | buffer [0, 0], index 1, values [1, 2]: the code yields [2, 2] while the documented behaviour is [2, 1] |
| BufferManipulation.CombinedWithoutWrap | gym_radio_scheduler/envs/src/buffer_manipulation.py:50-51 | without wrap, positions index..index+n-1 gain values[j-index] and all others are unchanged |
| BufferManipulation.CombinedOnePass | gym_radio_scheduler/envs/src/buffer_manipulation.py:65 | values exactly as long as the buffer, from 0, add position-wise |
| BufferManipulation.CombinedTwiceAdds | gym_radio_scheduler/envs/src/buffer_manipulation.py:45-65 | combining twice at the same index adds both contributions, in either order; the soft buffer accumulates across retransmissions |
| BufferManipulation.CombinedConcatenation | gym_radio_scheduler/envs/src/buffer_manipulation.py:45-65 | combining one run and then the next run at the position where the first stopped equals combining their concatenation at once |
| ChannelQualityIndex.NrofTransmitBits | gym_radio_scheduler/envs/src/channel_quality_index.py:29-33 | the bit count is 12 * rb * 14 * modulation order = 168 * rb * modulation order |
| ChannelQualityIndex.GetTransmissionParametersFromCqi | gym_radio_scheduler/envs/src/channel_quality_index.py:38-71 | Ok exactly for CQI 0 or a table CQI with a VALID_TBS key, else KeyError; CQI 0 gives (0, 0); otherwise the table's modulation order and the TBS at the clamped (nearest index + offset); the TBS is always in VALID_TBS[rb]; adaptive_tbs is ignored |
| ChannelQualityIndex.NearestTbsIndex | gym_radio_scheduler/envs/src/channel_quality_index.py:51-58 | the lowest TBS index whose rate difference is minimal |
| ChannelQualityIndex.ClampIndex | gym_radio_scheduler/envs/src/channel_quality_index.py:60-64 | the offset index is clamped into [0, length-1] |
| ChannelQualityIndex.OffsetIsMonotone | gym_radio_scheduler/envs/src/channel_quality_index.py:60-66 | a larger offset never selects a smaller TBS |
| ChannelQualityIndex.OffsetSaturates | gym_radio_scheduler/envs/src/channel_quality_index.py:60-66 | offsets of -200 or less give TBS 0, and of 200 or more give 796 |
| ChannelQualityIndex.RateComparisonInIntegers | gym_radio_scheduler/envs/src/channel_quality_index.py:51-58 | comparing real rate differences is the same as comparing the integers \|1024*tbs - rate*mod*168*rb\| |
| ChannelQualityIndex.RateDifferenceInIntegers | gym_radio_scheduler/envs/src/channel_quality_index.py:51-55 | one rate difference is the integer error over the shared positive denominator |
| ChannelQualityIndex.SharedDenominator | gym_radio_scheduler/envs/src/channel_quality_index.py:51-52 | the denominator mod * 168 * rb is positive |
| ChannelQualityIndex.ColumnThreshold | gym_radio_scheduler/envs/src/channel_quality_index.py:14-25 | the threshold of one CQI column always lies between the smallest and the largest SNR of the range |
| ChannelQualityIndex.ColumnThresholdCases | gym_radio_scheduler/envs/src/channel_quality_index.py:18-25 | no BLER above the target gives the minimum SNR; BLERs above but none below give the maximum SNR; otherwise the midpoint of the SNRs at the last index above and the first index below the target |
| ChannelQualityIndex.LastIndexAbove | gym_radio_scheduler/envs/src/channel_quality_index.py:23 | the largest index with BLER above the target, or -1 |
| ChannelQualityIndex.FirstIndexBelow | gym_radio_scheduler/envs/src/channel_quality_index.py:24 | the smallest index with BLER below the target, or the length |
| ChannelQualityIndex.DetermineSnrAtBlerTarget | gym_radio_scheduler/envs/src/channel_quality_index.py:5-27 | one threshold per CQI column; entry 0 is -100 and every other entry is that column's threshold |
| ChannelQualityIndex.HighestQualifyingCqi | gym_radio_scheduler/envs/src/channel_quality_index.py:92-99 | the largest CQI whose threshold lies below its effective SNR, or 0 when none does |
| ChannelQualityIndex.CalculateWidebandChannelQualityIndex | gym_radio_scheduler/envs/src/channel_quality_index.py:75-99 | the downward scan returns HighestQualifyingCqi, a value in [0, nrof_cqi) |
| ChannelQualityIndex.WidebandCqiIsMonotone | gym_radio_scheduler/envs/src/channel_quality_index.py:80-99 | with every beta equal to 1 all EESM values are one SNR, and a higher SNR never reports a lower CQI |
| BasebandProcessing.CalculateNrofDataResourceElements | gym_radio_scheduler/envs/src/baseband_processing.py:5-7 | returns its argument |
| BasebandProcessing.GenerateTurboInternalInterleaverSequence | gym_radio_scheduler/envs/src/baseband_processing.py:11-19 | block_length entries; entry i is (3i + 10i^2) mod block_length and lies in [0, block_length); block length 0 gives an empty sequence |
| BasebandProcessing.NotAPermutationInGeneral | gym_radio_scheduler/envs/src/baseband_processing.py:17 | block length 3 gives [0, 1, 1], so the sequence need not be a permutation |
| BasebandProcessing.PermutationAtBlockLength40 | gym_radio_scheduler/envs/src/baseband_processing.py:11-19 | at block length 40 (the one 3GPP size whose f1, f2 are 3, 10) no two entries coincide and every value in [0, 40) is reached, at the position InverseQppEntryAt40 gives |
| BasebandProcessing.InverseUndoesQppAt40 | gym_radio_scheduler/envs/src/baseband_processing.py:17 | at block length 40, (27v + 10v^2) mod 40 maps entry i back to i |
| BasebandProcessing.QppUndoesInverseAt40 | gym_radio_scheduler/envs/src/baseband_processing.py:17 | at block length 40, entry (27v + 10v^2) mod 40 of the interleaver is v |
| PlotUtils.WindowAverage | gym_radio_scheduler/envs/src/plot_utils.py:8-16 | floor(n / w) entries, the trailing n mod w values ignored |
| PlotUtils.CalculateWindowAverage | gym_radio_scheduler/envs/src/plot_utils.py:8-16 | entry k is the mean of values[k*w..(k+1)*w] |
| PlotUtils.MovingAverage | gym_radio_scheduler/envs/src/plot_utils.py:18-25 | n - w entries, so the window ending at the last value is omitted |
| PlotUtils.CalculateMovingAverage | gym_radio_scheduler/envs/src/plot_utils.py:18-25 | entry i is the mean of values[i..i+w] |
| PlotUtils.WindowAverageSamplesMovingAverage | gym_radio_scheduler/envs/src/plot_utils.py:8-25 | window average k equals moving average k*w |
| PlotUtils.WindowAverageStaysInRange | gym_radio_scheduler/envs/src/plot_utils.py:12-14 | a window average stays within the bounds of the trace |
| PlotUtils.MovingAverageStaysInRange | gym_radio_scheduler/envs/src/plot_utils.py:22-23 | a moving average stays within the bounds of the trace |
| PlotUtils.NonzeroIndicesAreExact | gym_radio_scheduler/envs/src/plot_utils.py:34-35 | the positions kept are exactly those with a non-zero sum of squares, each once, in increasing order |
| PlotUtils.CalculateJainFairnessIndex | gym_radio_scheduler/envs/src/plot_utils.py:27-38 | one entry (sum x)^2 / (n sum x^2) per position with a non-zero sum of squares |
| PlotUtils.JainFairnessIndexFollowsNonzeroPositions | gym_radio_scheduler/envs/src/plot_utils.py:30-36 | the index has one entry per position with a non-zero sum of squares, and entry k is the quotient of the k-th such position; all-zero positions are skipped |
| PlotUtils.JainEntryInUnitInterval | gym_radio_scheduler/envs/src/plot_utils.py:36 | each entry lies in [0, 1] by Cauchy-Schwarz |
| PlotUtils.JainFairnessIndexInUnitInterval | gym_radio_scheduler/envs/src/plot_utils.py:36-137 | every entry fits the [0, 1] axis of the fairness plot |
| PlotUtils.JainEntryOfEqualShares | gym_radio_scheduler/envs/src/plot_utils.py:36 | equal non-zero shares give index exactly 1 |
| SeqMath.SquareOfSumBound | gym_radio_scheduler/envs/src/plot_utils.py:30-31 | (sum x)^2 <= n * sum x^2 |
| SeqMath.FirstArgMax | gym_radio_scheduler/envs/radio_multilink_scheduler.py:98 | list.index(max(list)): a maximum, and the first one |
| SeqMath.FirstArgMin | gym_radio_scheduler/envs/src/channel_quality_index.py:57 | list.index(min(list)): a minimum, and the first one |
| Scheduler.RadioMultilinkScheduler.constructor | gym_radio_scheduler/envs/radio_multilink_scheduler.py:12-66 | the settings are stored; the thresholds come from the BLER table; subframe 0; every UE starts with HARQ index 0, no grant, cursors at 0 and a zero history of the window length |
| Scheduler.InitialStateIsValid | gym_radio_scheduler/envs/radio_multilink_scheduler.py:44-66 | the initial state satisfies the invariant, with no HARQ process running and a zero mean history |
| Scheduler.RadioMultilinkScheduler.Housekeep | gym_radio_scheduler/envs/radio_multilink_scheduler.py:76-88 | the loop over all UEs yields Housekeeping and keeps the invariant |
| Scheduler.HousekeepingEffect | gym_radio_scheduler/envs/radio_multilink_scheduler.py:76-88 | every UE, scheduled or not, gets a new CQI exactly at reporting subframes, and a HARQ index of 4 becomes 0 with any other kept, so all indices are below 4; nothing else changes |
| Scheduler.HousekeepingKeepsValid | gym_radio_scheduler/envs/radio_multilink_scheduler.py:76-88 | housekeeping preserves the invariant |
| Scheduler.SelectScheduledUe | gym_radio_scheduler/envs/radio_multilink_scheduler.py:91-120 | the selection branch computes SelectUe |
| Scheduler.ProportionalRates | gym_radio_scheduler/envs/radio_multilink_scheduler.py:104-116 | entry k is UE k's metric TBS(cqi, 1) * 1000 / mean(history), or 1e12 for a zero mean |
| Scheduler.SelectionIsInRange | gym_radio_scheduler/envs/radio_multilink_scheduler.py:91-123 | a selected UE is always one of the UEs |
| Scheduler.ForcedIndexBypassesPolicy | gym_radio_scheduler/envs/radio_multilink_scheduler.py:91-123 | a forced index other than -1 ignores the policy, is accepted exactly when it is a valid Python list index (else IndexError), names UE forced mod n, and is returned as given |
| Scheduler.UnsupportedPolicyRaises | gym_radio_scheduler/envs/radio_multilink_scheduler.py:119-120 | an unknown policy with no forced UE raises NameError |
| Scheduler.PropFairWarmUpIsRoundRobin | gym_radio_scheduler/envs/radio_multilink_scheduler.py:94-102 | RoundRobin picks subframe mod n, and PropFair picks the same UE while the subframe is below the window |
| Scheduler.MaxRatePicksFirstHighestCqi | gym_radio_scheduler/envs/radio_multilink_scheduler.py:96-98 | MaxRate picks a UE with the largest CQI, the lowest index among ties |
| Scheduler.PropFairPicksFirstHighestMetric | gym_radio_scheduler/envs/radio_multilink_scheduler.py:104-118 | after the window PropFair picks the lowest index with the largest metric |
| Scheduler.ShiftLeftEffect | gym_radio_scheduler/envs/radio_multilink_scheduler.py:180 | the history keeps its length, drops its oldest entry, and ends with the new throughput |
| Scheduler.NewBlock | gym_radio_scheduler/envs/radio_multilink_scheduler.py:150-157 | a new process holds the TBS bits read from the data buffer at the data cursor, zero-padded; the coded block and the interleaver are the encoder's output for those bits; the coded block is non-empty and the soft buffer is zeros of its length; nothing else changes |
| Scheduler.ServeScheduledUe | gym_radio_scheduler/envs/radio_multilink_scheduler.py:128-180 | serving the scheduled UE computes Serve |
| Scheduler.TransmitAndDecode | gym_radio_scheduler/envs/radio_multilink_scheduler.py:159-180 | one transmission computes Attempt |
| Scheduler.FreshGrantOutOfRange | gym_radio_scheduler/envs/radio_multilink_scheduler.py:129-147 | a fresh grant with TBS 0 returns early: throughput 0 is shifted in and the grant is recorded; HARQ index and buffers are unchanged; CQI 0 records the grant (0, 1, 0, 0) |
| Scheduler.NewBlockStartsFromZeros | gym_radio_scheduler/envs/radio_multilink_scheduler.py:129-168 | a fresh grant is 1 RB from 0 with the CQI's modulation and TBS; the block is the first TBS data bits; the coded block and the interleaver that decoding uses are the encoder's output for them; the next HARQ cursor is 168*mod modulo the coded length; the soft buffer is zeros plus the received values of the first 168*mod coded bits |
| Scheduler.RetransmissionReusesGrant | gym_radio_scheduler/envs/radio_multilink_scheduler.py:129-168 | a retransmission keeps the stored grant whatever the CQI now is; it resends the first 168*rb*mod coded bits circularly and adds the received values into the soft buffer; block, coded bits and interleaver are kept; the next HARQ cursor is 168*rb*mod modulo the coded length |
| Scheduler.DecodeOutcome | gym_radio_scheduler/envs/radio_multilink_scheduler.py:170-180 | success sets the HARQ index to 0 with the grant's TBS as throughput; failure adds 1 with throughput 0; either way the throughput is shifted into the history |
| Scheduler.ServeKeepsValid | gym_radio_scheduler/envs/radio_multilink_scheduler.py:128-180 | serving keeps the invariant: the HARQ index stays at most 4, and a running process holds a one-RB grant with a non-empty coded block |
| Scheduler.StepKeepsValid | gym_radio_scheduler/envs/radio_multilink_scheduler.py:69-185 | a whole call preserves the invariant |
| Scheduler.StepEffect | gym_radio_scheduler/envs/radio_multilink_scheduler.py:69-185 | a call raises exactly on an out-of-range forced index or an unknown policy; the housekept state then stays and the subframe does not advance; otherwise the subframe advances by 1, the CQI returned is the scheduled UE's, and the other UEs' entries are the housekept ones and their histories are unchanged |
| Scheduler.RadioMultilinkScheduler.Transmit | gym_radio_scheduler/envs/radio_multilink_scheduler.py:69-185 | the call's result, new state and subframe index are those of Step, and the invariant holds again |

## Left out

- The physical layer is not part of this model: the fading channel, OFDM and FFT, noise, QAM soft demodulation, the convolutional code, the random interleaver and the EESM exp/log/dB arithmetic. The scheduler sees these only through the `Phy` functions, so no claim is made about decoding success rates.
- `Phy.encode` is a function of the bits alone. `channel_encode_and_interleave_bits` (gym_radio_scheduler/envs/src/baseband_processing.py:48-49) draws a fresh random interleaver on every call, so two encodings of the same bits may differ in Python. The model gives them the same coded block and interleaver. Since the data cursor stays at 0, new blocks of a UE with the same transport block size encode the same bits, so the model repeats their `interleaverSequence` where Python would draw a new one.
- Constructor side effects are parameters: the AWGN file load becomes the BLER table arguments, and the 1e6 random bits per UE become `transmitDataBuffers`. `RNG_reset`, the random per-UE SNRs and the channel set-up are left out. The noise variance only feeds the channel and the EESM, so it lives inside `Phy`.
- `pyp.randi(0, nrof_ues - 1)` in the Random policy is the `randomDraw` argument of `Transmit`, taken from [0, nrofUes).
- The `print` calls at lines 120, 126 and 141 are left out. The NameError that line 120 raises is modelled.
- `save_simulation_data` (lines 188-190) is not modelled. It cannot run: it takes no `self` and reads undefined names.
- The `previous_scheduled_subframe` and `next_data_buffer_index` lists are not modelled: nothing reads or writes them after set-up. `next_harq_buffer_index` is written (line 163) and never read; the model keeps it. The scalar `scheduled_ue` entry (line 60) is set to 0 and never read, so it is not modelled either.
- `current_data_buffer_index` and `current_harq_buffer_index` are never advanced in the source. The model keeps them at 0 as an invariant and does not "fix" them, so every new block reads from the start of the data buffer.
- The initial contents of `ivec(prop_fair_window_size)` and of the resized soft buffer are not filled by the code. The model takes them as zeros.
- Per-UE state is a sequence of records, one per UE. The source uses a dict of per-UE lists; the values are the same.
- Scheduler.RadioMultilinkScheduler.constructor: requires at most 23 CQI columns (the CQI table's size). A larger table would raise KeyError in the grant lookup, and that error path is not modelled.
- Scheduler.RadioMultilinkScheduler.constructor: requires at least one UE. With none, the first `transmit` fails in Python: `% nrof_ues` raises ZeroDivisionError, `max([])` raises ValueError, and the grant lookup at line 123 raises IndexError.
- Scheduler.RadioMultilinkScheduler.constructor: requires a CQI reporting interval above 0. With 0, line 80 raises ZeroDivisionError on the first `transmit`.
- Scheduler.RadioMultilinkScheduler.constructor: requires a proportional-fair window above 0. Python accepts a window of 0: `shift_left` on the empty throughput vector changes nothing, so the Random, RoundRobin and MaxRate policies run unchanged, and PropFair averages an empty window. The model leaves that configuration out.
- Scheduler.RadioMultilinkScheduler.Transmit: requires the scheduler's invariant and a well-formed `Phy`. It does not model what Python does with an empty coded block: the wraparound loop never ends, and line 163 divides by zero.
- BufferManipulation.AddValuesWithWraparoundAsWritten: requires index + n < length or n >= length. Otherwise line 53 reads past the end of `values` (itpp checks this only in debug builds).
- PlotUtils.CalculateWindowAverage: requires a window size above 0. Window size 0 divides by zero in Python.
- PlotUtils.CalculateMovingAverage: requires a window no longer than the trace, and above 0 unless it equals the trace length. A longer window makes `np.ndarray` raise ValueError at line 20, because the dimension is negative. A window of 0 on a non-empty trace makes line 23 raise ZeroDivisionError. Neither error path is modelled.
- PlotUtils.MovingAverage: the same requirements as `CalculateMovingAverage`, for the same two Python errors.
- The 3GPP parameter table of the QPP interleaver is not used by the source and is not modelled. Only block length 40 is checked to be a permutation.
- Floating point: every real in the model is exact. Where the source compares floats for equality (a mean of 0, a sum of squares of 0) the model compares exact values.

## Findings

| source | as written | input that shows it | evidently intended | confidence | as-written member | corrected member |
|---|---|---|---|---|---|---|
| gym_radio_scheduler/envs/src/buffer_manipulation.py:53 | on wrap, the first chunk copied to position index is `values.mid(index, ...)`, read from offset index of the values | buffer [0, 0], index 1, values [1, 2] gives [2, 2] | values.mid(0, ...), as the doc comment at lines 42-43 says: [2, 1] | not executed; the scheduler only passes index 0, where both agree | BufferManipulation.AsWrittenDropsLeadingValues | BufferManipulation.AddValuesWithWraparound |
