/**
 * The custom system configuration that the link-adaptation code reads
 * (CONSTANTS/CUSTOM_SYSTEM_CONFIG.py). The two tables carry the 3GPP table
 * names of TS 36.213 but hold custom values: TBS candidates 0, 4, ..., 796 for
 * a single resource block, and 22 CQIs whose code rates step by 64/1024.
 */
module SystemConfig {

  const NrofTotalPrbs: nat := 6
  const SubcarriersPerPrb: nat := 12
  const NrofTotalSubcarriers: nat := NrofTotalPrbs * SubcarriersPerPrb

  const NrofOfdmSymbolsPerSubframe: nat := 14
  const NrofDataSymbolsPerSubframe: nat := 14
  const NrofSubcarriersPerPrb: nat := 12

  /** Transport block sizes selectable for each number of resource blocks. */
  const ValidTbs: map<int, seq<nat>> := map[1 := MultiplesOfFour(200)]

  /** [4 * x for x in range(n)] */
  function MultiplesOfFour(n: nat): (r: seq<nat>)
    ensures |r| == n && forall x :: 0 <= x < n ==> r[x] == 4 * x
  {
    if n == 0 then [] else MultiplesOfFour(n - 1) + [4 * (n - 1)]
  }

  /** Code rates in the CQI table are scaled by this factor. */
  const CqiRateMultiplier: nat := 1024

  /** One row of the CQI table: modulation order (bits per symbol) and code rate x 1024. */
  datatype ModRate = ModRate(modulationOrder: nat, rate: nat)

  /** CQI index -> (modulation order, code rate x 1024); the dict keys are 0..22. */
  const CqiIndexModOrderRate: seq<ModRate> := [
    ModRate(0, 0),
    ModRate(2, 64), ModRate(2, 128), ModRate(2, 192), ModRate(2, 256),
    ModRate(2, 320), ModRate(2, 384), ModRate(2, 448), ModRate(2, 512),
    ModRate(4, 224), ModRate(4, 288), ModRate(4, 352), ModRate(4, 416),
    ModRate(4, 480), ModRate(4, 544), ModRate(4, 608),
    ModRate(6, 416), ModRate(6, 480), ModRate(6, 544), ModRate(6, 608),
    ModRate(6, 672), ModRate(6, 736), ModRate(6, 800)
  ]

  /** Modulation order used by each CQI band of the table. */
  function BandModulationOrder(cqi: nat): nat
  {
    if cqi == 0 then 0 else if cqi <= 8 then 2 else if cqi <= 15 then 4 else 6
  }

  lemma ValidTbsShape()
    ensures ValidTbs.Keys == {1}
    ensures |ValidTbs[1]| == 200 && ValidTbs[1][0] == 0
    ensures forall i :: 0 <= i < 200 ==> ValidTbs[1][i] == 4 * i && ValidTbs[1][i] % 4 == 0
    ensures forall i, j :: 0 <= i < j < 200 ==> ValidTbs[1][i] < ValidTbs[1][j]
  {
  }

  lemma {:induction false} CqiTableShape()
    ensures |CqiIndexModOrderRate| == 23
    ensures CqiIndexModOrderRate[0] == ModRate(0, 0)
    ensures forall c :: 0 <= c < 23 ==> CqiIndexModOrderRate[c].modulationOrder == BandModulationOrder(c)
    ensures forall c :: 1 <= c < 22 && BandModulationOrder(c) == BandModulationOrder(c + 1) ==>
      CqiIndexModOrderRate[c + 1].rate == CqiIndexModOrderRate[c].rate + 64
  {
    forall c | 0 <= c < 23
      ensures CqiIndexModOrderRate[c].modulationOrder == BandModulationOrder(c)
    {
      EveryRow(c);
    }
    forall c | 1 <= c < 22 && BandModulationOrder(c) == BandModulationOrder(c + 1)
      ensures CqiIndexModOrderRate[c + 1].rate == CqiIndexModOrderRate[c].rate + 64
    {
      EveryRow(c);
      EveryRow(c + 1);
    }
  }

  /** The table row of a given CQI, written out case by case. */
  lemma EveryRow(c: nat)
    requires c < 23
    ensures CqiIndexModOrderRate[c].modulationOrder == BandModulationOrder(c)
    ensures 1 <= c <= 8 ==> CqiIndexModOrderRate[c].rate == 64 * c
    ensures 9 <= c <= 15 ==> CqiIndexModOrderRate[c].rate == 224 + 64 * (c - 9)
    ensures 16 <= c <= 22 ==> CqiIndexModOrderRate[c].rate == 416 + 64 * (c - 16)
  {
    var t := CqiIndexModOrderRate;
    if c == 0 { assert t[0] == ModRate(0, 0); }
    else if c == 1 { assert t[1] == ModRate(2, 64); }
    else if c == 2 { assert t[2] == ModRate(2, 128); }
    else if c == 3 { assert t[3] == ModRate(2, 192); }
    else if c == 4 { assert t[4] == ModRate(2, 256); }
    else if c == 5 { assert t[5] == ModRate(2, 320); }
    else if c == 6 { assert t[6] == ModRate(2, 384); }
    else if c == 7 { assert t[7] == ModRate(2, 448); }
    else if c == 8 { assert t[8] == ModRate(2, 512); }
    else if c == 9 { assert t[9] == ModRate(4, 224); }
    else if c == 10 { assert t[10] == ModRate(4, 288); }
    else if c == 11 { assert t[11] == ModRate(4, 352); }
    else if c == 12 { assert t[12] == ModRate(4, 416); }
    else if c == 13 { assert t[13] == ModRate(4, 480); }
    else if c == 14 { assert t[14] == ModRate(4, 544); }
    else if c == 15 { assert t[15] == ModRate(4, 608); }
    else if c == 16 { assert t[16] == ModRate(6, 416); }
    else if c == 17 { assert t[17] == ModRate(6, 480); }
    else if c == 18 { assert t[18] == ModRate(6, 544); }
    else if c == 19 { assert t[19] == ModRate(6, 608); }
    else if c == 20 { assert t[20] == ModRate(6, 672); }
    else if c == 21 { assert t[21] == ModRate(6, 736); }
    else { assert t[22] == ModRate(6, 800); }
  }

  /** Both bit-count formulas see 12 subcarriers x 14 symbols = 168 resource elements per RB. */
  lemma ResourceElementsPerPrb()
    ensures SubcarriersPerPrb == NrofSubcarriersPerPrb == 12
    ensures NrofOfdmSymbolsPerSubframe == NrofDataSymbolsPerSubframe == 14
    ensures SubcarriersPerPrb * NrofOfdmSymbolsPerSubframe == 168
    ensures NrofTotalSubcarriers == 72 && CqiRateMultiplier == 1024
  {
  }
}
