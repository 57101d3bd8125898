/**
 * The two baseband helpers that are plain arithmetic
 * (src/baseband_processing.py): the resource-element count and the turbo
 * code's internal interleaver. The interleaver is the quadratic permutation
 * polynomial of section 5.1.3.2.3 of 3GPP TS 36.212, with f1 = 3 and f2 = 10
 * fixed for every block length; TS 36.212 pairs those two values with the
 * block length 40 only.
 */
module BasebandProcessing {
  import Modular

  /** Every resource element carries data. */
  function CalculateNrofDataResourceElements(nrofSubcarriers: nat): (r: nat)
    ensures r == nrofSubcarriers
  {
    nrofSubcarriers
  }

  const F1: nat := 3
  const F2: nat := 10

  /** Entry i of the interleaver for a block of blockLength bits: (f1 * i + f2 * i^2) mod blockLength. */
  function QppEntry(blockLength: nat, i: nat): (r: nat)
    requires blockLength > 0
    ensures r < blockLength
  {
    (F1 * i + F2 * i * i) % blockLength
  }

  /** generate_turbo_internal_interleaver_sequence, filling a vector of blockLength entries. */
  method GenerateTurboInternalInterleaverSequence(blockLength: nat) returns (sequence: seq<int>)
    ensures |sequence| == blockLength
    ensures forall i :: 0 <= i < blockLength ==> sequence[i] == QppEntry(blockLength, i)
    ensures forall i :: 0 <= i < blockLength ==> 0 <= sequence[i] < blockLength
  {
    var interleaverSequence := new int[blockLength];
    for i := 0 to blockLength
      invariant forall k :: 0 <= k < i ==> interleaverSequence[k] == QppEntry(blockLength, k)
    {
      interleaverSequence[i] := (F1 * i + F2 * i * i) % blockLength;
    }
    sequence := interleaverSequence[..];
  }

  /** With f1, f2 fixed the sequence need not be a permutation: block length 3 gives [0, 1, 1]. */
  lemma NotAPermutationInGeneral()
    ensures QppEntry(3, 0) == 0 && QppEntry(3, 1) == 1 && QppEntry(3, 2) == 1
  {
  }

  /** Entry v of the inverse of the length-40 interleaver: (27 v + 10 v^2) mod 40. */
  function InverseQppEntryAt40(v: nat): (r: nat)
    ensures r < 40
  {
    (27 * v + 10 * v * v) % 40
  }

  /** A quadratic c1 u + c2 u^2 taken modulo 40 depends only on u modulo 40. */
  lemma QuadraticModulo40(c1: int, c2: int, u: int)
    ensures (c1 * (u % 40) + c2 * (u % 40) * (u % 40)) % 40 == (c1 * u + c2 * u * u) % 40
  {
    var k, r := u / 40, u % 40;
    var a, b := c1 * r + c2 * r * r, c1 * u + c2 * u * u;
    var w := c1 * k + c2 * (2 * k * r + 40 * k * k);
    assert u * u == r * r + 40 * (2 * k * r + 40 * k * k) by {
      assert u == 40 * k + r;
    }
    assert b == a + 40 * w;
    Modular.ModUnique(b, 40, a / 40 + w, a % 40);
  }

  /** The inverse polynomial after the interleaver polynomial, over the integers. */
  lemma InverseAfterQpp(x: int)
    ensures var p := F1 * x + F2 * x * x;
      27 * p + 10 * p * p == x + 40 * (2 * x + 9 * (x * x) + 15 * (x * x * x) + 25 * (x * x * x * x))
  {
    var p := F1 * x + F2 * x * x;
    assert p * p == 9 * (x * x) + 60 * (x * x * x) + 100 * (x * x * x * x);
  }

  /** The interleaver polynomial after the inverse polynomial, over the integers. */
  lemma QppAfterInverse(y: int)
    ensures var g := 27 * y + 10 * y * y;
      F1 * g + F2 * g * g == y + 40 * (2 * y + 183 * (y * y) + 135 * (y * y * y) + 25 * (y * y * y * y))
  {
    var g := 27 * y + 10 * y * y;
    assert g * g == 729 * (y * y) + 540 * (y * y * y) + 100 * (y * y * y * y);
  }

  /** InverseQppEntryAt40 undoes the length-40 interleaver. */
  lemma InverseUndoesQppAt40(i: nat)
    requires i < 40
    ensures InverseQppEntryAt40(QppEntry(40, i)) == i
  {
    var p := F1 * i + F2 * i * i;
    QuadraticModulo40(27, 10, p);
    InverseAfterQpp(i);
    Modular.ModUnique(27 * p + 10 * p * p, 40, 2 * i + 9 * (i * i) + 15 * (i * i * i) + 25 * (i * i * i * i), i);
  }

  /** The length-40 interleaver undoes InverseQppEntryAt40. */
  lemma QppUndoesInverseAt40(v: nat)
    requires v < 40
    ensures QppEntry(40, InverseQppEntryAt40(v)) == v
  {
    var g := 27 * v + 10 * v * v;
    QuadraticModulo40(F1, F2, g);
    QppAfterInverse(v);
    Modular.ModUnique(F1 * g + F2 * g * g, 40, 2 * v + 183 * (v * v) + 135 * (v * v * v) + 25 * (v * v * v * v), v);
  }

  /**
   * At block length 40, the one size TS 36.212 pairs with f1 = 3 and f2 = 10,
   * the interleaver is a permutation, and InverseQppEntryAt40 is its inverse.
   */
  lemma PermutationAtBlockLength40()
    ensures forall i, j :: 0 <= i < j < 40 ==> QppEntry(40, i) != QppEntry(40, j)
    ensures forall v :: 0 <= v < 40 ==> InverseQppEntryAt40(v) < 40 && QppEntry(40, InverseQppEntryAt40(v)) == v
  {
    forall i, j | 0 <= i < j < 40
      ensures QppEntry(40, i) != QppEntry(40, j)
    {
      InverseUndoesQppAt40(i);
      InverseUndoesQppAt40(j);
    }
    forall v | 0 <= v < 40
      ensures QppEntry(40, InverseQppEntryAt40(v)) == v
    {
      QppUndoesInverseAt40(v);
    }
  }
}
