/**
 * Bit and soft-value buffer operations of the HARQ engine
 * (src/buffer_manipulation.py): reading a transport block with zero padding,
 * reading coded bits from a circular buffer, and adding received soft values
 * into a circular buffer (chase combining).
 */
module BufferManipulation {

  import Modular

  /** One element of a binary vector (pyp.bvec). */
  type Bit = b: int | 0 <= b <= 1

  function Zeros(n: nat): (r: seq<Bit>)
    ensures |r| == n && forall i :: 0 <= i < n ==> r[i] == 0
  {
    seq(n, _ => 0)
  }

  function RealZeros(n: nat): (r: seq<real>)
    ensures |r| == n && forall i :: 0 <= i < n ==> r[i] == 0.0
  {
    seq(n, _ => 0.0)
  }

  // ---------------------------------------------------------------------------
  // Zero-padded extraction

  /**
   * Reads nrofBits bits from `buffer` starting at `index`; positions past the
   * end of the buffer read as 0 (the read never wraps).
   */
  function ExtractNextBitsWithZeroPadding(buffer: seq<Bit>, index: nat, nrofBits: nat): (r: seq<Bit>)
    requires index <= |buffer|
    ensures |r| == nrofBits
    ensures forall i :: 0 <= i < nrofBits ==>
      r[i] == if index + i < |buffer| then buffer[index + i] else 0
  {
    if index + nrofBits <= |buffer| then
      buffer[index..index + nrofBits]
    else
      var extracted := buffer[index..];
      extracted + Zeros(nrofBits - |extracted|)
  }

  lemma ZeroPaddingWithinBuffer(buffer: seq<Bit>, index: nat, nrofBits: nat)
    requires index + nrofBits <= |buffer|
    ensures ExtractNextBitsWithZeroPadding(buffer, index, nrofBits) == buffer[index..index + nrofBits]
  {
    var r := ExtractNextBitsWithZeroPadding(buffer, index, nrofBits);
    assert forall i :: 0 <= i < nrofBits ==> r[i] == buffer[index..index + nrofBits][i];
  }

  lemma ZeroPaddingPastEnd(buffer: seq<Bit>, index: nat, nrofBits: nat)
    requires index <= |buffer| < index + nrofBits
    ensures ExtractNextBitsWithZeroPadding(buffer, index, nrofBits) ==
      buffer[index..] + Zeros(index + nrofBits - |buffer|)
  {
    var r := ExtractNextBitsWithZeroPadding(buffer, index, nrofBits);
    var e := buffer[index..] + Zeros(index + nrofBits - |buffer|);
    assert forall i :: 0 <= i < nrofBits ==> r[i] == e[i];
  }

  // ---------------------------------------------------------------------------
  // Circular extraction

  /** The buffer read circularly from `index`: entry i is buffer[(index + i) mod |buffer|]. */
  function Circular(buffer: seq<Bit>, index: nat, n: nat): (r: seq<Bit>)
    requires |buffer| > 0 || n == 0
    ensures |r| == n
  {
    seq(n, i requires 0 <= i < n => buffer[(index + i) % |buffer|])
  }

  /** `k` complete copies of the buffer, one after the other. */
  function Repeat(buffer: seq<Bit>, k: nat): (r: seq<Bit>)
    ensures |r| == k * |buffer|
  {
    if k == 0 then [] else Repeat(buffer, k - 1) + buffer
  }

  /**
   * Reads nrofBits bits from a circular buffer starting at `index`, making as
   * many passes over the buffer as needed.
   */
  method ExtractNextBitsWithWraparound(buffer: seq<Bit>, index: nat, nrofBits: nat) returns (extracted: seq<Bit>)
    requires index <= |buffer|
    requires |buffer| > 0 || nrofBits == 0
    ensures |extracted| == nrofBits
    ensures forall i :: 0 <= i < nrofBits ==> extracted[i] == buffer[(index + i) % |buffer|]
    ensures extracted == Circular(buffer, index, nrofBits)
  {
    var bufferSize := |buffer|;
    if index + nrofBits < bufferSize {
      extracted := buffer[index..index + nrofBits];
      forall i | 0 <= i < nrofBits
        ensures extracted[i] == buffer[(index + i) % bufferSize]
      {
        Modular.ModUnique(index + i, bufferSize, 0, index + i);
      }
    } else {
      // the remaining bits of the buffer
      extracted := buffer[index..];
      forall i | 0 <= i < |extracted|
        ensures extracted[i] == buffer[(index + i) % bufferSize]
      {
        Modular.ModUnique(index + i, bufferSize, 0, index + i);
      }
      // then wrap around the buffer, one pass at a time
      ghost var laps: nat := 1;
      while |extracted| < nrofBits
        invariant bufferSize - index <= |extracted| <= nrofBits
        invariant |extracted| < nrofBits ==> index + |extracted| == laps * bufferSize
        invariant forall i :: 0 <= i < |extracted| ==> extracted[i] == buffer[(index + i) % bufferSize]
        decreases nrofBits - |extracted|
      {
        var start := |extracted|;
        var nrofRemainingBits := nrofBits - start;
        ghost var before := extracted;
        var pass := if nrofRemainingBits > bufferSize then buffer else buffer[..nrofRemainingBits];
        extracted := extracted + pass;
        forall i | 0 <= i < |extracted|
          ensures extracted[i] == buffer[(index + i) % bufferSize]
        {
          if i < start {
            assert extracted[i] == before[i];
          } else {
            assert extracted[i] == pass[i - start];
            Modular.ModUnique(index + i, bufferSize, laps, i - start);
          }
        }
        laps := laps + 1;
        assert laps * bufferSize == (laps - 1) * bufferSize + bufferSize;
      }
    }
  }

  lemma CircularWithoutWrap(buffer: seq<Bit>, index: nat, n: nat)
    requires index + n <= |buffer|
    ensures Circular(buffer, index, n) == buffer[index..index + n]
  {
    forall i | 0 <= i < n
      ensures Circular(buffer, index, n)[i] == buffer[index..index + n][i]
    {
      Modular.ModUnique(index + i, |buffer|, 0, index + i);
    }
  }

  /** Reading k * |buffer| bits from position 0 yields k full passes over the buffer. */
  lemma {:induction false} CircularFullPasses(buffer: seq<Bit>, k: nat)
    requires |buffer| > 0
    ensures Circular(buffer, 0, k * |buffer|) == Repeat(buffer, k)
  {
    if k > 0 {
      var size := |buffer|;
      CircularFullPasses(buffer, k - 1);
      var m := (k - 1) * size;
      assert k * size == m + size;
      var c, r := Circular(buffer, 0, k * size), Repeat(buffer, k);
      forall i | 0 <= i < k * size
        ensures c[i] == r[i]
      {
        if i >= m {
          Modular.ModUnique(i, size, k - 1, i - m);
        } else {
          assert c[i] == Circular(buffer, 0, m)[i];
        }
      }
    }
  }

  /** The circular read is periodic with the buffer's length. */
  lemma CircularPeriodic(buffer: seq<Bit>, index: nat, n: nat, i: nat)
    requires |buffer| > 0 && i + |buffer| < n
    ensures Circular(buffer, index, n)[i + |buffer|] == Circular(buffer, index, n)[i]
  {
    Modular.ModShiftBy(index + i, |buffer|, 1);
  }

  // ---------------------------------------------------------------------------
  // Circular accumulation of soft values

  /**
   * The total added to position j of a circular buffer of length `size` when
   * values[i] is added at position (offset + i) mod size.
   */
  function ResidueSum(values: seq<real>, size: nat, j: nat, offset: nat): real
    requires size > 0
    decreases |values|
  {
    if values == [] then 0.0
    else
      var last := |values| - 1;
      ResidueSum(values[..last], size, j, offset) + (if (offset + last) % size == j then values[last] else 0.0)
  }

  /**
   * Chase combining: `values` laid around the buffer starting at `index` and
   * wrapping at its end, each added (not written) to what is already there.
   */
  function Combined(buffer: seq<real>, index: nat, values: seq<real>): (r: seq<real>)
    ensures |r| == |buffer|
  {
    seq(|buffer|, j requires 0 <= j < |buffer| => buffer[j] + ResidueSum(values, |buffer|, j, index))
  }

  /** ResidueSum over a concatenation splits at the join. */
  lemma {:induction false} ResidueSumAppend(a: seq<real>, b: seq<real>, size: nat, j: nat, offset: nat)
    requires size > 0
    ensures ResidueSum(a + b, size, j, offset) == ResidueSum(a, size, j, offset) + ResidueSum(b, size, j, offset + |a|)
    decreases |b|
  {
    if b == [] {
      assert a + b == a;
    } else {
      var lb := |b| - 1;
      assert (a + b)[..|a + b| - 1] == a + b[..lb];
      ResidueSumAppend(a, b[..lb], size, j, offset);
    }
  }

  /** A run of values that does not wrap lands on consecutive positions. */
  lemma {:induction false} ResidueSumWithinOneLap(values: seq<real>, size: nat, j: nat, laps: nat, start: nat)
    requires size > 0 && start + |values| <= size && j < size
    ensures ResidueSum(values, size, j, laps * size + start) ==
      if start <= j < start + |values| then values[j - start] else 0.0
    decreases |values|
  {
    if values != [] {
      var last := |values| - 1;
      ResidueSumWithinOneLap(values[..last], size, j, laps, start);
      Modular.ModUnique(laps * size + start + last, size, laps, start + last);
    }
  }

  /** Whole laps around the buffer do not move where the values land. */
  lemma {:induction false} ResidueSumShift(values: seq<real>, size: nat, j: nat, laps: nat, offset: nat)
    requires size > 0
    ensures ResidueSum(values, size, j, laps * size + offset) == ResidueSum(values, size, j, offset)
    decreases |values|
  {
    if values != [] {
      var last := |values| - 1;
      ResidueSumShift(values[..last], size, j, laps, offset);
      Modular.ModShiftBy(offset + last, size, laps);
    }
  }

  /** A run of at most one lap starting at position 0 adds values[j] to position j. */
  lemma ChunkContribution(values: seq<real>, size: nat, j: nat, laps: nat)
    requires size > 0 && |values| <= size && j < size
    ensures ResidueSum(values, size, j, laps * size) == if j < |values| then values[j] else 0.0
  {
    ResidueSumWithinOneLap(values, size, j, laps, 0);
  }

  /**
   * add_values_with_wraparound as the doc comment describes it: values[i] is
   * added at position (index + i) mod |buffer|. Compared with the code as
   * written (AddValuesWithWraparoundAsWritten), the first segment is read from
   * offset 0 of `values` rather than from offset `index`.
   */
  method AddValuesWithWraparound(buffer: seq<real>, index: nat, values: seq<real>) returns (r: seq<real>)
    requires index <= |buffer|
    requires |buffer| > 0 || |values| == 0
    ensures |r| == |buffer|
    ensures forall j :: 0 <= j < |buffer| ==> r[j] == buffer[j] + ResidueSum(values, |buffer|, j, index)
  {
    var bufferSize := |buffer|;
    var nrofValues := |values|;
    if bufferSize == 0 {
      return buffer;
    }
    var temp := RealZeros(bufferSize);
    if index + nrofValues < bufferSize {
      temp := temp[..index] + values + temp[index + nrofValues..];
      forall j | 0 <= j < bufferSize
        ensures temp[j] == ResidueSum(values, bufferSize, j, index)
      {
        ResidueSumWithinOneLap(values, bufferSize, j, 0, index);
      }
    } else {
      var valueIndex := bufferSize - index;
      var head := values[..valueIndex];
      var first := temp[..index] + head;
      temp := AddLaps(first, values, valueIndex);
      forall j | 0 <= j < bufferSize
        ensures temp[j] == ResidueSum(values, bufferSize, j, index)
      {
        ResidueSumWithinOneLap(head, bufferSize, j, 0, index);
        assert values == head + values[valueIndex..];
        ResidueSumAppend(head, values[valueIndex..], bufferSize, j, index);
        ResidueSumShift(values[valueIndex..], bufferSize, j, 1, 0);
      }
    }
    r := seq(bufferSize, j requires 0 <= j < bufferSize => buffer[j] + temp[j]);
  }

  /**
   * The wraparound loop shared by both versions of add_values_with_wraparound:
   * values[start..] is added around `temp` from position 0, one lap (or the
   * final partial lap) at a time.
   */
  method AddLaps(temp: seq<real>, values: seq<real>, start: nat) returns (r: seq<real>)
    requires |temp| > 0 && start <= |values|
    ensures |r| == |temp|
    ensures forall j :: 0 <= j < |temp| ==> r[j] == temp[j] + ResidueSum(values[start..], |temp|, j, 0)
  {
    var bufferSize := |temp|;
    var nrofValues := |values|;
    ghost var tail := values[start..];
    assert tail[..0] == [];
    assert forall j :: 0 <= j < bufferSize ==> ResidueSum(tail[..0], bufferSize, j, 0) == 0.0;
    r := temp;
    var valueIndex := start;
    ghost var laps: nat := 0;
    while valueIndex < nrofValues
      invariant start <= valueIndex <= nrofValues
      invariant |r| == bufferSize
      invariant valueIndex < nrofValues ==> valueIndex - start == laps * bufferSize
      invariant forall j :: 0 <= j < bufferSize ==>
        r[j] == temp[j] + ResidueSum(tail[..valueIndex - start], bufferSize, j, 0)
      decreases nrofValues - valueIndex
    {
      var count := if valueIndex + bufferSize < nrofValues then bufferSize else nrofValues - valueIndex;
      var chunk := values[valueIndex..valueIndex + count];
      var previous := r;
      var done := valueIndex - start;
      r := seq(count, k requires 0 <= k < count => chunk[k] + previous[k]) + previous[count..];
      forall j | 0 <= j < bufferSize
        ensures r[j] == temp[j] + ResidueSum(tail[..done + count], bufferSize, j, 0)
      {
        assert r[j] == previous[j] + if j < count then chunk[j] else 0.0;
        assert tail[..done + count] == tail[..done] + chunk;
        ResidueSumAppend(tail[..done], chunk, bufferSize, j, 0);
        ChunkContribution(chunk, bufferSize, j, laps);
      }
      laps := laps + 1;
      assert laps * bufferSize == (laps - 1) * bufferSize + bufferSize;
      valueIndex := valueIndex + count;
    }
    assert tail[..valueIndex - start] == tail;
  }

  /**
   * The soft values that add_values_with_wraparound produces as written:
   * without wrap (index + |values| < |buffer|) values[j - index] lands on
   * position j; otherwise the first segment takes values[index..|buffer|)
   * onto positions index.., and the loop then adds values from offset
   * |buffer| - index onwards around the buffer starting at position 0.
   */
  function CombinedAsWritten(buffer: seq<real>, index: nat, values: seq<real>): (r: seq<real>)
    requires index <= |buffer|
    requires index + |values| < |buffer| || |values| >= |buffer|
    ensures |r| == |buffer|
  {
    if index + |values| < |buffer| then Combined(buffer, index, values)
    else
      var tail := values[|buffer| - index..];
      seq(|buffer|, j requires 0 <= j < |buffer| =>
        buffer[j] + (if index <= j then values[j] else 0.0) + ResidueSum(tail, |buffer|, j, 0))
  }

  /**
   * add_values_with_wraparound exactly as written. The first segment is read
   * from `values` at offset `index`, so the precondition of that read (the
   * segment lies inside `values`) becomes |values| >= |buffer| whenever the
   * values reach the end of the buffer.
   */
  method AddValuesWithWraparoundAsWritten(buffer: seq<real>, index: nat, values: seq<real>) returns (r: seq<real>)
    requires index <= |buffer|
    requires |buffer| > 0 || |values| == 0
    requires index + |values| < |buffer| || |values| >= |buffer|
    ensures r == CombinedAsWritten(buffer, index, values)
  {
    var bufferSize := |buffer|;
    var nrofValues := |values|;
    if bufferSize == 0 {
      return buffer;
    }
    var temp := RealZeros(bufferSize);
    if index + nrofValues < bufferSize {
      temp := temp[..index] + values + temp[index + nrofValues..];
      forall j | 0 <= j < bufferSize
        ensures temp[j] == ResidueSum(values, bufferSize, j, index)
      {
        ResidueSumWithinOneLap(values, bufferSize, j, 0, index);
      }
    } else {
      var first := temp[..index] + values[index..bufferSize];
      assert forall j :: 0 <= j < bufferSize ==> first[j] == if index <= j then values[j] else 0.0;
      temp := AddLaps(first, values, bufferSize - index);
    }
    r := seq(bufferSize, j requires 0 <= j < bufferSize => buffer[j] + temp[j]);
  }

  /** At index 0, the only index the scheduler passes, the code as written does what its doc comment says. */
  lemma AsWrittenAgreesAtIndexZero(buffer: seq<real>, values: seq<real>)
    requires |buffer| > 0
    ensures CombinedAsWritten(buffer, 0, values) == Combined(buffer, 0, values)
  {
    var size := |buffer|;
    if |values| >= size {
      var a, c := CombinedAsWritten(buffer, 0, values), Combined(buffer, 0, values);
      forall j | 0 <= j < size
        ensures a[j] == c[j]
      {
        assert values == values[..size] + values[size..];
        ResidueSumAppend(values[..size], values[size..], size, j, 0);
        ChunkContribution(values[..size], size, j, 0);
        ResidueSumShift(values[size..], size, j, 1, 0);
      }
    }
  }

  /** Without wrap, the code as written agrees with its doc comment for every index. */
  lemma AsWrittenAgreesWithoutWrap(buffer: seq<real>, index: nat, values: seq<real>)
    requires index + |values| < |buffer|
    ensures CombinedAsWritten(buffer, index, values) == Combined(buffer, index, values)
  {
  }

  /**
   * For index 1 on a buffer of two, the code as written adds values[1] to both
   * positions and never adds values[0]; the doc comment puts values[0] at
   * position 1 and values[1] at position 0.
   */
  lemma AsWrittenDropsLeadingValues()
    ensures CombinedAsWritten([0.0, 0.0], 1, [1.0, 2.0]) == [2.0, 2.0]
    ensures Combined([0.0, 0.0], 1, [1.0, 2.0]) == [2.0, 1.0]
  {
    var v := [1.0, 2.0];
    assert v[..1] == [1.0] && v[..0] == [];
    assert ResidueSum(v, 2, 0, 1) == 2.0;
    assert ResidueSum(v, 2, 1, 1) == 1.0;
    var tail := v[1..];
    assert tail == [2.0] && tail[..0] == [];
    assert ResidueSum(tail, 2, 0, 0) == 2.0;
    assert ResidueSum(tail, 2, 1, 0) == 0.0;
  }

  /** Values that do not wrap are added to positions index .. index + |values| - 1 only. */
  lemma CombinedWithoutWrap(buffer: seq<real>, index: nat, values: seq<real>, j: nat)
    requires index + |values| < |buffer| && j < |buffer|
    ensures Combined(buffer, index, values)[j] ==
      if index <= j < index + |values| then buffer[j] + values[j - index] else buffer[j]
  {
    ResidueSumWithinOneLap(values, |buffer|, j, 0, index);
  }

  /** Combining one full pass of soft values from position 0 adds exactly one value per position. */
  lemma CombinedOnePass(buffer: seq<real>, values: seq<real>)
    requires |values| == |buffer|
    ensures Combined(buffer, 0, values) == seq(|buffer|, j requires 0 <= j < |buffer| => buffer[j] + values[j])
  {
    if |buffer| > 0 {
      forall j | 0 <= j < |buffer|
        ensures ResidueSum(values, |buffer|, j, 0) == values[j]
      {
        ChunkContribution(values, |buffer|, j, 0);
      }
    }
  }

  /**
   * Additive combining: soft values of two transmissions combined one after
   * the other give the buffer plus both contributions, in either order.
   */
  lemma CombinedTwiceAdds(buffer: seq<real>, index: nat, first: seq<real>, second: seq<real>)
    ensures Combined(Combined(buffer, index, first), index, second) ==
      Combined(Combined(buffer, index, second), index, first)
    ensures forall j :: 0 <= j < |buffer| ==>
      Combined(Combined(buffer, index, first), index, second)[j] ==
        buffer[j] + ResidueSum(first, |buffer|, j, index) + ResidueSum(second, |buffer|, j, index)
  {
  }

  /**
   * Combining a run of soft values and then the run that follows it, at the
   * position where the first one stopped, is combining the two runs at once.
   */
  lemma CombinedConcatenation(buffer: seq<real>, index: nat, first: seq<real>, second: seq<real>)
    ensures Combined(Combined(buffer, index, first), index + |first|, second) ==
      Combined(buffer, index, first + second)
  {
    forall j | 0 <= j < |buffer|
      ensures Combined(Combined(buffer, index, first), index + |first|, second)[j] ==
        Combined(buffer, index, first + second)[j]
    {
      ResidueSumAppend(first, second, |buffer|, j, index);
    }
  }
}
