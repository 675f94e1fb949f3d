/*
 * Base-128 varints and Go's integer widths, as used by the hand-expanded
 * protocol buffer codec of the spy adapter's `InstanceParam` template
 * (mixer/test/spyAdapter/template/apa/tmpl_instance.pb.go).
 *
 * Bytes are integers in [0, 256); Go's uint64 is an integer in [0, 2^64)
 * and Go's int is a 64-bit two's complement integer, whose wrap-around is
 * written out by WrapInt.
 */
module ProtoWire {
  import opened Common

  type Byte = b: int | 0 <= b < 256
  type Bytes = seq<Byte>

  const TWO_32: int := 0x1_0000_0000
  const TWO_63: int := 0x8000_0000_0000_0000
  const TWO_64: int := 0x1_0000_0000_0000_0000

  /** Go's math.MaxInt64: the largest length a Go slice or string can have. */
  const MAX_INT: int := TWO_63 - 1

  /**
   * The largest byte slice the model considers. Go allows slices up to
   * MAX_INT bytes; the model stops at 2^62 so that an index computed by a
   * wrapped addition of a length near 2^63 is always negative (see
   * TmplInstance.SkipGroup).
   */
  const MAX_LEN: int := 0x4000_0000_0000_0000

  type Uint64 = x: int | 0 <= x < TWO_64

  /** Errors of the decoder. Panic stands for a Go runtime panic (index out of range). */
  datatype DecodeError =
    | IntOverflow            // ErrIntOverflowTmplInstance: a varint longer than 64 bits
    | UnexpectedEOF          // io.ErrUnexpectedEOF: input ends too early
    | InvalidLength          // ErrInvalidLengthTmplInstance: a negative length
    | EndGroupForNonGroup    // wire type 4 at the top level
    | IllegalTag             // field number <= 0
    | WrongWireType(field: int)
    | IllegalWireType        // wire type 6 or 7 in skip
    | Panic                  // slice or index out of range

  /** The result of a decoding step. */
  type Decoded<T> = Result<T, DecodeError>


  /** A varint read: its value and the index just past its last byte. */
  datatype Read = Read(value: nat, next: int)

  /** Go's int(x) for an integer that Go computed in 64 bits: two's complement wrap-around. */
  function WrapInt(x: int): (r: int)
    requires -TWO_64 <= x < TWO_64
    ensures -TWO_63 <= r < TWO_63
    ensures -TWO_63 <= x < TWO_63 ==> r == x
    ensures TWO_63 <= x ==> r == x - TWO_64
    ensures x < -TWO_63 ==> r == x + TWO_64
  {
    if x >= TWO_63 then x - TWO_64 else if x < -TWO_63 then x + TWO_64 else x
  }

  /** Go's int(u) and int64(u) for a uint64 u. */
  function ToInt(u: Uint64): (r: int)
    ensures r < 0 <==> u >= TWO_63
    ensures r >= 0 ==> r == u
  {
    if u < TWO_63 then u else u - TWO_64
  }

  /** Go's int32(x): the low 32 bits of x read as a signed number. */
  function ToInt32(x: nat): (r: int)
    ensures -TWO_32 / 2 <= r < TWO_32 / 2
    ensures x < TWO_32 / 2 ==> r == x
  {
    var u := x % TWO_32;
    if u < TWO_32 / 2 then u else u - TWO_32
  }

  /** 128^k: shifting left by 7*k bits. */
  function Pow128(k: nat): (r: nat)
    ensures r >= 1
  {
    if k == 0 then 1 else 128 * Pow128(k - 1)
  }

  /** The number of bytes of the varint encoding of x (sovTmplInstance). */
  function VarintSize(x: nat): nat
  {
    if x < 128 then 1 else 1 + VarintSize(x / 128)
  }

  /**
   * The bytes encodeVarintTmplInstance writes for v: 7 bits at a time, least
   * significant group first, bit 0x80 set on every byte but the last.
   */
  function VarintBytes(v: nat): (r: Bytes)
    ensures |r| == VarintSize(v)
  {
    if v < 128 then [v] else [v % 128 + 128] + VarintBytes(v / 128)
  }

  /**
   * The varint at index i of a read that has already consumed k bytes: each
   * byte contributes its low seven bits, least significant group first, and
   * a byte with bit 0x80 set continues the number. An eleventh byte (a
   * shift of 64 or more) is an overflow. The value is not yet truncated.
   */
  function VarintFrom(data: Bytes, i: int, k: nat): (r: Decoded<Read>)
    decreases 10 - k
  {
    if k >= 10 then Err(IntOverflow)
    else if i >= |data| then Err(UnexpectedEOF)
    else if i < 0 then Err(Panic)
    else if data[i] < 128 then Ok(Read(data[i], i + 1))
    else
      match VarintFrom(data, i + 1, k + 1)
      case Err(e) => Err(e)
      case Ok(Read(rest, j)) => Ok(Read(data[i] - 128 + 128 * rest, j))
  }

  /**
   * The varint loop inlined at every read of Unmarshal and
   * skipTmplInstance: `wire |= uint64(b&0x7F) << shift` keeps the low 64
   * bits. The groups occupy disjoint bits, so their OR is their sum, and
   * truncating each shifted group or the whole sum gives the same uint64.
   */
  function ReadVarint(data: Bytes, i: int): (r: Decoded<Read>)
    ensures r.Ok? ==> r.value.value < TWO_64
  {
    match VarintFrom(data, i, 0)
    case Err(e) => Err(e)
    case Ok(Read(v, j)) => Ok(Read(v % TWO_64, j))
  }

  /** A successful read consumes between one and ten bytes and stays inside the input. */
  lemma {:induction false} VarintFromAdvances(data: Bytes, i: int, k: nat)
    requires VarintFrom(data, i, k).Ok?
    ensures 0 <= i < VarintFrom(data, i, k).value.next <= |data|
    ensures VarintFrom(data, i, k).value.next <= i + 10 - k
    decreases 10 - k
  {
    if data[i] >= 128 {
      VarintFromAdvances(data, i + 1, k + 1);
    }
  }

  lemma ReadVarintAdvances(data: Bytes, i: int)
    requires ReadVarint(data, i).Ok?
    ensures 0 <= i < ReadVarint(data, i).value.next <= |data|
    ensures ReadVarint(data, i).value.next <= i + 10
  {
    VarintFromAdvances(data, i, 0);
  }

  /** n bytes with the continuation bit set, from index i. */
  ghost predicate Continues(data: Bytes, i: int, n: int)
  {
    0 <= i && i + n <= |data| && forall k :: i <= k < i + n ==> data[k] >= 128
  }

  /**
   * The two ways a read at i <= |data| fails: the ten bytes a uint64 may
   * take all continue (overflow), or the input ends while the bytes still
   * continue (end of input). A read inside the input never panics.
   */
  lemma {:induction false} VarintFromErrors(data: Bytes, i: int, k: nat)
    requires 0 <= i <= |data| && k <= 10
    ensures VarintFrom(data, i, k) == Err(IntOverflow) <==> Continues(data, i, 10 - k)
    ensures VarintFrom(data, i, k) == Err(UnexpectedEOF) <==> |data| < i + 10 - k && Continues(data, i, |data| - i)
    ensures VarintFrom(data, i, k) != Err(Panic)
    decreases 10 - k
  {
    if k < 10 && i < |data| && data[i] >= 128 {
      VarintFromErrors(data, i + 1, k + 1);
      assert Continues(data, i, 10 - k) <==> Continues(data, i + 1, 10 - k - 1);
      assert Continues(data, i, |data| - i) <==> Continues(data, i + 1, |data| - i - 1);
    } else if k < 10 && i < |data| {
      assert !Continues(data, i, 10 - k) by {
        assert data[i] < 128;
      }
      assert !Continues(data, i, |data| - i) by {
        assert data[i] < 128;
      }
    }
  }

  lemma ReadVarintErrors(data: Bytes, i: int)
    requires 0 <= i <= |data|
    ensures ReadVarint(data, i) == Err(IntOverflow) <==> Continues(data, i, 10)
    ensures ReadVarint(data, i) == Err(UnexpectedEOF) <==> |data| < i + 10 && Continues(data, i, |data| - i)
    ensures ReadVarint(data, i) != Err(Panic)
  {
    VarintFromErrors(data, i, 0);
  }

  /** sovTmplInstance is 1 for 0 and never more than 10 for a uint64. */
  lemma VarintSizeBounds(x: Uint64)
    ensures 1 <= VarintSize(x) <= 10
    ensures x < 128 <==> VarintSize(x) == 1
  {
    assert Pow128(10) == 0x40_0000_0000_0000_0000;
    VarintSizeBelow(x, 10);
  }

  lemma {:induction false} VarintSizeBelow(x: nat, k: nat)
    requires 1 <= k && x < Pow128(k)
    ensures VarintSize(x) <= k
  {
    if x >= 128 {
      assert k > 1;
      VarintSizeBelow(x / 128, k - 1);
    }
  }

  /**
   * The encoding has VarintSize(v) bytes, every byte but the last carries
   * the continuation bit 0x80 and the last one does not.
   */
  lemma {:induction false} VarintBytesShape(v: nat)
    ensures forall j :: 0 <= j < |VarintBytes(v)| - 1 ==> VarintBytes(v)[j] >= 128
    ensures VarintBytes(v)[|VarintBytes(v)| - 1] < 128
  {
    if v >= 128 {
      VarintBytesShape(v / 128);
    }
  }

  /** Reading back an encoded varint that fits in the bytes still allowed. */
  lemma {:induction false} VarintFromEncoded(data: Bytes, i: nat, k: nat, v: nat)
    requires k + VarintSize(v) <= 10
    requires i + VarintSize(v) <= |data|
    requires data[i..i + VarintSize(v)] == VarintBytes(v)
    ensures VarintFrom(data, i, k) == Ok(Read(v, i + VarintSize(v)))
    decreases v
  {
    assert data[i] == VarintBytes(v)[0];
    if v >= 128 {
      assert data[i + 1..i + 1 + VarintSize(v / 128)] == VarintBytes(v / 128) by {
        assert data[i + 1..i + 1 + VarintSize(v / 128)] == data[i..i + VarintSize(v)][1..];
      }
      VarintFromEncoded(data, i + 1, k + 1, v / 128);
    }
  }

  /** Varint round trip: decoding what encodeVarintTmplInstance wrote yields v again. */
  lemma ReadVarintOfEncoded(data: Bytes, i: nat, v: Uint64)
    requires i + VarintSize(v) <= |data|
    requires data[i..i + VarintSize(v)] == VarintBytes(v)
    ensures ReadVarint(data, i) == Ok(Read(v, i + VarintSize(v)))
  {
    VarintSizeBounds(v);
    VarintFromEncoded(data, i, 0, v);
    ReadVarintFits(data, i);
  }

  /** A value that fits in 64 bits is not truncated. */
  lemma ReadVarintFits(data: Bytes, i: int)
    requires VarintFrom(data, i, 0).Ok? && VarintFrom(data, i, 0).value.value < TWO_64
    ensures ReadVarint(data, i) == VarintFrom(data, i, 0)
  {
    ModSmall(VarintFrom(data, i, 0).value.value, TWO_64);
  }

  lemma ModSmall(v: int, m: int)
    requires 0 <= v < m
    ensures v % m == v
  {
  }

  /**
   * encodeVarintTmplInstance: writes v at offset, seven bits per byte, and
   * returns the index after the last byte written.
   */
  method EncodeVarint(data: array<Byte>, offset: int, v: Uint64) returns (next: int)
    requires 0 <= offset && offset + VarintSize(v) <= data.Length
    modifies data
    ensures next == offset + VarintSize(v)
    ensures data[offset..next] == VarintBytes(v)
    ensures data[..offset] == old(data[..offset])
    ensures data[next..] == old(data[next..])
  {
    var x: int := v;
    var i := offset;
    while x >= 128
      invariant 0 <= x && offset <= i
      invariant i + VarintSize(x) == offset + VarintSize(v)
      invariant data[offset..i] + VarintBytes(x) == VarintBytes(v)
      invariant forall k :: 0 <= k < offset || offset + VarintSize(v) <= k < data.Length ==> data[k] == old(data[k])
      decreases x
    {
      ghost var done := data[offset..i];
      data[i] := x % 128 + 128;
      VarintBytesStep(done, data[offset..i + 1], x);
      x := x / 128;
      i := i + 1;
    }
    ghost var done := data[offset..i];
    data[i] := x;
    next := i + 1;
    assert data[offset..next] == done + [x];
    assert data[..offset] == old(data[..offset]);
    assert data[next..] == old(data[next..]);
  }

  /** One iteration of encodeVarintTmplInstance's loop: the low seven bits of x, with 0x80 set. */
  lemma VarintBytesStep(done: Bytes, written: Bytes, x: nat)
    requires x >= 128 && written == done + [x % 128 + 128]
    ensures done + VarintBytes(x) == written + VarintBytes(x / 128)
  {
  }

  /** sovTmplInstance, with the source's do-while loop. */
  method Sov(x: Uint64) returns (n: int)
    ensures n == VarintSize(x)
  {
    n := 0;
    var y: int := x;
    while true
      invariant 0 <= y
      invariant n + VarintSize(y) == VarintSize(x)
      decreases y
    {
      n := n + 1;
      var z := y / 128;
      if z == 0 {
        break;
      }
      y := z;
    }
  }

  /** `wire |= (uint64(b) & 0x7F) << shift`, the group `low` landing on bits no earlier group set. */
  function Accumulate(wire: nat, scale: nat, low: nat): nat
  {
    wire + scale * low
  }

  /** The result of a read that continues the bytes before it, worth acc, at weight scale. */
  function Shifted(r: Decoded<Read>, acc: nat, scale: nat): Decoded<Read>
  {
    match r
    case Err(e) => Err(e)
    case Ok(Read(v, j)) => Ok(Read(acc + scale * v, j))
  }

  /**
   * The varint loop inlined at each read of Unmarshal and skipTmplInstance,
   * reading forwards from the least significant group.
   */
  method ReadVarintAt(data: Bytes, i: int) returns (r: Decoded<Read>)
    ensures r == ReadVarint(data, i)
  {
    var wire: nat := 0;
    var idx := i;
    var shift := 0;
    var scale: nat := 1;
    while shift < 10
      invariant 0 <= shift <= 10 && idx == i + shift
      invariant VarintFrom(data, i, 0) == Shifted(VarintFrom(data, idx, shift), wire, scale)
      decreases 10 - shift
    {
      if idx >= |data| {
        return Err(UnexpectedEOF);
      }
      if idx < 0 {
        return Err(Panic);
      }
      var b: int := data[idx];
      if b < 128 {
        return Ok(Read((wire + scale * b) % TWO_64, idx + 1));
      }
      ShiftedStep(VarintFrom(data, idx + 1, shift + 1), wire, scale, b - 128);
      wire := Accumulate(wire, scale, b - 128);
      scale := 128 * scale;
      idx := idx + 1;
      shift := shift + 1;
    }
    return Err(IntOverflow);
  }

  lemma ShiftedStep(r: Decoded<Read>, acc: nat, scale: nat, low: nat)
    ensures Shifted(match r case Err(e) => Err(e) case Ok(Read(v, j)) => Ok(Read(low + 128 * v, j)), acc, scale)
         == Shifted(r, acc + scale * low, 128 * scale)
  {
    if r.Ok? {
      var v := r.value.value;
      assert scale * (low + 128 * v) == scale * low + (scale * 128) * v;
    }
  }
}
