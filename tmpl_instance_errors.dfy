/*
 * The error paths of InstanceParam.Unmarshal and skipTmplInstance, what a
 * decode may change in the message it fills, and the index arithmetic
 * that makes the generated decoder panic.
 */
module TmplInstanceErrors {
  import opened Common
  import opened ProtoWire
  import opened TmplInstance

  // ---------------------------------------------------------------------
  // One iteration of the field loop

  /** A tag whose varint runs past ten bytes: the integer overflow error, m untouched. */
  lemma TagOverflow(checks: Checks, data: Bytes, i: nat, m: Msg)
    requires i < |data| <= MAX_LEN
    requires Continues(data, i, 10)
    ensures DecodeField(checks, data, i, m) == Stop(m, IntOverflow)
  {
    ReadVarintErrors(data, i);
  }

  /** A tag cut off by the end of the input. */
  lemma TagTruncated(checks: Checks, data: Bytes, i: nat, m: Msg)
    requires i < |data| <= MAX_LEN
    requires |data| < i + 10 && Continues(data, i, |data| - i)
    ensures DecodeField(checks, data, i, m) == Stop(m, UnexpectedEOF)
  {
    ReadVarintErrors(data, i);
  }

  /** Wire type 4 (end group) outside a group. */
  lemma EndGroupAtTop(checks: Checks, data: Bytes, i: nat, m: Msg, wire: nat, j: int)
    requires i < |data| <= MAX_LEN
    requires ReadVarint(data, i) == Ok(Read(wire, j)) && wire % 8 == 4
    ensures DecodeField(checks, data, i, m) == Stop(m, EndGroupForNonGroup)
  {
  }

  /** Field number 0, or one that is negative as an int32. */
  lemma IllegalFieldNumber(checks: Checks, data: Bytes, i: nat, m: Msg, wire: nat, j: int)
    requires i < |data| <= MAX_LEN
    requires ReadVarint(data, i) == Ok(Read(wire, j)) && wire % 8 != 4 && ToInt32(wire / 8) <= 0
    ensures DecodeField(checks, data, i, m) == Stop(m, IllegalTag)
  {
  }

  /** The known fields are all length-delimited; any other wire type but 4 is refused with the field number. */
  lemma KnownFieldWrongWireType(checks: Checks, data: Bytes, i: nat, m: Msg, wire: nat, j: int)
    requires i < |data| <= MAX_LEN
    requires ReadVarint(data, i) == Ok(Read(wire, j)) && wire % 8 != 2 && wire % 8 != 4
    requires 1 <= ToInt32(wire / 8) <= 4 || ToInt32(wire / 8) == ATTRIBUTE_BINDINGS
    ensures DecodeField(checks, data, i, m) == Stop(m, WrongWireType(ToInt32(wire / 8)))
  {
  }

  /** The tag of a known field, length-delimited, read at i and ending at j. */
  ghost predicate KnownFieldTag(data: Bytes, i: nat, j: int)
  {
    && ReadVarint(data, i).Ok?
    && ReadVarint(data, i).value.next == j
    && ReadVarint(data, i).value.value % 8 == 2
    && var f := ToInt32(ReadVarint(data, i).value.value / 8);
       1 <= f <= 4 || f == ATTRIBUTE_BINDINGS
  }

  /** A length whose payload would run past the end of the input. */
  lemma LengthPastEnd(checks: Checks, data: Bytes, i: nat, m: Msg, j: int, n: nat, a: int)
    requires i < |data| <= MAX_LEN
    requires KnownFieldTag(data, i, j)
    requires ReadVarint(data, j) == Ok(Read(n, a)) && |data| < a + n < TWO_63
    ensures DecodeField(checks, data, i, m) == Stop(m, UnexpectedEOF)
  {
    ReadVarintAdvances(data, i);
    ReadVarintAdvances(data, j);
    assert ReadLength(checks, data, j) == Err(UnexpectedEOF);
  }

  /** A length of 2^63 or more is a negative int. */
  lemma NegativeLength(checks: Checks, data: Bytes, i: nat, m: Msg, j: int, n: nat, a: int)
    requires i < |data| <= MAX_LEN
    requires KnownFieldTag(data, i, j)
    requires ReadVarint(data, j) == Ok(Read(n, a)) && n >= TWO_63
    ensures DecodeField(checks, data, i, m) == Stop(m, InvalidLength)
  {
    assert ReadLength(checks, data, j) == Err(InvalidLength);
  }

  /** A field of another number: skipped whole or refused, the message is not touched. */
  lemma UnknownFieldKeepsMessage(checks: Checks, data: Bytes, i: nat, m: Msg, wire: nat, j: int)
    requires i < |data| <= MAX_LEN
    requires ReadVarint(data, i) == Ok(Read(wire, j)) && wire % 8 != 4
    requires ToInt32(wire / 8) > 4 && ToInt32(wire / 8) != ATTRIBUTE_BINDINGS
    ensures DecodeField(checks, data, i, m).msg == m
    ensures Skip(checks, data[i..]).Err? ==> DecodeField(checks, data, i, m) == Stop(m, Skip(checks, data[i..]).error)
  {
  }

  /** skipTmplInstance refuses wire types 6 and 7. */
  lemma SkipIllegalWireType(checks: Checks, data: Bytes, wire: nat, j: int)
    requires 0 < |data| <= MAX_LEN
    requires ReadVarint(data, 0) == Ok(Read(wire, j)) && wire % 8 >= 6
    ensures Skip(checks, data) == Err(IllegalWireType)
  {
  }

  /** An error ends Unmarshal at once, with the message as that iteration left it. */
  lemma DecodeFromStops(checks: Checks, data: Bytes, i: nat, m: Msg, m': Msg, e: DecodeError)
    requires i < |data| <= MAX_LEN
    requires DecodeField(checks, data, i, m) == Stop(m', e)
    ensures DecodeFrom(checks, data, i, m) == Outcome(m', Some(e))
  {
  }

  // ---------------------------------------------------------------------
  // What a decode changes

  /**
   * One iteration changes at most one thing: one string field, or one key
   * of the map, which it adds or overwrites.
   */
  ghost predicate OneChange(m: Msg, m': Msg)
  {
    || m' == m
    || (exists f, s :: 1 <= f <= 4 && m' == SetField(m, f, s))
    || (exists k, v :: m' == Assign(m, k, v))
  }

  lemma DecodeFieldOneChange(checks: Checks, data: Bytes, i: nat, m: Msg)
    requires i < |data| <= MAX_LEN
    ensures OneChange(m, DecodeField(checks, data, i, m).msg)
  {
  }

  /** Unmarshal never resets the message: every key already in the map is still there. */
  lemma {:induction false} DecodeFromKeepsKeys(checks: Checks, data: Bytes, i: nat, m: Msg)
    requires i <= |data| <= MAX_LEN
    ensures m.attributeBindings.Keys <= DecodeFrom(checks, data, i, m).msg.attributeBindings.Keys
    decreases |data| - i
  {
    if i < |data| {
      DecodeFieldOneChange(checks, data, i, m);
      var r := DecodeField(checks, data, i, m);
      if r.Next? {
        DecodeFromKeepsKeys(checks, data, r.next, r.msg);
      }
    }
  }

  /** Unmarshal of no bytes changes nothing and succeeds. */
  lemma UnmarshalEmpty(checks: Checks, m: Msg)
    ensures Unmarshal(checks, [], m) == Outcome(m, None)
  {
  }

  // ---------------------------------------------------------------------
  // Index arithmetic: the hardened decoder never panics

  lemma {:induction false} SkipNeverPanics(data: Bytes)
    requires 0 < |data| <= MAX_LEN
    ensures Skip(Hardened, data) != Err(Panic)
    decreases |data|, 1, 0
  {
    ReadVarintErrors(data, 0);
    if ReadVarint(data, 0).Ok? {
      ReadVarintAdvances(data, 0);
      var i := ReadVarint(data, 0).value.next;
      ReadVarintErrors(data, i);
      if ReadVarint(data, 0).value.value % 8 == 3 {
        SkipGroupNeverPanics(data, i);
      }
    }
  }

  lemma {:induction false} SkipGroupNeverPanics(data: Bytes, i: int)
    requires 1 <= i <= |data| <= MAX_LEN
    ensures SkipGroup(Hardened, data, i) != Err(Panic)
    decreases |data|, 0, |data| - i
  {
    ReadVarintErrors(data, i);
    var tag := ReadVarint(data, i);
    if tag.Ok? && tag.value.value % 8 != 4 {
      ReadVarintAdvances(data, i);
      SkipNeverPanics(data[i..]);
      var skipped := Skip(Hardened, data[i..]);
      if skipped.Ok? {
        var i' := GroupNext(Hardened, i, skipped.value);
        if 0 <= i' < |data| {
          SkipGroupNeverPanics(data, i');
        }
      }
    }
  }

  lemma {:induction false} DecodeEntryNeverPanics(data: Bytes, i: int, post: int, key: Bytes, value: Bytes)
    requires 0 <= i && post <= |data| <= MAX_LEN
    ensures DecodeEntry(Hardened, data, i, post, key, value) != Err(Panic)
    decreases post - i
  {
    if i < post {
      ReadVarintErrors(data, i);
      match ReadVarint(data, i)
      case Err(_) =>
      case Ok(Read(wire, j)) =>
        ReadVarintAdvances(data, i);
        var fieldNum := ToInt32(wire / 8);
        if fieldNum == 1 || fieldNum == 2 {
          ReadVarintErrors(data, j);
          var sp := ReadLength(Hardened, data, j);
          if sp.Ok? {
            var s := data[sp.value.start..sp.value.end];
            DecodeEntryNeverPanics(data, sp.value.end, post, if fieldNum == 1 then s else key,
                                   if fieldNum == 1 then value else s);
          }
        } else {
          SkipNeverPanics(data[i..]);
          var skipped := Skip(Hardened, data[i..]);
          if skipped.Ok? && skipped.value >= 0 {
            var next := WrapInt(i + skipped.value);
            if 0 <= next <= post {
              DecodeEntryNeverPanics(data, next, post, key, value);
            }
          }
        }
    }
  }

  lemma DecodeFieldNeverPanics(data: Bytes, i: nat, m: Msg)
    requires i < |data| <= MAX_LEN
    ensures !DecodeField(Hardened, data, i, m).Stop? || DecodeField(Hardened, data, i, m).error != Panic
  {
    ReadVarintErrors(data, i);
    if ReadVarint(data, i).Ok? {
      ReadVarintAdvances(data, i);
      var j := ReadVarint(data, i).value.next;
      ReadVarintErrors(data, j);
      var sp := ReadLength(Hardened, data, j);
      if sp.Ok? {
        DecodeEntryNeverPanics(data, sp.value.start, sp.value.end, [], []);
      }
      SkipNeverPanics(data[i..]);
    }
  }

  /** With the missing index checks added, Unmarshal reports an error for every input where it would panic. */
  lemma {:induction false} HardenedNeverPanics(data: Bytes, i: nat, m: Msg)
    requires i <= |data| <= MAX_LEN
    ensures DecodeFrom(Hardened, data, i, m).error != Some(Panic)
    decreases |data| - i
  {
    if i < |data| {
      DecodeFieldNeverPanics(data, i, m);
      var r := DecodeField(Hardened, data, i, m);
      if r.Next? {
        HardenedNeverPanics(data, r.next, r.msg);
      }
    }
  }

  // ---------------------------------------------------------------------
  // Index arithmetic: inputs on which the generated decoder panics

  /** Field 1 with the length 2^63 - 1: `iNdEx + intStringLen` wraps to a negative postIndex. */
  const LONG_STRING: Bytes := [0x0a, 0xff, 0xff, 0xff, 0xff, 0xff, 0xff, 0xff, 0xff, 0x7f]

  /** The varints of 2^63 - 1 and 2^63 - 11, group by group. */
  lemma LongVarints()
    ensures VarintBytes(MAX_INT) == [0xff, 0xff, 0xff, 0xff, 0xff, 0xff, 0xff, 0xff, 0x7f]
    ensures VarintBytes(MAX_INT - 10) == [0xf5, 0xff, 0xff, 0xff, 0xff, 0xff, 0xff, 0xff, 0x7f]
  {
    assert VarintBytes(0x7f) == [0x7f];
    assert VarintBytes(0x3fff) == [0xff] + VarintBytes(0x7f);
    assert VarintBytes(0x1fffff) == [0xff] + VarintBytes(0x3fff);
    assert VarintBytes(0xfffffff) == [0xff] + VarintBytes(0x1fffff);
    assert VarintBytes(0x7ffffffff) == [0xff] + VarintBytes(0xfffffff);
    assert VarintBytes(0x3ffffffffff) == [0xff] + VarintBytes(0x7ffffffff);
    assert VarintBytes(0x1ffffffffffff) == [0xff] + VarintBytes(0x3ffffffffff);
    assert VarintBytes(0xffffffffffffff) == [0xff] + VarintBytes(0x1ffffffffffff);
    assert VarintBytes(0x7fffffffffffffff) == [0xff] + VarintBytes(0xffffffffffffff);
    assert VarintBytes(0x7ffffffffffffff5) == [0xf5] + VarintBytes(0xffffffffffffff);
  }

  lemma LongStringLength()
    ensures ReadVarint(LONG_STRING, 0) == Ok(Read(0x0a, 1))
    ensures ReadVarint(LONG_STRING, 1) == Ok(Read(MAX_INT, 10))
  {
    LongVarints();
    assert LONG_STRING[0..1] == VarintBytes(0x0a);
    ReadVarintOfEncoded(LONG_STRING, 0, 0x0a);
    assert LONG_STRING[1..10] == VarintBytes(MAX_INT);
    ReadVarintOfEncoded(LONG_STRING, 1, MAX_INT);
  }

  /** As written, the string is sliced as dAtA[10:postIndex] with postIndex < 0: a panic. */
  lemma AsWrittenLongStringPanics()
    ensures Unmarshal(AsWritten, LONG_STRING, EMPTY) == Outcome(EMPTY, Some(Panic))
    ensures Unmarshal(Hardened, LONG_STRING, EMPTY) == Outcome(EMPTY, Some(InvalidLength))
  {
    LongStringLength();
    assert ReadLength(AsWritten, LONG_STRING, 1) == Ok(Span(10, 10 + MAX_INT - TWO_64));
    assert ReadLength(Hardened, LONG_STRING, 1) == Err(InvalidLength);
  }

  /**
   * An empty field 1, then an unknown field 5 whose length makes
   * skipTmplInstance return 2^63 - 1: `iNdEx + skippy` wraps to a negative
   * index, which the next iteration reads.
   */
  const LONG_SKIP: Bytes := [0x0a, 0x00, 0x2a, 0xf5, 0xff, 0xff, 0xff, 0xff, 0xff, 0xff, 0xff, 0x7f]

  lemma LongSkipLength()
    ensures ReadVarint(LONG_SKIP, 0) == Ok(Read(0x0a, 1))
    ensures ReadVarint(LONG_SKIP, 1) == Ok(Read(0, 2))
    ensures ReadVarint(LONG_SKIP, 2) == Ok(Read(0x2a, 3))
    ensures ReadVarint(LONG_SKIP[2..], 0) == Ok(Read(0x2a, 1))
    ensures ReadVarint(LONG_SKIP[2..], 1) == Ok(Read(MAX_INT - 10, 10))
  {
    LongVarints();
    assert LONG_SKIP[0..1] == VarintBytes(0x0a);
    ReadVarintOfEncoded(LONG_SKIP, 0, 0x0a);
    assert LONG_SKIP[1..2] == VarintBytes(0);
    ReadVarintOfEncoded(LONG_SKIP, 1, 0);
    assert LONG_SKIP[2..3] == VarintBytes(0x2a);
    ReadVarintOfEncoded(LONG_SKIP, 2, 0x2a);
    var tail := LONG_SKIP[2..];
    assert tail[0..1] == VarintBytes(0x2a);
    ReadVarintOfEncoded(tail, 0, 0x2a);
    assert tail[1..10] == VarintBytes(MAX_INT - 10);
    ReadVarintOfEncoded(tail, 1, MAX_INT - 10);
  }

  lemma AsWrittenLongSkipPanics()
    ensures Unmarshal(AsWritten, LONG_SKIP, EMPTY) == Outcome(EMPTY, Some(Panic))
    ensures Unmarshal(Hardened, LONG_SKIP, EMPTY) == Outcome(EMPTY, Some(InvalidLength))
  {
    LongSkipLength();
    assert Skip(AsWritten, LONG_SKIP[2..]) == Ok(MAX_INT);
    assert Skip(Hardened, LONG_SKIP[2..]) == Ok(MAX_INT);
    assert DecodeField(AsWritten, LONG_SKIP, 0, EMPTY) == Next(EMPTY, 2);
    assert DecodeField(Hardened, LONG_SKIP, 0, EMPTY) == Next(EMPTY, 2);
  }
}
