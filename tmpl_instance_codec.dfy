/*
 * The generated methods of InstanceParam (tmpl_instance.pb.go) as
 * imperative code: Size, MarshalTo into a byte buffer, Marshal, and
 * Unmarshal, which assigns the fields of the receiver as it reads them.
 * Each is proved to compute the function of TmplInstance that specifies it.
 *
 * Go ranges over a map in an unspecified order; the methods that range
 * over AttributeBindings take that order as a parameter.
 */
module TmplInstanceCodec {
  import opened Common
  import opened ProtoWire
  import opened TmplInstance
  import TmplInstanceProofs

  /** dAtA[i] = b; i++ */
  method PutByte(data: array<Byte>, i: int, b: Byte) returns (next: int)
    requires 0 <= i < data.Length
    modifies data
    ensures next == i + 1
    ensures data[..next] == old(data[..i]) + [b]
  {
    data[i] := b;
    next := i + 1;
    assert data[..next] == data[..i] + [b];
  }

  /** i += copy(dAtA[i:], s), with room for all of s. */
  method CopyBytes(data: array<Byte>, i: int, s: Bytes) returns (next: int)
    requires 0 <= i && i + |s| <= data.Length
    modifies data
    ensures next == i + |s|
    ensures data[..next] == old(data[..i]) + s
  {
    var t := 0;
    while t < |s|
      invariant 0 <= t <= |s|
      invariant data[..i + t] == old(data[..i]) + s[..t]
    {
      data[i + t] := s[t];
      assert s[..t + 1] == s[..t] + [s[t]];
      t := t + 1;
    }
    next := i + |s|;
  }

  /** i = encodeVarintTmplInstance(dAtA, i, v) */
  method WriteVarint(data: array<Byte>, i: int, v: Uint64) returns (next: int)
    requires 0 <= i && i + VarintSize(v) <= data.Length
    modifies data
    ensures next == i + VarintSize(v)
    ensures data[..next] == old(data[..i]) + VarintBytes(v)
  {
    next := EncodeVarint(data, i, v);
    assert data[..next] == data[..i] + data[i..next];
  }

  /** A tag byte, the varint length of s, then s. */
  method WriteString(data: array<Byte>, i: int, tag: Byte, s: Bytes) returns (next: int)
    requires |s| <= MAX_LEN
    requires 0 <= i && i + 1 + VarintSize(|s|) + |s| <= data.Length
    modifies data
    ensures next == i + 1 + VarintSize(|s|) + |s|
    ensures data[..next] == old(data[..i]) + LengthDelimited(tag, s)
  {
    var j := PutByte(data, i, tag);
    j := WriteVarint(data, j, |s|);
    next := CopyBytes(data, j, s);
  }

  /** `if len(s) > 0 { ... }`: a string field is written only when it is not empty. */
  method WriteField(data: array<Byte>, i: int, tag: Byte, s: Bytes) returns (next: int)
    requires |s| <= MAX_LEN
    requires 0 <= i && i + StringSize(s) <= data.Length
    modifies data
    ensures next == i + StringSize(s)
    ensures data[..next] == old(data[..i]) + StringRecord(tag, s)
  {
    if |s| > 0 {
      next := WriteString(data, i, tag, s);
    } else {
      next := i;
    }
  }

  /** The five bytes of the map field's tag. */
  method WriteMapTag(data: array<Byte>, i: int) returns (next: int)
    requires 0 <= i && i + 5 <= data.Length
    modifies data
    ensures next == i + 5
    ensures data[..next] == old(data[..i]) + MAP_TAG
  {
    var j := PutByte(data, i, 0x82);
    j := PutByte(data, j, 0xd3);
    j := PutByte(data, j, 0xe4);
    j := PutByte(data, j, 0x93);
    next := PutByte(data, j, 0x02);
  }

  /** `1 + len(k) + sov(uint64(len(k))) + 1 + len(v) + sov(uint64(len(v)))` */
  method EntrySizeOf(k: Bytes, v: Bytes) returns (n: int)
    requires |k| <= MAX_LEN && |v| <= MAX_LEN
    ensures n == EntrySize(k, v) && n < TWO_64
  {
    var sk := Sov(|k|);
    var sv := Sov(|v|);
    VarintSizeBounds(|k|);
    VarintSizeBounds(|v|);
    n := 1 + |k| + sk + 1 + |v| + sv;
  }

  /** `if l = len(s); l > 0 { n += 1 + l + sov(uint64(l)) }` */
  method StringFieldSize(s: Bytes) returns (n: int)
    requires |s| <= MAX_LEN
    ensures n == StringSize(s)
  {
    n := 0;
    var l := |s|;
    if l > 0 {
      var sl := Sov(l);
      n := 1 + l + sl;
    }
  }

  /** One map entry: the five tag bytes, mapSize, the key record and the value record. */
  method WriteEntry(data: array<Byte>, i: int, k: Bytes, v: Bytes) returns (next: int)
    requires |k| <= MAX_LEN && |v| <= MAX_LEN
    requires 0 <= i && i + EntrySize(k, v) + 5 + VarintSize(EntrySize(k, v)) <= data.Length
    modifies data
    ensures next == i + EntrySize(k, v) + 5 + VarintSize(EntrySize(k, v))
    ensures data[..next] == old(data[..i]) + EntryRecord(k, v)
  {
    var j := WriteMapTag(data, i);
    var mapSize := EntrySizeOf(k, v);
    j := WriteVarint(data, j, mapSize);
    j := WriteString(data, j, TAG_KEY, k);
    next := WriteString(data, j, TAG_VALUE, v);
  }

  lemma EntriesStep(b: map<Bytes, Bytes>, order: seq<Bytes>, t: int)
    requires 0 <= t < |order|
    requires forall k :: k in order ==> k in b
    ensures EntriesBytes(b, order[t..]) == EntryRecord(order[t], b[order[t]]) + EntriesBytes(b, order[t + 1..])
  {
    assert order[t..][1..] == order[t + 1..];
  }

  lemma Rebracket(x: Bytes, before: Bytes, record: Bytes, rest: Bytes, w: Bytes)
    requires x == before + record && before + (record + rest) == w
    ensures x + rest == w
  {
    assert before + record + rest == before + (record + rest);
  }

  /** The loop of MarshalTo over the map, visiting the keys in `order`. */
  method WriteEntries(data: array<Byte>, i: int, b: map<Bytes, Bytes>, order: seq<Bytes>) returns (next: int)
    requires forall k :: k in order ==> k in b
    requires forall k :: k in b ==> |k| <= MAX_LEN && |b[k]| <= MAX_LEN
    requires 0 <= i && i + EntriesSize(b, order) <= data.Length
    modifies data
    ensures next == i + EntriesSize(b, order)
    ensures data[..next] == old(data[..i]) + EntriesBytes(b, order)
  {
    TmplInstanceProofs.EntriesBytesLength(b, order);
    ghost var written := data[..i];
    next := i;
    var t := 0;
    while t < |order|
      invariant 0 <= t <= |order|
      invariant i <= next && next + |EntriesBytes(b, order[t..])| == i + EntriesSize(b, order)
      invariant data[..next] + EntriesBytes(b, order[t..]) == written + EntriesBytes(b, order)
    {
      var k := order[t];
      ghost var record := EntryRecord(k, b[k]);
      ghost var rest := EntriesBytes(b, order[t + 1..]);
      EntriesStep(b, order, t);
      TmplInstanceProofs.EntryRecordLength(k, b[k]);
      ghost var before := data[..next];
      next := WriteEntry(data, next, k, b[k]);
      Rebracket(data[..next], before, record, rest, written + EntriesBytes(b, order));
      t := t + 1;
    }
  }

  // ---------------------------------------------------------------------
  // Unmarshal and skipTmplInstance

  /** A length prefix at i and the `< 0` and `> l` tests on it. */
  method ReadLengthAt(checks: Checks, data: Bytes, i: int) returns (r: Decoded<Span>)
    requires |data| <= MAX_LEN
    ensures r == ReadLength(checks, data, i)
  {
    var length := ReadVarintAt(data, i);
    if length.Err? {
      return Err(length.error);
    }
    ReadVarintAdvances(data, i);
    var n := ToInt(length.value.value);
    if n < 0 {
      return Err(InvalidLength);
    }
    var post := WrapInt(length.value.next + n);
    if checks.Hardened? && post < 0 {
      return Err(InvalidLength);
    }
    if post > |data| {
      return Err(UnexpectedEOF);
    }
    return Ok(Span(length.value.next, post));
  }

  /** skipTmplInstance(data): the length of the first field of data. */
  method SkipField(checks: Checks, data: Bytes) returns (r: Decoded<int>)
    requires 0 < |data| <= MAX_LEN
    ensures r == Skip(checks, data)
    decreases |data|, 1
  {
    var tag := ReadVarintAt(data, 0);
    if tag.Err? {
      return Err(tag.error);
    }
    ReadVarintAdvances(data, 0);
    var i := tag.value.next;
    var wireType := tag.value.value % 8;
    if wireType == 0 {
      var v := ReadVarintAt(data, i);
      if v.Err? {
        return Err(v.error);
      }
      return Ok(v.value.next);
    } else if wireType == 1 {
      return Ok(i + 8);
    } else if wireType == 2 {
      var length := ReadVarintAt(data, i);
      if length.Err? {
        return Err(length.error);
      }
      ReadVarintAdvances(data, i);
      var n := ToInt(length.value.value);
      var next := WrapInt(length.value.next + n);
      if n < 0 {
        return Err(InvalidLength);
      }
      if checks.Hardened? && next < 0 {
        return Err(InvalidLength);
      }
      return Ok(next);
    } else if wireType == 3 {
      r := SkipGroupAt(checks, data, i);
    } else if wireType == 4 {
      return Ok(i);
    } else if wireType == 5 {
      return Ok(i + 4);
    } else {
      return Err(IllegalWireType);
    }
  }

  /** The loop of wire type 3: skip fields from `from` up to and including the end-group tag. */
  method SkipGroupAt(checks: Checks, data: Bytes, from: int) returns (r: Decoded<int>)
    requires 1 <= from && |data| <= MAX_LEN
    ensures r == SkipGroup(checks, data, from)
    decreases |data|, 0
  {
    var start := from;
    while true
      invariant 1 <= start
      invariant SkipGroup(checks, data, start) == SkipGroup(checks, data, from)
      decreases |data| - start
    {
      var innerWire := ReadVarintAt(data, start);
      if innerWire.Err? {
        return Err(innerWire.error);
      }
      ReadVarintAdvances(data, start);
      if innerWire.value.value % 8 == 4 {
        return Ok(innerWire.value.next);
      }
      var next := SkipField(checks, data[start..]);
      if next.Err? {
        return Err(next.error);
      }
      var i := GroupNext(checks, start, next.value);
      if i < 0 {
        return Err(if checks.Hardened? then InvalidLength else Panic);
      }
      if i >= |data| {
        return Err(UnexpectedEOF);
      }
      start := i;
    }
  }

  /** The loop over the fields of one map entry, between from and postIndex. */
  method DecodeEntryAt(checks: Checks, data: Bytes, from: int, post: int) returns (r: Decoded<(Bytes, Bytes)>)
    requires 0 <= from && |data| <= MAX_LEN
    ensures r == DecodeEntry(checks, data, from, post, [], [])
  {
    var mapkey: Bytes := [];
    var mapvalue: Bytes := [];
    var i := from;
    while i < post
      invariant 0 <= i
      invariant DecodeEntry(checks, data, i, post, mapkey, mapvalue) == DecodeEntry(checks, data, from, post, [], [])
      decreases post - i
    {
      var wire := ReadVarintAt(data, i);
      if wire.Err? {
        return Err(wire.error);
      }
      ReadVarintAdvances(data, i);
      var fieldNum := ToInt32(wire.value.value / 8);
      if fieldNum == 1 || fieldNum == 2 {
        var sp := ReadLengthAt(checks, data, wire.value.next);
        if sp.Err? {
          return Err(sp.error);
        }
        if sp.value.end < sp.value.start {
          return Err(Panic);
        }
        if fieldNum == 1 {
          mapkey := data[sp.value.start..sp.value.end];
        } else {
          mapvalue := data[sp.value.start..sp.value.end];
        }
        i := sp.value.end;
      } else {
        var skippy := SkipField(checks, data[i..]);
        if skippy.Err? {
          return Err(skippy.error);
        }
        if skippy.value < 0 {
          return Err(InvalidLength);
        }
        var next := WrapInt(i + skippy.value);
        if checks.Hardened? && next < 0 {
          return Err(InvalidLength);
        }
        if next > post {
          return Err(UnexpectedEOF);
        }
        if next < 0 {
          return Err(Panic);
        }
        i := next;
      }
    }
    return Ok((mapkey, mapvalue));
  }

  class InstanceParam {
    var int64Primitive: Bytes
    var boolPrimitive: Bytes
    var doublePrimitive: Bytes
    var stringPrimitive: Bytes
    var attributeBindings: map<Bytes, Bytes>

    /** The message the object holds. */
    function Value(): Msg
      reads this
    {
      Msg(int64Primitive, boolPrimitive, doublePrimitive, stringPrimitive, attributeBindings)
    }

    /** &InstanceParam{} */
    constructor ()
      ensures Value() == EMPTY
    {
      int64Primitive := [];
      boolPrimitive := [];
      doublePrimitive := [];
      stringPrimitive := [];
      attributeBindings := map[];
    }

    /** The encoded size, with the map visited in `order`. */
    method Size(order: seq<Bytes>) returns (n: int)
      requires Bounded(Value()) && IsOrder(order, attributeBindings)
      ensures n == SizeOf(Value(), order)
    {
      var a := StringFieldSize(int64Primitive);
      var b := StringFieldSize(boolPrimitive);
      var c := StringFieldSize(doublePrimitive);
      var d := StringFieldSize(stringPrimitive);
      n := a + b + c + d;
      var bindings := attributeBindings;
      var t := 0;
      while t < |order|
        invariant 0 <= t <= |order|
        invariant n + EntriesSize(bindings, order[t..]) == SizeOf(Value(), order)
      {
        var k := order[t];
        var mapEntrySize := EntrySizeOf(k, bindings[k]);
        var s := Sov(mapEntrySize);
        n := n + mapEntrySize + 5 + s;
        assert order[t..][1..] == order[t + 1..];
        t := t + 1;
      }
    }

    /** The string fields, in field order, from the start of the buffer. */
    method MarshalFields(data: array<Byte>) returns (i: int)
      requires Bounded(Value())
      requires |FieldsBytes(Value())| <= data.Length
      modifies data
      ensures i == |FieldsBytes(Value())|
      ensures data[..i] == FieldsBytes(Value())
    {
      TmplInstanceProofs.FieldsBytesLength(Value());
      ghost var f1 := StringRecord(TAG_INT64, int64Primitive);
      ghost var f2 := StringRecord(TAG_BOOL, boolPrimitive);
      ghost var f3 := StringRecord(TAG_DOUBLE, doublePrimitive);
      ghost var f4 := StringRecord(TAG_STRING, stringPrimitive);
      assert FieldsBytes(Value()) == f1 + f2 + f3 + f4;
      i := WriteField(data, 0, TAG_INT64, int64Primitive);
      assert data[..i] == f1;
      i := WriteField(data, i, TAG_BOOL, boolPrimitive);
      assert data[..i] == f1 + f2;
      i := WriteField(data, i, TAG_DOUBLE, doublePrimitive);
      assert data[..i] == f1 + f2 + f3;
      i := WriteField(data, i, TAG_STRING, stringPrimitive);
    }

    /** MarshalTo into a buffer with room for the encoding; returns the number of bytes written. */
    method MarshalTo(data: array<Byte>, order: seq<Bytes>) returns (n: int)
      requires Bounded(Value()) && IsOrder(order, attributeBindings)
      requires SizeOf(Value(), order) <= data.Length
      modifies data
      ensures n == SizeOf(Value(), order)
      ensures data[..n] == Encode(Value(), order)
    {
      TmplInstanceProofs.EncodeLength(Value(), order);
      TmplInstanceProofs.FieldsBytesLength(Value());
      TmplInstanceProofs.EntriesBytesLength(attributeBindings, order);
      var i := MarshalFields(data);
      n := WriteEntries(data, i, attributeBindings, order);
    }

    /**
     * Marshal: Size, a buffer of that many bytes, MarshalTo into it. Size
     * and MarshalTo each range over the map, possibly in different orders.
     */
    method Marshal(sizeOrder: seq<Bytes>, writeOrder: seq<Bytes>) returns (r: Bytes)
      requires Bounded(Value())
      requires IsOrder(sizeOrder, attributeBindings) && IsOrder(writeOrder, attributeBindings)
      ensures r == Encode(Value(), writeOrder)
      ensures |r| == SizeOf(Value(), sizeOrder)
    {
      var size := Size(sizeOrder);
      var data := new Byte[size](_ => 0);
      TmplInstanceProofs.SizeOrderFree(Value(), sizeOrder, writeOrder);
      var n := MarshalTo(data, writeOrder);
      r := data[..n];
    }
      /**
     * One iteration of Unmarshal's field loop at the tag at index i: the
     * field read is assigned into the receiver, and `next` is where the
     * following field starts.
     */
    method DecodeFieldAt(checks: Checks, data: Bytes, i: nat) returns (next: int, err: Option<DecodeError>)
      requires i < |data| <= MAX_LEN
      modifies this
      ensures Value() == DecodeField(checks, data, i, old(Value())).msg
      ensures DecodeField(checks, data, i, old(Value())).Next? ==> err == None && next == DecodeField(checks, data, i, old(Value())).next
      ensures DecodeField(checks, data, i, old(Value())).Stop? ==> err == Some(DecodeField(checks, data, i, old(Value())).error)
    {
      var tag := ReadVarintAt(data, i);
      if tag.Err? {
        return 0, Some(tag.error);
      }
      ReadVarintAdvances(data, i);
      var wire := tag.value.value;
      var fieldNum := ToInt32(wire / 8);
      var wireType := wire % 8;
      if wireType == 4 {
        return 0, Some(EndGroupForNonGroup);
      }
      if fieldNum <= 0 {
        return 0, Some(IllegalTag);
      }
      if fieldNum <= 4 {
        if wireType != 2 {
          return 0, Some(WrongWireType(fieldNum));
        }
        var sp := ReadLengthAt(checks, data, tag.value.next);
        if sp.Err? {
          return 0, Some(sp.error);
        }
        if sp.value.end < sp.value.start {
          return 0, Some(Panic);
        }
        var s := data[sp.value.start..sp.value.end];
        if fieldNum == 1 {
          int64Primitive := s;
        } else if fieldNum == 2 {
          boolPrimitive := s;
        } else if fieldNum == 3 {
          doublePrimitive := s;
        } else {
          stringPrimitive := s;
        }
        return sp.value.end, None;
      }
      if fieldNum == ATTRIBUTE_BINDINGS {
        if wireType != 2 {
          return 0, Some(WrongWireType(fieldNum));
        }
        var sp := ReadLengthAt(checks, data, tag.value.next);
        if sp.Err? {
          return 0, Some(sp.error);
        }
        var kv := DecodeEntryAt(checks, data, sp.value.start, sp.value.end);
        if kv.Err? {
          return 0, Some(kv.error);
        }
        attributeBindings := attributeBindings[kv.value.0 := kv.value.1];
        if sp.value.end < 0 {
          return 0, Some(Panic);
        }
        return sp.value.end, None;
      }
      var skippy := SkipField(checks, data[i..]);
      if skippy.Err? {
        return 0, Some(skippy.error);
      }
      if skippy.value < 0 {
        return 0, Some(InvalidLength);
      }
      var after := WrapInt(i + skippy.value);
      if checks.Hardened? && after < 0 {
        return 0, Some(InvalidLength);
      }
      if after > |data| {
        return 0, Some(UnexpectedEOF);
      }
      if after < 0 {
        return 0, Some(Panic);
      }
      return after, None;
    }

    /**
     * (*InstanceParam).Unmarshal: decodes data into the receiver, field by
     * field, and returns the first error. What was assigned before the
     * error stays assigned.
     */
    method Unmarshal(checks: Checks, data: Bytes) returns (err: Option<DecodeError>)
      requires |data| <= MAX_LEN
      modifies this
      ensures Outcome(Value(), err) == TmplInstance.Unmarshal(checks, data, old(Value()))
    {
      var i: nat := 0;
      while i < |data|
        invariant i <= |data|
        invariant DecodeFrom(checks, data, i, Value()) == DecodeFrom(checks, data, 0, old(Value()))
        decreases |data| - i
      {
        var next, e := DecodeFieldAt(checks, data, i);
        if e.Some? {
          return e;
        }
        i := next;
      }
      return None;
    }
  }
}
