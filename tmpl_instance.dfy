/*
 * The wire format of the spy adapter's `InstanceParam` message
 * (mixer/test/spyAdapter/template/apa/tmpl_instance.pb.go): four proto3
 * string fields (numbers 1 to 4) and a map<string, string> under field
 * number 72295728.
 *
 * This module gives the format as functions: the bytes MarshalTo writes
 * (Encode), the count Size returns (SizeOf), and the effect of Unmarshal
 * and skipTmplInstance on a message (DecodeFrom, Skip). The imperative
 * versions live in TmplInstanceCodec and are proved equal to these.
 */
module TmplInstance {
  import opened Common
  import opened ProtoWire

  const ATTRIBUTE_BINDINGS: int := 72295728

  /** The one-byte tags of fields 1 to 4 (field << 3 | wire type 2). */
  const TAG_INT64: Byte := 0x0a
  const TAG_BOOL: Byte := 0x12
  const TAG_DOUBLE: Byte := 0x1a
  const TAG_STRING: Byte := 0x22

  /** The five-byte tag of a map entry: field 72295728, wire type 2. */
  const MAP_TAG: Bytes := [0x82, 0xd3, 0xe4, 0x93, 0x02]

  /** Inside a map entry: key is field 1, value is field 2, both length-delimited. */
  const TAG_KEY: Byte := 0x0a
  const TAG_VALUE: Byte := 0x12

  /** A Go string is a sequence of bytes; a nil map and an empty map are the same here. */
  datatype Msg = Msg(
    int64Primitive: Bytes,
    boolPrimitive: Bytes,
    doublePrimitive: Bytes,
    stringPrimitive: Bytes,
    attributeBindings: map<Bytes, Bytes>)

  /**
   * Every string of the message within MAX_LEN bytes, the model's bound on
   * a slice; the size of one map entry then fits in a uint64.
   */
  ghost predicate Bounded(m: Msg)
  {
    && |m.int64Primitive| <= MAX_LEN && |m.boolPrimitive| <= MAX_LEN
    && |m.doublePrimitive| <= MAX_LEN && |m.stringPrimitive| <= MAX_LEN
    && forall k :: k in m.attributeBindings ==> |k| <= MAX_LEN && |m.attributeBindings[k]| <= MAX_LEN
  }

  /** The zero value InstanceParam{}. */
  const EMPTY: Msg := Msg([], [], [], [], map[])

  function FieldOf(m: Msg, f: int): Bytes
    requires 1 <= f <= 4
  {
    if f == 1 then m.int64Primitive
    else if f == 2 then m.boolPrimitive
    else if f == 3 then m.doublePrimitive
    else m.stringPrimitive
  }

  function SetField(m: Msg, f: int, s: Bytes): (r: Msg)
    requires 1 <= f <= 4
    ensures FieldOf(r, f) == s
    ensures forall g :: 1 <= g <= 4 && g != f ==> FieldOf(r, g) == FieldOf(m, g)
    ensures r.attributeBindings == m.attributeBindings
  {
    if f == 1 then m.(int64Primitive := s)
    else if f == 2 then m.(boolPrimitive := s)
    else if f == 3 then m.(doublePrimitive := s)
    else m.(stringPrimitive := s)
  }

  /** m.AttributeBindings[k] = v. */
  function Assign(m: Msg, k: Bytes, v: Bytes): Msg
  {
    m.(attributeBindings := m.attributeBindings[k := v])
  }

  /**
   * Go iterates over a map in an unspecified order; `order` is that order:
   * every key of the map exactly once.
   */
  ghost predicate IsOrder(order: seq<Bytes>, b: map<Bytes, Bytes>)
  {
    && (forall i, j :: 0 <= i < j < |order| ==> order[i] != order[j])
    && (forall k :: k in b <==> k in order)
  }

  // ---------------------------------------------------------------------
  // Marshal

  /** A length-delimited record: tag, varint length, bytes. */
  function LengthDelimited(tag: Byte, s: Bytes): Bytes
  {
    [tag] + VarintBytes(|s|) + s
  }

  /** A string field of the message: nothing when empty, else a length-delimited record. */
  function StringRecord(tag: Byte, s: Bytes): Bytes
  {
    if |s| > 0 then LengthDelimited(tag, s) else []
  }

  /** mapSize / mapEntrySize: the length of the embedded entry message. */
  function EntrySize(k: Bytes, v: Bytes): nat
  {
    1 + |k| + VarintSize(|k|) + 1 + |v| + VarintSize(|v|)
  }

  function EntryRecord(k: Bytes, v: Bytes): Bytes
  {
    MAP_TAG + VarintBytes(EntrySize(k, v)) + LengthDelimited(TAG_KEY, k) + LengthDelimited(TAG_VALUE, v)
  }

  function EntriesBytes(b: map<Bytes, Bytes>, order: seq<Bytes>): Bytes
    requires forall k :: k in order ==> k in b
  {
    if order == [] then [] else EntryRecord(order[0], b[order[0]]) + EntriesBytes(b, order[1..])
  }

  function FieldsBytes(m: Msg): Bytes
  {
    StringRecord(TAG_INT64, m.int64Primitive)
      + StringRecord(TAG_BOOL, m.boolPrimitive)
      + StringRecord(TAG_DOUBLE, m.doublePrimitive)
      + StringRecord(TAG_STRING, m.stringPrimitive)
  }

  /** What MarshalTo writes when it visits the map keys in `order`. */
  function Encode(m: Msg, order: seq<Bytes>): Bytes
    requires forall k :: k in order ==> k in m.attributeBindings
  {
    FieldsBytes(m) + EntriesBytes(m.attributeBindings, order)
  }

  // ---------------------------------------------------------------------
  // Size

  function StringSize(s: Bytes): nat
  {
    if |s| > 0 then 1 + |s| + VarintSize(|s|) else 0
  }

  function EntriesSize(b: map<Bytes, Bytes>, order: seq<Bytes>): nat
    requires forall k :: k in order ==> k in b
  {
    if order == [] then 0
    else
      var n := EntrySize(order[0], b[order[0]]);
      n + 5 + VarintSize(n) + EntriesSize(b, order[1..])
  }

  /** What Size returns when it visits the map keys in `order`. */
  function SizeOf(m: Msg, order: seq<Bytes>): nat
    requires forall k :: k in order ==> k in m.attributeBindings
  {
    StringSize(m.int64Primitive) + StringSize(m.boolPrimitive)
      + StringSize(m.doublePrimitive) + StringSize(m.stringPrimitive)
      + EntriesSize(m.attributeBindings, order)
  }

  // ---------------------------------------------------------------------
  // Unmarshal

  /**
   * The index checks of the decoder. AsWritten is the generated code: a
   * length or skip count near 2^63 makes `iNdEx + n` wrap to a negative
   * int, which passes the `> l` guards and then indexes the slice out of
   * range. Hardened adds the missing `< 0` checks and reports
   * ErrInvalidLengthTmplInstance instead.
   */
  datatype Checks = AsWritten | Hardened

  /** The bounds [start, end) of a length-delimited payload. */
  datatype Span = Span(start: int, end: int)

  /** One iteration of the field loop: go on at `next`, or stop with an error. */
  datatype Step = Next(msg: Msg, next: int) | Stop(msg: Msg, error: DecodeError)

  /** The message Unmarshal leaves behind and the error it returns, if any. */
  datatype Outcome = Outcome(msg: Msg, error: Option<DecodeError>)

  /**
   * A varint length at i, then `intStringLen < 0` and `postIndex > l`
   * (postIndex computed in Go's int).
   */
  function ReadLength(checks: Checks, data: Bytes, i: int): (r: Decoded<Span>)
    requires |data| <= MAX_LEN
    ensures r.Ok? ==> 0 <= i < r.value.start <= |data| && r.value.start <= i + 10
    ensures r.Ok? ==> r.value.end <= |data|
    ensures r.Ok? ==> r.value.start <= r.value.end || (checks.AsWritten? && r.value.end < 0)
  {
    match ReadVarint(data, i)
    case Err(e) => Err(e)
    case Ok(Read(u, j)) =>
      ReadVarintAdvances(data, i);
      var n := ToInt(u);
      if n < 0 then Err(InvalidLength)
      else
        var post := WrapInt(j + n);
        assert post >= j || post < 0;
        if checks.Hardened? && post < 0 then Err(InvalidLength)
        else if post > |data| then Err(UnexpectedEOF)
        else Ok(Span(j, post))
  }

  /**
   * skipTmplInstance(data): the length of the first field of data. Every
   * case of its loop returns, so it runs once; wire type 3 (start group)
   * skips nested fields until the matching end group.
   */
  function Skip(checks: Checks, data: Bytes): (r: Decoded<int>)
    requires 0 < |data| <= MAX_LEN
    ensures r.Ok? ==> -TWO_63 <= r.value < TWO_63
    ensures r.Ok? ==> r.value >= 1 || (checks.AsWritten? && r.value < 20 - TWO_63)
    decreases |data|, 1, 0
  {
    match ReadVarint(data, 0)
    case Err(e) => Err(e)
    case Ok(Read(wire, i)) =>
      ReadVarintAdvances(data, 0);
      var wireType := wire % 8;
      if wireType == 0 then
        match ReadVarint(data, i)
        case Err(e) => Err(e)
        case Ok(Read(_, j)) => ReadVarintAdvances(data, i); Ok(j)
      else if wireType == 1 then Ok(i + 8)
      else if wireType == 2 then SkipBytes(checks, data, i)
      else if wireType == 3 then SkipGroup(checks, data, i)
      else if wireType == 4 then Ok(i)
      else if wireType == 5 then Ok(i + 4)
      else Err(IllegalWireType)
  }

  /**
   * Wire type 2 in skipTmplInstance: a varint length at i, then
   * `iNdEx += length` in Go's int, and only then the `length < 0` test.
   */
  function SkipBytes(checks: Checks, data: Bytes, i: int): (r: Decoded<int>)
    requires 0 < i <= 10 && |data| <= MAX_LEN
    ensures r.Ok? ==> -TWO_63 <= r.value < TWO_63
    ensures r.Ok? ==> r.value >= 1 || (checks.AsWritten? && r.value < 20 - TWO_63)
  {
    match ReadVarint(data, i)
    case Err(e) => Err(e)
    case Ok(Read(u, j)) =>
      ReadVarintAdvances(data, i);
      var length := ToInt(u);
      var next := WrapInt(j + length);
      assert length >= 0 ==> next >= 1 || next < 20 - TWO_63;
      if length < 0 then Err(InvalidLength)
      else if checks.Hardened? && next < 0 then Err(InvalidLength)
      else Ok(next)
  }

  /**
   * The loop of wire type 3: from index i, skip one field at a time until an
   * end-group tag, and return the index after it.
   */
  function SkipGroup(checks: Checks, data: Bytes, i: int): (r: Decoded<int>)
    requires 1 <= i && |data| <= MAX_LEN
    ensures r.Ok? ==> 2 <= r.value <= |data|
    decreases |data|, 0, |data| - i
  {
    var tag := ReadVarint(data, i);
    if tag.Err? then Err(tag.error)
    else if tag.value.value % 8 == 4 then
      ReadVarintAdvances(data, i);
      Ok(tag.value.next)
    else
      ReadVarintAdvances(data, i);
      var skipped := Skip(checks, data[i..]);
      if skipped.Err? then Err(skipped.error)
      else
        var i' := GroupNext(checks, i, skipped.value);
        if i' < 0 then Err(if checks.Hardened? then InvalidLength else Panic)
        else if i' >= |data| then Err(UnexpectedEOF)
        else SkipGroup(checks, data, i')
  }

  /**
   * `iNdEx = start + next` in the group loop, in Go's int; a negative index
   * is reported by the hardened decoder and panics at the next read as
   * written.
   */
  function GroupNext(checks: Checks, start: int, next: int): (r: int)
    requires 1 <= start < MAX_LEN && -TWO_63 <= next < TWO_63
    requires next >= 1 || (checks.AsWritten? && next < 20 - TWO_63)
    ensures r >= 0 ==> r == start + next && r > start
  {
    WrapInt(start + next)
  }

  /**
   * The loop over the fields of one map entry, between i and postIndex:
   * field 1 is the key, field 2 the value, anything else is skipped. Only
   * the varint and string reads are checked against the end of the input,
   * not against postIndex.
   */
  function DecodeEntry(checks: Checks, data: Bytes, i: int, post: int, key: Bytes, value: Bytes)
    : (r: Decoded<(Bytes, Bytes)>)
    requires 0 <= i && |data| <= MAX_LEN
    decreases post - i
  {
    if i >= post then Ok((key, value))
    else
      match ReadVarint(data, i)
      case Err(e) => Err(e)
      case Ok(Read(wire, j)) =>
        ReadVarintAdvances(data, i);
        var fieldNum := ToInt32(wire / 8);
        if fieldNum == 1 || fieldNum == 2 then
          match ReadLength(checks, data, j)
          case Err(e) => Err(e)
          case Ok(sp) =>
            // dAtA[iNdEx:postStringIndex] with postStringIndex < iNdEx
            if sp.end < sp.start then Err(Panic)
            else if fieldNum == 1 then DecodeEntry(checks, data, sp.end, post, data[sp.start..sp.end], value)
            else DecodeEntry(checks, data, sp.end, post, key, data[sp.start..sp.end])
        else
          match Skip(checks, data[i..])
          case Err(e) => Err(e)
          case Ok(skippy) =>
            if skippy < 0 then Err(InvalidLength)
            else
              var next := WrapInt(i + skippy);
              assert next >= 0 ==> next > i;
              if checks.Hardened? && next < 0 then Err(InvalidLength)
              else if next > post then Err(UnexpectedEOF)
              // the next iteration would read dAtA[next] at a negative index
              else if next < 0 then Err(Panic)
              else DecodeEntry(checks, data, next, post, key, value)
  }

  /** One iteration of Unmarshal's field loop, starting at the tag at index i. */
  function DecodeField(checks: Checks, data: Bytes, i: nat, m: Msg): (r: Step)
    requires i < |data| <= MAX_LEN
    ensures r.Next? ==> i < r.next <= |data|
  {
    match ReadVarint(data, i)
    case Err(e) => Stop(m, e)
    case Ok(Read(wire, j)) =>
      ReadVarintAdvances(data, i);
      var fieldNum := ToInt32(wire / 8);
      var wireType := wire % 8;
      if wireType == 4 then Stop(m, EndGroupForNonGroup)
      else if fieldNum <= 0 then Stop(m, IllegalTag)
      else if fieldNum <= 4 then
        if wireType != 2 then Stop(m, WrongWireType(fieldNum))
        else
          match ReadLength(checks, data, j)
          case Err(e) => Stop(m, e)
          case Ok(sp) =>
            // string(dAtA[iNdEx:postIndex]) with postIndex < iNdEx
            if sp.end < sp.start then Stop(m, Panic)
            else Next(SetField(m, fieldNum, data[sp.start..sp.end]), sp.end)
      else if fieldNum == ATTRIBUTE_BINDINGS then
        if wireType != 2 then Stop(m, WrongWireType(fieldNum))
        else
          match ReadLength(checks, data, j)
          case Err(e) => Stop(m, e)
          case Ok(sp) =>
            match DecodeEntry(checks, data, sp.start, sp.end, [], [])
            case Err(e) => Stop(m, e)
            case Ok(kv) =>
              var m' := Assign(m, kv.0, kv.1);
              // iNdEx = postIndex < 0: the next iteration indexes dAtA at a negative position
              if sp.end < 0 then Stop(m', Panic) else Next(m', sp.end)
      else
        match Skip(checks, data[i..])
        case Err(e) => Stop(m, e)
        case Ok(skippy) =>
          if skippy < 0 then Stop(m, InvalidLength)
          else
            var next := WrapInt(i + skippy);
            assert next >= 0 ==> next > i;
            if checks.Hardened? && next < 0 then Stop(m, InvalidLength)
            else if next > |data| then Stop(m, UnexpectedEOF)
            // the next iteration would read dAtA[next] at a negative index
            else if next < 0 then Stop(m, Panic)
            else Next(m, next)
  }

  /**
   * Unmarshal from index i into m. Fields are assigned in place as they are
   * read, so on an error the message keeps what was decoded before it. The
   * source's final `iNdEx > l` test cannot fire: every step stays within l.
   */
  function DecodeFrom(checks: Checks, data: Bytes, i: nat, m: Msg): Outcome
    requires i <= |data| <= MAX_LEN
    decreases |data| - i
  {
    if i == |data| then Outcome(m, None)
    else
      match DecodeField(checks, data, i, m)
      case Stop(m', e) => Outcome(m', Some(e))
      case Next(m', j) => DecodeFrom(checks, data, j, m')
  }

  /** Map entries decoded in `order`, each assigned into a as it is read. */
  function ApplyEntries(a: map<Bytes, Bytes>, b: map<Bytes, Bytes>, order: seq<Bytes>): map<Bytes, Bytes>
    requires forall k :: k in order ==> k in b
    decreases |order|
  {
    if order == [] then a else ApplyEntries(a[order[0] := b[order[0]]], b, order[1..])
  }

  /**
   * What decoding m's encoding into p leaves: a string present in m
   * replaces p's, an empty one is not on the wire and keeps p's, and m's
   * map entries are added to p's.
   */
  function MergeInto(p: Msg, m: Msg): Msg
  {
    Msg(if |m.int64Primitive| > 0 then m.int64Primitive else p.int64Primitive,
        if |m.boolPrimitive| > 0 then m.boolPrimitive else p.boolPrimitive,
        if |m.doublePrimitive| > 0 then m.doublePrimitive else p.doublePrimitive,
        if |m.stringPrimitive| > 0 then m.stringPrimitive else p.stringPrimitive,
        p.attributeBindings + m.attributeBindings)
  }

  /** (*InstanceParam).Unmarshal(data) applied to m. */
  function Unmarshal(checks: Checks, data: Bytes, m: Msg): Outcome
    requires |data| <= MAX_LEN
  {
    DecodeFrom(checks, data, 0, m)
  }
}
