/*
 * Properties of the InstanceParam wire format: the size Size reports is
 * the length MarshalTo writes, whatever order the map is visited in, and
 * Unmarshal reads back what MarshalTo wrote.
 */
module TmplInstanceProofs {
  import opened Common
  import opened ProtoWire
  import opened TmplInstance

  // ---------------------------------------------------------------------
  // Sizes

  lemma LengthDelimitedLength(tag: Byte, s: Bytes)
    ensures |LengthDelimited(tag, s)| == 1 + VarintSize(|s|) + |s|
  {
  }

  lemma EntryRecordLength(k: Bytes, v: Bytes)
    ensures |EntryRecord(k, v)| == EntrySize(k, v) + 5 + VarintSize(EntrySize(k, v))
  {
    LengthDelimitedLength(TAG_KEY, k);
    LengthDelimitedLength(TAG_VALUE, v);
  }

  lemma {:induction false} EntriesBytesLength(b: map<Bytes, Bytes>, order: seq<Bytes>)
    requires forall k :: k in order ==> k in b
    ensures |EntriesBytes(b, order)| == EntriesSize(b, order)
    decreases |order|
  {
    if order != [] {
      EntryRecordLength(order[0], b[order[0]]);
      EntriesBytesLength(b, order[1..]);
    }
  }

  lemma FieldsBytesLength(m: Msg)
    ensures |FieldsBytes(m)| == StringSize(m.int64Primitive) + StringSize(m.boolPrimitive)
                                + StringSize(m.doublePrimitive) + StringSize(m.stringPrimitive)
  {
    LengthDelimitedLength(TAG_INT64, m.int64Primitive);
    LengthDelimitedLength(TAG_BOOL, m.boolPrimitive);
    LengthDelimitedLength(TAG_DOUBLE, m.doublePrimitive);
    LengthDelimitedLength(TAG_STRING, m.stringPrimitive);
  }

  /** MarshalTo writes exactly Size() bytes, when both visit the map in the same order. */
  lemma EncodeLength(m: Msg, order: seq<Bytes>)
    requires forall k :: k in order ==> k in m.attributeBindings
    ensures |Encode(m, order)| == SizeOf(m, order)
  {
    FieldsBytesLength(m);
    EntriesBytesLength(m.attributeBindings, order);
  }

  /** The cost of one map entry in Size. */
  function EntryCost(k: Bytes, v: Bytes): nat
  {
    EntrySize(k, v) + 5 + VarintSize(EntrySize(k, v))
  }

  /** The order without its element at index j. */
  function Without(order: seq<Bytes>, j: nat): seq<Bytes>
    requires j < |order|
  {
    order[..j] + order[j + 1..]
  }

  lemma {:induction false} EntriesSizeWithout(b: map<Bytes, Bytes>, order: seq<Bytes>, j: nat)
    requires forall k :: k in order ==> k in b
    requires j < |order|
    ensures EntriesSize(b, order) == EntryCost(order[j], b[order[j]]) + EntriesSize(b, Without(order, j))
    decreases j
  {
    if j > 0 {
      assert Without(order, j)[0] == order[0];
      assert Without(order, j)[1..] == Without(order[1..], j - 1);
      EntriesSizeWithout(b, order[1..], j - 1);
    } else {
      assert Without(order, 0) == order[1..];
    }
  }

  predicate Distinct(order: seq<Bytes>)
  {
    forall i, j :: 0 <= i < j < |order| ==> order[i] != order[j]
  }

  /** Removing one element of a repetition-free order removes exactly that key. */
  lemma WithoutMembers(order: seq<Bytes>, j: nat)
    requires j < |order| && Distinct(order)
    ensures Distinct(Without(order, j))
    ensures forall x :: x in Without(order, j) <==> x in order && x != order[j]
  {
    var rest := Without(order, j);
    forall p, q | 0 <= p < q < |rest|
      ensures rest[p] != rest[q]
    {
      var p' := if p < j then p else p + 1;
      var q' := if q < j then q else q + 1;
      assert rest[p] == order[p'] && rest[q] == order[q'];
    }
    forall x
      ensures x in rest <==> x in order && x != order[j]
    {
      if x in rest {
        var c :| 0 <= c < |rest| && rest[c] == x;
        var c' := if c < j then c else c + 1;
        assert order[c'] == x && c' != j;
      }
      if x in order && x != order[j] {
        var c :| 0 <= c < |order| && order[c] == x;
        if c < j { assert rest[c] == x; } else { assert rest[c - 1] == x; }
      }
    }
  }

  /**
   * Size visits the map in its own order and MarshalTo in another; every
   * order of the same keys gives the same total.
   */
  lemma {:induction false} EntriesSizeOrderFree(b: map<Bytes, Bytes>, o1: seq<Bytes>, o2: seq<Bytes>)
    requires forall k :: k in o1 ==> k in b
    requires Distinct(o1) && Distinct(o2)
    requires forall k :: k in o1 <==> k in o2
    ensures EntriesSize(b, o1) == EntriesSize(b, o2)
    decreases |o1|
  {
    if o1 != [] {
      var k := o1[0];
      assert k in o2;
      var j :| 0 <= j < |o2| && o2[j] == k;
      EntriesSizeWithout(b, o2, j);
      WithoutMembers(o2, j);
      WithoutMembers(o1, 0);
      assert Without(o1, 0) == o1[1..];
      EntriesSizeOrderFree(b, o1[1..], Without(o2, j));
    }
  }

  /** The size of a message does not depend on the order its map is visited in. */
  lemma SizeOrderFree(m: Msg, o1: seq<Bytes>, o2: seq<Bytes>)
    requires IsOrder(o1, m.attributeBindings) && IsOrder(o2, m.attributeBindings)
    ensures SizeOf(m, o1) == SizeOf(m, o2)
  {
    EntriesSizeOrderFree(m.attributeBindings, o1, o2);
  }

  // ---------------------------------------------------------------------
  // Reading records back

  /** A one-byte varint tag at index i. */
  lemma ReadTag(data: Bytes, i: nat, tag: Byte)
    requires tag < 128 && i < |data| && data[i] == tag
    ensures ReadVarint(data, i) == Ok(Read(tag, i + 1))
  {
    assert data[i..i + 1] == [tag] == VarintBytes(tag);
    ReadVarintOfEncoded(data, i, tag);
  }

  /**
   * A length-delimited record from index i up to j: its tag, then a length
   * that ReadLength accepts, spanning exactly the bytes of s.
   */
  lemma ReadRecord(checks: Checks, data: Bytes, i: nat, j: nat, tag: Byte, s: Bytes)
    requires tag < 128 && |data| <= MAX_LEN
    requires RecordAt(data, i, j, LengthDelimited(tag, s))
    ensures RecordReads(checks, data, i, j, tag, s)
  {
    SplitRecord(data, i, j, tag, VarintBytes(|s|), s, VarintSize(|s|));
    ReadTag(data, i, tag);
    ReadLengthOf(checks, data, i + 1, i + 1 + VarintSize(|s|), j, |s|);
  }

  /** The tag at i reads as tag, and the length after it spans the bytes of s, ending at j. */
  ghost predicate RecordReads(checks: Checks, data: Bytes, i: nat, j: nat, tag: Byte, s: Bytes)
  {
    && i + 1 + VarintSize(|s|) <= j <= |data| <= MAX_LEN
    && ReadVarint(data, i) == Ok(Read(tag, i + 1))
    && ReadLength(checks, data, i + 1) == Ok(Span(i + 1 + VarintSize(|s|), j))
    && data[i + 1 + VarintSize(|s|)..j] == s
  }

  /** A tag byte t, then b (n bytes long), then c, from i up to j. */
  lemma SplitRecord(data: Bytes, i: nat, j: nat, t: Byte, b: Bytes, c: Bytes, n: nat)
    requires n == |b| && j == i + 1 + n + |c| <= |data|
    requires data[i..j] == [t] + b + c
    ensures data[i] == t && data[i + 1..i + 1 + n] == b && data[i + 1 + n..j] == c
  {
    assert data[i] == data[i..j][0];
    assert ([t] + b + c)[1..1 + n] == b;
    assert ([t] + b + c)[1 + n..] == c;
    SubSlice(data, i, j, 1, 1 + n);
    SubSlice(data, i, j, 1 + n, j - i);
  }

  function FieldTag(f: int): Byte
    requires 1 <= f <= 4
  {
    f * 8 + 2
  }

  lemma FieldTags()
    ensures FieldTag(1) == TAG_INT64 && FieldTag(2) == TAG_BOOL
    ensures FieldTag(3) == TAG_DOUBLE && FieldTag(4) == TAG_STRING
  {
  }

  /** A record of string field f decodes to that field, and nothing else changes. */
  lemma DecodeStringField(checks: Checks, data: Bytes, i: nat, j: nat, p: Msg, f: int, s: Bytes)
    requires 1 <= f <= 4 && |data| <= MAX_LEN && |s| > 0
    requires RecordAt(data, i, j, StringRecord(FieldTag(f), s))
    ensures DecodeField(checks, data, i, p) == Next(SetField(p, f, s), j)
  {
    assert StringRecord(FieldTag(f), s) == LengthDelimited(FieldTag(f), s);
    ReadRecord(checks, data, i, j, FieldTag(f), s);
    StringFieldStep(checks, data, i, j, p, f, s);
  }

  /** One iteration of the field loop on a record of string field f whose tag and length read well. */
  lemma StringFieldStep(checks: Checks, data: Bytes, i: nat, j: nat, p: Msg, f: int, s: Bytes)
    requires 1 <= f <= 4 && i < |data|
    requires RecordReads(checks, data, i, j, FieldTag(f), s)
    ensures DecodeField(checks, data, i, p) == Next(SetField(p, f, s), j)
  {
    assert FieldTag(f) / 8 == f && FieldTag(f) % 8 == 2;
  }

  lemma {:induction false} MapTagBytes()
    ensures VarintBytes(ATTRIBUTE_BINDINGS * 8 + 2) == MAP_TAG
  {
    var x := ATTRIBUTE_BINDINGS * 8 + 2;
    assert x == 578365826;
    assert VarintBytes(2) == [2];
    assert VarintBytes(275) == [147] + VarintBytes(2);
    assert VarintBytes(35300) == [228] + VarintBytes(275);
    assert VarintBytes(4518483) == [211] + VarintBytes(35300);
    assert VarintBytes(578365826) == [130] + VarintBytes(4518483);
  }

  /** A key record (field 1) inside a map entry sets the key. */
  lemma DecodeEntryKey(checks: Checks, data: Bytes, i: nat, j: nat, post: int, key: Bytes, value: Bytes, s: Bytes)
    requires |data| <= MAX_LEN && i < post
    requires RecordAt(data, i, j, LengthDelimited(TAG_KEY, s))
    ensures DecodeEntry(checks, data, i, post, key, value) == DecodeEntry(checks, data, j, post, s, value)
  {
    ReadRecord(checks, data, i, j, TAG_KEY, s);
    EntryKeyStep(checks, data, i, j, post, key, value, s);
  }

  /** A value record (field 2) inside a map entry sets the value. */
  lemma DecodeEntryValue(checks: Checks, data: Bytes, i: nat, j: nat, post: int, key: Bytes, value: Bytes, s: Bytes)
    requires |data| <= MAX_LEN && i < post
    requires RecordAt(data, i, j, LengthDelimited(TAG_VALUE, s))
    ensures DecodeEntry(checks, data, i, post, key, value) == DecodeEntry(checks, data, j, post, key, s)
  {
    ReadRecord(checks, data, i, j, TAG_VALUE, s);
    EntryValueStep(checks, data, i, j, post, key, value, s);
  }

  /** One iteration of the entry loop on a key record whose tag and length read well. */
  lemma EntryKeyStep(checks: Checks, data: Bytes, i: nat, j: nat, post: int, key: Bytes, value: Bytes, s: Bytes)
    requires i < post
    requires RecordReads(checks, data, i, j, TAG_KEY, s)
    ensures DecodeEntry(checks, data, i, post, key, value) == DecodeEntry(checks, data, j, post, s, value)
  {
    assert ToInt32(TAG_KEY / 8) == 1;
  }

  /** One iteration of the entry loop on a value record whose tag and length read well. */
  lemma EntryValueStep(checks: Checks, data: Bytes, i: nat, j: nat, post: int, key: Bytes, value: Bytes, s: Bytes)
    requires i < post
    requires RecordReads(checks, data, i, j, TAG_VALUE, s)
    ensures DecodeEntry(checks, data, i, post, key, value) == DecodeEntry(checks, data, j, post, key, s)
  {
    assert ToInt32(TAG_VALUE / 8) == 2;
  }

  /** A whole map entry record decodes to one assignment in the map. */
  lemma DecodeMapEntry(checks: Checks, data: Bytes, i: nat, j: nat, p: Msg, k: Bytes, v: Bytes)
    requires |data| <= MAX_LEN
    requires RecordAt(data, i, j, EntryRecord(k, v))
    ensures DecodeField(checks, data, i, p) == Next(Assign(p, k, v), j)
  {
    var a := EntryRecordFacts(checks, data, i, j, k, v);
    DecodeFieldMap(checks, data, i, a, j, p, k, v);
  }

  /** A map entry record read field by field; a is where its body starts. */
  lemma EntryRecordFacts(checks: Checks, data: Bytes, i: nat, j: nat, k: Bytes, v: Bytes) returns (a: nat)
    requires |data| <= MAX_LEN
    requires RecordAt(data, i, j, EntryRecord(k, v))
    ensures MapEntryReads(checks, data, i, a, j, k, v)
  {
    a := i + 5 + VarintSize(EntrySize(k, v));
    var b := a + |LengthDelimited(TAG_KEY, k)|;
    EntryRecordParts(data, i, a, b, j, k, v);
    EntryRecordReads(checks, data, i, a, b, j, k, v);
  }

  /** The map tag at i, an entry length spanning a..j, and an entry that decodes to (k, v). */
  ghost predicate MapEntryReads(checks: Checks, data: Bytes, i: nat, a: nat, j: nat, k: Bytes, v: Bytes)
  {
    && i < |data| <= MAX_LEN
    && ReadVarint(data, i) == Ok(Read(ATTRIBUTE_BINDINGS * 8 + 2, i + 5))
    && ReadLength(checks, data, i + 5) == Ok(Span(a, j))
    && DecodeEntry(checks, data, a, j, [], []) == Ok((k, v))
  }

  /** What the field loop reads from a map entry record: its tag, its length and its key and value. */
  lemma EntryRecordReads(checks: Checks, data: Bytes, i: nat, a: nat, b: nat, j: nat, k: Bytes, v: Bytes)
    requires |data| <= MAX_LEN
    requires EntryParts(data, i, a, b, j, k, v)
    ensures MapEntryReads(checks, data, i, a, j, k, v)
  {
    MapTagRead(data, i);
    ReadLengthOf(checks, data, i + 5, a, j, EntrySize(k, v));
    DecodeEntryOf(checks, data, a, b, j, k, v);
  }

  /** The parts of the entry record of (k, v) at i: tag, entry length up to a, key record up to b, value record up to j. */
  ghost predicate EntryParts(data: Bytes, i: nat, a: nat, b: nat, j: nat, k: Bytes, v: Bytes)
  {
    && j == a + EntrySize(k, v)
    && RecordAt(data, i, i + 5, MAP_TAG)
    && RecordAt(data, i + 5, a, VarintBytes(EntrySize(k, v)))
    && RecordAt(data, a, b, LengthDelimited(TAG_KEY, k))
    && RecordAt(data, b, j, LengthDelimited(TAG_VALUE, v))
  }

  /** The parts of an entry record: the tag, the entry length, the key and value records. */
  lemma EntryRecordParts(data: Bytes, i: nat, a: nat, b: nat, j: nat, k: Bytes, v: Bytes)
    requires RecordAt(data, i, j, EntryRecord(k, v))
    requires a == i + 5 + VarintSize(EntrySize(k, v)) && b == a + |LengthDelimited(TAG_KEY, k)|
    ensures EntryParts(data, i, a, b, j, k, v)
  {
    var n := EntrySize(k, v);
    LengthDelimitedLength(TAG_KEY, k);
    LengthDelimitedLength(TAG_VALUE, v);
    EntryRecordLength(k, v);
    assert data[i..j] == MAP_TAG + VarintBytes(n) + LengthDelimited(TAG_KEY, k) + LengthDelimited(TAG_VALUE, v);
    SplitFour(data[i..j], MAP_TAG, VarintBytes(n), LengthDelimited(TAG_KEY, k), LengthDelimited(TAG_VALUE, v),
              5, a - i, b - i);
    SubSlice(data, i, j, 0, 5);
    SubSlice(data, i, j, 5, a - i);
    SubSlice(data, i, j, a - i, b - i);
    SubSlice(data, i, j, b - i, j - i);
  }

  /** The bytes of r, from index i up to j. */
  ghost predicate RecordAt(data: Bytes, i: nat, j: nat, r: Bytes)
  {
    j == i + |r| <= |data| && data[i..j] == r
  }

  /** A slice of a slice is a slice. */
  lemma SubSlice(data: Bytes, i: nat, j: nat, u: nat, w: nat)
    requires i <= j <= |data| && u <= w <= j - i
    ensures data[i..j][u..w] == data[i + u..i + w]
  {
    assert forall k :: 0 <= k < w - u ==> data[i..j][u..w][k] == data[i + u + k];
  }

  lemma SplitFour(x: Bytes, p: Bytes, q: Bytes, r: Bytes, t: Bytes, u: nat, w: nat, z: nat)
    requires x == p + q + r + t
    requires u == |p| && w == u + |q| && z == w + |r|
    ensures x[0..u] == p && x[u..w] == q && x[w..z] == r && x[z..|x|] == t
  {
    assert x[..u] == p;
    assert x[u..w] == q;
    assert x[w..z] == r;
    assert x[z..] == t;
  }

  /** The key and value records of one entry decode to that pair. */
  lemma DecodeEntryOf(checks: Checks, data: Bytes, a: nat, b: nat, post: nat, k: Bytes, v: Bytes)
    requires |data| <= MAX_LEN
    requires RecordAt(data, a, b, LengthDelimited(TAG_KEY, k))
    requires RecordAt(data, b, post, LengthDelimited(TAG_VALUE, v))
    ensures DecodeEntry(checks, data, a, post, [], []) == Ok((k, v))
  {
    DecodeEntryKey(checks, data, a, b, post, [], [], k);
    DecodeEntryValue(checks, data, b, post, post, k, [], v);
  }

  /** The five-byte tag of a map entry, read as a varint. */
  lemma MapTagRead(data: Bytes, i: nat)
    requires RecordAt(data, i, i + 5, MAP_TAG)
    ensures ReadVarint(data, i) == Ok(Read(ATTRIBUTE_BINDINGS * 8 + 2, i + 5))
  {
    MapTagBytes();
    ReadVarintOfEncoded(data, i, ATTRIBUTE_BINDINGS * 8 + 2);
  }

  /** A varint length n at index j, followed by at least n bytes. */
  lemma ReadLengthOf(checks: Checks, data: Bytes, j: nat, a: nat, e: nat, n: nat)
    requires |data| <= MAX_LEN && e == a + n <= |data|
    requires RecordAt(data, j, a, VarintBytes(n))
    ensures ReadLength(checks, data, j) == Ok(Span(a, e))
  {
    ReadVarintOfEncoded(data, j, n);
  }

  /** One iteration of the field loop on a map entry whose tag, length and fields read well. */
  lemma DecodeFieldMap(checks: Checks, data: Bytes, i: nat, a: nat, j: nat, p: Msg, k: Bytes, v: Bytes)
    requires MapEntryReads(checks, data, i, a, j, k, v)
    ensures DecodeField(checks, data, i, p) == Next(Assign(p, k, v), j)
  {
    assert (ATTRIBUTE_BINDINGS * 8 + 2) / 8 == ATTRIBUTE_BINDINGS;
    assert (ATTRIBUTE_BINDINGS * 8 + 2) % 8 == 2;
  }

  // ---------------------------------------------------------------------
  // Round trip

  lemma DecodeFromNext(checks: Checks, data: Bytes, i: nat, p: Msg, p': Msg, j: nat)
    requires i < |data| <= MAX_LEN
    requires DecodeField(checks, data, i, p) == Next(p', j)
    ensures j <= |data|
    ensures DecodeFrom(checks, data, i, p) == DecodeFrom(checks, data, j, p')
  {
  }

  lemma {:induction false} ApplyEntriesUnion(a: map<Bytes, Bytes>, b: map<Bytes, Bytes>, order: seq<Bytes>)
    requires forall k :: k in order ==> k in b
    ensures forall k :: k in ApplyEntries(a, b, order) <==> k in a || k in order
    ensures forall k :: k in order ==> ApplyEntries(a, b, order)[k] == b[k]
    ensures forall k :: k in a && k !in order ==> ApplyEntries(a, b, order)[k] == a[k]
    decreases |order|
  {
    if order != [] {
      ApplyEntriesUnion(a[order[0] := b[order[0]]], b, order[1..]);
      forall k | k in order
        ensures k == order[0] || k in order[1..]
      {
        var j :| 0 <= j < |order| && order[j] == k;
        if j > 0 { assert order[1..][j - 1] == k; }
      }
    }
  }

  /** Decoding map entries in any order of the map's keys adds exactly that map. */
  lemma ApplyEntriesOrder(a: map<Bytes, Bytes>, b: map<Bytes, Bytes>, order: seq<Bytes>)
    requires IsOrder(order, b)
    ensures ApplyEntries(a, b, order) == a + b
  {
    ApplyEntriesUnion(a, b, order);
  }

  lemma {:induction false} DecodeEntries(checks: Checks, data: Bytes, i: nat, p: Msg,
                                         b: map<Bytes, Bytes>, order: seq<Bytes>)
    requires forall k :: k in order ==> k in b
    requires |data| <= MAX_LEN
    requires TailAt(data, i, EntriesBytes(b, order))
    ensures DecodeFrom(checks, data, i, p)
         == Outcome(p.(attributeBindings := ApplyEntries(p.attributeBindings, b, order)), None)
    decreases |order|, 1
  {
    if order != [] {
      var j := i + |EntryRecord(order[0], b[order[0]])|;
      SplitTail(data, i, j, EntryRecord(order[0], b[order[0]]), EntriesBytes(b, order[1..]));
      DecodeEntriesStep(checks, data, i, j, p, b, order);
    }
  }

  /** One step of DecodeEntries: the first entry's record from i up to j, then the rest. */
  lemma {:induction false} DecodeEntriesStep(checks: Checks, data: Bytes, i: nat, j: nat, p: Msg,
                                             b: map<Bytes, Bytes>, order: seq<Bytes>)
    requires order != [] && forall k :: k in order ==> k in b
    requires |data| <= MAX_LEN
    requires RecordAt(data, i, j, EntryRecord(order[0], b[order[0]]))
    requires TailAt(data, j, EntriesBytes(b, order[1..]))
    ensures DecodeFrom(checks, data, i, p)
         == Outcome(p.(attributeBindings := ApplyEntries(p.attributeBindings, b, order)), None)
    decreases |order|, 0
  {
    var p' := Assign(p, order[0], b[order[0]]);
    DecodeMapEntry(checks, data, i, j, p, order[0], b[order[0]]);
    DecodeFromNext(checks, data, i, p, p', j);
    DecodeEntries(checks, data, j, p', b, order[1..]);
  }

  /**
   * A string field of the message: nothing on the wire when empty, one
   * record `rec` otherwise. Decoding it from index i moves p to q and the
   * index to j.
   */
  lemma DecodeOptionalField(checks: Checks, data: Bytes, i: nat, j: nat, p: Msg, q: Msg, f: int, s: Bytes)
    requires 1 <= f <= 4 && |data| <= MAX_LEN
    requires q == if |s| > 0 then SetField(p, f, s) else p
    requires RecordAt(data, i, j, StringRecord(FieldTag(f), s))
    ensures DecodeFrom(checks, data, i, p) == DecodeFrom(checks, data, j, q)
  {
    if |s| > 0 {
      DecodeStringField(checks, data, i, j, p, f, s);
      DecodeFromNext(checks, data, i, p, q, j);
    }
  }

  /** The string records of fields f..4, in field order. */
  function FieldsFrom(m: Msg, f: int): Bytes
    requires 1 <= f <= 5
    decreases 5 - f
  {
    if f == 5 then [] else StringRecord(FieldTag(f), FieldOf(m, f)) + FieldsFrom(m, f + 1)
  }

  /** p after the strings of fields f..4 present in m have been decoded into it. */
  function MergeFrom(p: Msg, m: Msg, f: int): Msg
    requires 1 <= f <= 5
    decreases 5 - f
  {
    if f == 5 then p
    else MergeFrom(if |FieldOf(m, f)| > 0 then SetField(p, f, FieldOf(m, f)) else p, m, f + 1)
  }

  lemma FieldsFromAll(m: Msg)
    ensures FieldsBytes(m) == FieldsFrom(m, 1)
  {
    FieldTags();
    assert FieldsFrom(m, 4) == StringRecord(TAG_STRING, m.stringPrimitive) + [];
  }

  lemma MergeFromAll(p: Msg, m: Msg, b: map<Bytes, Bytes>)
    requires b == p.attributeBindings + m.attributeBindings
    ensures MergeFrom(p, m, 1).(attributeBindings := b) == MergeInto(p, m)
  {
  }

  lemma MergeFromKeepsMap(p: Msg, m: Msg, f: int)
    requires 1 <= f <= 5
    ensures MergeFrom(p, m, f).attributeBindings == p.attributeBindings
    decreases 5 - f
  {
    if f < 5 {
      MergeFromKeepsMap(if |FieldOf(m, f)| > 0 then SetField(p, f, FieldOf(m, f)) else p, m, f + 1);
    }
  }

  /** What decoding the records of fields f..4 and the map entries of m leaves, from p. */
  function FieldsOutcome(p: Msg, m: Msg, f: int, order: seq<Bytes>): Outcome
    requires 1 <= f <= 5 && forall k :: k in order ==> k in m.attributeBindings
  {
    Outcome(MergeFrom(p, m, f).(attributeBindings := ApplyEntries(p.attributeBindings, m.attributeBindings, order)), None)
  }

  /** The string records of fields f..4 of m, then its entries in the given order, from i to the end of data. */
  ghost predicate FieldsAt(data: Bytes, i: nat, m: Msg, f: int, order: seq<Bytes>)
  {
    && 1 <= f <= 5 && |data| <= MAX_LEN
    && (forall k :: k in order ==> k in m.attributeBindings)
    && TailAt(data, i, FieldsFrom(m, f) + EntriesBytes(m.attributeBindings, order))
  }

  lemma {:induction false} DecodeFieldsFrom(checks: Checks, data: Bytes, i: nat, p: Msg, m: Msg, f: int,
                                            order: seq<Bytes>)
    requires FieldsAt(data, i, m, f, order)
    ensures DecodeFrom(checks, data, i, p) == FieldsOutcome(p, m, f, order)
    decreases 5 - f, 1
  {
    if f == 5 {
      DecodeEntries(checks, data, i, p, m.attributeBindings, order);
    } else {
      var j := i + |StringRecord(FieldTag(f), FieldOf(m, f))|;
      FieldsSplit(data, i, j, m, f, order);
      DecodeFieldsStep(checks, data, i, j, p, m, f, order);
    }
  }

  lemma FieldsSplit(data: Bytes, i: nat, j: nat, m: Msg, f: int, order: seq<Bytes>)
    requires f <= 4 && FieldsAt(data, i, m, f, order)
    requires j == i + |StringRecord(FieldTag(f), FieldOf(m, f))|
    ensures RecordAt(data, i, j, StringRecord(FieldTag(f), FieldOf(m, f)))
    ensures FieldsAt(data, j, m, f + 1, order)
  {
    SplitTailAssoc(data, i, j, StringRecord(FieldTag(f), FieldOf(m, f)), FieldsFrom(m, f + 1),
                   EntriesBytes(m.attributeBindings, order));
  }

  /** Bytes a, b then c from index i to the end: a ends at j. */
  lemma SplitTailAssoc(data: Bytes, i: nat, j: nat, a: Bytes, b: Bytes, c: Bytes)
    requires TailAt(data, i, a + b + c) && j == i + |a|
    ensures RecordAt(data, i, j, a) && TailAt(data, j, b + c)
  {
    assert a + b + c == a + (b + c);
    SplitTail(data, i, j, a, b + c);
  }

  /** The bytes of r, from index i to the end. */
  ghost predicate TailAt(data: Bytes, i: nat, r: Bytes)
  {
    i + |r| == |data| && data[i..] == r
  }

  /** Bytes a then c from index i to the end: a ends at j. */
  lemma SplitTail(data: Bytes, i: nat, j: nat, a: Bytes, c: Bytes)
    requires TailAt(data, i, a + c) && j == i + |a|
    ensures RecordAt(data, i, j, a) && TailAt(data, j, c)
  {
    assert data[i..j] == data[i..][..|a|];
    assert data[j..] == data[i..][|a|..];
  }

  /** One step of DecodeFieldsFrom: the record of field f at i, then the rest from j. */
  lemma {:induction false} DecodeFieldsStep(checks: Checks, data: Bytes, i: nat, j: nat, p: Msg, m: Msg, f: int,
                                            order: seq<Bytes>)
    requires 1 <= f <= 4 && FieldsAt(data, j, m, f + 1, order)
    requires RecordAt(data, i, j, StringRecord(FieldTag(f), FieldOf(m, f)))
    ensures DecodeFrom(checks, data, i, p) == FieldsOutcome(p, m, f, order)
    decreases 5 - f, 0
  {
    var q := if |FieldOf(m, f)| > 0 then SetField(p, f, FieldOf(m, f)) else p;
    DecodeFieldsFrom(checks, data, j, q, m, f + 1, order);
    DecodeOptionalField(checks, data, i, j, p, q, f, FieldOf(m, f));
    OutcomeStep(p, q, m, f, order);
  }

  /** Setting field f first, then merging from f + 1, is merging from f. */
  lemma OutcomeStep(p: Msg, q: Msg, m: Msg, f: int, order: seq<Bytes>)
    requires 1 <= f <= 4 && forall k :: k in order ==> k in m.attributeBindings
    requires q == if |FieldOf(m, f)| > 0 then SetField(p, f, FieldOf(m, f)) else p
    ensures FieldsOutcome(p, m, f, order) == FieldsOutcome(q, m, f + 1, order)
  {
    assert MergeFrom(p, m, f) == MergeFrom(q, m, f + 1);
    assert q.attributeBindings == p.attributeBindings;
  }

  /**
   * Unmarshal of what MarshalTo wrote for m, into a message p: the strings
   * present in m and all of m's map entries, over what p already held.
   */
  lemma UnmarshalMarshalInto(checks: Checks, m: Msg, order: seq<Bytes>, p: Msg)
    requires IsOrder(order, m.attributeBindings)
    requires |Encode(m, order)| <= MAX_LEN
    ensures Unmarshal(checks, Encode(m, order), p) == Outcome(MergeInto(p, m), None)
  {
    var b := ApplyEntries(p.attributeBindings, m.attributeBindings, order);
    assert DecodeFrom(checks, Encode(m, order), 0, p) == Outcome(MergeFrom(p, m, 1).(attributeBindings := b), None) by {
      FieldsFromAll(m);
      DecodeFieldsFrom(checks, Encode(m, order), 0, p, m, 1, order);
    }
    ApplyEntriesOrder(p.attributeBindings, m.attributeBindings, order);
    MergeFromAll(p, m, b);
  }

  /** The round trip: Unmarshal into a fresh InstanceParam gives back the marshalled message. */
  lemma UnmarshalMarshal(checks: Checks, m: Msg, order: seq<Bytes>)
    requires IsOrder(order, m.attributeBindings)
    requires |Encode(m, order)| <= MAX_LEN
    ensures Unmarshal(checks, Encode(m, order), EMPTY) == Outcome(m, None)
  {
    UnmarshalMarshalInto(checks, m, order, EMPTY);
  }
}
