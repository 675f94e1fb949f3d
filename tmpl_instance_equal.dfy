/*
 * InstanceParam.Equal and the nil-safe getters of tmpl_instance.pb.go.
 *
 * Equal receives an interface value: nil, a *InstanceParam (itself possibly
 * nil), an InstanceParam, or something of another type. The generated
 * comparison of the map looks each key of the receiver up in the argument
 * with m[k], which yields "" for a missing key; a map {x: ""} therefore
 * equals {y: ""}. EqualStrict is the comparison with the missing-key test,
 * and it is exactly equality.
 */
module TmplInstanceEqual {
  import opened Common
  import opened ProtoWire
  import opened TmplInstance

  /** The dynamic value behind Equal's `that interface{}`. */
  datatype Other =
    | NilInterface
    | Pointer(ptr: Option<Msg>)
    | Value(val: Msg)
    | OtherType

  /** Go's m[k] on a map[string]string: the zero value "" for a missing key. */
  function Lookup(b: map<Bytes, Bytes>, k: Bytes): (r: Bytes)
    ensures k in b ==> r == b[k]
    ensures k !in b ==> r == []
  {
    if k in b then b[k] else []
  }

  /** The field comparisons of Equal, as generated. */
  predicate FieldsEqual(a: Msg, b: Msg)
  {
    && a.int64Primitive == b.int64Primitive
    && a.boolPrimitive == b.boolPrimitive
    && a.doublePrimitive == b.doublePrimitive
    && a.stringPrimitive == b.stringPrimitive
    && |a.attributeBindings| == |b.attributeBindings|
    && forall k :: k in a.attributeBindings ==> a.attributeBindings[k] == Lookup(b.attributeBindings, k)
  }

  /** The comparison with the missing-key test the map loop needs. */
  predicate FieldsEqualStrict(a: Msg, b: Msg)
  {
    && a.int64Primitive == b.int64Primitive
    && a.boolPrimitive == b.boolPrimitive
    && a.doublePrimitive == b.doublePrimitive
    && a.stringPrimitive == b.stringPrimitive
    && |a.attributeBindings| == |b.attributeBindings|
    && forall k :: k in a.attributeBindings ==> k in b.attributeBindings && a.attributeBindings[k] == b.attributeBindings[k]
  }

  /** (*InstanceParam).Equal with the receiver recv (None for a nil pointer). */
  predicate Equal(recv: Option<Msg>, that: Other)
  {
    match that
    case NilInterface => recv.None?
    case OtherType => false
    case Pointer(None) => recv.None?
    case Pointer(Some(b)) => recv.Some? && FieldsEqual(recv.value, b)
    case Value(b) => recv.Some? && FieldsEqual(recv.value, b)
  }

  predicate EqualStrict(recv: Option<Msg>, that: Other)
  {
    match that
    case NilInterface => recv.None?
    case OtherType => false
    case Pointer(None) => recv.None?
    case Pointer(Some(b)) => recv.Some? && FieldsEqualStrict(recv.value, b)
    case Value(b) => recv.Some? && FieldsEqualStrict(recv.value, b)
  }

  /** What Equal is meant to decide: the same message, or both nil. */
  predicate SameValue(recv: Option<Msg>, that: Other)
  {
    match that
    case NilInterface => recv.None?
    case OtherType => false
    case Pointer(p) => recv == p
    case Value(b) => recv == Some(b)
  }

  /** A subset as large as its superset is the superset. */
  lemma {:induction false} SubsetSameSize<T>(a: set<T>, b: set<T>)
    requires a <= b && |a| == |b|
    ensures a == b
    decreases |a|
  {
    if a != {} {
      var x :| x in a;
      assert a - {x} + {x} == a && b - {x} + {x} == b;
      assert |a - {x}| == |a| - 1 && |b - {x}| == |b| - 1;
      SubsetSameSize(a - {x}, b - {x});
    }
  }

  lemma FieldsEqualStrictIsEquality(a: Msg, b: Msg)
    ensures FieldsEqualStrict(a, b) <==> a == b
  {
    if FieldsEqualStrict(a, b) {
      assert a.attributeBindings.Keys <= b.attributeBindings.Keys;
      assert |a.attributeBindings.Keys| == |b.attributeBindings.Keys| by {
        assert |a.attributeBindings.Keys| == |a.attributeBindings|;
        assert |b.attributeBindings.Keys| == |b.attributeBindings|;
      }
      SubsetSameSize(a.attributeBindings.Keys, b.attributeBindings.Keys);
      assert a.attributeBindings == b.attributeBindings;
    }
  }

  /** The corrected Equal decides exactly whether the two values are the same. */
  lemma EqualStrictIsSameValue(recv: Option<Msg>, that: Other)
    ensures EqualStrict(recv, that) <==> SameValue(recv, that)
  {
    match that
    case Pointer(Some(b)) =>
      if recv.Some? { FieldsEqualStrictIsEquality(recv.value, b); }
    case Value(b) =>
      if recv.Some? { FieldsEqualStrictIsEquality(recv.value, b); }
    case _ =>
  }

  /** As generated, Equal holds between equal values ... */
  lemma SameValueIsEqual(recv: Option<Msg>, that: Other)
    requires SameValue(recv, that)
    ensures Equal(recv, that)
  {
  }

  /**
   * ... and the generated comparison differs from the intended one only
   * through a key whose value is "" in the receiver.
   */
  lemma FieldsEqualWithoutEmptyValues(a: Msg, b: Msg)
    requires forall k :: k in a.attributeBindings ==> a.attributeBindings[k] != []
    ensures FieldsEqual(a, b) <==> a == b
  {
    assert FieldsEqual(a, b) <==> FieldsEqualStrict(a, b);
    FieldsEqualStrictIsEquality(a, b);
  }

  /** The messages {attributeBindings: {"x": ""}} and {attributeBindings: {"y": ""}}. */
  const ONLY_X: Msg := EMPTY.(attributeBindings := map[[0x78] := []])
  const ONLY_Y: Msg := EMPTY.(attributeBindings := map[[0x79] := []])

  /** The two compare equal as generated, though they are different messages. */
  lemma EqualMissingKeyReadsEmpty()
    ensures Equal(Some(ONLY_X), Pointer(Some(ONLY_Y)))
    ensures ONLY_X != ONLY_Y
    ensures !EqualStrict(Some(ONLY_X), Pointer(Some(ONLY_Y)))
  {
    var x: Bytes := [0x78];
    var y: Bytes := [0x79];
    assert x != y by {
      assert x[0] != y[0];
    }
    assert ONLY_X.attributeBindings.Keys == {x};
    assert ONLY_Y.attributeBindings.Keys == {y};
    assert |ONLY_X.attributeBindings| == 1 && |ONLY_Y.attributeBindings| == 1;
    assert x !in ONLY_Y.attributeBindings;
  }

  // ---------------------------------------------------------------------
  // Getters: a nil receiver reads as the zero value

  function GetInt64Primitive(m: Option<Msg>): Bytes
  {
    if m.Some? then m.value.int64Primitive else []
  }

  function GetBoolPrimitive(m: Option<Msg>): Bytes
  {
    if m.Some? then m.value.boolPrimitive else []
  }

  function GetDoublePrimitive(m: Option<Msg>): Bytes
  {
    if m.Some? then m.value.doublePrimitive else []
  }

  function GetStringPrimitive(m: Option<Msg>): Bytes
  {
    if m.Some? then m.value.stringPrimitive else []
  }

  function GetAttributeBindings(m: Option<Msg>): map<Bytes, Bytes>
  {
    if m.Some? then m.value.attributeBindings else map[]
  }

  /** The getters of a nil message are those of the zero message InstanceParam{}. */
  lemma GettersOfNil()
    ensures GetInt64Primitive(None) == GetInt64Primitive(Some(EMPTY))
    ensures GetBoolPrimitive(None) == GetBoolPrimitive(Some(EMPTY))
    ensures GetDoublePrimitive(None) == GetDoublePrimitive(Some(EMPTY))
    ensures GetStringPrimitive(None) == GetStringPrimitive(Some(EMPTY))
    ensures GetAttributeBindings(None) == GetAttributeBindings(Some(EMPTY))
  {
  }
}
