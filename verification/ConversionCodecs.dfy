/** Which codecs of a user's own types survive the round trip. */
module ConversionCodecs {
  import opened Common
  import opened MessageShape
  import opened Conversion
  import opened ConversionRoundTrip
  import CustomTypes

  /** A schema with one message holding one map of custom values, and a message of it. */
  function MapSchema(c: Codec): Schema {
    map["M" := [Field("f", CustomOf(c), MapFrom(StrKind))]]
  }

  function MapMessage(w: Py): Msg {
    Msg("M", [Table([Row(PyStr("k"), Value(w))])])
  }

  ghost predicate MapsComeBack(h: Host, c: Codec) {
    forall w :: Holds(c.wire, w) ==> ShowsAgain(h, MapSchema(c), MapMessage(w))
  }

  predicate ShowsAgain(h: Host, sch: Schema, m: Msg) {
    var d := ToPython(sch, m);
    d.Some? ==>
      var back := Fill(h, sch, Fresh(sch, m.full), d.value);
      back.Some? && ToPython(sch, back.value) == d
  }

  lemma Alone<T>(x: T)
    ensures Prepend(x, Some([])) == Some([x])
  {
    assert [x] + [] == [x];
  }

  lemma MapViewOf(h: Host, c: Codec, w: Py)
    requires Holds(c.wire, w) && c.decode(w).Some?
    ensures var v := c.decode(w).value; var sch := MapSchema(c);
      && ToPython(sch, MapMessage(w)) == Some(PyDict([Pair(PyStr("f"), PyDict([Pair(PyStr("k"), v)]))]))
  {
    var sch, m, v := MapSchema(c), MapMessage(w), c.decode(w).value;
    var rows := m.slots[0].rows;
    assert rows[1..] == [];
    assert ShowRows(sch, CustomOf(c), rows[1..]) == Some([]);
    assert ShowRow(sch, CustomOf(c), rows[0]) == Some(Pair(PyStr("k"), v));
    Alone(Pair(PyStr("k"), v));
    assert ShowRows(sch, CustomOf(c), rows) == Some([Pair(PyStr("k"), v)]);
    Alone(Pair(PyStr("f"), PyDict([Pair(PyStr("k"), v)])));
    assert ShowFrom(sch, m, 1) == Some([]);
    assert ShowSlot(sch, sch["M"][0], m.slots[0]) == Shows(PyDict([Pair(PyStr("k"), v)]));
    assert ShowFrom(sch, m, 0) == Prepend(Pair(PyStr("f"), PyDict([Pair(PyStr("k"), v)])), Some([]));
  }

  lemma MapFillOf(h: Host, c: Codec, v: Py)
    ensures var sch := MapSchema(c); var d := PyDict([Pair(PyStr("f"), PyDict([Pair(PyStr("k"), v)]))]);
      Fill(h, sch, Fresh(sch, "M"), d) ==
        if v.PyNone? then Some(Msg("M", [Table([])]))
        else if Accept(c.wire, WireValue(c, v)).Some? then Some(MapMessage(Accept(c.wire, WireValue(c, v)).value.v))
        else None
  {
    var sch, inner := MapSchema(c), [Pair(PyStr("k"), v)];
    var entries := [Pair(PyStr("f"), PyDict(inner))];
    var m := Fresh(sch, "M");
    assert m.slots == [Table([])];
    assert inner[1..] == [] && entries[1..] == [];
    assert FieldIndex(sch["M"], PyStr("f")) == Some(0);
    var next := FillRow(h, sch, CustomOf(c), StrKind, [], inner[0]);
    assert FillCell(h, sch, CustomOf(c), None, v) == Accept(c.wire, WireValue(c, v));
    assert RowAt([], PyStr("k")) == None && Holds(StrKind, inner[0].key);
    if !v.PyNone? && Accept(c.wire, WireValue(c, v)).Some? {
      var cell := Accept(c.wire, WireValue(c, v)).value;
      assert [] + [Row(PyStr("k"), cell)] == [Row(PyStr("k"), cell)];
      assert next == Some([Row(PyStr("k"), cell)]);
    }
    assert FillRows(h, sch, CustomOf(c), StrKind, [], inner) == next by {
      if next.Some? { assert FillRows(h, sch, CustomOf(c), StrKind, next.value, inner[1..]) == next; }
    }
    assert FillEntry(h, sch, m, entries[0]) == FillField(h, sch, m, 0, PyDict(inner));
    var filled := FillField(h, sch, m, 0, PyDict(inner));
    if filled.Some? {
      assert FillEntries(h, sch, filled.value, entries[1..]) == filled;
      assert m.slots[0 := Table(next.value)] == [Table(next.value)];
    }
    assert FillEntries(h, sch, m, entries) == filled;
    assert Fill(h, sch, m, PyDict(entries)) == filled;
  }

  /** The condition is exact: maps of a custom type come back precisely when its
      codec is faithful. */
  lemma FaithfulIsExact(h: Host, c: Codec)
    requires ScalarFits(c.wire)
    ensures Faithful(c) <==> MapsComeBack(h, c)
  {
    var sch := MapSchema(c);
    if Faithful(c) {
      forall w | Holds(c.wire, w)
        ensures ShowsAgain(h, sch, MapMessage(w))
      {
        if ToPython(sch, MapMessage(w)).Some? {
          assert WellTyped(sch, MapMessage(w));
          MessageRoundTrip(h, sch, MapMessage(w));
        }
      }
    }
    if MapsComeBack(h, c) {
      forall w | Holds(c.wire, w) && c.decode(w).Some?
        ensures ComesBack(c, c.decode(w).value)
      {
        NeededToComeBack(h, c, w);
      }
    }
  }

  lemma NeededToComeBack(h: Host, c: Codec, w: Py)
    requires Holds(c.wire, w) && c.decode(w).Some?
    requires ShowsAgain(h, MapSchema(c), MapMessage(w))
    ensures ComesBack(c, c.decode(w).value)
  {
    var v := c.decode(w).value;
    MapViewOf(h, c, w);
    MapFillOf(h, c, v);
    if v.PyNone? {
      EmptyMapShows(c);
    } else {
      var again := Accept(c.wire, WireValue(c, v)).value.v;
      if c.decode(again).Some? {
        MapViewOf(h, c, again);
      } else {
        MapViewFails(c, again);
      }
    }
  }

  lemma EmptyMapShows(c: Codec)
    ensures ToPython(MapSchema(c), Msg("M", [Table([])])) == Some(PyDict([Pair(PyStr("f"), PyDict([]))]))
  {
    var sch, m := MapSchema(c), Msg("M", [Table([])]);
    assert ShowFrom(sch, m, 1) == Some([]);
    assert ShowSlot(sch, sch["M"][0], m.slots[0]) == Shows(PyDict([]));
    Alone(Pair(PyStr("f"), PyDict([])));
    assert ShowFrom(sch, m, 0) == Some([Pair(PyStr("f"), PyDict([]))]);
  }

  lemma MapViewFails(c: Codec, w: Py)
    requires c.decode(w) == None
    ensures ToPython(MapSchema(c), MapMessage(w)) == None
  {
    var sch, m := MapSchema(c), MapMessage(w);
    assert ShowRow(sch, CustomOf(c), m.slots[0].rows[0]) == None;
    assert ShowRows(sch, CustomOf(c), m.slots[0].rows) == None;
    assert ShowSlot(sch, sch["M"][0], m.slots[0]) == Raises;
    assert ShowFrom(sch, m, 0) == None;
  }

  // ---- what a codec's author can check ----

  /** Decoding, encoding and decoding again is decoding once. */
  ghost predicate DecodesStably(c: Codec) {
    forall w :: Holds(c.wire, w) && c.decode(w).Some? ==> Stable(c, c.decode(w).value)
  }

  predicate Stable(c: Codec, v: Py) {
    c.encode(v).Some? && Holds(c.wire, c.encode(v).value) && c.decode(c.encode(v).value) == Some(v)
  }

  /** A decoded value that the filler will not take for something else: for an
      absent one, for raw wire bytes or for a wrapper. */
  predicate Undisguised(c: Codec, v: Py) {
    && !v.PyNone?
    && !(c.wire.BytesKind? && v.PyBytes?)
    && !(v.PyDict? && |v.entries| == 1 && v.entries[0].key == PyStr("value"))
  }

  lemma StableAndUndisguised(c: Codec)
    requires DecodesStably(c)
    requires forall w :: Holds(c.wire, w) && c.decode(w).Some? ==> Undisguised(c, c.decode(w).value)
    ensures Faithful(c)
  {
    forall w | Holds(c.wire, w) && c.decode(w).Some?
      ensures ComesBack(c, c.decode(w).value)
    {
      assert Stable(c, c.decode(w).value);
    }
  }

  /** Stability alone is not enough: bytes decoded from bytes are sent verbatim,
      without encoding them. */
  lemma StableIsNotEnough() returns (c: Codec)
    ensures DecodesStably(c) && !Faithful(c)
  {
    c := Codec(BytesKind,
      (v: Py) => if v.PyBytes? && v.data != [] then Some(PyBytes(v.data[1..])) else None,
      (w: Py) => if w.PyBytes? then Some(PyBytes([1] + w.data)) else None);
    forall w | Holds(c.wire, w) && c.decode(w).Some?
      ensures Stable(c, c.decode(w).value)
    {
      assert ([1] + w.data)[1..] == w.data;
    }
    var w := PyBytes([]);
    var v := c.decode(w).value;
    assert Holds(c.wire, w) && v.data == [1] + [] && |v.data| == 1;
    assert |c.decode(v).value.data| == 2;
    assert !ComesBack(c, v);
  }

  // ---- the built-in 256-bit integer ----

  function AsInteger(parse: string -> Option<int>, v: Py): CustomTypes.PyValue {
    match v
    case PyNone => CustomTypes.PyInt(0)
    case PyBool(b) => CustomTypes.PyBool(b)
    case PyInt(i) => CustomTypes.PyInt(i)
    case PyFloat(r) => CustomTypes.PyFloat(r)
    case PyStr(text) => CustomTypes.PyStr(parse(text))
    case _ => CustomTypes.PyOther
  }

  function Bigint(parse: string -> Option<int>): Codec {
    Codec(BytesKind,
      (v: Py) =>
        match CustomTypes.BigintToBytes(AsInteger(parse, v))
        case Ok(data) => Some(PyBytes(data))
        case ValueError => None,
      (w: Py) => if !w.PyBytes? then None
           else match CustomTypes.BytesToBigint(w.data) case Ok(i) => Some(PyInt(i)) case ValueError => None)
  }

  /** The built-in integer type comes back everywhere, and what is sent for it again
      is the received value padded to the full width. */
  lemma BigintIsFaithful(parse: string -> Option<int>)
    ensures Faithful(Bigint(parse))
    ensures forall data: Bytes :: |data| <= CustomTypes.BIGINT_BYTES ==>
      RewireCell(map[], CustomOf(Bigint(parse)), Value(PyBytes(data)))
        == Value(PyBytes(CustomTypes.Zeros(CustomTypes.BIGINT_BYTES - |data|) + data))
  {
    var c := Bigint(parse);
    forall w | Holds(c.wire, w) && c.decode(w).Some?
      ensures ComesBack(c, c.decode(w).value)
    {
      CustomTypes.DecodeEncode(w.data);
      CustomTypes.EncodeDecode(CustomTypes.PyInt(c.decode(w).value.i));
    }
    forall data: Bytes | |data| <= CustomTypes.BIGINT_BYTES
      ensures RewireCell(map[], CustomOf(c), Value(PyBytes(data)))
        == Value(PyBytes(CustomTypes.Zeros(CustomTypes.BIGINT_BYTES - |data|) + data))
    {
      CustomTypes.DecodeEncode(data);
    }
  }
}
