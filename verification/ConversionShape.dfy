/** What a filled message and a shown one look like, field by field. */
module ConversionShape {
  import opened Common
  import opened MessageShape
  import opened Conversion
  import opened ConversionTyping

  // ------------------------------------------------------------ filling

  /** A message handed in for a message of its own type replaces it whole, and one of
      another type is refused, at the top and in a field alike. */
  lemma MessageIsTaken(h: Host, sch: Schema, m: Msg, other: Msg, full: string, current: Option<Cell>)
    requires current.Some? && current.value.Sub? ==> current.value.m.full == full
    ensures Fill(h, sch, m, PyMessage(other)) == if other.full == m.full then Some(other) else None
    ensures FillCell(h, sch, MessageOf(full), current, PyMessage(other))
         == if other.full == full then Some(Sub(other)) else None
  {
  }

  /** The entries that say something: their key names a field and they are not None. */
  function Telling(fields: seq<Field>, entries: seq<Pair>): seq<Pair> {
    if entries == [] then []
    else
      (if FieldIndex(fields, entries[0].key).Some? && !entries[0].value.PyNone? then [entries[0]] else [])
      + Telling(fields, entries[1..])
  }

  /** All other entries change nothing. */
  lemma {:induction false} OthersAreIgnored(h: Host, sch: Schema, m: Msg, entries: seq<Pair>)
    requires WellFormed(sch) && WellTyped(sch, m) && forall i :: 0 <= i < |entries| ==> EntryFits(sch, entries[i])
    ensures FillEntries(h, sch, m, entries) == FillEntries(h, sch, m, Telling(sch[m.full], entries))
    decreases entries
  {
    if entries != [] {
      var first, rest := entries[0], entries[1..];
      EntryKeepsTyping(h, sch, m, first);
      var next := FillEntry(h, sch, m, first);
      if next.Some? { OthersAreIgnored(h, sch, next.value, rest); }
      var told := Telling(sch[m.full], rest);
      if FieldIndex(sch[m.full], first.key).Some? && !first.value.PyNone? {
        assert ([first] + told)[0] == first && ([first] + told)[1..] == told;
      } else {
        assert [] + told == told;
      }
    }
  }

  /** Filling one field sets that field and clears the others of its oneof; every other
      field stays as it was. */
  lemma FieldFrame(h: Host, sch: Schema, m: Msg, i: nat, value: Py)
    requires WellFormed(sch) && WellTyped(sch, m) && i < |m.slots| && FillField(h, sch, m, i, value).Some?
    ensures var after := FillField(h, sch, m, i, value).value;
      && after.full == m.full && |after.slots| == |m.slots| && !after.slots[i].Unset?
      && forall j :: 0 <= j < |m.slots| && j != i ==>
        after.slots[j] == if Siblings(sch[m.full][i], sch[m.full][j]) then Unset else m.slots[j]
  {
    assert SlotFits(sch, sch[m.full][i], m.slots[i]);
  }

  /** A plain field holds the value it was set from in the form its kind has, and is
      refused when the value has none that the runtime takes. */
  lemma ScalarIsSet(h: Host, sch: Schema, m: Msg, i: nat, value: Py)
    requires WellTyped(sch, m) && i < |m.slots|
    requires sch[m.full][i].kind.ScalarOf? && (sch[m.full][i].arity.Singular? || sch[m.full][i].arity.Member?)
    ensures var s, filled := sch[m.full][i].kind.s, FillField(h, sch, m, i, value);
      match CoerceScalar(h, s, value)
      case None => filled == None
      case Some(v) => if Holds(s, v) then filled.Some? && filled.value.slots[i] == Single(Value(v)) else filled == None
  {
  }

  /** The value stands for `r` in a kind set from text: it is `r` already, or a spelling
      of it. */
  predicate Spells(h: Host, s: Scalar, v: Py, r: Py) {
    match s
    case IntKind(_, _) => v.PyStr? && r.PyInt? && h.parseInt(v.s) == Some(r.i)
    case FloatKind => v.PyStr? && r.PyFloat? && h.parseFloat(v.s) == Some(r.r)
    case BoolKind => v.PyStr? && (h.lower(v.s) == if r == PyBool(true) then "true" else "false") && r.PyBool?
    case StrKind =>
      r.PyStr? && (|| v == r || (v.PyBytes? && h.utf8(v.data) == Some(r.s))
                   || ((v.PyInt? || v.PyFloat?) && h.show(v) == r.s))
    case BytesKind => r.PyBytes? && (v == r || (v.PyStr? && h.base64(v.s) == Some(r.data)))
    case EnumKind(byName, _) =>
      r.PyInt? && (|| v == r || (v.PyStr? && v.s in byName && byName[v.s] == r.i)
                   || (v.PyStr? && v.s !in byName && h.parseDigits(v.s) == Some(r.i)))
  }

  /** Whatever is no number, and anything for a kind that is none, is coerced exactly to
      what it stands for, and refused when it stands for nothing. */
  lemma CoercionOfText(h: Host, s: Scalar, v: Py, r: Py)
    requires NumberOf(v) == None || !(s.IntKind? || s.FloatKind? || s.BoolKind?)
    ensures CoerceScalar(h, s, v) == Some(r) <==> Spells(h, s, v, r)
  {
    assert "true" != "false" by { assert |"true"| == 4; }
  }

  /** A custom value is encoded, bare or wrapped as its wire message is; bytes for a
      codec over bytes are taken for encoded already. */
  lemma WireTakes(c: Codec, v: Py)
    requires !(v.PyDict? && |v.entries| == 1 && v.entries[0].key == PyStr("value"))
    ensures v.PyBytes? && c.wire.BytesKind? ==> WireValue(c, v) == Some(v)
    ensures !(v.PyBytes? && c.wire.BytesKind?) ==> WireValue(c, v) == c.encode(v)
    ensures WireValue(c, PyDict([Pair(PyStr("value"), v)])) == WireValue(c, v)
  {
  }

  // ------------------------------------------------------------ showing

  /** How the value shown for a field looks like, by what the field holds. */
  predicate Looks(f: Field, slot: Slot, v: Py) {
    match slot
    case Unset => v == PyNone
    case Table(rows) =>
      v.PyDict? && |v.entries| == |rows| && forall k :: 0 <= k < |rows| ==> v.entries[k].key == rows[k].key
    case Many(cells) => v.PyList? && |v.items| == |cells|
    case Single(Sub(_)) => v.PyDict?
    case Single(Value(w)) =>
      f.kind.ScalarOf? ==>
        if f.kind.s.EnumKind? && w.PyInt? && w.i in f.kind.s.byNumber then v == PyStr(f.kind.s.byNumber[w.i])
        else v == w
  }

  /** Only a oneof member that is not set is left out. */
  predicate LeftOut(f: Field, slot: Slot) {
    f.arity.Member? && slot.Unset?
  }

  /** The names of the fields from the i-th on that are not left out, in order. */
  function Shown(fields: seq<Field>, slots: seq<Slot>, i: nat): seq<nat>
    requires i <= |slots| == |fields|
    decreases |slots| - i
  {
    if i == |slots| then []
    else (if LeftOut(fields[i], slots[i]) then [] else [i]) + Shown(fields, slots, i + 1)
  }

  lemma {:induction false} RowsLook(sch: Schema, k: Kind, rows: seq<Row>)
    requires ShowRows(sch, k, rows).Some?
    ensures var shown := ShowRows(sch, k, rows).value;
      |shown| == |rows| && forall i :: 0 <= i < |rows| ==> shown[i].key == rows[i].key
    decreases rows
  {
    if rows != [] { RowsLook(sch, k, rows[1..]); }
  }

  lemma {:induction false} CellsLook(sch: Schema, k: Kind, cells: seq<Cell>)
    requires ShowCells(sch, k, cells).Some?
    ensures |ShowCells(sch, k, cells).value| == |cells|
    decreases cells
  {
    if cells != [] { CellsLook(sch, k, cells[1..]); }
  }

  lemma SlotLooks(sch: Schema, f: Field, slot: Slot)
    requires SlotFits(sch, f, slot)
    ensures ShowSlot(sch, f, slot).Absent? <==> LeftOut(f, slot)
    ensures ShowSlot(sch, f, slot).Shows? ==> Looks(f, slot, ShowSlot(sch, f, slot).v)
  {
    match slot
    case Table(rows) => if ShowRows(sch, f.kind, rows).Some? { RowsLook(sch, f.kind, rows); }
    case Many(cells) => if ShowCells(sch, f.kind, cells).Some? { CellsLook(sch, f.kind, cells); }
    case Single(Sub(m)) => assert ToPython(sch, m).Some? ==> ToPython(sch, m).value.PyDict?;
    case _ =>
  }

  /** The view from the i-th field on has one entry for each field that is not left out. */
  ghost predicate ViewOf(sch: Schema, m: Msg, i: nat, entries: seq<Pair>)
    requires m.full in sch && i <= |m.slots| == |sch[m.full]|
  {
    var shown := Shown(sch[m.full], m.slots, i);
    && |entries| == |shown|
    && forall k :: 0 <= k < |shown| ==> ShowsField(sch[m.full], m.slots, shown[k], entries[k])
  }

  predicate ShowsField(fields: seq<Field>, slots: seq<Slot>, i: nat, entry: Pair) {
    i < |slots| == |fields| && entry.key == PyStr(fields[i].name) && Looks(fields[i], slots[i], entry.value)
  }

  lemma {:induction false} ShowFromLooks(sch: Schema, m: Msg, i: nat)
    requires WellTyped(sch, m) && i <= |m.slots| && ShowFrom(sch, m, i).Some?
    ensures ViewOf(sch, m, i, ShowFrom(sch, m, i).value)
    decreases |m.slots| - i
  {
    if i < |m.slots| {
      assert SlotFits(sch, sch[m.full][i], m.slots[i]);
      SlotLooks(sch, sch[m.full][i], m.slots[i]);
      ShowFromLooks(sch, m, i + 1);
    }
  }

  /** A message is shown as a dict with one entry per field in declaration order, members
      of a oneof that are not set left out: a map as a dict of the same keys, a repeated
      field as a list of the same length, an enum by its name where it has one, other
      plain values as they are, and a missing sub-message as None. */
  lemma ViewLooks(sch: Schema, m: Msg)
    requires WellTyped(sch, m) && ToPython(sch, m).Some?
    ensures ToPython(sch, m).value.PyDict? && ViewOf(sch, m, 0, ToPython(sch, m).value.entries)
  {
    ShowFromLooks(sch, m, 0);
  }
}
