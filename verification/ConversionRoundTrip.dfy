/** Showing a message and filling a fresh one from the result gives back the same
    view, for every schema and every message, whatever its nesting. */
module ConversionRoundTrip {
  import opened Common
  import opened MessageShape
  import opened Conversion

  /** A codec whose decoded values survive the trip back: none of them is None, and
      what is sent for one decodes to it again. */
  ghost predicate Faithful(c: Codec) {
    forall w :: Holds(c.wire, w) && c.decode(w).Some? ==> ComesBack(c, c.decode(w).value)
  }

  predicate ComesBack(c: Codec, v: Py) {
    && !v.PyNone?
    && WireValue(c, v).Some? && Holds(c.wire, WireValue(c, v).value)
    && c.decode(WireValue(c, v).value) == Some(v)
  }

  ghost predicate Trusted(k: Kind) {
    k.CustomOf? ==> Faithful(k.c)
  }

  ghost predicate AllTrusted(sch: Schema) {
    forall full :: full in sch ==> forall i :: 0 <= i < |sch[full]| ==> Trusted(sch[full][i].kind)
  }

  // ---- what comes back: the same message with every custom value re-encoded ----

  function Rewire(sch: Schema, m: Msg): Msg
    decreases m, 1
  {
    if m.full !in sch || |m.slots| != |sch[m.full]| then m
    else Msg(m.full, seq(|m.slots|, i requires 0 <= i < |m.slots| => RewireSlot(sch, sch[m.full][i], m.slots[i])))
  }

  function RewireSlot(sch: Schema, f: Field, slot: Slot): Slot
    decreases slot, 0
  {
    match slot
    case Unset => Unset
    case Single(cell) => Single(RewireCell(sch, f.kind, cell))
    case Many(cells) => Many(RewireCells(sch, f.kind, cells))
    case Table(rows) => Table(RewireRows(sch, f.kind, rows))
  }

  function RewireCell(sch: Schema, k: Kind, cell: Cell): Cell
    decreases cell, 0
  {
    match cell
    case Sub(m) => Sub(Rewire(sch, m))
    case Value(w) =>
      if k.CustomOf? && k.c.decode(w).Some? && WireValue(k.c, k.c.decode(w).value).Some?
      then Value(WireValue(k.c, k.c.decode(w).value).value) else cell
  }

  function RewireCells(sch: Schema, k: Kind, cells: seq<Cell>): (r: seq<Cell>)
    ensures |r| == |cells|
    decreases cells, 0
  {
    if cells == [] then [] else [RewireCell(sch, k, cells[0])] + RewireCells(sch, k, cells[1..])
  }

  function RewireRows(sch: Schema, k: Kind, rows: seq<Row>): (r: seq<Row>)
    ensures |r| == |rows|
    decreases rows, 0
  {
    if rows == [] then [] else [RewireRow(sch, k, rows[0])] + RewireRows(sch, k, rows[1..])
  }

  function RewireRow(sch: Schema, k: Kind, row: Row): (r: Row)
    ensures r.key == row.key
    decreases row, 0
  {
    Row(row.key, RewireCell(sch, k, row.cell))
  }

  // ---- scalars ----

  /** A stored scalar is shown as something its own setter takes back, an enum
      number without a name included. */
  lemma ScalarRoundTrip(h: Host, s: Scalar, v: Py)
    requires ScalarFits(s) && Holds(s, v)
    ensures Accept(s, CoerceScalar(h, s, ScalarToPython(s, v))) == Some(Value(v))
    ensures !ScalarToPython(s, v).PyNone?
  {
  }

  // ---- cells, lists, maps ----

  lemma Leading<T>(xs: seq<T>)
    ensures [] + xs == xs
  {
  }

  lemma Regroup<T>(before: seq<T>, back: seq<T>)
    requires back != []
    ensures before + [back[0]] + back[1..] == before + back
  {
  }

  lemma {:induction false} CellRoundTrip(h: Host, sch: Schema, k: Kind, cell: Cell, current: Option<Cell>)
    requires WellFormed(sch) && AllTrusted(sch)
    requires KindFits(sch, k) && Trusted(k) && CellFits(sch, k, cell) && ShowCell(sch, k, cell).Some?
    requires k.MessageOf? ==> current == None
    ensures var v := ShowCell(sch, k, cell).value; var back := RewireCell(sch, k, cell);
      && !v.PyNone?
      && FillCell(h, sch, k, current, v) == Some(back)
      && CellFits(sch, k, back)
      && ShowCell(sch, k, back) == Some(v)
    decreases cell, 0
  {
    match k
    case ScalarOf(s) => ScalarRoundTrip(h, s, cell.v);
    case CustomOf(c) => assert ComesBack(c, c.decode(cell.v).value);
    case MessageOf(full) => MessageRoundTrip(h, sch, cell.m);
  }

  lemma {:induction false} CellsRoundTrip(h: Host, sch: Schema, k: Kind, before: seq<Cell>, cells: seq<Cell>)
    requires WellFormed(sch) && AllTrusted(sch)
    requires KindFits(sch, k) && Trusted(k) && ShowCells(sch, k, cells).Some?
    requires forall i :: 0 <= i < |cells| ==> CellFits(sch, k, cells[i])
    ensures var items := ShowCells(sch, k, cells).value; var back := RewireCells(sch, k, cells);
      && FillCells(h, sch, k, before, items) == Some(before + back)
      && (forall i :: 0 <= i < |back| ==> CellFits(sch, k, back[i]))
      && ShowCells(sch, k, back) == Some(items)
    decreases cells, 0
  {
    if cells != [] {
      CellRoundTrip(h, sch, k, cells[0], None);
      var first := RewireCell(sch, k, cells[0]);
      var items, back := ShowCells(sch, k, cells).value, RewireCells(sch, k, cells);
      assert items[0] == ShowCell(sch, k, cells[0]).value && items[1..] == ShowCells(sch, k, cells[1..]).value;
      assert back[0] == first && back[1..] == RewireCells(sch, k, cells[1..]);
      CellsRoundTrip(h, sch, k, before + [first], cells[1..]);
      Regroup(before, back);
    } else {
      assert before + [] == before;
    }
  }

  lemma {:induction false} RowMissing(rows: seq<Row>, key: Py)
    requires forall i :: 0 <= i < |rows| ==> rows[i].key != key
    ensures RowAt(rows, key) == None
  {
    if rows != [] { RowMissing(rows[1..], key); }
  }

  /** No row of `rows` has a key that `before` holds already. */
  predicate Apart(before: seq<Row>, rows: seq<Row>) {
    forall i, j :: 0 <= i < |before| && 0 <= j < |rows| ==> before[i].key != rows[j].key
  }

  lemma NextApart(before: seq<Row>, rows: seq<Row>, first: Row)
    requires KeysDistinct(rows) && Apart(before, rows) && rows != [] && first.key == rows[0].key
    ensures KeysDistinct(rows[1..]) && Apart(before + [first], rows[1..])
    ensures PutRow(before, first.key, first.cell) == before + [first]
    ensures RowAt(before, first.key) == None
  {
    RowMissing(before, first.key);
  }

  lemma {:induction false} KeysKept(sch: Schema, k: Kind, rows: seq<Row>)
    ensures forall i :: 0 <= i < |rows| ==> RewireRows(sch, k, rows)[i].key == rows[i].key
    ensures KeysDistinct(rows) ==> KeysDistinct(RewireRows(sch, k, rows))
  {
    if rows != [] { KeysKept(sch, k, rows[1..]); }
  }

  predicate RowFits(sch: Schema, k: Kind, key: Scalar, row: Row) {
    Holds(key, row.key) && CellFits(sch, k, row.cell)
  }

  lemma {:induction false} RowsRoundTrip(h: Host, sch: Schema, k: Kind, key: Scalar, before: seq<Row>, rows: seq<Row>)
    requires WellFormed(sch) && AllTrusted(sch)
    requires KindFits(sch, k) && Trusted(k) && ShowRows(sch, k, rows).Some?
    requires forall i :: 0 <= i < |rows| ==> RowFits(sch, k, key, rows[i])
    requires KeysDistinct(rows) && Apart(before, rows)
    ensures var entries := ShowRows(sch, k, rows).value; var back := RewireRows(sch, k, rows);
      && FillRows(h, sch, k, key, before, entries) == Some(before + back)
      && (forall i :: 0 <= i < |back| ==> RowFits(sch, k, key, back[i]))
      && ShowRows(sch, k, back) == Some(entries)
    decreases rows, 0
  {
    if rows == [] {
      assert before + [] == before;
    } else {
      var entries, back := ShowRows(sch, k, rows).value, RewireRows(sch, k, rows);
      var first := RewireRow(sch, k, rows[0]);
      assert RowFits(sch, k, key, rows[0]);
      RowRoundTrip(h, sch, k, rows[0]);
      NextApart(before, rows, first);
      assert entries[0] == ShowRow(sch, k, rows[0]).value && entries[1..] == ShowRows(sch, k, rows[1..]).value;
      assert back[0] == first && back[1..] == RewireRows(sch, k, rows[1..]);
      RowsRoundTrip(h, sch, k, key, before + [first], rows[1..]);
      Regroup(before, back);
    }
  }

  lemma {:induction false} RowRoundTrip(h: Host, sch: Schema, k: Kind, row: Row)
    requires WellFormed(sch) && AllTrusted(sch)
    requires KindFits(sch, k) && Trusted(k) && CellFits(sch, k, row.cell) && ShowRow(sch, k, row).Some?
    ensures var v := ShowRow(sch, k, row).value.value; var back := RewireRow(sch, k, row);
      && !v.PyNone?
      && FillCell(h, sch, k, None, v) == Some(back.cell)
      && CellFits(sch, k, back.cell)
      && ShowRow(sch, k, back) == ShowRow(sch, k, row)
    decreases row, 0
  {
    CellRoundTrip(h, sch, k, row.cell, None);
  }

  // ---- whole messages ----

  /** The fresh message once the first `i` fields have been filled. */
  function Partial(sch: Schema, m: Msg, i: nat): Msg
    requires m.full in sch && |m.slots| == |sch[m.full]|
  {
    Msg(m.full, seq(|m.slots|, j requires 0 <= j < |m.slots| =>
      if j < i then RewireSlot(sch, sch[m.full][j], m.slots[j]) else DefaultSlot(sch[m.full][j])))
  }

  lemma {:induction false} IndexOfName(fields: seq<Field>, i: nat)
    requires i < |fields|
    requires forall a, b :: 0 <= a < b < |fields| ==> fields[a].name != fields[b].name
    ensures FieldIndex(fields, PyStr(fields[i].name)) == Some(i)
  {
    if i > 0 {
      IndexOfName(fields[1..], i - 1);
      assert fields[1..][i - 1] == fields[i];
    }
  }

  lemma PartialNext(sch: Schema, m: Msg, i: nat)
    requires m.full in sch && i < |m.slots| == |sch[m.full]|
    ensures Partial(sch, m, i).slots[i] == DefaultSlot(sch[m.full][i])
    ensures Partial(sch, m, i).slots[i := RewireSlot(sch, sch[m.full][i], m.slots[i])] == Partial(sch, m, i + 1).slots
    ensures DefaultSlot(sch[m.full][i]) == RewireSlot(sch, sch[m.full][i], m.slots[i]) ==>
          Partial(sch, m, i) == Partial(sch, m, i + 1)
  {
    var was, now := Partial(sch, m, i).slots, Partial(sch, m, i + 1).slots;
    assert was[i := RewireSlot(sch, sch[m.full][i], m.slots[i])] == now;
    if DefaultSlot(sch[m.full][i]) == RewireSlot(sch, sch[m.full][i], m.slots[i]) {
      assert was == now;
    }
  }

  /** Setting a oneof member clears nothing that the message being shown has set. */
  lemma SiblingsStay(sch: Schema, m: Msg, i: nat, cell: Cell)
    requires WellTyped(sch, m) && i < |m.slots| && m.slots[i].Single?
    requires RewireSlot(sch, sch[m.full][i], m.slots[i]) == Single(cell)
    ensures SetSingle(sch[m.full], Partial(sch, m, i).slots, i, cell) == Partial(sch, m, i + 1).slots
  {
    var fields := sch[m.full];
    var was, now := Partial(sch, m, i).slots, Partial(sch, m, i + 1).slots;
    forall j | 0 <= j < |was|
      ensures SetSingle(fields, was, i, cell)[j] == now[j]
    {
      if j != i && Siblings(fields[i], fields[j]) {
        assert m.slots[j].Unset?;
      }
    }
  }

  /** Filling field `i` from its own value moves the partial message one on, and the
      re-encoded slot shows the same. */
  ghost predicate FieldComesBack(h: Host, sch: Schema, m: Msg, i: nat)
    requires m.full in sch && i < |m.slots| == |sch[m.full]|
  {
    var f := sch[m.full][i];
    var shown, back := ShowSlot(sch, f, m.slots[i]), RewireSlot(sch, f, m.slots[i]);
    && SlotFits(sch, f, back)
    && ShowSlot(sch, f, back) == shown
    && (shown.Shows? && !shown.v.PyNone? ==>
          FillField(h, sch, Partial(sch, m, i), i, shown.v) == Some(Partial(sch, m, i + 1)))
    && (shown.Absent? || (shown.Shows? && shown.v.PyNone?) ==> Partial(sch, m, i) == Partial(sch, m, i + 1))
  }

  ghost predicate Convertible(sch: Schema, m: Msg, i: nat) {
    && WellFormed(sch) && AllTrusted(sch) && WellTyped(sch, m)
    && i < |m.slots| && !ShowSlot(sch, sch[m.full][i], m.slots[i]).Raises?
  }

  lemma {:induction false} FieldRoundTrip(h: Host, sch: Schema, m: Msg, i: nat)
    requires Convertible(sch, m, i)
    ensures FieldComesBack(h, sch, m, i)
    decreases m, 0, 1
  {
    PartialNext(sch, m, i);
    assert SlotFits(sch, sch[m.full][i], m.slots[i]);
    match m.slots[i]
    case Unset =>
    case Single(_) => SingleRoundTrip(h, sch, m, i);
    case Many(_) => ManyRoundTrip(h, sch, m, i);
    case Table(_) => TableRoundTrip(h, sch, m, i);
  }

  lemma {:induction false} SingleRoundTrip(h: Host, sch: Schema, m: Msg, i: nat)
    requires Convertible(sch, m, i) && m.slots[i].Single?
    ensures FieldComesBack(h, sch, m, i)
    decreases m, 0, 0
  {
    var f, cell := sch[m.full][i], m.slots[i].cell;
    assert KindFits(sch, f.kind) && Trusted(f.kind) && SlotFits(sch, f, m.slots[i]);
    PartialNext(sch, m, i);
    CellRoundTrip(h, sch, f.kind, cell, if DefaultSlot(f).Single? then Some(DefaultSlot(f).cell) else None);
    SiblingsStay(sch, m, i, RewireCell(sch, f.kind, cell));
  }

  lemma {:induction false} ManyRoundTrip(h: Host, sch: Schema, m: Msg, i: nat)
    requires Convertible(sch, m, i) && m.slots[i].Many?
    ensures FieldComesBack(h, sch, m, i)
    decreases m, 0, 0
  {
    var f, cells := sch[m.full][i], m.slots[i].cells;
    assert KindFits(sch, f.kind) && Trusted(f.kind) && SlotFits(sch, f, m.slots[i]);
    PartialNext(sch, m, i);
    CellsRoundTrip(h, sch, f.kind, [], cells);
    Leading(RewireCells(sch, f.kind, cells));
  }

  lemma {:induction false} TableRoundTrip(h: Host, sch: Schema, m: Msg, i: nat)
    requires Convertible(sch, m, i) && m.slots[i].Table?
    ensures FieldComesBack(h, sch, m, i)
    decreases m, 0, 0
  {
    var f, rows := sch[m.full][i], m.slots[i].rows;
    assert KindFits(sch, f.kind) && Trusted(f.kind) && SlotFits(sch, f, m.slots[i]);
    PartialNext(sch, m, i);
    TableBack(h, sch, f, rows);
  }

  lemma {:induction false} TableBack(h: Host, sch: Schema, f: Field, rows: seq<Row>)
    requires WellFormed(sch) && AllTrusted(sch) && KindFits(sch, f.kind) && Trusted(f.kind)
    requires f.arity.MapFrom? && SlotFits(sch, f, Table(rows)) && ShowRows(sch, f.kind, rows).Some?
    ensures var back := RewireRows(sch, f.kind, rows);
      && SlotFits(sch, f, Table(back))
      && ShowRows(sch, f.kind, back) == ShowRows(sch, f.kind, rows)
      && FillRows(h, sch, f.kind, f.arity.key, [], ShowRows(sch, f.kind, rows).value) == Some(back)
    decreases rows, 1
  {
    forall j | 0 <= j < |rows|
      ensures RowFits(sch, f.kind, f.arity.key, rows[j])
    {
    }
    RowsRoundTrip(h, sch, f.kind, f.arity.key, [], rows);
    Leading(RewireRows(sch, f.kind, rows));
    KeysKept(sch, f.kind, rows);
    RowsFit(sch, f, RewireRows(sch, f.kind, rows));
  }

  lemma RowsFit(sch: Schema, f: Field, rows: seq<Row>)
    requires f.arity.MapFrom? && KeysDistinct(rows)
    requires forall j :: 0 <= j < |rows| ==> RowFits(sch, f.kind, f.arity.key, rows[j])
    ensures SlotFits(sch, f, Table(rows))
  {
    forall j | 0 <= j < |rows|
      ensures Holds(f.arity.key, rows[j].key) && CellFits(sch, f.kind, rows[j].cell)
    {
      assert RowFits(sch, f.kind, f.arity.key, rows[j]);
    }
  }

  lemma {:induction false} FieldsRoundTrip(h: Host, sch: Schema, m: Msg, i: nat)
    requires WellFormed(sch) && AllTrusted(sch) && WellTyped(sch, m)
    requires i <= |m.slots| && ShowFrom(sch, m, i).Some?
    ensures FillEntries(h, sch, Partial(sch, m, i), ShowFrom(sch, m, i).value) == Some(Rewire(sch, m))
    ensures ShowFrom(sch, Rewire(sch, m), i) == ShowFrom(sch, m, i)
    ensures forall j :: i <= j < |m.slots| ==> SlotFits(sch, sch[m.full][j], Rewire(sch, m).slots[j])
    decreases m, 1, |m.slots| - i
  {
    if i == |m.slots| {
      assert Partial(sch, m, i).slots == Rewire(sch, m).slots;
    } else {
      var f := sch[m.full][i];
      FieldRoundTrip(h, sch, m, i);
      FieldsRoundTrip(h, sch, m, i + 1);
      var shown := ShowSlot(sch, f, m.slots[i]);
      if shown.Shows? {
        IndexOfName(sch[m.full], i);
        var entries := ShowFrom(sch, m, i).value;
        assert entries[0] == Pair(PyStr(f.name), shown.v);
        assert entries[1..] == ShowFrom(sch, m, i + 1).value;
      }
    }
  }

  /** The round trip: a fresh message filled from what `_to_python` shows is the
      original with its custom values re-encoded, and shows the same. */
  lemma {:induction false} MessageRoundTrip(h: Host, sch: Schema, m: Msg)
    requires WellFormed(sch) && AllTrusted(sch) && WellTyped(sch, m) && ToPython(sch, m).Some?
    ensures var d := ToPython(sch, m).value; var back := Rewire(sch, m);
      && d.PyDict?
      && Fill(h, sch, Fresh(sch, m.full), d) == Some(back)
      && WellTyped(sch, back)
      && ToPython(sch, back) == Some(d)
    decreases m, 2
  {
    FieldsRoundTrip(h, sch, m, 0);
    assert Partial(sch, m, 0).slots == Defaults(sch[m.full]);
  }
}
