/** Filling a message from Python values, and showing it as Python values. */
module Conversion {
  import opened Common
  import opened MessageShape

  /** The text conversions of the host language. */
  datatype Host = Host(
    parseInt: string -> Option<int>,
    parseFloat: string -> Option<real>,
    parseDigits: string -> Option<int>,
    lower: string -> string,
    show: Py -> string,
    utf8: Bytes -> Option<string>,
    base64: string -> Option<Bytes>)

  function BoolInt(b: bool): int {
    if b then 1 else 0
  }

  /** What a scalar setter is given for a Python value; None where it is refused. */
  function CoerceScalar(h: Host, s: Scalar, v: Py): Option<Py> {
    match s
    case IntKind(_, _) => (
      match v
      case PyBool(b) => Some(PyInt(BoolInt(b)))
      case PyInt(_) => Some(v)
      case PyFloat(r) => if r.Floor as real == r then Some(PyInt(r.Floor)) else None
      case PyStr(text) => if h.parseInt(text).Some? then Some(PyInt(h.parseInt(text).value)) else None
      case _ => None)
    case FloatKind => (
      match v
      case PyBool(b) => Some(PyFloat(BoolInt(b) as real))
      case PyInt(i) => Some(PyFloat(i as real))
      case PyFloat(_) => Some(v)
      case PyStr(text) => if h.parseFloat(text).Some? then Some(PyFloat(h.parseFloat(text).value)) else None
      case _ => None)
    case BoolKind => (
      match v
      case PyBool(_) => Some(v)
      case PyInt(i) => if i == 0 || i == 1 then Some(PyBool(i == 1)) else None
      case PyFloat(r) => if r == 0.0 || r == 1.0 then Some(PyBool(r == 1.0)) else None
      case PyStr(text) =>
        if h.lower(text) == "true" || h.lower(text) == "false" then Some(PyBool(h.lower(text) == "true")) else None
      case _ => None)
    case StrKind => (
      match v
      case PyStr(_) => Some(v)
      case PyBytes(data) => if h.utf8(data).Some? then Some(PyStr(h.utf8(data).value)) else None
      case PyInt(_) => Some(PyStr(h.show(v)))
      case PyFloat(_) => Some(PyStr(h.show(v)))
      case _ => None)
    case BytesKind => (
      match v
      case PyBytes(_) => Some(v)
      case PyStr(text) => if h.base64(text).Some? then Some(PyBytes(h.base64(text).value)) else None
      case _ => None)
    case EnumKind(byName, _) => (
      match v
      case PyInt(_) => Some(v)
      case PyStr(name) =>
        if name in byName then Some(PyInt(byName[name]))
        else if h.parseDigits(name).Some? then Some(PyInt(h.parseDigits(name).value))
        else None
      case _ => None)
  }

  /** The number a Python value equals, if it is one. */
  function NumberOf(v: Py): Option<real> {
    match v
    case PyBool(b) => Some(BoolInt(b) as real)
    case PyInt(i) => Some(i as real)
    case PyFloat(r) => Some(r)
    case _ => None
  }

  /** The Python type a numeric kind is set from. */
  predicate OfKind(s: Scalar, v: Py) {
    match s
    case IntKind(_, _) => v.PyInt?
    case FloatKind => v.PyFloat?
    case BoolKind => v.PyBool?
    case _ => false
  }

  /** Between numbers coercion never changes the value, and refuses exactly when the
      kind has none that equals it. */
  lemma CoercionKeepsNumbers(h: Host, s: Scalar, v: Py, r: Py)
    requires (s.IntKind? || s.FloatKind? || s.BoolKind?) && NumberOf(v).Some?
    ensures CoerceScalar(h, s, v) == Some(r) <==> OfKind(s, r) && NumberOf(r) == NumberOf(v)
  {
    if s.IntKind? && v.PyFloat? && r.PyInt? && r.i as real == v.r {
      assert v.r.Floor == r.i;
    }
  }

  /** What a setter has been given once it would be given again. */
  lemma CoercionIsIdempotent(h: Host, s: Scalar, v: Py)
    requires CoerceScalar(h, s, v).Some?
    ensures CoerceScalar(h, s, CoerceScalar(h, s, v).value) == CoerceScalar(h, s, v)
  {
  }

  function ScalarToPython(s: Scalar, v: Py): Py {
    if s.EnumKind? && v.PyInt? && v.i in s.byNumber then PyStr(s.byNumber[v.i]) else v
  }

  /** Encodes a custom value, unless it is already in wire form. */
  function WireValue(c: Codec, v: Py): Option<Py> {
    if v.PyDict? && |v.entries| == 1 && v.entries[0].key == PyStr("value") then
      var inner := v.entries[0].value;
      if c.wire.BytesKind? && inner.PyBytes? then Some(inner) else c.encode(inner)
    else if c.wire.BytesKind? && v.PyBytes? then Some(v)
    else c.encode(v)
  }

  /** The runtime's setter: refuses a value of the wrong type or range. */
  function Accept(s: Scalar, v: Option<Py>): Option<Cell> {
    if v.Some? && Holds(s, v.value) then Some(Value(v.value)) else None
  }

  function FieldIndex(fields: seq<Field>, name: Py): (i: Option<nat>)
    ensures i.Some? ==> i.value < |fields| && PyStr(fields[i.value].name) == name
  {
    if fields == [] then None
    else if PyStr(fields[0].name) == name then Some(0)
    else match FieldIndex(fields[1..], name)
      case None => None
      case Some(i) => Some(i + 1)
  }

  /** Setting a oneof member clears its siblings. */
  function SetSingle(fields: seq<Field>, slots: seq<Slot>, i: nat, cell: Cell): seq<Slot>
    requires i < |slots| == |fields|
  {
    seq(|slots|, j requires 0 <= j < |slots| =>
      if j == i then Single(cell) else if Siblings(fields[i], fields[j]) then Unset else slots[j])
  }

  function RowAt(rows: seq<Row>, key: Py): (i: Option<nat>)
    ensures i.Some? ==> i.value < |rows| && rows[i.value].key == key
  {
    if rows == [] then None
    else if rows[0].key == key then Some(0)
    else match RowAt(rows[1..], key)
      case None => None
      case Some(i) => Some(i + 1)
  }

  function PutRow(rows: seq<Row>, key: Py, cell: Cell): seq<Row> {
    match RowAt(rows, key)
    case None => rows + [Row(key, cell)]
    case Some(i) => rows[i := Row(key, cell)]
  }

  // ---- filling ----

  function Fill(h: Host, sch: Schema, m: Msg, obj: Py): Option<Msg>
    decreases obj, 0
  {
    match obj
    case PyMessage(other) => if other.full == m.full then Some(other) else None
    case PyNone => Some(m)
    case PyDict(entries) => FillEntries(h, sch, m, entries)
    case _ => None
  }

  function FillEntries(h: Host, sch: Schema, m: Msg, entries: seq<Pair>): Option<Msg>
    decreases entries, 0
  {
    if entries == [] then Some(m)
    else match FillEntry(h, sch, m, entries[0])
      case None => None
      case Some(next) => FillEntries(h, sch, next, entries[1..])
  }

  /** Unknown keys and None are skipped. */
  function FillEntry(h: Host, sch: Schema, m: Msg, entry: Pair): Option<Msg>
    decreases entry, 0
  {
    if m.full !in sch || |m.slots| != |sch[m.full]| then None
    else match FieldIndex(sch[m.full], entry.key)
      case None => Some(m)
      case Some(i) => if entry.value.PyNone? then Some(m) else FillField(h, sch, m, i, entry.value)
  }

  function FillField(h: Host, sch: Schema, m: Msg, i: nat, value: Py): Option<Msg>
    requires m.full in sch && i < |m.slots| == |sch[m.full]|
    decreases value, 2
  {
    var f := sch[m.full][i];
    match f.arity
    case MapFrom(key) =>
      if !value.PyDict? || !m.slots[i].Table? then None
      else (match FillRows(h, sch, f.kind, key, m.slots[i].rows, value.entries)
        case None => None
        case Some(rows) => Some(m.(slots := m.slots[i := Table(rows)])))
    case Repeated =>
      if !value.PyList? || !m.slots[i].Many? then None
      else (match FillCells(h, sch, f.kind, m.slots[i].cells, value.items)
        case None => None
        case Some(cells) => Some(m.(slots := m.slots[i := Many(cells)])))
    case _ =>
      var current := if m.slots[i].Single? then Some(m.slots[i].cell) else None;
      match FillCell(h, sch, f.kind, current, value)
      case None => None
      case Some(cell) => Some(m.(slots := SetSingle(sch[m.full], m.slots, i, cell)))
  }

  function FillCell(h: Host, sch: Schema, k: Kind, current: Option<Cell>, value: Py): Option<Cell>
    decreases value, 1
  {
    match k
    case ScalarOf(s) => Accept(s, CoerceScalar(h, s, value))
    case CustomOf(c) => Accept(c.wire, WireValue(c, value))
    case MessageOf(full) =>
      var sub := if current.Some? && current.value.Sub? then current.value.m else Fresh(sch, full);
      match Fill(h, sch, sub, value)
      case None => None
      case Some(filled) => Some(Sub(filled))
  }

  function FillCells(h: Host, sch: Schema, k: Kind, cells: seq<Cell>, items: seq<Py>): Option<seq<Cell>>
    decreases items, 0
  {
    if items == [] then Some(cells)
    else match FillCell(h, sch, k, None, items[0])
      case None => None
      case Some(cell) => FillCells(h, sch, k, cells + [cell], items[1..])
  }

  /** A None entry is skipped, and only that one. */
  function FillRows(h: Host, sch: Schema, k: Kind, key: Scalar, rows: seq<Row>, entries: seq<Pair>): Option<seq<Row>>
    decreases entries, 0
  {
    if entries == [] then Some(rows)
    else match FillRow(h, sch, k, key, rows, entries[0])
      case None => None
      case Some(next) => FillRows(h, sch, k, key, next, entries[1..])
  }

  function FillRow(h: Host, sch: Schema, k: Kind, key: Scalar, rows: seq<Row>, entry: Pair): Option<seq<Row>>
    decreases entry, 0
  {
    if entry.value.PyNone? then Some(rows)
    else if !Holds(key, entry.key) then None
    else
      var current := match RowAt(rows, entry.key) case None => None case Some(i) => Some(rows[i].cell);
      match FillCell(h, sch, k, current, entry.value)
      case None => None
      case Some(cell) => Some(PutRow(rows, entry.key, cell))
  }

  // ---- showing ----

  datatype Shown = Raises | Absent | Shows(v: Py)

  function ToPython(sch: Schema, m: Msg): Option<Py>
    decreases m, 1
  {
    if m.full !in sch || |m.slots| != |sch[m.full]| then None
    else match ShowFrom(sch, m, 0)
      case None => None
      case Some(entries) => Some(PyDict(entries))
  }

  function ShowFrom(sch: Schema, m: Msg, i: nat): Option<seq<Pair>>
    requires m.full in sch && i <= |m.slots| == |sch[m.full]|
    decreases m, 0, |m.slots| - i
  {
    if i == |m.slots| then Some([])
    else
      var f := sch[m.full][i];
      match ShowSlot(sch, f, m.slots[i])
      case Raises => None
      case Absent => ShowFrom(sch, m, i + 1)
      case Shows(v) => Prepend(Pair(PyStr(f.name), v), ShowFrom(sch, m, i + 1))
  }

  function Prepend<T>(x: T, rest: Option<seq<T>>): Option<seq<T>> {
    match rest
    case None => None
    case Some(xs) => Some([x] + xs)
  }

  function ShowSlot(sch: Schema, f: Field, slot: Slot): Shown
    decreases slot, 0
  {
    match slot
    case Table(rows) =>
      (match ShowRows(sch, f.kind, rows) case None => Raises case Some(entries) => Shows(PyDict(entries)))
    case Many(cells) =>
      (match ShowCells(sch, f.kind, cells) case None => Raises case Some(items) => Shows(PyList(items)))
    case Unset => if f.arity.Member? then Absent else Shows(PyNone)
    case Single(cell) => (match ShowCell(sch, f.kind, cell) case None => Raises case Some(v) => Shows(v))
  }

  function ShowCell(sch: Schema, k: Kind, cell: Cell): Option<Py>
    decreases cell, 0
  {
    match cell
    case Sub(m) => ToPython(sch, m)
    case Value(v) => (
      match k
      case CustomOf(c) => c.decode(v)
      case ScalarOf(s) => Some(ScalarToPython(s, v))
      case MessageOf(_) => None)
  }

  function ShowCells(sch: Schema, k: Kind, cells: seq<Cell>): Option<seq<Py>>
    decreases cells, 0
  {
    if cells == [] then Some([])
    else match ShowCell(sch, k, cells[0])
      case None => None
      case Some(v) => Prepend(v, ShowCells(sch, k, cells[1..]))
  }

  function ShowRows(sch: Schema, k: Kind, rows: seq<Row>): Option<seq<Pair>>
    decreases rows, 0
  {
    if rows == [] then Some([])
    else match ShowRow(sch, k, rows[0])
      case None => None
      case Some(entry) => Prepend(entry, ShowRows(sch, k, rows[1..]))
  }

  function ShowRow(sch: Schema, k: Kind, row: Row): Option<Pair>
    decreases row, 0
  {
    match ShowCell(sch, k, row.cell)
    case None => None
    case Some(v) => Some(Pair(row.key, v))
  }
}
