/** Messages as trees of fields, their schemas, and the Python values that stand
    for them. */
module MessageShape {
  import opened Common

  datatype Py =
    | PyNone
    | PyBool(b: bool)
    | PyInt(i: int)
    | PyFloat(r: real)
    | PyStr(s: string)
    | PyBytes(data: Bytes)
    | PyList(items: seq<Py>)
    | PyDict(entries: seq<Pair>)
    | PyMessage(m: Msg)
    | PyOther(tag: nat)

  /** An item of a Python dict. */
  datatype Pair = Pair(key: Py, value: Py)

  /** An entry of a map field. */
  datatype Row = Row(key: Py, cell: Cell)

  /** A field's content: a scalar (a custom type's wire value included) or a message. */
  datatype Cell = Value(v: Py) | Sub(m: Msg)

  /** `Unset` is what presence can tell apart from any content. */
  datatype Slot = Unset | Single(cell: Cell) | Many(cells: seq<Cell>) | Table(rows: seq<Row>)

  /** One slot per field, in the descriptor's order. */
  datatype Msg = Msg(full: string, slots: seq<Slot>)

  datatype Scalar =
    | IntKind(lo: int, hi: int)
    | FloatKind
    | BoolKind
    | StrKind
    | BytesKind
    | EnumKind(byName: map<string, int>, byNumber: map<int, string>)

  /** Carries values of a scalar kind for a type of the user's own. Either
      direction may raise. */
  datatype Codec = Codec(wire: Scalar, encode: Py -> Option<Py>, decode: Py -> Option<Py>)

  datatype Kind = ScalarOf(s: Scalar) | MessageOf(full: string) | CustomOf(c: Codec)

  /** A proto3 optional field is the only member of a oneof of its own. */
  datatype Arity = Singular | Member(oneof: nat) | Repeated | MapFrom(key: Scalar)

  datatype Field = Field(name: string, kind: Kind, arity: Arity)

  type Schema = map<string, seq<Field>>

  /** What the message runtime accepts for a scalar of this kind. */
  predicate Holds(s: Scalar, v: Py) {
    match s
    case IntKind(lo, hi) => v.PyInt? && lo <= v.i <= hi
    case FloatKind => v.PyFloat?
    case BoolKind => v.PyBool?
    case StrKind => v.PyStr?
    case BytesKind => v.PyBytes?
    case EnumKind(_, _) => v.PyInt? && -0x8000_0000 <= v.i < 0x8000_0000
  }

  function Default(s: Scalar): Py {
    match s
    case IntKind(_, _) => PyInt(0)
    case FloatKind => PyFloat(0.0)
    case BoolKind => PyBool(false)
    case StrKind => PyStr("")
    case BytesKind => PyBytes([])
    case EnumKind(_, _) => PyInt(0)
  }

  function DefaultSlot(f: Field): Slot {
    match f.arity
    case MapFrom(_) => Table([])
    case Repeated => Many([])
    case Member(_) => Unset
    case Singular => if f.kind.ScalarOf? then Single(Value(Default(f.kind.s))) else Unset
  }

  function Defaults(fields: seq<Field>): seq<Slot> {
    seq(|fields|, i requires 0 <= i < |fields| => DefaultSlot(fields[i]))
  }

  function Fresh(sch: Schema, full: string): Msg {
    Msg(full, if full in sch then Defaults(sch[full]) else [])
  }

  // ---- schemas and messages as the runtime guarantees them ----

  predicate ScalarFits(s: Scalar) {
    match s
    case IntKind(lo, hi) => lo <= 0 <= hi
    case EnumKind(byName, byNumber) =>
      && (forall name :: name in byName ==> Holds(s, PyInt(byName[name])))
      && (forall n :: n in byNumber ==> byNumber[n] in byName && byName[byNumber[n]] == n)
    case _ => true
  }

  predicate KindFits(sch: Schema, k: Kind) {
    match k
    case ScalarOf(s) => ScalarFits(s)
    case MessageOf(full) => full in sch
    case CustomOf(c) => ScalarFits(c.wire)
  }

  predicate WellFormed(sch: Schema) {
    forall full :: full in sch ==> FieldsFit(sch, sch[full])
  }

  predicate FieldsFit(sch: Schema, fields: seq<Field>) {
    && (forall i :: 0 <= i < |fields| ==> KindFits(sch, fields[i].kind))
    && (forall i, j :: 0 <= i < j < |fields| ==> fields[i].name != fields[j].name)
  }

  predicate Siblings(f: Field, g: Field) {
    f.arity.Member? && f.arity == g.arity
  }

  predicate WellTyped(sch: Schema, m: Msg)
    decreases m
  {
    && m.full in sch
    && |m.slots| == |sch[m.full]|
    && (forall i :: 0 <= i < |m.slots| ==> SlotFits(sch, sch[m.full][i], m.slots[i]))
    && OneofsHold(sch[m.full], m.slots)
  }

  /** At most one member of a oneof is set. */
  predicate OneofsHold(fields: seq<Field>, slots: seq<Slot>)
    requires |slots| == |fields|
  {
    forall i, j :: 0 <= i < |slots| && 0 <= j < |slots| && i != j && Siblings(fields[i], fields[j]) ==>
      slots[i].Unset? || slots[j].Unset?
  }

  predicate SlotFits(sch: Schema, f: Field, slot: Slot)
    decreases slot
  {
    match f.arity
    case MapFrom(key) =>
      && slot.Table?
      && (forall i :: 0 <= i < |slot.rows| ==> Holds(key, slot.rows[i].key) && CellFits(sch, f.kind, slot.rows[i].cell))
      && KeysDistinct(slot.rows)
    case Repeated => slot.Many? && forall i :: 0 <= i < |slot.cells| ==> CellFits(sch, f.kind, slot.cells[i])
    case Member(_) => slot.Unset? || (slot.Single? && CellFits(sch, f.kind, slot.cell))
    case Singular => (slot.Unset? && !f.kind.ScalarOf?) || (slot.Single? && CellFits(sch, f.kind, slot.cell))
  }

  predicate KeysDistinct(rows: seq<Row>) {
    forall i, j :: 0 <= i < j < |rows| ==> rows[i].key != rows[j].key
  }

  predicate CellFits(sch: Schema, k: Kind, cell: Cell)
    decreases cell
  {
    match k
    case ScalarOf(s) => cell.Value? && Holds(s, cell.v)
    case CustomOf(c) => cell.Value? && Holds(c.wire, cell.v)
    case MessageOf(full) => cell.Sub? && cell.m.full == full && WellTyped(sch, cell.m)
  }
}
