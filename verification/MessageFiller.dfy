/** The loops that fill a message and that show one, step by step. */
module MessageFiller {
  import opened Common
  import opened MessageShape
  import opened Conversion

  /** Populates a message from a dict, item by item, or refuses. */
  method FillMessage(h: Host, sch: Schema, message: Msg, obj: Py) returns (r: Option<Msg>)
    ensures r == Fill(h, sch, message, obj)
    decreases obj, 0
  {
    match obj
    case PyMessage(other) =>
      r := if other.full == message.full then Some(other) else None;
    case PyNone =>
      r := Some(message);
    case PyDict(entries) =>
      var filled := message;
      for i := 0 to |entries|
        invariant FillEntries(h, sch, filled, entries[i..]) == Fill(h, sch, message, obj)
      {
        assert entries[i..][0] == entries[i] && entries[i..][1..] == entries[i + 1..];
        if filled.full !in sch || |filled.slots| != |sch[filled.full]| {
          return None;
        }
        var at := FieldIndex(sch[filled.full], entries[i].key);
        if at.Some? && !entries[i].value.PyNone? {
          assert entries[i] in entries;
          r := FillOne(h, sch, filled, at.value, entries[i].value);
          if r == None { return; }
          filled := r.value;
        }
      }
      r := Some(filled);
    case _ =>
      r := None;
  }

  /** Sets one field from a Python value. */
  method FillOne(h: Host, sch: Schema, message: Msg, i: nat, value: Py) returns (r: Option<Msg>)
    requires message.full in sch && i < |message.slots| == |sch[message.full]|
    ensures r == FillField(h, sch, message, i, value)
    decreases value, 2
  {
    var f, slot := sch[message.full][i], message.slots[i];
    match f.arity
    case MapFrom(key) =>
      if !value.PyDict? || !slot.Table? { return None; }
      var rows := slot.rows;
      for n := 0 to |value.entries|
        invariant FillRows(h, sch, f.kind, key, rows, value.entries[n..])
               == FillRows(h, sch, f.kind, key, slot.rows, value.entries)
      {
        var rest := value.entries[n..];
        assert rest[0] == value.entries[n] && rest[1..] == value.entries[n + 1..];
        var entry := value.entries[n];
        if !entry.value.PyNone? {
          if !Holds(key, entry.key) { return None; }
          var at := RowAt(rows, entry.key);
          var cell := FillValue(h, sch, f.kind, if at.Some? then Some(rows[at.value].cell) else None, entry.value);
          if cell == None { return None; }
          rows := PutRow(rows, entry.key, cell.value);
        }
      }
      r := Some(message.(slots := message.slots[i := Table(rows)]));
    case Repeated =>
      if !value.PyList? || !slot.Many? { return None; }
      var cells := slot.cells;
      for n := 0 to |value.items|
        invariant FillCells(h, sch, f.kind, cells, value.items[n..])
               == FillCells(h, sch, f.kind, slot.cells, value.items)
      {
        var rest := value.items[n..];
        assert rest[0] == value.items[n] && rest[1..] == value.items[n + 1..];
        var cell := FillValue(h, sch, f.kind, None, value.items[n]);
        if cell == None { return None; }
        cells := cells + [cell.value];
      }
      r := Some(message.(slots := message.slots[i := Many(cells)]));
    case _ =>
      var cell := FillValue(h, sch, f.kind, if slot.Single? then Some(slot.cell) else None, value);
      if cell == None { return None; }
      r := Some(message.(slots := SetSingle(sch[message.full], message.slots, i, cell.value)));
  }

  method FillValue(h: Host, sch: Schema, k: Kind, current: Option<Cell>, value: Py) returns (r: Option<Cell>)
    ensures r == FillCell(h, sch, k, current, value)
    decreases value, 1
  {
    match k
    case ScalarOf(s) =>
      r := Accept(s, CoerceScalar(h, s, value));
    case CustomOf(c) =>
      r := Accept(c.wire, WireValue(c, value));
    case MessageOf(full) =>
      var sub := if current.Some? && current.value.Sub? then current.value.m else Fresh(sch, full);
      var filled := FillMessage(h, sch, sub, value);
      r := if filled.Some? then Some(Sub(filled.value)) else None;
  }

  /** Shows a message as a dict, field by field; None when a codec raises. */
  method MessageToPython(sch: Schema, message: Msg) returns (r: Option<Py>)
    requires message.full in sch && |message.slots| == |sch[message.full]|
    ensures r == ToPython(sch, message)
    decreases message, 1
  {
    var out: seq<Pair> := [];
    var fields := sch[message.full];
    OntoNothing(ShowFrom(sch, message, 0));
    for i := 0 to |fields|
      invariant ShowFrom(sch, message, 0) == Onto(out, ShowFrom(sch, message, i))
    {
      var shown := ShowSlot(sch, fields[i], message.slots[i]);
      if shown.Raises? { return None; }
      if shown.Shows? {
        OntoOne(out, Pair(PyStr(fields[i].name), shown.v), ShowFrom(sch, message, i + 1));
        out := out + [Pair(PyStr(fields[i].name), shown.v)];
      }
    }
    assert out + [] == out;
    r := Some(PyDict(out));
  }

  function Onto<T>(done: seq<T>, rest: Option<seq<T>>): Option<seq<T>> {
    match rest
    case None => None
    case Some(xs) => Some(done + xs)
  }

  lemma OntoNothing<T>(rest: Option<seq<T>>)
    ensures Onto([], rest) == rest
  {
    if rest.Some? { assert [] + rest.value == rest.value; }
  }

  lemma OntoOne<T>(done: seq<T>, x: T, rest: Option<seq<T>>)
    ensures Onto(done, Prepend(x, rest)) == Onto(done + [x], rest)
  {
    if rest.Some? { assert done + ([x] + rest.value) == done + [x] + rest.value; }
  }
}
