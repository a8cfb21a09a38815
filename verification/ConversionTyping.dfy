/** Whatever value a caller hands in, it is refused or the message stays well typed. */
module ConversionTyping {
  import opened Common
  import opened MessageShape
  import opened Conversion

  /** Every message handed in as a value is one of the schema's own. */
  ghost predicate MessagesFit(sch: Schema, v: Py)
    decreases v
  {
    match v
    case PyMessage(m) => WellTyped(sch, m)
    case PyList(items) => forall i :: 0 <= i < |items| ==> MessagesFit(sch, items[i])
    case PyDict(entries) => forall i :: 0 <= i < |entries| ==> EntryFits(sch, entries[i])
    case _ => true
  }

  ghost predicate EntryFits(sch: Schema, entry: Pair)
    decreases entry
  {
    MessagesFit(sch, entry.value)
  }

  lemma FreshFits(sch: Schema, full: string)
    requires WellFormed(sch) && full in sch
    ensures WellTyped(sch, Fresh(sch, full))
  {
    var m := Fresh(sch, full);
    forall i | 0 <= i < |m.slots|
      ensures SlotFits(sch, sch[full][i], m.slots[i])
    {
      assert KindFits(sch, sch[full][i].kind);
    }
  }

  /** Replacing one slot by one that fits, siblings cleared, keeps a message well typed. */
  lemma SlotReplaced(sch: Schema, m: Msg, i: nat, slots: seq<Slot>)
    requires WellTyped(sch, m) && i < |m.slots| == |slots|
    requires SlotFits(sch, sch[m.full][i], slots[i])
    requires forall j :: 0 <= j < |slots| && j != i ==>
      if Siblings(sch[m.full][i], sch[m.full][j]) then slots[j].Unset? else slots[j] == m.slots[j]
    ensures WellTyped(sch, m.(slots := slots))
  {
    var fields := sch[m.full];
    forall j | 0 <= j < |slots|
      ensures SlotFits(sch, fields[j], slots[j])
    {
      assert SlotFits(sch, fields[j], m.slots[j]);
    }
    forall a, b | 0 <= a < |slots| && 0 <= b < |slots| && a != b && Siblings(fields[a], fields[b])
      ensures slots[a].Unset? || slots[b].Unset?
    {
      assert Siblings(fields[b], fields[a]);
    }
  }

  lemma {:induction false} FillKeepsTyping(h: Host, sch: Schema, m: Msg, obj: Py)
    requires WellFormed(sch) && WellTyped(sch, m) && MessagesFit(sch, obj)
    ensures Fill(h, sch, m, obj).Some? ==>
          WellTyped(sch, Fill(h, sch, m, obj).value) && Fill(h, sch, m, obj).value.full == m.full
    decreases obj, 0
  {
    if obj.PyDict? { EntriesKeepTyping(h, sch, m, obj.entries); }
  }

  lemma {:induction false} EntriesKeepTyping(h: Host, sch: Schema, m: Msg, entries: seq<Pair>)
    requires WellFormed(sch) && WellTyped(sch, m)
    requires forall i :: 0 <= i < |entries| ==> EntryFits(sch, entries[i])
    ensures FillEntries(h, sch, m, entries).Some? ==>
      WellTyped(sch, FillEntries(h, sch, m, entries).value) && FillEntries(h, sch, m, entries).value.full == m.full
    decreases entries, 0
  {
    if entries != [] {
      EntryKeepsTyping(h, sch, m, entries[0]);
      var next := FillEntry(h, sch, m, entries[0]);
      if next.Some? { EntriesKeepTyping(h, sch, next.value, entries[1..]); }
    }
  }

  lemma {:induction false} EntryKeepsTyping(h: Host, sch: Schema, m: Msg, entry: Pair)
    requires WellFormed(sch) && WellTyped(sch, m) && EntryFits(sch, entry)
    ensures FillEntry(h, sch, m, entry).Some? ==>
      WellTyped(sch, FillEntry(h, sch, m, entry).value) && FillEntry(h, sch, m, entry).value.full == m.full
    decreases entry, 0
  {
    var at := FieldIndex(sch[m.full], entry.key);
    if at.Some? && !entry.value.PyNone? { FieldKeepsTyping(h, sch, m, at.value, entry.value); }
  }

  lemma {:induction false} FieldKeepsTyping(h: Host, sch: Schema, m: Msg, i: nat, value: Py)
    requires WellFormed(sch) && WellTyped(sch, m) && i < |m.slots| && MessagesFit(sch, value)
    ensures FillField(h, sch, m, i, value).Some? ==>
      WellTyped(sch, FillField(h, sch, m, i, value).value) && FillField(h, sch, m, i, value).value.full == m.full
    decreases value, 2
  {
    var f, filled := sch[m.full][i], FillField(h, sch, m, i, value);
    assert KindFits(sch, f.kind) && SlotFits(sch, f, m.slots[i]);
    match f.arity
    case MapFrom(key) =>
      if value.PyDict? { RowsKeepTyping(h, sch, f, key, m.slots[i].rows, value.entries); }
      if filled.Some? { SlotReplaced(sch, m, i, filled.value.slots); }
    case Repeated =>
      if value.PyList? { CellsKeepTyping(h, sch, f.kind, m.slots[i].cells, value.items); }
      if filled.Some? { SlotReplaced(sch, m, i, filled.value.slots); }
    case _ =>
      CellKeepsTyping(h, sch, f.kind, if m.slots[i].Single? then Some(m.slots[i].cell) else None, value);
      if filled.Some? { SlotReplaced(sch, m, i, filled.value.slots); }
  }

  lemma {:induction false} CellKeepsTyping(h: Host, sch: Schema, k: Kind, current: Option<Cell>, value: Py)
    requires WellFormed(sch) && KindFits(sch, k) && MessagesFit(sch, value)
    requires current.Some? ==> CellFits(sch, k, current.value)
    ensures FillCell(h, sch, k, current, value).Some? ==> CellFits(sch, k, FillCell(h, sch, k, current, value).value)
    decreases value, 1
  {
    if k.MessageOf? {
      FreshFits(sch, k.full);
      var sub := if current.Some? && current.value.Sub? then current.value.m else Fresh(sch, k.full);
      FillKeepsTyping(h, sch, sub, value);
    }
  }

  lemma {:induction false} CellsKeepTyping(h: Host, sch: Schema, k: Kind, cells: seq<Cell>, items: seq<Py>)
    requires WellFormed(sch) && KindFits(sch, k)
    requires forall i :: 0 <= i < |cells| ==> CellFits(sch, k, cells[i])
    requires forall i :: 0 <= i < |items| ==> MessagesFit(sch, items[i])
    ensures FillCells(h, sch, k, cells, items).Some? ==>
      forall i :: 0 <= i < |FillCells(h, sch, k, cells, items).value| ==>
        CellFits(sch, k, FillCells(h, sch, k, cells, items).value[i])
    decreases items, 0
  {
    if items != [] {
      CellKeepsTyping(h, sch, k, None, items[0]);
      var cell := FillCell(h, sch, k, None, items[0]);
      if cell.Some? { CellsKeepTyping(h, sch, k, cells + [cell.value], items[1..]); }
    }
  }

  lemma {:induction false} KeyIsNew(rows: seq<Row>, key: Py)
    requires RowAt(rows, key) == None
    ensures forall i :: 0 <= i < |rows| ==> rows[i].key != key
  {
    if rows != [] { KeyIsNew(rows[1..], key); }
  }

  /** Setting an entry of a map overwrites the entry of that key, or adds one. */
  lemma PutRowFits(sch: Schema, f: Field, key: Scalar, rows: seq<Row>, at: Py, cell: Cell)
    requires f.arity == MapFrom(key) && SlotFits(sch, f, Table(rows))
    requires Holds(key, at) && CellFits(sch, f.kind, cell)
    ensures SlotFits(sch, f, Table(PutRow(rows, at, cell)))
  {
    if RowAt(rows, at) == None { KeyIsNew(rows, at); }
  }

  lemma {:induction false} RowsKeepTyping(h: Host, sch: Schema, f: Field, key: Scalar, rows: seq<Row>,
                                          entries: seq<Pair>)
    requires WellFormed(sch) && KindFits(sch, f.kind) && f.arity == MapFrom(key) && SlotFits(sch, f, Table(rows))
    requires forall i :: 0 <= i < |entries| ==> EntryFits(sch, entries[i])
    ensures FillRows(h, sch, f.kind, key, rows, entries).Some? ==>
      SlotFits(sch, f, Table(FillRows(h, sch, f.kind, key, rows, entries).value))
    decreases entries, 0
  {
    if entries != [] {
      RowKeepsTyping(h, sch, f, key, rows, entries[0]);
      var next := FillRow(h, sch, f.kind, key, rows, entries[0]);
      if next.Some? { RowsKeepTyping(h, sch, f, key, next.value, entries[1..]); }
    }
  }

  lemma {:induction false} RowKeepsTyping(h: Host, sch: Schema, f: Field, key: Scalar, rows: seq<Row>, entry: Pair)
    requires WellFormed(sch) && KindFits(sch, f.kind) && f.arity == MapFrom(key) && SlotFits(sch, f, Table(rows))
    requires EntryFits(sch, entry)
    ensures FillRow(h, sch, f.kind, key, rows, entry).Some? ==>
      SlotFits(sch, f, Table(FillRow(h, sch, f.kind, key, rows, entry).value))
    decreases entry, 0
  {
    if !entry.value.PyNone? && Holds(key, entry.key) {
      var at := RowAt(rows, entry.key);
      var current := if at.Some? then Some(rows[at.value].cell) else None;
      CellKeepsTyping(h, sch, f.kind, current, entry.value);
      var cell := FillCell(h, sch, f.kind, current, entry.value);
      if cell.Some? { PutRowFits(sch, f, key, rows, entry.key, cell.value); }
    }
  }
}
