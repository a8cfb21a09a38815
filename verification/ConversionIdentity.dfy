/** Without custom types the trip through Python values is the identity. */
module ConversionIdentity {
  import opened Common
  import opened MessageShape
  import opened Conversion
  import opened ConversionRoundTrip

  predicate Native(k: Kind) {
    !k.CustomOf?
  }

  predicate AllNative(sch: Schema) {
    forall full :: full in sch ==> forall i :: 0 <= i < |sch[full]| ==> Native(sch[full][i].kind)
  }

  lemma {:induction false} NativeMessage(sch: Schema, m: Msg)
    requires AllNative(sch)
    ensures Rewire(sch, m) == m
    decreases m, 0
  {
    if m.full in sch && |m.slots| == |sch[m.full]| {
      forall i | 0 <= i < |m.slots|
        ensures Rewire(sch, m).slots[i] == m.slots[i]
      {
        assert Native(sch[m.full][i].kind);
        NativeSlot(sch, sch[m.full][i], m.slots[i]);
      }
      assert Rewire(sch, m).slots == m.slots;
    }
  }

  lemma {:induction false} NativeSlot(sch: Schema, f: Field, slot: Slot)
    requires AllNative(sch) && Native(f.kind)
    ensures RewireSlot(sch, f, slot) == slot
    decreases slot, 0
  {
    match slot
    case Unset =>
    case Single(cell) => NativeCell(sch, f.kind, cell);
    case Many(cells) => NativeCells(sch, f.kind, cells);
    case Table(rows) => NativeRows(sch, f.kind, rows);
  }

  lemma {:induction false} NativeCell(sch: Schema, k: Kind, cell: Cell)
    requires AllNative(sch) && Native(k)
    ensures RewireCell(sch, k, cell) == cell
    decreases cell, 0
  {
    if cell.Sub? { NativeMessage(sch, cell.m); }
  }

  lemma {:induction false} NativeCells(sch: Schema, k: Kind, cells: seq<Cell>)
    requires AllNative(sch) && Native(k)
    ensures RewireCells(sch, k, cells) == cells
    decreases cells, 0
  {
    if cells != [] {
      NativeCell(sch, k, cells[0]);
      NativeCells(sch, k, cells[1..]);
      assert cells == [cells[0]] + cells[1..];
    }
  }

  lemma {:induction false} NativeRow(sch: Schema, k: Kind, row: Row)
    requires AllNative(sch) && Native(k)
    ensures RewireRow(sch, k, row) == row
    decreases row, 0
  {
    NativeCell(sch, k, row.cell);
  }

  lemma {:induction false} NativeRows(sch: Schema, k: Kind, rows: seq<Row>)
    requires AllNative(sch) && Native(k)
    ensures RewireRows(sch, k, rows) == rows
    decreases rows, 0
  {
    if rows != [] {
      NativeRow(sch, k, rows[0]);
      NativeRows(sch, k, rows[1..]);
      assert rows == [rows[0]] + rows[1..];
    }
  }

  /** A schema without custom types: nothing raises, the message itself comes back,
      every presence included, and so two messages of one type that look alike are
      the same. */
  lemma NativeRoundTrip(h: Host, sch: Schema, m: Msg, other: Msg)
    requires WellFormed(sch) && AllNative(sch) && WellTyped(sch, m) && WellTyped(sch, other) && m.full == other.full
    ensures ToPython(sch, m).Some? && Fill(h, sch, Fresh(sch, m.full), ToPython(sch, m).value) == Some(m)
    ensures ToPython(sch, m) == ToPython(sch, other) ==> m == other
  {
    NativeShows(sch, m);
    NativeShows(sch, other);
    NativeTrusted(sch);
    MessageRoundTrip(h, sch, m);
    MessageRoundTrip(h, sch, other);
    NativeMessage(sch, m);
    NativeMessage(sch, other);
  }

  lemma NativeTrusted(sch: Schema)
    requires AllNative(sch)
    ensures AllTrusted(sch)
  {
    forall full, i | full in sch && 0 <= i < |sch[full]|
      ensures Trusted(sch[full][i].kind)
    {
      assert Native(sch[full][i].kind);
    }
  }

  lemma {:induction false} NativeShows(sch: Schema, m: Msg)
    requires WellFormed(sch) && AllNative(sch) && WellTyped(sch, m)
    ensures ToPython(sch, m).Some?
    decreases m, 2
  {
    NativeShowsFrom(sch, m, 0);
  }

  lemma {:induction false} NativeShowsFrom(sch: Schema, m: Msg, i: nat)
    requires WellFormed(sch) && AllNative(sch) && WellTyped(sch, m) && i <= |m.slots|
    ensures ShowFrom(sch, m, i).Some?
    decreases m, 1, |m.slots| - i
  {
    if i < |m.slots| {
      NativeShowsFrom(sch, m, i + 1);
      NativeShowsSlot(sch, m, i);
    }
  }

  lemma {:induction false} NativeShowsSlot(sch: Schema, m: Msg, i: nat)
    requires WellFormed(sch) && AllNative(sch) && WellTyped(sch, m) && i < |m.slots|
    ensures !ShowSlot(sch, sch[m.full][i], m.slots[i]).Raises?
    decreases m, 0
  {
    var f, slot := sch[m.full][i], m.slots[i];
    assert Native(f.kind) && SlotFits(sch, f, slot);
    match slot
    case Unset =>
    case Single(cell) => NativeShowsCell(sch, f.kind, cell);
    case Many(cells) => NativeShowsCells(sch, f.kind, cells);
    case Table(rows) =>
      forall j | 0 <= j < |rows|
        ensures CellFits(sch, f.kind, rows[j].cell)
      {
      }
      NativeShowsRows(sch, f.kind, rows);
  }

  lemma {:induction false} NativeShowsCell(sch: Schema, k: Kind, cell: Cell)
    requires WellFormed(sch) && AllNative(sch) && Native(k) && CellFits(sch, k, cell)
    ensures ShowCell(sch, k, cell).Some?
    decreases cell, 0
  {
    if cell.Sub? { NativeShows(sch, cell.m); }
  }

  lemma {:induction false} NativeShowsCells(sch: Schema, k: Kind, cells: seq<Cell>)
    requires WellFormed(sch) && AllNative(sch) && Native(k)
    requires forall i :: 0 <= i < |cells| ==> CellFits(sch, k, cells[i])
    ensures ShowCells(sch, k, cells).Some?
    decreases cells, 0
  {
    if cells != [] {
      NativeShowsCell(sch, k, cells[0]);
      NativeShowsCells(sch, k, cells[1..]);
    }
  }

  lemma {:induction false} NativeShowsRow(sch: Schema, k: Kind, row: Row)
    requires WellFormed(sch) && AllNative(sch) && Native(k) && CellFits(sch, k, row.cell)
    ensures ShowRow(sch, k, row).Some?
    decreases row, 0
  {
    NativeShowsCell(sch, k, row.cell);
  }

  lemma {:induction false} NativeShowsRows(sch: Schema, k: Kind, rows: seq<Row>)
    requires WellFormed(sch) && AllNative(sch) && Native(k)
    requires forall i :: 0 <= i < |rows| ==> CellFits(sch, k, rows[i].cell)
    ensures ShowRows(sch, k, rows).Some?
    decreases rows, 0
  {
    if rows != [] {
      NativeShowsRow(sch, k, rows[0]);
      NativeShowsRows(sch, k, rows[1..]);
    }
  }
}
