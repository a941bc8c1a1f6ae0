/** The triggers that keep `jbpm_active_clob` an index of the large objects in
    use, so that a vacuum of orphaned large objects spares them. */
module LargeObjects {
  import opened Prelude

  type Oid = int

  /** The six protected text columns, each the only one of its table. */
  datatype Column =
    | BooleanExpressionExpression
    | EmailHeaderBody
    | I18nTextText
    | TaskCommentText
    | QueryDefinitionStoreQExpression
    | DeploymentStoreDeploymentUnit

  datatype Cell = Cell(column: Column, row: int)

  type Cells = map<Cell, Option<Oid>>

  /** The protected columns and the index beside them. */
  datatype Db = Db(cells: Cells, active: multiset<Oid>)

  /** `IS DISTINCT FROM` between the old and the new value of a cell. */
  predicate Changed(cells: Cells, changes: Cells, c: Cell) {
    c in cells && c in changes && cells[c] != changes[c]
  }

  /** The changed cells among `cs` that are about to hold `x`. */
  function Adding(cells: Cells, changes: Cells, cs: set<Cell>, x: Oid): set<Cell> {
    set c | c in cs && Changed(cells, changes, c) && changes[c] == Some(x)
  }

  /** Some changed cell among `cs` held `x`. */
  predicate Replacing(cells: Cells, changes: Cells, cs: set<Cell>, x: Oid) {
    exists c :: c in cs && Changed(cells, changes, c) && cells[c] == Some(x)
  }

  predicate Holds(cells: Cells, c: Cell, x: Oid) {
    c in cells && cells[c] == Some(x)
  }

  function Holding(cells: Cells, cs: set<Cell>, x: Oid): set<Cell> {
    set c | c in cs && Holds(cells, c, x)
  }

  /** Some cell among `cs` holds `x`. */
  predicate Held(cells: Cells, cs: set<Cell>, x: Oid) {
    exists c :: c in cs && Holds(cells, c, x)
  }

  // ------------------------------------------------------ what a statement does

  datatype Statement =
    | Insert(rows: Cells)
    | Update(changes: Cells)
    | Delete(gone: set<Cell>)

  /** The statement names rows of the table as an INSERT, UPDATE or DELETE can. */
  ghost predicate Applies(db: Db, s: Statement) {
    match s
    case Insert(rows) => rows.Keys !! db.cells.Keys
    case Update(changes) => changes.Keys <= db.cells.Keys
    case Delete(gone) => gone <= db.cells.Keys
  }

  function CellsAfter(cells: Cells, s: Statement): Cells {
    match s
    case Insert(rows) => cells + rows
    case Update(changes) => cells + changes
    case Delete(gone) => cells - gone
  }

  /** How often `x` is in the index once `s` and all its row triggers are through. */
  ghost function ActiveAfter(db: Db, s: Statement, x: Oid): nat {
    match s
    case Insert(rows) => db.active[x] + |Holding(rows, rows.Keys, x)|
    case Update(changes) =>
      if Replacing(db.cells, changes, changes.Keys, x) then 0
      else db.active[x] + |Adding(db.cells, changes, changes.Keys, x)|
    case Delete(gone) => if Held(db.cells, gone, x) then 0 else db.active[x]
  }

  ghost predicate Executes(db: Db, s: Statement, db': Db) {
    && Applies(db, s)
    && db'.cells == CellsAfter(db.cells, s)
    && forall x :: db'.active[x] == ActiveAfter(db, s, x)
  }

  // ----------------------------------------------------------- the row triggers

  class Database {
    var cells: Cells
    var active: multiset<Oid>

    constructor ()
      ensures cells == map[] && active == multiset{}
    {
      cells := map[];
      active := multiset{};
    }

    function Contents(): Db
      reads this
    {
      Db(cells, active)
    }

    method BeforeInsert(new_: Option<Oid>)
      modifies this`active
      ensures active == if new_.Some? then old(active) + multiset{new_.value} else old(active)
    {
      if new_.Some? {
        active := active + multiset{new_.value};
      }
    }

    method BeforeUpdate(old_: Option<Oid>, new_: Option<Oid>)
      modifies this`active
      ensures active == if new_.Some? && old_ != new_ then old(active) + multiset{new_.value} else old(active)
    {
      if new_.Some? && old_ != new_ {
        active := active + multiset{new_.value};
      }
    }

    /** Deletes every entry with the old value. */
    method AfterUpdate(old_: Option<Oid>, new_: Option<Oid>)
      modifies this`active
      ensures active == if old_.Some? && old_ != new_ then old(active)[old_.value := 0] else old(active)
    {
      if old_.Some? && old_ != new_ {
        active := active[old_.value := 0];
      }
    }

    method AfterDelete(old_: Option<Oid>)
      modifies this`active
      ensures active == if old_.Some? then old(active)[old_.value := 0] else old(active)
    {
      if old_.Some? {
        active := active[old_.value := 0];
      }
    }

    // ------------------------------------------------------------- statements

    /** Each row's BEFORE trigger fires as the row is stored. A key that exists
        already makes the whole statement fail. */
    method InsertRows(rows: Cells) returns (ok: bool)
      modifies this
      ensures ok == (rows.Keys !! old(cells).Keys)
      ensures ok ==> Executes(old(Contents()), Insert(rows), Contents())
      ensures !ok ==> Contents() == old(Contents())
    {
      ok := rows.Keys !! cells.Keys;
      if ok {
        StoreNew(rows);
      }
    }

    method StoreNew(rows: Cells)
      modifies this
      ensures cells == old(cells) + rows
      ensures Inserted(rows, old(active), rows.Keys, active)
    {
      var todo := rows.Keys;
      ghost var done: set<Cell> := {};
      NothingInserted(rows, active);
      while todo != {}
        invariant done !! todo && done + todo == rows.Keys
        invariant Merged(old(cells), rows, done, cells)
        invariant Inserted(rows, old(active), done, active)
      {
        var c :| c in todo;
        ghost var a := active;
        BeforeInsert(rows[c]);
        InsertedOneMore(rows, old(active), done, c, a, active);
        MergedOneMore(old(cells), rows, done, c, cells);
        cells := cells[c := rows[c]];
        todo, done := todo - {c}, done + {c};
      }
      assert done == rows.Keys;
      MergedAll(old(cells), rows, cells);
    }

    /** The BEFORE triggers fire row by row as the rows change; the AFTER
        triggers wait until the statement has changed its last row. */
    method UpdateRows(changes: Cells)
      requires changes.Keys <= cells.Keys
      modifies this
      ensures Executes(old(Contents()), Update(changes), Contents())
    {
      var before := cells;
      StoreChanges(changes);
      FireAfterUpdate(before, changes);
    }

    method StoreChanges(changes: Cells)
      requires changes.Keys <= cells.Keys
      modifies this
      ensures cells == old(cells) + changes
      ensures Filled(old(cells), changes, old(active), changes.Keys, active)
    {
      var todo := changes.Keys;
      ghost var done: set<Cell> := {};
      while todo != {}
        invariant done !! todo && done + todo == changes.Keys
        invariant Merged(old(cells), changes, done, cells)
        invariant Filled(old(cells), changes, old(active), done, active)
      {
        var c :| c in todo;
        ghost var a := active;
        BeforeUpdate(cells[c], changes[c]);
        FilledOneMore(old(cells), changes, old(active), done, c, a, active);
        MergedOneMore(old(cells), changes, done, c, cells);
        cells := cells[c := changes[c]];
        todo, done := todo - {c}, done + {c};
      }
      assert done == changes.Keys;
      MergedAll(old(cells), changes, cells);
    }

    method FireAfterUpdate(before: Cells, changes: Cells)
      requires changes.Keys <= before.Keys
      modifies this`active
      ensures Drained(before, changes, old(active), changes.Keys, active)
    {
      var todo := changes.Keys;
      ghost var done: set<Cell> := {};
      while todo != {}
        invariant done !! todo && done + todo == changes.Keys
        invariant Drained(before, changes, old(active), done, active)
      {
        var c :| c in todo;
        ghost var a := active;
        AfterUpdate(before[c], changes[c]);
        DrainedOneMore(before, changes, old(active), done, c, a, active);
        todo, done := todo - {c}, done + {c};
      }
      assert done == changes.Keys;
    }

    /** The rows go first, then the AFTER triggers fire. */
    method DeleteRows(gone: set<Cell>)
      requires gone <= cells.Keys
      modifies this
      ensures Executes(old(Contents()), Delete(gone), Contents())
    {
      ghost var db := Contents();
      var before := cells;
      cells := cells - gone;
      var todo := gone;
      ghost var done: set<Cell> := {};
      while todo != {}
        invariant done !! todo && done + todo == gone
        invariant cells == db.cells - gone
        invariant forall x :: active[x] == if Held(db.cells, done, x) then 0 else db.active[x]
      {
        var c :| c in todo;
        AfterDelete(before[c]);
        todo, done := todo - {c}, done + {c};
      }
    }
  }

  // ------------------------------------------------- one row more, in a statement

  /** The index after the BEFORE triggers for the cells in `done`. */
  ghost predicate Filled(cells: Cells, changes: Cells, before: multiset<Oid>, done: set<Cell>, active: multiset<Oid>) {
    forall x :: active[x] == before[x] + |Adding(cells, changes, done, x)|
  }

  /** The index after the AFTER UPDATE triggers for the cells in `done`. */
  ghost predicate Drained(cells: Cells, changes: Cells, filled: multiset<Oid>, done: set<Cell>, active: multiset<Oid>) {
    forall x :: active[x] == if Replacing(cells, changes, done, x) then 0 else filled[x]
  }

  ghost predicate Inserted(rows: Cells, before: multiset<Oid>, done: set<Cell>, active: multiset<Oid>) {
    forall x :: active[x] == before[x] + |Holding(rows, done, x)|
  }

  function Lookup(cells: Cells, c: Cell): Option<Option<Oid>> {
    if c in cells then Some(cells[c]) else None
  }

  /** The cells once those in `done` have been written. */
  ghost predicate Merged(before: Cells, rows: Cells, done: set<Cell>, cells: Cells) {
    forall c :: Lookup(cells, c) == if c in done then Lookup(rows, c) else Lookup(before, c)
  }

  lemma MergedOneMore(before: Cells, rows: Cells, done: set<Cell>, c: Cell, cells: Cells)
    requires c in rows && Merged(before, rows, done, cells)
    ensures Merged(before, rows, done + {c}, cells[c := rows[c]])
  {
    var t := cells[c := rows[c]];
    forall d ensures Lookup(t, d) == if d in done + {c} then Lookup(rows, d) else Lookup(before, d) {
      assert Lookup(t, d) == if d == c then Lookup(rows, c) else Lookup(cells, d);
    }
  }

  lemma MergedAll(before: Cells, rows: Cells, cells: Cells)
    requires Merged(before, rows, rows.Keys, cells)
    ensures cells == before + rows
  {
    forall c ensures Lookup(cells, c) == Lookup(before + rows, c) {
    }
    assert forall c :: c in cells <==> Lookup(cells, c).Some?;
    assert forall c :: c in before + rows <==> Lookup(before + rows, c).Some?;
    forall c | c in cells ensures cells[c] == (before + rows)[c] {
      assert Lookup(cells, c) == Lookup(before + rows, c);
    }
  }

  lemma NothingInserted(rows: Cells, before: multiset<Oid>)
    ensures Inserted(rows, before, {}, before)
  {
    forall x ensures |Holding(rows, {}, x)| == 0 {
      assert Holding(rows, {}, x) == {};
    }
  }

  lemma InsertedOneMore(rows: Cells, before: multiset<Oid>, done: set<Cell>, c: Cell, a: multiset<Oid>, a': multiset<Oid>)
    requires c in rows && c !in done && Inserted(rows, before, done, a)
    requires a' == if rows[c].Some? then a + multiset{rows[c].value} else a
    ensures Inserted(rows, before, done + {c}, a')
  {
    forall x ensures a'[x] == before[x] + |Holding(rows, done + {c}, x)| {
      if rows[c] == Some(x) {
        assert Holding(rows, done + {c}, x) == Holding(rows, done, x) + {c};
      } else {
        assert Holding(rows, done + {c}, x) == Holding(rows, done, x);
      }
    }
  }

  lemma FilledOneMore(cells: Cells, changes: Cells, before: multiset<Oid>, done: set<Cell>, c: Cell,
                      a: multiset<Oid>, a': multiset<Oid>)
    requires c in cells && c in changes && c !in done && Filled(cells, changes, before, done, a)
    requires a' == if changes[c].Some? && cells[c] != changes[c] then a + multiset{changes[c].value} else a
    ensures Filled(cells, changes, before, done + {c}, a')
  {
    forall x ensures a'[x] == before[x] + |Adding(cells, changes, done + {c}, x)| {
      if Changed(cells, changes, c) && changes[c] == Some(x) {
        assert Adding(cells, changes, done + {c}, x) == Adding(cells, changes, done, x) + {c};
      } else {
        assert Adding(cells, changes, done + {c}, x) == Adding(cells, changes, done, x);
      }
    }
  }

  lemma DrainedOneMore(cells: Cells, changes: Cells, filled: multiset<Oid>, done: set<Cell>, c: Cell,
                       a: multiset<Oid>, a': multiset<Oid>)
    requires c in cells && c in changes && Drained(cells, changes, filled, done, a)
    requires a' == if cells[c].Some? && cells[c] != changes[c] then a[cells[c].value := 0] else a
    ensures Drained(cells, changes, filled, done + {c}, a')
  {
    forall x ensures a'[x] == if Replacing(cells, changes, done + {c}, x) then 0 else filled[x] {
      if Replacing(cells, changes, done, x) {
        var d :| d in done && Changed(cells, changes, d) && cells[d] == Some(x);
        assert d in done + {c};
      }
      if Changed(cells, changes, c) && cells[c] == Some(x) {
        assert c in done + {c};
      }
    }
  }
}
