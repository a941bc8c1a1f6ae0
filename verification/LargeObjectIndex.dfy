/** When the index of large objects agrees with the columns it indexes. */
module LargeObjectIndex {
  import opened LargeObjects
  import opened Prelude

  ghost predicate Stored(cells: Cells, x: Oid) {
    exists c :: Holds(cells, c, x)
  }

  /** No large object is in two cells. */
  ghost predicate Unique(cells: Cells) {
    forall c, d, x | Holds(cells, c, x) && Holds(cells, d, x) :: c == d
  }

  /** The index holds each stored id exactly once, and nothing else. */
  ghost predicate Mirrors(db: Db) {
    && Unique(db.cells)
    && forall x :: db.active[x] == if Stored(db.cells, x) then 1 else 0
  }

  /** The weaker property that keeps large objects from being vacuumed. */
  ghost predicate Covers(db: Db) {
    forall x | Stored(db.cells, x) :: x in db.active
  }

  /** The statement stores only ids that are in no cell yet, and none of them twice. */
  ghost predicate Fresh(cells: Cells, s: Statement) {
    match s
    case Insert(rows) =>
      && Unique(rows)
      && forall c, x | Holds(rows, c, x) :: !Stored(cells, x)
    case Update(changes) =>
      && (forall c, d, x | Stores(cells, changes, c, x) && Stores(cells, changes, d, x) :: c == d)
      && forall c, x | Stores(cells, changes, c, x) :: !Stored(cells, x)
    case Delete(_) => true
  }

  predicate Stores(cells: Cells, changes: Cells, c: Cell, x: Oid) {
    Changed(cells, changes, c) && changes[c] == Some(x)
  }

  // --------------------------------------------------------- one statement

  /** A statement keeps the index exact if and only if the ids it stores are fresh. */
  lemma ExactIffFresh(db: Db, s: Statement, db': Db)
    requires Mirrors(db) && Executes(db, s, db')
    ensures Mirrors(db') <==> Fresh(db.cells, s)
  {
    match s {
      case Insert(rows) =>
        if Fresh(db.cells, s) { InsertKeeps(db, rows, db'); }
        if Mirrors(db') { InsertWasFresh(db, rows, db'); }
      case Update(changes) =>
        if Fresh(db.cells, s) { UpdateKeeps(db, changes, db'); }
        if Mirrors(db') { UpdateWasFresh(db, changes, db'); }
      case Delete(gone) =>
        DeleteKeeps(db, gone, db');
    }
  }

  lemma AtMostOne(s: set<Cell>)
    requires forall c, d | c in s && d in s :: c == d
    ensures |s| <= 1
  {
    if c :| c in s {
      assert s == {c};
    }
  }

  lemma InsertKeeps(db: Db, rows: Cells, db': Db)
    requires Mirrors(db) && Executes(db, Insert(rows), db') && Fresh(db.cells, Insert(rows))
    ensures Mirrors(db')
  {
    forall c, x ensures Holds(db'.cells, c, x) <==> Holds(db.cells, c, x) || Holds(rows, c, x) {
    }
    forall x ensures db'.active[x] == if Stored(db'.cells, x) then 1 else 0 {
      AtMostOne(Holding(rows, rows.Keys, x));
      if c :| Holds(rows, c, x) {
        assert c in Holding(rows, rows.Keys, x) && Holds(db'.cells, c, x);
      } else {
        assert Holding(rows, rows.Keys, x) == {};
        if c :| Holds(db.cells, c, x) {
          assert Holds(db'.cells, c, x);
        }
      }
    }
  }

  lemma InsertWasFresh(db: Db, rows: Cells, db': Db)
    requires Executes(db, Insert(rows), db') && Mirrors(db')
    ensures Fresh(db.cells, Insert(rows))
  {
    forall c, x | Holds(rows, c, x) ensures !Stored(db.cells, x) && Holds(db'.cells, c, x) {
      assert Holds(db'.cells, c, x);
      assert forall d | Holds(db.cells, d, x) :: Holds(db'.cells, d, x) && d != c;
    }
  }

  lemma DeleteKeeps(db: Db, gone: set<Cell>, db': Db)
    requires Mirrors(db) && Executes(db, Delete(gone), db')
    ensures Mirrors(db')
  {
    forall c, x ensures Holds(db'.cells, c, x) <==> Holds(db.cells, c, x) && c !in gone {
    }
    forall x ensures db'.active[x] == if Stored(db'.cells, x) then 1 else 0 {
      if c :| Holds(db.cells, c, x) {
        assert Held(db.cells, gone, x) <==> c in gone;
        assert c !in gone ==> Holds(db'.cells, c, x);
      }
    }
  }

  /** After an update a cell holds `x` because it was stored there or because it stayed. */
  lemma HoldsAfterUpdate(cells: Cells, changes: Cells, c: Cell, x: Oid)
    requires changes.Keys <= cells.Keys
    ensures Holds(cells + changes, c, x) <==>
      Stores(cells, changes, c, x) || (Holds(cells, c, x) && !Changed(cells, changes, c))
  {
  }

  lemma UpdateKeeps(db: Db, changes: Cells, db': Db)
    requires Mirrors(db) && Executes(db, Update(changes), db') && Fresh(db.cells, Update(changes))
    ensures Mirrors(db')
  {
    forall c, x
      ensures Holds(db'.cells, c, x) <==>
        Stores(db.cells, changes, c, x) || (Holds(db.cells, c, x) && !Changed(db.cells, changes, c))
    {
      HoldsAfterUpdate(db.cells, changes, c, x);
    }
    forall x ensures db'.active[x] == if Stored(db'.cells, x) then 1 else 0 {
      var adding := Adding(db.cells, changes, changes.Keys, x);
      assert forall c | c in adding :: Stores(db.cells, changes, c, x);
      AtMostOne(adding);
      if c :| Stores(db.cells, changes, c, x) {
        assert c in adding && Holds(db'.cells, c, x);
        assert !Stored(db.cells, x);
        assert !Replacing(db.cells, changes, changes.Keys, x) by {
          if d :| d in changes.Keys && Changed(db.cells, changes, d) && db.cells[d] == Some(x) {
            assert Holds(db.cells, d, x);
          }
        }
      } else {
        assert adding == {};
        if c :| Holds(db.cells, c, x) {
          assert Replacing(db.cells, changes, changes.Keys, x) <==> Changed(db.cells, changes, c) by {
            if d :| d in changes.Keys && Changed(db.cells, changes, d) && db.cells[d] == Some(x) {
              assert Holds(db.cells, d, x);
            }
          }
          assert !Changed(db.cells, changes, c) ==> Holds(db'.cells, c, x);
        }
      }
    }
  }

  lemma UpdateWasFresh(db: Db, changes: Cells, db': Db)
    requires Executes(db, Update(changes), db') && Mirrors(db')
    ensures Fresh(db.cells, Update(changes))
  {
    forall c, x | Stores(db.cells, changes, c, x) ensures !Stored(db.cells, x) && Holds(db'.cells, c, x) {
      HoldsAfterUpdate(db.cells, changes, c, x);
      assert Holds(db'.cells, c, x);
      assert ActiveAfter(db, Update(changes), x) == 1;
      forall d ensures !Holds(db.cells, d, x) {
        HoldsAfterUpdate(db.cells, changes, d, x);
        assert !(Changed(db.cells, changes, d) && db.cells[d] == Some(x));
      }
    }
  }

  /** Some entry for `x` is deleted on the way. */
  predicate Drops(cells: Cells, s: Statement, x: Oid) {
    match s
    case Insert(_) => false
    case Update(changes) => Replacing(cells, changes, changes.Keys, x)
    case Delete(gone) => Held(cells, gone, x)
  }

  /** A statement leaves every stored id in the index if and only if no id that
      it removes from some cell is still in another afterwards. */
  lemma CoversIffNoneDropped(db: Db, s: Statement, db': Db)
    requires Covers(db) && Executes(db, s, db')
    ensures Covers(db') <==> forall x | Stored(db'.cells, x) :: !Drops(db.cells, s, x)
  {
    forall x | Stored(db'.cells, x) && !Drops(db.cells, s, x) ensures x in db'.active {
      var c :| Holds(db'.cells, c, x);
      match s {
        case Insert(rows) =>
          if Holds(rows, c, x) {
            assert c in Holding(rows, rows.Keys, x);
          } else {
            assert Holds(db.cells, c, x);
          }
        case Update(changes) =>
          HoldsAfterUpdate(db.cells, changes, c, x);
          if Stores(db.cells, changes, c, x) {
            assert c in Adding(db.cells, changes, changes.Keys, x);
          }
        case Delete(gone) =>
          assert Holds(db.cells, c, x);
      }
    }
    forall x | Stored(db'.cells, x) && Drops(db.cells, s, x) ensures x !in db'.active {
    }
  }

  /** Swapping the ids of two rows in one UPDATE takes both out of the index. */
  lemma SwapLosesBoth(db: Db, c: Cell, d: Cell, x: Oid, y: Oid, db': Db)
    requires Mirrors(db) && x != y && Holds(db.cells, c, x) && Holds(db.cells, d, y)
    requires Executes(db, Update(map[c := Some(y), d := Some(x)]), db')
    ensures Holds(db'.cells, c, y) && Holds(db'.cells, d, x)
    ensures x !in db'.active && y !in db'.active
  {
    var changes := map[c := Some(y), d := Some(x)];
    assert c != d && Changed(db.cells, changes, c) && Changed(db.cells, changes, d);
    assert Replacing(db.cells, changes, changes.Keys, x);
    assert Replacing(db.cells, changes, changes.Keys, y);
  }

  // ------------------------------------------------------------ whole runs

  ghost predicate Run(dbs: seq<Db>, ss: seq<Statement>) {
    && |dbs| == |ss| + 1
    && dbs[0] == Db(map[], multiset{})
    && forall i | 0 <= i < |ss| :: Executes(dbs[i], ss[i], dbs[i + 1])
  }

  lemma {:induction false} FreshRunMirrors(dbs: seq<Db>, ss: seq<Statement>, n: nat)
    requires Run(dbs, ss) && n <= |ss|
    requires forall i | 0 <= i < n :: Fresh(dbs[i].cells, ss[i])
    ensures Mirrors(dbs[n])
  {
    if n > 0 {
      FreshRunMirrors(dbs, ss, n - 1);
      ExactIffFresh(dbs[n - 1], ss[n - 1], dbs[n]);
    }
  }

  /** The index agrees with the columns throughout a run if and only if no
      statement of the run stores an id that is already in use. */
  lemma RunMirrorsIffFresh(dbs: seq<Db>, ss: seq<Statement>)
    requires Run(dbs, ss)
    ensures (forall i | 0 <= i < |dbs| :: Mirrors(dbs[i])) <==>
            (forall i | 0 <= i < |ss| :: Fresh(dbs[i].cells, ss[i]))
  {
    if forall i | 0 <= i < |ss| :: Fresh(dbs[i].cells, ss[i]) {
      forall i | 0 <= i < |dbs| ensures Mirrors(dbs[i]) {
        FreshRunMirrors(dbs, ss, i);
      }
    }
    if forall i | 0 <= i < |dbs| :: Mirrors(dbs[i]) {
      forall i | 0 <= i < |ss| ensures Fresh(dbs[i].cells, ss[i]) {
        ExactIffFresh(dbs[i], ss[i], dbs[i + 1]);
      }
    }
  }

  // ---------------------------------------------- many rows against one by one

  /** An UPDATE of a single row. */
  function UpdateRow(db: Db, c: Cell, v: Option<Oid>): (db': Db)
    requires c in db.cells
  {
    var old_ := db.cells[c];
    var filled := if v.Some? && old_ != v then db.active + multiset{v.value} else db.active;
    var drained := if old_.Some? && old_ != v then filled[old_.value := 0] else filled;
    Db(db.cells[c := v], drained)
  }

  lemma UpdateRowExecutes(db: Db, c: Cell, v: Option<Oid>)
    requires c in db.cells
    ensures Executes(db, Update(map[c := v]), UpdateRow(db, c, v))
  {
    var changes := map[c := v];
    forall x ensures UpdateRow(db, c, v).active[x] == ActiveAfter(db, Update(changes), x) {
      var adding := Adding(db.cells, changes, changes.Keys, x);
      if Stores(db.cells, changes, c, x) {
        assert adding == {c};
      } else {
        assert adding == {};
      }
      assert Replacing(db.cells, changes, changes.Keys, x) <==> db.cells[c] != v && db.cells[c] == Some(x);
    }
  }

  /** The rows of `order`, each updated by a statement of its own. */
  function OneByOne(db: Db, changes: Cells, order: seq<Cell>): (db': Db)
    requires forall c | c in order :: c in changes && c in db.cells
    ensures db'.cells.Keys == db.cells.Keys
  {
    if order == [] then db
    else
      var last := order[|order| - 1];
      UpdateRow(OneByOne(db, changes, order[..|order| - 1]), last, changes[last])
  }

  ghost predicate Enumerates(order: seq<Cell>, s: set<Cell>) {
    Distinct(order) && ToSet(order) == s
  }

  /** No cell receives an id that another cell gives up. */
  ghost predicate Apart(cells: Cells, changes: Cells) {
    forall c, x | Stores(cells, changes, c, x) :: !Replacing(cells, changes, changes.Keys, x)
  }

  lemma {:induction false} OneByOneCells(db: Db, changes: Cells, order: seq<Cell>)
    requires Distinct(order) && forall c | c in order :: c in changes && c in db.cells
    ensures forall c | c in db.cells ::
      OneByOne(db, changes, order).cells[c] == if c in order then changes[c] else db.cells[c]
  {
    if order != [] {
      OneByOneCells(db, changes, order[..|order| - 1]);
    }
  }

  /** How often `x` is in the index once the cells in `done` have been updated. */
  ghost function CountAfter(db: Db, changes: Cells, done: set<Cell>, x: Oid): nat {
    if Replacing(db.cells, changes, done, x) then 0
    else db.active[x] + |Adding(db.cells, changes, done, x)|
  }

  lemma OneMoreRow(db: Db, changes: Cells, done: set<Cell>, c: Cell, t: Db, x: Oid)
    requires done <= changes.Keys && c in changes && c !in done && Apart(db.cells, changes)
    requires c in db.cells && c in t.cells && t.cells[c] == db.cells[c]
    requires t.active[x] == CountAfter(db, changes, done, x)
    ensures UpdateRow(t, c, changes[c]).active[x] == CountAfter(db, changes, done + {c}, x)
  {
    var a, b := Adding(db.cells, changes, done, x), Adding(db.cells, changes, done + {c}, x);
    if Stores(db.cells, changes, c, x) {
      assert b == a + {c};
      assert !Replacing(db.cells, changes, changes.Keys, x);
    } else {
      assert b == a;
    }
    if Changed(db.cells, changes, c) && db.cells[c] == Some(x) {
      assert c in done + {c};
    } else {
      assert Replacing(db.cells, changes, done, x) <==> Replacing(db.cells, changes, done + {c}, x);
    }
  }

  /** Where ids are apart, updating row by row counts like one statement. */
  lemma {:induction false} OneByOneActive(db: Db, changes: Cells, order: seq<Cell>, x: Oid)
    requires Distinct(order) && forall c | c in order :: c in changes && c in db.cells
    requires Apart(db.cells, changes)
    ensures OneByOne(db, changes, order).active[x] == CountAfter(db, changes, ToSet(order), x)
  {
    if order == [] {
      assert Adding(db.cells, changes, ToSet(order), x) == {};
    } else {
      var front, last := order[..|order| - 1], order[|order| - 1];
      OneByOneActive(db, changes, front, x);
      OneByOneCells(db, changes, front);
      assert ToSet(order) == ToSet(front) + {last} by {
        ToSetTake(order, |order| - 1);
        ToSetAll(order);
      }
      OneMoreRow(db, changes, ToSet(front), last, OneByOne(db, changes, front), x);
    }
  }

  /** With new ids that no other row gives up, one multi-row UPDATE and the same
      rows updated one at a time, in whatever order, end alike. */
  lemma OneByOneAgrees(db: Db, changes: Cells, db': Db, order: seq<Cell>)
    requires Executes(db, Update(changes), db') && Apart(db.cells, changes)
    requires Enumerates(order, changes.Keys)
    ensures OneByOne(db, changes, order) == db'
  {
    forall c | c in order ensures c in changes && c in db.cells {
      assert c in ToSet(order);
    }
    OneByOneCells(db, changes, order);
    var t := OneByOne(db, changes, order);
    forall c | c in db.cells ensures t.cells[c] == db'.cells[c] {
      assert c in order <==> c in ToSet(order);
    }
    assert t.cells == db'.cells;
    forall x ensures t.active[x] == db'.active[x] {
      OneByOneActive(db, changes, order, x);
    }
    assert t.active == db'.active;
  }

  lemma {:induction false} SomeOrder(s: set<Cell>) returns (order: seq<Cell>)
    ensures Enumerates(order, s)
  {
    if c :| c in s {
      var rest := SomeOrder(s - {c});
      order := rest + [c];
      assert c !in ToSet(rest);
      assert ToSet(order) == ToSet(rest) + {c};
    } else {
      order := [];
    }
  }

  /** An entry made for the `k`-th row stays if no later row gives up its id. */
  lemma {:induction false} EntryStays(db: Db, changes: Cells, order: seq<Cell>, k: nat, x: Oid)
    requires Distinct(order) && forall c | c in order :: c in changes && c in db.cells
    requires k < |order| && Stores(db.cells, changes, order[k], x)
    requires forall j | k < j < |order| :: db.cells[order[j]] != Some(x)
    ensures OneByOne(db, changes, order).active[x] > 0
  {
    var front, last := order[..|order| - 1], order[|order| - 1];
    OneByOneCells(db, changes, front);
    assert OneByOne(db, changes, front).cells[last] == db.cells[last];
    if k < |front| {
      EntryStays(db, changes, front, k, x);
    }
  }

  /** And only then: if some row gives up an id that another row receives, there
      is an order in which updating one at a time keeps an entry that the
      multi-row UPDATE loses. */
  lemma OneByOneDiffers(db: Db, changes: Cells, db': Db) returns (order: seq<Cell>)
    requires Executes(db, Update(changes), db') && !Apart(db.cells, changes)
    ensures Enumerates(order, changes.Keys)
    ensures (forall c | c in order :: c in changes && c in db.cells) && OneByOne(db, changes, order) != db'
  {
    var c, x :| Stores(db.cells, changes, c, x) && Replacing(db.cells, changes, changes.Keys, x);
    var giving := Holding(db.cells, changes.Keys, x);
    var front := SomeOrder(giving);
    var rear := SomeOrder(changes.Keys - giving);
    order := front + rear;
    forall d ensures d in front <==> d in giving {
      assert d in front <==> d in ToSet(front);
    }
    forall d ensures d in rear <==> d in changes.Keys - giving {
      assert d in rear <==> d in ToSet(rear);
    }
    assert Distinct(order) by {
      assert forall i, j | 0 <= i < |front| && 0 <= j < |rear| :: front[i] in front && rear[j] in rear;
    }
    assert ToSet(order) == changes.Keys;
    assert c in rear;
    var k :| 0 <= k < |rear| && rear[k] == c;
    assert order[|front| + k] == c;
    forall j | |front| <= j < |order| ensures db.cells[order[j]] != Some(x) {
      assert order[j] in rear;
    }
    EntryStays(db, changes, order, |front| + k, x);
    assert db'.active[x] == 0;
  }
}
