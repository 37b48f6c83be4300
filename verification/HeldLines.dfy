/** What an order holds in the reservation table, told from its own lines. */
module HeldLines {
  import opened Common
  import opened Orders
  import opened StockLedger
  import opened ReserveLaws
  import opened ReserveTables
  import opened StockFrames
  import opened SagaSystem
  import opened SagaInvariant

  // The line is the first of its product.
  predicate FirstOfProduct(lines: seq<Line>, i: nat) {
    i < |lines| && forall j | 0 <= j < i :: lines[j].product != lines[i].product
  }

  // Row k, and no other, reserves the line's product for the order: in the line's quantity.
  predicate OnlyRow(rows: seq<Row>, o: Id, line: Line, st: RowStatus, k: nat) {
    && k < |rows| && rows[k] == Row(o, line.product, line.quantity, st)
    && forall m | 0 <= m < |rows| && m != k :: rows[m].order != o || rows[m].product != line.product
  }

  ghost predicate OneRow(rows: seq<Row>, o: Id, line: Line, st: RowStatus) {
    exists k: nat :: OnlyRow(rows, o, line, st, k)
  }

  ghost predicate Ordered(lines: seq<Line>, p: Id) {
    exists i :: 0 <= i < |lines| && lines[i].product == p
  }

  // The order has one row for each product of its lines, of the quantity of the first line that names
  // it, all of one status; and it has no other rows.
  ghost predicate HoldsLines(rows: seq<Row>, ord: Order, st: RowStatus) {
    && (forall i: nat | FirstOfProduct(ord.lines, i) :: OneRow(rows, ord.id, ord.lines[i], st))
    && (forall k | 0 <= k < |rows| && rows[k].order == ord.id :: Ordered(ord.lines, rows[k].product))
  }

  const NOTHING := Ledger(map[], [], [], [])

  lemma {:induction false} FirstIsFresh(o: Id, lines: seq<Line>, i: nat)
    ensures Fresh(NOTHING, o, ItemsOf(lines), i) <==> FirstOfProduct(lines, i)
  {
    if i < |lines| && FirstOfProduct(lines, i) {
      assert forall j | 0 <= j < i :: ItemsOf(lines)[j].product == lines[j].product;
    }
    if i < |lines| && Fresh(NOTHING, o, ItemsOf(lines), i) {
      forall j | 0 <= j < i ensures lines[j].product != lines[i].product {
        assert ItemsOf(lines)[j].product == lines[j].product;
      }
    }
  }

  lemma {:induction false} RowsOfBack(rows: seq<Row>, o: Id, k: nat)
    requires k < |RowsOf(rows, o)|
    ensures exists m :: 0 <= m < |rows| && rows[m] == RowsOf(rows, o)[k]
  {
    var front := rows[..|rows| - 1];
    if k < |RowsOf(front, o)| {
      RowsOfBack(front, o, k);
      var m :| 0 <= m < |front| && front[m] == RowsOf(front, o)[k];
      assert rows[m] == RowsOf(rows, o)[k];
    } else {
      assert rows[|rows| - 1] == RowsOf(rows, o)[k];
    }
  }

  lemma {:induction false} LineHasRow(l: Ledger, ord: Order, st: RowStatus, i: nat)
    requires RowsValid(l) && RowsOf(l.rows, ord.id) == NewRows(ord.id, HeldItems(ord), st)
    requires FirstOfProduct(ord.lines, i)
    ensures OneRow(l.rows, ord.id, ord.lines[i], st)
  {
    var o, items := ord.id, ItemsOf(ord.lines);
    FirstIsFresh(o, ord.lines, i);
    FreshPicked(NOTHING, o, items, |items|, i);
    var k: nat :| Picks(NOTHING, o, items, |items|, k, i);
    RowsOfBack(l.rows, o, k);
    var m :| 0 <= m < |l.rows| && l.rows[m] == RowsOf(l.rows, o)[k];
    assert OnlyRow(l.rows, o, ord.lines[i], st, m);
  }

  lemma {:induction false} RowHasLine(l: Ledger, ord: Order, st: RowStatus, k: nat)
    requires RowsOf(l.rows, ord.id) == NewRows(ord.id, HeldItems(ord), st)
    requires k < |l.rows| && l.rows[k].order == ord.id
    ensures Ordered(ord.lines, l.rows[k].product)
  {
    var o, items := ord.id, ItemsOf(ord.lines);
    RowsOfMember(l.rows, k);
    var n :| 0 <= n < |HeldItems(ord)| && NewRows(o, HeldItems(ord), st)[n] == l.rows[k];
    PicksFresh(NOTHING, o, items, |items|, n);
    var i: nat :| Picks(NOTHING, o, items, |items|, n, i);
    assert ord.lines[i].product == l.rows[k].product;
  }

  // An order whose rows are those of the items it asked for holds its lines.
  lemma {:induction false} HeldIsLines(l: Ledger, ord: Order, st: RowStatus)
    requires RowsValid(l) && RowsOf(l.rows, ord.id) == NewRows(ord.id, HeldItems(ord), st)
    ensures HoldsLines(l.rows, ord, st)
  {
    forall i: nat | FirstOfProduct(ord.lines, i) ensures OneRow(l.rows, ord.id, ord.lines[i], st) {
      LineHasRow(l, ord, st, i);
    }
    forall k | 0 <= k < |l.rows| && l.rows[k].order == ord.id ensures Ordered(ord.lines, l.rows[k].product) {
      RowHasLine(l, ord, st, k);
    }
  }

  // ---------- reserving for an order without rows ----------

  predicate NoRows(l: Ledger, o: Id) {
    forall k | 0 <= k < |l.rows| :: l.rows[k].order != o
  }

  predicate InStock(l: Ledger, line: Line) {
    line.product in l.stock && line.quantity <= l.stock[line.product].available
  }

  ghost predicate AllInStock(l: Ledger, lines: seq<Line>) {
    forall i: nat | FirstOfProduct(lines, i) :: InStock(l, lines[i])
  }

  // The first line there is no stock for, and whether its product has a row at all.
  ghost predicate FirstShort(l: Ledger, lines: seq<Line>, i: nat, e: Error) {
    && FirstOfProduct(lines, i) && !InStock(l, lines[i])
    && (forall j: nat | j < i && FirstOfProduct(lines, j) :: InStock(l, lines[j]))
    && e == if lines[i].product in l.stock then Insufficient else NotFound
  }

  // The line's quantity went from available to reserved.
  predicate LineTaken(l: Ledger, l': Ledger, line: Line) {
    && line.product in l.stock && line.product in l'.stock
    && var c := l.stock[line.product];
       l'.stock[line.product] == Counters(c.available - line.quantity, c.reserved + line.quantity)
  }

  // So it did for the first line of each product, and no other counter changed.
  ghost predicate LinesTaken(l: Ledger, l': Ledger, lines: seq<Line>) {
    && l'.stock.Keys == l.stock.Keys
    && (forall i: nat | FirstOfProduct(lines, i) :: LineTaken(l, l', lines[i]))
    && (forall p | p in l.stock && !Ordered(lines, p) :: l'.stock[p] == l.stock[p])
  }

  lemma {:induction false} LineIsFresh(l: Ledger, o: Id, lines: seq<Line>, i: nat)
    requires NoRows(l, o)
    ensures Fresh(l, o, ItemsOf(lines), i) <==> FirstOfProduct(lines, i)
  {
    FirstIsFresh(o, lines, i);
  }

  lemma {:induction false} AllFresh(l: Ledger, o: Id, lines: seq<Line>)
    requires NoRows(l, o)
    ensures forall i: nat :: Fresh(l, o, ItemsOf(lines), i) <==> FirstOfProduct(lines, i)
  {
    forall i: nat ensures Fresh(l, o, ItemsOf(lines), i) <==> FirstOfProduct(lines, i) {
      LineIsFresh(l, o, lines, i);
    }
  }

  lemma {:induction false} LineAdmissible(l: Ledger, o: Id, lines: seq<Line>, i: nat)
    requires NoRows(l, o) && o != NIL && ValidLines(lines) && i < |lines|
    ensures Admissible(l, o, ItemsOf(lines)[i]) <==> InStock(l, lines[i])
  {
    assert ValidLine(lines[i]);
  }

  // A valid new order's reservation goes through if and only if its lines are in stock, and otherwise the
  // first line that is not decides the error.
  lemma {:induction false} LinesAccepted(l: Ledger, o: Id, lines: seq<Line>)
    requires CountersOk(l) && NoRows(l, o) && o != NIL && ValidLines(lines)
    ensures ReserveOp(l, o, ItemsOf(lines)).Ok? <==> AllInStock(l, lines)
    ensures ReserveOp(l, o, ItemsOf(lines)).Err? ==>
              exists i: nat :: FirstShort(l, lines, i, ReserveOp(l, o, ItemsOf(lines)).error)
  {
    var items := ItemsOf(lines);
    AllFresh(l, o, lines);
    AcceptedIff(l, o, items);
    forall i: nat | i < |lines| ensures Admissible(l, o, items[i]) <==> InStock(l, lines[i]) {
      LineAdmissible(l, o, lines, i);
    }
    if ReserveOp(l, o, items).Err? {
      ReserveRefusal(l, o, items);
      var i: nat :| Refused(l, o, items, i, ReserveOp(l, o, items).error);
      ShortIsRefused(l, o, lines, i, ReserveOp(l, o, items).error);
    }
  }

  lemma {:induction false} ShortIsRefused(l: Ledger, o: Id, lines: seq<Line>, i: nat, e: Error)
    requires CountersOk(l) && NoRows(l, o) && o != NIL && ValidLines(lines) && Refused(l, o, ItemsOf(lines), i, e)
    ensures FirstShort(l, lines, i, e)
  {
    AllFresh(l, o, lines);
    assert ValidLine(lines[i]);
    forall j: nat | j < i && FirstOfProduct(lines, j) ensures InStock(l, lines[j]) {
      LineAdmissible(l, o, lines, j);
    }
  }

  lemma {:induction false} OtherKept(l: Ledger, l': Ledger, o: Id, lines: seq<Line>, p: Id)
    requires CountersTaken(l, l', o, ItemsOf(lines)) && p in l.stock && !Ordered(lines, p)
    ensures l'.stock[p] == l.stock[p]
  {
    forall i: nat | Fresh(l, o, ItemsOf(lines), i) ensures ItemsOf(lines)[i].product != p {
      assert lines[i].product == ItemsOf(lines)[i].product;
    }
  }

  lemma {:induction false} OneTaken(l: Ledger, l': Ledger, o: Id, lines: seq<Line>, i: nat)
    requires CountersTaken(l, l', o, ItemsOf(lines)) && NoRows(l, o) && FirstOfProduct(lines, i)
    ensures LineTaken(l, l', lines[i])
  {
    LineIsFresh(l, o, lines, i);
    assert ItemsOf(lines)[i] == Item(lines[i].product, lines[i].quantity);
  }

  // And then takes exactly the lines' quantities out of available stock.
  lemma {:induction false} LinesReserved(l: Ledger, o: Id, lines: seq<Line>, l': Ledger)
    requires CountersOk(l) && NoRows(l, o) && ReserveOp(l, o, ItemsOf(lines)) == Ok(l')
    ensures LinesTaken(l, l', lines)
  {
    ReserveTakes(l, o, ItemsOf(lines));
    forall i: nat | FirstOfProduct(lines, i) ensures LineTaken(l, l', lines[i]) {
      OneTaken(l, l', o, lines, i);
    }
    forall p | p in l.stock && !Ordered(lines, p) ensures l'.stock[p] == l.stock[p] {
      OtherKept(l, l', o, lines, p);
    }
  }

  // With one new row for each product, and no other.
  lemma {:induction false} LinesHeld(l: Ledger, ord: Order, l': Ledger)
    requires CountersOk(l) && NoRows(l, ord.id) && ReserveOp(l, ord.id, ItemsOf(ord.lines)) == Ok(l')
    ensures HoldsLines(l'.rows, ord, Reserved)
  {
    var o, items := ord.id, ItemsOf(ord.lines);
    AllFresh(l, o, ord.lines);
    ReserveTakes(l, o, items);
    forall i: nat | FirstOfProduct(ord.lines, i) ensures OneRow(l'.rows, o, ord.lines[i], Reserved) {
      NewLineHasRow(l, ord, l', i);
    }
    forall k | 0 <= k < |l'.rows| && l'.rows[k].order == o ensures Ordered(ord.lines, l'.rows[k].product) {
      assert Requested(l, o, items, l'.rows[k]);
      var i: nat :| Fresh(l, o, items, i) && l'.rows[k] == HeldRow(o, items[i]);
      assert ord.lines[i].product == l'.rows[k].product;
    }
  }

  lemma {:induction false} NewLineHasRow(l: Ledger, ord: Order, l': Ledger, i: nat)
    requires NoRows(l, ord.id) && RowsAdded(l, l', ord.id, ItemsOf(ord.lines)) && FirstOfProduct(ord.lines, i)
    ensures OneRow(l'.rows, ord.id, ord.lines[i], Reserved)
  {
    var o, items := ord.id, ItemsOf(ord.lines);
    LineIsFresh(l, o, ord.lines, i);
    var n :| 0 <= n < |l'.rows[|l.rows|..]| && l'.rows[|l.rows|..][n] == HeldRow(o, items[i]);
    assert OnlyRow(l'.rows, o, ord.lines[i], Reserved, |l.rows| + n);
  }
}
