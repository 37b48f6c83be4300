/** The stock ledger: what every inventory transaction does to its four tables, as functions of
    the tables, and the laws those functions obey. */
module StockLedger {
  import opened Common

  datatype RowStatus = Reserved | Released | Committed
  datatype Item = Item(product: Id, quantity: int)
  datatype Row = Row(order: Id, product: Id, quantity: int, status: RowStatus)
  datatype Counters = Counters(available: int, reserved: int)
  datatype MoveKind = Reservation | Release | Sale
  datatype Movement = Movement(kind: MoveKind, product: Id, quantity: int, order: Id)
  datatype StockEvent = InventoryReserved(order: Id, items: seq<Item>) | InventoryReleased(order: Id, items: seq<Item>)

  // inventory, inventory_reservations, inventory_movements and the inventory service's outbox.
  datatype Ledger = Ledger(
    stock: map<Id, Counters>, rows: seq<Row>, moves: seq<Movement>, outbox: seq<StockEvent>)

  // ---------- queries ----------

  predicate HasReserved(rows: seq<Row>, o: Id, p: Id) {
    exists i | 0 <= i < |rows| :: rows[i].order == o && rows[i].product == p && rows[i].status == Reserved
  }

  predicate HasRow(rows: seq<Row>, o: Id, p: Id) {
    exists i | 0 <= i < |rows| :: rows[i].order == o && rows[i].product == p
  }

  // The reservations of one order, whatever their status.
  function RowsOf(rows: seq<Row>, o: Id): seq<Row> {
    if |rows| == 0 then []
    else RowsOf(rows[..|rows| - 1], o) + (if rows[|rows| - 1].order == o then [rows[|rows| - 1]] else [])
  }

  // The items an order still has reserved, in table order.
  function Select(rows: seq<Row>, o: Id): seq<Item> {
    if |rows| == 0 then []
    else
      var r := rows[|rows| - 1];
      Select(rows[..|rows| - 1], o) + (if r.order == o && r.status == Reserved then [Item(r.product, r.quantity)]
          else [])
  }

  // ---------- sums ----------

  function Qty(items: seq<Item>, p: Id): int {
    if |items| == 0 then 0
    else Qty(items[..|items| - 1], p) + (if items[|items| - 1].product == p then items[|items| - 1].quantity else 0)
  }

  function RowSum(rows: seq<Row>, p: Id, st: RowStatus): int {
    if |rows| == 0 then 0
    else
      var r := rows[|rows| - 1];
      RowSum(rows[..|rows| - 1], p, st) + (if r.product == p && r.status == st then r.quantity else 0)
  }

  function MoveSum(moves: seq<Movement>, p: Id, k: MoveKind): int {
    if |moves| == 0 then 0
    else
      var m := moves[|moves| - 1];
      MoveSum(moves[..|moves| - 1], p, k) + (if m.product == p && m.kind == k then m.quantity else 0)
  }

  // How many movements of a kind refer to an order.
  function MoveCount(moves: seq<Movement>, o: Id, k: MoveKind): nat {
    if |moves| == 0 then 0
    else
      var m := moves[|moves| - 1];
      MoveCount(moves[..|moves| - 1], o, k) + (if m.order == o && m.kind == k then 1 else 0)
  }

  // ---------- row and counter updates ----------

  function NewRows(o: Id, items: seq<Item>, st: RowStatus): (r: seq<Row>)
    ensures |r| == |items|
  {
    seq(|items|, i requires 0 <= i < |items| => Row(o, items[i].product, items[i].quantity, st))
  }

  // The sign a movement row carries: outbound quantities are negative.
  function NewMoves(k: MoveKind, o: Id, items: seq<Item>): (r: seq<Movement>)
    ensures |r| == |items|
  {
    seq(|items|, i requires 0 <= i < |items| =>
        Movement(k, items[i].product, if k == Release then items[i].quantity else -items[i].quantity, o))
  }

  function SetStatus(rows: seq<Row>, o: Id, st: RowStatus): (r: seq<Row>)
    ensures |r| == |rows|
  {
    seq(|rows|, i requires 0 <= i < |rows| =>
        if rows[i].order == o && rows[i].status == Reserved then rows[i].(status := st) else rows[i])
  }

  function Shift(c: Counters, k: MoveKind, q: int): Counters {
    match k
    case Reservation => Counters(c.available - q, c.reserved + q)
    case Release => Counters(c.available + q, c.reserved - q)
    case Sale => Counters(c.available, c.reserved - q)
  }

  function Moved(stock: map<Id, Counters>, k: MoveKind, items: seq<Item>): map<Id, Counters> {
    map p | p in stock :: Shift(stock[p], k, Qty(items, p))
  }

  // ---------- Reserve ----------

  // The statements Reserve runs for one item that is not a duplicate: the guarded UPDATE with its
  // CHECK constraint, the reservation's validation, the INSERT under the unique
  // (order_id, product_id) index, and the movement.
  function ReserveOne(l: Ledger, o: Id, item: Item): Result<Ledger> {
    if item.product !in l.stock then Err(NotFound)
    else
      var c := l.stock[item.product];
      if c.available < item.quantity then Err(Insufficient)
      else if c.reserved + item.quantity < 0 then Err(Constraint)
      else if o == NIL || item.product == NIL || item.quantity <= 0 then Err(Validation)
      else if HasRow(l.rows, o, item.product) then Err(Constraint)
      else Ok(Ledger(
                l.stock[item.product := Shift(c, Reservation, item.quantity)],
                l.rows + [Row(o, item.product, item.quantity, Reserved)],
                l.moves + [Movement(Reservation, item.product, -item.quantity, o)],
                l.outbox))
  }

  // The tables and the reserved items after the loop has treated the first n items.
  function ReserveUpTo(l: Ledger, o: Id, items: seq<Item>, n: nat): Result<(Ledger, seq<Item>)>
    requires n <= |items|
  {
    if n == 0 then Ok((l, []))
    else
      match ReserveUpTo(l, o, items, n - 1)
      case Err(e) => Err(e)
      case Ok(acc) =>
        if HasReserved(acc.0.rows, o, items[n - 1].product) then Ok(acc)
        else
          match ReserveOne(acc.0, o, items[n - 1])
          case Err(e) => Err(e)
          case Ok(l') => Ok((l', acc.1 + [items[n - 1]]))
  }

  function ReserveOp(l: Ledger, o: Id, items: seq<Item>): Result<Ledger> {
    match ReserveUpTo(l, o, items, |items|)
    case Err(e) => Err(e)
    case Ok(acc) => Ok(if acc.1 == [] then acc.0 else acc.0.(outbox := acc.0.outbox + [InventoryReserved(o, acc.1)]))
  }

  // ---------- Release and Commit ----------

  function ReleaseOp(l: Ledger, o: Id): Ledger {
    var items := Select(l.rows, o);
    Ledger(Moved(l.stock, Release, items), SetStatus(l.rows, o, Released), l.moves + NewMoves(Release, o, items),
           if |items| == 0 then l.outbox else l.outbox + [InventoryReleased(o, items)])
  }

  // A remote release, which may be executed without its caller hearing of it.
  function ReleasedBy(l: Ledger, o: Id, call: Call): Ledger {
    if call == Lost then l else ReleaseOp(l, o)
  }

  function CommitOp(l: Ledger, o: Id): Ledger {
    var items := Select(l.rows, o);
    Ledger(Moved(l.stock, Sale, items), SetStatus(l.rows, o, Committed), l.moves + NewMoves(Sale, o, items), l.outbox)
  }

  // ---------- the ledger invariant ----------

  // Conservation per product, against the stock each product started with.
  ghost predicate Balanced(l: Ledger, init: map<Id, nat>, p: Id)
    requires p in l.stock && p in init
  {
    var c := l.stock[p];
    && c.available >= 0
    && c.reserved >= 0
    && c.reserved == RowSum(l.rows, p, Reserved)
    && c.available + c.reserved + RowSum(l.rows, p, Committed) == init[p]
  }

  // The movement log alone rebuilds both counters.
  ghost predicate Rebuilt(l: Ledger, init: map<Id, nat>, p: Id)
    requires p in l.stock && p in init
  {
    var res, rel, sale := MoveSum(l.moves, p, Reservation), MoveSum(l.moves, p, Release), MoveSum(l.moves, p, Sale);
    && l.stock[p].available == init[p] + res + rel
    && l.stock[p].reserved == -res - rel + sale
  }

  ghost predicate RowsValid(l: Ledger) {
    && (forall i | 0 <= i < |l.rows| ::
          l.rows[i].quantity > 0 && l.rows[i].product in l.stock && l.rows[i].order != NIL)
    && (forall i, j | 0 <= i < j < |l.rows| ::
          l.rows[i].order != l.rows[j].order || l.rows[i].product != l.rows[j].product)
  }

  ghost predicate LedgerInv(l: Ledger, init: map<Id, nat>) {
    && l.stock.Keys == init.Keys
    && RowsValid(l)
    && (forall p | p in l.stock :: Balanced(l, init, p) && Rebuilt(l, init, p))
  }

  ghost predicate EmptyLedger(l: Ledger, init: map<Id, nat>) {
    && l.stock == (map p | p in init :: Counters(init[p], 0))
    && l.rows == [] && l.moves == [] && l.outbox == []
  }

  lemma {:induction false} EmptyLedgerOk(l: Ledger, init: map<Id, nat>)
    requires EmptyLedger(l, init)
    ensures LedgerInv(l, init)
  {
  }

  // ---------- append and update laws of the sums and selections ----------

  lemma {:induction false} QtyAppend(a: seq<Item>, b: seq<Item>, p: Id)
    ensures Qty(a + b, p) == Qty(a, p) + Qty(b, p)
  {
    if b == [] {
      assert a + b == a;
    } else {
      QtyAppend(a, b[..|b| - 1], p);
      assert (a + b)[..|a + b| - 1] == a + b[..|b| - 1];
    }
  }

  lemma {:induction false} RowSumAppend(a: seq<Row>, b: seq<Row>, p: Id, st: RowStatus)
    ensures RowSum(a + b, p, st) == RowSum(a, p, st) + RowSum(b, p, st)
  {
    if b == [] {
      assert a + b == a;
    } else {
      RowSumAppend(a, b[..|b| - 1], p, st);
      assert (a + b)[..|a + b| - 1] == a + b[..|b| - 1];
    }
  }

  lemma {:induction false} MoveSumAppend(a: seq<Movement>, b: seq<Movement>, p: Id, k: MoveKind)
    ensures MoveSum(a + b, p, k) == MoveSum(a, p, k) + MoveSum(b, p, k)
  {
    if b == [] {
      assert a + b == a;
    } else {
      MoveSumAppend(a, b[..|b| - 1], p, k);
      assert (a + b)[..|a + b| - 1] == a + b[..|b| - 1];
    }
  }

  lemma {:induction false} MoveCountAppend(a: seq<Movement>, b: seq<Movement>, o: Id, k: MoveKind)
    ensures MoveCount(a + b, o, k) == MoveCount(a, o, k) + MoveCount(b, o, k)
  {
    if b == [] {
      assert a + b == a;
    } else {
      MoveCountAppend(a, b[..|b| - 1], o, k);
      assert (a + b)[..|a + b| - 1] == a + b[..|b| - 1];
    }
  }

  lemma {:induction false} RowsOfAppend(a: seq<Row>, b: seq<Row>, o: Id)
    ensures RowsOf(a + b, o) == RowsOf(a, o) + RowsOf(b, o)
  {
    if b == [] {
      assert a + b == a;
    } else {
      RowsOfAppend(a, b[..|b| - 1], o);
      assert (a + b)[..|a + b| - 1] == a + b[..|b| - 1];
    }
  }

  lemma {:induction false} NewRowsSum(o: Id, items: seq<Item>, st: RowStatus, p: Id, st': RowStatus)
    ensures RowSum(NewRows(o, items, st), p, st') == if st == st' then Qty(items, p) else 0
  {
    if items != [] {
      NewRowsSum(o, items[..|items| - 1], st, p, st');
      assert NewRows(o, items, st)[..|items| - 1] == NewRows(o, items[..|items| - 1], st);
    }
  }

  lemma {:induction false} NewMovesSum(k: MoveKind, o: Id, items: seq<Item>, p: Id, k': MoveKind)
    ensures MoveSum(NewMoves(k, o, items), p, k') ==
            if k != k' then 0 else if k == Release then Qty(items, p) else -Qty(items, p)
  {
    if items != [] {
      NewMovesSum(k, o, items[..|items| - 1], p, k');
      assert NewMoves(k, o, items)[..|items| - 1] == NewMoves(k, o, items[..|items| - 1]);
    }
  }

  lemma {:induction false} NewMovesCount(k: MoveKind, o: Id, items: seq<Item>, o': Id, k': MoveKind)
    ensures MoveCount(NewMoves(k, o, items), o', k') == if k == k' && o == o' then |items| else 0
  {
    if items != [] {
      NewMovesCount(k, o, items[..|items| - 1], o', k');
      assert NewMoves(k, o, items)[..|items| - 1] == NewMoves(k, o, items[..|items| - 1]);
    }
  }

  lemma {:induction false} NewRowsOf(o: Id, items: seq<Item>, st: RowStatus, o': Id)
    ensures RowsOf(NewRows(o, items, st), o') == if o == o' then NewRows(o, items, st) else []
  {
    if items != [] {
      NewRowsOf(o, items[..|items| - 1], st, o');
      assert NewRows(o, items, st)[..|items| - 1] == NewRows(o, items[..|items| - 1], st);
    }
  }

  lemma {:induction false} SetStatusAppend(a: seq<Row>, b: seq<Row>, o: Id, st: RowStatus)
    ensures SetStatus(a + b, o, st) == SetStatus(a, o, st) + SetStatus(b, o, st)
  {
  }

  lemma {:induction false} RowSumOne(r: Row, p: Id, st: RowStatus)
    ensures RowSum([r], p, st) == if r.product == p && r.status == st then r.quantity else 0
  {
    assert [r][..0] == [];
  }

  lemma {:induction false} QtySelectOne(r: Row, o: Id, p: Id)
    ensures Qty(Select([r], o), p) == if r.order == o && r.status == Reserved && r.product == p then r.quantity else 0
  {
    assert [r][..0] == [];
    if r.order == o && r.status == Reserved {
      assert Select([r], o) == [Item(r.product, r.quantity)];
      assert [Item(r.product, r.quantity)][..0] == [];
    }
  }

  lemma {:induction false} SetStatusSumOne(r: Row, o: Id, st: RowStatus, p: Id, st': RowStatus)
    requires st != Reserved
    ensures RowSum(SetStatus([r], o, st), p, st') ==
            RowSum([r], p, st') + (if st' == Reserved then -Qty(Select([r], o), p)
                                   else if st' == st then Qty(Select([r], o), p) else 0)
  {
    var r' := SetStatus([r], o, st)[0];
    assert SetStatus([r], o, st) == [r'];
    RowSumOne(r, p, st');
    RowSumOne(r', p, st');
    QtySelectOne(r, o, p);
  }

  lemma {:induction false} SelectAppend(a: seq<Row>, b: seq<Row>, o: Id)
    ensures Select(a + b, o) == Select(a, o) + Select(b, o)
  {
    if b == [] {
      assert a + b == a;
    } else {
      SelectAppend(a, b[..|b| - 1], o);
      assert (a + b)[..|a + b| - 1] == a + b[..|b| - 1];
    }
  }

  lemma {:induction false} SetStatusSum(rows: seq<Row>, o: Id, st: RowStatus, p: Id, st': RowStatus)
    requires st != Reserved
    ensures RowSum(SetStatus(rows, o, st), p, st') ==
            RowSum(rows, p, st') + (if st' == Reserved then -Qty(Select(rows, o), p)
                                    else if st' == st then Qty(Select(rows, o), p) else 0)
  {
    if rows != [] {
      var front, r := rows[..|rows| - 1], rows[|rows| - 1];
      SetStatusSum(front, o, st, p, st');
      SetStatusSumOne(r, o, st, p, st');
      assert rows == front + [r];
      SetStatusAppend(front, [r], o, st);
      RowSumAppend(SetStatus(front, o, st), SetStatus([r], o, st), p, st');
      RowSumAppend(front, [r], p, st');
      SelectAppend(front, [r], o);
      QtyAppend(Select(front, o), Select([r], o), p);
    }
  }

  lemma {:induction false} RowsOfOne(r: Row, o: Id)
    ensures RowsOf([r], o) == if r.order == o then [r] else []
  {
    assert [r][..0] == [];
  }

  lemma {:induction false} SetStatusRowsOfOne(r: Row, o: Id, st: RowStatus, o': Id)
    ensures RowsOf(SetStatus([r], o, st), o') ==
            if o == o' then SetStatus(RowsOf([r], o), o, st) else RowsOf([r], o')
  {
    var r' := SetStatus([r], o, st)[0];
    assert SetStatus([r], o, st) == [r'];
    RowsOfOne(r, o');
    RowsOfOne(r', o');
    assert SetStatus([], o, st) == [];
  }

  // The update touches the order's own rows and no other order's.
  lemma {:induction false} SetStatusRowsOf(rows: seq<Row>, o: Id, st: RowStatus, o': Id)
    ensures RowsOf(SetStatus(rows, o, st), o') ==
            if o == o' then SetStatus(RowsOf(rows, o), o, st) else RowsOf(rows, o')
  {
    if rows != [] {
      var front, last := rows[..|rows| - 1], [rows[|rows| - 1]];
      SetStatusRowsOf(front, o, st, o');
      SetStatusRowsOfOne(rows[|rows| - 1], o, st, o');
      assert rows == front + last;
      SetStatusAppend(front, last, o, st);
      RowsOfAppend(SetStatus(front, o, st), SetStatus(last, o, st), o');
      RowsOfAppend(front, last, o');
      SetStatusAppend(RowsOf(front, o), RowsOf(last, o), o, st);
    } else {
      assert SetStatus(rows, o, st) == [];
    }
  }

  // Select sees only the order's own rows.
  lemma {:induction false} SelectRowsOf(rows: seq<Row>, o: Id)
    ensures Select(rows, o) == Select(RowsOf(rows, o), o)
  {
    if rows != [] {
      var front, r := rows[..|rows| - 1], rows[|rows| - 1];
      SelectRowsOf(front, o);
      SelectAppend(RowsOf(front, o), if r.order == o then [r] else [], o);
      assert [r][..0] == [];
    }
  }

  // An order whose rows all carry one status has everything selected, or nothing.
  lemma {:induction false} SelectNewRows(o: Id, items: seq<Item>, st: RowStatus)
    ensures Select(NewRows(o, items, st), o) == if st == Reserved then items else []
  {
    if items != [] {
      SelectNewRows(o, items[..|items| - 1], st);
      assert NewRows(o, items, st)[..|items| - 1] == NewRows(o, items[..|items| - 1], st);
      assert items == items[..|items| - 1] + [items[|items| - 1]];
    }
  }

  lemma {:induction false} SelectBounded(rows: seq<Row>, o: Id, p: Id)
    requires forall i | 0 <= i < |rows| :: rows[i].quantity > 0
    ensures 0 <= Qty(Select(rows, o), p) <= RowSum(rows, p, Reserved)
  {
    if rows != [] {
      var front, r := rows[..|rows| - 1], rows[|rows| - 1];
      SelectBounded(front, o, p);
      if r.order == o && r.status == Reserved {
        var picked := [Item(r.product, r.quantity)];
        QtyAppend(Select(front, o), picked, p);
        assert picked[..0] == [];
      } else {
        assert Select(rows, o) == Select(front, o);
      }
    }
  }

  predicate HasProduct(rows: seq<Row>, p: Id) {
    exists j | 0 <= j < |rows| :: rows[j].product == p
  }

  // Items selected are of some row, of a positive quantity.
  lemma {:induction false} SelectItems(rows: seq<Row>, o: Id, i: nat)
    requires (forall j | 0 <= j < |rows| :: rows[j].quantity > 0) && i < |Select(rows, o)|
    ensures Select(rows, o)[i].quantity > 0 && HasProduct(rows, Select(rows, o)[i].product)
  {
    var front := rows[..|rows| - 1];
    if i < |Select(front, o)| {
      SelectItems(front, o, i);
      var j :| 0 <= j < |front| && front[j].product == Select(front, o)[i].product;
      assert rows[j].product == Select(rows, o)[i].product;
    } else {
      assert rows[|rows| - 1].product == Select(rows, o)[i].product;
    }
  }

  lemma {:induction false} QtyPrefix(items: seq<Item>, n: nat, p: Id)
    requires n <= |items|
    requires forall i | 0 <= i < |items| :: items[i].quantity > 0
    ensures 0 <= Qty(items[..n], p) <= Qty(items, p)
    decreases |items|
  {
    if n < |items| {
      QtyPrefix(items[..|items| - 1], n, p);
      assert items[..|items| - 1][..n] == items[..n];
    } else if items != [] {
      assert items[..n] == items;
      QtyPrefix(items[..|items| - 1], |items| - 1, p);
      assert items[..|items| - 1][..|items| - 1] == items[..|items| - 1];
    }
  }

  // ---------- Release and Commit keep the ledger ----------

  lemma {:induction false} ReleaseKeeps(l: Ledger, o: Id, init: map<Id, nat>)
    requires LedgerInv(l, init)
    ensures LedgerInv(ReleaseOp(l, o), init)
  {
    var l', items := ReleaseOp(l, o), Select(l.rows, o);
    forall p | p in l'.stock ensures Balanced(l', init, p) && Rebuilt(l', init, p) {
      assert Balanced(l, init, p) && Rebuilt(l, init, p);
      SelectBounded(l.rows, o, p);
      SetStatusSum(l.rows, o, Released, p, Reserved);
      SetStatusSum(l.rows, o, Released, p, Committed);
      forall k: MoveKind ensures MoveSum(l'.moves, p, k) == MoveSum(l.moves, p, k)
        + (if k == Release then Qty(items, p) else 0) {
        MoveSumAppend(l.moves, NewMoves(Release, o, items), p, k);
        NewMovesSum(Release, o, items, p, k);
      }
    }
  }

  lemma {:induction false} CommitKeeps(l: Ledger, o: Id, init: map<Id, nat>)
    requires LedgerInv(l, init)
    ensures LedgerInv(CommitOp(l, o), init)
  {
    var l', items := CommitOp(l, o), Select(l.rows, o);
    forall p | p in l'.stock ensures Balanced(l', init, p) && Rebuilt(l', init, p) {
      assert Balanced(l, init, p) && Rebuilt(l, init, p);
      SelectBounded(l.rows, o, p);
      SetStatusSum(l.rows, o, Committed, p, Reserved);
      SetStatusSum(l.rows, o, Committed, p, Committed);
      forall k: MoveKind ensures MoveSum(l'.moves, p, k) == MoveSum(l.moves, p, k) - (if k == Sale then Qty(items, p)
        else 0) {
        MoveSumAppend(l.moves, NewMoves(Sale, o, items), p, k);
        NewMovesSum(Sale, o, items, p, k);
      }
    }
  }
}
