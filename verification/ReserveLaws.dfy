/** What Reserve means, stated without its loop: which requests succeed, and what they change. */
module ReserveLaws {
  import opened Common
  import opened StockLedger

  predicate Mentions(items: seq<Item>, p: Id) {
    exists k | 0 <= k < |items| :: items[k].product == p
  }

  predicate FirstOccurrence(items: seq<Item>, i: nat)
    requires i < |items|
  {
    !Mentions(items[..i], items[i].product)
  }

  // The first occurrence of each requested product the order has not already reserved.
  function Firsts(rows: seq<Row>, o: Id, items: seq<Item>, n: nat): seq<Item>
    requires n <= |items|
  {
    if n == 0 then []
    else
      Firsts(rows, o, items, n - 1) +
      (if FirstOccurrence(items, n - 1) && !HasReserved(rows, o, items[n - 1].product) then [items[n - 1]] else [])
  }

  // The lines a new order holds once its reservation succeeded.
  function Lines(o: Id, items: seq<Item>): seq<Item> {
    Firsts([], o, items, |items|)
  }

  predicate Admissible(l: Ledger, o: Id, item: Item) {
    && o != NIL && item.product != NIL && item.quantity > 0
    && item.product in l.stock && item.quantity <= l.stock[item.product].available
    && !HasRow(l.rows, o, item.product)
  }

  predicate AllAdmissible(l: Ledger, o: Id, items: seq<Item>) {
    forall i | 0 <= i < |items| :: Admissible(l, o, items[i])
  }

  function AfterReserve(l: Ledger, o: Id, firsts: seq<Item>): Ledger {
    Ledger(Moved(l.stock, Reservation, firsts), l.rows + NewRows(o, firsts, Reserved),
           l.moves + NewMoves(Reservation, o, firsts), l.outbox)
  }

  predicate CountersOk(l: Ledger) {
    forall p | p in l.stock :: l.stock[p].reserved >= 0
  }

  predicate Distinct(items: seq<Item>) {
    forall i, k | 0 <= i < k < |items| :: items[i].product != items[k].product
  }

  lemma {:induction false} MentionsAppend(a: seq<Item>, b: seq<Item>, p: Id)
    ensures Mentions(a + b, p) <==> Mentions(a, p) || Mentions(b, p)
  {
    if k :| 0 <= k < |a| && a[k].product == p {
      assert (a + b)[k].product == p;
    }
    if k :| 0 <= k < |b| && b[k].product == p {
      assert (a + b)[|a| + k].product == p;
    }
  }

  lemma {:induction false} MentionsOne(item: Item, p: Id)
    ensures Mentions([item], p) <==> item.product == p
  {
    assert [item][0] == item;
  }

  lemma {:induction false} HasReservedAppend(a: seq<Row>, b: seq<Row>, o: Id, p: Id)
    ensures HasReserved(a + b, o, p) <==> HasReserved(a, o, p) || HasReserved(b, o, p)
  {
    if k :| 0 <= k < |a| && a[k].order == o && a[k].product == p && a[k].status == Reserved {
      assert (a + b)[k] == a[k];
    }
    if k :| 0 <= k < |b| && b[k].order == o && b[k].product == p && b[k].status == Reserved {
      assert (a + b)[|a| + k] == b[k];
    }
  }

  lemma {:induction false} HasRowAppend(a: seq<Row>, b: seq<Row>, o: Id, p: Id)
    ensures HasRow(a + b, o, p) <==> HasRow(a, o, p) || HasRow(b, o, p)
  {
    if k :| 0 <= k < |a| && a[k].order == o && a[k].product == p {
      assert (a + b)[k] == a[k];
    }
    if k :| 0 <= k < |b| && b[k].order == o && b[k].product == p {
      assert (a + b)[|a| + k] == b[k];
    }
  }

  lemma {:induction false} NewRowsHas(o: Id, items: seq<Item>, p: Id)
    ensures HasReserved(NewRows(o, items, Reserved), o, p) <==> Mentions(items, p)
    ensures HasRow(NewRows(o, items, Reserved), o, p) <==> Mentions(items, p)
  {
    var rows := NewRows(o, items, Reserved);
    if k :| 0 <= k < |items| && items[k].product == p {
      assert rows[k].order == o && rows[k].product == p && rows[k].status == Reserved;
    }
  }

  // Firsts lists exactly the products requested so far that were not already reserved, once each.
  lemma {:induction false} FirstsProducts(rows: seq<Row>, o: Id, items: seq<Item>, n: nat, p: Id)
    requires n <= |items|
    ensures Mentions(Firsts(rows, o, items, n), p) <==> Mentions(items[..n], p) && !HasReserved(rows, o, p)
  {
    if n > 0 {
      FirstsProducts(rows, o, items, n - 1, p);
      assert items[..n] == items[..n - 1] + [items[n - 1]];
      MentionsAppend(items[..n - 1], [items[n - 1]], p);
      MentionsOne(items[n - 1], p);
      var prev := Firsts(rows, o, items, n - 1);
      MentionsAppend(prev, [items[n - 1]], p);
      assert prev + [] == prev;
    }
  }

  lemma {:induction false} FirstsDistinct(rows: seq<Row>, o: Id, items: seq<Item>, n: nat)
    requires n <= |items|
    ensures Distinct(Firsts(rows, o, items, n))
  {
    if n > 0 {
      FirstsDistinct(rows, o, items, n - 1);
      FirstsProducts(rows, o, items, n - 1, items[n - 1].product);
      var prev := Firsts(rows, o, items, n - 1);
      forall i | 0 <= i < |prev| && FirstOccurrence(items, n - 1) ensures prev[i].product != items[n - 1].product {
        assert !Mentions(prev, items[n - 1].product);
      }
    }
  }

  lemma {:induction false} QtyAbsent(items: seq<Item>, p: Id)
    requires !Mentions(items, p)
    ensures Qty(items, p) == 0
  {
    if items != [] {
      var front := items[..|items| - 1];
      assert items == front + [items[|items| - 1]];
      MentionsAppend(front, [items[|items| - 1]], p);
      MentionsOne(items[|items| - 1], p);
      QtyAbsent(front, p);
    }
  }

  // In a list without repeated products each product's quantity is its one entry's.
  lemma {:induction false} QtyUnique(items: seq<Item>, k: nat)
    requires k < |items|
    requires Distinct(items)
    ensures Qty(items, items[k].product) == items[k].quantity
  {
    var front := items[..|items| - 1];
    if k == |items| - 1 {
      assert !Mentions(front, items[k].product);
      QtyAbsent(front, items[k].product);
    } else {
      QtyUnique(front, k);
    }
  }

  // A product is a duplicate for the loop exactly when it was reserved before or came earlier.
  lemma {:induction false} DuplicateIff(l: Ledger, o: Id, items: seq<Item>, n: nat)
    requires n < |items|
    ensures HasReserved(AfterReserve(l, o, Firsts(l.rows, o, items, n)).rows, o, items[n].product)
            <==> (HasReserved(l.rows, o, items[n].product) || !FirstOccurrence(items, n))
  {
    var firsts, p := Firsts(l.rows, o, items, n), items[n].product;
    FirstsProducts(l.rows, o, items, n, p);
    HasReservedAppend(l.rows, NewRows(o, firsts, Reserved), o, p);
    NewRowsHas(o, firsts, p);
  }

  lemma {:induction false} AfterReserveOneMore(l: Ledger, o: Id, firsts: seq<Item>, item: Item)
    requires item.product in l.stock && !Mentions(firsts, item.product)
    ensures var l1 := AfterReserve(l, o, firsts);
            && l1.stock[item.product] == l.stock[item.product]
            && AfterReserve(l, o, firsts + [item]) ==
               Ledger(l1.stock[item.product := Shift(l.stock[item.product], Reservation, item.quantity)],
                      l1.rows + [Row(o, item.product, item.quantity, Reserved)],
                      l1.moves + [Movement(Reservation, item.product, -item.quantity, o)], l1.outbox)
  {
    QtyAbsent(firsts, item.product);
    var l2 := AfterReserve(l, o, firsts + [item]);
    assert l2.rows == AfterReserve(l, o, firsts).rows + [Row(o, item.product, item.quantity, Reserved)];
    assert l2.moves == AfterReserve(l, o, firsts).moves + [Movement(Reservation, item.product, -item.quantity, o)];
    forall p | p in l.stock ensures Qty(firsts + [item], p) == Qty(firsts, p)
      + (if p == item.product then item.quantity else 0) {
      QtyAppend(firsts, [item], p);
      assert [item][..0] == [];
    }
  }

  lemma {:induction false} ReserveOneOn(l1: Ledger, o: Id, item: Item)
    requires item.product in l1.stock && l1.stock[item.product].reserved >= 0
    ensures ReserveOne(l1, o, item).Ok? <==>
            (o != NIL && item.product != NIL && 0 < item.quantity <= l1.stock[item.product].available
             && !HasRow(l1.rows, o, item.product))
  {
  }

  // One fresh item on top of the earlier ones: it goes through iff it is admissible in the tables
  // the call started with.
  lemma {:induction false} ReserveOneExact(l: Ledger, o: Id, firsts: seq<Item>, item: Item)
    requires CountersOk(l) && !Mentions(firsts, item.product)
    ensures var r := ReserveOne(AfterReserve(l, o, firsts), o, item);
            && (r.Ok? <==> Admissible(l, o, item))
            && (r.Ok? ==> r.value == AfterReserve(l, o, firsts + [item]))
  {
    var l1 := AfterReserve(l, o, firsts);
    assert HasRow(l1.rows, o, item.product) == HasRow(l.rows, o, item.product) by {
      HasRowAppend(l.rows, NewRows(o, firsts, Reserved), o, item.product);
      NewRowsHas(o, firsts, item.product);
    }
    if item.product in l.stock {
      AfterReserveOneMore(l, o, firsts, item);
      ReserveOneOn(l1, o, item);
    }
  }

  // The loop's state after n items, in closed form.
  lemma {:induction false} ReserveUpToExact(l: Ledger, o: Id, items: seq<Item>, n: nat)
    requires n <= |items| && CountersOk(l)
    ensures var firsts := Firsts(l.rows, o, items, n);
            && (ReserveUpTo(l, o, items, n).Ok? <==> AllAdmissible(l, o, firsts))
            && (AllAdmissible(l, o, firsts) ==> ReserveUpTo(l, o, items, n) == Ok((AfterReserve(l, o, firsts), firsts)))
  {
    if n == 0 {
      assert Moved(l.stock, Reservation, []) == l.stock;
      assert l.rows + NewRows(o, [], Reserved) == l.rows && l.moves + NewMoves(Reservation, o, []) == l.moves;
    } else {
      ReserveUpToExact(l, o, items, n - 1);
      DuplicateIff(l, o, items, n - 1);
      var prev := Firsts(l.rows, o, items, n - 1);
      if FirstOccurrence(items, n - 1) && !HasReserved(l.rows, o, items[n - 1].product) {
        FirstsProducts(l.rows, o, items, n - 1, items[n - 1].product);
        ReserveOneExact(l, o, prev, items[n - 1]);
        assert AllAdmissible(l, o, prev + [items[n - 1]]) <==>
          AllAdmissible(l, o, prev) && Admissible(l, o, items[n - 1]) by {
          assert (prev + [items[n - 1]])[|prev|] == items[n - 1];
          assert forall i | 0 <= i < |prev| :: (prev + [items[n - 1]])[i] == prev[i];
        }
      } else {
        assert prev + [] == prev;
      }
    }
  }

  // Reserve is all or nothing: it succeeds exactly when every fresh line is admissible against the
  // tables as they were, and then reserves exactly those lines and announces exactly them.
  lemma {:induction false} ReserveExact(l: Ledger, o: Id, items: seq<Item>)
    requires CountersOk(l)
    ensures var firsts := Firsts(l.rows, o, items, |items|);
            && (ReserveOp(l, o, items).Ok? <==> AllAdmissible(l, o, firsts))
            && (ReserveOp(l, o, items).Ok? ==>
                  ReserveOp(l, o, items).value ==
                  AfterReserve(l, o, firsts).(outbox := l.outbox + if firsts == [] then []
                      else [InventoryReserved(o, firsts)]))
  {
    ReserveUpToExact(l, o, items, |items|);
  }

  lemma {:induction false} RefusedAsBefore(l: Ledger, o: Id, firsts: seq<Item>, item: Item)
    requires CountersOk(l) && !Mentions(firsts, item.product) && !Admissible(l, o, item)
    ensures ReserveOne(AfterReserve(l, o, firsts), o, item) == ReserveOne(l, o, item) && ReserveOne(l, o, item).Err?
  {
    HasRowAppend(l.rows, NewRows(o, firsts, Reserved), o, item.product);
    NewRowsHas(o, firsts, item.product);
    if item.product in l.stock {
      AfterReserveOneMore(l, o, firsts, item);
      ReserveOneOn(l, o, item);
    }
  }

  // A repeated call changes nothing and announces nothing.
  lemma {:induction false} ReserveIdempotent(l: Ledger, o: Id, items: seq<Item>)
    requires CountersOk(l) && ReserveOp(l, o, items).Ok?
    ensures ReserveOp(ReserveOp(l, o, items).value, o, items) == ReserveOp(l, o, items)
  {
    ReserveExact(l, o, items);
    var firsts := Firsts(l.rows, o, items, |items|);
    var l' := ReserveOp(l, o, items).value;
    forall j | 0 <= j < |items| ensures HasReserved(l'.rows, o, items[j].product) {
      var p := items[j].product;
      FirstsProducts(l.rows, o, items, |items|, p);
      HasReservedAppend(l.rows, NewRows(o, firsts, Reserved), o, p);
      NewRowsHas(o, firsts, p);
      assert items[..|items|] == items;
    }
    NothingFresh(l', o, items, |items|);
  }

  lemma {:induction false} NothingFresh(l: Ledger, o: Id, items: seq<Item>, n: nat)
    requires n <= |items|
    requires forall j | 0 <= j < n :: HasReserved(l.rows, o, items[j].product)
    ensures ReserveUpTo(l, o, items, n) == Ok((l, []))
  {
    if n > 0 {
      NothingFresh(l, o, items, n - 1);
    }
  }

  lemma {:induction false} ReserveKeeps(l: Ledger, o: Id, items: seq<Item>, init: map<Id, nat>)
    requires LedgerInv(l, init) && ReserveOp(l, o, items).Ok?
    ensures LedgerInv(ReserveOp(l, o, items).value, init)
  {
    assert forall p | p in l.stock :: Balanced(l, init, p);
    ReserveExact(l, o, items);
    var firsts := Firsts(l.rows, o, items, |items|);
    var l' := ReserveOp(l, o, items).value;
    FirstsDistinct(l.rows, o, items, |items|);
    ReserveRowsValid(l, o, firsts);
    forall p | p in l'.stock ensures Balanced(l', init, p) && Rebuilt(l', init, p) {
      assert Balanced(l, init, p) && Rebuilt(l, init, p);
      ReserveBalance(l, o, firsts, p);
      forall k: MoveKind ensures MoveSum(l'.moves, p, k) == MoveSum(l.moves, p, k) - (if k == Reservation
        then Qty(firsts, p) else 0) {
        MoveSumAppend(l.moves, NewMoves(Reservation, o, firsts), p, k);
        NewMovesSum(Reservation, o, firsts, p, k);
      }
    }
  }

  lemma {:induction false} ReserveRowsValid(l: Ledger, o: Id, firsts: seq<Item>)
    requires RowsValid(l) && AllAdmissible(l, o, firsts)
    requires Distinct(firsts)
    ensures RowsValid(AfterReserve(l, o, firsts))
  {
    var rows' := AfterReserve(l, o, firsts).rows;
    forall i, j | 0 <= i < j < |rows'| ensures rows'[i].order != rows'[j].order
      || rows'[i].product != rows'[j].product {
      if j >= |l.rows| {
        assert Admissible(l, o, firsts[j - |l.rows|]);
        if i < |l.rows| {
          assert rows'[i] == l.rows[i];
        }
      } else {
        assert rows'[i] == l.rows[i] && rows'[j] == l.rows[j];
      }
    }
    forall i | 0 <= i < |rows'| ensures rows'[i].quantity > 0 && rows'[i].product in l.stock && rows'[i].order != NIL {
      if i >= |l.rows| {
        assert Admissible(l, o, firsts[i - |l.rows|]);
      } else {
        assert rows'[i] == l.rows[i];
      }
    }
  }

  lemma {:induction false} ReserveBalance(l: Ledger, o: Id, firsts: seq<Item>, p: Id)
    requires AllAdmissible(l, o, firsts) && p in l.stock && l.stock[p].available >= 0
    requires Distinct(firsts)
    ensures 0 <= Qty(firsts, p) <= l.stock[p].available
    ensures RowSum(AfterReserve(l, o, firsts).rows, p, Reserved) == RowSum(l.rows, p, Reserved) + Qty(firsts, p)
    ensures RowSum(AfterReserve(l, o, firsts).rows, p, Committed) == RowSum(l.rows, p, Committed)
  {
    if k :| 0 <= k < |firsts| && firsts[k].product == p {
      QtyUnique(firsts, k);
      assert Admissible(l, o, firsts[k]);
    } else {
      assert !Mentions(firsts, p);
      QtyAbsent(firsts, p);
    }
    RowSumAppend(l.rows, NewRows(o, firsts, Reserved), p, Reserved);
    RowSumAppend(l.rows, NewRows(o, firsts, Reserved), p, Committed);
    NewRowsSum(o, firsts, Reserved, p, Reserved);
    NewRowsSum(o, firsts, Reserved, p, Committed);
  }

  // ---------- any history of the three operations ----------

  datatype StockOp = DoReserve(order: Id, items: seq<Item>) | DoRelease(order: Id) | DoCommit(order: Id)

  function StockStep(l: Ledger, op: StockOp): Ledger {
    match op
    case DoReserve(o, items) => (match ReserveOp(l, o, items) case Ok(l') => l' case Err(_) => l)
    case DoRelease(o) => ReleaseOp(l, o)
    case DoCommit(o) => CommitOp(l, o)
  }

  function StockRun(l: Ledger, ops: seq<StockOp>): Ledger {
    if |ops| == 0 then l else StockStep(StockRun(l, ops[..|ops| - 1]), ops[|ops| - 1])
  }

  // Conservation and the rebuildable log hold after every history, for every product.
  lemma {:induction false} StockConservation(l: Ledger, ops: seq<StockOp>, init: map<Id, nat>)
    requires EmptyLedger(l, init)
    ensures LedgerInv(StockRun(l, ops), init)
  {
    if ops == [] {
      EmptyLedgerOk(l, init);
    } else {
      StockConservation(l, ops[..|ops| - 1], init);
      var before := StockRun(l, ops[..|ops| - 1]);
      match ops[|ops| - 1]
      case DoReserve(o, items) => if ReserveOp(before, o, items).Ok? { ReserveKeeps(before, o, items, init); }
      case DoRelease(o) => ReleaseKeeps(before, o, init);
      case DoCommit(o) => CommitKeeps(before, o, init);
    }
  }

  // After a release the unique index still holds the order's rows, so the same order can not
  // reserve a released product again: the whole call fails.
  lemma {:induction false} NoReserveAfterRelease(l: Ledger, o: Id, items: seq<Item>, i: nat, init: map<Id, nat>)
    requires LedgerInv(l, init) && i < |items|
    requires HasReserved(l.rows, o, items[i].product)
    ensures ReserveOp(ReleaseOp(l, o), o, items).Err?
  {
    var l1, p := ReleaseOp(l, o), items[i].product;
    ReleaseKeeps(l, o, init);
    assert forall q | q in l1.stock :: Balanced(l1, init, q);
    ReserveExact(l1, o, items);
    FirstsProducts(l1.rows, o, items, |items|, p);
    assert items[..|items|] == items;
    assert Mentions(items, p);
    var firsts := Firsts(l1.rows, o, items, |items|);
    var k :| 0 <= k < |firsts| && firsts[k].product == p;
    var j :| 0 <= j < |l.rows| && l.rows[j].order == o && l.rows[j].product == p && l.rows[j].status == Reserved;
    assert l1.rows[j].order == o && l1.rows[j].product == p;
    assert !Admissible(l1, o, firsts[k]);
  }
}
