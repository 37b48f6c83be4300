/** What Reserve does to the tables, told from the requested items alone: which line of a request counts,
    why a request is refused, and what an accepted one changes. */
module ReserveTables {
  import opened Common
  import opened StockLedger
  import opened ReserveLaws

  // The item is the first of its product in the request, and the order has not reserved that product yet.
  predicate Fresh(l: Ledger, o: Id, items: seq<Item>, i: nat) {
    && i < |items| && (forall j | 0 <= j < i :: items[j].product != items[i].product)
    && !HasReserved(l.rows, o, items[i].product)
  }

  // Why the tables refuse an item on its own: no row for the product, too little of it, values no
  // reservation may have, or a constraint of the tables.
  predicate WhyRefused(l: Ledger, o: Id, item: Item, e: Error) {
    var has := item.product in l.stock;
    var enough := has && item.quantity <= l.stock[item.product].available;
    && e in {NotFound, Insufficient, Validation, Constraint}
    && (e == NotFound <==> !has)
    && (e == Insufficient <==> has && !enough)
    && (e == Validation <==>
          enough && l.stock[item.product].reserved + item.quantity >= 0
          && (o == NIL || item.product == NIL || item.quantity <= 0))
    && (e == Constraint ==> l.stock[item.product].reserved + item.quantity < 0 || HasRow(l.rows, o, item.product))
  }

  // The first item refused, and why.
  ghost predicate Refused(l: Ledger, o: Id, items: seq<Item>, i: nat, e: Error) {
    && Fresh(l, o, items, i) && WhyRefused(l, o, items[i], e)
    && forall j: nat | j < i && Fresh(l, o, items, j) :: Admissible(l, o, items[j])
  }

  ghost predicate WasRefused(l: Ledger, o: Id, items: seq<Item>, e: Error) {
    exists i: nat :: Refused(l, o, items, i, e)
  }

  ghost predicate AllAdmitted(l: Ledger, o: Id, items: seq<Item>) {
    forall i: nat | Fresh(l, o, items, i) :: Admissible(l, o, items[i])
  }

  // Each fresh item's quantity went from available to reserved, and no other counter changed.
  ghost predicate CountersTaken(l: Ledger, l': Ledger, o: Id, items: seq<Item>) {
    && l'.stock.Keys == l.stock.Keys
    && (forall i: nat | Fresh(l, o, items, i) :: items[i].product in l.stock &&
          var c := l.stock[items[i].product];
          l'.stock[items[i].product] == Counters(c.available - items[i].quantity, c.reserved + items[i].quantity))
    && (forall p | p in l.stock && (forall i: nat | Fresh(l, o, items, i) :: items[i].product != p) ::
          l'.stock[p] == l.stock[p])
  }

  function HeldRow(o: Id, item: Item): Row {
    Row(o, item.product, item.quantity, Reserved)
  }

  // The row reserves a fresh item of the request.
  ghost predicate Requested(l: Ledger, o: Id, items: seq<Item>, row: Row) {
    exists i: nat :: Fresh(l, o, items, i) && row == HeldRow(o, items[i])
  }

  // Each fresh item has one new reservation row, and there are no other new rows.
  ghost predicate RowsAdded(l: Ledger, l': Ledger, o: Id, items: seq<Item>) {
    && l.rows <= l'.rows
    && (forall k | |l.rows| <= k < |l'.rows| :: Requested(l, o, items, l'.rows[k]))
    && (forall i: nat | Fresh(l, o, items, i) :: HeldRow(o, items[i]) in l'.rows[|l.rows|..])
    && (forall k, m | |l.rows| <= k < m < |l'.rows| :: l'.rows[k].product != l'.rows[m].product)
  }

  // Every new row comes with an outbound movement, and all of them with one event.
  predicate RowsTold(l: Ledger, l': Ledger, o: Id) {
    && l.rows <= l'.rows && l.moves <= l'.moves && l.outbox <= l'.outbox
    && MovesTell(l'.moves[|l.moves|..], l'.rows[|l.rows|..], o)
    && EventTells(l'.outbox[|l.outbox|..], l'.rows[|l.rows|..], o)
  }

  predicate MovesTell(moves: seq<Movement>, rows: seq<Row>, o: Id) {
    && |moves| == |rows|
    && forall k | 0 <= k < |rows| :: moves[k] == Movement(Reservation, rows[k].product, -rows[k].quantity, o)
  }

  predicate EventTells(events: seq<StockEvent>, rows: seq<Row>, o: Id) {
    if |rows| == 0 then events == []
    else
      && |events| == 1 && events[0].InventoryReserved? && events[0].order == o && |events[0].items| == |rows|
      && forall k | 0 <= k < |rows| :: events[0].items[k] == Item(rows[k].product, rows[k].quantity)
  }

  ghost predicate Taken(l: Ledger, l': Ledger, o: Id, items: seq<Item>) {
    CountersTaken(l, l', o, items) && RowsAdded(l, l', o, items) && RowsTold(l, l', o)
  }

  // ---------- the first occurrences are the fresh items ----------

  lemma {:induction false} FreshIff(l: Ledger, o: Id, items: seq<Item>, i: nat)
    requires i < |items|
    ensures Fresh(l, o, items, i) <==> FirstOccurrence(items, i) && !HasReserved(l.rows, o, items[i].product)
  {
    if j :| 0 <= j < i && items[j].product == items[i].product {
      assert items[..i][j].product == items[i].product;
    }
  }

  predicate Picks(l: Ledger, o: Id, items: seq<Item>, n: nat, k: nat, i: nat)
    requires n <= |items|
  {
    && i < n && Fresh(l, o, items, i) && k < |Firsts(l.rows, o, items, n)|
    && Firsts(l.rows, o, items, n)[k] == items[i]
  }

  lemma {:induction false} PicksFresh(l: Ledger, o: Id, items: seq<Item>, n: nat, k: nat)
    requires n <= |items| && k < |Firsts(l.rows, o, items, n)|
    ensures exists i: nat :: Picks(l, o, items, n, k, i)
  {
    if k < |Firsts(l.rows, o, items, n - 1)| {
      PicksFresh(l, o, items, n - 1, k);
      var i: nat :| Picks(l, o, items, n - 1, k, i);
      assert Picks(l, o, items, n, k, i);
    } else {
      FreshIff(l, o, items, n - 1);
      assert Picks(l, o, items, n, k, n - 1);
    }
  }

  lemma {:induction false} FreshPicked(l: Ledger, o: Id, items: seq<Item>, n: nat, i: nat)
    requires i < n <= |items| && Fresh(l, o, items, i)
    ensures exists k: nat :: Picks(l, o, items, n, k, i)
  {
    FreshIff(l, o, items, n - 1);
    var before := Firsts(l.rows, o, items, n - 1);
    if i < n - 1 {
      FreshPicked(l, o, items, n - 1, i);
      var k: nat :| Picks(l, o, items, n - 1, k, i);
      assert Picks(l, o, items, n, k, i);
    } else {
      assert Picks(l, o, items, n, |before|, i);
    }
  }

  // ---------- acceptance and refusal ----------

  lemma {:induction false} AcceptedIff(l: Ledger, o: Id, items: seq<Item>)
    requires CountersOk(l)
    ensures ReserveOp(l, o, items).Ok? <==> AllAdmitted(l, o, items)
  {
    ReserveExact(l, o, items);
    var firsts := Firsts(l.rows, o, items, |items|);
    if AllAdmissible(l, o, firsts) {
      forall i: nat | Fresh(l, o, items, i) ensures Admissible(l, o, items[i]) {
        FreshPicked(l, o, items, |items|, i);
        var k: nat :| Picks(l, o, items, |items|, k, i);
        assert Admissible(l, o, firsts[k]);
      }
    } else {
      var k :| 0 <= k < |firsts| && !Admissible(l, o, firsts[k]);
      PicksFresh(l, o, items, |items|, k);
    }
  }

  lemma {:induction false} OneRefusal(l: Ledger, o: Id, item: Item)
    requires ReserveOne(l, o, item).Err?
    ensures WhyRefused(l, o, item, ReserveOne(l, o, item).error)
  {
  }

  // The loop stops at the first fresh item the tables refuse, with the reason they have for it.
  lemma {:induction false} RefusedUpTo(l: Ledger, o: Id, items: seq<Item>, n: nat)
    requires n <= |items| && CountersOk(l) && ReserveUpTo(l, o, items, n).Err?
    ensures exists i: nat :: i < n && Refused(l, o, items, i, ReserveUpTo(l, o, items, n).error)
  {
    var prev := Firsts(l.rows, o, items, n - 1);
    ReserveUpToExact(l, o, items, n - 1);
    if ReserveUpTo(l, o, items, n - 1).Err? {
      RefusedUpTo(l, o, items, n - 1);
    } else {
      var item := items[n - 1];
      DuplicateIff(l, o, items, n - 1);
      FreshIff(l, o, items, n - 1);
      FirstsProducts(l.rows, o, items, n - 1, item.product);
      ReserveOneExact(l, o, prev, item);
      RefusedAsBefore(l, o, prev, item);
      OneRefusal(l, o, item);
      forall j: nat | j < n - 1 && Fresh(l, o, items, j) ensures Admissible(l, o, items[j]) {
        FreshPicked(l, o, items, n - 1, j);
        var k: nat :| Picks(l, o, items, n - 1, k, j);
        assert Admissible(l, o, prev[k]);
      }
      assert Refused(l, o, items, n - 1, ReserveUpTo(l, o, items, n).error);
    }
  }

  // A refused call names the reason of the first item refused. So a shortage is reported if and only if
  // that item's product has a row with less available, and a missing product if and only if it has none.
  lemma {:induction false} ReserveRefusal(l: Ledger, o: Id, items: seq<Item>)
    requires CountersOk(l) && ReserveOp(l, o, items).Err?
    ensures WasRefused(l, o, items, ReserveOp(l, o, items).error)
  {
    RefusedUpTo(l, o, items, |items|);
  }

  // ---------- what an accepted call changes ----------

  lemma {:induction false} TakenCounters(l: Ledger, o: Id, items: seq<Item>, l': Ledger)
    requires CountersOk(l) && ReserveOp(l, o, items) == Ok(l')
    ensures CountersTaken(l, l', o, items)
  {
    ReserveExact(l, o, items);
    AcceptedIff(l, o, items);
    var firsts := Firsts(l.rows, o, items, |items|);
    FirstsDistinct(l.rows, o, items, |items|);
    forall i: nat | Fresh(l, o, items, i) ensures Qty(firsts, items[i].product) == items[i].quantity {
      FreshPicked(l, o, items, |items|, i);
      var k: nat :| Picks(l, o, items, |items|, k, i);
      QtyUnique(firsts, k);
    }
    forall p | p in l.stock && (forall i: nat | Fresh(l, o, items, i) :: items[i].product != p)
      ensures Qty(firsts, p) == 0
    {
      if k :| 0 <= k < |firsts| && firsts[k].product == p {
        PicksFresh(l, o, items, |items|, k);
        assert false;
      }
      assert !Mentions(firsts, p);
      QtyAbsent(firsts, p);
    }
  }

  lemma {:induction false} TakenRows(l: Ledger, o: Id, items: seq<Item>, l': Ledger)
    requires CountersOk(l) && ReserveOp(l, o, items) == Ok(l')
    ensures RowsAdded(l, l', o, items)
  {
    ReserveExact(l, o, items);
    var firsts := Firsts(l.rows, o, items, |items|);
    FirstsDistinct(l.rows, o, items, |items|);
    AddedRows(l, o, items, firsts, l');
  }

  lemma {:induction false} AddedRows(l: Ledger, o: Id, items: seq<Item>, firsts: seq<Item>, l': Ledger)
    requires firsts == Firsts(l.rows, o, items, |items|) && Distinct(firsts)
    requires l'.rows == l.rows + NewRows(o, firsts, Reserved)
    ensures RowsAdded(l, l', o, items)
  {
    var n := |l.rows|;
    forall k | n <= k < |l'.rows| ensures Requested(l, o, items, l'.rows[k]) {
      PicksFresh(l, o, items, |items|, k - n);
      var i: nat :| Picks(l, o, items, |items|, k - n, i);
      assert l'.rows[k] == HeldRow(o, items[i]);
    }
    forall i: nat | Fresh(l, o, items, i) ensures HeldRow(o, items[i]) in l'.rows[n..] {
      FreshPicked(l, o, items, |items|, i);
      var k: nat :| Picks(l, o, items, |items|, k, i);
      assert l'.rows[n..][k] == HeldRow(o, items[i]);
    }
  }

  lemma {:induction false} TakenTold(l: Ledger, o: Id, items: seq<Item>, l': Ledger)
    requires CountersOk(l) && ReserveOp(l, o, items) == Ok(l')
    ensures RowsTold(l, l', o)
  {
    ReserveExact(l, o, items);
    var firsts := Firsts(l.rows, o, items, |items|);
    assert l'.rows[|l.rows|..] == NewRows(o, firsts, Reserved);
    assert l'.moves[|l.moves|..] == NewMoves(Reservation, o, firsts);
    assert l'.outbox[|l.outbox|..] == if firsts == [] then [] else [InventoryReserved(o, firsts)];
  }

  // An accepted call takes exactly its fresh items: counters, rows, movements and the event.
  lemma {:induction false} ReserveTakes(l: Ledger, o: Id, items: seq<Item>)
    requires CountersOk(l) && ReserveOp(l, o, items).Ok?
    ensures Taken(l, ReserveOp(l, o, items).value, o, items)
  {
    TakenCounters(l, o, items, ReserveOp(l, o, items).value);
    TakenRows(l, o, items, ReserveOp(l, o, items).value);
    TakenTold(l, o, items, ReserveOp(l, o, items).value);
  }
}
