/** The inventory service: its stock repository, with one loop per transaction as in the source,
    and its consumer of order events. Every method is proved against the ledger functions. */
module Inventory {
  import opened Common
  import opened StockLedger
  import opened ReserveLaws

  // How the inventory service reacts to an order event.
  function ReactToOrder(l: Ledger, kind: OrderEventKind, o: Id): Ledger {
    match kind
    case OrderCancelled => ReleaseOp(l, o)
    case OrderConfirmed => CommitOp(l, o)
    case _ => l
  }

  // ---------- loop lemmas ----------

  lemma {:induction false} MovedNothing(stock: map<Id, Counters>, k: MoveKind)
    ensures Moved(stock, k, []) == stock
  {
  }

  lemma {:induction false} MovedOneMore(stock: map<Id, Counters>, k: MoveKind, items: seq<Item>, n: nat)
    requires n < |items| && items[n].product in stock
    ensures Moved(stock, k, items[..n + 1]) ==
            Moved(stock, k, items[..n])[items[n].product := Shift(Moved(stock, k, items[..n])[items[n].product], k,
                items[n].quantity)]
  {
    assert items[..n + 1][..n] == items[..n];
  }

  // The CHECK constraint on quantity_reserved cannot fire while an order's rows are given up.
  lemma {:induction false} ReservedSuffices(l: Ledger, o: Id, n: nat, init: map<Id, nat>)
    requires LedgerInv(l, init) && n < |Select(l.rows, o)|
    ensures var item := Select(l.rows, o)[n];
            && item.product in l.stock
            && Qty(Select(l.rows, o)[..n], item.product) + item.quantity <= l.stock[item.product].reserved
  {
    var items := Select(l.rows, o);
    var p := items[n].product;
    SelectBounded(l.rows, o, p);
    forall i | 0 <= i < |items| ensures items[i].quantity > 0 && HasProduct(l.rows, items[i].product) {
      SelectItems(l.rows, o, i);
    }
    assert Balanced(l, init, p);
    QtyPrefix(items, n + 1, p);
    assert items[..n + 1][..n] == items[..n];
  }

  lemma {:induction false} NewMovesOneMore(k: MoveKind, o: Id, items: seq<Item>, n: nat)
    requires n < |items|
    ensures NewMoves(k, o, items[..n + 1]) == NewMoves(k, o, items[..n]) + NewMoves(k, o, [items[n]])
  {
  }

  // Giving up one more item is allowed, and leads to the next partial result.
  lemma {:induction false} GiveUpNext(l: Ledger, o: Id, k: MoveKind, i: nat, init: map<Id, nat>)
    requires LedgerInv(l, init) && k != Reservation && i < |Select(l.rows, o)|
    ensures var items := Select(l.rows, o);
            var item, stock := items[i], Moved(l.stock, k, items[..i]);
            && item.product in stock && item.quantity <= stock[item.product].reserved
            && Moved(l.stock, k, items[..i + 1]) ==
               stock[item.product := Shift(stock[item.product], k, item.quantity)]
            && l.moves + NewMoves(k, o, items[..i + 1]) ==
               l.moves + NewMoves(k, o, items[..i]) + NewMoves(k, o, [item])
  {
    var items := Select(l.rows, o);
    ReservedSuffices(l, o, i, init);
    MovedOneMore(l.stock, k, items, i);
    NewMovesOneMore(k, o, items, i);
  }

  lemma {:induction false} ErrorSticks(l: Ledger, o: Id, items: seq<Item>, n: nat, m: nat)
    requires n <= m <= |items| && ReserveUpTo(l, o, items, n).Err?
    ensures ReserveUpTo(l, o, items, m) == ReserveUpTo(l, o, items, n)
    decreases m
  {
    if n < m {
      ErrorSticks(l, o, items, n, m - 1);
    }
  }

  class StockRepository {
    var stock: map<Id, Counters>
    var rows: seq<Row>
    var moves: seq<Movement>
    var outbox: seq<StockEvent>
    ghost const initial: map<Id, nat>

    function Tables(): Ledger
      reads this
    {
      Ledger(stock, rows, moves, outbox)
    }

    ghost predicate Valid()
      reads this
    {
      LedgerInv(Tables(), initial)
    }

    constructor (initial: map<Id, nat>)
      ensures Valid() && EmptyLedger(Tables(), initial) && this.initial == initial
    {
      stock := map p | p in initial :: Counters(initial[p], 0);
      rows, moves, outbox := [], [], [];
      this.initial := initial;
      new;
      EmptyLedgerOk(Tables(), initial);
    }

    method Rollback(saved: Ledger)
      modifies this
      ensures Tables() == saved
    {
      stock, rows, moves, outbox := saved.stock, saved.rows, saved.moves, saved.outbox;
    }

    method HasReservedRow(o: Id, p: Id) returns (found: bool)
      ensures found == HasReserved(rows, o, p)
    {
      found := false;
      for i := 0 to |rows|
        invariant !found
        invariant forall j | 0 <= j < i :: !(rows[j].order == o && rows[j].product == p && rows[j].status == Reserved)
      {
        if rows[i].order == o && rows[i].product == p && rows[i].status == Reserved {
          return true;
        }
      }
    }

    method ReservedItems(o: Id) returns (items: seq<Item>)
      ensures items == Select(rows, o)
    {
      items := [];
      for i := 0 to |rows|
        invariant items == Select(rows[..i], o)
      {
        assert rows[..i + 1][..i] == rows[..i];
        if rows[i].order == o && rows[i].status == Reserved {
          items := items + [Item(rows[i].product, rows[i].quantity)];
        }
      }
      assert rows[..|rows|] == rows;
    }

    // All items are reserved as ReserveOp reserves them, or the tables stay as they were.
    method Reserve(o: Id, items: seq<Item>) returns (r: Outcome)
      requires Valid()
      modifies this
      ensures Valid()
      ensures match ReserveOp(old(Tables()), o, items)
              case Ok(l') => r == Done && Tables() == l'
              case Err(e) => r == Failed(e) && Tables() == old(Tables())
    {
      var saved := Tables();
      var reserved: seq<Item> := [];
      for i := 0 to |items|
        invariant ReserveUpTo(saved, o, items, i) == Ok((Tables(), reserved))
      {
        var item := items[i];
        var duplicate := HasReservedRow(o, item.product);
        if duplicate {
          continue;
        }
        r := ReserveItem(o, item);
        if r.Failed? {
          ErrorSticks(saved, o, items, i + 1, |items|);
          Rollback(saved);
          return;
        }
        reserved := reserved + [item];
      }
      if |reserved| > 0 {
        outbox := outbox + [InventoryReserved(o, reserved)];
      }
      r := Done;
      ReserveKeeps(saved, o, items, initial);
    }

    // The statements for one item; a failed one leaves its transaction to the caller's rollback.
    method ReserveItem(o: Id, item: Item) returns (r: Outcome)
      modifies this
      ensures match ReserveOne(old(Tables()), o, item)
              case Ok(l') => r == Done && Tables() == l'
              case Err(e) => r == Failed(e)
    {
      if item.product !in stock {
        return Failed(NotFound);
      }
      var c := stock[item.product];
      if c.available < item.quantity {
        return Failed(Insufficient);
      }
      if c.reserved + item.quantity < 0 {
        return Failed(Constraint);
      }
      stock := stock[item.product := Counters(c.available - item.quantity, c.reserved + item.quantity)];
      if o == NIL || item.product == NIL || item.quantity <= 0 {
        return Failed(Validation);
      }
      if exists i | 0 <= i < |rows| :: rows[i].order == o && rows[i].product == item.product {
        return Failed(Constraint);
      }
      rows := rows + [Row(o, item.product, item.quantity, Reserved)];
      moves := moves + [Movement(Reservation, item.product, -item.quantity, o)];
      r := Done;
    }

    // The counter update and the movement for one item of an order that gives up its reservation;
    // the precondition is the CHECK constraint on quantity_reserved.
    method GiveUpItem(o: Id, k: MoveKind, item: Item)
      requires k != Reservation
      requires item.product in stock && item.quantity <= stock[item.product].reserved
      modifies this`stock, this`moves
      ensures stock == old(stock)[item.product := Shift(old(stock)[item.product], k, item.quantity)]
      ensures moves == old(moves) + NewMoves(k, o, [item])
    {
      var c := stock[item.product];
      if k == Sale {
        stock := stock[item.product := Counters(c.available, c.reserved - item.quantity)];
        moves := moves + [Movement(k, item.product, -item.quantity, o)];
      } else {
        stock := stock[item.product := Counters(c.available + item.quantity, c.reserved - item.quantity)];
        moves := moves + [Movement(k, item.product, item.quantity, o)];
      }
    }

    // Empties the order's reservations: a release puts them back into available stock, a sale takes them
    // out of the counters for good.
    method GiveUp(o: Id, k: MoveKind, st: RowStatus) returns (items: seq<Item>)
      requires Valid() && k != Reservation
      modifies this`stock, this`moves, this`rows
      ensures items == Select(old(rows), o)
      ensures stock == Moved(old(stock), k, items)
      ensures moves == old(moves) + NewMoves(k, o, items)
      ensures rows == SetStatus(old(rows), o, st)
    {
      ghost var before := Tables();
      ghost var stock0, moves0, rows0 := stock, moves, rows;
      items := ReservedItems(o);
      MovedNothing(stock, k);
      assert moves + NewMoves(k, o, items[..0]) == moves;
      for i := 0 to |items|
        invariant stock == Moved(stock0, k, items[..i])
        invariant moves == moves0 + NewMoves(k, o, items[..i])
        invariant rows == rows0
      {
        GiveUpNext(before, o, k, i, initial);
        GiveUpItem(o, k, items[i]);
      }
      assert items[..|items|] == items;
      rows := SetStatus(rows, o, st);
    }

    // The ledger's release, announced when the order held anything.
    method Release(o: Id)
      requires Valid()
      modifies this
      ensures Valid() && Tables() == ReleaseOp(old(Tables()), o)
    {
      ghost var before := Tables();
      var items := GiveUp(o, MoveKind.Release, Released);
      if |items| > 0 {
        outbox := outbox + [InventoryReleased(o, items)];
      }
      ReleaseKeeps(before, o, initial);
    }

    // The ledger's sale of what the order held.
    method CommitInTx(o: Id) returns (items: seq<Item>)
      requires Valid()
      modifies this
      ensures Valid() && Tables() == CommitOp(old(Tables()), o) && items == Select(old(rows), o)
    {
      ghost var before := Tables();
      items := GiveUp(o, Sale, Committed);
      CommitKeeps(before, o, initial);
    }
  }

  // Applies order events to reservations; the processed mark and the effect commit together.
  class OrdersConsumer {
    const repo: StockRepository
    var processed: set<Id>

    constructor (repo: StockRepository)
      ensures this.repo == repo && processed == {}
    {
      this.repo := repo;
      processed := {};
    }

    method Handle(eventId: Id, kind: OrderEventKind, o: Id)
      requires repo.Valid()
      modifies this, repo
      ensures repo.Valid()
      ensures processed == old(processed) + {eventId}
      ensures repo.Tables() ==
              if eventId in old(processed) then old(repo.Tables()) else ReactToOrder(old(repo.Tables()), kind, o)
      ensures repo.Tables() ==
              if eventId !in old(processed) && kind == OrderCancelled then ReleaseOp(old(repo.Tables()), o)
              else if eventId !in old(processed) && kind == OrderConfirmed then CommitOp(old(repo.Tables()), o)
              else old(repo.Tables())
    {
      if eventId in processed {
        return;
      }
      processed := processed + {eventId};
      match kind
      case OrderCancelled => repo.Release(o);
      case OrderConfirmed => var _ := repo.CommitInTx(o);
      case _ =>
    }
  }
}
