/** What each inventory transaction does to one order's rows and movements, that it leaves every
    other order's alone, and how the transactions undo one another. */
module StockFrames {
  import opened Common
  import opened StockLedger
  import opened ReserveLaws

  ghost predicate LedgerFrame(l: Ledger, l': Ledger, o: Id) {
    forall o': Id | o' != o ::
      && RowsOf(l'.rows, o') == RowsOf(l.rows, o')
      && MoveCount(l'.moves, o', Release) == MoveCount(l.moves, o', Release)
      && MoveCount(l'.moves, o', Sale) == MoveCount(l.moves, o', Sale)
  }

  lemma {:induction false} ReleaseFrame(l: Ledger, o: Id)
    ensures LedgerFrame(l, ReleaseOp(l, o), o)
    ensures RowsOf(ReleaseOp(l, o).rows, o) == SetStatus(RowsOf(l.rows, o), o, Released)
    ensures MoveCount(ReleaseOp(l, o).moves, o, Release) == MoveCount(l.moves, o, Release) + |Select(l.rows, o)|
    ensures MoveCount(ReleaseOp(l, o).moves, o, Sale) == MoveCount(l.moves, o, Sale)
  {
    var items := Select(l.rows, o);
    forall o': Id, k: MoveKind
      ensures MoveCount(ReleaseOp(l, o).moves, o', k) ==
              MoveCount(l.moves, o', k) + if k == Release && o == o' then |items| else 0
    {
      MoveCountAppend(l.moves, NewMoves(Release, o, items), o', k);
      NewMovesCount(Release, o, items, o', k);
    }
    forall o': Id ensures RowsOf(ReleaseOp(l, o).rows, o') ==
      if o == o' then SetStatus(RowsOf(l.rows, o), o, Released) else RowsOf(l.rows, o') {
      SetStatusRowsOf(l.rows, o, Released, o');
    }
  }

  lemma {:induction false} CommitFrame(l: Ledger, o: Id)
    ensures LedgerFrame(l, CommitOp(l, o), o)
    ensures RowsOf(CommitOp(l, o).rows, o) == SetStatus(RowsOf(l.rows, o), o, Committed)
    ensures MoveCount(CommitOp(l, o).moves, o, Sale) == MoveCount(l.moves, o, Sale) + |Select(l.rows, o)|
    ensures MoveCount(CommitOp(l, o).moves, o, Release) == MoveCount(l.moves, o, Release)
  {
    var items := Select(l.rows, o);
    forall o': Id, k: MoveKind
      ensures MoveCount(CommitOp(l, o).moves, o', k) ==
              MoveCount(l.moves, o', k) + if k == Sale && o == o' then |items| else 0
    {
      MoveCountAppend(l.moves, NewMoves(Sale, o, items), o', k);
      NewMovesCount(Sale, o, items, o', k);
    }
    forall o': Id ensures RowsOf(CommitOp(l, o).rows, o') ==
      if o == o' then SetStatus(RowsOf(l.rows, o), o, Committed) else RowsOf(l.rows, o') {
      SetStatusRowsOf(l.rows, o, Committed, o');
    }
  }

  lemma {:induction false} SetStatusUniform(o: Id, items: seq<Item>, st: RowStatus, to: RowStatus)
    ensures SetStatus(NewRows(o, items, st), o, to) == NewRows(o, items, if st == Reserved then to else st)
  {
  }

  // An order whose rows all carry one status is released, or sold, as a whole.
  lemma {:induction false} SelectHeld(l: Ledger, o: Id, items: seq<Item>, st: RowStatus)
    requires RowsOf(l.rows, o) == NewRows(o, items, st)
    ensures Select(l.rows, o) == if st == Reserved then items else []
  {
    SelectRowsOf(l.rows, o);
    SelectNewRows(o, items, st);
  }

  lemma {:induction false} ReserveFrame(l: Ledger, o: Id, items: seq<Item>)
    requires CountersOk(l) && RowsOf(l.rows, o) == [] && ReserveOp(l, o, items).Ok?
    ensures var l' := ReserveOp(l, o, items).value;
            && LedgerFrame(l, l', o)
            && RowsOf(l'.rows, o) == NewRows(o, Lines(o, items), Reserved)
            && MoveCount(l'.moves, o, Release) == MoveCount(l.moves, o, Release)
            && MoveCount(l'.moves, o, Sale) == MoveCount(l.moves, o, Sale)
  {
    ReserveExact(l, o, items);
    var firsts := Firsts(l.rows, o, items, |items|);
    FirstsOfNone(l.rows, o, items, |items|);
    forall o': Id ensures RowsOf(l.rows + NewRows(o, firsts, Reserved), o') ==
      RowsOf(l.rows, o') + if o == o' then NewRows(o, firsts, Reserved) else [] {
      RowsOfAppend(l.rows, NewRows(o, firsts, Reserved), o');
      NewRowsOf(o, firsts, Reserved, o');
    }
    forall o': Id, k: MoveKind | k != Reservation
      ensures MoveCount(l.moves + NewMoves(Reservation, o, firsts), o', k) == MoveCount(l.moves, o', k)
    {
      MoveCountAppend(l.moves, NewMoves(Reservation, o, firsts), o', k);
      NewMovesCount(Reservation, o, firsts, o', k);
    }
  }

  lemma {:induction false} RowsOfMember(rows: seq<Row>, i: nat)
    requires i < |rows|
    ensures rows[i] in RowsOf(rows, rows[i].order)
  {
    var front := rows[..|rows| - 1];
    if i < |front| {
      assert front[i] == rows[i];
      RowsOfMember(front, i);
    }
  }

  // For an order without rows the first occurrences do not depend on the rest of the table.
  lemma {:induction false} FirstsOfNone(rows: seq<Row>, o: Id, items: seq<Item>, n: nat)
    requires n <= |items| && RowsOf(rows, o) == []
    ensures Firsts(rows, o, items, n) == Firsts([], o, items, n)
  {
    if n > 0 {
      FirstsOfNone(rows, o, items, n - 1);
      if HasReserved(rows, o, items[n - 1].product) {
        var i :| 0 <= i < |rows| && rows[i].order == o && rows[i].product == items[n - 1].product
            && rows[i].status == Reserved;
        RowsOfMember(rows, i);
      }
    }
  }

  // ---------- undoing ----------

  lemma {:induction false} SelectAfterSetStatus(rows: seq<Row>, o: Id, st: RowStatus)
    requires st != Reserved
    ensures |Select(SetStatus(rows, o, st), o)| == 0
  {
    if |rows| > 0 {
      SelectAfterSetStatus(rows[..|rows| - 1], o, st);
      assert SetStatus(rows, o, st)[..|rows| - 1] == SetStatus(rows[..|rows| - 1], o, st);
    }
  }

  lemma {:induction false} SelectNone(rows: seq<Row>, o: Id, st: RowStatus)
    requires |Select(rows, o)| == 0
    ensures SetStatus(rows, o, st) == rows
  {
    if |rows| > 0 {
      SelectNone(rows[..|rows| - 1], o, st);
      assert SetStatus(rows, o, st)[..|rows| - 1] == SetStatus(rows[..|rows| - 1], o, st);
    }
  }

  lemma {:induction false} NothingToGiveUp(l: Ledger, o: Id)
    requires |Select(l.rows, o)| == 0
    ensures ReleaseOp(l, o) == l && CommitOp(l, o) == l
  {
    SelectNone(l.rows, o, Released);
    SelectNone(l.rows, o, Committed);
    assert Moved(l.stock, Release, []) == l.stock && Moved(l.stock, Sale, []) == l.stock;
  }

  // Reserving for an order without rows, in closed form.
  lemma {:induction false} ReservedForm(l: Ledger, o: Id, items: seq<Item>)
    requires CountersOk(l) && RowsOf(l.rows, o) == [] && ReserveOp(l, o, items).Ok? && |items| > 0
    ensures var held := Lines(o, items);
            && ReserveOp(l, o, items).value ==
               AfterReserve(l, o, held).(outbox := l.outbox + [InventoryReserved(o, held)])
            && Select(ReserveOp(l, o, items).value.rows, o) == held
            && RowsOf(ReserveOp(l, o, items).value.rows, o) == NewRows(o, held, Reserved)
  {
    ReserveExact(l, o, items);
    ReserveFrame(l, o, items);
    FirstsOfNone(l.rows, o, items, |items|);
    FirstIsHeld(o, items, |items|);
    SelectHeld(ReserveOp(l, o, items).value, o, Lines(o, items), Reserved);
  }

  lemma {:induction false} MovedBack(stock: map<Id, Counters>, items: seq<Item>)
    ensures Moved(Moved(stock, Reservation, items), Release, items) == stock
  {
  }

  // Releasing a reservation gives back exactly what it took: every counter is as before, the
  // movements cancel out, and the same items are announced twice, as reserved and as released.
  lemma {:induction false} ReleaseUndoesReserve(l: Ledger, o: Id, items: seq<Item>)
    requires CountersOk(l) && RowsOf(l.rows, o) == [] && ReserveOp(l, o, items).Ok? && |items| > 0
    ensures var held := Lines(o, items);
            var l2 := ReleaseOp(ReserveOp(l, o, items).value, o);
            && |held| > 0 && l2.stock == l.stock
            && RowsOf(l2.rows, o) == NewRows(o, held, Released)
            && l2.moves == l.moves + NewMoves(Reservation, o, held) + NewMoves(Release, o, held)
            && l2.outbox == l.outbox + [InventoryReserved(o, held)] + [InventoryReleased(o, held)]
  {
    var held, l1 := Lines(o, items), ReserveOp(l, o, items).value;
    ReservedForm(l, o, items);
    FirstIsHeld(o, items, |items|);
    ReleaseFrame(l1, o);
    SetStatusUniform(o, held, Reserved, Released);
    MovedBack(l.stock, held);
  }

  lemma {:induction false} MovedOut(stock: map<Id, Counters>, items: seq<Item>, p: Id)
    requires p in stock
    ensures var sold := Moved(Moved(stock, Reservation, items), Sale, items);
            p in sold && sold[p] == Counters(stock[p].available - Qty(items, p), stock[p].reserved)
  {
  }

  // Selling a reservation takes its items out of stock for good, and a release after that finds
  // nothing to give back.
  lemma {:induction false} CommitSellsReserve(l: Ledger, o: Id, items: seq<Item>, p: Id)
    requires CountersOk(l) && RowsOf(l.rows, o) == [] && ReserveOp(l, o, items).Ok? && |items| > 0 && p in l.stock
    ensures var held := Lines(o, items);
            var l2 := CommitOp(ReserveOp(l, o, items).value, o);
            && p in l2.stock
            && l2.stock[p] == Counters(l.stock[p].available - Qty(held, p), l.stock[p].reserved)
            && RowsOf(l2.rows, o) == NewRows(o, held, Committed)
            && l2.moves == l.moves + NewMoves(Reservation, o, held) + NewMoves(Sale, o, held)
            && l2.outbox == l.outbox + [InventoryReserved(o, held)]
            && ReleaseOp(l2, o) == l2
  {
    var held, l1 := Lines(o, items), ReserveOp(l, o, items).value;
    ReservedForm(l, o, items);
    CommitFrame(l1, o);
    SetStatusUniform(o, held, Reserved, Committed);
    SelectHeld(CommitOp(l1, o), o, held, Committed);
    NothingToGiveUp(CommitOp(l1, o), o);
    MovedOut(l.stock, held, p);
  }

  lemma {:induction false} FirstIsHeld(o: Id, items: seq<Item>, n: nat)
    requires 0 < n <= |items|
    ensures |Firsts([], o, items, n)| > 0
  {
    if n > 1 {
      FirstIsHeld(o, items, n - 1);
    } else {
      assert |Firsts([], o, items, 0)| == 0;
    }
  }
}
