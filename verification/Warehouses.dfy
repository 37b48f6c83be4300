/** Why a product needs a single inventory row: the updates name the product and not the warehouse, so
    they reach every row the product has. */
module Warehouses {
  import opened Common
  import opened StockLedger

  // One inventory row of the product, and the product with its rows, the quantities of its outstanding
  // reservations, and what was sold.
  datatype Shelf = Shelf(available: int, reserved: int)
  datatype Product = Product(shelves: seq<Shelf>, held: seq<int>, sold: int)
  datatype Op = DoReserve(quantity: int) | DoRelease(k: nat) | DoSell(k: nat)

  // ---------- the updates ----------

  predicate Hit(shelf: Shelf, q: int) {
    shelf.available >= q
  }

  // UPDATE ... WHERE product_id = p AND quantity_available >= q, then the reservation row.
  function Reserve(s: Product, q: int): Result<Product> {
    if q <= 0 then Err(Validation)
    else if forall i | 0 <= i < |s.shelves| :: !Hit(s.shelves[i], q) then Err(Insufficient)
    else
      Ok(Product(seq(|s.shelves|, i requires 0 <= i < |s.shelves| =>
                     if Hit(s.shelves[i], q) then Shelf(s.shelves[i].available - q, s.shelves[i].reserved + q)
                       else s.shelves[i]),
                 s.held + [q], s.sold))
  }

  // UPDATE ... WHERE product_id = p under the CHECK on quantity_reserved, for a release or a sale.
  function GiveUp(s: Product, k: nat, sells: bool): Result<Product>
    requires k < |s.held|
  {
    var q := s.held[k];
    if exists i :: 0 <= i < |s.shelves| && s.shelves[i].reserved < q then Err(Constraint)
    else
      Ok(Product(seq(|s.shelves|, i requires 0 <= i < |s.shelves| =>
                     Shelf(s.shelves[i].available + (if sells then 0 else q), s.shelves[i].reserved - q)),
                 s.held[..k] + s.held[k + 1..], s.sold + if sells then q else 0))
  }

  function Step(s: Product, op: Op): Product {
    var r := match op
      case DoReserve(q) => Reserve(s, q)
      case DoRelease(k) => if k < |s.held| then GiveUp(s, k, false) else Err(NotFound)
      case DoSell(k) => if k < |s.held| then GiveUp(s, k, true) else Err(NotFound);
    if r.Ok? then r.value else s
  }

  function Run(s: Product, ops: seq<Op>): Product {
    if |ops| == 0 then s else Step(Run(s, ops[..|ops| - 1]), ops[|ops| - 1])
  }

  // ---------- conservation over all rows ----------

  function Available(shelves: seq<Shelf>): int {
    if |shelves| == 0 then 0 else Available(shelves[..|shelves| - 1]) + shelves[|shelves| - 1].available
  }

  function Reserved(shelves: seq<Shelf>): int {
    if |shelves| == 0 then 0 else Reserved(shelves[..|shelves| - 1]) + shelves[|shelves| - 1].reserved
  }

  function Sum(qs: seq<int>): int {
    if |qs| == 0 then 0 else Sum(qs[..|qs| - 1]) + qs[|qs| - 1]
  }

  // Nothing is lost or made, and every outstanding reservation can be released and sold.
  predicate Fine(s: Product, initial: int) {
    && Reserved(s.shelves) == Sum(s.held)
    && Available(s.shelves) + Reserved(s.shelves) + s.sold == initial
    && (forall k | 0 <= k < |s.held| :: GiveUp(s, k, false).Ok? && GiveUp(s, k, true).Ok?)
  }

  predicate Fresh(s: Product) {
    && s.held == [] && s.sold == 0
    && forall i | 0 <= i < |s.shelves| :: s.shelves[i].available >= 0 && s.shelves[i].reserved == 0
  }

  predicate Empty(s: Product) {
    forall i | 0 <= i < |s.shelves| :: s.shelves[i].available == 0
  }

  lemma {:induction false} SumOfOthers(qs: seq<int>, k: nat)
    requires k < |qs| && forall i | 0 <= i < |qs| :: qs[i] > 0
    ensures Sum(qs[..k] + qs[k + 1..]) == Sum(qs) - qs[k] && Sum(qs) >= qs[k]
  {
    var front := qs[..|qs| - 1];
    if k < |front| {
      SumOfOthers(front, k);
      var rest := qs[..k] + qs[k + 1..];
      assert rest[..|rest| - 1] == front[..k] + front[k + 1..];
    } else {
      assert qs[..k] + qs[k + 1..] == front;
      SumPositive(front);
    }
  }

  lemma {:induction false} SumPositive(qs: seq<int>)
    requires forall i | 0 <= i < |qs| :: qs[i] > 0
    ensures Sum(qs) >= 0
  {
    if |qs| > 0 {
      SumPositive(qs[..|qs| - 1]);
    }
  }

  lemma {:induction false} OneShelf(shelves: seq<Shelf>)
    requires |shelves| == 1
    ensures Available(shelves) == shelves[0].available && Reserved(shelves) == shelves[0].reserved
  {
    assert shelves[..0] == [];
  }

  // ---------- one row ----------

  predicate SingleOk(s: Product, initial: int) {
    && |s.shelves| == 1 && (forall k | 0 <= k < |s.held| :: s.held[k] > 0)
    && s.shelves[0].reserved == Sum(s.held) && s.shelves[0].available + s.shelves[0].reserved + s.sold == initial
  }

  lemma {:induction false} SingleReserve(s: Product, q: int, initial: int)
    requires SingleOk(s, initial) && Reserve(s, q).Ok?
    ensures SingleOk(Reserve(s, q).value, initial)
  {
    assert (s.held + [q])[..|s.held|] == s.held;
  }

  lemma {:induction false} SingleGiveUp(s: Product, k: nat, sells: bool, initial: int)
    requires SingleOk(s, initial) && k < |s.held| && GiveUp(s, k, sells).Ok?
    ensures SingleOk(GiveUp(s, k, sells).value, initial)
  {
    SumOfOthers(s.held, k);
  }

  lemma {:induction false} SingleStep(s: Product, op: Op, initial: int)
    requires SingleOk(s, initial)
    ensures SingleOk(Step(s, op), initial)
  {
    match op
    case DoReserve(q) => if Reserve(s, q).Ok? { SingleReserve(s, q, initial); }
    case DoRelease(k) => if k < |s.held| && GiveUp(s, k, false).Ok? { SingleGiveUp(s, k, false, initial); }
    case DoSell(k) => if k < |s.held| && GiveUp(s, k, true).Ok? { SingleGiveUp(s, k, true, initial); }
  }

  lemma {:induction false} SingleRun(s: Product, ops: seq<Op>, initial: int)
    requires SingleOk(s, initial)
    ensures SingleOk(Run(s, ops), initial)
  {
    if |ops| > 0 {
      SingleRun(s, ops[..|ops| - 1], initial);
      SingleStep(Run(s, ops[..|ops| - 1]), ops[|ops| - 1], initial);
    }
  }

  lemma {:induction false} SingleFine(s: Product, initial: int)
    requires SingleOk(s, initial)
    ensures Fine(s, initial)
  {
    OneShelf(s.shelves);
    forall k | 0 <= k < |s.held| ensures s.held[k] <= s.shelves[0].reserved {
      SumOfOthers(s.held, k);
    }
  }

  // ---------- no stock ----------

  lemma {:induction false} EmptyRun(s: Product, ops: seq<Op>)
    requires Empty(s) && s.held == []
    ensures Run(s, ops) == s
  {
    if |ops| > 0 {
      EmptyRun(s, ops[..|ops| - 1]);
    }
  }

  lemma {:induction false} FreshReserved(shelves: seq<Shelf>)
    requires forall i | 0 <= i < |shelves| :: shelves[i].reserved == 0
    ensures Reserved(shelves) == 0
  {
    if |shelves| > 0 {
      FreshReserved(shelves[..|shelves| - 1]);
    }
  }

  // ---------- several rows ----------

  // How much a reservation of one piece adds to the reserved counters of the first n rows.
  function Hits(shelves: seq<Shelf>, n: nat): nat
    requires n <= |shelves|
  {
    if n == 0 then 0 else Hits(shelves, n - 1) + if Hit(shelves[n - 1], 1) then 1 else 0
  }

  lemma {:induction false} ReservedAfterOne(s: Product, n: nat)
    requires Reserve(s, 1).Ok? && n <= |s.shelves| && forall i | 0 <= i < |s.shelves| :: s.shelves[i].reserved == 0
    ensures Reserved(Reserve(s, 1).value.shelves[..n]) == Hits(s.shelves, n)
  {
    var after := Reserve(s, 1).value.shelves;
    if n > 0 {
      ReservedAfterOne(s, n - 1);
      assert after[..n][..n - 1] == after[..n - 1];
    }
  }

  lemma {:induction false} HitsOnly(shelves: seq<Shelf>, i: nat, j: nat, n: nat)
    requires i < j < |shelves| && n <= |shelves| && Hit(shelves[i], 1) && Hit(shelves[j], 1)
    ensures (i < n ==> Hits(shelves, n) >= 1) && (j < n ==> Hits(shelves, n) >= 2)
  {
    if n > 0 {
      HitsOnly(shelves, i, j, n - 1);
    }
  }

  // Reserving a single piece goes wrong: it is taken from several rows at once, or it can not be given
  // back because the update meets a row that has nothing reserved.
  lemma {:induction false} SeveralRowsBreak(s: Product, initial: int)
    requires Fresh(s) && |s.shelves| >= 2 && !Empty(s)
    ensures !Fine(Run(s, [DoReserve(1)]), initial)
  {
    assert [DoReserve(1)][..0] == [];
    assert Run(s, []) == s;
    var i :| 0 <= i < |s.shelves| && s.shelves[i].available != 0;
    assert Hit(s.shelves[i], 1);
    var t := Reserve(s, 1).value;
    assert Run(s, [DoReserve(1)]) == Step(s, DoReserve(1));
    assert t.held == [1];
    assert Sum([1]) == 1 by { assert [1][..0] == []; }
    var j := if i == 0 then 1 else 0;
    if Hit(s.shelves[j], 1) {
      ReservedAfterOne(s, |s.shelves|);
      assert t.shelves[..|t.shelves|] == t.shelves;
      HitsOnly(s.shelves, if i < j then i else j, if i < j then j else i, |s.shelves|);
    } else {
      assert t.shelves[j] == s.shelves[j] && t.shelves[j].reserved < t.held[0];
      assert GiveUp(t, 0, false).Err?;
    }
  }

  // Over every history the product's stock is conserved and its reservations can be ended, if and only if
  // it has at most one inventory row, or none of its rows has any stock.
  lemma {:induction false} ConservedIff(s: Product)
    requires Fresh(s)
    ensures (forall ops: seq<Op> :: Fine(Run(s, ops), Available(s.shelves))) <==> |s.shelves| <= 1 || Empty(s)
  {
    var initial := Available(s.shelves);
    FreshReserved(s.shelves);
    if |s.shelves| == 1 {
      OneShelf(s.shelves);
      forall ops: seq<Op> ensures Fine(Run(s, ops), initial) {
        SingleRun(s, ops, initial);
        SingleFine(Run(s, ops), initial);
      }
    } else if Empty(s) {
      forall ops: seq<Op> ensures Fine(Run(s, ops), initial) {
        EmptyRun(s, ops);
      }
    } else {
      SeveralRowsBreak(s, initial);
    }
  }

  // Two warehouses with five pieces each: reserving two takes two from both.
  lemma {:induction false} TwoWarehouses()
    ensures var r := Reserve(Product([Shelf(5, 0), Shelf(5, 0)], [], 0), 2);
            && r.Ok? && r.value.shelves == [Shelf(3, 2), Shelf(3, 2)] && r.value.held == [2]
            && Reserved(r.value.shelves) == 4 && Sum(r.value.held) == 2
  {
    var s := Product([Shelf(5, 0), Shelf(5, 0)], [], 0);
    assert Hit(s.shelves[0], 2);
    var shelves := [Shelf(3, 2), Shelf(3, 2)];
    assert Reserve(s, 2).value.shelves == shelves;
    assert shelves[..1] == [Shelf(3, 2)] && shelves[..1][..0] == [] && [2][..0] == [];
    assert Reserve(s, 2).value.held == [2];
  }

  // With one row the updates are those of the ledger's counters.
  lemma {:induction false} OneRowIsCounters(s: Product, c: Counters, q: int)
    requires s.shelves == [Shelf(c.available, c.reserved)]
    ensures Reserve(s, q).Ok? <==> 0 < q <= c.available
    ensures Reserve(s, q).Ok? ==>
              var c' := Shift(c, Reservation, q);
              Reserve(s, q).value.shelves == [Shelf(c'.available, c'.reserved)]
    ensures forall k, sells | 0 <= k < |s.held| && GiveUp(s, k, sells).Ok? ::
              var c' := Shift(c, if sells then Sale else Release, s.held[k]);
              GiveUp(s, k, sells).value.shelves == [Shelf(c'.available, c'.reserved)]
  {
    assert 0 < q <= c.available ==> Hit(s.shelves[0], q);
  }
}
