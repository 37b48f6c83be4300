/** One undisturbed relay over an outbox some of whose rows always fail to publish: what a batch
    does, and how many batches drain the rest. */
module RelayBatch {
  import opened Common

  // A row in creation order; a row that is not healthy fails every publish.
  datatype Row = Row(id: Id, healthy: bool, published: bool, attempts: nat)

  function Min(a: nat, b: nat): nat { if a <= b then a else b }

  // Unpublished healthy, and unpublished failing, rows among the first n.
  function Waiting(rows: seq<Row>, n: nat): nat
    requires n <= |rows|
  {
    if n == 0 then 0 else Waiting(rows, n - 1) + if !rows[n - 1].published && rows[n - 1].healthy then 1 else 0
  }

  function Failing(rows: seq<Row>, n: nat): nat
    requires n <= |rows|
  {
    if n == 0 then 0 else Failing(rows, n - 1) + if !rows[n - 1].published && !rows[n - 1].healthy then 1 else 0
  }

  function Pending(rows: seq<Row>, n: nat): nat
    requires n <= |rows|
  {
    Waiting(rows, n) + Failing(rows, n)
  }

  // The oldest pending rows, at most b of them.
  predicate Selected(rows: seq<Row>, b: nat, i: nat)
    requires i < |rows|
  {
    !rows[i].published && Pending(rows, i) < b
  }

  function Tried(r: Row): Row {
    if r.healthy then r.(published := true) else r.(attempts := r.attempts + 1)
  }

  // The first n rows of the table after one committed batch.
  function AfterUpTo(rows: seq<Row>, b: nat, n: nat): (r: seq<Row>)
    requires n <= |rows|
    ensures |r| == n
  {
    if n == 0 then []
    else AfterUpTo(rows, b, n - 1) + [if Selected(rows, b, n - 1) then Tried(rows[n - 1]) else rows[n - 1]]
  }

  function AfterBatch(rows: seq<Row>, b: nat): (r: seq<Row>)
    ensures |r| == |rows|
  {
    AfterUpTo(rows, b, |rows|)
  }

  function AfterBatches(rows: seq<Row>, b: nat, m: nat): (r: seq<Row>)
    ensures |r| == |rows|
  {
    if m == 0 then rows else AfterBatch(AfterBatches(rows, b, m - 1), b)
  }

  // ---------- draining ----------

  // How many healthy rows among the first n a batch takes.
  function Taken(rows: seq<Row>, b: nat, n: nat): nat
    requires n <= |rows|
  {
    if n == 0 then 0 else Taken(rows, b, n - 1) + if Selected(rows, b, n - 1) && rows[n - 1].healthy then 1 else 0
  }

  lemma {:induction false} UpToAt(rows: seq<Row>, b: nat, n: nat, i: nat)
    requires i < n <= |rows|
    ensures AfterUpTo(rows, b, n)[i] == if Selected(rows, b, i) then Tried(rows[i]) else rows[i]
  {
    if i < n - 1 {
      UpToAt(rows, b, n - 1, i);
    }
  }

  // A selected row is published, or has one failed attempt more; every other row is as it was.
  lemma {:induction false} BatchAt(rows: seq<Row>, b: nat, i: nat)
    requires i < |rows|
    ensures AfterBatch(rows, b)[i] == if Selected(rows, b, i) then Tried(rows[i]) else rows[i]
    ensures AfterBatch(rows, b)[i] ==
            if !Selected(rows, b, i) then rows[i]
            else if rows[i].healthy then rows[i].(published := true)
            else rows[i].(attempts := rows[i].attempts + 1)
  {
    UpToAt(rows, b, |rows|, i);
  }

  lemma {:induction false} BatchTakes(rows: seq<Row>, after: seq<Row>, b: nat, n: nat)
    requires n <= |rows| && after == AfterBatch(rows, b)
    ensures Failing(after, n) == Failing(rows, n) && Waiting(after, n) + Taken(rows, b, n) == Waiting(rows, n)
  {
    if n > 0 {
      BatchTakes(rows, after, b, n - 1);
      BatchAt(rows, b, n - 1);
    }
  }

  // It takes every healthy row whose turn has come.
  lemma {:induction false} TakesInTurn(rows: seq<Row>, b: nat, n: nat)
    requires n <= |rows|
    ensures Pending(rows, n) <= b ==> Taken(rows, b, n) == Waiting(rows, n)
    ensures Pending(rows, n) > b ==> Taken(rows, b, n) + Failing(rows, n) >= b
  {
    if n > 0 {
      TakesInTurn(rows, b, n - 1);
    }
  }

  // A batch leaves the failing rows failing and publishes every healthy row whose turn has come.
  lemma {:induction false} BatchCounts(rows: seq<Row>, b: nat, n: nat)
    requires n <= |rows|
    ensures Failing(AfterBatch(rows, b), n) == Failing(rows, n)
    ensures Waiting(AfterBatch(rows, b), n) <= Waiting(rows, n)
    ensures Pending(rows, n) <= b ==> Waiting(AfterBatch(rows, b), n) == 0
    ensures Pending(rows, n) > b ==> Waiting(rows, n) - Waiting(AfterBatch(rows, b), n) >= b - Failing(rows, n)
  {
    BatchTakes(rows, AfterBatch(rows, b), b, n);
    TakesInTurn(rows, b, n);
  }

  // With k < b failing rows among the first n, every batch publishes b - k of the healthy rows there,
  // or all that are left.
  lemma {:induction false} BatchesCount(rows: seq<Row>, b: nat, m: nat, n: nat)
    requires n <= |rows| && Failing(rows, n) < b
    ensures var k, left := Failing(rows, n), AfterBatches(rows, b, m);
            && Failing(left, n) == k
            && (Waiting(left, n) == 0 || Waiting(left, n) + m * (b - k) <= Waiting(rows, n))
  {
    if m > 0 {
      BatchesCount(rows, b, m - 1, n);
      BatchCounts(AfterBatches(rows, b, m - 1), b, n);
      var step := b - Failing(rows, n);
      assert m * step == (m - 1) * step + step;
    }
  }

  // How many batches the healthy rows among the first n take.
  function Batches(rows: seq<Row>, b: nat, n: nat): nat
    requires n <= |rows| && Failing(rows, n) < b
  {
    (Waiting(rows, n) + b - Failing(rows, n) - 1) / (b - Failing(rows, n))
  }

  lemma {:induction false} PrefixDrains(rows: seq<Row>, b: nat, n: nat)
    requires n <= |rows| && Failing(rows, n) < b
    ensures Waiting(AfterBatches(rows, b, Batches(rows, b, n)), n) == 0
  {
    BatchesCount(rows, b, Batches(rows, b, n), n);
    RoundedUp(Waiting(rows, n), b - Failing(rows, n));
  }

  lemma {:induction false} RoundedUp(n: nat, step: nat)
    requires step > 0
    ensures (n + step - 1) / step * step >= n
  {
    var q, r := (n + step - 1) / step, (n + step - 1) % step;
    assert n + step - 1 == q * step + r;
  }

  lemma {:induction false} WaitingGrows(rows: seq<Row>, i: nat, n: nat)
    requires i <= n <= |rows|
    ensures Waiting(rows, i) <= Waiting(rows, n) && Failing(rows, i) <= Failing(rows, n)
    decreases n - i
  {
    if i < n {
      WaitingGrows(rows, i, n - 1);
    }
  }

  // Healthy and not yet published.
  predicate Waits(rows: seq<Row>, i: nat) {
    i < |rows| && !rows[i].published && rows[i].healthy
  }

  // With b failing rows ahead of it a row's turn never comes.
  lemma {:induction false} NeverSelected(rows: seq<Row>, b: nat, i: nat, m: nat)
    requires i < |rows| && Failing(rows, i) >= b
    ensures AfterBatches(rows, b, m)[i] == rows[i] && Failing(AfterBatches(rows, b, m), i) >= b
  {
    if m > 0 {
      NeverSelected(rows, b, i, m - 1);
      var before := AfterBatches(rows, b, m - 1);
      BatchCounts(before, b, i);
      BatchAt(before, b, i);
    }
  }

  lemma {:induction false} HealthLasts(rows: seq<Row>, b: nat, i: nat, m: nat)
    requires i < |rows|
    ensures AfterBatches(rows, b, m)[i].healthy == rows[i].healthy
  {
    if m > 0 {
      HealthLasts(rows, b, i, m - 1);
      BatchAt(AfterBatches(rows, b, m - 1), b, i);
    }
  }

  // A waiting row is published some day if and only if fewer than b failing rows stand ahead of it, and
  // then within the batches the healthy rows up to it take.
  lemma {:induction false} PublishedIff(rows: seq<Row>, b: nat, i: nat)
    requires Waits(rows, i)
    ensures (exists m :: AfterBatches(rows, b, m)[i].published) <==> Failing(rows, i) < b
    ensures Failing(rows, i + 1) == Failing(rows, i)
    ensures Failing(rows, i) < b ==> AfterBatches(rows, b, Batches(rows, b, i + 1))[i].published
  {
    assert Failing(rows, i + 1) == Failing(rows, i);
    if Failing(rows, i) < b {
      var m := Batches(rows, b, i + 1);
      PrefixDrains(rows, b, i + 1);
      HealthLasts(rows, b, i, m);
      assert AfterBatches(rows, b, m)[i].published;
    } else {
      forall m ensures !AfterBatches(rows, b, m)[i].published {
        NeverSelected(rows, b, i, m);
      }
    }
  }

  // Up to and with the last waiting row among the first n.
  function Last(rows: seq<Row>, n: nat): (r: nat)
    requires n <= |rows|
    ensures r <= n && Waiting(rows, r) == Waiting(rows, n)
    ensures r > 0 ==> Waits(rows, r - 1)
    ensures forall i | r <= i < n :: !Waits(rows, i)
  {
    if n == 0 then 0 else if Waits(rows, n - 1) then n else Last(rows, n - 1)
  }

  lemma {:induction false} TakenGrows(rows: seq<Row>, b: nat, c: nat, n: nat)
    requires c <= n <= |rows|
    ensures Taken(rows, b, c) <= Taken(rows, b, n)
    decreases n - c
  {
    if c < n {
      TakenGrows(rows, b, c, n - 1);
    }
  }

  // No row starts waiting.
  lemma {:induction false} NoneBehind(rows: seq<Row>, b: nat, c: nat, m: nat)
    requires c <= |rows| && Waiting(rows, c) == Waiting(rows, |rows|)
    ensures Waiting(AfterBatches(rows, b, m), c) == Waiting(AfterBatches(rows, b, m), |rows|)
  {
    if m > 0 {
      NoneBehind(rows, b, c, m - 1);
      var before := AfterBatches(rows, b, m - 1);
      var after := AfterBatch(before, b);
      BatchTakes(before, after, b, c);
      BatchTakes(before, after, b, |before|);
      TakenGrows(before, b, c, |before|);
      WaitingGrows(after, c, |after|);
    }
  }

  // With k < b failing rows ahead of the last healthy one, n healthy rows are drained by the
  // n / (b - k)-th batch, rounded up, however many fail behind it.
  lemma {:induction false} DrainBound(rows: seq<Row>, b: nat)
    requires Failing(rows, Last(rows, |rows|)) < b
    ensures Waiting(AfterBatches(rows, b, Batches(rows, b, Last(rows, |rows|))), |rows|) == 0
  {
    var c := Last(rows, |rows|);
    PrefixDrains(rows, b, c);
    NoneBehind(rows, b, c, Batches(rows, b, c));
  }

  // A backlog drains if and only if nothing waits or fewer than b failing rows stand ahead of the last
  // waiting row.
  lemma {:induction false} DrainsIff(rows: seq<Row>, b: nat)
    ensures (exists m :: Waiting(AfterBatches(rows, b, m), |rows|) == 0) <==>
            Last(rows, |rows|) == 0 || Failing(rows, Last(rows, |rows|)) < b
  {
    var c := Last(rows, |rows|);
    if c == 0 {
      assert Waiting(AfterBatches(rows, b, 0), |rows|) == 0;
    } else if Failing(rows, c) < b {
      DrainBound(rows, b);
    } else {
      forall m ensures Waiting(AfterBatches(rows, b, m), |rows|) > 0 {
        NeverSelected(rows, b, c - 1, m);
        WaitingGrows(AfterBatches(rows, b, m), c, |rows|);
      }
    }
  }

  // Once the b oldest pending rows all fail, no healthy row is ever published again.
  predicate Blocked(rows: seq<Row>, b: nat, c: nat) {
    c <= |rows| && Waiting(rows, c) == 0 && Failing(rows, c) >= b
  }

  lemma {:induction false} BlockedForGood(rows: seq<Row>, b: nat, c: nat, m: nat, i: nat)
    requires Blocked(rows, b, c) && Waits(rows, i)
    ensures Waits(AfterBatches(rows, b, m), i)
  {
    if i < c {
      WaitingGrows(rows, i + 1, c);
    } else {
      WaitingGrows(rows, c, i);
    }
    NeverSelected(rows, b, i, m);
  }

  // ---------- the relay ----------

  // The selected rows among the first n, oldest first.
  function BatchOf(rows: seq<Row>, b: nat, n: nat): (r: seq<nat>)
    requires n <= |rows|
    ensures forall i | 0 <= i < |r| :: r[i] < n
  {
    if n == 0 then [] else BatchOf(rows, b, n - 1) + if Selected(rows, b, n - 1) then [n - 1] else []
  }

  // What publishing the first m rows of a batch puts on the topics.
  function Sends(rows: seq<Row>, batch: seq<nat>, m: nat): seq<Id>
    requires m <= |batch| && forall i | 0 <= i < |batch| :: batch[i] < |rows|
  {
    if m == 0 then [] else Sends(rows, batch, m - 1) + if rows[batch[m - 1]].healthy then [rows[batch[m - 1]].id]
      else []
  }

  lemma {:induction false} SendsNext(rows: seq<Row>, batch: seq<nat>, m: nat)
    requires m < |batch| && forall i | 0 <= i < |batch| :: batch[i] < |rows|
    ensures Sends(rows, batch, m + 1) ==
            Sends(rows, batch, m) + if rows[batch[m]].healthy then [rows[batch[m]].id] else []
  {
  }

  // The ids of the rows a table shows as published and another did not, in order.
  function NewlyPublished(rows: seq<Row>, after: seq<Row>, n: nat): seq<Id>
    requires n <= |rows| && |after| == |rows|
  {
    if n == 0 then []
    else
      NewlyPublished(rows, after, n - 1) +
      if after[n - 1].published && !rows[n - 1].published then [rows[n - 1].id] else []
  }

  lemma {:induction false} SendsFront(rows: seq<Row>, batch: seq<nat>, last: nat, m: nat)
    requires m <= |batch| && last < |rows| && forall i | 0 <= i < |batch| :: batch[i] < |rows|
    ensures Sends(rows, batch + [last], m) == Sends(rows, batch, m)
  {
    if m > 0 {
      SendsFront(rows, batch, last, m - 1);
    }
  }

  // A batch puts one message on the topics for each row it publishes, in order, and nothing else.
  lemma {:induction false} SendsExact(rows: seq<Row>, b: nat, n: nat)
    requires n <= |rows|
    ensures var batch := BatchOf(rows, b, n);
            && (forall i | 0 <= i < |batch| :: batch[i] < |rows|)
            && Sends(rows, batch, |batch|) == NewlyPublished(rows, AfterBatch(rows, b), n)
  {
    BatchMembers(rows, b, n);
    if n > 0 {
      SendsExact(rows, b, n - 1);
      BatchMembers(rows, b, n - 1);
      BatchAt(rows, b, n - 1);
      var front := BatchOf(rows, b, n - 1);
      if Selected(rows, b, n - 1) {
        SendsFront(rows, front, n - 1, |front|);
      } else {
        assert BatchOf(rows, b, n) == front;
      }
    }
  }

  lemma {:induction false} BatchMembers(rows: seq<Row>, b: nat, n: nat)
    requires n <= |rows|
    ensures forall j: nat :: j in BatchOf(rows, b, n) <==> j < n && Selected(rows, b, j)
    ensures forall i, j | 0 <= i < j < |BatchOf(rows, b, n)| :: BatchOf(rows, b, n)[i] < BatchOf(rows, b, n)[j]
    ensures |BatchOf(rows, b, n)| == Min(b, Pending(rows, n))
  {
    if n > 0 {
      BatchMembers(rows, b, n - 1);
    }
  }

  // Row j is among the first m of a batch.
  predicate TriedYet(batch: seq<nat>, m: nat, j: nat)
    requires m <= |batch|
  {
    j in batch[..m]
  }

  // The first m rows of a batch were tried, and no other.
  predicate Partly(before: seq<Row>, now: seq<Row>, batch: seq<nat>, m: nat)
    requires m <= |batch|
  {
    |now| == |before| && forall j | 0 <= j < |now| :: now[j] == if TriedYet(batch, m, j) then Tried(before[j])
        else before[j]
  }

  lemma {:induction false} TriedNext(batch: seq<nat>, m: nat, j: nat)
    requires m < |batch| && forall k, l | 0 <= k < l < |batch| :: batch[k] < batch[l]
    ensures !TriedYet(batch, m, batch[m])
    ensures TriedYet(batch, m + 1, j) <==> TriedYet(batch, m, j) || j == batch[m]
  {
    assert batch[..m + 1] == batch[..m] + [batch[m]];
  }

  lemma {:induction false} PartlyNext(before: seq<Row>, now: seq<Row>, b: nat, m: nat)
    requires m < |BatchOf(before, b, |before|)| && Partly(before, now, BatchOf(before, b, |before|), m)
    ensures var batch := BatchOf(before, b, |before|);
            && now[batch[m]] == before[batch[m]]
            && Partly(before, now[batch[m] := Tried(before[batch[m]])], batch, m + 1)
  {
    var batch := BatchOf(before, b, |before|);
    BatchMembers(before, b, |before|);
    TriedNext(batch, m, batch[m]);
    forall j | 0 <= j < |now| ensures TriedYet(batch, m + 1, j) <==> TriedYet(batch, m, j) || j == batch[m] {
      TriedNext(batch, m, j);
    }
  }

  lemma {:induction false} RowNext(before: seq<Row>, now: seq<Row>, b: nat, m: nat)
    requires m < |BatchOf(before, b, |before|)| && Partly(before, now, BatchOf(before, b, |before|), m)
    ensures var batch := BatchOf(before, b, |before|);
            && now[batch[m]] == before[batch[m]]
            && Partly(before, now[batch[m] := Tried(now[batch[m]])], batch, m + 1)
            && Sends(before, batch, m + 1) ==
               Sends(before, batch, m) + if now[batch[m]].healthy then [now[batch[m]].id] else []
  {
    PartlyNext(before, now, b, m);
    SendsNext(before, BatchOf(before, b, |before|), m);
  }

  lemma {:induction false} TriedAll(rows: seq<Row>, b: nat, j: nat)
    requires j < |rows|
    ensures var batch := BatchOf(rows, b, |rows|);
            TriedYet(batch, |batch|, j) <==> Selected(rows, b, j)
  {
    BatchMembers(rows, b, |rows|);
    var batch := BatchOf(rows, b, |rows|);
    assert batch[..|batch|] == batch;
  }

  lemma {:induction false} PartlyAll(before: seq<Row>, now: seq<Row>, b: nat)
    requires Partly(before, now, BatchOf(before, b, |before|), |BatchOf(before, b, |before|)|)
    ensures now == AfterBatch(before, b)
  {
    forall j: nat | j < |before| ensures now[j] == AfterBatch(before, b)[j] {
      TriedAll(before, b, j);
      BatchAt(before, b, j);
    }
  }

  class Relay {
    var rows: seq<Row>
    var log: seq<Id>
    const batchSize: nat

    constructor (batchSize: nat)
      ensures this.batchSize == batchSize && rows == [] && log == []
    {
      this.batchSize := batchSize;
      rows, log := [], [];
    }

    method SelectPending() returns (batch: seq<nat>)
      ensures batch == BatchOf(rows, batchSize, |rows|)
    {
      batch := [];
      for i := 0 to |rows|
        invariant batch == BatchOf(rows, batchSize, i)
      {
        BatchMembers(rows, batchSize, i);
        if |batch| < batchSize && !rows[i].published {
          batch := batch + [i];
        }
      }
    }

    // Publishes one row and marks it, or records the failure, without ending the batch.
    method PublishRow(i: nat)
      requires i < |rows|
      modifies this`rows, this`log
      ensures rows == old(rows)[i := Tried(old(rows)[i])]
      ensures log == old(log) + if old(rows)[i].healthy then [old(rows)[i].id] else []
    {
      var row := rows[i];
      if !row.healthy {
        rows := rows[i := row.(attempts := row.attempts + 1)];
        return;
      }
      log := log + [row.id];
      rows := rows[i := row.(published := true)];
    }

    // One batch of a relay nothing interrupts: every selected row tried once, and nothing else.
    method RelayBatch()
      modifies this`rows, this`log
      ensures rows == AfterBatch(old(rows), batchSize)
      ensures |rows| == |old(rows)| && log == old(log) + NewlyPublished(old(rows), rows, |rows|)
    {
      ghost var before, sent := rows, log;
      var batch := SelectPending();
      for m := 0 to |batch|
        invariant Partly(before, rows, batch, m)
        invariant log == sent + Sends(before, batch, m)
      {
        RowNext(before, rows, batchSize, m);
        PublishRow(batch[m]);
      }
      PartlyAll(before, rows, batchSize);
      SendsExact(before, batchSize, |before|);
    }
  }
}
