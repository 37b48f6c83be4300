/** Overlapping deliveries of one order's charge: the lookup, the gateway call and the Save of each are
    separate steps, so two deliveries may both find no payment. */
module Charging {
  import opened Common
  import opened Payment
  import opened EventStore
  import opened PaymentService

  datatype Request = Request(order: Id, customer: Id, amount: int, currency: string)

  // Where a delivery is that found no payment; it is known by the id its new payment would get.
  datatype Stage = LookedUp | Called

  // The streams, the deliveries at work and the ids ever drawn, and a history: lookups that found no
  // payment, gateway calls, deliveries that crashed before theirs, and Saves that landed.
  datatype World = World(
    streams: Streams, open: map<Id, Stage>, used: set<Id>, blind: nat, calls: nat, crashed: nat, landed: nat)

  datatype Step = Lookup(id: Id) | CallGateway(id: Id) | SavePayment(id: Id, call: Call) | Crash(id: Id)

  predicate Chargeable(r: Request) {
    Initiate(NIL, r.order, r.customer, r.amount, r.currency).Ok?
  }

  function NewStream(r: Request, id: Id): seq<Event> {
    [PaymentInitiated(id, r.order, r.customer, r.amount, r.currency), Settlement(id, r.amount, false)]
  }

  // A lookup that finds no payment, with a fresh id drawn for the new one.
  predicate Blind(w: World, r: Request, id: Id) {
    !HasPayment(w.streams, r.order) && id !in w.used
  }

  function Next(w: World, r: Request, step: Step): World {
    match step
    case Lookup(id) => if Blind(w, r, id)
      then w.(open := w.open[id := LookedUp], used := w.used + {id}, blind := w.blind + 1)
      else w
    case CallGateway(id) =>
      if id in w.open && w.open[id] == LookedUp then w.(open := w.open[id := Called], calls := w.calls + 1) else w
    case SavePayment(id, call) =>
      if id !in w.open || w.open[id] != Called then w
      else
        var w1 := w.(open := w.open - {id});
        if call == Lost then w1
        else w1.(streams := w.streams[id := NewStream(r, id)], landed := w.landed + 1)
    case Crash(id) =>
      if id !in w.open then w
      else w.(open := w.open - {id}, crashed := w.crashed + if w.open[id] == LookedUp then 1 else 0)
  }

  function Run(w: World, r: Request, steps: seq<Step>): World {
    if |steps| == 0 then w else Next(Run(w, r, steps[..|steps| - 1]), r, steps[|steps| - 1])
  }

  predicate Start(w: World, r: Request) {
    !HasPayment(w.streams, r.order) && OnePerOrder(w.streams) && Chargeable(r)
    && w == World(w.streams, map[], w.streams.Keys, 0, 0, 0, 0)
  }

  // ---------- the account ----------

  function Waiting(open: map<Id, Stage>): set<Id> {
    set id | id in open && open[id] == LookedUp
  }

  function Payments(streams: Streams, o: Id): set<Id> {
    set id | id in streams && BelongsTo(streams[id], o)
  }

  predicate Others(streams: Streams, o: Id) {
    forall a, b | a in streams && b in streams && a != b ::
      |streams[a]| > 0 && streams[a][0].PaymentInitiated? && streams[a][0].order != o ==>
        !BelongsTo(streams[b], streams[a][0].order)
  }

  predicate Account(w: World, r: Request) {
    && w.calls + w.crashed + |Waiting(w.open)| == w.blind
    && |Payments(w.streams, r.order)| == w.landed
    && Others(w.streams, r.order)
    && (forall id | id in w.open :: id !in w.streams && id in w.used)
    && w.streams.Keys <= w.used
  }

  lemma {:induction false} WaitingChanges(open: map<Id, Stage>, id: Id)
    ensures Waiting(open - {id}) == Waiting(open) - {id}
    ensures Waiting(open[id := LookedUp]) == Waiting(open) + {id}
    ensures Waiting(open[id := Called]) == Waiting(open) - {id}
  {
  }

  lemma {:induction false} SaveCounts(w: World, r: Request, id: Id)
    requires Account(w, r) && id in w.open
    ensures Payments(w.streams[id := NewStream(r, id)], r.order) == Payments(w.streams, r.order) + {id}
    ensures id !in Payments(w.streams, r.order) && Others(w.streams[id := NewStream(r, id)], r.order)
  {
    var streams' := w.streams[id := NewStream(r, id)];
    assert BelongsTo(streams'[id], r.order);
  }

  lemma {:induction false} OpenKeeps(w: World, r: Request, step: Step)
    requires Account(w, r) && !step.SavePayment?
    ensures Account(Next(w, r, step), r)
  {
    WaitingChanges(w.open, step.id);
  }

  lemma {:induction false} SaveKeeps(w: World, r: Request, id: Id, call: Call)
    requires Account(w, r)
    ensures Account(Next(w, r, SavePayment(id, call)), r)
  {
    WaitingChanges(w.open, id);
    if id in w.open {
      SaveCounts(w, r, id);
    }
  }

  lemma {:induction false} StepKeeps(w: World, r: Request, step: Step)
    requires Account(w, r)
    ensures Account(Next(w, r, step), r)
  {
    if step.SavePayment? {
      SaveKeeps(w, r, step.id, step.call);
    } else {
      OpenKeeps(w, r, step);
    }
  }

  lemma {:induction false} Reachable(w: World, r: Request, steps: seq<Step>)
    requires Start(w, r)
    ensures Account(Run(w, r, steps), r)
  {
    if |steps| == 0 {
      assert Waiting(w.open) == {} && Payments(w.streams, r.order) == {};
    } else {
      Reachable(w, r, steps[..|steps| - 1]);
      StepKeeps(Run(w, r, steps[..|steps| - 1]), r, steps[|steps| - 1]);
    }
  }

  // ---------- schedules ----------

  // What a step may do that counts: look up and find no payment, call the gateway, save a payment.
  datatype Mark = Looks | Calls | Lands

  predicate Does(w: World, r: Request, step: Step, mark: Mark) {
    match mark
    case Looks => step.Lookup? && Blind(w, r, step.id)
    case Calls => step.CallGateway? && step.id in w.open && w.open[step.id] == LookedUp
    case Lands => step.SavePayment? && step.call != Lost && step.id in w.open && w.open[step.id] == Called
  }

  // Step i of a run does.
  predicate DoesAt(w: World, r: Request, steps: seq<Step>, i: nat, mark: Mark) {
    i < |steps| && Does(Run(w, r, steps[..i]), r, steps[i], mark)
  }

  function Count(w: World, mark: Mark): nat {
    match mark case Looks => w.blind case Calls => w.calls case Lands => w.landed
  }

  ghost predicate Twice(w: World, r: Request, steps: seq<Step>, mark: Mark) {
    exists i: nat, j: nat :: i < j && DoesAt(w, r, steps, i, mark) && DoesAt(w, r, steps, j, mark)
  }

  lemma {:induction false} FrontDoes(w: World, r: Request, steps: seq<Step>, i: nat, mark: Mark)
    requires i + 1 < |steps|
    ensures DoesAt(w, r, steps, i, mark) <==> DoesAt(w, r, steps[..|steps| - 1], i, mark)
  {
    assert steps[..|steps| - 1][..i] == steps[..i];
  }

  lemma {:induction false} CountStep(w: World, r: Request, step: Step, mark: Mark)
    ensures Count(Next(w, r, step), mark) == Count(w, mark) + if Does(w, r, step, mark) then 1 else 0
  {
  }

  // Step i of a run does, before the last step or as it.
  lemma {:induction false} DoesSplit(w: World, r: Request, steps: seq<Step>, mark: Mark)
    requires |steps| > 0
    ensures var front, n := steps[..|steps| - 1], |steps| - 1;
            && (forall i: nat :: DoesAt(w, r, steps, i, mark) <==>
                  DoesAt(w, r, front, i, mark) || (i == n && DoesAt(w, r, steps, n, mark)))
            && Count(Run(w, r, steps), mark) ==
               Count(Run(w, r, front), mark) + if DoesAt(w, r, steps, n, mark) then 1 else 0
  {
    var front, n := steps[..|steps| - 1], |steps| - 1;
    forall i: nat ensures DoesAt(w, r, steps, i, mark) <==>
                          DoesAt(w, r, front, i, mark) || (i == n && DoesAt(w, r, steps, n, mark))
    {
      if i < n { FrontDoes(w, r, steps, i, mark); }
    }
    CountStep(Run(w, r, front), r, steps[n], mark);
  }

  lemma {:induction false} OnceIff(w: World, r: Request, steps: seq<Step>, mark: Mark)
    requires Count(w, mark) == 0
    ensures Count(Run(w, r, steps), mark) >= 1 <==> exists i: nat :: DoesAt(w, r, steps, i, mark)
  {
    if |steps| > 0 {
      OnceIff(w, r, steps[..|steps| - 1], mark);
      DoesSplit(w, r, steps, mark);
    }
  }

  lemma {:induction false} TwiceIff(w: World, r: Request, steps: seq<Step>, mark: Mark)
    requires Count(w, mark) == 0
    ensures Count(Run(w, r, steps), mark) >= 2 <==> Twice(w, r, steps, mark)
  {
    if |steps| > 0 {
      var front, n := steps[..|steps| - 1], |steps| - 1;
      TwiceIff(w, r, front, mark);
      OnceIff(w, r, front, mark);
      DoesSplit(w, r, steps, mark);
      if DoesAt(w, r, steps, n, mark) && exists i: nat :: DoesAt(w, r, front, i, mark) {
        var i: nat :| DoesAt(w, r, front, i, mark);
        assert i < n && DoesAt(w, r, steps, i, mark);
      }
    }
  }

  // A delivery at work has looked up before.
  lemma {:induction false} OpenLooked(w: World, r: Request, steps: seq<Step>, id: Id)
    requires Start(w, r) && id in Run(w, r, steps).open
    ensures exists i: nat :: DoesAt(w, r, steps, i, Looks) && steps[i].id == id
  {
    var front, n := steps[..|steps| - 1], |steps| - 1;
    if id in Run(w, r, front).open {
      OpenLooked(w, r, front, id);
      var i: nat :| DoesAt(w, r, front, i, Looks) && front[i].id == id;
      FrontDoes(w, r, steps, i, Looks);
      assert DoesAt(w, r, steps, i, Looks) && steps[i].id == id;
    } else {
      assert DoesAt(w, r, steps, n, Looks) && steps[n].id == id;
    }
  }

  // The lookup of a delivery that makes its call, or saves its payment, at step k.
  predicate LookedFor(w: World, r: Request, steps: seq<Step>, i: nat, k: nat) {
    i < k < |steps| && DoesAt(w, r, steps, i, Looks) && steps[i].id == steps[k].id
  }

  lemma {:induction false} DoerLooked(w: World, r: Request, steps: seq<Step>, k: nat, mark: Mark)
    requires Start(w, r) && DoesAt(w, r, steps, k, mark) && mark != Looks
    ensures exists i: nat :: LookedFor(w, r, steps, i, k)
  {
    OpenLooked(w, r, steps[..k], steps[k].id);
    var i: nat :| DoesAt(w, r, steps[..k], i, Looks) && steps[..k][i].id == steps[k].id;
    assert steps[..k][..i] == steps[..i];
    assert LookedFor(w, r, steps, i, k);
  }

  // A delivery that did it, and never does it again.
  predicate Past(w: World, id: Id, mark: Mark) {
    && id in w.used && mark != Looks
    && (id in w.open ==> mark == Calls && w.open[id] == Called)
  }

  lemma {:induction false} PastLasts(w: World, r: Request, steps: seq<Step>, k: nat, mark: Mark)
    requires Start(w, r) && DoesAt(w, r, steps, k, mark) && mark != Looks
    ensures Past(Run(w, r, steps), steps[k].id, mark)
    decreases |steps|
  {
    var front := steps[..|steps| - 1];
    if k < |front| {
      FrontDoes(w, r, steps, k, mark);
      PastLasts(w, r, front, k, mark);
    } else {
      assert front == steps[..k];
      Reachable(w, r, front);
    }
  }

  lemma {:induction false} OnceEach(w: World, r: Request, steps: seq<Step>, k: nat, l: nat, mark: Mark)
    requires Start(w, r) && k < l && DoesAt(w, r, steps, k, mark) && DoesAt(w, r, steps, l, mark) && mark != Looks
    ensures steps[k].id != steps[l].id
  {
    assert steps[..l][..k] == steps[..k];
    PastLasts(w, r, steps[..l], k, mark);
  }

  // Before any Save has landed.
  ghost predicate Early(w: World, r: Request, steps: seq<Step>, i: nat) {
    forall k: nat | k < i :: !DoesAt(w, r, steps, k, Lands)
  }

  lemma {:induction false} EarlyIff(w: World, r: Request, steps: seq<Step>, i: nat)
    requires Start(w, r) && i <= |steps|
    ensures Early(w, r, steps, i) <==> !HasPayment(Run(w, r, steps[..i]).streams, r.order)
  {
    var t := Run(w, r, steps[..i]);
    Reachable(w, r, steps[..i]);
    OnceIff(w, r, steps[..i], Lands);
    forall k: nat ensures DoesAt(w, r, steps[..i], k, Lands) <==> k < i && DoesAt(w, r, steps, k, Lands) {
      if k < i { assert steps[..i][..k] == steps[..k]; }
    }
    if id :| id in t.streams && BelongsTo(t.streams[id], r.order) {
      assert id in Payments(t.streams, r.order);
    } else {
      assert Payments(t.streams, r.order) == {};
    }
  }

  // ---------- how often the gateway is called ----------

  // However deliveries of one order overlap, the gateway is called once for each lookup that found no
  // payment, except for those still to come and those that crashed first.
  lemma {:induction false} CallsExact(w: World, r: Request, steps: seq<Step>)
    requires Start(w, r)
    ensures var t := Run(w, r, steps);
            t.calls == t.blind - t.crashed - |Waiting(t.open)|
  {
    Reachable(w, r, steps);
  }

  // A lookup finds no payment exactly while no Save has landed, provided its id is new.
  lemma {:induction false} LooksIff(w: World, r: Request, steps: seq<Step>, i: nat)
    requires Start(w, r) && i < |steps| && steps[i].Lookup?
    ensures DoesAt(w, r, steps, i, Looks) <==> Early(w, r, steps, i) && steps[i].id !in Run(w, r, steps[..i]).used
  {
    EarlyIff(w, r, steps, i);
  }

  // Two lookups, both before any Save landed, of deliveries that go on to do the same thing.
  ghost predicate Overlap(w: World, r: Request, steps: seq<Step>, mark: Mark) {
    exists i: nat, j: nat, k: nat, l: nat ::
      && OverlapAt(w, r, steps, i, j, k, l) && DoesAt(w, r, steps, k, mark) && DoesAt(w, r, steps, l, mark)
  }

  ghost predicate OverlapAt(w: World, r: Request, steps: seq<Step>, i: nat, j: nat, k: nat, l: nat) {
    && i != j && k < l && LookedFor(w, r, steps, i, k) && LookedFor(w, r, steps, j, l)
    && Early(w, r, steps, i) && Early(w, r, steps, j)
  }

  lemma {:induction false} TwiceIsOverlap(w: World, r: Request, steps: seq<Step>, mark: Mark)
    requires Start(w, r) && mark != Looks
    ensures Twice(w, r, steps, mark) <==> Overlap(w, r, steps, mark)
  {
    if k: nat, l: nat :| k < l && DoesAt(w, r, steps, k, mark) && DoesAt(w, r, steps, l, mark) {
      DoerLooked(w, r, steps, k, mark);
      DoerLooked(w, r, steps, l, mark);
      var i: nat :| LookedFor(w, r, steps, i, k);
      var j: nat :| LookedFor(w, r, steps, j, l);
      LooksIff(w, r, steps, i);
      LooksIff(w, r, steps, j);
      OnceEach(w, r, steps, k, l, mark);
      assert OverlapAt(w, r, steps, i, j, k, l);
    }
  }

  // The gateway is called twice if and only if two deliveries looked up before any Save had landed and
  // both reached their call.
  lemma {:induction false} CalledTwiceIff(w: World, r: Request, steps: seq<Step>)
    requires Start(w, r)
    ensures Run(w, r, steps).calls >= 2 <==> Overlap(w, r, steps, Calls)
  {
    TwiceIff(w, r, steps, Calls);
    TwiceIsOverlap(w, r, steps, Calls);
  }

  // The order gets a second payment if and only if two deliveries looked up before any Save had landed
  // and both their Saves land: calls for one order must be serialised from lookup to Save.
  lemma {:induction false} OnePaymentIff(w: World, r: Request, steps: seq<Step>)
    requires Start(w, r)
    ensures OnePerOrder(Run(w, r, steps).streams) <==> !Overlap(w, r, steps, Lands)
  {
    TwiceIff(w, r, steps, Lands);
    TwiceIsOverlap(w, r, steps, Lands);
    OnePaymentCount(w, r, steps);
  }

  lemma {:induction false} OnePaymentCount(w: World, r: Request, steps: seq<Step>)
    requires Start(w, r)
    ensures OnePerOrder(Run(w, r, steps).streams) <==> Run(w, r, steps).landed <= 1
  {
    Reachable(w, r, steps);
    var t := Run(w, r, steps);
    var ids := Payments(t.streams, r.order);
    if t.landed <= 1 {
      forall a, b | a in t.streams && b in t.streams && a != b
          && |t.streams[a]| > 0 && t.streams[a][0].PaymentInitiated?
        ensures !BelongsTo(t.streams[b], t.streams[a][0].order)
      {
        if t.streams[a][0].order == r.order && BelongsTo(t.streams[b], r.order) {
          Pair(ids, a, b);
        }
      }
    } else {
      var a :| a in ids;
      assert |ids - {a}| >= 1;
      var b :| b in ids - {a};
      assert BelongsTo(t.streams[b], t.streams[a][0].order);
    }
  }

  lemma {:induction false} Pair(ids: set<Id>, a: Id, b: Id)
    requires a in ids && b in ids && a != b
    ensures |ids| >= 2
  {
    assert ids == (ids - {a} - {b}) + {a} + {b};
  }

  // Two deliveries look up before either saves: both charge, both Saves land.
  lemma {:induction false} OverlapChargesTwice(w: World, r: Request, a: Id, b: Id)
    requires Start(w, r) && a != b && a !in w.used && b !in w.used
    ensures var t := Next(Next(w, r, Lookup(a)), r, Lookup(b));
            var u := Next(Next(t, r, CallGateway(a)), r, CallGateway(b));
            var v := Next(Next(u, r, SavePayment(a, Answered)), r, SavePayment(b, Answered));
            v.calls == 2 && v.landed == 2 && a in Payments(v.streams, r.order) && b in Payments(v.streams, r.order)
  {
  }

  // ---------- serialised deliveries ----------

  // One ProcessPayment call is its three steps with nothing in between.
  lemma {:induction false} SerialIsProcessPayment(w: World, r: Request, id: Id, saveFails: bool)
    requires Chargeable(r) && w.open == map[] && id !in w.used && w.streams.Keys <= w.used
    ensures var t := Next(Next(Next(w, r, Lookup(id)), r, CallGateway(id)), r,
            SavePayment(id, if saveFails then Lost else Answered));
            var c := ProcessPayment(w.streams, r.order, r.customer, r.amount, r.currency, id, false, saveFails);
            t.streams == c.streams && t.open == map[] && t.calls == w.calls + if c.calledGateway then 1 else 0
  {
    assert map[id := LookedUp][id := Called] - {id} == map[];
  }
}
