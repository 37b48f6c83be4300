/** The outbox relays: any number of them over one outbox table, with crashes and publishes that
    fail, with or without effect. */
module Relay {
  import opened Common

  datatype OutboxRow = OutboxRow(published: bool, attempts: nat)

  // A relay's open transaction: rows it locked and has still to publish, rows whose publish
  // succeeded, rows whose publish failed, and whether a failed statement already aborted it.
  datatype Batch = Batch(todo: seq<Id>, sent: set<Id>, failed: set<Id>, aborted: bool)

  // The table, what the topics received, the relays at work, and a history: publishes that landed
  // but reported an error, and successful publishes whose transaction did not commit.
  datatype Sys = Sys(rows: map<Id, OutboxRow>, log: multiset<Id>, relays: map<Id, Batch>, errored: multiset<Id>,
      uncommitted: multiset<Id>)

  // A publish that is not answered with success may still have landed; one of an undecodable
  // payload is lost.

  datatype Step =
    | Enqueue(id: Id)
    | Begin(relay: Id, ids: seq<Id>)
    | Publish(relay: Id, call: Call, recorded: bool)
    | Commit(relay: Id)
    | Crash(relay: Id)

  function Locked(b: Batch): set<Id> {
    (set i | 0 <= i < |b.todo| :: b.todo[i]) + b.sent + b.failed
  }

  predicate Distinct(ids: seq<Id>) {
    forall i, j | 0 <= i < j < |ids| :: ids[i] != ids[j]
  }

  // What SELECT ... FOR UPDATE SKIP LOCKED may return.
  predicate Selectable(s: Sys, ids: seq<Id>) {
    && Distinct(ids)
    && (forall i | 0 <= i < |ids| :: ids[i] in s.rows && !s.rows[ids[i]].published)
    && (forall r, i | r in s.relays && 0 <= i < |ids| :: ids[i] !in Locked(s.relays[r]))
  }

  function Published(s: Sys, r: Id, b: Batch, call: Call, recorded: bool): Sys
    requires |b.todo| > 0
  {
    var id := b.todo[0];
    var b1 := b.(todo := b.todo[1..], aborted := b.aborted || !recorded);
    var b2 := if call == Answered then b1.(sent := b1.sent + {id}) else b1.(failed := b1.failed + {id});
    s.(relays := s.relays[r := b2],
       log := if call == Answered || call == Unanswered then s.log + multiset{id} else s.log,
       errored := if call == Unanswered then s.errored + multiset{id} else s.errored)
  }

  function Ended(s: Sys, r: Id): Sys {
    s.(relays := s.relays - {r})
  }

  function Aborted(s: Sys, r: Id, b: Batch): Sys {
    Ended(s.(uncommitted := s.uncommitted + multiset(b.sent)), r)
  }

  function Marked(rows: map<Id, OutboxRow>, b: Batch): map<Id, OutboxRow> {
    map id | id in rows ::
      if id in b.sent then rows[id].(published := true)
      else if id in b.failed then rows[id].(attempts := rows[id].attempts + 1)
      else rows[id]
  }

  function Next(s: Sys, step: Step): Sys {
    match step
    case Enqueue(id) => if id in s.rows then s else s.(rows := s.rows[id := OutboxRow(false, 0)])
    case Begin(r, ids) =>
      if r in s.relays || !Selectable(s, ids) then s else s.(relays := s.relays[r := Batch(ids, {}, {}, false)])
    case Publish(r, call, recorded) =>
      if r !in s.relays || |s.relays[r].todo| == 0 then s else Published(s, r, s.relays[r], call, recorded)
    case Commit(r) =>
      if r !in s.relays || |s.relays[r].todo| > 0 then s
      else if s.relays[r].aborted then Aborted(s, r, s.relays[r])
      else Ended(s.(rows := Marked(s.rows, s.relays[r])), r)
    case Crash(r) => if r in s.relays then Aborted(s, r, s.relays[r]) else s
  }

  function Run(s: Sys, steps: seq<Step>): Sys {
    if |steps| == 0 then s else Next(Run(s, steps[..|steps| - 1]), steps[|steps| - 1])
  }

  const EMPTY := Sys(map[], multiset{}, map[], multiset{}, multiset{})

  // ---------- the invariant ----------

  predicate IsPublished(s: Sys, id: Id) {
    id in s.rows && s.rows[id].published
  }

  ghost predicate Sending(s: Sys, id: Id) {
    exists r :: r in s.relays && id in s.relays[r].sent
  }

  // Every message of a row in the log is accounted for.
  ghost predicate Accounted(s: Sys, id: Id) {
    s.log[id] == s.errored[id] + s.uncommitted[id] + (if IsPublished(s, id) then 1 else 0) + if Sending(s, id) then 1
        else 0
  }

  predicate BatchOk(s: Sys, b: Batch) {
    && Distinct(b.todo)
    && (forall i | 0 <= i < |b.todo| :: b.todo[i] !in b.sent && b.todo[i] !in b.failed)
    && b.sent !! b.failed
    && (forall id | id in Locked(b) :: id in s.rows && !s.rows[id].published)
  }

  ghost predicate BatchesDisjoint(s: Sys) {
    forall q, r | q in s.relays && r in s.relays && q != r :: Locked(s.relays[q]) !! Locked(s.relays[r])
  }

  ghost predicate Inv(s: Sys) {
    && (forall id: Id :: Accounted(s, id))
    && (forall r | r in s.relays :: BatchOk(s, s.relays[r]))
    && BatchesDisjoint(s)
  }

  lemma {:induction false} EnqueueKeeps(s: Sys, id: Id)
    requires Inv(s)
    ensures Inv(Next(s, Enqueue(id)))
  {
    var s' := Next(s, Enqueue(id));
    forall x: Id ensures Accounted(s', x) {
      assert Accounted(s, x);
      assert Sending(s', x) == Sending(s, x);
    }
    forall r | r in s'.relays ensures BatchOk(s', s'.relays[r]) { assert BatchOk(s, s.relays[r]); }
  }

  lemma {:induction false} BeginKeeps(s: Sys, r: Id, ids: seq<Id>)
    requires Inv(s)
    ensures Inv(Next(s, Begin(r, ids)))
  {
    var s' := Next(s, Begin(r, ids));
    forall id: Id ensures Accounted(s', id) {
      assert Accounted(s, id);
      if Sending(s, id) {
        var q :| q in s.relays && id in s.relays[q].sent;
        assert q in s'.relays && id in s'.relays[q].sent;
      }
    }
    forall q | q in s'.relays ensures BatchOk(s', s'.relays[q]) {
      if q in s.relays { assert BatchOk(s, s.relays[q]); }
    }
  }

  lemma {:induction false} PublishedLocks(b: Batch, b': Batch, id: Id)
    requires |b.todo| > 0 && id == b.todo[0]
    requires b'.todo == b.todo[1..]
    requires (b'.sent == b.sent + {id} && b'.failed == b.failed) || (b'.sent == b.sent && b'.failed == b.failed + {id})
    ensures Locked(b') == Locked(b)
  {
    assert forall i | 0 <= i < |b'.todo| :: b'.todo[i] == b.todo[i + 1];
    forall x ensures x in Locked(b') <==> x in Locked(b) {
      if i :| 0 <= i < |b.todo| && b.todo[i] == x {
        assert i > 0 ==> b'.todo[i - 1] == x;
      }
    }
  }

  lemma {:induction false} PublishKeeps(s: Sys, r: Id, call: Call, recorded: bool)
    requires Inv(s) && r in s.relays && |s.relays[r].todo| > 0
    ensures Inv(Published(s, r, s.relays[r], call, recorded))
  {
    var b := s.relays[r];
    var id := b.todo[0];
    var s' := Published(s, r, b, call, recorded);
    var b' := s'.relays[r];
    PublishedLocks(b, b', id);
    assert BatchOk(s, b);
    assert id in Locked(b);
    assert forall i | 0 <= i < |b'.todo| :: b'.todo[i] == b.todo[i + 1];
    forall q | q in s'.relays ensures BatchOk(s', s'.relays[q]) {
      if q != r { assert BatchOk(s, s.relays[q]); }
    }
    forall q, p | q in s'.relays && p in s'.relays && q != p ensures Locked(s'.relays[q]) !! Locked(s'.relays[p]) {
      assert Locked(s'.relays[q]) == Locked(s.relays[q]) && Locked(s'.relays[p]) == Locked(s.relays[p]);
    }
    forall x: Id ensures Accounted(s', x) {
      assert Accounted(s, x);
      SendingAfterPublish(s, r, call, recorded, x);
    }
  }

  lemma {:induction false} SendingAfterPublish(s: Sys, r: Id, call: Call, recorded: bool, x: Id)
    requires Inv(s) && r in s.relays && |s.relays[r].todo| > 0
    ensures var id := s.relays[r].todo[0];
            && Sending(Published(s, r, s.relays[r], call, recorded), x) ==
               (Sending(s, x) || (call == Answered && x == id))
            && !Sending(s, id)
  {
    var b, id := s.relays[r], s.relays[r].todo[0];
    var s' := Published(s, r, b, call, recorded);
    assert BatchOk(s, b) && id in Locked(b);
    if Sending(s, x) {
      var q :| q in s.relays && x in s.relays[q].sent;
      assert x in s'.relays[q].sent;
    }
    if call == Answered { assert id in s'.relays[r].sent; }
    forall q | q in s.relays ensures id !in s.relays[q].sent {
      assert q == r || Locked(s.relays[q]) !! Locked(b);
    }
  }

  // Whoever sent a row is the only relay holding it.
  lemma {:induction false} SendingAfterEnd(s: Sys, s': Sys, r: Id, x: Id)
    requires Inv(s) && r in s.relays && s'.relays == s.relays - {r}
    ensures Sending(s', x) == (Sending(s, x) && x !in s.relays[r].sent)
  {
    if Sending(s', x) {
      var q :| q in s'.relays && x in s'.relays[q].sent;
      assert q in s.relays && x in s.relays[q].sent;
      assert x in Locked(s.relays[q]) && x !in Locked(s.relays[r]);
    }
    if Sending(s, x) && x !in s.relays[r].sent {
      var q :| q in s.relays && x in s.relays[q].sent;
      assert q in s'.relays && x in s'.relays[q].sent;
    }
  }

  lemma {:induction false} AbortKeeps(s: Sys, r: Id)
    requires Inv(s) && r in s.relays
    ensures Inv(Aborted(s, r, s.relays[r]))
  {
    var s' := Aborted(s, r, s.relays[r]);
    forall x: Id ensures Accounted(s', x) {
      assert Accounted(s, x);
      SendingAfterEnd(s, s', r, x);
      if x in s.relays[r].sent { assert Sending(s, x); }
    }
    forall q | q in s'.relays ensures BatchOk(s', s'.relays[q]) { assert BatchOk(s, s.relays[q]); }
  }

  lemma {:induction false} CommitKeeps(s: Sys, r: Id)
    requires Inv(s) && r in s.relays
    ensures Inv(Ended(s.(rows := Marked(s.rows, s.relays[r])), r))
  {
    var b := s.relays[r];
    var s' := Ended(s.(rows := Marked(s.rows, b)), r);
    assert BatchOk(s, b);
    forall x: Id ensures Accounted(s', x) {
      assert Accounted(s, x);
      SendingAfterEnd(s, s', r, x);
      if x in b.sent {
        assert x in Locked(b);
        assert Sending(s, x);
      }
    }
    forall q | q in s'.relays ensures BatchOk(s', s'.relays[q]) {
      assert BatchOk(s, s.relays[q]);
      assert Locked(s.relays[q]) !! Locked(b);
    }
  }

  lemma {:induction false} StepKeeps(s: Sys, step: Step)
    requires Inv(s)
    ensures Inv(Next(s, step))
  {
    match step
    case Enqueue(id) => EnqueueKeeps(s, id);
    case Begin(r, ids) => BeginKeeps(s, r, ids);
    case Publish(r, call, recorded) => if r in s.relays && |s.relays[r].todo| > 0
      { PublishKeeps(s, r, call, recorded); }
    case Commit(r) => if r in s.relays { AbortKeeps(s, r); CommitKeeps(s, r); }
    case Crash(r) => if r in s.relays { AbortKeeps(s, r); }
  }

  lemma {:induction false} Reachable(steps: seq<Step>)
    ensures Inv(Run(EMPTY, steps))
  {
    if |steps| > 0 {
      Reachable(steps[..|steps| - 1]);
      StepKeeps(Run(EMPTY, steps[..|steps| - 1]), steps[|steps| - 1]);
    } else {
      forall id: Id ensures Accounted(EMPTY, id) { assert !Sending(EMPTY, id); }
    }
  }

  // ---------- what relays guarantee ----------

  // However many relays run and crash: a row marked published is in the log; a row is there more
  // than once only for publishes that reported an error or whose transaction did not commit; and
  // no two relays hold the same row.
  lemma {:induction false} RelaySafety(steps: seq<Step>, id: Id)
    ensures var s := Run(EMPTY, steps);
            && (IsPublished(s, id) ==> s.log[id] >= 1)
            && s.errored[id] + s.uncommitted[id] <= s.log[id] <= 1 + s.errored[id] + s.uncommitted[id]
            && BatchesDisjoint(s)
  {
    var s := Run(EMPTY, steps);
    Reachable(steps);
    assert Accounted(s, id);
    forall r | r in s.relays && id in s.relays[r].sent ensures !IsPublished(s, id) {
      assert BatchOk(s, s.relays[r]) && id in Locked(s.relays[r]);
    }
  }

  // A published row is never taken again, so its messages are complete.
  lemma {:induction false} PublishedForGood(s: Sys, step: Step, id: Id)
    requires Inv(s) && IsPublished(s, id)
    ensures IsPublished(Next(s, step), id) && Next(s, step).log[id] == s.log[id]
  {
    if step.Publish? && step.relay in s.relays && |s.relays[step.relay].todo| > 0 {
      var b := s.relays[step.relay];
      assert BatchOk(s, b) && b.todo[0] in Locked(b);
    }
  }

  lemma {:induction false} NeverPublishedAgain(steps: seq<Step>, more: seq<Step>, id: Id)
    requires IsPublished(Run(EMPTY, steps), id)
    ensures Inv(Run(Run(EMPTY, steps), more)) && IsPublished(Run(Run(EMPTY, steps), more), id)
    ensures Run(Run(EMPTY, steps), more).log[id] == Run(EMPTY, steps).log[id]
  {
    if |more| == 0 {
      Reachable(steps);
    } else {
      NeverPublishedAgain(steps, more[..|more| - 1], id);
      var before := Run(Run(EMPTY, steps), more[..|more| - 1]);
      StepKeeps(before, more[|more| - 1]);
      PublishedForGood(before, more[|more| - 1], id);
    }
  }

  // ---------- the log and the schedule ----------

  // The step publishes the row.
  predicate Publishes(s: Sys, step: Step, id: Id) {
    step.Publish? && step.relay in s.relays && |s.relays[step.relay].todo| > 0 && s.relays[step.relay].todo[0] == id
  }

  // How many steps of a run publish the row with one of the given ends.
  function Publications(steps: seq<Step>, id: Id, ends: set<Call>): nat {
    if |steps| == 0 then 0
    else
      var front, step := steps[..|steps| - 1], steps[|steps| - 1];
      Publications(front, id, ends) + if Publishes(Run(EMPTY, front), step, id) && step.call in ends then 1 else 0
  }

  // The topics hold one message for each publish that landed, answered or not.
  lemma {:induction false} LogIsSchedule(steps: seq<Step>, id: Id)
    ensures var s := Run(EMPTY, steps);
            && s.log[id] == Publications(steps, id, {Answered, Unanswered})
            && s.errored[id] == Publications(steps, id, {Unanswered})
  {
    if |steps| > 0 {
      LogIsSchedule(steps[..|steps| - 1], id);
      StepCounts(Run(EMPTY, steps[..|steps| - 1]), steps[|steps| - 1], id);
    }
  }

  lemma {:induction false} StepCounts(s: Sys, step: Step, id: Id)
    ensures var here := Publishes(s, step, id);
            && Next(s, step).log[id] == s.log[id] + (if here && step.call != Lost then 1 else 0)
            && Next(s, step).errored[id] == s.errored[id] + (if here && step.call == Unanswered then 1 else 0)
  {
  }

  lemma {:induction false} SentStep(s: Sys, step: Step, id: Id)
    ensures Sending(Next(s, step), id) ==> Sending(s, id) || (Publishes(s, step, id) && step.call == Answered)
    ensures IsPublished(Next(s, step), id) ==> IsPublished(s, id) || Sending(s, id)
  {
    var s' := Next(s, step);
    if Sending(s', id) {
      var r :| r in s'.relays && id in s'.relays[r].sent;
      if r in s.relays && id in s.relays[r].sent {
        assert Sending(s, id);
      }
    }
  }

  // A row is marked published only after a publish of it was answered with success.
  lemma {:induction false} PublishedWasAnswered(steps: seq<Step>, id: Id)
    ensures IsPublished(Run(EMPTY, steps), id) || Sending(Run(EMPTY, steps), id) ==>
              Publications(steps, id, {Answered}) >= 1
  {
    if |steps| > 0 {
      PublishedWasAnswered(steps[..|steps| - 1], id);
      SentStep(Run(EMPTY, steps[..|steps| - 1]), steps[|steps| - 1], id);
    } else {
      assert !Sending(EMPTY, id);
    }
  }
}
