/** The notification consumer: retries, the dead letter topic and offset commits, over whole runs
    with failures, restarts and rebalances. */
module NotificationConsumer {
  import opened Common

  const MAX_ATTEMPTS := 3

  // A partition: how many messages it holds, the offset the group committed, if any, and the offsets
  // of the messages handled without error or written to the dead letter topic. Two parts are history:
  // the log ends at which the group began to read because it had committed nothing (with a commit made
  // before the run counting as one), and the one of them the committed offset descends from.
  datatype Partition = Partition(
    length: nat, committed: Option<nat>, handled: set<nat>, deadLettered: set<nat>, begun: set<nat>, from: nat)

  // Where a consumer is with the message at its position, and where its reading began.
  datatype Stage = Fetching | Trying(attempt: nat) | DeadLettering | Committing
  datatype Worker = Worker(partition: Id, origin: nat, position: nat, stage: Stage)

  datatype Sys = Sys(partitions: map<Id, Partition>, workers: map<Id, Worker>)

  // What a message's bytes decode to: nothing, a JSON value that is no object, or an event.
  datatype Value = Garbage | NoObject | Event

  // A send or commit that is not answered raises, and ends the consumer's loop.
  datatype Step =
    | Produce(p: Id)
    | Assign(w: Id, p: Id)
    | Decode(w: Id, value: Value)
    | Try(w: Id, ok: bool)
    | Send(w: Id, call: Call)
    | CommitOffset(w: Id, call: Call)
    | Stop(w: Id)

  // A group resumes at its committed offset; one that committed nothing begins at the log end.
  function Resume(part: Partition): nat {
    match part.committed case Some(c) => c case None => part.length
  }

  function OriginOf(part: Partition): nat {
    if part.committed.Some? then part.from else part.length
  }

  function Opened(part: Partition): Partition {
    if part.committed.Some? then part else part.(begun := part.begun + {part.length})
  }

  function Dealt(part: Partition, o: nat): bool {
    o in part.handled || o in part.deadLettered
  }

  function Moved(s: Sys, w: Id, stage: Stage): Sys
    requires w in s.workers
  {
    s.(workers := s.workers[w := s.workers[w].(stage := stage)])
  }

  function Ended(s: Sys, w: Id): Sys {
    s.(workers := s.workers - {w})
  }

  function WithPartition(s: Sys, p: Id, part: Partition): Sys {
    s.(partitions := s.partitions[p := part])
  }

  function Committed(part: Partition, origin: nat, offset: nat): Partition {
    part.(committed := Some(offset), from := origin)
  }

  // One step of a worker on the partition it reads.
  function WorkerStep(s: Sys, step: Step, w: Id, x: Worker, part: Partition): Sys
    requires w in s.workers && s.workers[w] == x
  {
    match (step, x.stage)
    case (Decode(_, value), Fetching) =>
      if x.position >= part.length then s
      else
        (match value
         case Garbage => Moved(s, w, DeadLettering)
         // The first try raises, and so does reporting that it did.
         case NoObject => Ended(s, w)
         case Event => Moved(s, w, Trying(1)))
    case (Try(_, ok), Trying(n)) =>
      if ok then Moved(WithPartition(s, x.partition, part.(handled := part.handled + {x.position})), w, Committing)
      else Moved(s, w, if n < MAX_ATTEMPTS then Trying(n + 1) else DeadLettering)
    case (Send(_, call), DeadLettering) =>
      var s1 := if call == Lost then s
                else WithPartition(s, x.partition, part.(deadLettered := part.deadLettered + {x.position}));
      if call == Answered then Moved(s1, w, Committing) else Ended(s1, w)
    case (CommitOffset(_, call), Committing) =>
      var s1 := if call == Lost then s
                else WithPartition(s, x.partition, Committed(part, x.origin, x.position + 1));
      if call == Answered
      then s1.(workers := s1.workers[w := x.(position := x.position + 1, stage := Fetching)])
      else Ended(s1, w)
    case _ => s
  }

  // Several workers may read one partition at once: a rebalance does not stop the old one at once.
  function Next(s: Sys, step: Step): Sys {
    match step
    case Produce(p) =>
      if p !in s.partitions then s
      else WithPartition(s, p, s.partitions[p].(length := s.partitions[p].length + 1))
    case Assign(w, p) =>
      if w in s.workers || p !in s.partitions then s
      else
        var part := s.partitions[p];
        WithPartition(s, p, Opened(part)).(workers := s.workers[w := Worker(p, OriginOf(part), Resume(part), Fetching)])
    case Stop(w) => Ended(s, w)
    case _ =>
      if step.w in s.workers && s.workers[step.w].partition in s.partitions
      then WorkerStep(s, step, step.w, s.workers[step.w], s.partitions[s.workers[step.w].partition])
      else s
  }

  function Run(s: Sys, steps: seq<Step>): Sys {
    if |steps| == 0 then s else Next(Run(s, steps[..|steps| - 1]), steps[|steps| - 1])
  }

  // No consumer runs; a group that committed before reads on from there.
  predicate Initial(s: Sys) {
    && s.workers == map[]
    && forall p | p in s.partitions ::
         var part := s.partitions[p];
         if part.committed.Some? then part.from == part.committed.value && part.begun == {part.from}
         else part.begun == {}
  }

  // ---------- the invariant ----------

  predicate DealtFrom(part: Partition, from: nat, n: nat) {
    forall o: nat | from <= o < n :: Dealt(part, o)
  }

  predicate PartitionOk(part: Partition) {
    part.committed.Some? ==>
      && part.from in part.begun && part.from <= part.committed.value
      && DealtFrom(part, part.from, part.committed.value)
  }

  predicate WorkerOk(x: Worker, part: Partition) {
    && x.origin in part.begun && x.origin <= x.position && DealtFrom(part, x.origin, x.position)
    && (x.stage == Committing ==> DealtFrom(part, x.origin, x.position + 1))
    && (x.stage.Trying? ==> 1 <= x.stage.attempt <= MAX_ATTEMPTS)
  }

  predicate Inv(s: Sys) {
    && (forall p | p in s.partitions :: PartitionOk(s.partitions[p]))
    && (forall w | w in s.workers ::
          s.workers[w].partition in s.partitions && WorkerOk(s.workers[w], s.partitions[s.workers[w].partition]))
  }

  // Nothing dealt with is forgotten.
  predicate Grows(part: Partition, part': Partition) {
    part.handled <= part'.handled && part.deadLettered <= part'.deadLettered && part.begun <= part'.begun
  }

  lemma {:induction false} DealtLasts(part: Partition, part': Partition, from: nat, n: nat)
    requires Grows(part, part') && DealtFrom(part, from, n)
    ensures DealtFrom(part', from, n)
  {
    forall o: nat | from <= o < n ensures Dealt(part', o) {
      assert Dealt(part, o);
    }
  }

  lemma {:induction false} PartitionLasts(part: Partition, part': Partition)
    requires PartitionOk(part) && Grows(part, part') && part'.committed == part.committed && part'.from == part.from
    ensures PartitionOk(part')
  {
    if part.committed.Some? {
      DealtLasts(part, part', part.from, part.committed.value);
    }
  }

  // Changing one partition and the workers on it.
  lemma {:induction false} LocalKeeps(s: Sys, s': Sys, p: Id)
    requires Inv(s) && p in s.partitions && p in s'.partitions
    requires Grows(s.partitions[p], s'.partitions[p]) && PartitionOk(s'.partitions[p])
    requires forall q | q != p ::
               (q in s'.partitions <==> q in s.partitions)
                   && (q in s.partitions ==> s'.partitions[q] == s.partitions[q])
    requires forall x | x in s'.workers ::
               || (x in s.workers && s'.workers[x] == s.workers[x])
               || (s'.workers[x].partition == p && WorkerOk(s'.workers[x], s'.partitions[p]))
    ensures Inv(s')
  {
    forall x | x in s'.workers
      ensures s'.workers[x].partition in s'.partitions
      ensures WorkerOk(s'.workers[x], s'.partitions[s'.workers[x].partition])
    {
      var y := s'.workers[x];
      if x in s.workers && y == s.workers[x] && y.partition == p {
        DealtLasts(s.partitions[p], s'.partitions[p], y.origin, y.position);
        if y.stage == Committing {
          DealtLasts(s.partitions[p], s'.partitions[p], y.origin, y.position + 1);
        }
      }
    }
  }

  // What a worker's step makes of its partition and of itself.
  lemma {:induction false} WorkerStepLocal(s: Sys, step: Step, w: Id, x: Worker, part: Partition)
    requires w in s.workers && s.workers[w] == x && WorkerOk(x, part) && PartitionOk(part)
    requires x.partition in s.partitions && s.partitions[x.partition] == part
    ensures var s' := WorkerStep(s, step, w, x, part);
            var part' := s'.partitions[x.partition];
            && Grows(part, part') && PartitionOk(part')
            && (w in s'.workers ==> s'.workers[w].partition == x.partition && WorkerOk(s'.workers[w], part'))
  {
    var part' := WorkerStep(s, step, w, x, part).partitions[x.partition];
    DealtLasts(part, part', x.origin, x.position);
    if part'.committed == part.committed && part'.from == part.from {
      PartitionLasts(part, part');
    } else {
      DealtLasts(part, part', x.origin, x.position + 1);
    }
  }

  lemma {:induction false} WorkerStepKeeps(s: Sys, step: Step, w: Id)
    requires Inv(s) && w in s.workers
    ensures Inv(WorkerStep(s, step, w, s.workers[w], s.partitions[s.workers[w].partition]))
  {
    var x := s.workers[w];
    WorkerStepLocal(s, step, w, x, s.partitions[x.partition]);
    LocalKeeps(s, WorkerStep(s, step, w, x, s.partitions[x.partition]), x.partition);
  }

  lemma {:induction false} StepKeeps(s: Sys, step: Step)
    requires Inv(s)
    ensures Inv(Next(s, step))
  {
    if step.Produce? || step.Assign? {
      if step.p in s.partitions {
        PartitionLasts(s.partitions[step.p], Next(s, step).partitions[step.p]);
        LocalKeeps(s, Next(s, step), step.p);
      }
    } else if step.Stop? {
      assert Next(s, step) == Ended(s, step.w);
    } else if step.w in s.workers {
      WorkerStepKeeps(s, step, step.w);
    }
  }

  lemma {:induction false} Reachable(s: Sys, steps: seq<Step>)
    requires Initial(s)
    ensures Inv(Run(s, steps))
  {
    if |steps| > 0 {
      Reachable(s, steps[..|steps| - 1]);
      StepKeeps(Run(s, steps[..|steps| - 1]), steps[|steps| - 1]);
    }
  }

  // ---------- what a committed offset means ----------

  // Over any run, every message from the log end its commits descend from up to the committed offset
  // was handled without error or written to the dead letter topic. When the group never began at any
  // other log end, that is every message since it first began.
  lemma {:induction false} CommittedMeansDealt(s: Sys, steps: seq<Step>, p: Id, o: nat)
    requires Initial(s) && p in Run(s, steps).partitions && Run(s, steps).partitions[p].committed.Some?
    ensures var part := Run(s, steps).partitions[p];
            && part.from in part.begun
            && (part.from <= o < part.committed.value ==> Dealt(part, o))
            && (forall start | part.begun <= {start} && start <= o < part.committed.value :: Dealt(part, o))
  {
    Reachable(s, steps);
  }

  // The steps that skip a message: a restart while nothing is committed, and one message handled.
  function Skipping(w: Id, p: Id): seq<Step> {
    [Assign(w, p), Produce(p), Decode(w, Event), Try(w, true), CommitOffset(w, Answered)]
  }

  lemma {:induction false} RunFive(s: Sys, a: Step, b: Step, c: Step, d: Step, e: Step)
    ensures Run(s, [a, b, c, d, e]) == Next(Next(Next(Next(Next(s, a), b), c), d), e)
  {
    var all := [a, b, c, d, e];
    assert all[..4] == [a, b, c, d] && all[..4][..3] == [a, b, c] && [a, b, c][..2] == [a, b] && [a, b][..1] == [a];
    assert [a][..0] == [];
    assert Run(s, []) == s;
    assert Run(s, [a]) == Next(s, a);
    assert Run(s, [a, b]) == Next(Next(s, a), b);
    assert Run(s, [a, b, c]) == Next(Next(Next(s, a), b), c);
    assert Run(s, [a, b, c, d]) == Next(Next(Next(Next(s, a), b), c), d);
  }

  // In any state with nothing committed, whatever messages were not dealt with can still be skipped:
  // the next restart leaves them below a committed offset, neither handled nor dead-lettered.
  lemma {:induction false} RestartSkips(s: Sys, w: Id, p: Id, o: nat)
    requires p in s.partitions && w !in s.workers && s.partitions[p].committed.None?
    requires o < s.partitions[p].length && !Dealt(s.partitions[p], o)
    ensures var s' := Run(s, Skipping(w, p));
            && p in s'.partitions && s'.partitions[p].committed == Some(s.partitions[p].length + 1)
            && o < s'.partitions[p].committed.value && !Dealt(s'.partitions[p], o)
  {
    RunFive(s, Assign(w, p), Produce(p), Decode(w, Event), Try(w, true), CommitOffset(w, Answered));
  }

  // ---------- a message that is no event ----------

  predicate Reads(s: Sys, w: Id, p: Id, o: nat) {
    w in s.workers && s.workers[w].partition == p && s.workers[w].position == o
  }

  // Whoever decodes the message finds no object.
  ghost predicate NeverObject(s: Sys, steps: seq<Step>, p: Id, o: nat) {
    forall i: nat | i < |steps| && steps[i].Decode? && Reads(Run(s, steps[..i]), steps[i].w, p, o) ::
      steps[i].value == NoObject
  }

  // The group has committed an offset, and neither it nor any consumer is past the message.
  predicate Before(s: Sys, p: Id, o: nat) {
    && p in s.partitions && s.partitions[p].committed.Some? && s.partitions[p].committed.value <= o
    && forall w | w in s.workers && s.workers[w].partition == p ::
         s.workers[w].position <= o && (s.workers[w].position == o ==> s.workers[w].stage == Fetching)
  }

  predicate Fitting(s: Sys, step: Step, p: Id, o: nat) {
    step.Decode? && Reads(s, step.w, p, o) ==> step.value == NoObject
  }

  lemma {:induction false} WorkerStepBefore(s: Sys, step: Step, w: Id, p: Id, o: nat)
    requires Before(s, p, o) && w in s.workers && s.workers[w].partition in s.partitions
    requires step.Decode? ==> step.w == w && Fitting(s, step, p, o)
    ensures var s' := WorkerStep(s, step, w, s.workers[w], s.partitions[s.workers[w].partition]);
            Before(s', p, o) && (Dealt(s'.partitions[p], o) <==> Dealt(s.partitions[p], o))
  {
    var x := s.workers[w];
    var s' := WorkerStep(s, step, w, x, s.partitions[x.partition]);
    assert forall v | v in s'.workers && v != w :: v in s.workers && s'.workers[v] == s.workers[v];
    if x.partition != p {
      assert s'.partitions[p] == s.partitions[p];
    }
  }

  lemma {:induction false} StepBefore(s: Sys, step: Step, p: Id, o: nat)
    requires Before(s, p, o) && Fitting(s, step, p, o)
    ensures Before(Next(s, step), p, o) && (Dealt(Next(s, step).partitions[p], o) <==> Dealt(s.partitions[p], o))
  {
    if !step.Produce? && !step.Assign? && !step.Stop?
       && step.w in s.workers && s.workers[step.w].partition in s.partitions {
      WorkerStepBefore(s, step, step.w, p, o);
    }
  }

  // A group that has committed never gets past a message that is no object, however often it restarts:
  // the message is neither handled nor dead-lettered, and what follows it is never read.
  lemma {:induction false} NeverPast(s: Sys, steps: seq<Step>, p: Id, o: nat)
    requires Before(s, p, o) && NeverObject(s, steps, p, o)
    ensures var s' := Run(s, steps);
            Before(s', p, o) && (Dealt(s'.partitions[p], o) <==> Dealt(s.partitions[p], o))
  {
    if |steps| > 0 {
      var front, n := steps[..|steps| - 1], |steps| - 1;
      forall i: nat | i < n ensures front[i] == steps[i] && front[..i] == steps[..i] {}
      NeverPast(s, front, p, o);
      assert front == steps[..n];
      StepBefore(Run(s, front), steps[n], p, o);
    }
  }

  // ---------- the consumer ----------

  // What happens around one message: what it decodes to, how each handling attempt ends, and how
  // sending it to the dead letter topic and committing its offset end.
  datatype Message = Message(value: Value, tries: seq<bool>, send: Call, commitment: Call)

  predicate Handled(m: Message) {
    m.value == Event && true in m.tries
  }

  predicate GivenUp(m: Message) {
    m.value == Garbage || (m.value == Event && true !in m.tries)
  }

  // The partition once the message was given up to the dead letter topic or handled.
  function AfterHandling(part: Partition, o: nat, m: Message): Partition {
    if Handled(m) then part.(handled := part.handled + {o})
    else if GivenUp(m) && m.send != Lost then part.(deadLettered := part.deadLettered + {o})
    else part
  }

  // The loop goes on only behind a committed offset.
  function AfterMessage(part: Partition, origin: nat, o: nat, m: Message): (Partition, bool) {
    var part1 := AfterHandling(part, o, m);
    if !Handled(m) && !(GivenUp(m) && m.send == Answered) then (part1, false)
    else (if m.commitment == Lost then part1 else Committed(part1, origin, o + 1), m.commitment == Answered)
  }

  // The partition after the loop met the first n messages from an offset on, and whether it goes on.
  function AfterLoop(part: Partition, origin: nat, at: nat, messages: seq<Message>, n: nat): (Partition, bool)
    requires n <= |messages|
  {
    if n == 0 then (part, true)
    else
      var (before, alive) := AfterLoop(part, origin, at, messages, n - 1);
      if alive then AfterMessage(before, origin, at + n - 1, messages[n - 1]) else (before, false)
  }

  class Consumer {
    var part: Partition

    constructor (part: Partition)
      ensures this.part == part
    {
      this.part := part;
    }

    // Calls the handler until it succeeds, at most three times.
    method HandleEvent(o: nat, tries: seq<bool>) returns (ok: bool, calls: nat)
      requires |tries| == MAX_ATTEMPTS
      modifies this
      ensures ok == (true in tries) && 1 <= calls <= MAX_ATTEMPTS
      ensures forall i | 0 <= i < calls - 1 :: !tries[i]
      ensures if ok then tries[calls - 1] else calls == MAX_ATTEMPTS
      ensures part == if ok then old(part).(handled := old(part).handled + {o}) else old(part)
    {
      ok, calls := false, 0;
      while !ok && calls < MAX_ATTEMPTS
        invariant 0 <= calls <= MAX_ATTEMPTS && part == old(part)
        invariant !ok ==> forall i | 0 <= i < calls :: !tries[i]
        invariant ok ==> calls > 0 && tries[calls - 1] && forall i | 0 <= i < calls - 1 :: !tries[i]
      {
        ok, calls := tries[calls], calls + 1;
      }
      if ok {
        part := part.(handled := part.handled + {o});
      }
    }

    method Process(origin: nat, o: nat, m: Message) returns (alive: bool)
      requires |m.tries| == MAX_ATTEMPTS
      modifies this
      ensures (part, alive) == AfterMessage(old(part), origin, o, m)
    {
      var ok := false;
      if m.value == NoObject {
        return false;
      } else if m.value == Event {
        var calls;
        ok, calls := HandleEvent(o, m.tries);
      }
      if !ok {
        if m.send != Lost {
          part := part.(deadLettered := part.deadLettered + {o});
        }
        if m.send != Answered {
          return false;
        }
      }
      if m.commitment != Lost {
        part := Committed(part, origin, o + 1);
      }
      alive := m.commitment == Answered;
    }

    // The consume loop, from where the group resumes until an operation raises.
    method Loop(messages: seq<Message>) returns (alive: bool)
      requires forall i | 0 <= i < |messages| :: |messages[i].tries| == MAX_ATTEMPTS
      modifies this
      ensures (part, alive) ==
              AfterLoop(Opened(old(part)), OriginOf(old(part)), Resume(old(part)), messages, |messages|)
    {
      var origin, at, n := OriginOf(part), Resume(part), 0;
      part := Opened(part);
      ghost var start := part;
      alive := true;
      while alive && n < |messages|
        invariant n <= |messages| && (part, alive) == AfterLoop(start, origin, at, messages, n)
      {
        alive := Process(origin, at + n, messages[n]);
        n := n + 1;
      }
      DeadStaysDead(start, origin, at, messages, n, |messages|);
    }
  }

  lemma {:induction false} DeadStaysDead(part: Partition, origin: nat, at: nat, messages: seq<Message>, n: nat, m: nat)
    requires n <= m <= |messages| && (n == m || !AfterLoop(part, origin, at, messages, n).1)
    ensures AfterLoop(part, origin, at, messages, m) == AfterLoop(part, origin, at, messages, n)
    decreases m
  {
    if n < m {
      DeadStaysDead(part, origin, at, messages, n, m - 1);
    }
  }

  // A loop whose messages from its origin up to its position were dealt with.
  predicate Begun(part: Partition, origin: nat, at: nat) {
    PartitionOk(part) && origin in part.begun && origin <= at && DealtFrom(part, origin, at)
  }

  // The loop keeps the watermark, and as long as it goes on it committed every message it met.
  lemma {:induction false} LoopKeeps(part: Partition, origin: nat, at: nat, messages: seq<Message>, n: nat)
    requires Begun(part, origin, at) && n <= |messages|
    ensures var (part', alive) := AfterLoop(part, origin, at, messages, n);
            && PartitionOk(part') && Grows(part, part')
            && (alive ==> Begun(part', origin, at + n) && (n > 0 ==> part'.committed == Some(at + n)))
  {
    if n > 0 {
      LoopKeeps(part, origin, at, messages, n - 1);
      var (before, alive) := AfterLoop(part, origin, at, messages, n - 1);
      if alive {
        MessageKeeps(before, origin, at + n - 1, messages[n - 1]);
      }
    }
  }

  // Dealing with the message at the position keeps the watermark, whatever raises.
  lemma {:induction false} MessageKeeps(part: Partition, origin: nat, o: nat, m: Message)
    requires Begun(part, origin, o)
    ensures var (part', alive) := AfterMessage(part, origin, o, m);
            && PartitionOk(part') && Grows(part, part')
            && (alive ==> Begun(part', origin, o + 1) && part'.committed == Some(o + 1))
  {
    var (part', alive) := AfterMessage(part, origin, o, m);
    DealtLasts(part, part', origin, o);
    if part.committed.Some? {
      DealtLasts(part, part', part.from, part.committed.value);
    }
  }

  // The dead letter write and the commit of a message whose handling is over.
  lemma {:induction false} EndIsSteps(s: Sys, w: Id, m: Message)
    requires w in s.workers && s.workers[w].partition in s.partitions && m.value != NoObject
    requires s.workers[w].stage == if Handled(m) then Committing else DeadLettering
    ensures var x := s.workers[w];
            var part := s.partitions[x.partition];
            var s' := Next(Next(s, Send(w, m.send)), CommitOffset(w, m.commitment));
            var sent := if Handled(m) || m.send == Lost then part
                        else part.(deadLettered := part.deadLettered + {x.position});
            var goesOn := Handled(m) || m.send == Answered;
            && s'.partitions ==
               s.partitions[x.partition :=
                 if goesOn && m.commitment != Lost then Committed(sent, x.origin, x.position + 1) else sent]
            && (if goesOn && m.commitment == Answered
                then w in s'.workers && s'.workers[w] == x.(position := x.position + 1, stage := Fetching)
                else w !in s'.workers)
  {
    assert s.partitions[s.workers[w].partition := s.partitions[s.workers[w].partition]] == s.partitions;
  }

  // What becomes of one message, operation by operation: the loop goes on exactly behind an answered commit,
  // which comes only behind a success or an answered dead letter write; and what was executed shows, answered
  // or not.
  lemma {:induction false} MessageExact(part: Partition, origin: nat, o: nat, m: Message)
    ensures var (part', alive) := AfterMessage(part, origin, o, m);
            var succeeds := m.value == Event && true in m.tries;
            var writes := m.value == Garbage || (m.value == Event && true !in m.tries);
            var reachesCommit := succeeds || (writes && m.send == Answered);
            && (alive <==> reachesCommit && m.commitment == Answered)
            && part'.handled == part.handled + (if succeeds then {o} else {})
            && part'.deadLettered == part.deadLettered + (if writes && m.send != Lost then {o} else {})
            && part'.committed == (if reachesCommit && m.commitment != Lost then Some(o + 1) else part.committed)
            && part'.from == (if reachesCommit && m.commitment != Lost then origin else part.from)
            && part'.length == part.length && part'.begun == part.begun
  {
  }

  // Processing one message is a run of the worker's steps.
  lemma {:induction false} ProcessIsRun(s: Sys, w: Id, m: Message)
    requires w in s.workers && s.workers[w].stage == Fetching && s.workers[w].partition in s.partitions
    requires |m.tries| == MAX_ATTEMPTS && s.workers[w].position < s.partitions[s.workers[w].partition].length
    ensures var x := s.workers[w];
            var (part', alive) := AfterMessage(s.partitions[x.partition], x.origin, x.position, m);
            var s1 := Next(s, Decode(w, m.value));
            var s4 := Next(Next(Next(s1, Try(w, m.tries[0])), Try(w, m.tries[1])), Try(w, m.tries[2]));
            var s' := Next(Next(s4, Send(w, m.send)), CommitOffset(w, m.commitment));
            && s'.partitions == s.partitions[x.partition := part']
            && (if alive then w in s'.workers && s'.workers[w] == x.(position := x.position + 1) else w !in s'.workers)
  {
    var x := s.workers[w];
    var s1 := Next(s, Decode(w, m.value));
    assert s1 == if m.value == NoObject then Ended(s, w)
                 else Moved(s, w, if m.value == Event then Trying(1) else DeadLettering);
    var s4 := Next(Next(Next(s1, Try(w, m.tries[0])), Try(w, m.tries[1])), Try(w, m.tries[2]));
    if m.value == NoObject {
      assert s.partitions[x.partition := s.partitions[x.partition]] == s.partitions;
    } else {
      TriesAreSteps(s1, w, m);
      EndIsSteps(s4, w, m);
    }
  }

  lemma {:induction false} TriesAreSteps(s: Sys, w: Id, m: Message)
    requires w in s.workers && s.workers[w].partition in s.partitions && |m.tries| == MAX_ATTEMPTS
    requires s.workers[w].stage == (if m.value == Event then Trying(1) else DeadLettering) && m.value != NoObject
    ensures var x := s.workers[w];
            var s' := Next(Next(Next(s, Try(w, m.tries[0])), Try(w, m.tries[1])), Try(w, m.tries[2]));
            && w in s'.workers && s'.workers[w] == x.(stage := if Handled(m) then Committing else DeadLettering)
            && s'.partitions ==
               if Handled(m) then s.partitions[x.partition := AfterHandling(s.partitions[x.partition], x.position, m)]
               else s.partitions
  {
    assert true in m.tries <==> m.tries[0] || m.tries[1] || m.tries[2];
  }
}
