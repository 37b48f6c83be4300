/** The Kafka subscriber the Go services share: handler retries with their total wait, and what a
    committed offset does and does not mean when the dead letter topic is unavailable. */
module Subscriber {
  import opened Common
  import opened Retry

  // ---------- the delay before a retry ----------

  // Division by two that truncates toward zero.
  function Half(x: int): int {
    if x >= 0 then x / 2 else -(-x / 2)
  }

  // The delay meant before the given retry; a left shift is this product modulo 2^64.
  function Doubled(base: int, attempt: nat): int
    requires attempt >= 1
  {
    base * Pow2(attempt - 1)
  }

  function RetryDelay(base: int, attempt: nat, draw: nat): Delay
    requires attempt >= 1
  {
    var delay := Wrap64(Doubled(base, attempt));
    match RandomBelow(Half(delay) + 1, draw)
    case Panics => Panics
    case Wait(jitter) => Wait(Wrap64(delay + jitter))
  }

  predicate Fits(base: int, attempt: nat)
    requires attempt >= 1
  {
    Doubled(base, attempt) + Half(Doubled(base, attempt)) <= MAX_INT64
  }

  lemma {:induction false} DoubledPositive(base: int, attempt: nat)
    requires base > 0 && attempt >= 1
    ensures Doubled(base, attempt) > 0
  {
    ProductMonotone(base, 1, Pow2(attempt - 1));
  }

  predicate InBounds(delay: Delay, d: int) {
    delay.Wait? && d <= delay.ns <= d + Half(d)
  }

  // A retry waits at least the doubled delay and at most half as much again, whatever is drawn, if
  // and only if that upper bound fits in 64 bits.
  lemma {:induction false} RetryDelayIff(base: int, attempt: nat)
    requires base > 0 && attempt >= 1
    ensures var d := Doubled(base, attempt);
            Fits(base, attempt) <==>
            forall draw: nat :: InBounds(RetryDelay(base, attempt, draw), d)
  {
    DoubledPositive(base, attempt);
    var d := Doubled(base, attempt);
    var delay := Wrap64(d);
    if !Fits(base, attempt) {
      var draw: nat := if Half(delay) >= 0 then Half(delay) else 0;
      if d <= MAX_INT64 {
        assert RetryDelay(base, attempt, draw) == Wait(d + Half(d) - TWO_64);
      } else {
        assert !InBounds(RetryDelay(base, attempt, draw), d);
      }
    }
  }

  lemma {:induction false} FitsBefore(base: int, a: nat, m: nat)
    requires base > 0 && 1 <= a <= m && Fits(base, m)
    ensures Fits(base, a)
  {
    Pow2Monotone(a - 1, m - 1);
    ProductMonotone(base, Pow2(a - 1), Pow2(m - 1));
  }

  // ---------- handling with retries ----------

  datatype Handling = Succeeded | GaveUp | Stopped | Crashed

  // Around one message: how each handler call ends, whether the context ends during each wait, and
  // the jitter drawn for it.
  datatype Env = Env(tries: seq<bool>, stops: seq<bool>, draws: seq<nat>)

  predicate EnvOk(env: Env, retries: nat) {
    |env.tries| == retries + 1 && |env.stops| == |env.draws| == retries
  }

  // How handling ends, from handler call k on.
  function HandlingFrom(base: int, retries: nat, env: Env, k: nat): Handling
    requires EnvOk(env, retries) && k <= retries
    decreases retries - k
  {
    if env.tries[k] then Succeeded
    else if k == retries then GaveUp
    else if RetryDelay(base, k + 1, env.draws[k]) == Panics then Crashed
    else if env.stops[k] then Stopped
    else HandlingFrom(base, retries, env, k + 1)
  }

  // Between base times 2^k - 1 and half as much again.
  predicate InRange(base: int, k: nat, waited: int) {
    base * (Pow2(k) - 1) <= waited && 2 * waited <= 3 * (base * (Pow2(k) - 1))
  }

  lemma {:induction false} RangeGrows(base: int, k: nat, waited: int, delay: int)
    requires base > 0 && InRange(base, k, waited)
    requires var d := Doubled(base, k + 1); d <= delay <= d + Half(d)
    ensures InRange(base, k + 1, waited + delay)
  {
    var d := base * Pow2(k);
    assert base * (Pow2(k) - 1) == d - base;
    assert base * (Pow2(k + 1) - 1) == 2 * d - base;
    DoubledPositive(base, k + 1);
  }

  lemma {:induction false} DelayInRange(base: int, retries: nat, attempt: nat, draw: nat, waited: int)
    requires base > 0 && 1 <= attempt <= retries && Fits(base, retries) && InRange(base, attempt - 1, waited)
    ensures RetryDelay(base, attempt, draw).Wait?
    ensures InRange(base, attempt, waited + RetryDelay(base, attempt, draw).ns)
  {
    FitsBefore(base, attempt, retries);
    RetryDelayIff(base, attempt);
    assert InBounds(RetryDelay(base, attempt, draw), Doubled(base, attempt));
    RangeGrows(base, attempt - 1, waited, RetryDelay(base, attempt, draw).ns);
  }

  // Calls the handler until it succeeds, at most retries more times after the first.
  method HandleWithRetry(base: int, retries: nat, env: Env) returns (r: Handling, calls: nat, waited: int)
    requires base > 0 && EnvOk(env, retries)
    ensures r == HandlingFrom(base, retries, env, 0)
    ensures 1 <= calls <= retries + 1 && forall i | 0 <= i < calls - 1 :: !env.tries[i]
    ensures r == Succeeded <==> env.tries[calls - 1]
    ensures r == GaveUp ==> calls == retries + 1
    ensures retries > 0 && Fits(base, retries) ==> r != Crashed && (r == GaveUp ==> InRange(base, retries, waited))
  {
    calls, waited := 1, 0;
    while !env.tries[calls - 1] && calls <= retries
      invariant 1 <= calls <= retries + 1
      invariant forall i | 0 <= i < calls - 1 :: !env.tries[i]
      invariant HandlingFrom(base, retries, env, 0) == HandlingFrom(base, retries, env, calls - 1)
      invariant retries > 0 && Fits(base, retries) ==> InRange(base, calls - 1, waited)
      decreases retries + 1 - calls
    {
      var delay := RetryDelay(base, calls, env.draws[calls - 1]);
      if retries > 0 && Fits(base, retries) {
        DelayInRange(base, retries, calls, env.draws[calls - 1], waited);
      }
      if delay == Panics {
        return Crashed, calls, waited;
      }
      if env.stops[calls - 1] {
        return Stopped, calls, waited;
      }
      waited := waited + delay.ns;
      calls := calls + 1;
    }
    r := if env.tries[calls - 1] then Succeeded else GaveUp;
  }

  lemma {:induction false} SucceedsIff(base: int, retries: nat, env: Env, k: nat)
    requires EnvOk(env, retries) && k <= retries
    ensures (forall i | k <= i <= retries :: !env.tries[i]) ==> HandlingFrom(base, retries, env, k) != Succeeded
    decreases retries - k
  {
    if k < retries {
      SucceedsIff(base, retries, env, k + 1);
    }
  }

  // The handler is called again after call i.
  predicate CallsAgain(base: int, retries: nat, env: Env, i: nat)
    requires EnvOk(env, retries)
  {
    i < retries && !env.tries[i] && RetryDelay(base, i + 1, env.draws[i]).Wait? && !env.stops[i]
  }

  // The last call, counted from zero.
  predicate LastCall(base: int, retries: nat, env: Env, a: nat, k: nat)
    requires EnvOk(env, retries)
  {
    && a <= k <= retries && (forall i | a <= i < k :: CallsAgain(base, retries, env, i))
    && !CallsAgain(base, retries, env, k)
  }

  // How handling ends is decided at the last call: a success, the last failure allowed, a delay that cannot
  // be drawn, or a context that is done.
  lemma {:induction false} HandlingExact(base: int, retries: nat, env: Env, a: nat, k: nat)
    requires EnvOk(env, retries) && LastCall(base, retries, env, a, k)
    ensures var h := HandlingFrom(base, retries, env, a);
            && (h == Succeeded <==> env.tries[k])
            && (h == GaveUp <==> !env.tries[k] && k == retries)
            && (h == Crashed <==> !env.tries[k] && k < retries && RetryDelay(base, k + 1, env.draws[k]) == Panics)
            && (h == Stopped <==>
                  !env.tries[k] && k < retries && RetryDelay(base, k + 1, env.draws[k]) != Panics && env.stops[k])
    decreases k - a
  {
    if a < k {
      assert CallsAgain(base, retries, env, a);
      HandlingExact(base, retries, env, a + 1, k);
    }
  }

  lemma {:induction false} LastCallExists(base: int, retries: nat, env: Env, a: nat) returns (k: nat)
    requires EnvOk(env, retries) && a <= retries
    ensures LastCall(base, retries, env, a, k)
    decreases retries - a
  {
    k := a;
    if CallsAgain(base, retries, env, a) {
      k := LastCallExists(base, retries, env, a + 1);
    }
  }

  lemma {:induction false} NeverStops(base: int, retries: nat, env: Env, k: nat)
    requires base > 0 && retries > 0 && EnvOk(env, retries) && k <= retries && Fits(base, retries)
    requires forall i | 0 <= i < retries :: !env.stops[i]
    ensures HandlingFrom(base, retries, env, k) == Succeeded || HandlingFrom(base, retries, env, k) == GaveUp
    decreases retries - k
  {
    if k < retries {
      NeverStops(base, retries, env, k + 1);
      FitsBefore(base, k + 1, retries);
      RetryDelayIff(base, k + 1);
      assert InBounds(RetryDelay(base, k + 1, env.draws[k]), Doubled(base, k + 1));
    }
  }

  // ---------- one session ----------

  // What became of a message: handled, written to the dead letter topic, or neither.
  datatype Fate = Handled | DeadLettered | Stuck

  // A message as the session meets it: whether it decodes, what happens around its handling, and
  // whether its dead letter write and its offset commit would land.
  datatype Message = Message(decodable: bool, env: Env, sends: bool, commits: bool)

  datatype Settings = Settings(base: int, retries: nat, dlq: bool)

  predicate SettingsOk(c: Settings) {
    c.base > 0 && c.retries > 0
  }

  predicate MessagesOk(c: Settings, messages: seq<Message>) {
    forall i | 0 <= i < |messages| :: EnvOk(messages[i].env, c.retries)
  }

  // The session ends with a message whose handling crashed the process or outlived the context.
  datatype Result = Result(fate: Fate, commits: bool, last: bool)

  function ResultOf(c: Settings, m: Message): Result
    requires EnvOk(m.env, c.retries)
  {
    var h := if m.decodable then HandlingFrom(c.base, c.retries, m.env, 0) else GaveUp;
    var fate := if h == Succeeded then Handled else if h != Crashed && c.dlq && m.sends then DeadLettered else Stuck;
    Result(fate, m.commits, h == Crashed || h == Stopped)
  }

  // A message counts as handled if and only if it decoded and its last handler call succeeded. Any other is
  // dead-lettered if and only if a dead letter topic is configured, the write lands and the process lives.
  // An undecodable message is never handled and never ends the session.
  lemma {:induction false} ResultExact(c: Settings, m: Message, k: nat)
    requires EnvOk(m.env, c.retries) && LastCall(c.base, c.retries, m.env, 0, k)
    ensures var r := ResultOf(c, m);
            var handled := m.decodable && m.env.tries[k];
            var cutShort := m.decodable && !m.env.tries[k] && k < c.retries;
            var crashed := cutShort && RetryDelay(c.base, k + 1, m.env.draws[k]) == Panics;
            && (r.fate == Handled <==> handled)
            && (r.fate == DeadLettered <==> !handled && !crashed && c.dlq && m.sends)
            && (r.last <==> cutShort)
            && (Commits(r) <==> m.commits && (r.fate == Handled || r.fate == DeadLettered))
  {
    HandlingExact(c.base, c.retries, m.env, 0, k);
  }

  predicate Over(results: seq<Result>) {
    |results| > 0 && results[|results| - 1].last
  }

  // The results of the first n messages, as far as the session comes.
  function Results(c: Settings, messages: seq<Message>, n: nat): (r: seq<Result>)
    requires MessagesOk(c, messages) && n <= |messages|
    ensures |r| <= n && (|r| == n || Over(r))
    ensures forall i | 0 <= i < |r| :: r[i] == ResultOf(c, messages[i])
  {
    if n == 0 then []
    else
      var before := Results(c, messages, n - 1);
      if Over(before) then before else before + [ResultOf(c, messages[n - 1])]
  }

  predicate Commits(r: Result) {
    r.fate != Stuck && r.commits
  }

  // The committed offset after the first n messages of a session that began at an offset.
  function CommittedAfter(committed: Option<nat>, from: nat, results: seq<Result>, n: nat): Option<nat>
    requires n <= |results|
  {
    if n == 0 then committed
    else if Commits(results[n - 1]) then Some(from + n)
    else CommittedAfter(committed, from, results, n - 1)
  }

  // A group resumes at its committed offset; one that committed nothing begins at the log end.
  function Resume(committed: Option<nat>, logEnd: nat): nat {
    match committed case Some(c) => c case None => logEnd
  }

  // ---------- redelivery ----------

  // The restart after the session delivers its message i again.
  predicate Redelivered(c: Settings, committed: Option<nat>, began: nat, messages: seq<Message>, i: nat, logEnd: nat)
    requires MessagesOk(c, messages)
  {
    var results, from := Results(c, messages, |messages|), Resume(committed, began);
    Resume(CommittedAfter(committed, from, results, |results|), logEnd) <= from + i
  }

  // Some message of the session from position i on had its offset committed.
  predicate CommitFrom(results: seq<Result>, i: nat) {
    exists j :: i <= j < |results| && Commits(results[j])
  }

  lemma {:induction false} CommittedExact(committed: Option<nat>, from: nat, results: seq<Result>, n: nat, i: nat)
    requires n <= |results| && i <= n && (committed.Some? ==> committed.value <= from)
    ensures var after := CommittedAfter(committed, from, results, n);
            && (after.None? <==> committed.None? && forall j | 0 <= j < n :: !Commits(results[j]))
            && (after.Some? ==> (after.value <= from + i <==> forall j | i <= j < n :: !Commits(results[j])))
            && (after.Some? ==> after.value <= from + n)
  {
    if n > 0 {
      CommittedExact(committed, from, results, n - 1, if i < n then i else n - 1);
    }
  }

  // With an offset committed before or during the session, a message is delivered again if and only if
  // neither it nor any later one was committed; with none, if and only if the log end at the restart
  // lies no further than the message.
  lemma {:induction false} RedeliveredIff(c: Settings, committed: Option<nat>, began: nat, messages: seq<Message>,
                                          i: nat, logEnd: nat)
    requires MessagesOk(c, messages) && i < |Results(c, messages, |messages|)|
    ensures var results := Results(c, messages, |messages|);
            Redelivered(c, committed, began, messages, i, logEnd) <==>
            if committed.Some? || CommitFrom(results, 0) then !CommitFrom(results, i)
            else logEnd <= Resume(committed, began) + i
  {
    var results := Results(c, messages, |messages|);
    CommittedExact(committed, Resume(committed, began), results, |results|, i);
  }

  // The documented promise: every message the session took but neither handled nor dead-lettered is
  // delivered again.
  predicate PromiseKept(c: Settings, committed: Option<nat>, began: nat, messages: seq<Message>, logEnd: nat)
    requires MessagesOk(c, messages)
  {
    var results := Results(c, messages, |messages|);
    forall i | 0 <= i < |results| && results[i].fate == Stuck :: Redelivered(c, committed, began, messages, i, logEnd)
  }

  // On a log that keeps what the session met, the promise is kept if and only if no commit follows a
  // message left behind and, when nothing was ever committed, no message was left behind at all.
  lemma {:induction false} PromiseKeptIff(c: Settings, committed: Option<nat>, began: nat, messages: seq<Message>,
                                          logEnd: nat)
    requires MessagesOk(c, messages)
    requires Resume(committed, began) + |Results(c, messages, |messages|)| <= logEnd
    ensures var results := Results(c, messages, |messages|);
            PromiseKept(c, committed, began, messages, logEnd) <==>
            forall i | 0 <= i < |results| && results[i].fate == Stuck ::
              (committed.Some? || CommitFrom(results, 0)) && !CommitFrom(results, i)
  {
    var results := Results(c, messages, |messages|);
    forall i | 0 <= i < |results| && results[i].fate == Stuck
      ensures Redelivered(c, committed, began, messages, i, logEnd) <==>
              (committed.Some? || CommitFrom(results, 0)) && !CommitFrom(results, i)
    {
      RedeliveredIff(c, committed, began, messages, i, logEnd);
    }
  }

  // A message that is never handled and never reaches the dead letter topic.
  function Hopeless(): Message {
    Message(true, Env([false, false], [false], [0]), false, true)
  }

  function Easy(): Message {
    Message(true, Env([true, true], [false], [0]), true, true)
  }

  // The promise breaks in a new group whose first message is hopeless, and in any group when a message
  // handled after it is committed.
  lemma {:induction false} PromiseBroken()
    ensures var c := Settings(100_000_000, 1, true);
            && !PromiseKept(c, None, 0, [Hopeless()], 1)
            && !PromiseKept(c, Some(0), 0, [Hopeless(), Easy()], 2)
  {
    var c := Settings(100_000_000, 1, true);
    assert Pow2(0) == 1 && Fits(100_000_000, 1);
    NeverStops(c.base, 1, Hopeless().env, 0);
    SucceedsIff(c.base, 1, Hopeless().env, 0);
    assert ResultOf(c, Hopeless()) == Result(Stuck, true, false);
    assert ResultOf(c, Easy()) == Result(Handled, true, false);
    var one, two := [Hopeless()], [Hopeless(), Easy()];
    assert MessagesOk(c, one) && MessagesOk(c, two);
    assert Results(c, one, 0) == [] && Results(c, two, 0) == [];
    assert Results(c, one, 1) == [Result(Stuck, true, false)];
    assert Results(c, two, 1) == [Result(Stuck, true, false)];
    assert Results(c, two, 2) == [Result(Stuck, true, false), Result(Handled, true, false)];
    RedeliveredIff(c, None, 0, one, 0, 1);
    assert Commits(Results(c, two, 2)[1]);
    RedeliveredIff(c, Some(0), 0, two, 0, 2);
  }

  class Subscriber {
    const settings: Settings
    var committed: Option<nat>
    var handled: set<nat>
    var deadLettered: set<nat>

    constructor (maxRetries: int, baseDelay: int, dlqConfigured: bool)
      ensures SettingsOk(settings)
      ensures settings == Settings(if baseDelay <= 0 then 100_000_000 else baseDelay,
                               if maxRetries <= 0 then 3 else maxRetries, dlqConfigured)
      ensures committed == None && handled == {} && deadLettered == {}
    {
      settings := Settings(if baseDelay <= 0 then 100_000_000 else baseDelay,
                       if maxRetries <= 0 then 3 else maxRetries, dlqConfigured);
      committed, handled, deadLettered := None, {}, {};
    }

    // One message: handled with retries, else handed to the dead letter topic, and its offset
    // committed only when one of the two worked.
    method ProcessMessage(o: nat, m: Message) returns (r: Result)
      requires SettingsOk(settings) && EnvOk(m.env, settings.retries)
      modifies this
      ensures r == ResultOf(settings, m)
      ensures committed == if Commits(r) then Some(o + 1) else old(committed)
      ensures handled == if r.fate == Handled then old(handled) + {o} else old(handled)
      ensures deadLettered == if r.fate == DeadLettered then old(deadLettered) + {o} else old(deadLettered)
    {
      var h := GaveUp;
      if m.decodable {
        var calls, waited;
        h, calls, waited := HandleWithRetry(settings.base, settings.retries, m.env);
      }
      var fate := Stuck;
      if h == Crashed {
        return Result(Stuck, m.commits, true);
      }
      if h == Succeeded {
        handled := handled + {o};
        fate := Handled;
      } else if settings.dlq && m.sends {
        deadLettered := deadLettered + {o};
        fate := DeadLettered;
      }
      if fate != Stuck && m.commits {
        committed := Some(o + 1);
      }
      r := Result(fate, m.commits, h == Stopped);
    }

    // The subscription goes on to the next message whatever became of the last, until its context is
    // done or the process dies.
    method Subscribe(logEnd: nat, messages: seq<Message>) returns (results: seq<Result>)
      requires SettingsOk(settings) && MessagesOk(settings, messages)
      modifies this
      ensures results == Results(settings, messages, |messages|)
      ensures committed == CommittedAfter(old(committed), Resume(old(committed), logEnd), results, |results|)
      ensures var from := Resume(old(committed), logEnd);
              && handled == Met(old(handled), from, results, |results|, Handled)
              && deadLettered == Met(old(deadLettered), from, results, |results|, DeadLettered)
    {
      var from, over := Resume(committed, logEnd), false;
      ghost var c0, h0, d0 := committed, handled, deadLettered;
      results := [];
      while |results| < |messages| && !over
        invariant |results| <= |messages| && over == Over(results)
        invariant results == Results(settings, messages, |results|)
        invariant committed == CommittedAfter(c0, from, results, |results|)
        invariant handled == Met(h0, from, results, |results|, Handled)
        invariant deadLettered == Met(d0, from, results, |results|, DeadLettered)
      {
        var r := ProcessMessage(from + |results|, messages[|results|]);
        CommittedPrefix(c0, from, results, r, |results|);
        MetPrefix(h0, from, results, r, |results|, Handled);
        MetPrefix(d0, from, results, r, |results|, DeadLettered);
        var next := results + [r];
        assert next == Results(settings, messages, |next|);
        results, over := next, r.last;
      }
      OverLasts(settings, messages, |results|, |messages|);
    }
  }

  lemma {:induction false} OverLasts(c: Settings, messages: seq<Message>, n: nat, m: nat)
    requires MessagesOk(c, messages) && n <= m <= |messages| && (n == m || Over(Results(c, messages, n)))
    ensures Results(c, messages, m) == Results(c, messages, n)
    decreases m
  {
    if n < m {
      OverLasts(c, messages, n, m - 1);
    }
  }

  // The offsets of the messages that met a fate, those before the session and those of its first n results.
  function Met(before: set<nat>, from: nat, results: seq<Result>, n: nat, fate: Fate): set<nat>
    requires n <= |results|
  {
    if n == 0 then before
    else
      Met(before, from, results, n - 1, fate) + if results[n - 1].fate == fate then {from + n - 1} else {}
  }

  lemma {:induction false} MetIff(before: set<nat>, from: nat, results: seq<Result>, n: nat, fate: Fate, o: nat)
    requires n <= |results|
    ensures o in Met(before, from, results, n, fate) <==>
            o in before || (from <= o < from + n && results[o - from].fate == fate)
  {
    if n > 0 {
      MetIff(before, from, results, n - 1, fate, o);
    }
  }

  lemma {:induction false} MetPrefix(before: set<nat>, from: nat, results: seq<Result>, r: Result, n: nat, fate: Fate)
    requires n <= |results|
    ensures Met(before, from, results + [r], n, fate) == Met(before, from, results, n, fate)
  {
    if n > 0 {
      MetPrefix(before, from, results, r, n - 1, fate);
    }
  }

  lemma {:induction false} CommittedPrefix(committed: Option<nat>, from: nat, results: seq<Result>, r: Result, n: nat)
    requires n <= |results|
    ensures CommittedAfter(committed, from, results + [r], n) == CommittedAfter(committed, from, results, n)
  {
    if n > 0 {
      CommittedPrefix(committed, from, results, r, n - 1);
    }
  }
}
