/** What the notification consumer skips: a group that restarts before its first commit begins again at
    the log end. */
module NotificationRestarts {
  import opened Common
  import opened NotificationConsumer

  // A consumer's life on a partition: the log end when it starts, and the messages it would meet from
  // where it resumes, were nothing to raise.
  datatype Session = Session(logEnd: nat, messages: seq<Message>)

  const NEW_GROUP := Partition(0, None, {}, {}, {}, 0)

  function AfterSession(part: Partition, s: Session): Partition {
    var p := part.(length := s.logEnd);
    AfterLoop(Opened(p), OriginOf(p), Resume(p), s.messages, |s.messages|).0
  }

  function AfterSessions(ss: seq<Session>, n: nat): Partition
    requires n <= |ss|
  {
    if n == 0 then NEW_GROUP else AfterSession(AfterSessions(ss, n - 1), ss[n - 1])
  }

  // The session handles its first message or writes it to the dead letter topic.
  predicate DealsFirst(s: Session) {
    |s.messages| > 0 && (Handled(s.messages[0]) || (GivenUp(s.messages[0]) && s.messages[0].send != Lost))
  }

  // The session commits the offset of its first message.
  predicate CommitsFirst(s: Session) {
    && |s.messages| > 0 && (Handled(s.messages[0]) || (GivenUp(s.messages[0]) && s.messages[0].send == Answered))
    && s.messages[0].commitment != Lost
  }

  // Up to session m, which finds nothing committed, the log keeps the message each session met.
  predicate LogGrows(ss: seq<Session>, m: nat)
    requires m < |ss|
  {
    forall j, k | 0 <= j < k <= m :: ss[j].logEnd + (if |ss[j].messages| > 0 then 1 else 0) <= ss[k].logEnd
  }

  // Session m is the first to commit anything.
  predicate FirstCommit(ss: seq<Session>, m: nat) {
    m < |ss| && CommitsFirst(ss[m]) && forall k | 0 <= k < m :: !CommitsFirst(ss[k])
  }

  // The message was dealt with by one of the first n sessions, each of which met no other.
  predicate DealtEarly(ss: seq<Session>, n: nat, o: nat)
    requires n <= |ss|
  {
    exists k :: 0 <= k < n && ss[k].logEnd == o && DealsFirst(ss[k])
  }

  // ---------- one session ----------

  // A loop leaves what lies before its position alone, and commits only on behalf of its origin.
  lemma {:induction false} LoopTouches(part: Partition, origin: nat, at: nat, messages: seq<Message>, n: nat)
    requires n <= |messages|
    ensures var part' := AfterLoop(part, origin, at, messages, n).0;
            && (forall o: nat | o < at :: Dealt(part', o) <==> Dealt(part, o))
            && ((part'.committed == part.committed && part'.from == part.from)
                || (part'.from == origin && part'.committed.Some? && part'.committed.value > at))
  {
    if n > 0 {
      LoopTouches(part, origin, at, messages, n - 1);
    }
  }

  // A session that commits nothing deals with at most the message at the log end.
  lemma {:induction false} ColdSession(part: Partition, s: Session)
    requires part.committed.None? && !CommitsFirst(s)
    ensures var part' := AfterSession(part, s);
            && part'.committed.None?
            && forall o: nat :: Dealt(part', o) <==> Dealt(part, o) || (o == s.logEnd && DealsFirst(s))
  {
    var p := part.(length := s.logEnd);
    if |s.messages| > 0 {
      assert AfterLoop(Opened(p), s.logEnd, s.logEnd, s.messages, 0) == (Opened(p), true);
      var first := AfterMessage(Opened(p), s.logEnd, s.logEnd, s.messages[0]);
      assert AfterLoop(Opened(p), s.logEnd, s.logEnd, s.messages, 1) == first;
      DeadStaysDead(Opened(p), s.logEnd, s.logEnd, s.messages, 1, |s.messages|);
    }
  }

  // The session that commits first.
  lemma {:induction false} FirstCommitSession(part: Partition, s: Session)
    requires part.committed.None? && CommitsFirst(s)
    ensures var part' := AfterSession(part, s);
            && part'.committed.Some? && part'.from == s.logEnd < part'.committed.value && PartitionOk(part')
            && forall o: nat | o < s.logEnd :: Dealt(part', o) <==> Dealt(part, o)
  {
    var p := Opened(part.(length := s.logEnd));
    LoopTouches(p, s.logEnd, s.logEnd, s.messages, |s.messages|);
    LoopKeeps(p, s.logEnd, s.logEnd, s.messages, |s.messages|);
    CommitsOnce(p, s.logEnd, s.logEnd, s.messages, |s.messages|);
  }

  lemma {:induction false} CommitsOnce(part: Partition, origin: nat, at: nat, messages: seq<Message>, n: nat)
    requires 0 < n <= |messages| && (Handled(messages[0]) || (GivenUp(messages[0]) && messages[0].send == Answered))
    requires messages[0].commitment != Lost
    ensures AfterLoop(part, origin, at, messages, n).0.committed.Some?
  {
    if n > 1 {
      CommitsOnce(part, origin, at, messages, n - 1);
    } else {
      assert AfterLoop(part, origin, at, messages, 0) == (part, true);
    }
  }

  // A session that resumes at a committed offset.
  lemma {:induction false} WarmSession(part: Partition, s: Session)
    requires part.committed.Some? && PartitionOk(part)
    ensures var part' := AfterSession(part, s);
            && part'.committed.Some? && part'.from == part.from && PartitionOk(part')
            && part.committed.value <= part'.committed.value
            && forall o: nat | o < part.committed.value :: Dealt(part', o) <==> Dealt(part, o)
  {
    var p := part.(length := s.logEnd);
    var c := part.committed.value;
    DealtLasts(part, p, part.from, c);
    LoopTouches(p, part.from, c, s.messages, |s.messages|);
    LoopKeeps(p, part.from, c, s.messages, |s.messages|);
  }

  // ---------- all sessions ----------

  lemma {:induction false} BeforeFirstCommit(ss: seq<Session>, m: nat, n: nat)
    requires FirstCommit(ss, m) && n <= m
    ensures AfterSessions(ss, n).committed.None?
    ensures forall o: nat :: Dealt(AfterSessions(ss, n), o) <==> DealtEarly(ss, n, o)
  {
    if n > 0 {
      BeforeFirstCommit(ss, m, n - 1);
      ColdSession(AfterSessions(ss, n - 1), ss[n - 1]);
      forall o: nat ensures DealtEarly(ss, n, o) <==>
                            DealtEarly(ss, n - 1, o) || (o == ss[n - 1].logEnd && DealsFirst(ss[n - 1]))
      {
        if DealtEarly(ss, n - 1, o) {
          var k :| 0 <= k < n - 1 && ss[k].logEnd == o && DealsFirst(ss[k]);
          assert 0 <= k < n;
        }
      }
    }
  }

  lemma {:induction false} AfterFirstCommit(ss: seq<Session>, m: nat, n: nat)
    requires FirstCommit(ss, m) && m < n <= |ss|
    ensures var part := AfterSessions(ss, n);
            && part.committed.Some? && part.from == ss[m].logEnd < part.committed.value && PartitionOk(part)
            && forall o: nat | o < ss[m].logEnd :: Dealt(part, o) <==> DealtEarly(ss, m, o)
  {
    if n == m + 1 {
      BeforeFirstCommit(ss, m, m);
      FirstCommitSession(AfterSessions(ss, m), ss[m]);
    } else {
      AfterFirstCommit(ss, m, n - 1);
      WarmSession(AfterSessions(ss, n - 1), ss[n - 1]);
    }
  }

  // The session after k finds a message beyond the one k dealt with.
  predicate Arrived(ss: seq<Session>, k: nat)
    requires k + 1 < |ss|
  {
    ss[k + 1].logEnd > ss[k].logEnd + if DealsFirst(ss[k]) then 1 else 0
  }

  // Every session before the first commit began where the one before had come to.
  predicate NothingArrived(ss: seq<Session>, m: nat)
    requires m < |ss|
  {
    forall k | 0 <= k < m :: !Arrived(ss, k)
  }

  lemma {:induction false} CoveredIff(ss: seq<Session>, m: nat)
    requires m < |ss| && LogGrows(ss, m)
    ensures (forall o: nat | ss[0].logEnd <= o < ss[m].logEnd :: DealtEarly(ss, m, o)) <==> NothingArrived(ss, m)
  {
    if NothingArrived(ss, m) {
      forall o: nat | ss[0].logEnd <= o < ss[m].logEnd ensures DealtEarly(ss, m, o) {
        Covered(ss, m, m, o);
      }
    } else {
      var k :| 0 <= k < m && Arrived(ss, k);
      Uncovered(ss, m, k);
    }
  }

  lemma {:induction false} Covered(ss: seq<Session>, m: nat, n: nat, o: nat)
    requires m < |ss| && LogGrows(ss, m) && NothingArrived(ss, m) && n <= m && ss[0].logEnd <= o < ss[n].logEnd
    ensures DealtEarly(ss, m, o)
  {
    if n > 0 {
      if o < ss[n - 1].logEnd {
        Covered(ss, m, n - 1, o);
      } else {
        assert !Arrived(ss, n - 1);
        assert ss[n - 1].logEnd == o && DealsFirst(ss[n - 1]);
      }
    }
  }

  lemma {:induction false} Uncovered(ss: seq<Session>, m: nat, k: nat)
    requires k < m < |ss| && LogGrows(ss, m)
    requires Arrived(ss, k)
    ensures var o := ss[k].logEnd + if DealsFirst(ss[k]) then 1 else 0;
            ss[0].logEnd <= o < ss[m].logEnd && !DealtEarly(ss, m, o)
  {
    var o := ss[k].logEnd + if DealsFirst(ss[k]) then 1 else 0;
    assert k > 0 ==> ss[0].logEnd <= ss[k].logEnd;
    assert k + 1 < m ==> ss[k + 1].logEnd <= ss[m].logEnd;
    forall j | 0 <= j < m ensures !(ss[j].logEnd == o && DealsFirst(ss[j])) {
      assert j > k + 1 ==> ss[k + 1].logEnd <= ss[j].logEnd;
      assert j < k && DealsFirst(ss[j]) ==> ss[j].logEnd + 1 <= ss[k].logEnd;
    }
  }

  // Nothing the group was there for is skipped if and only if, until its first commit, no restart finds
  // a message beyond the one the session before dealt with.
  lemma {:induction false} NothingSkippedIff(ss: seq<Session>, m: nat, n: nat)
    requires FirstCommit(ss, m) && LogGrows(ss, m) && m < n <= |ss|
    ensures AfterSessions(ss, n).committed.Some?
    ensures DealtFrom(AfterSessions(ss, n), ss[0].logEnd, AfterSessions(ss, n).committed.value)
            <==> NothingArrived(ss, m)
  {
    AfterFirstCommit(ss, m, n);
    var part := AfterSessions(ss, n);
    var from, to := ss[0].logEnd, part.committed.value;
    CoveredIff(ss, m);
    assert DealtFrom(part, part.from, to);
    if forall o: nat | from <= o < ss[m].logEnd :: DealtEarly(ss, m, o) {
      forall o: nat | from <= o < to ensures Dealt(part, o) {
        assert o < ss[m].logEnd ==> DealtEarly(ss, m, o);
      }
    } else {
      var o: nat :| from <= o < ss[m].logEnd && !DealtEarly(ss, m, o);
      assert !Dealt(part, o);
    }
  }

  // The first message fails and its dead letter write raises; after the restart the second is handled.
  lemma {:induction false} FirstMessageSkipped()
    ensures var failing := Message(Event, [false, false, false], Lost, Lost);
            var handled := Message(Event, [true, true, true], Answered, Answered);
            var part := AfterSessions([Session(0, [failing]), Session(1, [handled])], 2);
            part.committed == Some(2) && !Dealt(part, 0)
  {
    var failing := Message(Event, [false, false, false], Lost, Lost);
    var handled := Message(Event, [true, true, true], Answered, Answered);
    var ss := [Session(0, [failing]), Session(1, [handled])];
    assert AfterSessions(ss, 0) == NEW_GROUP;
    var p0 := Opened(NEW_GROUP);
    assert AfterLoop(p0, 0, 0, [failing], 0) == (p0, true);
    assert AfterSessions(ss, 1) == p0;
    var p1 := Opened(p0.(length := 1));
    assert AfterLoop(p1, 1, 1, [handled], 0) == (p1, true);
    assert handled.tries[0];
  }
}
