/** Any number of concurrent Load / command / Save sessions over one payment store. */
module Sessions {
  import opened Common
  import opened Payment
  import opened EventStore

  // Load reads twice, so a session may sit between its snapshot read and its event read.
  datatype Session =
    | HalfLoaded(id: Id, from: nat, base: State)
    | Active(state: State, pending: seq<Event>)

  // streams is a history variable: what each aggregate's rows spell out.
  datatype World = World(store: Store, streams: Streams, sessions: map<Id, Session>)

  datatype Step =
    | ReadSnapshot(sid: Id, id: Id, version: Option<nat>)
    | ReadEvents(sid: Id, versions: seq<nat>)
    | Start(sid: Id, id: Id, order: Id, customer: Id, amount: int, currency: string)
    | Run(sid: Id, command: Command)
    | Save(sid: Id, call: Call)
    | Drop(sid: Id)

  // The rows of an aggregate after a version, ordered by version, as the SELECT returns them.
  ghost predicate SelectedAfter(events: map<Key, Event>, id: Id, from: nat, versions: seq<nat>) {
    && (forall i, j | 0 <= i < j < |versions| :: versions[i] < versions[j])
    && (forall v: nat :: v in versions <==> v > from && Key(id, v) in events)
  }

  function EventsAt(events: map<Key, Event>, id: Id, versions: seq<nat>): (r: seq<Event>)
    requires forall v | v in versions :: Key(id, v) in events
    ensures |r| == |versions|
  {
    seq(|versions|, i requires 0 <= i < |versions| => events[Key(id, versions[i])])
  }

  ghost function Next(w: World, step: Step): World {
    match step
    case ReadSnapshot(sid, id, None) => w.(sessions := w.sessions[sid := HalfLoaded(id, 0, ZERO)])
    case ReadSnapshot(sid, id, Some(v)) =>
      if Key(id, v) in w.store.snapshots
      then w.(sessions := w.sessions[sid := HalfLoaded(id, v, w.store.snapshots[Key(id, v)])]) else w
    case ReadEvents(sid, versions) =>
      if sid in w.sessions && w.sessions[sid].HalfLoaded?
        && SelectedAfter(w.store.events, w.sessions[sid].id, w.sessions[sid].from, versions) then
        var h := w.sessions[sid];
        var s := Replay(h.base, EventsAt(w.store.events, h.id, versions));
        if s.id == NIL then w.(sessions := w.sessions - {sid}) else w.(sessions := w.sessions[sid := Active(s, [])])
      else w
    case Start(sid, id, o, c, a, cur) =>
      (match Initiate(id, o, c, a, cur)
       case Err(_) => w
       case Ok(e) => w.(sessions := w.sessions[sid := Active(ApplyEvent(ZERO, e), [e])]))
    case Run(sid, c) =>
      if sid in w.sessions && w.sessions[sid].Active? then
        var s := w.sessions[sid];
        (match Decide(s.state, c)
         case Err(_) => w
         case Ok(e) => w.(sessions := w.sessions[sid := Active(ApplyEvent(s.state, e), s.pending + [e])]))
      else w
    case Save(sid, call) =>
      if sid in w.sessions && w.sessions[sid].Active? && |w.sessions[sid].pending| <= w.sessions[sid].state.version
      then AfterSave(w, sid, call, SaveTx(w.store, w.sessions[sid].state, w.sessions[sid].pending)) else w
    case Drop(sid) => w.(sessions := w.sessions - {sid})
  }

  // An unanswered Save committed, but its session was told of an error and keeps its events.
  ghost function AfterSave(w: World, sid: Id, call: Call, r: Result<Store>): World
    requires sid in w.sessions && w.sessions[sid].Active?
  {
    if r.Err? || call == Lost then w
    else
      var s := w.sessions[sid];
      World(r.value, Extended(w.streams, s.state.id, s.pending),
            if call == Answered then w.sessions[sid := Active(s.state, [])] else w.sessions)
  }

  ghost function RunAll(w: World, steps: seq<Step>): World {
    if |steps| == 0 then w else Next(RunAll(w, steps[..|steps| - 1]), steps[|steps| - 1])
  }

  const INITIAL := World(EMPTY, map[], map[])

  // ---------- invariant ----------

  ghost predicate SessionOk(streams: Streams, s: Session) {
    match s
    case HalfLoaded(id, from, base) =>
      from <= |StreamOf(streams, id)| && base == Replay(ZERO, StreamOf(streams, id)[..from])
    case Active(state, pending) => Tracks(streams, state, pending)
  }

  ghost predicate Grew(before: Streams, after: Streams) {
    forall id: Id :: StreamOf(before, id) <= StreamOf(after, id)
  }

  ghost predicate Inv(w: World) {
    && StoreInv(w.store, w.streams)
    && forall sid | sid in w.sessions :: SessionOk(w.streams, w.sessions[sid])
  }

  // ---------- steps ----------

  lemma {:induction false} SelectionUpTo(events: map<Key, Event>, id: Id, es: seq<Event>, from: nat,
                                         versions: seq<nat>, n: nat)
    requires RowsAreStream(events, id, es) && from <= |es| && SelectedAfter(events, id, from, versions)
    requires n <= |versions|
    ensures from + n <= |es|
    ensures forall i | 0 <= i < n :: versions[i] == from + 1 + i
  {
    if n > 0 {
      SelectionUpTo(events, id, es, from, versions, n - 1);
      assert versions[n - 1] in versions;
      assert Key(id, versions[n - 1]) in events;
      assert n > 1 ==> versions[n - 2] < versions[n - 1];
      assert from + n <= versions[n - 1] <= |es|;
      assert Key(id, from + n) in events;
      var j :| 0 <= j < |versions| && versions[j] == from + n;
    }
  }

  // Under contiguous versions the ordered SELECT is the tail of the stream.
  lemma {:induction false} SelectionIsTail(events: map<Key, Event>, id: Id, es: seq<Event>, from: nat,
                                           versions: seq<nat>)
    requires RowsAreStream(events, id, es) && from <= |es| && SelectedAfter(events, id, from, versions)
    ensures EventsAt(events, id, versions) == es[from..]
  {
    SelectionUpTo(events, id, es, from, versions, |versions|);
    if |es| > from {
      assert Key(id, |es|) in events;
      assert |es| in versions;
      var i :| 0 <= i < |versions| && versions[i] == |es|;
    }
  }

  lemma {:induction false} TracksGrow(before: Streams, after: Streams, s: State, pending: seq<Event>)
    requires Grew(before, after) && Tracks(before, s, pending)
    ensures Tracks(after, s, pending)
  {
    assert StreamOf(before, s.id) <= StreamOf(after, s.id);
    assert History(StreamOf(after, s.id), s, pending) == History(StreamOf(before, s.id), s, pending);
  }

  lemma {:induction false} SessionGrows(before: Streams, after: Streams, s: Session)
    requires Grew(before, after) && SessionOk(before, s)
    ensures SessionOk(after, s)
  {
    match s
    case HalfLoaded(id, from, base) =>
      assert StreamOf(before, id) <= StreamOf(after, id);
      assert StreamOf(after, id)[..from] == StreamOf(before, id)[..from];
    case Active(state, pending) => TracksGrow(before, after, state, pending);
  }

  lemma {:induction false} HistoryStep(h: seq<Event>, s: State, c: Command)
    requires Describes(h, s) && Decide(s, c).Ok?
    ensures Describes(h + [Decide(s, c).value], ApplyEvent(s, Decide(s, c).value))
    ensures ApplyEvent(s, Decide(s, c).value).id == s.id
  {
    LegalState(s.id, h);
    CommandsAreLifecycle(s.id, h, c);
    var e := Decide(s, c).value;
    assert (h + [e])[..|h + [e]| - 1] == h;
  }

  lemma {:induction false} HistoryExtends(stream: seq<Event>, s: State, pending: seq<Event>, e: Event, s': State)
    requires |pending| <= s.version && s.version - |pending| <= |stream| && s'.version == s.version + 1
    ensures History(stream, s', pending + [e]) == History(stream, s, pending) + [e]
  {
  }

  lemma {:induction false} CommandTracks(streams: Streams, s: State, pending: seq<Event>, c: Command)
    requires Tracks(streams, s, pending) && Decide(s, c).Ok?
    ensures Tracks(streams, ApplyEvent(s, Decide(s, c).value), pending + [Decide(s, c).value])
  {
    var e := Decide(s, c).value;
    var stream := StreamOf(streams, s.id);
    HistoryStep(History(stream, s, pending), s, c);
    assert ApplyEvent(s, e).version == s.version + 1;
    HistoryExtends(stream, s, pending, e, ApplyEvent(s, e));
  }

  lemma {:induction false} StartTracks(streams: Streams, id: Id, o: Id, c: Id, a: int, cur: string)
    requires Initiate(id, o, c, a, cur).Ok?
    ensures Tracks(streams, ApplyEvent(ZERO, Initiate(id, o, c, a, cur).value), [Initiate(id, o, c, a, cur).value])
  {
    var e := Initiate(id, o, c, a, cur).value;
    assert [e][..0] == [];
    assert Describes([e], ApplyEvent(ZERO, e));
    assert History(StreamOf(streams, id), ApplyEvent(ZERO, e), [e]) == [e];
  }

  // What a full load yields: the aggregate exactly as its whole stream describes it.
  lemma {:induction false} LoadTracks(t: Store, streams: Streams, id: Id, from: nat, versions: seq<nat>)
    requires StoreInv(t, streams) && from <= |StreamOf(streams, id)|
    requires SelectedAfter(t.events, id, from, versions)
    ensures var s := Replay(Replay(ZERO, StreamOf(streams, id)[..from]), EventsAt(t.events, id, versions));
            && s == Replay(ZERO, StreamOf(streams, id))
            && (s.id != NIL ==> Tracks(streams, s, []))
  {
    var es := StreamOf(streams, id);
    assert RowsAreStream(t.events, id, es);
    SelectionIsTail(t.events, id, es, from, versions);
    SnapshotPlusTail(es, es, from);
    if id in streams {
      LegalState(id, es);
      assert History(es, Replay(ZERO, es), []) == es;
    }
  }

  lemma {:induction false} SavedHistory(stream: seq<Event>, s: State, pending: seq<Event>)
    requires |pending| <= s.version && s.version - |pending| == |stream|
    ensures History(stream + pending, s, []) == History(stream, s, pending)
  {
    assert stream[..|stream|] == stream;
    assert (stream + pending)[..s.version] == stream + pending;
  }

  lemma {:induction false} SavedTracks(streams: Streams, s: State, pending: seq<Event>)
    requires Tracks(streams, s, pending) && s.version - |pending| == |StreamOf(streams, s.id)|
    ensures Tracks(Extended(streams, s.id, pending), s, [])
  {
    var es := StreamOf(streams, s.id);
    assert StreamOf(Extended(streams, s.id, pending), s.id) == es + pending;
    SavedHistory(es, s, pending);
  }

  lemma {:induction false} PutSession(w: World, sid: Id, s: Session)
    requires Inv(w) && SessionOk(w.streams, s)
    ensures Inv(w.(sessions := w.sessions[sid := s]))
  {
  }

  lemma {:induction false} SessionsGrow(before: Streams, after: Streams, sessions: map<Id, Session>)
    requires Grew(before, after) && forall x | x in sessions :: SessionOk(before, sessions[x])
    ensures forall x | x in sessions :: SessionOk(after, sessions[x])
  {
    forall x | x in sessions ensures SessionOk(after, sessions[x]) {
      SessionGrows(before, after, sessions[x]);
    }
  }

  lemma {:induction false} ExtendedGrew(streams: Streams, id: Id, pending: seq<Event>)
    ensures Grew(streams, Extended(streams, id, pending))
  {
  }

  lemma {:induction false} StreamsGrow(w: World, id: Id, pending: seq<Event>, t': Store)
    requires Inv(w) && StoreInv(t', Extended(w.streams, id, pending))
             && Grew(w.streams, Extended(w.streams, id, pending))
    ensures Inv(World(t', Extended(w.streams, id, pending), w.sessions))
  {
    SessionsGrow(w.streams, Extended(w.streams, id, pending), w.sessions);
  }

  // A winning Save keeps the invariant whether or not its session heard of it.
  lemma {:induction false} SaveCommits(w: World, sid: Id, t': Store)
    requires Inv(w) && sid in w.sessions && w.sessions[sid].Active?
    requires var s := w.sessions[sid];
             && s.state.version - |s.pending| == |StreamOf(w.streams, s.state.id)|
             && StoreInv(t', Extended(w.streams, s.state.id, s.pending))
    ensures var s := w.sessions[sid];
            var w' := World(t', Extended(w.streams, s.state.id, s.pending), w.sessions);
            Inv(w') && Inv(w'.(sessions := w.sessions[sid := Active(s.state, [])]))
  {
    var s := w.sessions[sid];
    assert SessionOk(w.streams, s);
    ExtendedGrew(w.streams, s.state.id, s.pending);
    StreamsGrow(w, s.state.id, s.pending, t');
    SavedTracks(w.streams, s.state, s.pending);
    PutSession(World(t', Extended(w.streams, s.state.id, s.pending), w.sessions), sid, Active(s.state, []));
  }

  lemma {:induction false} NextSave(w: World, sid: Id, call: Call)
    requires sid in w.sessions && w.sessions[sid].Active? && |w.sessions[sid].pending| <= w.sessions[sid].state.version
    ensures Next(w, Save(sid, call)) ==
            AfterSave(w, sid, call, SaveTx(w.store, w.sessions[sid].state, w.sessions[sid].pending))
  {
  }

  lemma {:induction false} EmptySaveKeeps(w: World, sid: Id, call: Call)
    requires Inv(w) && sid in w.sessions && w.sessions[sid].Active? && w.sessions[sid].pending == []
    ensures Inv(AfterSave(w, sid, call, Ok(w.store)))
  {
    assert SessionOk(w.streams, w.sessions[sid]);
    PutSession(w, sid, Active(w.sessions[sid].state, []));
  }

  lemma {:induction false} WinningSaveKeeps(w: World, sid: Id, call: Call, t': Store)
    requires Inv(w) && sid in w.sessions && w.sessions[sid].Active?
    requires var s := w.sessions[sid];
             && s.state.version - |s.pending| == |StreamOf(w.streams, s.state.id)|
             && StoreInv(t', Extended(w.streams, s.state.id, s.pending))
    ensures Inv(AfterSave(w, sid, call, Ok(t')))
  {
    AfterSaveIs(w, sid, call, t');
    SaveCommits(w, sid, t');
  }

  lemma {:induction false} AfterSaveIs(w: World, sid: Id, call: Call, t': Store)
    requires sid in w.sessions && w.sessions[sid].Active?
    ensures var s := w.sessions[sid];
            var w' := World(t', Extended(w.streams, s.state.id, s.pending), w.sessions);
            AfterSave(w, sid, call, Ok(t')) ==
            match call
            case Answered => w'.(sessions := w.sessions[sid := Active(s.state, [])])
            case Unanswered => w'
            case Lost => w
  {
  }

  lemma {:induction false} SaveStepKeeps(w: World, sid: Id, call: Call)
    requires Inv(w)
    ensures Inv(Next(w, Save(sid, call)))
  {
    if sid in w.sessions && w.sessions[sid].Active? {
      var s := w.sessions[sid];
      assert SessionOk(w.streams, s);
      NextSave(w, sid, call);
      if |s.pending| == 0 {
        EmptySaveKeeps(w, sid, call);
      } else {
        SaveExact(w.store, w.streams, s.state, s.pending);
        if SaveTx(w.store, s.state, s.pending).Ok? {
          SaveKeeps(w.store, w.streams, s.state, s.pending);
          WinningSaveKeeps(w, sid, call, SaveTx(w.store, s.state, s.pending).value);
        }
      }
    }
  }

  lemma {:induction false} ReadEventsKeeps(w: World, sid: Id, versions: seq<nat>)
    requires Inv(w)
    ensures Inv(Next(w, ReadEvents(sid, versions)))
  {
    if sid in w.sessions && w.sessions[sid].HalfLoaded?
      && SelectedAfter(w.store.events, w.sessions[sid].id, w.sessions[sid].from, versions) {
      var h := w.sessions[sid];
      assert SessionOk(w.streams, h);
      LoadTracks(w.store, w.streams, h.id, h.from, versions);
      var s := Replay(h.base, EventsAt(w.store.events, h.id, versions));
      if s.id == NIL {
        DropKeeps(w, sid);
      } else {
        PutSession(w, sid, Active(s, []));
      }
    }
  }

  lemma {:induction false} CommandStepKeeps(w: World, sid: Id, c: Command)
    requires Inv(w)
    ensures Inv(Next(w, Run(sid, c)))
  {
    if sid in w.sessions && w.sessions[sid].Active? && Decide(w.sessions[sid].state, c).Ok? {
      var s, e := w.sessions[sid], Decide(w.sessions[sid].state, c).value;
      assert SessionOk(w.streams, s);
      CommandTracks(w.streams, s.state, s.pending, c);
      PutSession(w, sid, Active(ApplyEvent(s.state, e), s.pending + [e]));
    }
  }

  lemma {:induction false} ReadSnapshotKeeps(w: World, sid: Id, id: Id, at: Option<nat>)
    requires Inv(w)
    ensures Inv(Next(w, ReadSnapshot(sid, id, at)))
  {
    match at
    case None =>
      assert StreamOf(w.streams, id)[..0] == [];
      PutSession(w, sid, HalfLoaded(id, 0, ZERO));
    case Some(v) =>
      if Key(id, v) in w.store.snapshots {
        PutSession(w, sid, HalfLoaded(id, v, w.store.snapshots[Key(id, v)]));
      }
  }

  lemma {:induction false} StartKeeps(w: World, sid: Id, id: Id, o: Id, c: Id, a: int, cur: string)
    requires Inv(w)
    ensures Inv(Next(w, Start(sid, id, o, c, a, cur)))
  {
    if Initiate(id, o, c, a, cur).Ok? {
      var e := Initiate(id, o, c, a, cur).value;
      StartTracks(w.streams, id, o, c, a, cur);
      PutSession(w, sid, Active(ApplyEvent(ZERO, e), [e]));
    }
  }

  lemma {:induction false} DropKeeps(w: World, sid: Id)
    requires Inv(w)
    ensures Inv(Next(w, Drop(sid)))
  {
  }

  lemma {:induction false} StepKeeps(w: World, step: Step)
    requires Inv(w)
    ensures Inv(Next(w, step))
  {
    match step
    case ReadSnapshot(sid, id, at) => ReadSnapshotKeeps(w, sid, id, at);
    case ReadEvents(sid, versions) => ReadEventsKeeps(w, sid, versions);
    case Start(sid, id, o, c, a, cur) => StartKeeps(w, sid, id, o, c, a, cur);
    case Run(sid, c) => CommandStepKeeps(w, sid, c);
    case Save(sid, call) => SaveStepKeeps(w, sid, call);
    case Drop(sid) => DropKeeps(w, sid);
  }

  lemma {:induction false} StepGrows(w: World, step: Step)
    ensures Grew(w.streams, Next(w, step).streams)
  {
    if step.Save? {
      SaveGrows(w, step.sid, step.call);
    } else {
      OthersKeepStreams(w, step);
    }
  }

  lemma {:induction false} OthersKeepStreams(w: World, step: Step)
    requires !step.Save?
    ensures Next(w, step).streams == w.streams
  {
  }

  lemma {:induction false} SaveGrows(w: World, sid: Id, call: Call)
    ensures Grew(w.streams, Next(w, Save(sid, call)).streams)
  {
    if sid in w.sessions && w.sessions[sid].Active? && |w.sessions[sid].pending| <= w.sessions[sid].state.version {
      NextSave(w, sid, call);
      ExtendedGrew(w.streams, w.sessions[sid].state.id, w.sessions[sid].pending);
    }
  }

  // ---------- theorems over every run ----------

  // Under any interleaving every stored stream has versions 1..n, is a legal lifecycle of at most
  // three events, and the read model row tells it.
  lemma {:induction false} EveryRunIsSafe(steps: seq<Step>)
    ensures Inv(RunAll(INITIAL, steps))
    ensures var w := RunAll(INITIAL, steps);
            forall id | id in w.streams ::
              Legal(id, w.streams[id]) && id in w.store.status && Tells(w.store.status[id], w.streams[id])
  {
    if |steps| > 0 {
      EveryRunIsSafe(steps[..|steps| - 1]);
      StepKeeps(RunAll(INITIAL, steps[..|steps| - 1]), steps[|steps| - 1]);
    } else {
      assert forall id: Id :: StreamOf(map[], id) == [];
    }
    var w := RunAll(INITIAL, steps);
    forall id | id in w.streams
      ensures Legal(id, w.streams[id]) && id in w.store.status && Tells(w.store.status[id], w.streams[id])
    {
      RowsTellStreams(w.store, w.streams, id);
    }
  }

  lemma {:induction false} GrewOn(a: Streams, b: Streams, c: Streams)
    requires Grew(a, b) && Grew(b, c)
    ensures Grew(a, c)
  {
    forall id: Id ensures StreamOf(a, id) <= StreamOf(c, id) {
      assert StreamOf(a, id) <= StreamOf(b, id) && StreamOf(b, id) <= StreamOf(c, id);
    }
  }

  // Nothing stored is ever rewritten: later in a run each stream extends what it was.
  lemma {:induction false} NeverRewritten(steps: seq<Step>, n: nat)
    requires n <= |steps|
    ensures Grew(RunAll(INITIAL, steps[..n]).streams, RunAll(INITIAL, steps).streams)
    decreases |steps|
  {
    if n < |steps| {
      var front := steps[..|steps| - 1];
      NeverRewritten(front, n);
      assert front[..n] == steps[..n];
      EveryRunIsSafe(front);
      StepGrows(RunAll(INITIAL, front), steps[|steps| - 1]);
      GrewOn(RunAll(INITIAL, steps[..n]).streams, RunAll(INITIAL, front).streams, RunAll(INITIAL, steps).streams);
    } else {
      assert steps[..n] == steps;
    }
  }

  // A session commits iff its Save gets through and nobody advanced its aggregate since it loaded;
  // otherwise nothing changes. Only a session that hears of its success drops its pending events.
  lemma {:induction false} SaveWinsIff(w: World, sid: Id, call: Call)
    requires Inv(w) && sid in w.sessions && w.sessions[sid].Active? && |w.sessions[sid].pending| > 0
    ensures var s := w.sessions[sid];
            var stream := StreamOf(w.streams, s.state.id);
            if call != Lost && s.state.version - |s.pending| == |stream| then
              && StreamOf(Next(w, Save(sid, call)).streams, s.state.id) == stream + s.pending
              && sid in Next(w, Save(sid, call)).sessions
              && Next(w, Save(sid, call)).sessions[sid] ==
                 (if call == Answered then Active(s.state, []) else w.sessions[sid])
            else Next(w, Save(sid, call)) == w
  {
    var s := w.sessions[sid];
    assert SessionOk(w.streams, s);
    SaveExact(w.store, w.streams, s.state, s.pending);
    var r := SaveTx(w.store, s.state, s.pending);
    NextSave(w, sid, call);
    AfterSaveStreams(w, sid, call, r);
  }

  lemma {:induction false} AfterSaveStreams(w: World, sid: Id, call: Call, r: Result<Store>)
    requires sid in w.sessions && w.sessions[sid].Active? && |w.sessions[sid].pending| > 0
    ensures r.Err? || call == Lost ==> AfterSave(w, sid, call, r) == w
    ensures var s := w.sessions[sid];
            r.Ok? && call != Lost ==>
              && StreamOf(AfterSave(w, sid, call, r).streams, s.state.id) ==
                 StreamOf(w.streams, s.state.id) + s.pending
              && AfterSave(w, sid, call, r).sessions ==
                 w.sessions[sid := if call == Answered then Active(s.state, []) else w.sessions[sid]]
  {
    assert w.sessions[sid := w.sessions[sid]] == w.sessions;
  }

  // The lifecycle ends before the snapshot threshold: no run ever stores a snapshot.
  lemma {:induction false} NoSnapshotIsEverStored(steps: seq<Step>)
    ensures RunAll(INITIAL, steps).store.snapshots == map[]
  {
    if |steps| > 0 {
      var w, step := RunAll(INITIAL, steps[..|steps| - 1]), steps[|steps| - 1];
      NoSnapshotIsEverStored(steps[..|steps| - 1]);
      EveryRunIsSafe(steps[..|steps| - 1]);
      if step.Save? && step.sid in w.sessions && w.sessions[step.sid].Active? {
        var s := w.sessions[step.sid];
        assert SessionOk(w.streams, s);
        NoSnapshotDue(w.streams, s.state, s.pending);
      }
    }
  }
}
