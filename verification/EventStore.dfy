/** The payment tables and what one Save transaction does to them. */
module EventStore {
  import opened Common
  import opened Payment

  // The unique index (aggregate_id, event_version) makes this pair a key.
  datatype Key = Key(id: Id, version: nat)

  datatype StatusRow = StatusRow(
    customer: Id, order: Id, amount: int, currency: string, status: Status,
    transaction: Option<string>, completed: bool, version: nat)

  datatype PayEventKind = EvInitiated | EvProcessed | EvFailed | EvRefunded | EvCancelled

  // An outbox row of the payments topic; detail is the transaction id or the reason.
  datatype PayMessage = PayMessage(
    kind: PayEventKind, payment: Id, order: Id, customer: Id, amount: int, currency: string, status: Status,
        detail: string)

  datatype Store = Store(
    events: map<Key, Event>, snapshots: map<Key, State>, status: map<Id, StatusRow>, outbox: seq<PayMessage>)

  const EMPTY := Store(map[], map[], map[], [])
  const SNAPSHOT_THRESHOLD := 10

  // ---------- the Save transaction ----------

  // The table after the first n events were inserted as consecutive versions, or the collision.
  function AppendUpTo(events: map<Key, Event>, id: Id, expected: nat, es: seq<Event>, n: nat): Result<map<Key, Event>>
    requires n <= |es|
  {
    if n == 0 then Ok(events)
    else
      var t :- AppendUpTo(events, id, expected, es, n - 1);
      if Key(id, expected + n) in t then Err(Conflict) else Ok(t[Key(id, expected + n) := es[n - 1]])
  }

  function TransactionOf(e: Event): Option<string> {
    if e.PaymentProcessed? then Some(e.transaction) else None
  }

  // The upsert of one event, taking the aggregate's fields from its state after all of them.
  function Upsert(row: Option<StatusRow>, s: State, e: Event): StatusRow {
    var tx := TransactionOf(e);
    match row
    case None => StatusRow(s.customer, s.order, s.amount, s.currency, s.status, tx, tx.Some?, s.version)
    case Some(r) =>
      r.(status := s.status, version := s.version,
         transaction := if tx.Some? then tx else r.transaction, completed := tx.Some? || r.completed)
  }

  function ProjectUpTo(row: Option<StatusRow>, s: State, es: seq<Event>, n: nat): (r: Option<StatusRow>)
    requires n <= |es|
    ensures n > 0 ==> r.Some?
  {
    if n == 0 then row else Some(Upsert(ProjectUpTo(row, s, es, n - 1), s, es[n - 1]))
  }

  function MessageOf(s: State, e: Event): PayMessage {
    var (kind, detail) := match e
      case PaymentInitiated(_, _, _, _, _) => (EvInitiated, "")
      case PaymentProcessed(_, tx) => (EvProcessed, tx)
      case PaymentDeclined(_, r) => (EvFailed, r)
      case PaymentRefunded(_, _, r) => (EvRefunded, r)
      case PaymentWithdrawn(_, r) => (EvCancelled, r);
    PayMessage(kind, s.id, s.order, s.customer, s.amount, s.currency, s.status, detail)
  }

  function MessagesUpTo(s: State, es: seq<Event>, n: nat): (r: seq<PayMessage>)
    requires n <= |es|
    ensures |r| == n
  {
    if n == 0 then [] else MessagesUpTo(s, es, n - 1) + [MessageOf(s, es[n - 1])]
  }

  function StatusOf(t: Store, id: Id): Option<StatusRow> {
    if id in t.status then Some(t.status[id]) else None
  }

  // Save in one transaction: append, project, enqueue, and a snapshot every threshold versions.
  function SaveTx(t: Store, s: State, pending: seq<Event>): Result<Store>
    requires |pending| <= s.version
  {
    if |pending| == 0 then Ok(t)
    else
      var events :- AppendUpTo(t.events, s.id, s.version - |pending|, pending, |pending|);
      var row := ProjectUpTo(StatusOf(t, s.id), s, pending, |pending|).value;
      var t' := Store(events, t.snapshots, t.status[s.id := row], t.outbox + MessagesUpTo(s, pending, |pending|));
      if s.version % SNAPSHOT_THRESHOLD != 0 then Ok(t')
      else if Key(s.id, s.version) in t.snapshots then Err(Constraint)
      else Ok(t'.(snapshots := t'.snapshots[Key(s.id, s.version) := s]))
  }

  // ---------- what the tables mean ----------

  type Streams = map<Id, seq<Event>>

  // The rows of an aggregate are exactly versions 1..n of its stream.
  ghost predicate RowsAreStream(events: map<Key, Event>, id: Id, es: seq<Event>) {
    && (forall v: nat :: Key(id, v) in events <==> 1 <= v <= |es|)
    && (forall v: nat | 1 <= v <= |es| :: events[Key(id, v)] == es[v - 1])
  }

  function StreamOf(streams: Streams, id: Id): seq<Event> {
    if id in streams then streams[id] else []
  }

  function Extended(streams: Streams, id: Id, pending: seq<Event>): Streams {
    if |pending| == 0 then streams else streams[id := StreamOf(streams, id) + pending]
  }

  // The last transaction id a stream recorded.
  function LastTransaction(es: seq<Event>): Option<string> {
    if |es| == 0 then None
    else if TransactionOf(es[|es| - 1]).Some? then TransactionOf(es[|es| - 1])
    else LastTransaction(es[..|es| - 1])
  }

  // The read model row a stream folds into.
  function RowOf(es: seq<Event>): StatusRow {
    var s := Replay(ZERO, es);
    StatusRow(s.customer, s.order, s.amount, s.currency, s.status, LastTransaction(es), LastTransaction(es).Some?,
        s.version)
  }

  ghost predicate EventsOk(t: Store, streams: Streams) {
    forall id: Id :: RowsAreStream(t.events, id, StreamOf(streams, id))
  }

  ghost predicate StreamsLegal(streams: Streams) {
    forall id | id in streams :: Legal(id, streams[id])
  }

  ghost predicate StatusOk(t: Store, streams: Streams) {
    && t.status.Keys == streams.Keys
    && forall id | id in streams :: t.status[id] == RowOf(streams[id])
  }

  ghost predicate SnapshotsOk(t: Store, streams: Streams) {
    forall k | k in t.snapshots ::
      k.id in streams && k.version <= |streams[k.id]| && t.snapshots[k] == Replay(ZERO, streams[k.id][..k.version])
  }

  ghost predicate StoreInv(t: Store, streams: Streams) {
    EventsOk(t, streams) && StreamsLegal(streams) && StatusOk(t, streams) && SnapshotsOk(t, streams)
  }

  ghost predicate Describes(h: seq<Event>, s: State) {
    Legal(s.id, h) && s == Replay(ZERO, h)
  }

  // The history an aggregate in memory stands for: the stored events it was loaded from, then its
  // pending ones.
  function History(stream: seq<Event>, s: State, pending: seq<Event>): seq<Event>
    requires |pending| <= s.version && s.version - |pending| <= |stream|
  {
    stream[..s.version - |pending|] + pending
  }

  ghost predicate Tracks(streams: Streams, s: State, pending: seq<Event>) {
    && |pending| <= s.version
    && s.version - |pending| <= |StreamOf(streams, s.id)|
    && Describes(History(StreamOf(streams, s.id), s, pending), s)
  }

  // ---------- laws of the pieces ----------

  ghost predicate OthersUntouched(events: map<Key, Event>, events': map<Key, Event>, id: Id) {
    forall k: Key | k.id != id :: (k in events' <==> k in events) && (k in events ==> events'[k] == events[k])
  }

  lemma {:induction false} OtherStreamsKept(events: map<Key, Event>, events': map<Key, Event>, id: Id, other: Id,
                                            es: seq<Event>)
    requires OthersUntouched(events, events', id) && other != id && RowsAreStream(events, other, es)
    ensures RowsAreStream(events', other, es)
  {
    forall v: nat ensures Key(other, v) in events' <==> 1 <= v <= |es| {
      assert Key(other, v) in events' <==> Key(other, v) in events;
    }
    forall v: nat | 1 <= v <= |es| ensures events'[Key(other, v)] == es[v - 1] {
      assert Key(other, v) in events;
    }
  }

  // Appending wins exactly when nobody else appended since the aggregate was loaded.
  lemma {:induction false} AppendExact(events: map<Key, Event>, id: Id, stream: seq<Event>, base: nat,
                                       es: seq<Event>, n: nat)
    requires n <= |es| && base <= |stream|
    requires RowsAreStream(events, id, stream)
    ensures n > 0 && base < |stream| ==> AppendUpTo(events, id, base, es, n) == Err(Conflict)
    ensures base == |stream| ==>
              && AppendUpTo(events, id, base, es, n).Ok?
              && RowsAreStream(AppendUpTo(events, id, base, es, n).value, id, stream + es[..n])
              && OthersUntouched(events, AppendUpTo(events, id, base, es, n).value, id)
  {
    if n == 0 {
      assert stream + es[..0] == stream;
    } else {
      AppendExact(events, id, stream, base, es, n - 1);
      if base == |stream| {
        assert stream + es[..n] == (stream + es[..n - 1]) + [es[n - 1]];
      } else if n == 1 {
        assert Key(id, base + 1) in events;
      }
    }
  }

  lemma {:induction false} LastTransactionAppend(a: seq<Event>, b: seq<Event>)
    ensures LastTransaction(a + b) == if LastTransaction(b).Some? then LastTransaction(b) else LastTransaction(a)
  {
    if |b| == 0 {
      assert a + b == a;
    } else {
      LastTransactionAppend(a, b[..|b| - 1]);
      assert (a + b)[..|a + b| - 1] == a + b[..|b| - 1];
    }
  }

  // The upserts of one Save leave the fold of the whole stream.
  lemma {:induction false} ProjectExact(row: Option<StatusRow>, s: State, es: seq<Event>, n: nat)
    requires 0 < n <= |es|
    ensures var r := ProjectUpTo(row, s, es, n).value;
            var tx := LastTransaction(es[..n]);
            && r.status == s.status && r.version == s.version
            && r.transaction == (if tx.Some? then tx else if row.Some? then row.value.transaction else None)
            && r.completed == (tx.Some? || (row.Some? && row.value.completed))
            && (row.Some? ==> r.customer == row.value.customer && r.order == row.value.order
                              && r.amount == row.value.amount && r.currency == row.value.currency)
            && (row.None? ==>
                  r.customer == s.customer && r.order == s.order && r.amount == s.amount && r.currency == s.currency)
  {
    assert es[..n][..n - 1] == es[..n - 1];
    if n > 1 {
      ProjectExact(row, s, es, n - 1);
    } else {
      assert es[..0] == [];
    }
  }

  // What never changes about a payment.
  predicate SameTerms(a: State, b: State) {
    a.order == b.order && a.customer == b.customer && a.amount == b.amount && a.currency == b.currency
  }

  // The identity and amount of a legal stream are fixed by its first event.
  lemma {:induction false} LegalPrefixFields(id: Id, es: seq<Event>, k: nat)
    requires Legal(id, es) && 1 <= k <= |es|
    ensures Legal(id, es[..k])
    ensures var a, b := Replay(ZERO, es[..k]), Replay(ZERO, es);
            a.id == b.id == id && SameTerms(a, b)
  {
    LegalState(id, es);
    LegalState(id, es[..k]);
  }

  // ---------- Save ----------

  lemma {:induction false} NoSnapshotDue(streams: Streams, s: State, pending: seq<Event>)
    requires Tracks(streams, s, pending)
    ensures 1 <= s.version <= 3 && s.version % SNAPSHOT_THRESHOLD != 0
  {
    LegalState(s.id, History(StreamOf(streams, s.id), s, pending));
  }

  lemma {:induction false} SaveKeepsEvents(t: Store, streams: Streams, s: State, pending: seq<Event>)
    requires EventsOk(t, streams)
    requires 0 < |pending| <= s.version && s.version % SNAPSHOT_THRESHOLD != 0
    requires s.version - |pending| == |StreamOf(streams, s.id)|
    ensures SaveTx(t, s, pending).Ok?
    ensures EventsOk(SaveTx(t, s, pending).value, streams[s.id := StreamOf(streams, s.id) + pending])
  {
    var stream := StreamOf(streams, s.id);
    assert RowsAreStream(t.events, s.id, stream);
    AppendExact(t.events, s.id, stream, |stream|, pending, |pending|);
    assert pending[..|pending|] == pending;
    var events', streams' := AppendUpTo(t.events, s.id, |stream|, pending, |pending|).value,
        streams[s.id := stream + pending];
    forall id: Id ensures RowsAreStream(events', id, StreamOf(streams', id)) {
      if id != s.id {
        assert RowsAreStream(t.events, id, StreamOf(streams, id));
        OtherStreamsKept(t.events, events', s.id, id, StreamOf(streams, id));
      }
    }
  }

  lemma {:induction false} SaveKeepsSnapshots(t: Store, streams: Streams, s: State, pending: seq<Event>)
    requires SnapshotsOk(t, streams)
    requires 0 < |pending| <= s.version && s.version % SNAPSHOT_THRESHOLD != 0
    requires SaveTx(t, s, pending).Ok?
    ensures SnapshotsOk(SaveTx(t, s, pending).value, streams[s.id := StreamOf(streams, s.id) + pending])
  {
    var t', streams' := SaveTx(t, s, pending).value, streams[s.id := StreamOf(streams, s.id) + pending];
    forall k | k in t'.snapshots
      ensures k.id in streams' && k.version <= |streams'[k.id]|
              && t'.snapshots[k] == Replay(ZERO, streams'[k.id][..k.version])
    {
      assert streams'[k.id][..k.version] == streams[k.id][..k.version];
    }
  }

  lemma {:induction false} WholeHistory(streams: Streams, s: State, pending: seq<Event>)
    requires Tracks(streams, s, pending) && s.version - |pending| == |StreamOf(streams, s.id)|
    ensures Describes(StreamOf(streams, s.id) + pending, s)
  {
    var stream := StreamOf(streams, s.id);
    assert stream[..|stream|] == stream;
  }

  lemma {:induction false} ProjectsOver(row: Option<StatusRow>, stream: seq<Event>, s: State, pending: seq<Event>)
    requires |pending| > 0 && s == Replay(ZERO, stream + pending)
    requires row == if stream == [] then None else Some(RowOf(stream))
    requires stream != [] ==> SameTerms(Replay(ZERO, stream), s)
    ensures ProjectUpTo(row, s, pending, |pending|) == Some(RowOf(stream + pending))
  {
    ProjectExact(row, s, pending, |pending|);
    assert pending[..|pending|] == pending;
    LastTransactionAppend(stream, pending);
  }

  // The upserts of a Save leave the row its whole stream describes.
  lemma {:induction false} ProjectsRow(t: Store, streams: Streams, s: State, pending: seq<Event>)
    requires StatusOk(t, streams) && StreamsLegal(streams) && Tracks(streams, s, pending) && |pending| > 0
    requires s.version - |pending| == |StreamOf(streams, s.id)|
    ensures ProjectUpTo(StatusOf(t, s.id), s, pending, |pending|) == Some(RowOf(StreamOf(streams, s.id) + pending))
  {
    var stream := StreamOf(streams, s.id);
    WholeHistory(streams, s, pending);
    if s.id in streams {
      assert (stream + pending)[..|stream|] == stream;
      LegalPrefixFields(s.id, stream + pending, |stream|);
    }
    ProjectsOver(StatusOf(t, s.id), stream, s, pending);
  }

  lemma {:induction false} SavedStatus(t: Store, s: State, pending: seq<Event>)
    requires 0 < |pending| <= s.version && SaveTx(t, s, pending).Ok?
    ensures var row := ProjectUpTo(StatusOf(t, s.id), s, pending, |pending|);
            row.Some? && SaveTx(t, s, pending).value.status == t.status[s.id := row.value]
  {
  }

  lemma {:induction false} StatusPut(t: Store, t': Store, streams: Streams, id: Id, es: seq<Event>)
    requires StatusOk(t, streams) && t'.status == t.status[id := RowOf(es)]
    ensures StatusOk(t', streams[id := es])
  {
  }

  lemma {:induction false} SaveKeepsStatus(t: Store, streams: Streams, s: State, pending: seq<Event>)
    requires StoreInv(t, streams) && Tracks(streams, s, pending) && |pending| > 0
    requires s.version - |pending| == |StreamOf(streams, s.id)|
    requires SaveTx(t, s, pending).Ok?
    ensures StatusOk(SaveTx(t, s, pending).value, streams[s.id := StreamOf(streams, s.id) + pending])
  {
    ProjectsRow(t, streams, s, pending);
    SavedStatus(t, s, pending);
    StatusPut(t, SaveTx(t, s, pending).value, streams, s.id, StreamOf(streams, s.id) + pending);
  }

  lemma {:induction false} SaveConflicts(t: Store, streams: Streams, s: State, pending: seq<Event>)
    requires EventsOk(t, streams)
    requires 0 < |pending| <= s.version && s.version - |pending| < |StreamOf(streams, s.id)|
    ensures SaveTx(t, s, pending) == Err(Conflict)
  {
    var stream := StreamOf(streams, s.id);
    assert RowsAreStream(t.events, s.id, stream);
    AppendExact(t.events, s.id, stream, s.version - |pending|, pending, |pending|);
  }

  lemma {:induction false} SaveKeepsLegal(streams: Streams, s: State, pending: seq<Event>)
    requires StreamsLegal(streams) && Tracks(streams, s, pending)
    requires s.version - |pending| == |StreamOf(streams, s.id)|
    ensures StreamsLegal(streams[s.id := StreamOf(streams, s.id) + pending])
  {
    var stream := StreamOf(streams, s.id);
    assert stream[..|stream|] == stream;
  }

  // A winning Save appends exactly the pending events, announces exactly them, and keeps the read
  // model equal to the fold of the stream.
  lemma {:induction false} SaveKeeps(t: Store, streams: Streams, s: State, pending: seq<Event>)
    requires StoreInv(t, streams) && Tracks(streams, s, pending) && |pending| > 0
    requires s.version - |pending| == |StreamOf(streams, s.id)|
    ensures SaveTx(t, s, pending).Ok?
    ensures SaveTx(t, s, pending).value.outbox == t.outbox + MessagesUpTo(s, pending, |pending|)
    ensures StoreInv(SaveTx(t, s, pending).value, streams[s.id := StreamOf(streams, s.id) + pending])
  {
    NoSnapshotDue(streams, s, pending);
    SaveKeepsLegal(streams, s, pending);
    SaveKeepsEvents(t, streams, s, pending);
    SaveKeepsStatus(t, streams, s, pending);
    SaveKeepsSnapshots(t, streams, s, pending);
  }

  // ---------- the read model and the outbox, told from the stream ----------

  // The row says what the stream says: the terms its first event fixed, the status of its last one, and
  // the transaction of the processed event, if there is one.
  predicate Tells(row: StatusRow, es: seq<Event>)
    requires 1 <= |es| <= 3 && es[0].PaymentInitiated?
  {
    && row.order == es[0].order && row.customer == es[0].customer
    && row.amount == es[0].amount && row.currency == es[0].currency
    && row.version == |es|
    && row.transaction == (if |es| >= 2 && es[1].PaymentProcessed? then Some(es[1].transaction) else None)
    && row.completed == (|es| >= 2 && es[1].PaymentProcessed?)
    && row.status == StatusAfter(es)
  }

  // The status a legal stream ends in.
  function StatusAfter(es: seq<Event>): Payment.Status
    requires |es| > 0
  {
    match es[|es| - 1]
    case PaymentInitiated(_, _, _, _, _) => Initiated
    case PaymentProcessed(_, _) => Completed
    case PaymentDeclined(_, _) => Declined
    case PaymentRefunded(_, _, _) => Refunded
    case PaymentWithdrawn(_, _) => Withdrawn
  }

  lemma {:induction false} TransactionIs(id: Id, es: seq<Event>)
    requires Legal(id, es)
    ensures LastTransaction(es) == if |es| >= 2 && es[1].PaymentProcessed? then Some(es[1].transaction) else None
  {
    var one, two := es[..1], if |es| >= 2 then es[..2] else [];
    assert LastTransaction(one) == None && (|es| == 1 ==> one == es);
    if |es| >= 2 {
      assert two[..1] == one && two[1] == es[1];
      assert LastTransaction(two) == if es[1].PaymentProcessed? then Some(es[1].transaction) else None;
      assert if |es| == 2 then two == es else es[..|es| - 1] == two;
    }
  }

  lemma {:induction false} LegalRow(id: Id, es: seq<Event>)
    requires Legal(id, es)
    ensures Tells(RowOf(es), es)
  {
    LegalState(id, es);
    TransactionIs(id, es);
  }

  // Every row of the read model tells its stream.
  lemma {:induction false} RowsTellStreams(t: Store, streams: Streams, id: Id)
    requires StoreInv(t, streams)
    ensures id in t.status <==> id in streams
    ensures id in streams ==> Legal(id, streams[id]) && Tells(t.status[id], streams[id])
  {
    if id in streams {
      LegalRow(id, streams[id]);
    }
  }

  // What the outbox row of an event must carry: the aggregate's terms, its status after the whole Save,
  // and the transaction or the reason of the event itself.
  predicate Announces(m: PayMessage, e: Event, es: seq<Event>)
    requires 1 <= |es| <= 3 && es[0].PaymentInitiated?
  {
    && m.payment == es[0].payment && m.order == es[0].order && m.customer == es[0].customer
    && m.amount == es[0].amount && m.currency == es[0].currency && m.status == StatusAfter(es)
    && match e
       case PaymentInitiated(_, _, _, _, _) => m.kind == EvInitiated && m.detail == ""
       case PaymentProcessed(_, tx) => m.kind == EvProcessed && m.detail == tx
       case PaymentDeclined(_, reason) => m.kind == EvFailed && m.detail == reason
       case PaymentRefunded(_, _, reason) => m.kind == EvRefunded && m.detail == reason
       case PaymentWithdrawn(_, reason) => m.kind == EvCancelled && m.detail == reason
  }

  lemma {:induction false} MessageAnnounces(id: Id, es: seq<Event>, e: Event)
    requires Legal(id, es)
    ensures Announces(MessageOf(Replay(ZERO, es), e), e, es)
  {
    LegalState(id, es);
  }

  lemma {:induction false} MessagesAt(s: State, es: seq<Event>, n: nat, i: nat)
    requires i < n <= |es|
    ensures MessagesUpTo(s, es, n)[i] == MessageOf(s, es[i])
  {
    if i < n - 1 {
      MessagesAt(s, es, n - 1, i);
    }
  }

  lemma {:induction false} MessagesAnnounce(id: Id, es: seq<Event>, pending: seq<Event>, i: nat)
    requires Legal(id, es) && i < |pending|
    ensures Announces(MessagesUpTo(Replay(ZERO, es), pending, |pending|)[i], pending[i], es)
  {
    MessagesAt(Replay(ZERO, es), pending, |pending|, i);
    MessageAnnounces(id, es, pending[i]);
  }

  // The row of the payment tells its stream, and each pending event got one outbox row, in order.
  predicate SaysSaved(t: Store, t': Store, id: Id, es: seq<Event>, pending: seq<Event>) {
    && Legal(id, es) && id in t'.status && Tells(t'.status[id], es)
    && |t'.outbox| == |t.outbox| + |pending| && t.outbox <= t'.outbox
    && forall i | 0 <= i < |pending| :: Announces(t'.outbox[|t.outbox| + i], pending[i], es)
  }

  lemma {:induction false} SaveTells(t: Store, streams: Streams, s: State, pending: seq<Event>)
    requires StoreInv(t, streams) && Tracks(streams, s, pending) && |pending| > 0 && SaveTx(t, s, pending).Ok?
    ensures var t', es := SaveTx(t, s, pending).value, StreamOf(streams, s.id) + pending;
            Legal(s.id, es) && s.id in t'.status && Tells(t'.status[s.id], es)
  {
    SaveExact(t, streams, s, pending);
    SaveKeeps(t, streams, s, pending);
    RowsTellStreams(SaveTx(t, s, pending).value, streams[s.id := StreamOf(streams, s.id) + pending], s.id);
  }

  lemma {:induction false} SavedOutbox(t: Store, s: State, pending: seq<Event>)
    requires 0 < |pending| <= s.version && SaveTx(t, s, pending).Ok?
    ensures SaveTx(t, s, pending).value.outbox == t.outbox + MessagesUpTo(s, pending, |pending|)
  {
  }

  lemma {:induction false} AllAnnounce(t: Store, t': Store, s: State, es: seq<Event>, pending: seq<Event>)
    requires Describes(es, s) && s.id in t'.status && Tells(t'.status[s.id], es)
    requires t'.outbox == t.outbox + MessagesUpTo(s, pending, |pending|)
    ensures SaysSaved(t, t', s.id, es, pending)
  {
    forall i | 0 <= i < |pending| ensures Announces(t'.outbox[|t.outbox| + i], pending[i], es) {
      MessagesAnnounce(s.id, es, pending, i);
    }
  }

  // What a winning Save leaves, told from the whole stream.
  lemma {:induction false} SaveSays(t: Store, streams: Streams, s: State, pending: seq<Event>)
    requires StoreInv(t, streams) && Tracks(streams, s, pending) && |pending| > 0 && SaveTx(t, s, pending).Ok?
    ensures SaysSaved(t, SaveTx(t, s, pending).value, s.id, StreamOf(streams, s.id) + pending, pending)
  {
    SaveTells(t, streams, s, pending);
    SaveWins(t, streams, s, pending);
    SavedOutbox(t, s, pending);
    AllAnnounce(t, SaveTx(t, s, pending).value, s, StreamOf(streams, s.id) + pending, pending);
  }

  lemma {:induction false} SaveWins(t: Store, streams: Streams, s: State, pending: seq<Event>)
    requires StoreInv(t, streams) && Tracks(streams, s, pending) && |pending| > 0 && SaveTx(t, s, pending).Ok?
    ensures Describes(StreamOf(streams, s.id) + pending, s)
  {
    SaveExact(t, streams, s, pending);
    WholeHistory(streams, s, pending);
  }

  // Save commits exactly when no other writer advanced the stream since the aggregate was loaded;
  // a losing writer is told of the conflict.
  lemma {:induction false} SaveExact(t: Store, streams: Streams, s: State, pending: seq<Event>)
    requires StoreInv(t, streams) && Tracks(streams, s, pending) && |pending| > 0
    ensures SaveTx(t, s, pending).Ok? <==> s.version - |pending| == |StreamOf(streams, s.id)|
    ensures SaveTx(t, s, pending).Err? ==> SaveTx(t, s, pending) == Err(Conflict)
  {
    if s.version - |pending| < |StreamOf(streams, s.id)| {
      SaveConflicts(t, streams, s, pending);
    } else {
      NoSnapshotDue(streams, s, pending);
      SaveKeepsEvents(t, streams, s, pending);
    }
  }
}
