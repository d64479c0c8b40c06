/** The delivery promise over whole runs: the invariant every orderly step keeps, and what
    follows from it for the client. */
module Delivery {
  import opened Wrappers
  import opened Messages
  import opened DeliveryLog
  import opened SubscriberSocket
  import opened ResumeState
  import opened Pipeline
  import opened Coverage
  import OutboundQueue

  // ------------------------------------------------------------------ invariant

  /** The log stores a suffix of the committed rows and knows their count. */
  ghost predicate LogOf(log: Log, committed: seq<Row>, pending: seq<Row>) {
    && Gapless(log)
    && log.head == |committed|
    && Numbered(committed)
    && DistinctIds(committed)
    && IsTail(log.table, committed)
    && forall row :: row in pending ==> row in committed
  }

  ghost predicate LogInv(w: World) {
    LogOf(w.log, w.committed, w.pending)
  }

  ghost predicate DistinctIds(rows: seq<Row>) {
    forall i, j :: 0 <= i < j < |rows| ==> rows[i].id != rows[j].id
  }

  ghost predicate IsTail(rows: seq<Row>, all: seq<Row>) {
    |rows| <= |all| && rows == all[|all| - |rows|..]
  }

  lemma TailGrows(rows: seq<Row>, all: seq<Row>, added: seq<Row>)
    requires IsTail(rows, all)
    ensures IsTail(rows + added, all + added)
  {
  }

  /** The cursor the client has once the event in its hands is recorded. */
  function Reached(client: ClientState): nat {
    match client.phase
    case Handling(row) => Max(client.resume.cursor, row.seqno)
    case _ => client.resume.cursor
  }

  ghost predicate AccountedTo(cfg: Config, rows: seq<Row>, upTo: nat, completed: set<Uuid>, gaps: set<(nat, nat)>) {
    forall i :: 0 <= i < |rows| && cfg.initial < rows[i].seqno <= upTo && Wanted(cfg, rows[i])
      ==> rows[i].id in completed || InGap(rows[i].seqno, gaps)
  }

  /** Remembered ids are those of committed rows at or below the cursor. */
  ghost predicate SeenInv(rows: seq<Row>, r: Resume) {
    && r.capacity >= 1
    && forall id :: id in r.seen ==> exists i :: 0 <= i < |rows| && rows[i].id == id && rows[i].seqno <= r.cursor
  }

  /** Up to the cursor everything is accounted for; the event in hand, once its handler has
      returned, carries that on to its own number. */
  ghost predicate Accounted(cfg: Config, rows: seq<Row>, client: ClientState) {
    && AccountedTo(cfg, rows, client.resume.cursor, client.completed, client.gaps)
    && (client.phase.Handling? ==>
          AccountedTo(cfg, rows, client.phase.row.seqno, client.completed + {client.phase.row.id}, client.gaps))
  }

  ghost predicate ClientInv(cfg: Config, rows: seq<Row>, client: ClientState) {
    && cfg.initial <= client.saved <= client.resume.cursor
    && (Reached(client) <= cfg.initial || Reached(client) <= |rows|)
    && Accounted(cfg, rows, client)
    && SeenInv(rows, client.resume)
    && (client.phase.Handling? ==> client.phase.row in rows && client.phase.row.seqno > client.resume.cursor)
    && (client.phase.Stopped? ==> client.wire.None?)
  }

  function Bodies(frames: seq<QueuedFrame>): seq<ServerMsg> {
    seq(|frames|, i requires 0 <= i < |frames| => frames[i].body)
  }

  /** What the connection already holds for the client, in order: a lag notice if drops are
      pending, the popped frame, the queue. */
  function Ahead(conn: Conn): seq<ServerMsg> {
    LagMsgs(OutboundQueue.TakePendingLag(conn.queue).0) + (Bodies(OutboundQueue.Held(conn.held)) + Bodies(conn.queue.frames))
  }

  /** The events still owed for committed rows not yet pushed. */
  function Owed(cfg: Config, conn: Conn, pending: seq<Row>): seq<ServerMsg> {
    EventsAbove(WantedMsgs(cfg, pending), Mark(conn))
  }

  function Tail(cfg: Config, conn: Conn, pending: seq<Row>): seq<ServerMsg> {
    Ahead(conn) + Owed(cfg, conn, pending)
  }

  /** Before the replay is out: nothing but inert frames on the wire, and, from the head snapshot on
      and unless drops are pending, every matching row above it is queued or owed, in order. */
  ghost predicate BeforeReplay(cfg: Config, rows: seq<Row>, conn: Conn, pending: seq<Row>) {
    match conn.phase
    case Connected => conn.queue.lagPending == 0 && AllInert(Bodies(conn.queue.frames)) && AllInert(Bodies(OutboundQueue.Held(conn.held)))
    case Live(_) => false
    case HeadRead(_, head) => conn.held.None? && head <= |rows| && HoldsSince(cfg, rows, conn, pending)
    case _ => conn.held.None?
  }

  ghost predicate HoldsSince(cfg: Config, rows: seq<Row>, conn: Conn, pending: seq<Row>) {
    || conn.queue.lagPending > 0
    || EventsAbove(Bodies(conn.queue.frames), Mark(conn)) + Owed(cfg, conn, pending)
       == EventsAbove(WantedMsgs(cfg, rows), Mark(conn))
  }

  /** A live stream covers the log, and the wire alone accounts for what the replay went through. */
  ghost predicate LiveInv(cfg: Config, rows: seq<Row>, c: nat, gaps: set<(nat, nat)>, wire: seq<ServerMsg>, conn: Conn, pending: seq<Row>)
    requires conn.phase.Live?
  {
    && conn.phase.through <= |rows|
    && Covers(cfg, rows[..conn.phase.through], c, gaps, wire)
    && Covers(cfg, rows, c, gaps, wire + Tail(cfg, conn, pending))
  }

  ghost predicate PlainReal(rows: seq<Row>, msgs: seq<ServerMsg>) {
    Plain(msgs) && Real(rows, msgs)
  }

  ghost predicate SessionInv(cfg: Config, w: World) {
    match w.client.wire
    case None => w.conn.None?
    case Some(wire) =>
      && Real(w.committed, wire)
      && match w.conn
         case None => Covers(cfg, w.committed, Reached(w.client), w.client.gaps, wire + [Closing(Shutdown)])
         case Some(conn) =>
           && conn.afterSeq <= w.client.resume.cursor
           && PlainReal(w.committed, Bodies(conn.queue.frames))
           && PlainReal(w.committed, Bodies(OutboundQueue.Held(conn.held)))
           && if conn.phase.Live? then LiveInv(cfg, w.committed, Reached(w.client), w.client.gaps, wire, conn, w.pending)
              else
                && w.client.phase.Ready?
                && conn.afterSeq == w.client.resume.cursor
                && AllInert(wire)
                && BeforeReplay(cfg, w.committed, conn, w.pending)
  }

  ghost predicate Inv(cfg: Config, w: World) {
    LogInv(w) && ClientInv(cfg, w.committed, w.client) && SessionInv(cfg, w)
  }

  // ------------------------------------------------------------- ending a session

  lemma BodiesConcat(left: seq<QueuedFrame>, right: seq<QueuedFrame>)
    ensures Bodies(left + right) == Bodies(left) + Bodies(right)
  {
  }

  lemma LoseConnection(cfg: Config, w: World)
    requires Inv(cfg, w)
    ensures SessionInv(cfg, w.(conn := None))
  {
    if w.client.wire.Some? && w.conn.Some? {
      var wire, conn := w.client.wire.value, w.conn.value;
      var end := Closing(Shutdown);
      assert [end] + [] == [end];
      if conn.phase.Live? {
        CoversCut(cfg, w.committed, Reached(w.client), w.client.gaps, wire, Tail(cfg, conn, w.pending), end, []);
      } else {
        CoversInert(cfg, w.committed, Reached(w.client), w.client.gaps, wire, [end]);
      }
    }
  }

  // ------------------------------------------------------------------ log actions

  lemma StampedExtends(rows: seq<Row>, events: seq<Emission>, tsMs: nat)
    requires Numbered(rows) && DistinctIds(rows) && FreshIds(rows, events)
    ensures Numbered(rows + Stamped(|rows|, events, tsMs)) && DistinctIds(rows + Stamped(|rows|, events, tsMs))
  {
    var all := rows + Stamped(|rows|, events, tsMs);
    forall i, j | 0 <= i < j < |all|
      ensures all[i].id != all[j].id
    {
      if i >= |rows| {
        assert all[i].id == events[i - |rows|].id && all[j].id == events[j - |rows|].id;
      } else if j >= |rows| {
        assert all[j].id == events[j - |rows|].id;
      }
    }
  }

  lemma CommitKeepsLog(w: World, events: seq<Emission>, tsMs: nat)
    requires LogInv(w) && FreshIds(w.committed, events)
    ensures LogInv(DoCommit(w, events, tsMs))
    ensures Numbered(w.committed + Stamped(w.log.head, events, tsMs))
  {
    var rows := Stamped(w.log.head, events, tsMs);
    AppendKeepsGapless(w.log, events, tsMs);
    StampedExtends(w.committed, events, tsMs);
    TailGrows(w.log.table, w.committed, rows);
  }

  lemma CommitKeepsAccounted(cfg: Config, rows: seq<Row>, added: seq<Row>, upTo: nat, completed: set<Uuid>, gaps: set<(nat, nat)>)
    requires Numbered(rows + added) && (upTo <= cfg.initial || upTo <= |rows|)
    requires AccountedTo(cfg, rows, upTo, completed, gaps)
    ensures AccountedTo(cfg, rows + added, upTo, completed, gaps)
  {
    var longer := rows + added;
    forall i | 0 <= i < |longer| && cfg.initial < longer[i].seqno <= upTo && Wanted(cfg, longer[i])
      ensures longer[i].id in completed || InGap(longer[i].seqno, gaps)
    {
      assert i < |rows| && longer[i] == rows[i];
    }
  }

  lemma CommitKeepsClient(cfg: Config, rows: seq<Row>, added: seq<Row>, client: ClientState)
    requires Numbered(rows + added) && ClientInv(cfg, rows, client)
    ensures ClientInv(cfg, rows + added, client)
  {
    hide AccountedTo;
    var longer := rows + added;
    CommitKeepsAccounted(cfg, rows, added, client.resume.cursor, client.completed, client.gaps);
    if client.phase.Handling? {
      CommitKeepsAccounted(cfg, rows, added, client.phase.row.seqno, client.completed + {client.phase.row.id}, client.gaps);
    }
    forall id | id in client.resume.seen
      ensures exists i :: 0 <= i < |longer| && longer[i].id == id && longer[i].seqno <= client.resume.cursor
    {
      var i :| 0 <= i < |rows| && rows[i].id == id && rows[i].seqno <= client.resume.cursor;
      assert longer[i] == rows[i];
    }
  }

  lemma CommitKeepsLost(cfg: Config, rows: seq<Row>, c: nat, gaps: set<(nat, nat)>, wire: seq<ServerMsg>, added: seq<Row>)
    requires Numbered(rows + added) && Real(rows, wire)
    requires Covers(cfg, rows, c, gaps, wire + [Closing(Shutdown)])
    ensures Covers(cfg, rows + added, c, gaps, wire + [Closing(Shutdown)])
  {
    var end := Closing(Shutdown);
    var more := EventsAbove(WantedMsgs(cfg, added), 0);
    CoversCommitAll(cfg, rows, c, gaps, wire + [end], added, 0);
    assert (wire + [end]) + more == wire + ([end] + more);
    CoversCut(cfg, rows + added, c, gaps, wire, [end] + more, end, []);
    assert [end] + [] == [end];
  }

  lemma OwedConcat(cfg: Config, conn: Conn, left: seq<Row>, right: seq<Row>)
    ensures Owed(cfg, conn, left + right) == Owed(cfg, conn, left) + Owed(cfg, conn, right)
  {
    WantedMsgsConcat(cfg, left, right);
    EventsAboveConcat(WantedMsgs(cfg, left), WantedMsgs(cfg, right), Mark(conn));
  }

  lemma CommitKeepsSince(cfg: Config, rows: seq<Row>, conn: Conn, pending: seq<Row>, added: seq<Row>)
    requires HoldsSince(cfg, rows, conn, pending)
    ensures HoldsSince(cfg, rows + added, conn, pending + added)
  {
    OwedConcat(cfg, conn, rows, added);
    OwedConcat(cfg, conn, pending, added);
  }

  lemma CommitKeepsSession(cfg: Config, w: World, events: seq<Emission>, tsMs: nat)
    requires Inv(cfg, w) && FreshIds(w.committed, events)
    ensures SessionInv(cfg, DoCommit(w, events, tsMs))
  {
    hide Covers, HoldsSince, ClientInv;
    CommitKeepsLog(w, events, tsMs);
    var added := Stamped(w.log.head, events, tsMs);
    if w.client.wire.Some? {
      var wire := w.client.wire.value;
      match w.conn {
        case None => CommitKeepsLost(cfg, w.committed, Reached(w.client), w.client.gaps, wire, added);
        case Some(conn) =>
          if conn.phase.Live? {
            CommitKeepsLive(cfg, w, conn, wire, added);
          } else if conn.phase.HeadRead? {
            CommitKeepsSince(cfg, w.committed, conn, w.pending, added);
          }
      }
    }
  }

  lemma TailReal(cfg: Config, rows: seq<Row>, conn: Conn, pending: seq<Row>)
    requires forall row :: row in pending ==> row in rows
    requires Real(rows, Bodies(conn.queue.frames)) && Real(rows, Bodies(OutboundQueue.Held(conn.held)))
    ensures Real(rows, Tail(cfg, conn, pending))
  {
    WantedMsgsReal(cfg, pending);
    EventsAboveReal(pending, WantedMsgs(cfg, pending), Mark(conn));
  }

  lemma CommitKeepsLive(cfg: Config, w: World, conn: Conn, wire: seq<ServerMsg>, added: seq<Row>)
    requires Inv(cfg, w) && w.conn == Some(conn) && w.client.wire == Some(wire) && conn.phase.Live?
    requires Numbered(w.committed + added)
    ensures LiveInv(cfg, w.committed + added, Reached(w.client), w.client.gaps, wire, conn, w.pending + added)
  {
    hide Covers, AccountedTo, SeenInv;
    var rows, c, gaps := w.committed, Reached(w.client), w.client.gaps;
    TailReal(cfg, rows, conn, w.pending);
    var stream := wire + Tail(cfg, conn, w.pending);
    CoversCommitAll(cfg, rows, c, gaps, stream, added, Mark(conn));
    OwedConcat(cfg, conn, w.pending, added);
    assert stream + Owed(cfg, conn, added) == wire + Tail(cfg, conn, w.pending + added);
    assert (rows + added)[..conn.phase.through] == rows[..conn.phase.through];
  }

  lemma PruneKeepsLog(w: World, limits: Limits, nowMs: nat)
    requires LogInv(w)
    ensures LogInv(w.(log := PruneTo(w.log, limits, nowMs)))
  {
    var k := PruneRemovesLeastPrefix(w.log, limits, nowMs);
  }

  lemma CrashKeepsInv(cfg: Config, w: World, nowMs: nat)
    requires Inv(cfg, w) && RestartSafe(w.log)
    ensures Inv(cfg, DoServerCrash(cfg, w, nowMs))
  {
    RecoverRestores(w.log);
    PruneKeepsLog(w, cfg.limits, nowMs);
    LoseConnection(cfg, w);
  }

  // ----------------------------------------------------------------- push in order

  /** An event that is neither oversized nor makes room by eviction joins the back; otherwise
      the lag notice is due. */
  lemma PushJoinsBack(q: OutboundQueue.QueueState<ServerMsg>, msg: ServerMsg, len: nat)
    ensures var r := OutboundQueue.PushEvent(q, msg, len);
      && r.lagPending >= q.lagPending
      && (r.lagPending == q.lagPending ==> r.frames == q.frames + [OutboundQueue.Frame(msg, len, true)])
      && (forall frame :: frame in r.frames ==> frame in q.frames || frame.body == msg)
  {
    if len <= q.maxBytes {
      var k := OutboundQueue.PushEventEffect(q, msg, len);
      OutboundQueue.EvictionOnlyRemoves(q, len);
    }
  }

  lemma PushKeepsQueue(rows: seq<Row>, q: OutboundQueue.QueueState<ServerMsg>, row: Row)
    requires PlainReal(rows, Bodies(q.frames)) && row in rows
    ensures PlainReal(rows, Bodies(OutboundQueue.PushEvent(q, EventMsg(row), row.text).frames))
  {
    PushJoinsBack(q, EventMsg(row), row.text);
    var r := OutboundQueue.PushEvent(q, EventMsg(row), row.text);
    forall i | 0 <= i < |r.frames|
      ensures (r.frames[i].body.EventMsg? && r.frames[i].body.row in rows) || Inert(r.frames[i].body)
    {
      if r.frames[i] in q.frames {
        var k :| 0 <= k < |q.frames| && q.frames[k] == r.frames[i];
        assert Bodies(q.frames)[k] == r.frames[i].body;
      }
    }
  }

  /** The pending rows once the one at position k is pushed. */
  function Rest(pending: seq<Row>, k: nat): seq<Row>
    requires k < |pending|
  {
    pending[..k] + pending[k + 1..]
  }

  /** The queue of a subscribed connection after the fan-out has offered it a row. */
  function Offered(cfg: Config, q: OutboundQueue.QueueState<ServerMsg>, row: Row): OutboundQueue.QueueState<ServerMsg> {
    if Wanted(cfg, row) then OutboundQueue.PushEvent(q, EventMsg(row), row.text) else q
  }

  lemma OwedSplit(cfg: Config, conn: Conn, pending: seq<Row>, k: nat)
    requires k < |pending|
    ensures Owed(cfg, conn, pending) == Owed(cfg, conn, pending[..k]) + Owed(cfg, conn, [pending[k]]) + Owed(cfg, conn, pending[k + 1..])
    ensures Owed(cfg, conn, Rest(pending, k)) == Owed(cfg, conn, pending[..k]) + Owed(cfg, conn, pending[k + 1..])
  {
    assert pending == pending[..k] + [pending[k]] + pending[k + 1..];
    OwedConcat(cfg, conn, pending[..k] + [pending[k]], pending[k + 1..]);
    OwedConcat(cfg, conn, pending[..k], [pending[k]]);
    OwedConcat(cfg, conn, pending[..k], pending[k + 1..]);
  }

  lemma OwedOne(cfg: Config, conn: Conn, row: Row)
    ensures Owed(cfg, conn, [row]) == if Wanted(cfg, row) && row.seqno > Mark(conn) then [EventMsg(row)] else []
  {
    assert WantedMsgs(cfg, [row]) == if Wanted(cfg, row) then [EventMsg(row)] else [] by {
      assert [row][1..] == [];
    }
    EventsAboveOne(row, Mark(conn));
  }

  /** What is owed once a row has been pushed in order, or is not owed at all. */
  lemma OwedAfterPush(cfg: Config, conn: Conn, pending: seq<Row>, k: nat)
    requires k < |pending|
    requires Wanted(cfg, pending[k]) && pending[k].seqno > Mark(conn) ==>
      forall j :: 0 <= j < k && Wanted(cfg, pending[j]) ==> pending[j].seqno <= Mark(conn)
    ensures Owed(cfg, conn, pending) == Owed(cfg, conn, [pending[k]]) + Owed(cfg, conn, Rest(pending, k))
  {
    OwedSplit(cfg, conn, pending, k);
    OwedOne(cfg, conn, pending[k]);
    if Wanted(cfg, pending[k]) && pending[k].seqno > Mark(conn) {
      WantedAtOrBelow(cfg, pending[..k], Mark(conn));
      assert Owed(cfg, conn, pending[..k]) == [];
    }
    hide Owed, Rest, Wanted;
    var one, left, right := Owed(cfg, conn, [pending[k]]), Owed(cfg, conn, pending[..k]), Owed(cfg, conn, pending[k + 1..]);
    assert one == [] || left == [];
    assert left + one + right == one + (left + right);
  }

  lemma PushKeepsLog(cfg: Config, w: World, k: nat)
    requires LogInv(w) && k < |w.pending|
    ensures LogInv(DoPush(cfg, w, k)) && DoPush(cfg, w, k).pending == Rest(w.pending, k)
    ensures w.pending[k] in w.committed
  {
  }

  /** A push that drops nothing joins the back of what the connection holds. */
  lemma AheadAfterPush(cfg: Config, conn: Conn, row: Row)
    requires Wanted(cfg, row) && Offered(cfg, conn.queue, row).lagPending == 0
    ensures Bodies(Offered(cfg, conn.queue, row).frames) == Bodies(conn.queue.frames) + [EventMsg(row)]
    ensures conn.queue.lagPending == 0
    ensures Ahead(conn.(queue := Offered(cfg, conn.queue, row))) == Ahead(conn) + [EventMsg(row)]
  {
    PushJoinsBack(conn.queue, EventMsg(row), row.text);
    BodiesConcat(conn.queue.frames, [OutboundQueue.Frame(EventMsg(row), row.text, true)]);
  }

  /** What is queued above the mark followed by what is owed stays the same. */
  lemma PushMovesOwed(cfg: Config, conn: Conn, pending: seq<Row>, k: nat)
    requires k < |pending| && Offered(cfg, conn.queue, pending[k]).lagPending == 0 && conn.queue.lagPending == 0
    requires Wanted(cfg, pending[k]) ==> forall j :: 0 <= j < k && Wanted(cfg, pending[j]) ==> pending[j].seqno <= Mark(conn)
    ensures EventsAbove(Bodies(Offered(cfg, conn.queue, pending[k]).frames), Mark(conn)) + Owed(cfg, conn, Rest(pending, k))
         == EventsAbove(Bodies(conn.queue.frames), Mark(conn)) + Owed(cfg, conn, pending)
  {
    hide Ahead, OutboundQueue.PushEvent, Bodies, Rest;
    var row, mark := pending[k], Mark(conn);
    var queued, owed := EventsAbove(Bodies(conn.queue.frames), mark), Owed(cfg, conn, Rest(pending, k));
    OwedAfterPush(cfg, conn, pending, k);
    OwedOne(cfg, conn, row);
    if Wanted(cfg, row) {
      AheadAfterPush(cfg, conn, row);
      EventsAboveConcat(Bodies(conn.queue.frames), [EventMsg(row)], mark);
      EventsAboveOne(row, mark);
      assert (queued + Owed(cfg, conn, [row])) + owed == queued + (Owed(cfg, conn, [row]) + owed);
    } else {
      assert [] + owed == owed;
    }
  }

  lemma EventsAboveOne(row: Row, mark: nat)
    ensures EventsAbove([EventMsg(row)], mark) == if row.seqno > mark then [EventMsg(row)] else []
  {
    var one := [EventMsg(row)];
    assert one[1..] == [] && [one[0]] + [] == one;
  }

  lemma PushKeepsSince(cfg: Config, rows: seq<Row>, conn: Conn, pending: seq<Row>, k: nat)
    requires k < |pending| && HoldsSince(cfg, rows, conn, pending)
    requires var row := pending[k]; Wanted(cfg, row) && Offered(cfg, conn.queue, row).lagPending == 0 ==>
      forall j :: 0 <= j < k && Wanted(cfg, pending[j]) ==> pending[j].seqno <= Mark(conn)
    ensures HoldsSince(cfg, rows, conn.(queue := Offered(cfg, conn.queue, pending[k])), Rest(pending, k))
  {
    hide EventsAbove, WantedMsgs, Rest, OutboundQueue.PushEvent;
    var after := conn.(queue := Offered(cfg, conn.queue, pending[k]));
    if after.queue.lagPending == 0 {
      PushJoinsBack(conn.queue, EventMsg(pending[k]), pending[k].text);
      PushMovesOwed(cfg, conn, pending, k);
      assert Owed(cfg, after, Rest(pending, k)) == Owed(cfg, conn, Rest(pending, k));
    }
  }

  lemma PushLagged(cfg: Config, rows: seq<Row>, c: nat, gaps: set<(nat, nat)>, wire: seq<ServerMsg>, conn: Conn,
                   pending: seq<Row>, after: Conn, rest: seq<Row>)
    requires Covers(cfg, rows, c, gaps, wire + Tail(cfg, conn, pending)) && after.queue.lagPending > 0
    ensures Covers(cfg, rows, c, gaps, wire + Tail(cfg, after, rest))
  {
    var notice := Lagged(after.queue.lagPending);
    var others := Bodies(OutboundQueue.Held(after.held)) + Bodies(after.queue.frames) + Owed(cfg, after, rest);
    CoversCut(cfg, rows, c, gaps, wire, Tail(cfg, conn, pending), notice, others);
    assert Tail(cfg, after, rest) == [notice] + others;
  }

  lemma PushInOrder(cfg: Config, conn: Conn, pending: seq<Row>, k: nat)
    requires k < |pending| && Wanted(cfg, pending[k]) && Offered(cfg, conn.queue, pending[k]).lagPending == 0
    requires forall j :: 0 <= j < k && Wanted(cfg, pending[j]) ==> pending[j].seqno <= Mark(conn)
    ensures var after, owed := conn.(queue := Offered(cfg, conn.queue, pending[k])), Owed(cfg, conn, Rest(pending, k));
      && Tail(cfg, after, Rest(pending, k)) == Ahead(conn) + ([EventMsg(pending[k])] + owed)
      && Tail(cfg, conn, pending)
         == Ahead(conn) + (if pending[k].seqno > Mark(conn) then [EventMsg(pending[k])] + owed else owed)
  {
    hide Ahead, OutboundQueue.PushEvent;
    var row := pending[k];
    var after, owed := conn.(queue := Offered(cfg, conn.queue, row)), Owed(cfg, conn, Rest(pending, k));
    AheadAfterPush(cfg, conn, row);
    OwedAfterPush(cfg, conn, pending, k);
    OwedOne(cfg, conn, row);
    assert Owed(cfg, after, Rest(pending, k)) == owed;
    assert (Ahead(conn) + [EventMsg(row)]) + owed == Ahead(conn) + ([EventMsg(row)] + owed);
    assert row.seqno <= Mark(conn) ==> Owed(cfg, conn, pending) == owed by {
      assert [] + owed == owed;
    }
  }

  /** A wanted row pushed without a drop: in order it was owed next, late it is accounted for. */
  lemma PushJoins(cfg: Config, rows: seq<Row>, c: nat, gaps: set<(nat, nat)>, wire: seq<ServerMsg>, conn: Conn, pending: seq<Row>, k: nat)
    requires Numbered(rows) && conn.phase.Live? && LiveInv(cfg, rows, c, gaps, wire, conn, pending) && conn.afterSeq <= c
    requires k < |pending| && Wanted(cfg, pending[k]) && Offered(cfg, conn.queue, pending[k]).lagPending == 0
    requires forall j :: 0 <= j < k && Wanted(cfg, pending[j]) ==> pending[j].seqno <= Mark(conn)
    ensures Covers(cfg, rows, c, gaps,
                   wire + Tail(cfg, conn.(queue := Offered(cfg, conn.queue, pending[k])), Rest(pending, k)))
  {
    hide Covers, Tail, Ahead, Owed, Offered;
    var row, owed := pending[k], Owed(cfg, conn, Rest(pending, k));
    PushInOrder(cfg, conn, pending, k);
    if row.seqno <= Mark(conn) {
      assert forall i :: 0 <= i < conn.phase.through ==> rows[..conn.phase.through][i] == rows[i];
      CoversAppend(cfg, rows[..conn.phase.through], c, gaps, wire, Ahead(conn));
      assert wire + (Ahead(conn) + owed) == (wire + Ahead(conn)) + owed;
      CoversLateEvent(cfg, rows, c, gaps, wire + Ahead(conn), owed, row, conn.phase.through);
      assert (wire + Ahead(conn)) + ([EventMsg(row)] + owed) == wire + (Ahead(conn) + ([EventMsg(row)] + owed));
    }
  }

  lemma PushKeepsLive(cfg: Config, w: World, conn: Conn, k: nat)
    requires Inv(cfg, w) && k < |w.pending| && w.conn == Some(conn) && conn.phase.Live? && w.client.wire.Some?
    requires !Overtakes(cfg, w, k)
    ensures LiveInv(cfg, w.committed, Reached(w.client), w.client.gaps, w.client.wire.value,
                    conn.(queue := Offered(cfg, conn.queue, w.pending[k])), Rest(w.pending, k))
  {
    hide Covers, AccountedTo, SeenInv, PlainReal, OutboundQueue.PushEvent, Ahead;
    var rows, c, gaps, wire, row := w.committed, Reached(w.client), w.client.gaps, w.client.wire.value, w.pending[k];
    var after, rest := conn.(queue := Offered(cfg, conn.queue, row)), Rest(w.pending, k);
    if !Wanted(cfg, row) {
      OwedAfterPush(cfg, conn, w.pending, k);
      OwedOne(cfg, conn, row);
      assert Tail(cfg, after, rest) == Tail(cfg, conn, w.pending);
    } else if after.queue.lagPending > 0 {
      PushLagged(cfg, rows, c, gaps, wire, conn, w.pending, after, rest);
    } else if !StillReading(w.client) {
      var end :| 0 <= end < |wire| && EndsSession(wire[end]);
      CoversEnded(cfg, rows, c, gaps, wire, Tail(cfg, conn, w.pending), Tail(cfg, after, rest), end);
    } else {
      PushJoins(cfg, rows, c, gaps, wire, conn, w.pending, k);
    }
  }

  lemma PushKeepsSession(cfg: Config, w: World, conn: Conn, k: nat)
    requires Inv(cfg, w) && k < |w.pending| && w.conn == Some(conn) && w.client.wire.Some?
    requires !Overtakes(cfg, w, k)
    ensures SessionInv(cfg, DoPush(cfg, w, k))
  {
    hide Covers, LiveInv, HoldsSince, AccountedTo, SeenInv, PlainReal, LogOf, Tail, Bodies, OutboundQueue.PushEvent;
    var row := w.pending[k];
    PushKeepsLog(cfg, w, k);
    var next := DoPush(cfg, w, k);
    if conn.phase.Connected? {
      assert next.conn == w.conn;
    } else {
      assert next.conn == Some(conn.(queue := Offered(cfg, conn.queue, row)));
      PushKeepsQueue(w.committed, conn.queue, row);
      if conn.phase.Live? {
        PushKeepsLive(cfg, w, conn, k);
      } else if conn.phase.HeadRead? {
        InertIsStillReading(w.client);
        PushKeepsSince(cfg, w.committed, conn, w.pending, k);
      }
    }
  }

  lemma InertIsStillReading(client: ClientState)
    requires client.wire.Some? && AllInert(client.wire.value)
    ensures StillReading(client)
  {
  }

  lemma PushKeepsInv(cfg: Config, w: World, k: nat)
    requires Inv(cfg, w) && !Overtakes(cfg, w, k)
    ensures Inv(cfg, DoPush(cfg, w, k))
  {
    hide Overtakes, AccountedTo, SeenInv, LogOf, OutboundQueue.PushEvent;
    if k < |w.pending| {
      PushKeepsLog(cfg, w, k);
      if w.conn.Some? && w.client.wire.Some? {
        PushKeepsSession(cfg, w, w.conn.value, k);
      } else if w.client.wire.Some? {
        assert w.conn.None?;
      }
    }
  }

  // ---------------------------------------------------------------- socket actions

  lemma SubscribeKeepsInv(cfg: Config, w: World)
    requires Inv(cfg, w)
    ensures Inv(cfg, DoSubscribe(w))
  {
    hide Covers, AccountedTo, SeenInv, LogOf, PlainReal;
  }

  lemma ScanCovers(cfg: Config, w: World, conn: Conn, wire: seq<ServerMsg>)
    requires Inv(cfg, w) && w.conn == Some(conn) && conn.phase.HeadRead? && w.client.wire == Some(wire) && Orderly(cfg, w, Scan)
    ensures var frames := ReplayFrames(conn.afterSeq, conn.phase.floor, conn.phase.head, w.log.table, cfg.patterns);
      && Real(w.committed, wire + frames)
      && LiveInv(cfg, w.committed, w.client.resume.cursor, w.client.gaps, wire + frames, conn.(phase := Live(conn.phase.head)), w.pending)
  {
    hide Covers, ClientInv, ReplayFrames, Window, Tail;
    var rows, gaps, c := w.committed, w.client.gaps, w.client.resume.cursor;
    var floor, head := conn.phase.floor, conn.phase.head;
    var frames := ReplayFrames(conn.afterSeq, floor, head, w.log.table, cfg.patterns);
    var live := conn.(phase := Live(head));
    var tail := Tail(cfg, live, w.pending);
    ReplayIsWanted(cfg, w, conn);
    TailContinues(cfg, w, conn);
    ReplayStreamCovers(cfg, rows, c, gaps, floor, head, tail, Mark(live));
    CoversInert(cfg, rows, c, gaps, wire, frames + tail);
    assert wire + (frames + tail) == (wire + frames) + tail;
    ReplayAccountsForHead(cfg, rows, c, gaps, floor, head);
    assert frames + [] == frames;
    CoversInert(cfg, rows[..head], c, gaps, wire, frames);
  }

  lemma ScanKeepsInv(cfg: Config, w: World)
    requires Inv(cfg, w) && Orderly(cfg, w, Scan)
    ensures Inv(cfg, DoScan(cfg, w))
  {
    hide Covers, AccountedTo, SeenInv, LogOf, LiveInv, ReplayFrames, Tail;
    if w.conn.Some? && w.conn.value.phase.HeadRead? && w.client.wire.Some? {
      ScanCovers(cfg, w, w.conn.value, w.client.wire.value);
    }
  }

  /** The rows a replay lists between its effective cursor and its head. */
  function Window(cfg: Config, rows: seq<Row>, afterSeq: nat, floor: nat, head: nat): seq<ServerMsg>
    requires head <= |rows|
  {
    var lo := EffectiveAfter(afterSeq, floor);
    if lo < head then WantedMsgs(cfg, rows[lo..head]) else []
  }

  lemma HeadIsCommitted(cfg: Config, w: World, conn: Conn)
    requires Inv(cfg, w) && w.conn == Some(conn) && conn.phase.HeadRead? && w.client.wire.Some?
    ensures conn.phase.head <= |w.committed|
  {
  }

  lemma WindowIsReal(cfg: Config, rows: seq<Row>, afterSeq: nat, floor: nat, head: nat)
    requires head <= |rows|
    ensures Real(rows, Window(cfg, rows, afterSeq, floor, head))
  {
    var lo := EffectiveAfter(afterSeq, floor);
    if lo < head {
      WantedMsgsReal(cfg, rows[lo..head]);
      assert forall row :: row in rows[lo..head] ==> row in rows;
    }
  }

  /** A scan that still reaches its effective cursor lists exactly the wanted rows of its window. */
  lemma ReplayOfTail(cfg: Config, log: Log, rows: seq<Row>, pending: seq<Row>, afterSeq: nat, floor: nat, head: nat)
    requires LogOf(log, rows, pending) && head <= |rows| && ScanComplete(afterSeq, floor, head, log.floor)
    ensures ReplayFrames(afterSeq, floor, head, log.table, cfg.patterns)
         == [OkMsg("subscribe")] + GapFrames(afterSeq, floor) + Window(cfg, rows, afterSeq, floor, head) + [Replayed(head)]
  {
    hide DistinctIds, Select, UpTo, EventMsgs;
    ReplayListsWanted(cfg, rows, |rows| - |log.table|, EffectiveAfter(afterSeq, floor), head);
  }

  lemma ReplayIsWanted(cfg: Config, w: World, conn: Conn)
    requires Inv(cfg, w) && w.conn == Some(conn) && conn.phase.HeadRead? && w.client.wire.Some? && Orderly(cfg, w, Scan)
    ensures conn.phase.head <= |w.committed|
    ensures ReplayFrames(conn.afterSeq, conn.phase.floor, conn.phase.head, w.log.table, cfg.patterns)
         == [OkMsg("subscribe")] + GapFrames(conn.afterSeq, conn.phase.floor)
          + Window(cfg, w.committed, conn.afterSeq, conn.phase.floor, conn.phase.head) + [Replayed(conn.phase.head)]
    ensures Real(w.committed, Window(cfg, w.committed, conn.afterSeq, conn.phase.floor, conn.phase.head))
  {
    hide ClientInv, SessionInv, LogOf, ReplayFrames, Window, GapFrames, Real;
    HeadIsCommitted(cfg, w, conn);
    ReplayOfTail(cfg, w.log, w.committed, w.pending, conn.afterSeq, conn.phase.floor, conn.phase.head);
    WindowIsReal(cfg, w.committed, conn.afterSeq, conn.phase.floor, conn.phase.head);
  }

  lemma TailContinues(cfg: Config, w: World, conn: Conn)
    requires Inv(cfg, w) && w.conn == Some(conn) && conn.phase.HeadRead? && w.client.wire.Some?
    ensures var live := conn.(phase := Live(conn.phase.head)); Continues(cfg, w.committed, Tail(cfg, live, w.pending), Mark(live))
  {
    hide ClientInv;
    var live := conn.(phase := Live(conn.phase.head));
    var queued, owed := Bodies(conn.queue.frames), Owed(cfg, live, w.pending);
    if conn.queue.lagPending == 0 {
      assert Tail(cfg, live, w.pending) == queued + owed;
      assert Owed(cfg, conn, w.pending) == owed;
      WantedMsgsReal(cfg, w.pending);
      EventsAboveReal(w.pending, WantedMsgs(cfg, w.pending), Mark(live));
      EventsAboveConcat(queued, owed, Mark(live));
      EventsAboveTwice(WantedMsgs(cfg, w.pending), Mark(live));
    }
  }

  lemma {:induction false} EventsAboveTwice(msgs: seq<ServerMsg>, mark: nat)
    ensures EventsAbove(EventsAbove(msgs, mark), mark) == EventsAbove(msgs, mark)
  {
    if msgs != [] {
      EventsAboveTwice(msgs[1..], mark);
      var later := EventsAbove(msgs[1..], mark);
      if msgs[0].EventMsg? && msgs[0].row.seqno > mark {
        assert ([msgs[0]] + later)[1..] == later;
      }
    }
  }

  /** The gaps the client knows of once the gap frame, if any, has reached it. */
  function Announced(gaps: set<(nat, nat)>, c: nat, floor: nat): set<(nat, nat)> {
    if PredatesFloor(c, floor) then gaps + {(c, floor)} else gaps
  }

  lemma AnnouncedClears(cfg: Config, rows: seq<Row>, c: nat, gaps: set<(nat, nat)>, floor: nat)
    ensures Clear(cfg, rows, c, EffectiveAfter(c, floor), Announced(gaps, c, floor))
  {
    forall i | 0 <= i < |rows| && c < rows[i].seqno <= EffectiveAfter(c, floor)
      ensures InGap(rows[i].seqno, Announced(gaps, c, floor))
    {
      assert (c, floor) in Announced(gaps, c, floor);
    }
  }

  lemma WindowCovers(cfg: Config, rows: seq<Row>, c: nat, gaps: set<(nat, nat)>, floor: nat, head: nat,
                     tail: seq<ServerMsg>, mark: nat)
    requires Numbered(rows) && head <= |rows| && mark <= Max(head, c)
    requires Continues(cfg, rows, tail, mark)
    ensures Covers(cfg, rows, c, Announced(gaps, c, floor), Window(cfg, rows, c, floor, head) + ([Replayed(head)] + tail))
  {
    hide Covers;
    var lo := EffectiveAfter(c, floor);
    AnnouncedClears(cfg, rows, c, gaps, floor);
    var n := if lo <= head then lo else head;
    CoversReplay(cfg, rows, c, Announced(gaps, c, floor), n, head, tail, mark);
    assert Window(cfg, rows, c, floor, head) == WantedMsgs(cfg, rows[n..head]);
  }

  lemma GapFramesCover(cfg: Config, rows: seq<Row>, c: nat, gaps: set<(nat, nat)>, floor: nat, rest: seq<ServerMsg>)
    requires Covers(cfg, rows, c, Announced(gaps, c, floor), rest)
    ensures Covers(cfg, rows, c, gaps, GapFrames(c, floor) + rest)
  {
    if PredatesFloor(c, floor) {
      assert (GapFrames(c, floor) + rest)[1..] == rest;
    } else {
      assert GapFrames(c, floor) + rest == rest;
    }
  }

  lemma ReplayStreamCovers(cfg: Config, rows: seq<Row>, c: nat, gaps: set<(nat, nat)>, floor: nat, head: nat,
                           tail: seq<ServerMsg>, mark: nat)
    requires Numbered(rows) && head <= |rows| && mark <= Max(head, c)
    requires Continues(cfg, rows, tail, mark)
    ensures Covers(cfg, rows, c, gaps,
                   [OkMsg("subscribe")] + GapFrames(c, floor) + Window(cfg, rows, c, floor, head) + [Replayed(head)] + tail)
  {
    hide Covers, Window, GapFrames, Continues;
    var ok, gap, window, done := [OkMsg("subscribe")], GapFrames(c, floor), Window(cfg, rows, c, floor, head), [Replayed(head)];
    WindowCovers(cfg, rows, c, gaps, floor, head, tail, mark);
    GapFramesCover(cfg, rows, c, gaps, floor, window + (done + tail));
    CoversInert(cfg, rows, c, gaps, ok, gap + (window + (done + tail)));
    assert ok + (gap + (window + (done + tail))) == ok + gap + window + done + tail;
  }

  /** The replay frames alone account for everything up to the head. */
  lemma ReplayAccountsForHead(cfg: Config, rows: seq<Row>, c: nat, gaps: set<(nat, nat)>, floor: nat, head: nat)
    requires Numbered(rows) && head <= |rows|
    ensures Covers(cfg, rows[..head], c, gaps,
                   [OkMsg("subscribe")] + GapFrames(c, floor) + Window(cfg, rows, c, floor, head) + [Replayed(head)] + [])
  {
    hide Covers;
    var seen := rows[..head];
    assert Numbered(seen);
    WantedAtOrBelow(cfg, seen, head);
    assert Continues(cfg, seen, [], head);
    ReplayStreamCovers(cfg, seen, c, gaps, floor, head, [], head);
    var lo := EffectiveAfter(c, floor);
    assert lo < head ==> seen[lo..head] == rows[lo..head];
    assert Window(cfg, seen, c, floor, head) == Window(cfg, rows, c, floor, head);
  }

  lemma ReplyKeepsLive(cfg: Config, rows: seq<Row>, c: nat, gaps: set<(nat, nat)>, wire: seq<ServerMsg>, conn: Conn,
                       pending: seq<Row>, control: ServerMsg)
    requires Covers(cfg, rows, c, gaps, wire + Tail(cfg, conn, pending)) && Inert(control)
    ensures Covers(cfg, rows, c, gaps,
                   wire + Tail(cfg, conn.(queue := OutboundQueue.PushControl(conn.queue, control, 0)), pending))
  {
    hide Covers, WantedMsgs;
    var after := conn.(queue := OutboundQueue.PushControl(conn.queue, control, 0));
    var owed := Owed(cfg, conn, pending);
    assert Owed(cfg, after, pending) == owed;
    BodiesConcat(conn.queue.frames, [OutboundQueue.Frame(control, 0, false)]);
    assert Ahead(after) == Ahead(conn) + [control];
    assert wire + Tail(cfg, conn, pending) == (wire + Ahead(conn)) + owed;
    CoversInsert(cfg, rows, c, gaps, wire + Ahead(conn), owed, control);
    assert wire + Tail(cfg, after, pending) == (wire + Ahead(conn)) + ([control] + owed);
  }

  lemma ReplyKeepsInv(cfg: Config, w: World, control: ServerMsg)
    requires Inv(cfg, w)
    ensures Inv(cfg, DoReply(w, control))
  {
    hide Covers, AccountedTo, SeenInv, LogOf, Tail;
    if w.conn.Some? && Serving(w.conn.value) && Inert(control) && w.client.wire.Some? {
      var conn := w.conn.value;
      var queued := Bodies(conn.queue.frames);
      var after := DoReply(w, control).conn.value;
      BodiesConcat(conn.queue.frames, [OutboundQueue.Frame(control, 0, false)]);
      assert Bodies(after.queue.frames) == queued + [control];
      assert PlainReal(w.committed, queued + [control]);
      if conn.phase.Live? {
        ReplyKeepsLive(cfg, w.committed, Reached(w.client), w.client.gaps, w.client.wire.value, conn, w.pending, control);
      }
    }
  }

  /** An inert message anywhere in the stream changes nothing. */
  lemma {:induction false} CoversInsert(cfg: Config, rows: seq<Row>, c: nat, gaps: set<(nat, nat)>,
                                        left: seq<ServerMsg>, right: seq<ServerMsg>, control: ServerMsg)
    requires Covers(cfg, rows, c, gaps, left + right) && Inert(control)
    ensures Covers(cfg, rows, c, gaps, left + ([control] + right))
    decreases |left|
  {
    if left == [] {
      assert left + right == right;
      assert left + ([control] + right) == [control] + right;
      CoversInert(cfg, rows, c, gaps, [control], right);
    } else {
      assert (left + right)[1..] == left[1..] + right;
      assert (left + ([control] + right))[1..] == left[1..] + ([control] + right);
      match left[0] {
        case EventMsg(row) => CoversInsert(cfg, rows, Max(c, row.seqno), gaps, left[1..], right, control);
        case ReplayGap(f, e) => CoversInsert(cfg, rows, c, gaps + {(f, e)}, left[1..], right, control);
        case Lagged(_) =>
        case Closing(_) =>
        case _ => CoversInsert(cfg, rows, c, gaps, left[1..], right, control);
      }
    }
  }

  lemma PopMovesFront(cfg: Config, conn: Conn)
    requires conn.held.None? && conn.queue.frames != []
    ensures var after := conn.(queue := OutboundQueue.Pop(conn.queue), held := Some(conn.queue.frames[0]));
      && Bodies(OutboundQueue.Held(after.held)) == Bodies(conn.queue.frames)[..1]
      && Bodies(after.queue.frames) == Bodies(conn.queue.frames)[1..]
      && Ahead(after) == Ahead(conn)
  {
    var queued := Bodies(conn.queue.frames);
    assert queued == queued[..1] + queued[1..];
  }

  lemma PopKeepsInv(cfg: Config, w: World)
    requires Inv(cfg, w)
    ensures Inv(cfg, DoPop(w))
  {
    hide Covers, AccountedTo, SeenInv, LogOf, Ahead;
    if w.conn.Some? && Serving(w.conn.value) && w.conn.value.held.None? && w.conn.value.queue.frames != [] && w.client.wire.Some? {
      var queued := Bodies(w.conn.value.queue.frames);
      PopMovesFront(cfg, w.conn.value);
      assert PlainReal(w.committed, queued[..1]) && PlainReal(w.committed, queued[1..]);
    }
  }

  lemma SendKeepsLive(cfg: Config, rows: seq<Row>, c: nat, gaps: set<(nat, nat)>, wire: seq<ServerMsg>, conn: Conn, pending: seq<Row>)
    requires Numbered(rows) && conn.phase.Live? && conn.held.Some? && LiveInv(cfg, rows, c, gaps, wire, conn, pending)
    ensures var (lag, queue) := OutboundQueue.TakePendingLag(conn.queue);
      LiveInv(cfg, rows, c, gaps, wire + (LagMsgs(lag) + [conn.held.value.body]), conn.(queue := queue, held := None), pending)
  {
    hide Covers, WantedMsgs;
    var (lag, queue) := OutboundQueue.TakePendingLag(conn.queue);
    var after, sent := conn.(queue := queue, held := None), LagMsgs(lag) + [conn.held.value.body];
    assert Owed(cfg, after, pending) == Owed(cfg, conn, pending);
    assert Bodies(OutboundQueue.Held(conn.held)) == [conn.held.value.body];
    assert Ahead(conn) == sent + Ahead(after);
    assert wire + Tail(cfg, conn, pending) == (wire + sent) + Tail(cfg, after, pending);
    assert forall i :: 0 <= i < conn.phase.through ==> rows[..conn.phase.through][i] == rows[i];
    CoversAppend(cfg, rows[..conn.phase.through], c, gaps, wire, sent);
  }

  lemma SendKeepsInv(cfg: Config, w: World)
    requires Inv(cfg, w)
    ensures Inv(cfg, DoSend(w))
  {
    hide Covers, AccountedTo, SeenInv, Tail;
    if w.conn.Some? && w.conn.value.held.Some? && w.client.wire.Some? {
      var conn, wire := w.conn.value, w.client.wire.value;
      var frame := conn.held.value;
      assert Bodies(OutboundQueue.Held(conn.held))[0] == frame.body;
      if conn.phase.Live? {
        SendKeepsLive(cfg, w.committed, Reached(w.client), w.client.gaps, wire, conn, w.pending);
      }
    }
  }

  lemma DisconnectKeepsInv(cfg: Config, w: World)
    requires Inv(cfg, w)
    ensures Inv(cfg, w.(conn := None))
  {
    hide LogOf, ClientInv, SessionInv;
    LoseConnection(cfg, w);
  }

  lemma ServerCloseKeepsInv(cfg: Config, w: World, reason: ClosingReason)
    requires Inv(cfg, w)
    ensures Inv(cfg, DoServerClose(w, reason))
  {
    LoseConnection(cfg, w);
    if w.conn.Some? && w.client.wire.Some? {
      var wire := w.client.wire.value;
      CoversCut(cfg, w.committed, Reached(w.client), w.client.gaps, wire, [Closing(Shutdown)], Closing(reason), [Closing(Shutdown)]);
      assert wire + ([Closing(reason)] + [Closing(Shutdown)]) == (wire + [Closing(reason)]) + [Closing(Shutdown)];
    }
  }

  // ---------------------------------------------------------------- client actions

  /** The client's whole stream: what is on its wire and what the connection will still send. */
  function Stream(cfg: Config, w: World, wire: seq<ServerMsg>): seq<ServerMsg> {
    match w.conn
    case None => wire + [Closing(Shutdown)]
    case Some(conn) => wire + Tail(cfg, conn, w.pending)
  }

  /** The client takes an event exactly when its number is above the cursor; nothing it is owed
      lies between the two, so once the handler has returned all is accounted for up to there. */
  lemma ReceiveEventAdvances(cfg: Config, w: World, row: Row, rest: seq<ServerMsg>)
    requires LogInv(w) && ClientInv(cfg, w.committed, w.client) && w.client.phase.Ready?
    requires row in w.committed
    requires Covers(cfg, w.committed, w.client.resume.cursor, w.client.gaps, [EventMsg(row)] + rest)
    ensures ShouldProcess(w.client.resume, row.id, row.seqno) <==> row.seqno > w.client.resume.cursor
    ensures Covers(cfg, w.committed, Max(w.client.resume.cursor, row.seqno), w.client.gaps, rest)
    ensures row.seqno > w.client.resume.cursor ==>
      AccountedTo(cfg, w.committed, row.seqno, w.client.completed + {row.id}, w.client.gaps)
  {
    var rows, r := w.committed, w.client.resume;
    assert ([EventMsg(row)] + rest)[1..] == rest;
    if row.id in r.seen {
      var i :| 0 <= i < |rows| && rows[i].id == row.id && rows[i].seqno <= r.cursor;
      var k :| 0 <= k < |rows| && rows[k] == row;
      assert i == k;
    }
    forall i | row.seqno > r.cursor && 0 <= i < |rows| && cfg.initial < rows[i].seqno <= row.seqno && Wanted(cfg, rows[i])
      ensures rows[i].id in w.client.completed + {row.id} || InGap(rows[i].seqno, w.client.gaps)
    {
      var k :| 0 <= k < |rows| && rows[k] == row;
      if rows[i].seqno == row.seqno {
        assert i == k;
      }
    }
  }

  /** Only a live connection's wire, or a lost one's, carries more than inert frames. */
  lemma NotInertMeansLive(cfg: Config, w: World, wire: seq<ServerMsg>)
    requires SessionInv(cfg, w) && w.client.wire == Some(wire) && wire != [] && !Inert(wire[0])
    ensures w.conn.Some? ==> w.conn.value.phase.Live?
  {
  }

  lemma StreamHead(cfg: Config, w: World, wire: seq<ServerMsg>)
    requires wire != []
    ensures Stream(cfg, w, wire) == [wire[0]] + Stream(cfg, w, wire[1..])
    ensures ([wire[0]] + Stream(cfg, w, wire[1..]))[1..] == Stream(cfg, w, wire[1..])
  {
  }

  lemma ReceiveEventKeepsInv(cfg: Config, w: World, wire: seq<ServerMsg>, row: Row)
    requires Inv(cfg, w) && w.client.phase.Ready? && w.client.wire == Some(wire)
    requires wire != [] && wire[0] == EventMsg(row)
    ensures Inv(cfg, DoReceive(w))
  {
    hide Covers, AccountedTo, SeenInv, Tail;
    StreamHead(cfg, w, wire);
    NotInertMeansLive(cfg, w, wire);
    ReceiveEventAdvances(cfg, w, row, Stream(cfg, w, wire[1..]));
    assert Real(w.committed, wire[1..]);
    if w.conn.Some? {
      ReplayedPartAdvances(cfg, w.committed[..w.conn.value.phase.through], w.client.resume.cursor, w.client.gaps, wire);
    }
  }

  lemma ReplayedPartAdvances(cfg: Config, rows: seq<Row>, c: nat, gaps: set<(nat, nat)>, wire: seq<ServerMsg>)
    requires wire != [] && Covers(cfg, rows, c, gaps, wire)
    ensures wire[0].EventMsg? ==> Covers(cfg, rows, Max(c, wire[0].row.seqno), gaps, wire[1..])
    ensures wire[0].ReplayGap? ==> Covers(cfg, rows, c, gaps + {(wire[0].fromSeq, wire[0].earliestSeq)}, wire[1..])
    ensures Inert(wire[0]) ==> Covers(cfg, rows, c, gaps, wire[1..])
  {
  }

  lemma ReceiveGapKeepsInv(cfg: Config, w: World, wire: seq<ServerMsg>, fromSeq: nat, earliestSeq: nat)
    requires Inv(cfg, w) && w.client.phase.Ready? && w.client.wire == Some(wire)
    requires wire != [] && wire[0] == ReplayGap(fromSeq, earliestSeq)
    ensures Inv(cfg, DoReceive(w))
  {
    hide Covers, AccountedTo, SeenInv, LogOf, Tail;
    StreamHead(cfg, w, wire);
    NotInertMeansLive(cfg, w, wire);
    ReplayedPartAdvances(cfg, w.committed, w.client.resume.cursor, w.client.gaps, Stream(cfg, w, wire));
    MoreGaps(cfg, w.committed, w.client, (fromSeq, earliestSeq));
    assert Real(w.committed, wire[1..]);
    if w.conn.Some? {
      ReplayedPartAdvances(cfg, w.committed[..w.conn.value.phase.through], w.client.resume.cursor, w.client.gaps, wire);
    }
  }

  lemma ReceiveInertKeepsInv(cfg: Config, w: World, wire: seq<ServerMsg>)
    requires Inv(cfg, w) && w.client.phase.Ready? && w.client.wire == Some(wire)
    requires wire != [] && Inert(wire[0])
    ensures Inv(cfg, DoReceive(w))
  {
    hide Covers, AccountedTo, SeenInv, LogOf, Tail;
    StreamHead(cfg, w, wire);
    assert Real(w.committed, wire[1..]) && (AllInert(wire) ==> AllInert(wire[1..]));
    if w.conn.None? || w.conn.value.phase.Live? {
      ReplayedPartAdvances(cfg, w.committed, w.client.resume.cursor, w.client.gaps, Stream(cfg, w, wire));
    }
    if w.conn.Some? && w.conn.value.phase.Live? {
      ReplayedPartAdvances(cfg, w.committed[..w.conn.value.phase.through], w.client.resume.cursor, w.client.gaps, wire);
    }
  }

  lemma ReceiveEndKeepsInv(cfg: Config, w: World, wire: seq<ServerMsg>)
    requires Inv(cfg, w) && w.client.phase.Ready? && w.client.wire == Some(wire)
    requires wire != [] && (wire[0].Lagged? || wire[0].Closing?)
    ensures Inv(cfg, DoReceive(w))
  {
    hide Covers, Real, PlainReal, AccountedTo, SeenInv, HoldsSince, LogOf;
  }

  lemma ReceiveKeepsInv(cfg: Config, w: World)
    requires Inv(cfg, w)
    ensures Inv(cfg, DoReceive(w))
  {
    hide Inv;
    if w.client.phase.Ready? && w.client.wire.Some? && w.client.wire.value != [] {
      var wire := w.client.wire.value;
      match wire[0] {
        case EventMsg(row) => ReceiveEventKeepsInv(cfg, w, wire, row);
        case ReplayGap(fromSeq, earliestSeq) => ReceiveGapKeepsInv(cfg, w, wire, fromSeq, earliestSeq);
        case Lagged(_) => ReceiveEndKeepsInv(cfg, w, wire);
        case Closing(_) => ReceiveEndKeepsInv(cfg, w, wire);
        case _ => ReceiveInertKeepsInv(cfg, w, wire);
      }
    }
  }

  lemma MoreGaps(cfg: Config, rows: seq<Row>, client: ClientState, gap: (nat, nat))
    requires ClientInv(cfg, rows, client)
    ensures ClientInv(cfg, rows, client.(gaps := client.gaps + {gap}))
  {
    var gaps := client.gaps + {gap};
    forall s: nat | InGap(s, client.gaps)
      ensures InGap(s, gaps)
    {
      var g :| g in client.gaps && g.0 < s < g.1;
      assert g in gaps;
    }
  }

  lemma RecordKeepsSeen(rows: seq<Row>, r: Resume, row: Row)
    requires SeenInv(rows, r) && row in rows
    ensures SeenInv(rows, Record(r, row.id, row.seqno))
  {
    var next := Record(r, row.id, row.seqno);
    var k :| 0 <= k < |rows| && rows[k] == row;
    forall id | id in next.seen
      ensures exists i :: 0 <= i < |rows| && rows[i].id == id && rows[i].seqno <= next.cursor
    {
      if id in r.seen {
        var i :| 0 <= i < |rows| && rows[i].id == id && rows[i].seqno <= r.cursor;
        assert rows[i].seqno <= next.cursor;
      } else {
        assert rows[k].id == id;
      }
    }
  }

  lemma RecordKeepsInv(cfg: Config, w: World)
    requires Inv(cfg, w)
    ensures Inv(cfg, DoRecord(w))
  {
    hide Covers, Real, PlainReal, AccountedTo, SeenInv, HoldsSince, Tail;
    if w.client.phase.Handling? {
      RecordKeepsSeen(w.committed, w.client.resume, w.client.phase.row);
    }
  }

  // --------------------------------------------------------------- the whole run

  lemma ConnectKeepsInv(cfg: Config, w: World)
    requires Inv(cfg, w)
    ensures Inv(cfg, DoConnect(cfg, w))
  {
    hide AccountedTo, SeenInv, LogOf;
  }

  lemma ReadFloorKeepsInv(cfg: Config, w: World)
    requires Inv(cfg, w)
    ensures Inv(cfg, DoReadFloor(w))
  {
    hide AccountedTo, SeenInv, Covers, WantedMsgs, LogOf;
  }

  /** At the head snapshot every committed row is at or below the mark. */
  lemma ReadHeadKeepsInv(cfg: Config, w: World)
    requires Inv(cfg, w)
    ensures Inv(cfg, DoReadHead(w))
  {
    hide AccountedTo, SeenInv, Covers;
    if w.conn.Some? && w.conn.value.phase.FloorRead? && w.client.wire.Some? {
      var conn := DoReadHead(w).conn.value;
      forall row | row in w.committed
        ensures row.seqno <= Mark(conn)
      {
        var i :| 0 <= i < |w.committed| && w.committed[i] == row;
      }
      EventsAboveNone(Bodies(conn.queue.frames), Mark(conn));
      assert forall i :: 0 <= i < |w.pending| ==> w.pending[i] in w.committed;
      WantedAtOrBelow(cfg, w.pending, Mark(conn));
      WantedAtOrBelow(cfg, w.committed, Mark(conn));
    }
  }

  lemma SaveKeepsInv(cfg: Config, w: World)
    requires Inv(cfg, w)
    ensures Inv(cfg, DoSave(w))
  {
    hide AccountedTo, SeenInv, LogOf, Covers;
  }

  lemma EndingKeepsInv(cfg: Config, w: World)
    requires Inv(cfg, w)
    ensures w.client.phase.Ready? ==> Inv(cfg, Ended(w, w.client))
    ensures Inv(cfg, Ended(w, w.client.(phase := Stopped)))
    ensures Inv(cfg, DoClientCrash(cfg, w))
  {
  }

  lemma CommitKeepsInv(cfg: Config, w: World, events: seq<Emission>, tsMs: nat)
    requires Inv(cfg, w)
    ensures Inv(cfg, DoCommit(w, events, tsMs))
  {
    hide LogOf, ClientInv, SessionInv;
    if FreshIds(w.committed, events) {
      CommitKeepsLog(w, events, tsMs);
      CommitKeepsClient(cfg, w.committed, Stamped(w.log.head, events, tsMs), w.client);
      CommitKeepsSession(cfg, w, events, tsMs);
    }
  }

  lemma PruneKeepsInv(cfg: Config, w: World, nowMs: nat)
    requires Inv(cfg, w)
    ensures Inv(cfg, w.(log := PruneTo(w.log, cfg.limits, nowMs)))
  {
    hide LogOf, ClientInv, Covers, PlainReal, Real, AllInert, HoldsSince, LiveInv;
    PruneKeepsLog(w, cfg.limits, nowMs);
  }

  lemma ServerStepKeepsInv(cfg: Config, w: World, action: Action)
    requires Inv(cfg, w) && Orderly(cfg, w, action)
    requires action.Commit? || action.Push? || action.PruneLog? || action.ServerCrash?
             || action.Subscribe? || action.ReadFloor? || action.ReadHead? || action.Scan?
    ensures Inv(cfg, Do(cfg, w, action))
  {
    hide Inv;
    match action {
      case Commit(events, tsMs) => CommitKeepsInv(cfg, w, events, tsMs);
      case Push(k) => PushKeepsInv(cfg, w, k);
      case PruneLog(nowMs) => PruneKeepsInv(cfg, w, nowMs);
      case ServerCrash(nowMs) => CrashKeepsInv(cfg, w, nowMs);
      case Subscribe => SubscribeKeepsInv(cfg, w);
      case Scan => ScanKeepsInv(cfg, w);
      case ReadFloor => ReadFloorKeepsInv(cfg, w);
      case ReadHead => ReadHeadKeepsInv(cfg, w);
    }
  }

  lemma StepKeepsInv(cfg: Config, w: World, action: Action)
    requires Inv(cfg, w) && Orderly(cfg, w, action)
    ensures Inv(cfg, Do(cfg, w, action))
  {
    hide Inv;
    match action {
      case Connect => ConnectKeepsInv(cfg, w);
      case Reply(control) => ReplyKeepsInv(cfg, w, control);
      case PopFrame => PopKeepsInv(cfg, w);
      case SendFrame => SendKeepsInv(cfg, w);
      case ServerClose(reason) => ServerCloseKeepsInv(cfg, w, reason);
      case Disconnect => DisconnectKeepsInv(cfg, w);
      case Receive => ReceiveKeepsInv(cfg, w);
      case RecordCursor => RecordKeepsInv(cfg, w);
      case SaveCursor => SaveKeepsInv(cfg, w);
      case EndSession => EndingKeepsInv(cfg, w);
      case Fail => EndingKeepsInv(cfg, w);
      case ClientCrash => EndingKeepsInv(cfg, w);
      case _ => ServerStepKeepsInv(cfg, w, action);
    }
  }

  lemma {:induction false} RunFromKeepsInv(cfg: Config, w: World, actions: seq<Action>)
    requires Inv(cfg, w) && OrderlyFrom(cfg, w, actions)
    ensures Inv(cfg, RunFrom(cfg, w, actions))
    decreases |actions|
  {
    hide Inv;
    if actions != [] {
      var n := |actions| - 1;
      var before := actions[..n];
      assert forall m :: 0 <= m < n ==> before[..m] == actions[..m] && before[m] == actions[m];
      RunFromKeepsInv(cfg, w, before);
      assert Orderly(cfg, RunFrom(cfg, w, actions[..n]), actions[n]);
      StepKeepsInv(cfg, RunFrom(cfg, w, before), actions[n]);
    }
  }

  lemma {:induction false} RunKeepsInv(cfg: Config, actions: seq<Action>)
    requires OrderlyRun(cfg, actions)
    ensures Inv(cfg, RunFrom(cfg, Start(cfg), actions))
  {
    RunFromKeepsInv(cfg, Start(cfg), actions);
  }
}
