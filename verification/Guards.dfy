/** Two of the guards are exact. On a live subscription a push is safe in every continuation if and
    only if it overtakes no row the subscriber is owed; and for a client that has passed a number not
    announced as gone, a restart is safe if and only if it finds the table non-empty or the log new. */
module Guards {
  import opened Wrappers
  import opened Messages
  import opened DeliveryLog
  import opened SubscriberSocket
  import opened ResumeState
  import opened Pipeline
  import opened Coverage
  import opened Delivery
  import opened Promises
  import Channel
  import OutboundQueue

  /** No orderly continuation skips an event in silence. */
  ghost predicate SafeFrom(cfg: Config, w: World) {
    forall more :: OrderlyFrom(cfg, w, more) ==> NothingSkipped(cfg, RunFrom(cfg, w, more))
  }

  // ------------------------------------------------- a row the client has not heard of

  ghost predicate Omits(msgs: seq<ServerMsg>, s: nat) {
    forall i :: 0 <= i < |msgs| ==>
      && (msgs[i].EventMsg? ==> msgs[i].row.seqno != s)
      && (msgs[i].ReplayGap? ==> !(msgs[i].fromSeq < s < msgs[i].earliestSeq))
  }

  ghost predicate ClientUnaware(client: ClientState, row: Row) {
    && row.id !in client.completed
    && !InGap(row.seqno, client.gaps)
    && (client.phase.Handling? ==> client.phase.row.seqno != row.seqno)
    && (client.wire.Some? ==> Omits(client.wire.value, row.seqno))
  }

  ghost predicate ConnOmits(conn: Conn, s: nat) {
    Omits(Bodies(OutboundQueue.Held(conn.held)), s) && Omits(Bodies(conn.queue.frames), s)
  }

  /** Neither the client nor anything on its way to the client mentions the row. */
  ghost predicate Untold(client: ClientState, conn: Conn, row: Row) {
    ClientUnaware(client, row) && ConnOmits(conn, row.seqno)
  }

  // ------------------------------------------------------ owed rows are yet to be told

  ghost predicate Sorted(rows: seq<Row>) {
    forall i, j :: 0 <= i < j < |rows| ==> rows[i].seqno < rows[j].seqno
  }

  ghost predicate CompletedReal(rows: seq<Row>, completed: set<Uuid>) {
    forall id :: id in completed ==> exists i :: 0 <= i < |rows| && rows[i].id == id
  }

  ghost predicate FloorsSound(cfg: Config, committed: seq<Row>, conn: Conn) {
    && cfg.initial <= conn.afterSeq
    && match conn.phase
       case FloorRead(floor) => floor <= |committed|
       case HeadRead(floor, head) => floor <= head
       case _ => true
  }

  ghost predicate OwedUntold(client: ClientState, conn: Conn, pending: seq<Row>) {
    PastHead(conn) ==> forall i :: 0 <= i < |pending| && pending[i].seqno > Mark(conn) ==> Untold(client, conn, pending[i])
  }

  ghost predicate Fresh(cfg: Config, w: World) {
    && Sorted(w.pending)
    && CompletedReal(w.committed, w.client.completed)
    && (w.conn.Some? ==> FloorsSound(cfg, w.committed, w.conn.value) && OwedUntold(w.client, w.conn.value, w.pending))
  }

  lemma RealOmitsNew(rows: seq<Row>, msgs: seq<ServerMsg>, s: nat)
    requires Numbered(rows) && Real(rows, msgs) && s > |rows|
    requires forall i :: 0 <= i < |msgs| ==> GapBelow(msgs[i], |rows| + 1)
    ensures Omits(msgs, s)
  {
    forall i | 0 <= i < |msgs| && msgs[i].EventMsg?
      ensures msgs[i].row.seqno != s
    {
      var k :| 0 <= k < |rows| && rows[k] == msgs[i].row;
    }
  }

  lemma NewRowUntold(cfg: Config, w: World, conn: Conn, row: Row)
    requires Inv(cfg, w) && Honest(w) && w.conn == Some(conn) && CompletedReal(w.committed, w.client.completed)
    requires row.seqno > |w.committed| && forall i :: 0 <= i < |w.committed| ==> w.committed[i].id != row.id
    ensures Untold(w.client, conn, row)
  {
    hide Covers, AccountedTo, SeenInv, LiveInv, BeforeReplay;
    assert LowWater(w) <= |w.committed| + 1;
    RealOmitsNew(w.committed, w.client.wire.value, row.seqno);
    RealOmitsNew(w.committed, Bodies(conn.queue.frames), row.seqno);
    RealOmitsNew(w.committed, Bodies(OutboundQueue.Held(conn.held)), row.seqno);
    if w.client.phase.Handling? {
      var k :| 0 <= k < |w.committed| && w.committed[k] == w.client.phase.row;
    }
  }

  lemma CommitKeepsFresh(cfg: Config, w: World, events: seq<Emission>, tsMs: nat)
    requires Inv(cfg, w) && Honest(w) && Fresh(cfg, w)
    ensures Fresh(cfg, DoCommit(w, events, tsMs))
  {
    hide SessionInv, ClientInv, Honest, Untold;
    if FreshIds(w.committed, events) {
      var rows := Stamped(w.log.head, events, tsMs);
      var next := DoCommit(w, events, tsMs);
      forall id | id in w.client.completed
        ensures exists i :: 0 <= i < |next.committed| && next.committed[i].id == id
      {
        var i :| 0 <= i < |w.committed| && w.committed[i].id == id;
        assert next.committed[i].id == id;
      }
      forall i | 0 <= i < |w.pending|
        ensures w.pending[i].seqno <= |w.committed|
      {
        assert w.pending[i] in w.committed;
        var k :| 0 <= k < |w.committed| && w.committed[k] == w.pending[i];
      }
      if w.conn.Some? {
        forall i | 0 <= i < |rows|
          ensures Untold(w.client, w.conn.value, rows[i])
        {
          NewRowUntold(cfg, w, w.conn.value, rows[i]);
        }
      }
    }
  }

  lemma PushOmits(q: OutboundQueue.QueueState<ServerMsg>, row: Row, s: nat)
    requires Omits(Bodies(q.frames), s) && row.seqno != s
    ensures Omits(Bodies(OutboundQueue.PushEvent(q, EventMsg(row), row.text).frames), s)
  {
    PushJoinsBack(q, EventMsg(row), row.text);
    var r := OutboundQueue.PushEvent(q, EventMsg(row), row.text);
    forall i | 0 <= i < |r.frames|
      ensures r.frames[i].body == EventMsg(row) || exists k :: 0 <= k < |q.frames| && Bodies(q.frames)[k] == r.frames[i].body
    {
      if r.frames[i] in q.frames {
        var k :| 0 <= k < |q.frames| && q.frames[k] == r.frames[i];
        assert Bodies(q.frames)[k] == r.frames[i].body;
      }
    }
  }

  /** A push tells the client of its own row only. */
  lemma PushKeepsUntold(cfg: Config, w: World, conn: Conn, k: nat, row: Row)
    requires k < |w.pending| && w.conn == Some(conn) && Untold(w.client, conn, row) && w.pending[k].seqno != row.seqno
    ensures DoPush(cfg, w, k).conn.Some? && Untold(w.client, DoPush(cfg, w, k).conn.value, row)
  {
    hide Omits, ClientUnaware;
    if Wanted(cfg, w.pending[k]) {
      PushOmits(conn.queue, w.pending[k], row.seqno);
    }
  }

  lemma PushKeepsFresh(cfg: Config, w: World, k: nat)
    requires Fresh(cfg, w)
    ensures Fresh(cfg, DoPush(cfg, w, k))
  {
    hide Untold, OutboundQueue.PushEvent;
    if k < |w.pending| {
      var next := DoPush(cfg, w, k);
      assert next.pending == Rest(w.pending, k);
      if w.conn.Some? && PastHead(w.conn.value) {
        forall i | 0 <= i < |next.pending| && next.pending[i].seqno > Mark(w.conn.value)
          ensures Untold(next.client, next.conn.value, next.pending[i])
        {
          var j := if i < k then i else i + 1;
          assert next.pending[i] == w.pending[j];
          PushKeepsUntold(cfg, w, w.conn.value, k, w.pending[j]);
        }
      }
    }
  }

  lemma {:induction false} UpToBelow(rows: seq<Row>, head: nat)
    ensures forall i :: 0 <= i < |UpTo(rows, head)| ==> UpTo(rows, head)[i].seqno <= head
  {
    if rows != [] && rows[0].seqno <= head {
      UpToBelow(rows[1..], head);
    }
  }

  lemma OmitsConcat(left: seq<ServerMsg>, right: seq<ServerMsg>, s: nat)
    requires Omits(left, s) && Omits(right, s)
    ensures Omits(left + right, s)
  {
  }

  /** A replay speaks of nothing beyond its head. */
  lemma ReplayOmits(cfg: Config, conn: Conn, table: seq<Row>, s: nat)
    requires conn.phase.HeadRead? && conn.phase.floor <= conn.phase.head < s
    ensures Omits(ReplayFrames(conn.afterSeq, conn.phase.floor, conn.phase.head, table, cfg.patterns), s)
  {
    UpToBelow(Select(table, EffectiveAfter(conn.afterSeq, conn.phase.floor), Some(cfg.patterns)), conn.phase.head);
  }

  lemma ScanKeepsFresh(cfg: Config, w: World)
    requires Fresh(cfg, w)
    ensures Fresh(cfg, DoScan(cfg, w))
  {
    hide Omits, ReplayFrames;
    if w.conn.Some? && w.conn.value.phase.HeadRead? {
      var conn := w.conn.value;
      var frames := ReplayFrames(conn.afterSeq, conn.phase.floor, conn.phase.head, w.log.table, cfg.patterns);
      forall i | 0 <= i < |w.pending| && w.pending[i].seqno > Mark(conn)
        ensures w.client.wire.Some? ==> Omits(w.client.wire.value + frames, w.pending[i].seqno)
      {
        assert Untold(w.client, conn, w.pending[i]);
        ReplayOmits(cfg, conn, w.log.table, w.pending[i].seqno);
        if w.client.wire.Some? {
          OmitsConcat(w.client.wire.value, frames, w.pending[i].seqno);
        }
      }
    }
  }

  lemma ReadsKeepFresh(cfg: Config, w: World)
    requires Inv(cfg, w) && Fresh(cfg, w)
    ensures Fresh(cfg, DoReadFloor(w)) && Fresh(cfg, DoReadHead(w))
  {
    hide SessionInv, ClientInv, Untold;
    forall i | 0 <= i < |w.pending|
      ensures w.pending[i].seqno <= |w.committed|
    {
      assert w.pending[i] in w.committed;
      var k :| 0 <= k < |w.committed| && w.committed[k] == w.pending[i];
    }
  }

  // ------------------------------------------------- moving messages along tells nothing new

  lemma ReplyKeepsUntold(w: World, control: ServerMsg, row: Row)
    requires w.conn.Some? && Untold(w.client, w.conn.value, row)
    ensures Untold(w.client, DoReply(w, control).conn.value, row)
  {
    var q := w.conn.value.queue;
    BodiesConcat(q.frames, [OutboundQueue.Frame(control, 0, false)]);
  }

  lemma PopKeepsUntold(w: World, row: Row)
    requires w.conn.Some? && Untold(w.client, w.conn.value, row)
    ensures Untold(w.client, DoPop(w).conn.value, row)
  {
    var frames := w.conn.value.queue.frames;
    if frames != [] {
      assert Bodies(frames)[0] == frames[0].body;
      assert Bodies(frames[1..]) == Bodies(frames)[1..];
    }
  }

  lemma SendKeepsUntold(w: World, row: Row)
    requires w.conn.Some? && Untold(w.client, w.conn.value, row)
    ensures Untold(DoSend(w).client, DoSend(w).conn.value, row)
  {
    if w.conn.value.held.Some? && w.client.wire.Some? {
      var lag := OutboundQueue.TakePendingLag(w.conn.value.queue).0;
      var body := w.conn.value.held.value.body;
      assert Bodies(OutboundQueue.Held(w.conn.value.held))[0] == body;
      OmitsConcat(w.client.wire.value, LagMsgs(lag) + [body], row.seqno);
    }
  }

  lemma ReceiveKeepsUnaware(w: World, row: Row)
    requires ClientUnaware(w.client, row)
    ensures ClientUnaware(DoReceive(w).client, row)
  {
    if w.client.phase.Ready? && w.client.wire.Some? && w.client.wire.value != [] {
      assert Omits(w.client.wire.value[1..], row.seqno);
    }
  }

  /** Recording one row completes no other, since ids differ. */
  lemma RecordKeepsUnaware(w: World, row: Row)
    requires ClientUnaware(w.client, row) && DistinctIds(w.committed) && row in w.committed
    requires w.client.phase.Handling? ==> w.client.phase.row in w.committed
    ensures ClientUnaware(DoRecord(w).client, row)
  {
    if w.client.phase.Handling? {
      var i :| 0 <= i < |w.committed| && w.committed[i] == row;
      var k :| 0 <= k < |w.committed| && w.committed[k] == w.client.phase.row;
      assert i != k ==> w.committed[i].id != w.committed[k].id;
    }
  }

  /** A step that only moves messages towards the client. */
  predicate Moves(action: Action) {
    action.PopFrame? || action.SendFrame? || action.Receive? || action.RecordCursor? || action.SaveCursor?
  }

  lemma MoveKeepsUntold(cfg: Config, w: World, action: Action, row: Row)
    requires Moves(action) && DistinctIds(w.committed) && row in w.committed
    requires w.client.phase.Handling? ==> w.client.phase.row in w.committed
    requires w.conn.Some? && Untold(w.client, w.conn.value, row)
    ensures Do(cfg, w, action).conn.Some? ==> Untold(Do(cfg, w, action).client, Do(cfg, w, action).conn.value, row)
  {
    hide Omits;
    match action {
      case PopFrame => PopKeepsUntold(w, row);
      case SendFrame => SendKeepsUntold(w, row);
      case Receive => ReceiveKeepsUnaware(w, row);
      case RecordCursor => RecordKeepsUnaware(w, row);
      case SaveCursor =>
    }
  }

  /** A move keeps the connection where it is in the session, or ends it. */
  lemma MovesKeepPlace(cfg: Config, w: World, action: Action)
    requires Moves(action)
    ensures var next := Do(cfg, w, action);
      && next.pending == w.pending && next.committed == w.committed
      && (next.conn.Some? ==> w.conn.Some?)
      && (next.conn.Some? ==> next.conn.value.phase == w.conn.value.phase)
      && (next.conn.Some? ==> next.conn.value.afterSeq == w.conn.value.afterSeq)
  {
  }

  lemma MovesKeepCompletedReal(cfg: Config, w: World, action: Action)
    requires Moves(action) && CompletedReal(w.committed, w.client.completed)
    requires w.client.phase.Handling? ==> w.client.phase.row in w.committed
    ensures CompletedReal(w.committed, Do(cfg, w, action).client.completed)
  {
    if action.RecordCursor? && w.client.phase.Handling? {
      var k :| 0 <= k < |w.committed| && w.committed[k] == w.client.phase.row;
      assert w.committed[k].id == w.client.phase.row.id;
    }
  }

  lemma InHandReal(cfg: Config, w: World)
    requires Inv(cfg, w)
    ensures DistinctIds(w.committed)
    ensures w.client.phase.Handling? ==> w.client.phase.row in w.committed
    ensures forall row :: row in w.pending ==> row in w.committed
  {
    hide SessionInv;
  }

  lemma MovesKeepFresh(cfg: Config, w: World, action: Action)
    requires Inv(cfg, w) && Fresh(cfg, w) && Moves(action)
    ensures Fresh(cfg, Do(cfg, w, action))
  {
    hide Inv, Untold, CompletedReal, Do;
    var next := Do(cfg, w, action);
    MovesKeepPlace(cfg, w, action);
    InHandReal(cfg, w);
    MovesKeepCompletedReal(cfg, w, action);
    if next.conn.Some? && PastHead(next.conn.value) {
      forall i | 0 <= i < |w.pending| && w.pending[i].seqno > Mark(w.conn.value)
        ensures Untold(next.client, next.conn.value, w.pending[i])
      {
        MoveKeepsUntold(cfg, w, action, w.pending[i]);
      }
    }
  }

  lemma ReplyKeepsFresh(cfg: Config, w: World, control: ServerMsg)
    requires Fresh(cfg, w)
    ensures Fresh(cfg, DoReply(w, control))
  {
    hide Untold;
    if w.conn.Some? && PastHead(w.conn.value) {
      forall i | 0 <= i < |w.pending| && w.pending[i].seqno > Mark(w.conn.value)
        ensures Untold(w.client, DoReply(w, control).conn.value, w.pending[i])
      {
        ReplyKeepsUntold(w, control, w.pending[i]);
      }
    }
  }

  lemma OtherStepsKeepFresh(cfg: Config, w: World, action: Action)
    requires Inv(cfg, w) && Fresh(cfg, w)
    requires action.PruneLog? || action.ServerCrash? || action.Connect? || action.Subscribe? || action.ServerClose?
             || action.Disconnect? || action.EndSession? || action.Fail? || action.ClientCrash?
    ensures Fresh(cfg, Do(cfg, w, action))
  {
    hide LogOf, SessionInv, AccountedTo, SeenInv, Untold, Reopen, PruneTo;
  }

  lemma StepKeepsFresh(cfg: Config, w: World, action: Action)
    requires Inv(cfg, w) && Honest(w) && Fresh(cfg, w)
    ensures Fresh(cfg, Do(cfg, w, action))
  {
    hide Inv, Honest, Fresh;
    match action {
      case Commit(events, tsMs) => CommitKeepsFresh(cfg, w, events, tsMs);
      case Push(k) => PushKeepsFresh(cfg, w, k);
      case ReadFloor => ReadsKeepFresh(cfg, w);
      case ReadHead => ReadsKeepFresh(cfg, w);
      case Scan => ScanKeepsFresh(cfg, w);
      case Reply(control) => ReplyKeepsFresh(cfg, w, control);
      case PopFrame => MovesKeepFresh(cfg, w, action);
      case SendFrame => MovesKeepFresh(cfg, w, action);
      case Receive => MovesKeepFresh(cfg, w, action);
      case RecordCursor => MovesKeepFresh(cfg, w, action);
      case SaveCursor => MovesKeepFresh(cfg, w, action);
      case _ => OtherStepsKeepFresh(cfg, w, action);
    }
  }

  lemma {:induction false} RunStaysFresh(cfg: Config, actions: seq<Action>)
    requires OrderlyRun(cfg, actions)
    ensures Fresh(cfg, RunFrom(cfg, Start(cfg), actions))
  {
    if actions != [] {
      hide Inv, Honest, Fresh;
      var n := |actions| - 1;
      var before := actions[..n];
      assert forall m :: 0 <= m < n ==> before[..m] == actions[..m] && before[m] == actions[m];
      RunStaysFresh(cfg, before);
      RunKeepsInv(cfg, before);
      RunStaysHonest(cfg, before);
      StepKeepsFresh(cfg, RunFrom(cfg, Start(cfg), before), actions[n]);
    }
  }

  // --------------------------------------------------------- reading the stream to its end

  ghost predicate HasEvent(msgs: seq<ServerMsg>, m: nat) {
    exists i :: 0 <= i < |msgs| && msgs[i].EventMsg? && msgs[i].row.seqno >= m
  }

  /** The client has reached the number m or will, once it has read what is on its way. */
  ghost predicate Coming(w: World, conn: Conn, wire: seq<ServerMsg>, m: nat) {
    || w.client.resume.cursor >= m
    || (w.client.phase.Handling? && w.client.phase.row.seqno >= m)
    || HasEvent(wire, m)
    || HasEvent(Bodies(OutboundQueue.Held(conn.held)), m)
    || HasEvent(Bodies(conn.queue.frames), m)
  }

  /** A live session that loses nothing, with the row untold and the number m on its way. */
  ghost predicate Misses(w: World, row: Row, m: nat) {
    && DistinctIds(w.committed) && row in w.committed
    && SeenInv(w.committed, w.client.resume)
    && (w.client.phase.Handling? ==> w.client.phase.row in w.committed)
    && !w.client.phase.Stopped?
    && w.conn.Some? && w.conn.value.phase.Live? && w.conn.value.queue.lagPending == 0
    && StillReading(w.client) && Real(w.committed, w.client.wire.value)
    && PlainReal(w.committed, Bodies(OutboundQueue.Held(w.conn.value.held)))
    && PlainReal(w.committed, Bodies(w.conn.value.queue.frames))
    && Untold(w.client, w.conn.value, row)
    && Coming(w, w.conn.value, w.client.wire.value, m)
  }

  function PhaseWork(phase: ClientPhase): nat {
    match phase
    case Handling(_) => 2
    case Recorded => 1
    case _ => 0
  }

  /** How much there is left to read. */
  function Work(w: World): nat
    requires w.conn.Some? && w.client.wire.Some?
  {
    5 * |w.conn.value.queue.frames| + (if w.conn.value.held.Some? then 4 else 0) + 3 * |w.client.wire.value| + PhaseWork(w.client.phase)
  }

  lemma HasEventConcat(left: seq<ServerMsg>, right: seq<ServerMsg>, m: nat)
    ensures HasEvent(left + right, m) <==> HasEvent(left, m) || HasEvent(right, m)
  {
    if HasEvent(left, m) {
      var i :| 0 <= i < |left| && left[i].EventMsg? && left[i].row.seqno >= m;
      assert (left + right)[i] == left[i];
    }
    if HasEvent(right, m) {
      var i :| 0 <= i < |right| && right[i].EventMsg? && right[i].row.seqno >= m;
      assert (left + right)[|left| + i] == right[i];
    }
  }

  lemma PopMisses(cfg: Config, w: World, row: Row, m: nat)
    requires Misses(w, row, m) && w.conn.value.held.None? && w.conn.value.queue.frames != []
    ensures Misses(DoPop(w), row, m) && Work(DoPop(w)) < Work(w)
  {
    hide HasEvent, Untold, SeenInv;
    PopKeepsUntold(w, row);
    PopMovesFront(cfg, w.conn.value);
    var queued := Bodies(w.conn.value.queue.frames);
    assert queued == queued[..1] + queued[1..];
    HasEventConcat(queued[..1], queued[1..], m);
    assert Bodies(OutboundQueue.Held(w.conn.value.held)) == [];
    assert !HasEvent([], m) by {
      NoEvent(m);
    }
    assert PlainReal(w.committed, queued[..1]) && PlainReal(w.committed, queued[1..]);
  }

  lemma NoEvent(m: nat)
    ensures !HasEvent([], m)
  {
  }

  lemma SendMisses(w: World, row: Row, m: nat)
    requires Misses(w, row, m) && w.conn.value.held.Some?
    ensures Misses(DoSend(w), row, m) && Work(DoSend(w)) < Work(w)
  {
    hide HasEvent, Untold, SeenInv;
    SendKeepsUntold(w, row);
    var body, wire := w.conn.value.held.value.body, w.client.wire.value;
    assert Bodies(OutboundQueue.Held(w.conn.value.held)) == [body];
    assert [body][0] == body;
    assert LagMsgs(None) + [body] == [body];
    HasEventConcat(wire, [body], m);
  }

  lemma RecordMisses(w: World, row: Row, m: nat)
    requires Misses(w, row, m) && w.client.phase.Handling?
    ensures Misses(DoRecord(w), row, m) && Work(DoRecord(w)) < Work(w)
  {
    hide HasEvent, SeenInv;
    RecordKeepsUnaware(w, row);
    RecordKeepsSeen(w.committed, w.client.resume, w.client.phase.row);
  }

  /** An event the client does not take is at or below its cursor. */
  lemma NotTaken(rows: seq<Row>, r: Resume, row: Row)
    requires DistinctIds(rows) && SeenInv(rows, r) && row in rows && !ShouldProcess(r, row.id, row.seqno)
    ensures row.seqno <= r.cursor
  {
    if row.id in r.seen {
      var i :| 0 <= i < |rows| && rows[i].id == row.id && rows[i].seqno <= r.cursor;
      var k :| 0 <= k < |rows| && rows[k] == row;
      assert i == k;
    }
  }

  lemma ReceiveMisses(w: World, row: Row, m: nat)
    requires Misses(w, row, m) && w.client.phase.Ready? && w.client.wire.value != []
    ensures Misses(DoReceive(w), row, m) && Work(DoReceive(w)) < Work(w)
  {
    hide HasEvent, SeenInv, Untold;
    var wire := w.client.wire.value;
    ReceiveKeepsUntold(w, row);
    assert wire == [wire[0]] + wire[1..];
    HasEventConcat([wire[0]], wire[1..], m);
    HasEventOne(wire[0], m);
    assert forall i :: 0 <= i < |wire[1..]| ==> wire[1..][i] == wire[i + 1];
    if wire[0].EventMsg? && !ShouldProcess(w.client.resume, wire[0].row.id, wire[0].row.seqno) {
      NotTaken(w.committed, w.client.resume, wire[0].row);
    }
  }

  lemma ReceiveKeepsUntold(w: World, row: Row)
    requires w.conn.Some? && Untold(w.client, w.conn.value, row)
    ensures Untold(DoReceive(w).client, w.conn.value, row)
  {
    ReceiveKeepsUnaware(w, row);
  }

  lemma HasEventOne(msg: ServerMsg, m: nat)
    ensures HasEvent([msg], m) <==> msg.EventMsg? && msg.row.seqno >= m
  {
    if msg.EventMsg? && msg.row.seqno >= m {
      assert [msg][0] == msg;
    }
  }

  lemma SaveMisses(w: World, row: Row, m: nat)
    requires Misses(w, row, m) && w.client.phase.Recorded?
    ensures Misses(DoSave(w), row, m) && Work(DoSave(w)) < Work(w)
  {
    hide HasEvent, SeenInv;
  }

  lemma WorkIsLeft(w: World, row: Row, m: nat)
    requires Misses(w, row, m) && w.client.resume.cursor < m
    ensures w.conn.Some? && w.client.wire.Some? && !w.client.phase.Stopped?
    ensures w.client.phase.Handling? || w.client.wire.value != [] || w.conn.value.held.Some? || w.conn.value.queue.frames != []
  {
    hide SeenInv, Untold;
  }

  lemma NextMove(cfg: Config, w: World, row: Row, m: nat) returns (action: Action)
    requires Misses(w, row, m) && w.client.resume.cursor < m
    ensures Moves(action) && Misses(Do(cfg, w, action), row, m) && Work(Do(cfg, w, action)) < Work(w)
    ensures Do(cfg, w, action).committed == w.committed
  {
    hide Misses;
    WorkIsLeft(w, row, m);
    if w.client.phase.Handling? {
      action := RecordCursor;
      RecordMisses(w, row, m);
    } else if w.client.phase.Recorded? {
      action := SaveCursor;
      SaveMisses(w, row, m);
    } else if w.client.wire.value != [] {
      action := Receive;
      ReceiveMisses(w, row, m);
    } else if w.conn.value.held.Some? {
      action := SendFrame;
      SendMisses(w, row, m);
    } else {
      action := PopFrame;
      PopMisses(cfg, w, row, m);
    }
  }

  lemma {:induction false} RunFromFirst(cfg: Config, w: World, first: Action, rest: seq<Action>)
    ensures RunFrom(cfg, w, [first] + rest) == RunFrom(cfg, Do(cfg, w, first), rest)
    decreases |rest|
  {
    var all := [first] + rest;
    if rest == [] {
      assert all[..0] == [];
    } else {
      assert all[..|all| - 1] == [first] + rest[..|rest| - 1];
      RunFromFirst(cfg, w, first, rest[..|rest| - 1]);
    }
  }

  /** Reading on carries the client past the row without ever mentioning it. */
  lemma {:induction false} ReadOn(cfg: Config, w: World, row: Row, m: nat) returns (more: seq<Action>)
    requires Misses(w, row, m)
    ensures OrderlyFrom(cfg, w, more)
    ensures var end := RunFrom(cfg, w, more);
      end.committed == w.committed && ClientUnaware(end.client, row) && end.client.resume.cursor >= m
    decreases Work(w)
  {
    more := [];
    if w.client.resume.cursor < m {
      var action := NextMove(cfg, w, row, m);
      var rest := ReadOn(cfg, Do(cfg, w, action), row, m);
      more := [action] + rest;
      RunFromFirst(cfg, w, action, rest);
      forall n | 0 <= n < |more|
        ensures Orderly(cfg, RunFrom(cfg, w, more[..n]), more[n])
      {
        if n > 0 {
          assert more[..n] == [action] + rest[..n - 1];
          RunFromFirst(cfg, w, action, rest[..n - 1]);
          assert more[n] == rest[n - 1];
        }
      }
    }
  }

  // ------------------------------------------------------------------------ the guard

  /** After an overtaking push the overtaken row is missed. */
  lemma OvertakingMisses(cfg: Config, w: World, k: nat, j: nat)
    requires Inv(cfg, w) && Fresh(cfg, w) && w.conn.Some? && w.conn.value.phase.Live?
    requires Follows(cfg, w, k) && j < k && Wanted(cfg, w.pending[j]) && w.pending[j].seqno > Mark(w.conn.value)
    ensures Misses(DoPush(cfg, w, k), w.pending[j], w.pending[k].seqno)
  {
    hide AccountedTo, Covers, LiveInv, OutboundQueue.PushEvent;
    var conn, row := w.conn.value, w.pending[k];
    var next := DoPush(cfg, w, k);
    assert w.pending[j] in w.committed && row in w.committed;
    PushKeepsUntold(cfg, w, conn, k, w.pending[j]);
    PushKeepsQueue(w.committed, conn.queue, row);
    AheadAfterPush(cfg, conn, row);
    HasEventOne(EventMsg(row), row.seqno);
    HasEventConcat(Bodies(conn.queue.frames), [EventMsg(row)], row.seqno);
  }

  /** A client that has passed a wanted row it was never told of has skipped it. */
  lemma PassedUnaware(cfg: Config, w: World, row: Row)
    requires row in w.committed && Wanted(cfg, row) && ClientUnaware(w.client, row)
    requires cfg.initial < row.seqno <= w.client.resume.cursor
    ensures !NothingSkipped(cfg, w)
  {
    hide Wanted, InGap, Omits;
    var i :| 0 <= i < |w.committed| && w.committed[i] == row;
  }

  lemma OwedIsAboveInitial(cfg: Config, w: World, j: nat, k: nat)
    requires LogInv(w) && Fresh(cfg, w) && w.conn.Some? && j < k < |w.pending| && w.pending[j].seqno > Mark(w.conn.value)
    ensures w.pending[j] in w.committed && cfg.initial < w.pending[j].seqno < w.pending[k].seqno
  {
    hide OwedUntold;
  }

  lemma OvertakingSkips(cfg: Config, w: World, k: nat)
    requires Inv(cfg, w) && Fresh(cfg, w) && w.conn.Some? && w.conn.value.phase.Live? && Overtakes(cfg, w, k)
    ensures !SafeFrom(cfg, DoPush(cfg, w, k))
  {
    hide LogInv, ClientInv, SessionInv, Fresh, Misses, NothingSkipped, ClientUnaware, Wanted, OutboundQueue.PushEvent;
    var j :| 0 <= j < k && Wanted(cfg, w.pending[j]) && w.pending[j].seqno > Mark(w.conn.value);
    var next, row := DoPush(cfg, w, k), w.pending[j];
    OvertakingMisses(cfg, w, k, j);
    OwedIsAboveInitial(cfg, w, j, k);
    var more := ReadOn(cfg, next, row, w.pending[k].seqno);
    PassedUnaware(cfg, RunFrom(cfg, next, more), row);
  }

  /** On a live subscription a push is safe if and only if it overtakes no row that the subscriber
      is owed: otherwise some run, orderly from there on, skips that row in silence. */
  lemma {:induction false} PushIsSafeIff(cfg: Config, actions: seq<Action>, k: nat)
    requires OrderlyRun(cfg, actions)
    requires var w := RunFrom(cfg, Start(cfg), actions); w.conn.Some? && w.conn.value.phase.Live?
    ensures var w := RunFrom(cfg, Start(cfg), actions);
      !Overtakes(cfg, w, k) <==> SafeFrom(cfg, Do(cfg, w, Push(k)))
  {
    hide Inv, Fresh, Honest, Overtakes;
    var w := RunFrom(cfg, Start(cfg), actions);
    RunKeepsInv(cfg, actions);
    RunStaysFresh(cfg, actions);
    if Overtakes(cfg, w, k) {
      OvertakingSkips(cfg, w, k);
    } else {
      StepKeepsInv(cfg, w, Push(k));
      OrderlyIsSafe(cfg, Do(cfg, w, Push(k)));
    }
  }

  lemma OrderlyIsSafe(cfg: Config, w: World)
    requires Inv(cfg, w)
    ensures SafeFrom(cfg, w)
  {
    forall more | OrderlyFrom(cfg, w, more)
      ensures NothingSkipped(cfg, RunFrom(cfg, w, more))
    {
      RunFromKeepsInv(cfg, w, more);
    }
  }

  // ------------------------------------------------------------------ the restart guard

  function AboveIds(rows: seq<Row>): (n: nat)
    ensures forall i :: 0 <= i < |rows| ==> rows[i].id < n
  {
    if rows == [] then 0
    else
      var front, last := AboveIds(rows[..|rows| - 1]), rows[|rows| - 1].id;
      if last < front then front else last + 1
  }

  function FreshBatch(channel: string, base: Uuid, n: nat): (events: seq<Emission>)
    ensures |events| == n && forall i :: 0 <= i < n ==> events[i] == Emission(channel, "", base + i, 0, 0)
  {
    seq(n, i requires 0 <= i < n => Emission(channel, "", base + i, 0, 0))
  }

  /** A log that has forgotten its head hands out old numbers again. */
  lemma ForgottenHead(w: World, limits: Limits, nowMs: nat)
    requires LogInv(w) && !RestartSafe(w.log)
    ensures Reopen(w.log, limits, nowMs).head == 0
  {
    var k := PruneRemovesLeastPrefix(Recover(w.log.table), limits, nowMs);
  }

  /** A batch reaching up to s commits a wanted row under a number the client has passed. */
  lemma ReusedNumberSkips(cfg: Config, w: World, s: nat, channel: string)
    requires w.log.head == 0 && CompletedReal(w.committed, w.client.completed)
    requires Channel.AnyMatches(cfg.patterns, channel)
    requires cfg.initial < s <= w.client.resume.cursor && !InGap(s, w.client.gaps)
    ensures !SafeFrom(cfg, w)
  {
    hide InGap, AppendTo;
    var events := FreshBatch(channel, AboveIds(w.committed), s);
    var more := [Commit(events, 0)];
    var end := DoCommit(w, events, 0);
    var rows := Stamped(0, events, 0);
    assert FreshIds(w.committed, events);
    var i := |w.committed| + s - 1;
    assert end.committed[i] == rows[s - 1] && rows[s - 1].seqno == s;
    assert Wanted(cfg, end.committed[i]) && end.committed[i].id !in end.client.completed;
    assert !NothingSkipped(cfg, end);
    assert more[..0] == [] && RunFrom(cfg, w, more) == end;
    assert OrderlyFrom(cfg, w, more);
  }

  /** A restart is safe if and only if the table is not empty or nothing was ever appended, for a
      client that wants some channel and has passed a number not announced as gone. */
  lemma {:induction false} RestartIsSafeIff(cfg: Config, actions: seq<Action>, nowMs: nat, s: nat, channel: string)
    requires OrderlyRun(cfg, actions) && Channel.AnyMatches(cfg.patterns, channel)
    requires var client := RunFrom(cfg, Start(cfg), actions).client;
      cfg.initial < s <= client.resume.cursor && !InGap(s, client.gaps)
    ensures var w := RunFrom(cfg, Start(cfg), actions);
      RestartSafe(w.log) <==> SafeFrom(cfg, Do(cfg, w, ServerCrash(nowMs)))
  {
    hide SessionInv, ClientInv, Honest, InGap, Reopen;
    var w := RunFrom(cfg, Start(cfg), actions);
    RunKeepsInv(cfg, actions);
    RunStaysFresh(cfg, actions);
    if RestartSafe(w.log) {
      StepKeepsInv(cfg, w, ServerCrash(nowMs));
      OrderlyIsSafe(cfg, Do(cfg, w, ServerCrash(nowMs)));
    } else {
      ForgottenHead(w, cfg.limits, nowMs);
      ReusedNumberSkips(cfg, Do(cfg, w, ServerCrash(nowMs)), s, channel);
    }
  }
}
