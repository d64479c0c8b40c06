/** Where what a client receives comes from, on every run: events from emissions, and replay gaps
    from the client's own cursor. */
module Provenance {
  import opened Wrappers
  import opened Messages
  import opened DeliveryLog
  import opened SubscriberSocket
  import opened ResumeState
  import opened Pipeline
  import OutboundQueue
  import Promises

  type QueueState = OutboundQueue.QueueState<ServerMsg>

  // ------------------------------------------------------------ events are emissions

  /** The row carries what one commit of the run emitted: its id, channel and payload, and the time of
      that commit. */
  ghost predicate Emitted(actions: seq<Action>, row: Row) {
    exists n, i ::
      && 0 <= n < |actions| && actions[n].Commit? && 0 <= i < |actions[n].events|
      && row.id == actions[n].events[i].id
      && row.channel == actions[n].events[i].channel
      && row.payload == actions[n].events[i].payload
      && row.tsMs == actions[n].tsMs
  }

  ghost predicate RowsIn(rows: seq<Row>, all: seq<Row>) {
    forall row :: row in rows ==> row in all
  }

  ghost predicate EventsIn(msgs: seq<ServerMsg>, all: seq<Row>) {
    forall msg :: msg in msgs && msg.EventMsg? ==> msg.row in all
  }

  ghost predicate FramesIn(frames: seq<QueuedFrame>, all: seq<Row>) {
    forall frame :: frame in frames && frame.body.EventMsg? ==> frame.body.row in all
  }

  /** Every row anywhere was committed. */
  ghost predicate Sourced(w: World) {
    && RowsIn(w.log.table, w.committed)
    && RowsIn(w.pending, w.committed)
    && (w.conn.Some? ==> FramesIn(w.conn.value.queue.frames + OutboundQueue.Held(w.conn.value.held), w.committed))
    && (w.client.wire.Some? ==> EventsIn(w.client.wire.value, w.committed))
    && (w.client.phase.Handling? ==> w.client.phase.row in w.committed)
  }

  lemma {:induction false} InsertAllRows(table: seq<Row>, rows: seq<Row>)
    ensures forall row :: row in InsertAll(table, rows) ==> row in table || row in rows
  {
    if rows != [] {
      var before := rows[..|rows| - 1];
      InsertAllRows(table, before);
      InsertRows(InsertAll(table, before), rows[|rows| - 1]);
      assert rows == before + [rows[|rows| - 1]];
    }
  }

  lemma {:induction false} InsertRows(table: seq<Row>, added: Row)
    ensures forall row :: row in Insert(table, added) ==> row in table || row == added
  {
    if table != [] {
      InsertRows(table[1..], added);
    }
  }

  lemma {:induction false} ShedRows(s: Shedding, limits: Limits, nowMs: nat)
    ensures forall row :: row in Shed(s, limits, nowMs).table ==> row in s.table
    decreases |s.table|
  {
    hide TooOld;
    if s.table != [] {
      ShedRows(ShedOne(s), limits, nowMs);
    }
  }

  lemma CommitKeepsSourced(w: World, events: seq<Emission>, tsMs: nat)
    requires Sourced(w)
    ensures Sourced(DoCommit(w, events, tsMs))
  {
    InsertAllRows(w.log.table, Stamped(w.log.head, events, tsMs));
  }

  lemma PushKeepsFrames(q: QueueState, row: Row, all: seq<Row>)
    requires FramesIn(q.frames, all) && row in all
    ensures FramesIn(OutboundQueue.PushEvent(q, EventMsg(row), row.text).frames, all)
  {
    OutboundQueue.EvictionOnlyRemoves(q, row.text);
  }

  lemma PushKeepsSourced(cfg: Config, w: World, k: nat)
    requires Sourced(w)
    ensures Sourced(DoPush(cfg, w, k))
  {
    hide Wanted;
    if k < |w.pending| && w.conn.Some? {
      PushKeepsFrames(w.conn.value.queue, w.pending[k], w.committed);
    }
  }

  lemma ScanKeepsSourced(cfg: Config, w: World)
    requires Sourced(w)
    ensures Sourced(DoScan(cfg, w))
  {
    if w.conn.Some? && w.conn.value.phase.HeadRead? {
      var conn := w.conn.value;
      ReplayRowsStored(conn.afterSeq, conn.phase.floor, conn.phase.head, w.log.table, cfg.patterns);
    }
  }

  lemma ReplayRowsStored(afterSeq: nat, floor: nat, head: nat, table: seq<Row>, patterns: seq<string>)
    ensures EventsIn(ReplayFrames(afterSeq, floor, head, table, patterns), table)
  {
    var selected := Select(table, EffectiveAfter(afterSeq, floor), Some(patterns));
    SelectedExactly(table, EffectiveAfter(afterSeq, floor), Some(patterns));
    UpToRows(selected, head);
  }

  lemma {:induction false} UpToRows(rows: seq<Row>, head: nat)
    ensures forall row :: row in UpTo(rows, head) ==> row in rows
  {
    if rows != [] {
      UpToRows(rows[1..], head);
    }
  }

  lemma StepKeepsSourced(cfg: Config, w: World, action: Action)
    requires Sourced(w)
    ensures Sourced(Do(cfg, w, action))
  {
    hide Wanted;
    match action {
      case Commit(events, tsMs) => CommitKeepsSourced(w, events, tsMs);
      case Push(k) => PushKeepsSourced(cfg, w, k);
      case PruneLog(nowMs) => ShedRows(Shedding(w.log.table, w.log.count, w.log.bytes, 0), cfg.limits, nowMs);
      case ServerCrash(nowMs) =>
        var log := Recover(w.log.table);
        ShedRows(Shedding(log.table, log.count, log.bytes, 0), cfg.limits, nowMs);
      case Scan => ScanKeepsSourced(cfg, w);
      case _ =>
    }
  }

  lemma CommittedAreEmitted(before: seq<Action>, action: Action, w: World, row: Row)
    requires forall r :: r in w.committed ==> Emitted(before, r)
    requires action.Commit? && row in DoCommit(w, action.events, action.tsMs).committed
    ensures Emitted(before + [action], row)
  {
    var rows, actions := Stamped(w.log.head, action.events, action.tsMs), before + [action];
    if row in w.committed {
      StillEmitted(before, action, row);
    } else {
      var i :| 0 <= i < |rows| && rows[i] == row;
      assert actions[|before|].events[i] == action.events[i];
    }
  }

  lemma StillEmitted(before: seq<Action>, action: Action, row: Row)
    requires Emitted(before, row)
    ensures Emitted(before + [action], row)
  {
    var n, i :| 0 <= n < |before| && before[n].Commit? && 0 <= i < |before[n].events|
      && row.id == before[n].events[i].id && row.channel == before[n].events[i].channel
      && row.payload == before[n].events[i].payload && row.tsMs == before[n].tsMs;
    assert (before + [action])[n].events[i] == before[n].events[i];
  }

  /** On every run, whatever is pruned, restarted, dropped or disconnected, each event committed, on
      the wire or in the handler's hands carries the id, channel and payload of one that was emitted. */
  lemma {:induction false} EventsAreEmissions(cfg: Config, actions: seq<Action>)
    ensures var w := RunFrom(cfg, Start(cfg), actions);
      && Sourced(w)
      && (forall row :: row in w.committed ==> Emitted(actions, row))
      && (w.client.phase.Handling? ==> Emitted(actions, w.client.phase.row))
  {
    if actions != [] {
      var n := |actions| - 1;
      var before, action := actions[..n], actions[n];
      EventsAreEmissions(cfg, before);
      var w := RunFrom(cfg, Start(cfg), before);
      StepKeepsSourced(cfg, w, action);
      assert actions == before + [action];
      hide Emitted, Sourced;
      forall row | row in Do(cfg, w, action).committed
        ensures Emitted(actions, row)
      {
        if action.Commit? {
          CommittedAreEmitted(before, action, w, row);
        } else {
          CommittedOnlyByCommit(cfg, w, action);
          StillEmitted(before, action, row);
        }
      }
      InHandIsSourced(Do(cfg, w, action));
    }
  }

  lemma InHandIsSourced(w: World)
    requires Sourced(w)
    ensures w.client.phase.Handling? ==> w.client.phase.row in w.committed
  {
  }

  lemma CommittedOnlyByCommit(cfg: Config, w: World, action: Action)
    requires !action.Commit?
    ensures Do(cfg, w, action).committed == w.committed
  {
  }

  // ----------------------------------------------------- gaps start at the cursor

  predicate IsNews(msg: ServerMsg) {
    msg.EventMsg? || msg.ReplayGap?
  }

  ghost predicate NoNews(msgs: seq<ServerMsg>) {
    forall i :: 0 <= i < |msgs| ==> !IsNews(msgs[i])
  }

  /** A gap to be read starts at the cursor, and no event comes before it. */
  ghost predicate GapsAhead(msgs: seq<ServerMsg>, cursor: nat) {
    forall i :: 0 <= i < |msgs| && msgs[i].ReplayGap? ==>
      msgs[i].fromSeq == cursor && forall j :: 0 <= j < i ==> !msgs[j].EventMsg?
  }

  ghost predicate NoGaps(msgs: seq<ServerMsg>) {
    forall i :: 0 <= i < |msgs| ==> !msgs[i].ReplayGap?
  }

  ghost predicate QueuedGaps(frames: seq<QueuedFrame>) {
    exists frame :: frame in frames && frame.body.ReplayGap?
  }

  /** What the server holds for the client and the client's cursor. */
  ghost predicate Aligned(w: World) {
    && (w.conn.Some? ==> !QueuedGaps(w.conn.value.queue.frames + OutboundQueue.Held(w.conn.value.held)))
    && (w.client.wire.Some? ==>
          && GapsAhead(w.client.wire.value, w.client.resume.cursor)
          && (w.client.phase.Ready? || NoGaps(w.client.wire.value)))
    && (w.conn.Some? && !w.conn.value.phase.Live? ==> BeforeNews(w, w.conn.value))
  }

  /** Until the replay is out nothing that moves the cursor is on its way. */
  ghost predicate BeforeNews(w: World, conn: Conn) {
    && conn.afterSeq == w.client.resume.cursor
    && w.client.phase.Ready?
    && (w.client.wire.Some? ==> NoNews(w.client.wire.value))
    && (conn.held.Some? ==> !IsNews(conn.held.value.body))
    && (conn.phase.Connected? ==> forall frame :: frame in conn.queue.frames ==> !IsNews(frame.body))
    && (!conn.phase.Connected? ==> conn.held.None?)
  }

  lemma PushKeepsAligned(cfg: Config, w: World, k: nat)
    requires Aligned(w)
    ensures Aligned(DoPush(cfg, w, k))
  {
    hide Wanted, GapsAhead, NoGaps, NoNews;
    if k < |w.pending| && w.conn.Some? {
      OutboundQueue.EvictionOnlyRemoves(w.conn.value.queue, w.pending[k].text);
    }
  }

  lemma WireGrows(wire: seq<ServerMsg>, more: seq<ServerMsg>, cursor: nat)
    requires GapsAhead(wire, cursor) && NoGaps(more)
    ensures GapsAhead(wire + more, cursor)
    ensures NoGaps(wire) ==> NoGaps(wire + more)
    ensures NoNews(wire) && NoNews(more) ==> NoNews(wire + more)
  {
  }

  lemma ReplayIsAhead(wire: seq<ServerMsg>, afterSeq: nat, floor: nat, head: nat, table: seq<Row>, patterns: seq<string>)
    requires NoNews(wire)
    ensures GapsAhead(wire + ReplayFrames(afterSeq, floor, head, table, patterns), afterSeq)
  {
    var all := wire + ReplayFrames(afterSeq, floor, head, table, patterns);
    var gap := GapFrames(afterSeq, floor);
    forall i | 0 <= i < |all| && all[i].ReplayGap?
      ensures all[i].fromSeq == afterSeq && forall j :: 0 <= j < i ==> !all[j].EventMsg?
    {
      assert i == |wire| + 1 && gap != [];
    }
  }

  lemma ScanKeepsAligned(cfg: Config, w: World)
    requires Aligned(w)
    ensures Aligned(DoScan(cfg, w))
  {
    hide GapsAhead, ReplayFrames, NoNews;
    if w.conn.Some? && w.conn.value.phase.HeadRead? && w.client.wire.Some? {
      var conn := w.conn.value;
      ReplayIsAhead(w.client.wire.value, conn.afterSeq, conn.phase.floor, conn.phase.head, w.log.table, cfg.patterns);
    }
  }

  lemma SendKeepsAligned(w: World)
    requires Aligned(w)
    ensures Aligned(DoSend(w))
  {
    if w.conn.Some? && w.conn.value.held.Some? && w.client.wire.Some? {
      var conn := w.conn.value;
      assert conn.held.value in conn.queue.frames + OutboundQueue.Held(conn.held);
      WireGrows(w.client.wire.value, LagMsgs(OutboundQueue.TakePendingLag(conn.queue).0) + [conn.held.value.body], w.client.resume.cursor);
    }
  }

  lemma ServerCloseKeepsAligned(w: World, reason: ClosingReason)
    requires Aligned(w)
    ensures Aligned(DoServerClose(w, reason))
  {
    if w.client.wire.Some? {
      WireGrows(w.client.wire.value, [Closing(reason)], w.client.resume.cursor);
    }
  }

  lemma WireShrinks(wire: seq<ServerMsg>, cursor: nat)
    requires wire != [] && GapsAhead(wire, cursor)
    ensures GapsAhead(wire[1..], cursor)
    ensures NoNews(wire) ==> NoNews(wire[1..])
    ensures wire[0].EventMsg? ==> NoGaps(wire[1..])
    ensures NoGaps(wire) ==> NoGaps(wire[1..])
  {
    forall i | 0 <= i < |wire| - 1 && wire[1..][i].ReplayGap?
      ensures wire[1..][i].fromSeq == cursor && !wire[0].EventMsg? && forall j :: 0 <= j < i ==> !wire[1..][j].EventMsg?
    {
      assert wire[i + 1].ReplayGap?;
    }
  }

  lemma ReceiveKeepsAligned(w: World)
    requires Aligned(w)
    ensures Aligned(DoReceive(w))
  {
    if w.client.wire.Some? && w.client.wire.value != [] {
      WireShrinks(w.client.wire.value, w.client.resume.cursor);
      hide GapsAhead, NoGaps;
    }
  }

  lemma RecordKeepsAligned(w: World)
    requires Aligned(w)
    ensures Aligned(DoRecord(w))
  {
  }

  lemma StepKeepsAligned(cfg: Config, w: World, action: Action)
    requires Aligned(w)
    ensures Aligned(Do(cfg, w, action))
  {
    hide GapsAhead, NoGaps, NoNews;
    match action {
      case Push(k) => PushKeepsAligned(cfg, w, k);
      case Scan => ScanKeepsAligned(cfg, w);
      case SendFrame => SendKeepsAligned(w);
      case ServerClose(reason) => ServerCloseKeepsAligned(w, reason);
      case Receive => ReceiveKeepsAligned(w);
      case RecordCursor => RecordKeepsAligned(w);
      case Connect => ConnectKeepsAligned(cfg, w);
      case _ =>
    }
  }

  lemma ConnectKeepsAligned(cfg: Config, w: World)
    requires Aligned(w)
    ensures Aligned(DoConnect(cfg, w))
  {
  }

  lemma {:induction false} RunStaysAligned(cfg: Config, actions: seq<Action>)
    ensures Aligned(RunFrom(cfg, Start(cfg), actions))
  {
    if actions != [] {
      RunStaysAligned(cfg, actions[..|actions| - 1]);
      StepKeepsAligned(cfg, RunFrom(cfg, Start(cfg), actions[..|actions| - 1]), actions[|actions| - 1]);
    }
  }

  /** On every run, the gap a client is about to read starts exactly at its cursor, and covers nothing
      this process has been handed. */
  lemma GapsStartAtTheCursor(cfg: Config, actions: seq<Action>)
    requires var client := RunFrom(cfg, Start(cfg), actions).client;
      client.phase.Ready? && client.wire.Some? && client.wire.value != [] && client.wire.value[0].ReplayGap?
    ensures var client := RunFrom(cfg, Start(cfg), actions).client;
      && client.wire.value[0].fromSeq == client.resume.cursor
      && forall n :: n in client.handedOver ==> n <= client.wire.value[0].fromSeq
  {
    RunStaysAligned(cfg, actions);
    Promises.HandledAtMostOncePerProcess(cfg, actions);
  }
}
