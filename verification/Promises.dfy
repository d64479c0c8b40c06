/** What the delivery pipeline promises its subscriber, over every run. */
module Promises {
  import opened Wrappers
  import opened Messages
  import opened DeliveryLog
  import opened SubscriberSocket
  import opened ResumeState
  import opened Pipeline
  import opened Coverage
  import opened Delivery
  import OutboundQueue

  /** No silent skip: in every orderly run, each committed matching event above the initial
      cursor and at or below the client's cursor has been handled to completion, or lies in a replay
      gap the client received. An event in hand when the process dies, or refused by the handler,
      is still above the cursor. */
  lemma {:induction false} NoSilentSkip(cfg: Config, actions: seq<Action>)
    requires OrderlyRun(cfg, actions)
    ensures NothingSkipped(cfg, RunFrom(cfg, Start(cfg), actions))
  {
    RunKeepsInv(cfg, actions);
  }

  /** A live session with nothing left to send, and no drop unannounced. */
  ghost predicate Drained(w: World) {
    && w.client.phase.Ready?
    && w.client.wire == Some([])
    && w.pending == []
    && w.conn.Some?
    && w.conn.value.phase.Live?
    && w.conn.value.held.None?
    && w.conn.value.queue.frames == []
    && w.conn.value.queue.lagPending == 0
  }

  /** Nothing is lost in transit either: once a live session has drained, every committed matching
      event above the initial cursor is handled to completion or announced as gone. */
  lemma {:induction false} DrainedIsComplete(cfg: Config, actions: seq<Action>)
    requires OrderlyRun(cfg, actions)
    requires Drained(RunFrom(cfg, Start(cfg), actions))
    ensures var w := RunFrom(cfg, Start(cfg), actions);
      forall i :: 0 <= i < |w.committed| && Wanted(cfg, w.committed[i]) && cfg.initial < w.committed[i].seqno
        ==> w.committed[i].id in w.client.completed || InGap(w.committed[i].seqno, w.client.gaps)
  {
    RunKeepsInv(cfg, actions);
    var w := RunFrom(cfg, Start(cfg), actions);
    assert Owed(cfg, w.conn.value, []) == [] && Tail(cfg, w.conn.value, w.pending) == [];
    assert [] + Tail(cfg, w.conn.value, w.pending) == [];
  }

  // ---------------------------------------------------------------- at most once

  ghost predicate Increasing(s: seq<nat>) {
    forall i, j :: 0 <= i < j < |s| ==> s[i] < s[j]
  }

  /** What a running client has been handed lies at or below the number it has reached. */
  ghost predicate Climbing(client: ClientState) {
    && Increasing(client.handedOver)
    && (client.phase.Stopped? || forall i :: 0 <= i < |client.handedOver| ==> client.handedOver[i] <= Reached(client))
    && (client.phase.Handling? ==> client.phase.row.seqno > client.resume.cursor)
  }

  lemma ReceiveKeepsClimbing(w: World)
    requires Climbing(w.client)
    ensures Climbing(DoReceive(w).client)
  {
    var client := w.client;
    if client.phase.Ready? && client.wire.Some? && client.wire.value != [] && client.wire.value[0].EventMsg? {
      var row := client.wire.value[0].row;
      if ShouldProcess(client.resume, row.id, row.seqno) {
        assert DoReceive(w).client.handedOver == client.handedOver + [row.seqno];
      }
    }
  }

  lemma RecordKeepsClimbing(w: World)
    requires Climbing(w.client)
    ensures Climbing(DoRecord(w).client)
  {
  }

  lemma StepKeepsClimbing(cfg: Config, w: World, action: Action)
    requires Climbing(w.client)
    ensures Climbing(Do(cfg, w, action).client)
  {
    match action {
      case RecordCursor => RecordKeepsClimbing(w);
      case Receive => ReceiveKeepsClimbing(w);
      case ClientCrash => assert Do(cfg, w, action).client.handedOver == [];
      case _ => assert Do(cfg, w, action).client.handedOver == w.client.handedOver;
    }
  }

  /** At most once, on every run whatever: pushes in any order, restarts, prunes and crashes
      notwithstanding, a client process never hands a number over twice or out of order. */
  lemma {:induction false} HandledAtMostOncePerProcess(cfg: Config, actions: seq<Action>)
    ensures Climbing(RunFrom(cfg, Start(cfg), actions).client)
  {
    if actions != [] {
      var n := |actions| - 1;
      HandledAtMostOncePerProcess(cfg, actions[..n]);
      StepKeepsClimbing(cfg, RunFrom(cfg, Start(cfg), actions[..n]), actions[n]);
    }
  }

  /** Every id completed is a committed one, and its number, like that of the event in hand, is in
      this process's list. */
  ghost predicate HandledHere(w: World) {
    && (forall id :: id in w.client.completed ==> exists i :: 0 <= i < |w.committed| && w.committed[i].id == id)
    && (forall i :: 0 <= i < |w.committed| && w.committed[i].id in w.client.completed ==> w.committed[i].seqno in w.client.handedOver)
    && (w.client.phase.Handling? ==> w.client.phase.row.seqno in w.client.handedOver)
  }

  lemma CommitKeepsHandledHere(w: World, events: seq<Emission>, tsMs: nat)
    requires LogInv(w) && FreshIds(w.committed, events) && HandledHere(w)
    ensures HandledHere(DoCommit(w, events, tsMs))
  {
    var rows := Stamped(w.log.head, events, tsMs);
    var all := w.committed + rows;
    forall id | id in w.client.completed
      ensures exists i :: 0 <= i < |all| && all[i].id == id
    {
      var i :| 0 <= i < |w.committed| && w.committed[i].id == id;
      assert all[i].id == id;
    }
    forall i | 0 <= i < |all| && all[i].id in w.client.completed
      ensures all[i].seqno in w.client.handedOver
    {
      if i < |w.committed| {
        assert all[i] == w.committed[i];
      }
    }
  }

  /** Once taken, a row's number is listed and its id may be completed. */
  lemma RecordKeepsHandledHere(w: World, row: Row)
    requires DistinctIds(w.committed) && row in w.committed && HandledHere(w) && w.client.phase == Handling(row)
    ensures HandledHere(DoRecord(w))
  {
    var next := DoRecord(w);
    var k :| 0 <= k < |w.committed| && w.committed[k] == row;
    assert next.committed[k].id == row.id;
    forall i | 0 <= i < |w.committed| && w.committed[i].id in next.client.completed
      ensures w.committed[i].seqno in next.client.handedOver
    {
      if w.committed[i].id == row.id {
        assert i == k;
      }
    }
  }

  lemma InHandIsCommitted(cfg: Config, w: World)
    requires Inv(cfg, w) && w.client.phase.Handling?
    ensures DistinctIds(w.committed) && w.client.phase.row in w.committed
  {
  }

  /** A hand-over only adds to the list. */
  lemma ReceiveKeepsHandledHere(w: World)
    requires HandledHere(w)
    ensures HandledHere(DoReceive(w))
  {
    var next := DoReceive(w).client;
    assert next.completed == w.client.completed;
    assert w.client.handedOver <= next.handedOver;
    assert next.phase.Handling? ==> next.phase == w.client.phase || next.handedOver == w.client.handedOver + [next.phase.row.seqno];
  }

  lemma StepKeepsHandledHere(cfg: Config, w: World, action: Action)
    requires Inv(cfg, w) && HandledHere(w) && action != ClientCrash
    ensures HandledHere(Do(cfg, w, action))
  {
    hide ClientInv, SessionInv;
    match action {
      case Commit(events, tsMs) =>
        if FreshIds(w.committed, events) {
          CommitKeepsHandledHere(w, events, tsMs);
        }
      case Receive => ReceiveKeepsHandledHere(w);
      case RecordCursor =>
        if w.client.phase.Handling? {
          InHandIsCommitted(cfg, w);
          RecordKeepsHandledHere(w, w.client.phase.row);
        }
      case _ =>
    }
  }

  lemma {:induction false} NoCrashKeepsHandledHere(cfg: Config, actions: seq<Action>)
    requires OrderlyRun(cfg, actions) && ClientCrash !in actions
    ensures HandledHere(RunFrom(cfg, Start(cfg), actions))
  {
    if actions != [] {
      var n := |actions| - 1;
      var before := actions[..n];
      assert forall m :: 0 <= m < n ==> before[..m] == actions[..m] && before[m] == actions[m];
      assert actions[n] in actions;
      NoCrashKeepsHandledHere(cfg, before);
      RunKeepsInv(cfg, before);
      StepKeepsHandledHere(cfg, RunFrom(cfg, Start(cfg), before), actions[n]);
    }
  }

  function Occurrences(s: seq<nat>, x: nat): nat {
    if s == [] then 0 else (if s[0] == x then 1 else 0) + Occurrences(s[1..], x)
  }

  lemma {:induction false} IncreasingOccursOnce(s: seq<nat>, x: nat)
    requires Increasing(s)
    ensures Occurrences(s, x) == if x in s then 1 else 0
  {
    if s != [] {
      IncreasingOccursOnce(s[1..], x);
      assert s == [s[0]] + s[1..];
    }
  }

  ghost predicate HandledOnce(client: ClientState, row: Row) {
    row.id in client.completed && Occurrences(client.handedOver, row.seqno) == 1
  }

  /** Exactly once: as long as the client process survives, each of those events was handed over
      exactly once and handled to completion, or lies in an announced gap. */
  lemma {:induction false} ExactlyOnce(cfg: Config, actions: seq<Action>, i: nat)
    requires OrderlyRun(cfg, actions) && ClientCrash !in actions
    requires var w := RunFrom(cfg, Start(cfg), actions);
      && i < |w.committed| && Wanted(cfg, w.committed[i])
      && cfg.initial < w.committed[i].seqno <= w.client.resume.cursor
    ensures var w := RunFrom(cfg, Start(cfg), actions);
      HandledOnce(w.client, w.committed[i]) || InGap(w.committed[i].seqno, w.client.gaps)
  {
    var w := RunFrom(cfg, Start(cfg), actions);
    NoSilentSkip(cfg, actions);
    NoCrashKeepsHandledHere(cfg, actions);
    HandledAtMostOncePerProcess(cfg, actions);
    IncreasingOccursOnce(w.client.handedOver, w.committed[i].seqno);
  }

  // ------------------------------------------------------------ announced loss is real

  /** Below this number nothing is stored, nor ever will be again. */
  function LowWater(w: World): nat {
    if w.log.table == [] then |w.committed| + 1 else w.log.floor
  }

  ghost predicate GapBelow(msg: ServerMsg, mark: nat) {
    msg.ReplayGap? ==> msg.earliestSeq <= mark
  }

  ghost predicate Honest(w: World) {
    && (forall g :: g in w.client.gaps ==> g.1 <= LowWater(w))
    && (w.client.wire.Some? ==> forall i :: 0 <= i < |w.client.wire.value| ==> GapBelow(w.client.wire.value[i], LowWater(w)))
    && (w.conn.Some? ==>
        match w.conn.value.phase
        case FloorRead(floor) => floor <= LowWater(w)
        case HeadRead(floor, _) => floor <= LowWater(w)
        case _ => true)
  }

  lemma LowWaterRises(cfg: Config, w: World, action: Action)
    requires Inv(cfg, w) && Orderly(cfg, w, action)
    ensures LowWater(w) <= LowWater(Do(cfg, w, action))
    ensures w.log.floor <= LowWater(w)
  {
    hide ClientInv, SessionInv;
    match action {
      case Commit(events, tsMs) =>
        if FreshIds(w.committed, events) {
          AppendKeepsGapless(w.log, events, tsMs);
        }
      case PruneLog(nowMs) => var k := PruneRemovesLeastPrefix(w.log, cfg.limits, nowMs);
      case ServerCrash(nowMs) =>
        RecoverRestores(w.log);
        var k := PruneRemovesLeastPrefix(w.log, cfg.limits, nowMs);
      case _ =>
    }
  }

  lemma WireGrowsHonest(wire: seq<ServerMsg>, more: seq<ServerMsg>, mark: nat)
    requires forall i :: 0 <= i < |wire| ==> GapBelow(wire[i], mark)
    requires forall i :: 0 <= i < |more| ==> GapBelow(more[i], mark)
    ensures forall i :: 0 <= i < |wire + more| ==> GapBelow((wire + more)[i], mark)
  {
  }

  lemma ScanKeepsHonest(cfg: Config, w: World)
    requires Honest(w)
    ensures Honest(DoScan(cfg, w))
  {
    if w.conn.Some? && w.conn.value.phase.HeadRead? && w.client.wire.Some? {
      var conn := w.conn.value;
      var frames := ReplayFrames(conn.afterSeq, conn.phase.floor, conn.phase.head, w.log.table, cfg.patterns);
      WireGrowsHonest(w.client.wire.value, frames, LowWater(w));
    }
  }

  lemma SendKeepsHonest(cfg: Config, w: World)
    requires Inv(cfg, w) && Honest(w)
    ensures Honest(DoSend(w))
  {
    if w.conn.Some? && w.conn.value.held.Some? && w.client.wire.Some? {
      var conn := w.conn.value;
      assert Bodies(OutboundQueue.Held(conn.held))[0] == conn.held.value.body;
      WireGrowsHonest(w.client.wire.value, LagMsgs(OutboundQueue.TakePendingLag(conn.queue).0) + [conn.held.value.body], LowWater(w));
    }
  }

  lemma ServerCloseKeepsHonest(w: World, reason: ClosingReason)
    requires Honest(w)
    ensures Honest(DoServerClose(w, reason))
  {
    if w.client.wire.Some? {
      WireGrowsHonest(w.client.wire.value, [Closing(reason)], LowWater(w));
    }
  }

  lemma ReceiveKeepsHonest(w: World)
    requires Honest(w)
    ensures Honest(DoReceive(w))
  {
    if w.client.wire.Some? && w.client.wire.value != [] {
      assert GapBelow(w.client.wire.value[0], LowWater(w));
    }
  }

  /** Steps that touch only the log raise the mark and leave what was announced below it. */
  lemma RaisedMarkKeepsHonest(w: World, next: World)
    requires Honest(w) && LowWater(w) <= LowWater(next)
    requires next.client == w.client && (next.conn == w.conn || next.conn.None?)
    ensures Honest(next)
  {
  }

  lemma StepKeepsHonest(cfg: Config, w: World, action: Action)
    requires Inv(cfg, w) && Orderly(cfg, w, action) && Honest(w)
    ensures Honest(Do(cfg, w, action))
  {
    LowWaterRises(cfg, w, action);
    match action {
      case Commit(_, _) => RaisedMarkKeepsHonest(w, Do(cfg, w, action));
      case PruneLog(_) => RaisedMarkKeepsHonest(w, Do(cfg, w, action));
      case ServerCrash(_) => RaisedMarkKeepsHonest(w, Do(cfg, w, action));
      case Scan => ScanKeepsHonest(cfg, w);
      case SendFrame => SendKeepsHonest(cfg, w);
      case ServerClose(reason) => ServerCloseKeepsHonest(w, reason);
      case Receive => ReceiveKeepsHonest(w);
      case _ =>
    }
  }

  lemma {:induction false} RunStaysHonest(cfg: Config, actions: seq<Action>)
    requires OrderlyRun(cfg, actions)
    ensures Honest(RunFrom(cfg, Start(cfg), actions))
  {
    if actions != [] {
      var n := |actions| - 1;
      var before := actions[..n];
      assert forall m :: 0 <= m < n ==> before[..m] == actions[..m] && before[m] == actions[m];
      RunStaysHonest(cfg, before);
      RunKeepsInv(cfg, before);
      assert Orderly(cfg, RunFrom(cfg, Start(cfg), actions[..n]), actions[n]);
      StepKeepsHonest(cfg, RunFrom(cfg, Start(cfg), before), actions[n]);
    }
  }

  /** No false alarm: no event inside a gap the client was told of is still stored, and the
      gap never reaches past the next number to be committed. */
  lemma {:induction false} GapsAreReal(cfg: Config, actions: seq<Action>)
    requires OrderlyRun(cfg, actions)
    ensures var w := RunFrom(cfg, Start(cfg), actions);
      && (forall i :: 0 <= i < |w.log.table| ==> !InGap(w.log.table[i].seqno, w.client.gaps))
      && (forall g :: g in w.client.gaps ==> g.1 <= |w.committed| + 1)
  {
    RunStaysHonest(cfg, actions);
    RunKeepsInv(cfg, actions);
  }
}
