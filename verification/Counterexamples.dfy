/** Concrete runs. Four of them show why each guard of an orderly run is there: orderly but for one
    kind of step, they pass over a committed matching event silently. One, orderly throughout, shows
    that events are delivered at all. */
module Counterexamples {
  import opened Wrappers
  import opened Strings
  import opened Messages
  import opened DeliveryLog
  import opened SubscriberSocket
  import opened ResumeState
  import opened Pipeline
  import Promises
  import OutboundQueue
  import Channel

  const CFG := Config([">"], Limits(60, 1000, 100), 8, 1000, 16, 0)
  const FIRST := Emission("a", "", 1, 10, 10)
  const SECOND := Emission("a", "", 2, 10, 10)
  const LATER := 61000

  lemma EverythingOnAIsWanted(row: Row)
    requires row.channel == "a"
    ensures Wanted(CFG, row)
  {
    SplitWithoutSeparator("a", '.');
    Channel.TailMatchesEverything("a");
    assert Channel.Matching(row.channel, CFG.patterns[0]) == Ok(true);
  }

  /** The one kind of step a run may take without its guard, if any. */
  datatype Excuse = Nothing | Pushes | Restarts | Scans

  predicate Excused(excuse: Excuse, action: Action) {
    match excuse
    case Nothing => false
    case Pushes => action.Push?
    case Restarts => action.ServerCrash?
    case Scans => action.Scan?
  }

  ghost predicate OrderlyBut(excuse: Excuse, actions: seq<Action>) {
    forall n :: 0 <= n < |actions| && !Excused(excuse, actions[n])
      ==> Orderly(CFG, RunFrom(CFG, Start(CFG), actions[..n]), actions[n])
  }

  ghost predicate At(excuse: Excuse, actions: seq<Action>, w: World) {
    RunFrom(CFG, Start(CFG), actions) == w && OrderlyBut(excuse, actions) && ClientCrash !in actions
  }

  /** Some run, orderly but for the excused kind of step, ends in this world. */
  ghost predicate Reachable(excuse: Excuse, w: World) {
    exists actions :: At(excuse, actions, w)
  }

  lemma StartReachable(excuse: Excuse)
    ensures Reachable(excuse, Start(CFG))
  {
    assert At(excuse, [], Start(CFG));
  }

  lemma Advance(excuse: Excuse, w: World, action: Action) returns (next: World)
    requires Reachable(excuse, w) && (Excused(excuse, action) || Orderly(CFG, w, action)) && action != ClientCrash
    ensures next == Do(CFG, w, action) && Reachable(excuse, next)
  {
    var actions :| At(excuse, actions, w);
    var longer := actions + [action];
    next := Do(CFG, w, action);
    assert longer[..|actions|] == actions;
    forall n | 0 <= n < |longer| && !Excused(excuse, longer[n])
      ensures Orderly(CFG, RunFrom(CFG, Start(CFG), longer[..n]), longer[n])
    {
      if n < |actions| {
        assert longer[..n] == actions[..n];
      }
    }
    assert At(excuse, longer, next);
  }

  /** From a fresh or reconnecting client to a live session whose replay has gone out. */
  lemma GoLive(excuse: Excuse, w: World) returns (next: World)
    requires Reachable(excuse, w) && w.client.phase.Ready? && w.client.wire.None?
    requires excuse.Scans? || w.log.head == 0
    ensures Reachable(excuse, next)
    ensures next.log == w.log && next.committed == w.committed && next.pending == w.pending
    ensures next.conn.Some? && next.conn.value.phase.Live? && next.conn.value.held.None?
    ensures next.conn.value.queue == OutboundQueue.Create(CFG.queueEvents, CFG.queueBytes)
    ensures next.client == w.client.(wire := Some([Welcome]
      + ReplayFrames(w.client.resume.cursor, w.log.floor, w.log.head, w.log.table, CFG.patterns)))
  {
    hide Reachable;
    next := Advance(excuse, w, Connect);
    next := Advance(excuse, next, Subscribe);
    next := Advance(excuse, next, ReadFloor);
    next := Advance(excuse, next, ReadHead);
    next := Advance(excuse, next, Scan);
  }

  lemma ReceiveInert(excuse: Excuse, w: World) returns (next: World)
    requires Reachable(excuse, w) && w.client.phase.Ready? && w.client.wire.Some? && w.client.wire.value != []
    requires Inert(w.client.wire.value[0])
    ensures Reachable(excuse, next)
    ensures next == w.(client := w.client.(wire := Some(w.client.wire.value[1..])))
  {
    hide Reachable;
    next := Advance(excuse, w, Receive);
  }

  /** The event at the front of the wire is handled, recorded and saved. */
  lemma HandleFront(excuse: Excuse, w: World, row: Row) returns (next: World)
    requires Reachable(excuse, w) && w.client.phase.Ready? && w.client.wire.Some? && w.client.wire.value != []
    requires w.client.wire.value[0] == EventMsg(row) && ShouldProcess(w.client.resume, row.id, row.seqno)
    ensures Reachable(excuse, next)
    ensures next == w.(client := ClientState(Record(w.client.resume, row.id, row.seqno), row.seqno, Ready,
      Some(w.client.wire.value[1..]), w.client.handedOver + [row.seqno], w.client.completed + {row.id}, w.client.gaps))
  {
    hide Reachable;
    next := Advance(excuse, w, Receive);
    next := Advance(excuse, next, RecordCursor);
    next := Advance(excuse, next, SaveCursor);
  }

  /** A pending row is pushed, popped and sent over an idle live connection. */
  lemma DeliverLive(excuse: Excuse, w: World, k: nat) returns (next: World)
    requires Reachable(excuse, w) && k < |w.pending| && (k == 0 || excuse.Pushes?)
    requires w.pending[k].channel == "a" && w.pending[k].text <= 1000
    requires w.client.wire.Some? && w.conn.Some? && w.conn.value.phase.Live? && w.conn.value.held.None?
    requires var q := w.conn.value.queue; q.frames == [] && q.lagPending == 0 && q.maxEvents == 8 && q.maxBytes == 1000
    ensures Reachable(excuse, next)
    ensures next.client == w.client.(wire := Some(w.client.wire.value + [EventMsg(w.pending[k])]))
    ensures next.pending == w.pending[..k] + w.pending[k + 1..] && next.log == w.log && next.committed == w.committed
    ensures next.conn.Some? && next.conn.value.phase.Live? && next.conn.value.held.None?
    ensures var q := next.conn.value.queue; q.frames == [] && q.lagPending == 0 && q.maxEvents == 8 && q.maxBytes == 1000
  {
    hide Reachable;
    EverythingOnAIsWanted(w.pending[k]);
    next := Advance(excuse, w, Push(k));
    assert next.conn.value.queue.frames == [OutboundQueue.Frame(EventMsg(w.pending[k]), w.pending[k].text, true)];
    next := Advance(excuse, next, PopFrame);
    next := Advance(excuse, next, SendFrame);
    assert LagMsgs(None) + [EventMsg(w.pending[k])] == [EventMsg(w.pending[k])];
  }

  lemma CommitOne(excuse: Excuse, w: World, event: Emission, tsMs: nat) returns (next: World)
    requires Reachable(excuse, w) && FreshIds(w.committed, [event])
    requires forall i :: 0 <= i < |w.log.table| ==> w.log.table[i].seqno <= w.log.head
    ensures Reachable(excuse, next)
    ensures var row := Stamp(w.log.head + 1, event, tsMs);
      next == w.(log := Log(w.log.table + [row], w.log.head + 1, if w.log.floor == 0 then row.seqno else w.log.floor,
                            w.log.count + 1, w.log.bytes + event.stored),
                 committed := w.committed + [row], pending := w.pending + [row])
  {
    hide Reachable;
    var row := Stamp(w.log.head + 1, event, tsMs);
    next := Advance(excuse, w, Commit([event], tsMs));
    assert Stamped(w.log.head, [event], tsMs) == [row];
    InsertAllAtEnd(w.log.table, [row], w.log.head);
    assert TotalBytes([row]) == event.stored by {
      assert [row][1..] == [];
    }
  }

  /** Sixty-one seconds on, the first event is past the TTL and the second is not. */
  lemma PruneDropsFirst(rest: seq<Row>)
    requires rest == [] || rest == [Stamp(2, SECOND, LATER)]
    ensures var first := Stamp(1, FIRST, 0);
      PruneTo(Log([first] + rest, 1 + |rest|, 1, 1 + |rest|, 10 + 10 * |rest|), CFG.limits, LATER)
      == Log(rest, 1 + |rest|, if rest == [] then 0 else 2, |rest|, 10 * |rest|)
  {
    var first := Stamp(1, FIRST, 0);
    var table := [first] + rest;
    assert table[1..] == rest;
    assert TooOld(first, CFG.limits, LATER);
    assert rest != [] ==> !TooOld(rest[0], CFG.limits, LATER);
    assert Shed(Shedding(rest, |rest|, 10 * |rest|, 1), CFG.limits, LATER) == Shedding(rest, |rest|, 10 * |rest|, 1);
  }

  /** A replay of an empty table lists nothing. */
  lemma EmptyReplay(floor: nat, head: nat)
    requires floor <= 1
    ensures ReplayFrames(0, floor, head, [], CFG.patterns) == [OkMsg("subscribe"), Replayed(head)]
  {
    assert EventMsgs([]) == [];
  }

  lemma SecondReplay()
    ensures var second := Stamp(2, SECOND, LATER);
      ReplayFrames(0, 1, 2, [second], CFG.patterns) == [OkMsg("subscribe"), EventMsg(second), Replayed(2)]
  {
    var second := Stamp(2, SECOND, LATER);
    EverythingOnAIsWanted(second);
    assert [second][1..] == [];
    assert Select([second], 0, Some(CFG.patterns)) == [second];
    assert UpTo([second], 2) == [second];
    assert EventMsgs([second]) == [EventMsg(second)];
  }

  /** A client live on an empty log, its replay read. */
  lemma FreshSession(excuse: Excuse) returns (w: World)
    ensures Reachable(excuse, w)
    ensures w.log == FRESH && w.committed == [] && w.pending == []
    ensures w.client == Restarted(CFG, 0, {}, {}).(wire := Some([]))
    ensures w.conn.Some? && w.conn.value.phase.Live? && w.conn.value.held.None?
    ensures w.conn.value.queue == OutboundQueue.Create(CFG.queueEvents, CFG.queueBytes)
  {
    hide Reachable, ReplayFrames;
    StartReachable(excuse);
    w := GoLive(excuse, Start(CFG));
    EmptyReplay(0, 0);
    assert [Welcome] + [OkMsg("subscribe"), Replayed(0)] == [Welcome, OkMsg("subscribe"), Replayed(0)];
    w := ReadThree(excuse, w, Welcome, OkMsg("subscribe"), Replayed(0));
  }

  /** Three inert frames read, the wire is empty. */
  lemma ReadThree(excuse: Excuse, w: World, a: ServerMsg, b: ServerMsg, c: ServerMsg) returns (next: World)
    requires Reachable(excuse, w) && w.client.phase.Ready? && w.client.wire == Some([a, b, c])
    requires Inert(a) && Inert(b) && Inert(c)
    ensures Reachable(excuse, next)
    ensures next == w.(client := w.client.(wire := Some([])))
  {
    hide Reachable, Inert;
    next := ReceiveInert(excuse, w);
    assert [a, b, c][1..] == [b, c];
    next := ReceiveInert(excuse, next);
    assert [b, c][1..] == [c];
    next := ReceiveInert(excuse, next);
    assert [c][1..] == [];
  }

  /** A run that is orderly throughout: an event is committed, delivered and handled, and the session
      is drained. */
  lemma DeliveryHappens() returns (actions: seq<Action>)
    ensures OrderlyRun(CFG, actions) && ClientCrash !in actions
    ensures var w := RunFrom(CFG, Start(CFG), actions);
      && Promises.Drained(w)
      && |w.committed| == 1 && Wanted(CFG, w.committed[0]) && w.committed[0].seqno == 1
      && w.client.resume.cursor == 1 && w.client.completed == {w.committed[0].id}
  {
    hide Reachable;
    var w := FreshSession(Nothing);
    w := CommitOne(Nothing, w, FIRST, 0);
    var first := Stamp(1, FIRST, 0);
    w := DeliverLive(Nothing, w, 0);
    assert w.client.wire.value == [EventMsg(first)] && [EventMsg(first)][1..] == [];
    w := HandleFront(Nothing, w, first);
    assert w.client.wire.value == [] && w.pending == [];
    EverythingOnAIsWanted(first);
    actions := OrderlyWitness(w);
  }

  lemma OrderlyWitness(w: World) returns (actions: seq<Action>)
    requires Reachable(Nothing, w)
    ensures OrderlyRun(CFG, actions) && ClientCrash !in actions && RunFrom(CFG, Start(CFG), actions) == w
  {
    actions :| At(Nothing, actions, w);
    assert forall n :: 0 <= n < |actions| ==> !Excused(Nothing, actions[n]);
  }

  /** Two events committed, the first one pruned after the replay has read the floor. */
  lemma PrunedAfterFloorRead() returns (w: World)
    ensures Reachable(Scans, w)
    ensures w.log == Log([Stamp(2, SECOND, LATER)], 2, 2, 1, 10)
    ensures w.committed == [Stamp(1, FIRST, 0), Stamp(2, SECOND, LATER)]
    ensures w.client == Restarted(CFG, 0, {}, {}).(wire := Some([Welcome]))
    ensures w.conn.Some? && w.conn.value.phase == HeadRead(1, 2) && w.conn.value.afterSeq == 0
  {
    hide Reachable;
    w := Start(CFG);
    StartReachable(Scans);
    var first, second := Stamp(1, FIRST, 0), Stamp(2, SECOND, LATER);
    w := CommitOne(Scans, w, FIRST, 0);
    w := CommitOne(Scans, w, SECOND, LATER);
    w := Advance(Scans, w, Connect);
    w := Advance(Scans, w, Subscribe);
    w := Advance(Scans, w, ReadFloor);
    PruneDropsFirst([second]);
    assert w.log == Log([first] + [second], 2, 1, 2, 20);
    w := Advance(Scans, w, PruneLog(LATER));
    w := Advance(Scans, w, ReadHead);
  }

  /** Two events committed, the second one pushed and handled while the first waits. */
  lemma SecondOvertakes() returns (w: World)
    ensures Reachable(Pushes, w)
    ensures w.committed == [Stamp(1, FIRST, 0), Stamp(2, SECOND, 0)] && w.pending == [Stamp(1, FIRST, 0)]
    ensures w.client.phase.Ready? && w.client.wire == Some([]) && w.client.resume.cursor == 2
    ensures w.client.completed == {2} && w.client.gaps == {}
    ensures w.conn.Some? && w.conn.value.phase.Live? && w.conn.value.held.None?
    ensures var q := w.conn.value.queue; q.frames == [] && q.lagPending == 0 && q.maxEvents == 8 && q.maxBytes == 1000
  {
    hide Reachable;
    w := FreshSession(Pushes);
    w := CommitOne(Pushes, w, FIRST, 0);
    w := CommitOne(Pushes, w, SECOND, 0);
    var first, second := Stamp(1, FIRST, 0), Stamp(2, SECOND, 0);
    assert w.pending == [first, second];
    w := DeliverLive(Pushes, w, 1);
    assert w.client.wire.value == [EventMsg(second)];
    assert [EventMsg(second)][1..] == [];
    w := HandleFront(Pushes, w, second);
  }

  /** Rows pushed out of commit order: the client handles the second event, and the first one,
      arriving after it, is dropped for good. */
  lemma OutOfOrderPushSkips() returns (w: World)
    ensures Reachable(Pushes, w)
    ensures !NothingSkipped(CFG, w) && w.pending == [] && w.client.wire == Some([])
  {
    hide Reachable;
    var first := Stamp(1, FIRST, 0);
    w := SecondOvertakes();
    w := DeliverLive(Pushes, w, 0);
    assert [] + [EventMsg(first)] == [EventMsg(first)] && [EventMsg(first)][1..] == [];
    w := Advance(Pushes, w, Receive);
    EverythingOnAIsWanted(first);
    assert w.committed[0] == first;
  }

  /** A restart on a table pruned empty: the numbering starts over, and the next event carries
      a number the client has passed. */
  lemma EmptiedRestartSkips() returns (w: World)
    ensures Reachable(Restarts, w)
    ensures !NothingSkipped(CFG, w)
  {
    hide Reachable;
    w := FreshSession(Restarts);
    w := CommitOne(Restarts, w, FIRST, 0);
    var first := Stamp(1, FIRST, 0);
    w := DeliverLive(Restarts, w, 0);
    w := HandleFront(Restarts, w, first);
    assert [first] + [] == [first];
    PruneDropsFirst([]);
    assert w.log == Log([first] + [], 1, 1, 1, 10);
    w := Advance(Restarts, w, PruneLog(LATER));
    assert w.log.table == [];
    w := Advance(Restarts, w, ServerCrash(LATER));
    assert w.log == FRESH;
    w := CommitOne(Restarts, w, SECOND, LATER);
    EverythingOnAIsWanted(Stamp(1, SECOND, LATER));
    assert w.committed[1] == Stamp(1, SECOND, LATER) && w.client.completed == {1} && w.client.gaps == {};
  }

  /** The first event committed, pushed to nobody, and pruned; then a client goes live. */
  lemma LiveOnEmptiedLog() returns (w: World)
    ensures Reachable(Scans, w)
    ensures w.log == Log([], 1, 0, 0, 0) && w.committed == [Stamp(1, FIRST, 0)] && w.pending == []
    ensures w.conn.Some? && w.conn.value.phase.Live? && w.conn.value.held.None?
    ensures w.conn.value.queue == OutboundQueue.Create(CFG.queueEvents, CFG.queueBytes)
    ensures w.client == Restarted(CFG, 0, {}, {}).(wire := Some([Welcome] + ReplayFrames(0, 0, 1, [], CFG.patterns)))
  {
    hide Reachable;
    w := Start(CFG);
    StartReachable(Scans);
    w := CommitOne(Scans, w, FIRST, 0);
    var first := Stamp(1, FIRST, 0);
    w := Advance(Scans, w, Push(0));
    assert [first] + [] == [first];
    PruneDropsFirst([]);
    assert w.log == Log([first] + [], 1, 1, 1, 10);
    w := Advance(Scans, w, PruneLog(LATER));
    assert w.log.table == [] && w.log.floor == 0 && w.log.head == 1;
    w := GoLive(Scans, w);
  }

  /** Every row pruned before a replay: the floor reads 0, no gap is announced, and the next
      event carries the cursor past the lost one. */
  lemma EmptiedLogReplaySkips() returns (w: World)
    ensures Reachable(Scans, w)
    ensures !NothingSkipped(CFG, w)
  {
    hide Reachable;
    w := LiveOnEmptiedLog();
    var first, second := Stamp(1, FIRST, 0), Stamp(2, SECOND, LATER);
    EmptyReplay(0, 1);
    assert [Welcome] + [OkMsg("subscribe"), Replayed(1)] == [Welcome, OkMsg("subscribe"), Replayed(1)];
    w := ReadThree(Scans, w, Welcome, OkMsg("subscribe"), Replayed(1));
    w := CommitOne(Scans, w, SECOND, LATER);
    w := DeliverLive(Scans, w, 0);
    w := HandleFront(Scans, w, second);
    EverythingOnAIsWanted(first);
    assert w.committed[0] == first && w.client.completed == {2} && w.client.gaps == {};
  }

  /** A prune between the floor read and the scan: the gap frame was decided on the old floor,
      and the row pruned since is skipped in silence. */
  lemma PruneDuringReplaySkips() returns (w: World)
    ensures Reachable(Scans, w)
    ensures !NothingSkipped(CFG, w) && w.log.floor != 0
  {
    hide Reachable;
    var first, second := Stamp(1, FIRST, 0), Stamp(2, SECOND, LATER);
    w := PrunedAfterFloorRead();
    w := Advance(Scans, w, Scan);
    EverythingOnAIsWanted(first);
    SecondReplay();
    w := ReceiveInert(Scans, w);
    w := ReceiveInert(Scans, w);
    w := HandleFront(Scans, w, second);
    assert w.committed[0] == first && w.client.completed == {2} && w.client.gaps == {};
  }
}
