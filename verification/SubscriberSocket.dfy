/** What one subscriber connection sends: the replay window and the popped live frames. */
module SubscriberSocket {
  import opened Messages
  import opened Wrappers
  import opened DeliveryLog
  import OutboundQueue
  import Channel
  import Subscribers

  // -------------------------------------------------------------------- replay

  predicate PredatesFloor(afterSeq: nat, floor: nat) {
    floor != 0 && afterSeq + 1 < floor
  }

  function GapFrames(afterSeq: nat, floor: nat): seq<ServerMsg> {
    if PredatesFloor(afterSeq, floor) then [ReplayGap(afterSeq, floor)] else []
  }

  function EffectiveAfter(afterSeq: nat, floor: nat): nat {
    if PredatesFloor(afterSeq, floor) then floor - 1 else afterSeq
  }

  /** The rows up to the first one beyond the head snapshot. */
  function UpTo(rows: seq<Row>, head: nat): seq<Row> {
    if rows == [] || rows[0].seqno > head then [] else [rows[0]] + UpTo(rows[1..], head)
  }

  function EventMsgs(rows: seq<Row>): seq<ServerMsg> {
    seq(|rows|, i requires 0 <= i < |rows| => EventMsg(rows[i]))
  }

  /** The rows a replay lists, given the floor, the head and the table as each was read. */
  function ReplayRows(afterSeq: nat, floor: nat, head: nat, table: seq<Row>, patterns: seq<string>): seq<Row> {
    UpTo(Select(table, EffectiveAfter(afterSeq, floor), Some(patterns)), head)
  }

  function ReplayFrames(afterSeq: nat, floor: nat, head: nat, table: seq<Row>, patterns: seq<string>): seq<ServerMsg> {
    [OkMsg("subscribe")]
    + GapFrames(afterSeq, floor)
    + EventMsgs(ReplayRows(afterSeq, floor, head, table, patterns))
    + [Replayed(head)]
  }

  ghost predicate Ascending(rows: seq<Row>) {
    forall i, j :: 0 <= i < j < |rows| ==> rows[i].seqno < rows[j].seqno
  }

  lemma {:induction false} SelectedExactly(table: seq<Row>, afterSeq: nat, patterns: Option<seq<string>>)
    ensures forall row :: row in Select(table, afterSeq, patterns) <==> row in table && Selected(row, afterSeq, patterns)
  {
    hide Selected;
    if table != [] {
      SelectedExactly(table[1..], afterSeq, patterns);
      assert table == [table[0]] + table[1..];
    }
  }

  lemma {:induction false} SelectAscending(table: seq<Row>, afterSeq: nat, patterns: Option<seq<string>>)
    requires Ascending(table)
    ensures Ascending(Select(table, afterSeq, patterns))
  {
    hide Selected;
    if table != [] {
      assert forall i :: 0 <= i < |table[1..]| ==> table[1..][i] == table[i + 1];
      SelectAscending(table[1..], afterSeq, patterns);
      SelectedExactly(table[1..], afterSeq, patterns);
      var rest := Select(table[1..], afterSeq, patterns);
      forall i | 0 <= i < |rest|
        ensures table[0].seqno < rest[i].seqno
      {
        assert rest[i] in table[1..];
      }
    }
  }

  lemma SelectListsExactly(table: seq<Row>, afterSeq: nat, patterns: Option<seq<string>>)
    requires Ascending(table)
    ensures Ascending(Select(table, afterSeq, patterns))
    ensures forall row :: row in Select(table, afterSeq, patterns) <==> row in table && Selected(row, afterSeq, patterns)
  {
    SelectAscending(table, afterSeq, patterns);
    SelectedExactly(table, afterSeq, patterns);
  }

  lemma {:induction false} UpToListsExactly(rows: seq<Row>, head: nat)
    requires Ascending(rows)
    ensures Ascending(UpTo(rows, head))
    ensures forall row :: row in UpTo(rows, head) <==> row in rows && row.seqno <= head
  {
    if rows != [] && rows[0].seqno <= head {
      assert forall i :: 0 <= i < |rows[1..]| ==> rows[1..][i] == rows[i + 1];
      UpToListsExactly(rows[1..], head);
      forall row | row in UpTo(rows[1..], head)
        ensures rows[0].seqno < row.seqno
      {
        var i :| 0 <= i < |rows[1..]| && rows[1..][i] == row;
      }
    }
  }

  /** A replay lists, in strictly ascending order and so without duplicates, exactly the
      matching stored rows after the effective cursor and up to the head. */
  lemma ReplayListsExactly(afterSeq: nat, floor: nat, head: nat, table: seq<Row>, patterns: seq<string>)
    requires Ascending(table)
    ensures var rows := ReplayRows(afterSeq, floor, head, table, patterns);
      && Ascending(rows)
      && forall row :: row in rows <==>
           && row in table
           && EffectiveAfter(afterSeq, floor) < row.seqno <= head
           && Channel.AnyMatches(patterns, row.channel)
  {
    SelectListsExactly(table, EffectiveAfter(afterSeq, floor), Some(patterns));
    UpToListsExactly(Select(table, EffectiveAfter(afterSeq, floor), Some(patterns)), head);
  }

  ghost predicate Stored(table: seq<Row>, s: nat) {
    exists i :: 0 <= i < |table| && table[i].seqno == s
  }

  /** Each number the client asked for is inside the announced gap or is still there to be
      listed when the table is scanned. */
  ghost predicate Accounts(afterSeq: nat, floor: nat, head: nat, table: seq<Row>) {
    forall s :: afterSeq < s <= head ==>
      || (PredatesFloor(afterSeq, floor) && afterSeq < s < floor)
      || (EffectiveAfter(afterSeq, floor) < s && Stored(table, s))
  }

  /** What a replay needs of the table at the moment it is scanned. */
  predicate ScanComplete(afterSeq: nat, floor: nat, head: nat, scannedFloor: nat) {
    var effective := EffectiveAfter(afterSeq, floor);
    effective >= head || (scannedFloor != 0 && scannedFloor <= effective + 1)
  }

  /** With the floor, the head and the table read one after the other, a replay accounts for
      every number up to the head exactly when the scan still reaches the effective cursor. */
  lemma ReplayAccountsIff(afterSeq: nat, floor: nat, head: nat, scanned: Log)
    requires Gapless(scanned) && head <= scanned.head
    ensures Accounts(afterSeq, floor, head, scanned.table) <==> ScanComplete(afterSeq, floor, head, scanned.floor)
  {
    var effective := EffectiveAfter(afterSeq, floor);
    var table := scanned.table;
    if ScanComplete(afterSeq, floor, head, scanned.floor) {
      forall s | effective < s <= head
        ensures Stored(table, s)
      {
        assert table[s - scanned.floor].seqno == s;
      }
    } else {
      assert !Stored(table, effective + 1);
    }
  }

  /** When nothing changes between the three reads, the only silent loss is the log whose
      every row was pruned. */
  lemma AtomicReplayAccountsIff(afterSeq: nat, log: Log)
    requires Gapless(log)
    ensures Accounts(afterSeq, log.floor, log.head, log.table) <==> (log.floor != 0 || afterSeq >= log.head)
  {
    ReplayAccountsIff(afterSeq, log.floor, log.head, log);
  }

  /** What a client learns from a replay of a log that does not change meanwhile: it is acknowledged,
      and in the end told the head. At most one gap is announced; it starts at the number the client
      gave and ends at the oldest stored row. Every number s after the client's and up to the head is
      either in that gap or stored, and a stored row on a matching channel is listed. */
  lemma ReplayTellsAll(afterSeq: nat, log: Log, patterns: seq<string>, s: nat)
    requires Gapless(log) && (log.table != [] || afterSeq >= log.head)
    ensures var frames := ReplayFrames(afterSeq, log.floor, log.head, log.table, patterns);
      && frames[0] == OkMsg("subscribe") && frames[|frames| - 1] == Replayed(log.head)
      && (forall msg :: msg in frames && msg.ReplayGap? ==>
            log.table != [] && msg == ReplayGap(afterSeq, log.table[0].seqno) && afterSeq + 1 < log.table[0].seqno)
      && (afterSeq < s <= log.head ==>
            if s < log.table[0].seqno then ReplayGap(afterSeq, log.table[0].seqno) in frames
            else exists i :: 0 <= i < |log.table| && log.table[i].seqno == s
                   && (Channel.AnyMatches(patterns, log.table[i].channel) ==> EventMsg(log.table[i]) in frames))
  {
    var gap, rows := GapFrames(afterSeq, log.floor), ReplayRows(afterSeq, log.floor, log.head, log.table, patterns);
    ReplayListsExactly(afterSeq, log.floor, log.head, log.table, patterns);
    FramesHold(gap, rows, log.head);
    if afterSeq < s <= log.head && s >= log.floor {
      var row := log.table[s - log.floor];
      assert row.seqno == s && EffectiveAfter(afterSeq, log.floor) < s;
      assert row in rows <==> Channel.AnyMatches(patterns, row.channel);
    }
  }

  lemma FramesHold(gap: seq<ServerMsg>, rows: seq<Row>, head: nat)
    ensures var frames := [OkMsg("subscribe")] + gap + EventMsgs(rows) + [Replayed(head)];
      && (forall row :: row in rows ==> EventMsg(row) in frames)
      && (forall msg :: msg in frames && msg.ReplayGap? ==> msg in gap)
      && (forall msg :: msg in gap ==> msg in frames)
  {
    forall row | row in rows
      ensures EventMsg(row) in EventMsgs(rows)
    {
      var i :| 0 <= i < |rows| && rows[i] == row;
      assert EventMsgs(rows)[i] == EventMsg(row);
    }
  }

  /** The event frames of a replay, bounded at the head snapshot. */
  method BoundedEvents(rows: seq<Row>, head: nat) returns (frames: seq<ServerMsg>)
    ensures frames == EventMsgs(UpTo(rows, head))
  {
    frames := [];
    var i := 0;
    while i < |rows|
      invariant 0 <= i <= |rows|
      invariant forall j :: 0 <= j < i ==> rows[j].seqno <= head
      invariant frames == EventMsgs(rows[..i])
      decreases |rows| - i
    {
      if rows[i].seqno > head {
        break;
      }
      frames := frames + [EventMsg(rows[i])];
      i := i + 1;
    }
    UpToIsPrefix(rows, head, i);
  }

  /** The replay branch of a subscribe: acknowledgement, gap, events up to the head snapshot,
      and the closing marker, all for the sink. */
  method Replay(log: Store, patterns: seq<string>, afterSeq: nat) returns (frames: seq<ServerMsg>)
    ensures frames == ReplayFrames(afterSeq, log.floor, log.head, log.table, patterns)
  {
    frames := [OkMsg("subscribe")];
    var floor := log.floor;
    var effectiveAfter := afterSeq;
    if floor != 0 && afterSeq + 1 < floor {
      frames := frames + [ReplayGap(afterSeq, floor)];
      effectiveAfter := floor - 1;
    }
    assert frames == [OkMsg("subscribe")] + GapFrames(afterSeq, floor);
    var head := log.head;
    var rows := log.ReadAfter(effectiveAfter, Some(patterns));
    var events := BoundedEvents(rows, head);
    frames := frames + events + [Replayed(head)];
  }

  lemma {:induction false} UpToIsPrefix(rows: seq<Row>, head: nat, n: nat)
    requires n <= |rows|
    requires forall j :: 0 <= j < n ==> rows[j].seqno <= head
    requires n < |rows| ==> rows[n].seqno > head
    ensures UpTo(rows, head) == rows[..n]
  {
    if n > 0 {
      UpToIsPrefix(rows[1..], head, n - 1);
      assert rows[..n] == [rows[0]] + rows[1..][..n - 1];
    }
  }

  // ---------------------------------------------------------------------- live

  function LagMsgs(lag: Option<nat>): seq<ServerMsg> {
    match lag case None => [] case Some(n) => [Lagged(n)]
  }

  /** The pop branch: the next frame, with a lag notice ahead of it when drops are pending; the
      loop ends after a closing frame. On an empty queue nothing is sent, and no notice taken. */
  method SendNext(queue: OutboundQueue.Queue<ServerMsg>) returns (sent: seq<ServerMsg>, done: bool)
    modifies queue
    ensures old(queue.frames) == [] ==> queue.State() == old(queue.State()) && sent == [] && !done
    ensures old(queue.frames) != [] ==>
      var (lag, after) := OutboundQueue.TakePendingLag(OutboundQueue.Pop(old(queue.State())));
      && queue.State() == after && sent == LagMsgs(lag) + [old(queue.frames)[0].body]
      && (done <==> old(queue.frames)[0].body.Closing?)
  {
    sent, done := [], false;
    var frame := queue.PopFront();
    if frame.None? {
      return;
    }
    var lag := queue.TakeLag();
    if lag.Some? {
      sent := [Lagged(lag.value)];
    }
    sent := sent + [frame.value.body];
    done := frame.value.body.Closing?;
  }

  // -------------------------------------------------------------- client frames

  datatype ClientMsg = SubscribeMsg(patterns: seq<string>, replay: Option<nat>) | UnsubscribeMsg(patterns: seq<string>) | PingMsg

  /** The acknowledgements a client frame puts on the queue: none of them when the replay goes
      straight to the sink, which then carries its own. */
  function QueuedReplies(msg: ClientMsg, durable: bool): seq<ServerMsg> {
    match msg
    case SubscribeMsg(patterns, replay) =>
      (match Subscribers.FirstInvalid(patterns)
       case Some(pattern) => [ErrorMsg("subscribe", pattern)]
       case None =>
         if replay.None? then [OkMsg("subscribe")]
         else if !durable then [OkMsg("subscribe"), ErrorMsg("replay", "durable delivery is not enabled")]
         else [])
    case UnsubscribeMsg(_) => [OkMsg("unsubscribe")]
    case PingMsg => [Pong]
  }

  function Replied(q: OutboundQueue.QueueState<ServerMsg>, replies: seq<ServerMsg>): OutboundQueue.QueueState<ServerMsg>
    decreases |replies|
  {
    if replies == [] then q else Replied(OutboundQueue.PushControl(q, replies[0], 0), replies[1..])
  }

  function PatternsAfter(held: seq<string>, msg: ClientMsg): seq<string> {
    match msg
    case SubscribeMsg(patterns, _) => if Subscribers.FirstInvalid(patterns).None? then Subscribers.Joined(held, patterns) else held
    case UnsubscribeMsg(patterns) => Subscribers.Without(held, patterns)
    case PingMsg => held
  }

  ghost predicate AllValid(patterns: seq<string>) {
    forall q :: q in patterns ==> Channel.ValidPattern(q)
  }

  /** A valid subscribe adds its patterns. It is acknowledged at once without a replay, by the replay
      itself with one, and with one that cannot be given, also told so. */
  lemma SubscribeMeaning(held: seq<string>, patterns: seq<string>, replay: Option<nat>, durable: bool, p: string)
    requires Subscribers.Distinct(held) && AllValid(patterns)
    ensures p in PatternsAfter(held, SubscribeMsg(patterns, replay)) <==> p in held || p in patterns
    ensures var replies := QueuedReplies(SubscribeMsg(patterns, replay), durable);
      if replay.None? then replies == [OkMsg("subscribe")]
      else if durable then replies == []
      else |replies| == 2 && replies[0] == OkMsg("subscribe") && replies[1].ErrorMsg? && replies[1].op == "replay"
  {
    Subscribers.JoinedIsUnion(held, patterns);
  }

  /** One with an invalid pattern adds none, and is answered with the first such. */
  lemma InvalidSubscribeMeaning(held: seq<string>, patterns: seq<string>, replay: Option<nat>, durable: bool)
    requires !AllValid(patterns)
    ensures PatternsAfter(held, SubscribeMsg(patterns, replay)) == held
    ensures exists i :: 0 <= i < |patterns| && !Channel.ValidPattern(patterns[i]) && AllValid(patterns[..i])
              && QueuedReplies(SubscribeMsg(patterns, replay), durable) == [ErrorMsg("subscribe", patterns[i])]
  {
    FirstInvalidIsFirst(patterns);
  }

  /** An unsubscribe takes its patterns away; a ping changes nothing. Both are answered. */
  lemma OtherFramesMeaning(held: seq<string>, patterns: seq<string>, durable: bool, p: string)
    requires Subscribers.Distinct(held)
    ensures p in PatternsAfter(held, UnsubscribeMsg(patterns)) <==> p in held && p !in patterns
    ensures QueuedReplies(UnsubscribeMsg(patterns), durable) == [OkMsg("unsubscribe")]
    ensures PatternsAfter(held, PingMsg) == held && QueuedReplies(PingMsg, durable) == [Pong]
  {
    Subscribers.WithoutIsDifference(held, patterns);
  }

  lemma {:induction false} FirstInvalidIsFirst(patterns: seq<string>)
    ensures Subscribers.FirstInvalid(patterns).Some? ==>
      exists i :: 0 <= i < |patterns| && patterns[i] == Subscribers.FirstInvalid(patterns).value
        && !Channel.ValidPattern(patterns[i]) && AllValid(patterns[..i])
  {
    hide Channel.ValidPattern;
    if patterns != [] {
      Channel.ValidatePatternMeaning(patterns[0]);
      var rest := patterns[1..];
      FirstInvalidIsFirst(rest);
      if Channel.ValidPattern(patterns[0]) && Subscribers.FirstInvalid(rest).Some? {
        var i :| 0 <= i < |rest| && rest[i] == Subscribers.FirstInvalid(rest).value
          && !Channel.ValidPattern(rest[i]) && AllValid(rest[..i]);
        assert patterns[..i + 1] == [patterns[0]] + rest[..i] && patterns[i + 1] == rest[i];
      } else if !Channel.ValidPattern(patterns[0]) {
        assert AllValid(patterns[..0]);
      }
    }
  }

  /** Replies join the queue in order, as control frames, and nothing else of it changes. */
  lemma {:induction false} RepliesJoin(q: OutboundQueue.QueueState<ServerMsg>, replies: seq<ServerMsg>)
    ensures Replied(q, replies) == q.(frames := q.frames + ControlFrames(replies))
    decreases |replies|
  {
    if replies == [] {
      assert q.frames + ControlFrames(replies) == q.frames;
    } else {
      RepliesJoin(OutboundQueue.PushControl(q, replies[0], 0), replies[1..]);
      var first := OutboundQueue.Frame(replies[0], 0, false);
      assert ControlFrames(replies) == [first] + ControlFrames(replies[1..]);
      assert q.frames + ControlFrames(replies) == (q.frames + [first]) + ControlFrames(replies[1..]);
    }
  }

  function ControlFrames(replies: seq<ServerMsg>): seq<OutboundQueue.Frame<ServerMsg>> {
    seq(|replies|, i requires 0 <= i < |replies| => OutboundQueue.Frame(replies[i], 0, false))
  }

  /** A subscriber no longer registered is answered all the same. Control frames never count against
      a budget, so their length is immaterial here. */
  method HandleText(registry: Subscribers.Registry, id: nat, msg: ClientMsg, queue: OutboundQueue.Queue<ServerMsg>)
    returns (frames: seq<ServerMsg>)
    requires registry.Valid() && (id in registry.subscribers ==> registry.subscribers[id].queue == queue)
    modifies registry.subscribers.Values, queue
    ensures registry.Valid() && registry.subscribers == old(registry.subscribers)
    ensures queue.State() == Replied(old(queue.State()), QueuedReplies(msg, registry.delivery != null))
    ensures forall i :: i in registry.subscribers ==>
      registry.subscribers[i].patterns
      == if i == id then PatternsAfter(old(registry.subscribers[i].patterns), msg) else old(registry.subscribers[i].patterns)
    ensures frames ==
      if msg.SubscribeMsg? && Subscribers.FirstInvalid(msg.patterns).None? && msg.replay.Some? && registry.delivery != null then
        ReplayFrames(msg.replay.value, registry.delivery.floor, registry.delivery.head, registry.delivery.table, msg.patterns)
      else []
  {
    frames := [];
    match msg {
      case SubscribeMsg(patterns, replay) =>
        var subscribed := registry.Subscribe(id, patterns);
        if subscribed.Err? {
          queue.PushControlFrame(ErrorMsg("subscribe", subscribed.error), 0);
          return;
        }
        if replay.None? {
          queue.PushControlFrame(OkMsg("subscribe"), 0);
          return;
        }
        if registry.delivery == null {
          queue.PushControlFrame(OkMsg("subscribe"), 0);
          queue.PushControlFrame(ErrorMsg("replay", "durable delivery is not enabled"), 0);
          assert [OkMsg("subscribe"), ErrorMsg("replay", "durable delivery is not enabled")][1..]
              == [ErrorMsg("replay", "durable delivery is not enabled")];
          return;
        }
        frames := Replay(registry.delivery, patterns, replay.value);
      case UnsubscribeMsg(patterns) =>
        registry.Unsubscribe(id, patterns);
        queue.PushControlFrame(OkMsg("unsubscribe"), 0);
      case PingMsg =>
        queue.PushControlFrame(Pong, 0);
    }
  }
}
