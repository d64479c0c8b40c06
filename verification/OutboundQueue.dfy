/** The bounded outbound queue of one subscriber connection: events are evicted oldest first
    on overflow, control frames never are. */
module OutboundQueue {
  import opened Wrappers
  import opened Sequences

  datatype Frame<T> = Frame(body: T, len: nat, isEvent: bool)

  datatype QueueState<T> = QueueState(
    frames: seq<Frame<T>>,
    maxEvents: nat,
    maxBytes: nat,
    delivered: nat,
    dropped: nat,
    lagPending: nat)

  function Create<T>(maxEvents: nat, maxBytes: nat): QueueState<T> {
    QueueState([], if maxEvents < 1 then 1 else maxEvents, if maxBytes < 1 then 1 else maxBytes, 0, 0, 0)
  }

  function EventFrames<T>(frames: seq<Frame<T>>): seq<Frame<T>> {
    if frames == [] then []
    else (if frames[0].isEvent then [frames[0]] else []) + EventFrames(frames[1..])
  }

  function ControlFrames<T>(frames: seq<Frame<T>>): seq<Frame<T>> {
    if frames == [] then []
    else (if frames[0].isEvent then [] else [frames[0]]) + ControlFrames(frames[1..])
  }

  function TotalLength<T>(frames: seq<Frame<T>>): nat {
    if frames == [] then 0 else frames[0].len + TotalLength(frames[1..])
  }

  /** Whether an event of this length may join these queued events; one may always queue alone. */
  predicate Fits<T>(events: seq<Frame<T>>, incoming: nat, maxEvents: nat, maxBytes: nat) {
    events == [] || (|events| + 1 <= maxEvents && TotalLength(events) + incoming <= maxBytes)
  }

  predicate OverBudget<T>(frames: seq<Frame<T>>, incoming: nat, maxEvents: nat, maxBytes: nat) {
    !Fits(EventFrames(frames), incoming, maxEvents, maxBytes)
  }

  /** The frames without the oldest event. */
  function WithoutOldestEvent<T>(frames: seq<Frame<T>>): (r: seq<Frame<T>>)
    requires EventFrames(frames) != []
    ensures EventFrames(r) == EventFrames(frames)[1..]
    ensures ControlFrames(r) == ControlFrames(frames)
    ensures |r| == |frames| - 1
  {
    if frames[0].isEvent then frames[1..] else [frames[0]] + WithoutOldestEvent(frames[1..])
  }

  function RecordDrop<T>(q: QueueState<T>): QueueState<T> {
    q.(dropped := q.dropped + 1, lagPending := q.lagPending + 1)
  }

  function EvictFor<T>(q: QueueState<T>, incoming: nat): QueueState<T>
    decreases |q.frames|
  {
    if OverBudget(q.frames, incoming, q.maxEvents, q.maxBytes) then
      EvictFor(RecordDrop(q.(frames := WithoutOldestEvent(q.frames))), incoming)
    else q
  }

  function PushEvent<T>(q: QueueState<T>, body: T, len: nat): QueueState<T> {
    if len > q.maxBytes then RecordDrop(q)
    else
      var room := EvictFor(q, len);
      room.(frames := room.frames + [Frame(body, len, true)])
  }

  function PushControl<T>(q: QueueState<T>, body: T, len: nat): QueueState<T> {
    q.(frames := q.frames + [Frame(body, len, false)])
  }

  function Pop<T>(q: QueueState<T>): QueueState<T>
    requires q.frames != []
  {
    q.(frames := q.frames[1..], delivered := q.delivered + if q.frames[0].isEvent then 1 else 0)
  }

  function TakePendingLag<T>(q: QueueState<T>): (Option<nat>, QueueState<T>) {
    (if q.lagPending == 0 then None else Some(q.lagPending), q.(lagPending := 0))
  }

  // ------------------------------------------------------- what one call does

  lemma {:induction false} EventFramesConcat<T>(left: seq<Frame<T>>, right: seq<Frame<T>>)
    ensures EventFrames(left + right) == EventFrames(left) + EventFrames(right)
  {
    if left == [] {
      assert left + right == right;
    } else {
      assert (left + right)[1..] == left[1..] + right;
      EventFramesConcat(left[1..], right);
    }
  }

  lemma {:induction false} ControlFramesConcat<T>(left: seq<Frame<T>>, right: seq<Frame<T>>)
    ensures ControlFrames(left + right) == ControlFrames(left) + ControlFrames(right)
  {
    if left == [] {
      assert left + right == right;
    } else {
      assert (left + right)[1..] == left[1..] + right;
      ControlFramesConcat(left[1..], right);
    }
  }

  lemma {:induction false} TotalLengthConcat<T>(left: seq<Frame<T>>, right: seq<Frame<T>>)
    ensures TotalLength(left + right) == TotalLength(left) + TotalLength(right)
  {
    if left == [] {
      assert left + right == right;
    } else {
      assert (left + right)[1..] == left[1..] + right;
      TotalLengthConcat(left[1..], right);
    }
  }

  lemma FrameAdded<T>(frames: seq<Frame<T>>, frame: Frame<T>)
    ensures EventFrames(frames + [frame]) == if frame.isEvent then EventFrames(frames) + [frame] else EventFrames(frames)
    ensures ControlFrames(frames + [frame]) == if frame.isEvent then ControlFrames(frames) else ControlFrames(frames) + [frame]
    ensures TotalLength(frames + [frame]) == TotalLength(frames) + frame.len
  {
    EventFramesConcat(frames, [frame]);
    ControlFramesConcat(frames, [frame]);
    TotalLengthConcat(frames, [frame]);
    assert [frame][1..] == [];
  }

  /** Eviction takes the least number of oldest events that makes room, counts each one, and
      touches no control frame. */
  lemma {:induction false} EvictionIsMinimal<T>(q: QueueState<T>, incoming: nat) returns (k: nat)
    ensures k <= |EventFrames(q.frames)|
    ensures Fits(EventFrames(q.frames)[k..], incoming, q.maxEvents, q.maxBytes)
    ensures forall j :: 0 <= j < k ==> !Fits(EventFrames(q.frames)[j..], incoming, q.maxEvents, q.maxBytes)
    ensures EventFrames(EvictFor(q, incoming).frames) == EventFrames(q.frames)[k..]
    ensures ControlFrames(EvictFor(q, incoming).frames) == ControlFrames(q.frames)
    ensures EvictFor(q, incoming)
         == q.(frames := EvictFor(q, incoming).frames, dropped := q.dropped + k, lagPending := q.lagPending + k)
    ensures k == 0 ==> EvictFor(q, incoming) == q
    decreases |q.frames|
  {
    var events := EventFrames(q.frames);
    assert events[0..] == events;
    if OverBudget(q.frames, incoming, q.maxEvents, q.maxBytes) {
      var next := RecordDrop(q.(frames := WithoutOldestEvent(q.frames)));
      var n := EvictionIsMinimal(next, incoming);
      k := n + 1;
      hide EvictFor, EventFrames, ControlFrames;
      assert EventFrames(next.frames) == events[1..];
      assert events[1..][n..] == events[k..];
      forall j | 0 <= j < k
        ensures !Fits(events[j..], incoming, q.maxEvents, q.maxBytes)
      {
        if j > 0 {
          assert events[1..][j - 1..] == events[j..];
        }
      }
    } else {
      k := 0;
    }
  }

  ghost predicate WithinBudget<T>(q: QueueState<T>) {
    && |EventFrames(q.frames)| <= q.maxEvents
    && TotalLength(EventFrames(q.frames)) <= q.maxBytes
  }

  /** After a push both budgets hold. */
  lemma PushKeepsBudget<T>(q: QueueState<T>, body: T, len: nat)
    requires q.maxEvents >= 1 && WithinBudget(q)
    ensures WithinBudget(PushEvent(q, body, len))
  {
    if len <= q.maxBytes {
      var k := EvictionIsMinimal(q, len);
      FrameAdded(EvictFor(q, len).frames, Frame(body, len, true));
      FrameAdded(EventFrames(q.frames)[k..], Frame(body, len, true));
    } else {
      assert PushEvent(q, body, len).frames == q.frames;
    }
  }

  /** Within both budgets a push adds its frame at the end and changes nothing else. */
  lemma PushWithRoom<T>(q: QueueState<T>, body: T, len: nat)
    requires |EventFrames(q.frames)| + 1 <= q.maxEvents
    requires TotalLength(EventFrames(q.frames)) + len <= q.maxBytes
    ensures PushEvent(q, body, len) == q.(frames := q.frames + [Frame(body, len, true)])
  {
    var events := EventFrames(q.frames);
    var k := EvictionIsMinimal(q, len);
    assert events[0..] == events;
    assert Fits(events[0..], len, q.maxEvents, q.maxBytes);
  }

  /** In general the least number of oldest events goes, each counted once, for which those left and
      the new one keep both budgets; an event longer than the byte budget is itself the one dropped. */
  lemma PushEvictsLeast<T>(q: QueueState<T>, body: T, len: nat) returns (k: nat)
    requires q.maxEvents >= 1
    ensures len > q.maxBytes ==>
      PushEvent(q, body, len) == q.(dropped := q.dropped + 1, lagPending := q.lagPending + 1)
    ensures len <= q.maxBytes ==>
      var events, r := EventFrames(q.frames), PushEvent(q, body, len);
      && k <= |events|
      && |events| - k + 1 <= q.maxEvents && TotalLength(events[k..]) + len <= q.maxBytes
      && (forall j :: 0 <= j < k ==> |events| - j + 1 > q.maxEvents || TotalLength(events[j..]) + len > q.maxBytes)
      && EventFrames(r.frames) == events[k..] + [Frame(body, len, true)]
      && ControlFrames(r.frames) == ControlFrames(q.frames)
      && r == q.(frames := r.frames, dropped := q.dropped + k, lagPending := q.lagPending + k)
  {
    k := 0;
    if len <= q.maxBytes {
      k := EvictionIsMinimal(q, len);
      FrameAdded(EvictFor(q, len).frames, Frame(body, len, true));
    }
  }

  // ------------------------------------------------- runs of one connection

  /** The socket loop: it holds at most one popped frame, and sends the lag notice, if one is
      due, ahead of that frame. */
  datatype Wire<T> = LagNotice(dropped: nat) | Sent(frame: Frame<T>)

  datatype Connection<T> = Connection(queue: QueueState<T>, held: Option<Frame<T>>, wire: seq<Wire<T>>)

  datatype Op<T> = PushEventOp(event: T, len: nat) | PushControlOp(control: T, len: nat) | PopOp | SendOp

  function LagFrames<T>(lag: Option<nat>): seq<Wire<T>> {
    match lag case None => [] case Some(n) => [LagNotice(n)]
  }

  function Step<T>(c: Connection<T>, op: Op<T>): Connection<T> {
    match op
    case PushEventOp(body, len) => c.(queue := PushEvent(c.queue, body, len))
    case PushControlOp(body, len) => c.(queue := PushControl(c.queue, body, len))
    case PopOp =>
      if c.held.None? && c.queue.frames != [] then
        c.(queue := Pop(c.queue), held := Some(c.queue.frames[0]))
      else c
    case SendOp =>
      match c.held
      case None => c
      case Some(frame) =>
        var (lag, queue) := TakePendingLag(c.queue);
        Connection(queue, None, c.wire + LagFrames(lag) + [Sent(frame)])
  }

  function Run<T>(c: Connection<T>, ops: seq<Op<T>>): Connection<T> {
    if ops == [] then c else Step(Run(c, ops[..|ops| - 1]), ops[|ops| - 1])
  }

  function Open<T>(maxEvents: nat, maxBytes: nat): Connection<T> {
    Connection(Create(maxEvents, maxBytes), None, [])
  }

  // The simple model: the pushes a run makes, in order.

  function PushedEvents<T>(ops: seq<Op<T>>): seq<Frame<T>> {
    if ops == [] then []
    else
      var op := ops[|ops| - 1];
      PushedEvents(ops[..|ops| - 1]) + if op.PushEventOp? then [Frame(op.event, op.len, true)] else []
  }

  /** The events small enough to be queued at all. */
  function AcceptedEvents<T>(ops: seq<Op<T>>, maxBytes: nat): seq<Frame<T>> {
    if ops == [] then []
    else
      var op := ops[|ops| - 1];
      AcceptedEvents(ops[..|ops| - 1], maxBytes)
      + if op.PushEventOp? && op.len <= maxBytes then [Frame(op.event, op.len, true)] else []
  }

  function PushedControls<T>(ops: seq<Op<T>>): seq<Frame<T>> {
    if ops == [] then []
    else
      var op := ops[|ops| - 1];
      PushedControls(ops[..|ops| - 1]) + if op.PushControlOp? then [Frame(op.control, op.len, false)] else []
  }

  function SentFrames<T>(wire: seq<Wire<T>>): seq<Frame<T>> {
    if wire == [] then []
    else
      var last := wire[|wire| - 1];
      SentFrames(wire[..|wire| - 1]) + if last.Sent? then [last.frame] else []
  }

  function Announced<T>(wire: seq<Wire<T>>): nat {
    if wire == [] then 0
    else
      var last := wire[|wire| - 1];
      Announced(wire[..|wire| - 1]) + if last.LagNotice? then last.dropped else 0
  }

  function Held<T>(held: Option<Frame<T>>): seq<Frame<T>> {
    match held case None => [] case Some(frame) => [frame]
  }

  /** Everything handed to the writer so far, in order. */
  function Taken<T>(c: Connection<T>): seq<Frame<T>> {
    SentFrames(c.wire) + Held(c.held)
  }

  /** Queued events are the newest accepted ones, in push order, and those handed to the writer are
      some of the older ones, in push order too. */
  ghost predicate InPushOrder<T(!new)>(taken: seq<Frame<T>>, queued: seq<Frame<T>>, accepted: seq<Frame<T>>) {
    IsSuffix(queued, accepted) && Subsequence(taken, accepted[..|accepted| - |queued|])
  }

  lemma InPushOrderTogether<T(!new)>(taken: seq<Frame<T>>, queued: seq<Frame<T>>, accepted: seq<Frame<T>>)
    requires InPushOrder(taken, queued, accepted)
    ensures Subsequence(taken + queued, accepted)
  {
    var older := accepted[..|accepted| - |queued|];
    SubsequenceTakeAll(taken, older, queued);
    assert older + queued == accepted;
  }

  /** A push takes the oldest k from the queue and adds the new event at its end. */
  lemma PushKeepsPushOrder<T(!new)>(taken: seq<Frame<T>>, queued: seq<Frame<T>>, accepted: seq<Frame<T>>, k: nat, x: Frame<T>)
    requires InPushOrder(taken, queued, accepted) && k <= |queued|
    ensures InPushOrder(taken, queued[k..] + [x], accepted + [x])
  {
    SuffixGrows(queued, accepted, k, x);
    var older := accepted[..|accepted| - |queued|];
    SubsequenceSkipAll(taken, older, queued[..k]);
    assert older + queued[..k] == (accepted + [x])[..|accepted + [x]| - |queued[k..] + [x]|];
  }

  lemma PopKeepsPushOrder<T(!new)>(taken: seq<Frame<T>>, queued: seq<Frame<T>>, accepted: seq<Frame<T>>)
    requires InPushOrder(taken, queued, accepted) && queued != []
    ensures InPushOrder(taken + [queued[0]], queued[1..], accepted)
  {
    var n := |accepted| - |queued|;
    SubsequenceTake(taken, accepted[..n], queued[0]);
    assert accepted[..n] + [queued[0]] == accepted[..n + 1];
  }

  /** No control frame is lost or reordered. */
  ghost predicate ControlsInOrder<T>(c: Connection<T>, pushed: seq<Frame<T>>) {
    ControlFrames(Taken(c)) + ControlFrames(c.queue.frames) == pushed
  }

  /** Every event pushed is delivered, dropped or queued. */
  ghost predicate EventsConserved<T>(c: Connection<T>, pushed: nat) {
    && |EventFrames(Taken(c))| == c.queue.delivered
    && c.queue.delivered + c.queue.dropped + |EventFrames(c.queue.frames)| == pushed
  }

  /** The notices sent and the pending one together count every drop. */
  ghost predicate DropsCounted<T>(c: Connection<T>) {
    Announced(c.wire) + c.queue.lagPending == c.queue.dropped
  }

  ghost predicate Refines<T(!new)>(c: Connection<T>, ops: seq<Op<T>>) {
    && c.queue.maxEvents >= 1
    && WithinBudget(c.queue)
    && InPushOrder(EventFrames(Taken(c)), EventFrames(c.queue.frames), AcceptedEvents(ops, c.queue.maxBytes))
    && ControlsInOrder(c, PushedControls(ops))
    && EventsConserved(c, |PushedEvents(ops)|)
    && DropsCounted(c)
  }

  lemma WireConcat<T>(wire: seq<Wire<T>>, lag: Option<nat>, frame: Frame<T>)
    ensures SentFrames(wire + LagFrames(lag) + [Sent(frame)]) == SentFrames(wire) + [frame]
    ensures Announced(wire + LagFrames(lag) + [Sent(frame)])
         == Announced(wire) + match lag case None => 0 case Some(n) => n
  {
    var noticed := wire + LagFrames<T>(lag);
    assert (noticed + [Sent(frame)])[..|noticed|] == noticed;
    match lag {
      case None => assert noticed == wire;
      case Some(n) => assert noticed[..|wire|] == wire;
    }
  }

  lemma OneMoreOp<T>(before: seq<Op<T>>, op: Op<T>, maxBytes: nat)
    ensures PushedEvents(before + [op])
         == if op.PushEventOp? then PushedEvents(before) + [Frame(op.event, op.len, true)] else PushedEvents(before)
    ensures AcceptedEvents(before + [op], maxBytes)
         == if op.PushEventOp? && op.len <= maxBytes then AcceptedEvents(before, maxBytes) + [Frame(op.event, op.len, true)]
            else AcceptedEvents(before, maxBytes)
    ensures PushedControls(before + [op])
         == if op.PushControlOp? then PushedControls(before) + [Frame(op.control, op.len, false)] else PushedControls(before)
  {
    assert (before + [op])[..|before|] == before;
  }

  lemma PushEventEffect<T>(q: QueueState<T>, event: T, len: nat) returns (k: nat)
    requires len <= q.maxBytes
    ensures k <= |EventFrames(q.frames)|
    ensures var r := PushEvent(q, event, len);
      && EventFrames(r.frames) == EventFrames(q.frames)[k..] + [Frame(event, len, true)]
      && ControlFrames(r.frames) == ControlFrames(q.frames)
      && r == q.(frames := r.frames, dropped := q.dropped + k, lagPending := q.lagPending + k)
      && (k == 0 ==> r.frames == q.frames + [Frame(event, len, true)])
  {
    k := EvictionIsMinimal(q, len);
    FrameAdded(EvictFor(q, len).frames, Frame(event, len, true));
  }

  lemma RefinesPushEvent<T(!new)>(c: Connection<T>, before: seq<Op<T>>, event: T, len: nat)
    requires Refines(c, before)
    ensures Refines(Step(c, PushEventOp(event, len)), before + [PushEventOp(event, len)])
  {
    hide Subsequence, IsSuffix;
    var q := c.queue;
    OneMoreOp(before, PushEventOp(event, len), q.maxBytes);
    PushKeepsBudget(q, event, len);
    assert Taken(Step(c, PushEventOp(event, len))) == Taken(c);
    if len <= q.maxBytes {
      var k := PushEventEffect(q, event, len);
      PushKeepsPushOrder(EventFrames(Taken(c)), EventFrames(q.frames), AcceptedEvents(before, q.maxBytes), k, Frame(event, len, true));
    }
  }

  lemma PushControlKeepsOrder<T>(c: Connection<T>, pushed: seq<Frame<T>>, control: T, len: nat)
    requires ControlsInOrder(c, pushed)
    ensures ControlsInOrder(Step(c, PushControlOp(control, len)), pushed + [Frame(control, len, false)])
  {
    hide Taken, ControlFrames, EventFrames;
    var d, frame := Step(c, PushControlOp(control, len)), Frame(control, len, false);
    TakenDependsOn(c, d);
    FrameAdded(c.queue.frames, frame);
    Regroup(ControlFrames(Taken(c)), ControlFrames(c.queue.frames), [frame]);
  }

  lemma TakenDependsOn<T>(c: Connection<T>, d: Connection<T>)
    requires d.wire == c.wire && d.held == c.held
    ensures Taken(d) == Taken(c)
  {
  }

  lemma RefinesPushControl<T(!new)>(c: Connection<T>, before: seq<Op<T>>, control: T, len: nat)
    requires Refines(c, before)
    ensures Refines(Step(c, PushControlOp(control, len)), before + [PushControlOp(control, len)])
  {
    hide InPushOrder, ControlsInOrder, Taken, EventFrames, ControlFrames, Announced;
    OneMoreOp(before, PushControlOp(control, len), c.queue.maxBytes);
    TakenDependsOn(c, Step(c, PushControlOp(control, len)));
    PushControlKeepsOrder(c, PushedControls(before), control, len);
    FrameAdded(c.queue.frames, Frame(control, len, false));
  }

  lemma FrontFrame<T>(frames: seq<Frame<T>>)
    requires frames != []
    ensures EventFrames(frames) == if frames[0].isEvent then [frames[0]] + EventFrames(frames[1..]) else EventFrames(frames[1..])
    ensures ControlFrames(frames) == if frames[0].isEvent then ControlFrames(frames[1..]) else [frames[0]] + ControlFrames(frames[1..])
  {
  }

  /** A pop moves the front frame over, and nothing else. */
  lemma PopMoves<T>(c: Connection<T>)
    requires c.held.None? && c.queue.frames != []
    ensures var d, frame := Step(c, PopOp), c.queue.frames[0];
      && Taken(d) == Taken(c) + [frame]
      && d.queue.frames == c.queue.frames[1..]
      && d.queue.delivered == c.queue.delivered + (if frame.isEvent then 1 else 0)
      && d.queue.dropped == c.queue.dropped
  {
    assert SentFrames(c.wire) + [] == SentFrames(c.wire);
  }

  lemma Regroup<T>(a: seq<T>, b: seq<T>, c: seq<T>)
    ensures (a + b) + c == a + (b + c)
  {
  }

  lemma PopKeepsControls<T>(c: Connection<T>, controls: seq<Frame<T>>)
    requires c.held.None? && c.queue.frames != [] && ControlsInOrder(c, controls)
    ensures ControlsInOrder(Step(c, PopOp), controls)
  {
    hide Taken, Step, ControlFrames, EventFrames;
    var frame := c.queue.frames[0];
    PopMoves(c);
    FrontFrame(c.queue.frames);
    FrameAdded(Taken(c), frame);
    if !frame.isEvent {
      Regroup(ControlFrames(Taken(c)), [frame], ControlFrames(c.queue.frames[1..]));
    }
  }

  lemma PopKeepsCount<T>(c: Connection<T>, events: nat)
    requires c.held.None? && c.queue.frames != [] && EventsConserved(c, events)
    ensures EventsConserved(Step(c, PopOp), events)
  {
    hide Taken, Step, EventFrames;
    PopMoves(c);
    FrontFrame(c.queue.frames);
    FrameAdded(Taken(c), c.queue.frames[0]);
  }

  lemma PopKeepsEventsInOrder<T(!new)>(c: Connection<T>, accepted: seq<Frame<T>>)
    requires c.held.None? && c.queue.frames != []
    requires InPushOrder(EventFrames(Taken(c)), EventFrames(c.queue.frames), accepted)
    ensures var d := Step(c, PopOp); InPushOrder(EventFrames(Taken(d)), EventFrames(d.queue.frames), accepted)
  {
    hide InPushOrder, Taken, Step, EventFrames;
    var frame := c.queue.frames[0];
    PopMoves(c);
    FrontFrame(c.queue.frames);
    FrameAdded(Taken(c), frame);
    if frame.isEvent {
      PopKeepsPushOrder(EventFrames(Taken(c)), EventFrames(c.queue.frames), accepted);
    }
  }

  lemma PopKeepsBudget<T>(q: QueueState<T>)
    requires q.frames != [] && WithinBudget(q)
    ensures WithinBudget(Pop(q))
  {
    var events := EventFrames(q.frames);
    FrontFrame(q.frames);
    if q.frames[0].isEvent {
      assert events[1..] == EventFrames(q.frames[1..]);
    }
  }

  lemma RefinesPop<T(!new)>(c: Connection<T>, before: seq<Op<T>>)
    requires Refines(c, before)
    ensures Refines(Step(c, PopOp), before + [PopOp])
  {
    hide InPushOrder, ControlsInOrder, EventsConserved, WithinBudget;
    OneMoreOp(before, PopOp, c.queue.maxBytes);
    if c.held.None? && c.queue.frames != [] {
      PopMoves(c);
      PopKeepsCount(c, |PushedEvents(before)|);
      PopKeepsControls(c, PushedControls(before));
      PopKeepsEventsInOrder(c, AcceptedEvents(before, c.queue.maxBytes));
      PopKeepsBudget(c.queue);
    }
  }

  /** A send announces what is owed, ahead of the frame it writes. */
  lemma SendWrites<T>(c: Connection<T>)
    requires c.held.Some?
    ensures var d := Step(c, SendOp);
      && Taken(d) == Taken(c)
      && d.queue == c.queue.(lagPending := 0)
      && Announced(d.wire) == Announced(c.wire) + c.queue.lagPending
  {
    WireConcat(c.wire, TakePendingLag(c.queue).0, c.held.value);
    assert SentFrames(c.wire) + [c.held.value] + [] == SentFrames(c.wire) + [c.held.value];
  }

  lemma RefinesSend<T(!new)>(c: Connection<T>, before: seq<Op<T>>)
    requires Refines(c, before)
    ensures Refines(Step(c, SendOp), before + [SendOp])
  {
    hide InPushOrder, Taken, Announced, EventFrames, ControlFrames;
    OneMoreOp(before, SendOp, c.queue.maxBytes);
    if c.held.Some? {
      SendWrites(c);
    }
  }

  lemma {:induction false} RunRefines<T(!new)>(maxEvents: nat, maxBytes: nat, ops: seq<Op<T>>)
    ensures Refines(Run(Open(maxEvents, maxBytes), ops), ops)
  {
    if ops != [] {
      var before, op := ops[..|ops| - 1], ops[|ops| - 1];
      RunRefines(maxEvents, maxBytes, before);
      var c := Run(Open(maxEvents, maxBytes), before);
      assert ops == before + [op];
      match op {
        case PushEventOp(event, len) => RefinesPushEvent(c, before, event, len);
        case PushControlOp(control, len) => RefinesPushControl(c, before, control, len);
        case PopOp => RefinesPop(c, before);
        case SendOp => RefinesSend(c, before);
      }
    }
  }

  /** The events handed to the writer, followed by those queued, are accepted ones in push order:
      nothing is duplicated, reordered or made up. */
  lemma {:induction false} DeliveredAreAccepted<T(!new)>(maxEvents: nat, maxBytes: nat, ops: seq<Op<T>>)
    ensures var c := Run(Open(maxEvents, maxBytes), ops);
      Subsequence(EventFrames(Taken(c)) + EventFrames(c.queue.frames), AcceptedEvents(ops, c.queue.maxBytes))
  {
    RunRefines(maxEvents, maxBytes, ops);
    var c := Run(Open(maxEvents, maxBytes), ops);
    InPushOrderTogether(EventFrames(Taken(c)), EventFrames(c.queue.frames), AcceptedEvents(ops, c.queue.maxBytes));
  }

  /** The budgets a queue was opened with, a zero counting as one, hold throughout the run. */
  lemma {:induction false} RunKeepsBudgets<T(!new)>(maxEvents: nat, maxBytes: nat, ops: seq<Op<T>>)
    ensures var q := Run(Open(maxEvents, maxBytes), ops).queue;
      && |EventFrames(q.frames)| <= q.maxEvents && (q.maxEvents == maxEvents || (maxEvents == 0 && q.maxEvents == 1))
      && TotalLength(EventFrames(q.frames)) <= q.maxBytes && (q.maxBytes == maxBytes || (maxBytes == 0 && q.maxBytes == 1))
  {
    RunRefines(maxEvents, maxBytes, ops);
    RunKeepsLimits(maxEvents, maxBytes, ops);
  }

  lemma {:induction false} RunKeepsLimits<T(!new)>(maxEvents: nat, maxBytes: nat, ops: seq<Op<T>>)
    ensures var q := Run(Open(maxEvents, maxBytes), ops).queue;
      && q.maxEvents == Create<T>(maxEvents, maxBytes).maxEvents && q.maxBytes == Create<T>(maxEvents, maxBytes).maxBytes
  {
    if ops != [] {
      var n := |ops| - 1;
      RunKeepsLimits(maxEvents, maxBytes, ops[..n]);
      var q := Run(Open(maxEvents, maxBytes), ops[..n]).queue;
      if ops[n].PushEventOp? {
        var k := EvictionIsMinimal(q, ops[n].len);
      }
    }
  }

  /** As long as all events ever pushed would fit the budgets together, none is dropped, however
      pushes, pops and sends interleave: those handed to the writer and those queued are all of
      them, in push order. */
  lemma {:induction false} NothingDroppedWithinBudgets<T(!new)>(maxEvents: nat, maxBytes: nat, ops: seq<Op<T>>)
    requires |PushedEvents(ops)| <= maxEvents && TotalLength(PushedEvents(ops)) <= maxBytes
    ensures var c := Run(Open(maxEvents, maxBytes), ops);
      && c.queue.dropped == 0
      && EventFrames(Taken(c)) + EventFrames(c.queue.frames) == PushedEvents(ops)
  {
    if ops != [] {
      var before, op := ops[..|ops| - 1], ops[|ops| - 1];
      assert ops == before + [op];
      OneMoreOp(before, op, maxBytes);
      if op.PushEventOp? {
        FrameAdded(PushedEvents(before), Frame(op.event, op.len, true));
      }
      NothingDroppedWithinBudgets(maxEvents, maxBytes, before);
      RunKeepsLimits(maxEvents, maxBytes, before);
      StepDropsNothing(Run(Open(maxEvents, maxBytes), before), op, PushedEvents(before));
    }
  }

  lemma StepDropsNothing<T>(c: Connection<T>, op: Op<T>, pushed: seq<Frame<T>>)
    requires EventFrames(Taken(c)) + EventFrames(c.queue.frames) == pushed
    requires op.PushEventOp? ==> |pushed| + 1 <= c.queue.maxEvents && TotalLength(pushed) + op.len <= c.queue.maxBytes
    ensures var d := Step(c, op);
      && d.queue.dropped == c.queue.dropped
      && EventFrames(Taken(d)) + EventFrames(d.queue.frames)
         == if op.PushEventOp? then pushed + [Frame(op.event, op.len, true)] else pushed
  {
    hide Taken, EventFrames;
    var taken, queued := EventFrames(Taken(c)), EventFrames(c.queue.frames);
    match op {
      case PushEventOp(event, len) =>
        TotalLengthConcat(taken, queued);
        PushWithRoom(c.queue, event, len);
        FrameAdded(c.queue.frames, Frame(event, len, true));
        TakenDependsOn(c, Step(c, op));
        Regroup(taken, queued, [Frame(event, len, true)]);
      case PushControlOp(control, len) =>
        FrameAdded(c.queue.frames, Frame(control, len, false));
        TakenDependsOn(c, Step(c, op));
      case PopOp =>
        if c.held.None? && c.queue.frames != [] {
          PopMoves(c);
          FrontFrame(c.queue.frames);
          FrameAdded(Taken(c), c.queue.frames[0]);
        }
      case SendOp =>
        if c.held.Some? {
          SendWrites(c);
        }
    }
  }

  // ------------------------------------------------- drops are announced in time

  /** Frames carry the position of the push that made them; the queue never looks at a body. */
  ghost predicate Tagged(ops: seq<Op<nat>>) {
    forall i :: 0 <= i < |ops| ==>
      && (ops[i].PushEventOp? ==> ops[i].event == i)
      && (ops[i].PushControlOp? ==> ops[i].control == i)
  }

  /** The drops recorded once the operation at position i is done. */
  function DroppedBy(start: Connection<nat>, ops: seq<Op<nat>>, i: nat): nat
    requires i < |ops|
  {
    Run(start, ops[..i + 1]).queue.dropped
  }

  ghost predicate Known(start: Connection<nat>, ops: seq<Op<nat>>, frames: seq<Frame<nat>>, dropped: nat) {
    forall k :: 0 <= k < |frames| ==> frames[k].body < |ops| && DroppedBy(start, ops, frames[k].body) <= dropped
  }

  /** Each frame on the wire is preceded by notices for every drop recorded up to its push. */
  ghost predicate Timely(start: Connection<nat>, ops: seq<Op<nat>>, wire: seq<Wire<nat>>) {
    forall p :: 0 <= p < |wire| && wire[p].Sent? ==>
      wire[p].frame.body < |ops| && DroppedBy(start, ops, wire[p].frame.body) <= Announced(wire[..p])
  }

  lemma LongerRun(start: Connection<nat>, ops: seq<Op<nat>>, i: nat)
    requires i < |ops| - 1
    ensures DroppedBy(start, ops[..|ops| - 1], i) == DroppedBy(start, ops, i)
  {
    assert ops[..|ops| - 1][..i + 1] == ops[..i + 1];
  }

  lemma {:induction false} EvictionOnlyRemoves<T>(q: QueueState<T>, incoming: nat)
    ensures forall frame :: frame in EvictFor(q, incoming).frames ==> frame in q.frames
    decreases |q.frames|
  {
    if OverBudget(q.frames, incoming, q.maxEvents, q.maxBytes) {
      RemovalOnlyRemoves(q.frames);
      EvictionOnlyRemoves(RecordDrop(q.(frames := WithoutOldestEvent(q.frames))), incoming);
    }
  }

  lemma {:induction false} RemovalOnlyRemoves<T>(frames: seq<Frame<T>>)
    requires EventFrames(frames) != []
    ensures forall frame :: frame in WithoutOldestEvent(frames) ==> frame in frames
  {
    if !frames[0].isEvent {
      RemovalOnlyRemoves(frames[1..]);
    }
  }

  /** After one operation each frame was there before or is the one just pushed, and drops only grow. */
  lemma FramesAfterOp(c: Connection<nat>, op: Op<nat>)
    ensures var d := Step(c, op);
      && d.queue.dropped >= c.queue.dropped
      && forall frame :: frame in d.queue.frames || frame in Held(d.held) ==>
           || frame in c.queue.frames || frame in Held(c.held)
           || (op.PushEventOp? && frame.body == op.event)
           || (op.PushControlOp? && frame.body == op.control)
  {
    if op.PushEventOp? {
      EvictionOnlyRemoves(c.queue, op.len);
      var k := EvictionIsMinimal(c.queue, op.len);
    }
  }

  lemma StepKeepsKnown(start: Connection<nat>, ops: seq<Op<nat>>)
    requires Tagged(ops) && ops != []
    requires var before := ops[..|ops| - 1]; var c := Run(start, before);
      Known(start, before, c.queue.frames, c.queue.dropped) && Known(start, before, Held(c.held), c.queue.dropped)
    ensures var d := Run(start, ops);
      Known(start, ops, d.queue.frames, d.queue.dropped) && Known(start, ops, Held(d.held), d.queue.dropped)
  {
    hide Step, Held;
    var n := |ops| - 1;
    var before := ops[..n];
    var c, d := Run(start, before), Run(start, ops);
    assert ops[..n + 1] == ops;
    FramesAfterOp(c, ops[n]);
    forall frame | frame in d.queue.frames || frame in Held(d.held)
      ensures frame.body < |ops| && DroppedBy(start, ops, frame.body) <= d.queue.dropped
    {
      if frame in c.queue.frames || frame in Held(c.held) {
        LongerRun(start, ops, frame.body);
      } else {
        assert frame.body == n;
      }
    }
  }

  lemma {:induction false} FramesKnown(start: Connection<nat>, ops: seq<Op<nat>>)
    requires Tagged(ops)
    requires start.queue.frames == [] && start.held.None?
    ensures var c := Run(start, ops);
      Known(start, ops, c.queue.frames, c.queue.dropped) && Known(start, ops, Held(c.held), c.queue.dropped)
  {
    if ops != [] {
      FramesKnown(start, ops[..|ops| - 1]);
      StepKeepsKnown(start, ops);
    }
  }

  lemma TimelyStays(start: Connection<nat>, ops: seq<Op<nat>>, wire: seq<Wire<nat>>)
    requires ops != [] && Timely(start, ops[..|ops| - 1], wire)
    ensures Timely(start, ops, wire)
  {
    forall p | 0 <= p < |wire| && wire[p].Sent?
      ensures wire[p].frame.body < |ops| && DroppedBy(start, ops, wire[p].frame.body) <= Announced(wire[..p])
    {
      LongerRun(start, ops, wire[p].frame.body);
    }
  }

  lemma TimelyAppend(start: Connection<nat>, ops: seq<Op<nat>>, wire: seq<Wire<nat>>, lag: Option<nat>, frame: Frame<nat>)
    requires Timely(start, ops, wire)
    requires frame.body < |ops|
    requires DroppedBy(start, ops, frame.body) <= Announced(wire) + match lag case None => 0 case Some(n) => n
    ensures Timely(start, ops, wire + LagFrames(lag) + [Sent(frame)])
  {
    var noticed := wire + LagFrames<nat>(lag);
    var longer := noticed + [Sent(frame)];
    assert longer[..|noticed|] == noticed;
    WireConcat(wire, lag, frame);
    assert Announced(longer) == Announced(noticed);
    forall p | 0 <= p < |longer| && longer[p].Sent?
      ensures longer[p].frame.body < |ops| && DroppedBy(start, ops, longer[p].frame.body) <= Announced(longer[..p])
    {
      if p < |wire| {
        assert longer[..p] == wire[..p] && longer[p] == wire[p];
      }
    }
  }

  /** For every interleaving of pushes, pops and sends, the drops recorded up to the push of a
      frame are all announced on the wire before that frame. */
  lemma {:induction false} DropsAnnouncedInTime(maxEvents: nat, maxBytes: nat, ops: seq<Op<nat>>)
    requires Tagged(ops)
    ensures Timely(Open(maxEvents, maxBytes), ops, Run(Open(maxEvents, maxBytes), ops).wire)
  {
    if ops != [] {
      var start := Open<nat>(maxEvents, maxBytes);
      var n := |ops| - 1;
      DropsAnnouncedInTime(maxEvents, maxBytes, ops[..n]);
      var c := Run(start, ops[..n]);
      TimelyStays(start, ops, c.wire);
      if ops[n].SendOp? && c.held.Some? {
        RunRefines(maxEvents, maxBytes, ops[..n]);
        FramesKnown(start, ops[..n]);
        assert Held(c.held)[0] == c.held.value;
        LongerRun(start, ops, c.held.value.body);
        TimelyAppend(start, ops, c.wire, TakePendingLag(c.queue).0, c.held.value);
      }
    }
  }

  // -------------------------------------------------------- the queue in place

  function OldestEvent<T>(frames: seq<Frame<T>>): (r: Option<nat>)
    ensures r.None? <==> EventFrames(frames) == []
    ensures r.Some? ==> r.value < |frames| && frames[r.value].isEvent
  {
    if frames == [] then None
    else if frames[0].isEvent then Some(0)
    else match OldestEvent(frames[1..])
      case None => None
      case Some(i) => Some(i + 1)
  }

  lemma {:induction false} RemoveOldestEvent<T>(frames: seq<Frame<T>>)
    requires EventFrames(frames) != []
    ensures var i := OldestEvent(frames).value; frames[..i] + frames[i + 1..] == WithoutOldestEvent(frames)
  {
    if !frames[0].isEvent {
      RemoveOldestEvent(frames[1..]);
      var i := OldestEvent(frames[1..]).value;
      assert frames[..i + 1] + frames[i + 2..] == [frames[0]] + (frames[1..][..i] + frames[1..][i + 1..]);
    }
  }

  class Queue<T> {
    var frames: seq<Frame<T>>
    var delivered: nat
    var dropped: nat
    var lagPending: nat
    const maxEvents: nat
    const maxBytes: nat

    ghost function State(): QueueState<T>
      reads this
    {
      QueueState(frames, maxEvents, maxBytes, delivered, dropped, lagPending)
    }

    constructor (maxEvents: nat, maxBytes: nat)
      ensures State() == Create(maxEvents, maxBytes)
    {
      this.maxEvents := if maxEvents < 1 then 1 else maxEvents;
      this.maxBytes := if maxBytes < 1 then 1 else maxBytes;
      frames, delivered, dropped, lagPending := [], 0, 0, 0;
    }

    method RecordOneDrop()
      modifies this
      ensures State() == RecordDrop(old(State()))
    {
      dropped := dropped + 1;
      lagPending := lagPending + 1;
    }

    method Push(body: T, len: nat)
      modifies this
      ensures State() == PushEvent(old(State()), body, len)
    {
      if len > maxBytes {
        RecordOneDrop();
        return;
      }
      while OverBudget(frames, len, maxEvents, maxBytes)
        invariant EvictFor(State(), len) == EvictFor(old(State()), len)
        decreases |frames|
      {
        var evictAt := OldestEvent(frames);
        if evictAt.None? {
          break;
        }
        RemoveOldestEvent(frames);
        frames := frames[..evictAt.value] + frames[evictAt.value + 1..];
        RecordOneDrop();
      }
      frames := frames + [Frame(body, len, true)];
    }

    method PushControlFrame(body: T, len: nat)
      modifies this
      ensures State() == PushControl(old(State()), body, len)
    {
      frames := frames + [Frame(body, len, false)];
    }

    /** One try at `pop`: nothing on an empty queue, where the caller goes on waiting for a push. */
    method PopFront() returns (frame: Option<Frame<T>>)
      modifies this
      ensures frame.None? <==> old(frames) == []
      ensures frame.None? ==> State() == old(State())
      ensures frame.Some? ==> frame.value == old(frames)[0] && State() == Pop(old(State()))
    {
      if frames == [] {
        return None;
      }
      frame := Some(frames[0]);
      frames := frames[1..];
      if frame.value.isEvent {
        delivered := delivered + 1;
      }
    }

    method TakeLag() returns (lag: Option<nat>)
      modifies this
      ensures (lag, State()) == TakePendingLag(old(State()))
    {
      lag := if lagPending == 0 then None else Some(lagPending);
      lagPending := 0;
    }
  }
}
