/** The delivery pipeline end to end: one subscriber client, its connection to the server, the
    delivery log and the fan-out, as a state machine over single steps. A run is any sequence
    of steps; a step that is not enabled leaves the world as it is. */
module Pipeline {
  import opened Wrappers
  import opened Messages
  import opened DeliveryLog
  import opened SubscriberSocket
  import opened ResumeState
  import OutboundQueue
  import Channel

  type QueuedFrame = OutboundQueue.Frame<ServerMsg>

  datatype Config = Config(
    patterns: seq<string>,
    limits: Limits,
    queueEvents: nat,
    queueBytes: nat,
    capacity: nat,
    initial: nat)

  /** How far the socket task has got with the client's subscribe. */
  datatype Phase =
    | Connected
    | Subscribed
    | FloorRead(floor: nat)
    | HeadRead(floor: nat, head: nat)
    | Live(through: nat)

  datatype Conn = Conn(
    queue: OutboundQueue.QueueState<ServerMsg>,
    held: Option<QueuedFrame>,
    phase: Phase,
    afterSeq: nat)

  /** Where the client's loop stands between handling an event and persisting the cursor. */
  datatype ClientPhase = Ready | Handling(row: Row) | Recorded | Stopped

  /** `handedOver` lists what this process has given its handler. `completed` has the ids whose
      handler returned and which were then recorded, by this process or an earlier one. `gaps` are
      the replay gaps received. All three are history. */
  datatype ClientState = ClientState(
    resume: Resume,
    saved: nat,
    phase: ClientPhase,
    wire: Option<seq<ServerMsg>>,
    handedOver: seq<nat>,
    completed: set<Uuid>,
    gaps: set<(nat, nat)>)

  /** `committed` is every row ever committed; `pending` the committed rows not yet pushed. */
  datatype World = World(
    log: Log,
    committed: seq<Row>,
    pending: seq<Row>,
    conn: Option<Conn>,
    client: ClientState)

  datatype Action =
    | Commit(events: seq<Emission>, tsMs: nat)
    | Push(k: nat)
    | PruneLog(nowMs: nat)
    | ServerCrash(nowMs: nat)
    | Connect
    | Subscribe
    | ReadFloor
    | ReadHead
    | Scan
    | Reply(control: ServerMsg)
    | PopFrame
    | SendFrame
    | ServerClose(reason: ClosingReason)
    | Disconnect
    | Receive
    | RecordCursor
    | SaveCursor
    | EndSession
    | Fail
    | ClientCrash

  function Start(cfg: Config): World {
    World(FRESH, [], [], None, Restarted(cfg, cfg.initial, {}, {}))
  }

  function Restarted(cfg: Config, saved: nat, completed: set<Uuid>, gaps: set<(nat, nat)>): ClientState {
    ClientState(StartFrom(saved, cfg.capacity), saved, Ready, None, [], completed, gaps)
  }

  predicate Wanted(cfg: Config, row: Row) {
    Channel.AnyMatches(cfg.patterns, row.channel)
  }

  // -------------------------------------------------------------- server actions

  /** Fresh ids: distinct from each other and from every id stamped before. */
  ghost predicate FreshIds(committed: seq<Row>, events: seq<Emission>) {
    && (forall i, j :: 0 <= i < j < |events| ==> events[i].id != events[j].id)
    && (forall i, j :: 0 <= i < |events| && 0 <= j < |committed| ==> events[i].id != committed[j].id)
  }

  ghost function DoCommit(w: World, events: seq<Emission>, tsMs: nat): World {
    if FreshIds(w.committed, events) then
      var rows := Stamped(w.log.head, events, tsMs);
      w.(log := AppendTo(w.log, events, tsMs), committed := w.committed + rows, pending := w.pending + rows)
    else w
  }

  /** The fan-out pushes one of its rows; it reaches the queue if the connection is subscribed
      and a pattern matches. */
  function DoPush(cfg: Config, w: World, k: nat): World {
    if k < |w.pending| then
      var row := w.pending[k];
      var rest := w.(pending := w.pending[..k] + w.pending[k + 1..]);
      match w.conn
      case Some(conn) =>
        if !conn.phase.Connected? && Wanted(cfg, row) then
          rest.(conn := Some(conn.(queue := OutboundQueue.PushEvent(conn.queue, EventMsg(row), row.text))))
        else rest
      case None => rest
    else w
  }

  /** The process dies: rows in flight to queues and the connection are gone, the log is
      recovered from its table. What the client's socket already holds stays readable. */
  function DoServerCrash(cfg: Config, w: World, nowMs: nat): World {
    w.(log := Reopen(w.log, cfg.limits, nowMs), pending := [], conn := None)
  }

  function DoConnect(cfg: Config, w: World): World {
    if w.client.phase.Ready? && w.client.wire.None? then
      w.(conn := Some(Conn(OutboundQueue.Create(cfg.queueEvents, cfg.queueBytes), None, Connected, w.client.resume.cursor)),
         client := w.client.(wire := Some([Welcome])))
    else w
  }

  function DoSubscribe(w: World): World {
    match w.conn
    case Some(conn) =>
      if conn.phase.Connected? && conn.held.None? then
        w.(conn := Some(conn.(phase := Subscribed)))
      else w
    case None => w
  }

  function DoReadFloor(w: World): World {
    match w.conn
    case Some(conn) => if conn.phase.Subscribed? then w.(conn := Some(conn.(phase := FloorRead(w.log.floor)))) else w
    case None => w
  }

  function DoReadHead(w: World): World {
    match w.conn
    case Some(conn) =>
      if conn.phase.FloorRead? then w.(conn := Some(conn.(phase := HeadRead(conn.phase.floor, w.log.head)))) else w
    case None => w
  }

  function SentTo(client: ClientState, msgs: seq<ServerMsg>): ClientState {
    match client.wire
    case Some(wire) => client.(wire := Some(wire + msgs))
    case None => client
  }

  /** The table is scanned and the whole window streamed to the sink. */
  function DoScan(cfg: Config, w: World): World {
    match w.conn
    case Some(conn) =>
      if conn.phase.HeadRead? then
        var frames := ReplayFrames(conn.afterSeq, conn.phase.floor, conn.phase.head, w.log.table, cfg.patterns);
        w.(conn := Some(conn.(phase := Live(conn.phase.head))), client := SentTo(w.client, frames))
      else w
    case None => w
  }

  predicate Inert(msg: ServerMsg) {
    msg.Welcome? || msg.OkMsg? || msg.ErrorMsg? || msg.Pong? || msg.Replayed?
  }

  /** The select loop serves the queue before the subscribe arrives and once the replay is out. */
  predicate Serving(conn: Conn) {
    conn.phase.Connected? || conn.phase.Live?
  }

  function DoReply(w: World, control: ServerMsg): World {
    match w.conn
    case Some(conn) =>
      if Serving(conn) && Inert(control) then
        w.(conn := Some(conn.(queue := OutboundQueue.PushControl(conn.queue, control, 0))))
      else w
    case None => w
  }

  function DoPop(w: World): World {
    match w.conn
    case Some(conn) =>
      if Serving(conn) && conn.held.None? && conn.queue.frames != [] then
        w.(conn := Some(conn.(queue := OutboundQueue.Pop(conn.queue), held := Some(conn.queue.frames[0]))))
      else w
    case None => w
  }

  function DoSend(w: World): World {
    match w.conn
    case Some(conn) =>
      (match conn.held
       case Some(frame) =>
         var (lag, queue) := OutboundQueue.TakePendingLag(conn.queue);
         w.(conn := Some(conn.(queue := queue, held := None)),
            client := SentTo(w.client, LagMsgs(lag) + [frame.body]))
       case None => w)
    case None => w
  }

  function DoServerClose(w: World, reason: ClosingReason): World {
    if w.conn.Some? then w.(conn := None, client := SentTo(w.client, [Closing(reason)])) else w
  }

  // -------------------------------------------------------------- client actions

  function Ended(w: World, client: ClientState): World {
    w.(conn := None, client := client.(wire := None))
  }

  /** One turn of the session loop: the next frame on the wire. */
  function DoReceive(w: World): World {
    var client := w.client;
    if client.phase.Ready? && client.wire.Some? && client.wire.value != [] then
      var msg, rest := client.wire.value[0], client.(wire := Some(client.wire.value[1..]));
      match msg
      case EventMsg(row) =>
        if ShouldProcess(client.resume, row.id, row.seqno) then
          w.(client := rest.(phase := Handling(row), handedOver := client.handedOver + [row.seqno]))
        else w.(client := rest)
      case ReplayGap(fromSeq, earliestSeq) => w.(client := rest.(gaps := client.gaps + {(fromSeq, earliestSeq)}))
      case Lagged(_) => Ended(w, client)
      case Closing(reason) => Ended(w, client.(phase := if reason.Revoked? then Stopped else Ready))
      case _ => w.(client := rest)
    else w
  }

  /** The handler has returned; only now does the event count as handled. */
  function DoRecord(w: World): World {
    match w.client.phase
    case Handling(row) =>
      w.(client := w.client.(resume := Record(w.client.resume, row.id, row.seqno), phase := Recorded,
                             completed := w.client.completed + {row.id}))
    case _ => w
  }

  function DoSave(w: World): World {
    if w.client.phase.Recorded? then w.(client := w.client.(saved := w.client.resume.cursor, phase := Ready)) else w
  }

  /** The process dies and restarts from the last saved cursor. */
  function DoClientCrash(cfg: Config, w: World): World {
    w.(conn := None, client := Restarted(cfg, w.client.saved, w.client.completed, w.client.gaps))
  }

  ghost function Do(cfg: Config, w: World, action: Action): World {
    match action
    case Commit(events, tsMs) => DoCommit(w, events, tsMs)
    case Push(k) => DoPush(cfg, w, k)
    case PruneLog(nowMs) => w.(log := PruneTo(w.log, cfg.limits, nowMs))
    case ServerCrash(nowMs) => DoServerCrash(cfg, w, nowMs)
    case Connect => DoConnect(cfg, w)
    case Subscribe => DoSubscribe(w)
    case ReadFloor => DoReadFloor(w)
    case ReadHead => DoReadHead(w)
    case Scan => DoScan(cfg, w)
    case Reply(control) => DoReply(w, control)
    case PopFrame => DoPop(w)
    case SendFrame => DoSend(w)
    case ServerClose(reason) => DoServerClose(w, reason)
    case Disconnect => w.(conn := None)
    case Receive => DoReceive(w)
    case RecordCursor => DoRecord(w)
    case SaveCursor => DoSave(w)
    case EndSession => if w.client.phase.Ready? then Ended(w, w.client) else w
    case Fail => Ended(w, w.client.(phase := Stopped))
    case ClientCrash => DoClientCrash(cfg, w)
  }

  ghost function RunFrom(cfg: Config, w: World, actions: seq<Action>): World {
    if actions == [] then w
    else Do(cfg, RunFrom(cfg, w, actions[..|actions| - 1]), actions[|actions| - 1])
  }

  // ------------------------------------------------------------------ properties

  ghost predicate InGap(s: nat, gaps: set<(nat, nat)>) {
    exists g :: g in gaps && g.0 < s < g.1
  }

  /** Every committed matching event at or below the client's cursor was handled to completion, or
      the client has been told it is gone. */
  ghost predicate NothingSkipped(cfg: Config, w: World) {
    forall i :: 0 <= i < |w.committed| && Wanted(cfg, w.committed[i])
             && cfg.initial < w.committed[i].seqno <= w.client.resume.cursor
      ==> w.committed[i].id in w.client.completed || InGap(w.committed[i].seqno, w.client.gaps)
  }

  function Max(x: nat, y: nat): nat {
    if x > y then x else y
  }

  predicate EndsSession(msg: ServerMsg) {
    msg.Lagged? || msg.Closing?
  }

  /** The connection has taken its head snapshot: what is committed from here on reaches the client
      through the queue alone. */
  predicate PastHead(conn: Conn) {
    conn.phase.HeadRead? || conn.phase.Live?
  }

  /** Rows up to this number are the replay's, or below what the client asked for. */
  function Mark(conn: Conn): nat {
    match conn.phase
    case HeadRead(_, head) => Max(head, conn.afterSeq)
    case Live(through) => Max(through, conn.afterSeq)
    case _ => conn.afterSeq
  }

  /** No session end is on its way to the client. */
  predicate StillReading(client: ClientState) {
    client.wire.Some? && forall i :: 0 <= i < |client.wire.value| ==> !EndsSession(client.wire.value[i])
  }

  /** The push would put the row on the queue with no drop to announce. */
  predicate Follows(cfg: Config, w: World, k: nat) {
    && k < |w.pending| && Wanted(cfg, w.pending[k])
    && w.conn.Some? && PastHead(w.conn.value) && StillReading(w.client)
    && OutboundQueue.PushEvent(w.conn.value.queue, EventMsg(w.pending[k]), w.pending[k].text).lagPending == 0
  }

  /** The row at position k would overtake one that the subscriber wants and is owed. */
  predicate Overtakes(cfg: Config, w: World, k: nat) {
    Follows(cfg, w, k) && exists j :: 0 <= j < k && Wanted(cfg, w.pending[j]) && w.pending[j].seqno > Mark(w.conn.value)
  }

  /** The guard each kind of step needs for the promise to hold: no pushed row overtakes another
      that the subscriber is owed, a restart finds the table non-empty, and a replay's scan still
      reaches back to its effective cursor. */
  predicate Orderly(cfg: Config, w: World, action: Action) {
    match action
    case Push(k) => !Overtakes(cfg, w, k)
    case ServerCrash(_) => RestartSafe(w.log)
    case Scan =>
      w.conn.Some? && w.conn.value.phase.HeadRead? ==>
        var conn := w.conn.value;
        ScanComplete(conn.afterSeq, conn.phase.floor, conn.phase.head, w.log.floor)
    case _ => true
  }

  ghost predicate OrderlyFrom(cfg: Config, w: World, actions: seq<Action>) {
    forall n :: 0 <= n < |actions| ==> Orderly(cfg, RunFrom(cfg, w, actions[..n]), actions[n])
  }

  ghost predicate OrderlyRun(cfg: Config, actions: seq<Action>) {
    OrderlyFrom(cfg, Start(cfg), actions)
  }
}
