/** The subscriber client's session loop and the reconnect loop around it. */
module ClientSession {
  import opened Wrappers
  import opened Messages
  import opened ResumeState
  import Pipeline

  datatype ClientError =
    | AuthFailed
    | HttpStatus
    | TokenRevoked
    | HandlerFailed
    | StoreFailed
    | TransportFailed
    | ConnectionClosed
    | InvalidRequest

  predicate IsFatal(error: ClientError) {
    error.AuthFailed? || error.TokenRevoked? || error.HandlerFailed? || error.StoreFailed? || error.InvalidRequest?
  }

  /** What the application decides: whether its hook accepts a message, and whether a cursor
      can be persisted. */
  datatype Application = Application(accepts: ServerMsg -> bool, persists: nat -> bool)

  /** The resume state and the persisted cursor, with what the handler has been given so far. */
  datatype Progress = Progress(resume: Resume, saved: nat, handled: seq<Arrival>, gaps: seq<(nat, nat)>)

  datatype Turned = Continue(progress: Progress) | Stop(progress: Progress, outcome: Result<(), ClientError>)

  function ArrivalOf(row: Row): Arrival {
    Arrival(row.id, row.seqno)
  }

  function Turn(p: Progress, msg: ServerMsg, app: Application): Turned {
    match msg
    case EventMsg(row) =>
      if !ShouldProcess(p.resume, row.id, row.seqno) then Continue(p)
      else if !app.accepts(msg) then Stop(p, Err(HandlerFailed))
      else
        var next := p.(resume := Record(p.resume, row.id, row.seqno), handled := p.handled + [ArrivalOf(row)]);
        if app.persists(next.resume.cursor) then Continue(next.(saved := next.resume.cursor))
        else Stop(next, Err(StoreFailed))
    case Replayed(_) => if app.accepts(msg) then Continue(p) else Stop(p, Err(HandlerFailed))
    case ReplayGap(fromSeq, earliestSeq) =>
      if app.accepts(msg) then Continue(p.(gaps := p.gaps + [(fromSeq, earliestSeq)])) else Stop(p, Err(HandlerFailed))
    case Lagged(_) => Stop(p, if app.accepts(msg) then Ok(()) else Err(HandlerFailed))
    case ErrorMsg(op, _) => if op == "replay" && !app.accepts(msg) then Stop(p, Err(HandlerFailed)) else Continue(p)
    case Closing(reason) => Stop(p, if reason.Revoked? then Err(TokenRevoked) else Ok(()))
    case _ => Continue(p)
  }

  /** A session reads frames until one ends it or the connection is gone. */
  function Session(p: Progress, frames: seq<ServerMsg>, app: Application): (Progress, Result<(), ClientError>)
    decreases |frames|
  {
    if frames == [] then (p, Err(ConnectionClosed))
    else match Turn(p, frames[0], app)
      case Continue(next) => Session(next, frames[1..], app)
      case Stop(last, outcome) => (last, outcome)
  }

  /** One attempt to connect: refused, or the frames the connection delivers. */
  datatype Attempt = RefusedWith(error: ClientError) | Delivers(frames: seq<ServerMsg>)

  function OneAttempt(p: Progress, attempt: Attempt, app: Application): (Progress, Result<(), ClientError>) {
    match attempt
    case RefusedWith(error) => (p, Err(error))
    case Delivers(frames) => Session(p, frames, app)
  }

  /** The reconnect loop over the attempts made so far: it goes on unless an error is fatal. */
  function Reconnecting(p: Progress, attempts: seq<Attempt>, app: Application): (Progress, Option<ClientError>)
    decreases |attempts|
  {
    if attempts == [] then (p, None)
    else
      var (next, outcome) := OneAttempt(p, attempts[0], app);
      if outcome.Err? && IsFatal(outcome.error) then (next, Some(outcome.error))
      else Reconnecting(next, attempts[1..], app)
  }

  function StartAt(cursor: nat, capacity: nat): Progress {
    Progress(StartFrom(cursor, capacity), cursor, [], [])
  }

  // ------------------------------------------------------------------ properties

  /** The cursor is that of the last handled event, and unless persisting failed it is saved. */
  ghost predicate Sound(p: Progress, from: nat, app: Application) {
    && Remembers(p.resume, from, p.handled)
    && (p.saved == p.resume.cursor || !app.persists(p.resume.cursor))
  }

  lemma TurnKeepsSound(p: Progress, from: nat, msg: ServerMsg, app: Application)
    requires Sound(p, from, app)
    ensures Sound(Turn(p, msg, app).progress, from, app)
    ensures p.handled <= Turn(p, msg, app).progress.handled
  {
    match msg {
      case EventMsg(row) =>
        if ShouldProcess(p.resume, row.id, row.seqno) {
          RecordRemembers(p.resume, from, p.handled, ArrivalOf(row));
        }
      case _ =>
    }
  }

  lemma {:induction false} SessionKeepsSound(p: Progress, from: nat, frames: seq<ServerMsg>, app: Application)
    requires Sound(p, from, app)
    ensures Sound(Session(p, frames, app).0, from, app)
    ensures p.handled <= Session(p, frames, app).0.handled
    decreases |frames|
  {
    if frames != [] {
      TurnKeepsSound(p, from, frames[0], app);
      var turned := Turn(p, frames[0], app);
      if turned.Continue? {
        SessionKeepsSound(turned.progress, from, frames[1..], app);
      }
    }
  }

  /** Across any number of sessions and reconnects: handled numbers strictly increase from the
      loaded cursor, nothing handled is forgotten, and the cursor to resume from is that of the
      last handled event, saved unless persisting it failed. */
  lemma {:induction false} ReconnectingKeepsSound(p: Progress, from: nat, attempts: seq<Attempt>, app: Application)
    requires Sound(p, from, app)
    ensures Sound(Reconnecting(p, attempts, app).0, from, app)
    ensures p.handled <= Reconnecting(p, attempts, app).0.handled
    decreases |attempts|
  {
    if attempts != [] {
      if attempts[0].Delivers? {
        SessionKeepsSound(p, from, attempts[0].frames, app);
      }
      var (next, outcome) := OneAttempt(p, attempts[0], app);
      if !(outcome.Err? && IsFatal(outcome.error)) {
        ReconnectingKeepsSound(next, from, attempts[1..], app);
      }
    }
  }

  /** Whether the application's hook for a message refuses it; acknowledgements have no hook. */
  predicate Refused(msg: ServerMsg, app: Application) {
    (msg.Replayed? || msg.ReplayGap? || msg.Lagged? || (msg.ErrorMsg? && msg.op == "replay")) && !app.accepts(msg)
  }

  /** What reading a frame on makes of the progress: a new event is handled, recorded and saved, a gap
      is noted. */
  function Absorbed(p: Progress, msg: ServerMsg): Progress {
    match msg
    case EventMsg(row) =>
      if row.seqno > p.resume.cursor && row.id !in p.resume.seen then
        Progress(Record(p.resume, row.id, row.seqno), row.seqno, p.handled + [ArrivalOf(row)], p.gaps)
      else p
    case ReplayGap(fromSeq, earliestSeq) => p.(gaps := p.gaps + [(fromSeq, earliestSeq)])
    case _ => p
  }

  function AbsorbedAll(p: Progress, frames: seq<ServerMsg>): Progress
    decreases |frames|
  {
    if frames == [] then p else AbsorbedAll(Absorbed(p, frames[0]), frames[1..])
  }

  /** Whether a frame is news to a client that has come this far. */
  predicate IsNews(p: Progress, msg: ServerMsg) {
    msg.EventMsg? && msg.row.seqno > p.resume.cursor && msg.row.id !in p.resume.seen
  }

  /** A frame that ends the session, what it makes of the progress, and of the session. */
  ghost predicate EndsWith(p: Progress, msg: ServerMsg, app: Application, last: Progress, outcome: Result<(), ClientError>) {
    match msg
    case Lagged(_) => last == p && outcome == if app.accepts(msg) then Ok(()) else Err(HandlerFailed)
    case Closing(reason) => last == p && outcome == if reason.Revoked? then Err(TokenRevoked) else Ok(())
    case EventMsg(row) =>
      && IsNews(p, msg)
      && (if app.accepts(msg) then !app.persists(row.seqno) && last == Absorbed(p, msg).(saved := p.saved) && outcome == Err(StoreFailed)
          else last == p && outcome == Err(HandlerFailed))
    case _ => Refused(msg, app) && last == p && outcome == Err(HandlerFailed)
  }

  /** A frame the session reads past. */
  predicate ReadOn(p: Progress, msg: ServerMsg, app: Application) {
    && !msg.Lagged? && !msg.Closing? && !Refused(msg, app)
    && (IsNews(p, msg) ==> app.accepts(msg) && app.persists(msg.row.seqno))
  }

  /** A session reads on past every frame but a lag notice, a closing, a refused one, or a new event
      whose cursor cannot be saved, absorbing them in order; the first of these ends it, and says
      whether to reconnect. If none comes, the connection is lost in the end. */
  lemma {:induction false} SessionEndDecidesReconnect(p: Progress, frames: seq<ServerMsg>, app: Application) returns (i: nat)
    ensures i <= |frames|
    ensures forall k :: 0 <= k < i ==> ReadOn(AbsorbedAll(p, frames[..k]), frames[k], app)
    ensures i == |frames| ==> Session(p, frames, app) == (AbsorbedAll(p, frames), Err(ConnectionClosed))
    ensures i < |frames| ==>
      var (last, outcome) := Session(p, frames, app); EndsWith(AbsorbedAll(p, frames[..i]), frames[i], app, last, outcome)
    decreases |frames|
  {
    i := 0;
    if frames != [] {
      TurnMeaning(p, frames[0], app);
      if ReadOn(p, frames[0], app) {
        var rest, next := frames[1..], Absorbed(p, frames[0]);
        var n := SessionEndDecidesReconnect(next, rest, app);
        i := n + 1;
        forall k | 0 <= k < i
          ensures ReadOn(AbsorbedAll(p, frames[..k]), frames[k], app)
        {
          if k > 0 {
            assert frames[..k][1..] == rest[..k - 1] && rest[k - 1] == frames[k];
          }
        }
        assert frames[..i][1..] == rest[..n];
      }
    }
  }

  /** One turn by its frame alone. */
  lemma TurnMeaning(p: Progress, msg: ServerMsg, app: Application)
    ensures ReadOn(p, msg, app) ==> Turn(p, msg, app) == Continue(Absorbed(p, msg))
    ensures !ReadOn(p, msg, app) ==>
      var turned := Turn(p, msg, app); turned.Stop? && EndsWith(p, msg, app, turned.progress, turned.outcome)
  {
  }

  /** From the first closing or lag notice among the frames to what the client does: provided the
      application accepts and persists everything, a lag notice or a shutdown is followed by another
      attempt, a revoked token by none, and without either the connection counts as lost. */
  lemma FirstEndDecides(p: Progress, frames: seq<ServerMsg>, app: Application, i: nat)
    requires forall m :: app.accepts(m)
    requires forall c :: app.persists(c)
    requires i <= |frames| && forall k :: 0 <= k < i ==> !frames[k].Lagged? && !frames[k].Closing?
    requires i < |frames| ==> frames[i].Lagged? || frames[i].Closing?
    ensures Session(p, frames, app).0 == AbsorbedAll(p, frames[..i])
    ensures Session(p, frames, app).1 ==
            if i == |frames| then Err(ConnectionClosed)
            else if frames[i] == Closing(Revoked) then Err(TokenRevoked)
            else Ok(())
  {
    var k := SessionEndDecidesReconnect(p, frames, app);
    assert frames[..|frames|] == frames;
    if k < i {
      assert ReadOn(AbsorbedAll(p, frames[..k]), frames[k], app);
    }
  }

  // ------------------------------------------------------- which attempts are followed by another

  /** What makes the frame the session ended at the client's last. */
  ghost predicate LastFrame(p: Progress, msg: ServerMsg, app: Application, error: ClientError) {
    || (msg == Closing(Revoked) && error == TokenRevoked)
    || (IsNews(p, msg) && !app.accepts(msg) && error == HandlerFailed)
    || (IsNews(p, msg) && app.accepts(msg) && !app.persists(msg.row.seqno) && error == StoreFailed)
    || (Refused(msg, app) && error == HandlerFailed)
  }

  /** An attempt the client does not make another after: a rejected token or an invalid request, a
      revoked token, or an application that refuses or cannot save. */
  ghost predicate LastAttempt(p: Progress, attempt: Attempt, app: Application, error: ClientError) {
    match attempt
    case RefusedWith(refusal) =>
      refusal == error && refusal in {AuthFailed, InvalidRequest, TokenRevoked, HandlerFailed, StoreFailed}
    case Delivers(frames) =>
      exists i :: 0 <= i < |frames| && ReadUpTo(p, frames, i, app) && LastFrame(AbsorbedAll(p, frames[..i]), frames[i], app, error)
  }

  ghost predicate ReadUpTo(p: Progress, frames: seq<ServerMsg>, i: nat, app: Application)
    requires i <= |frames|
  {
    forall k :: 0 <= k < i ==> ReadOn(AbsorbedAll(p, frames[..k]), frames[k], app)
  }

  /** An attempt followed by another: the server shuts down, this client lags, the upgrade fails or
      the connection is lost. */
  ghost predicate Retried(p: Progress, attempt: Attempt, app: Application) {
    match attempt
    case RefusedWith(refusal) => refusal in {HttpStatus, TransportFailed, ConnectionClosed}
    case Delivers(frames) =>
      exists i :: 0 <= i <= |frames| && ReadUpTo(p, frames, i, app)
        && (i < |frames| ==> frames[i] == Closing(Shutdown) || (frames[i].Lagged? && app.accepts(frames[i])))
  }

  lemma AttemptMeaning(p: Progress, attempt: Attempt, app: Application)
    ensures var outcome := OneAttempt(p, attempt, app).1;
      if outcome.Err? && IsFatal(outcome.error) then LastAttempt(p, attempt, app, outcome.error) else Retried(p, attempt, app)
  {
    if attempt.Delivers? {
      var i := SessionEndDecidesReconnect(p, attempt.frames, app);
      assert ReadUpTo(p, attempt.frames, i, app);
    }
  }

  /** The progress after these attempts, whatever their outcomes. */
  function AfterAttempts(p: Progress, attempts: seq<Attempt>, app: Application): Progress
    decreases |attempts|
  {
    if attempts == [] then p else AfterAttempts(OneAttempt(p, attempts[0], app).0, attempts[1..], app)
  }

  /** The client goes from attempt to attempt as long as each is one to be retried, carrying its
      progress over, and stops at the first that is not, with that error and that attempt's progress. */
  lemma {:induction false} StopsAtFirstFatal(p: Progress, attempts: seq<Attempt>, app: Application) returns (n: nat)
    ensures n <= |attempts|
    ensures forall k :: 0 <= k < n ==> Retried(AfterAttempts(p, attempts[..k], app), attempts[k], app)
    ensures n == |attempts| ==> Reconnecting(p, attempts, app) == (AfterAttempts(p, attempts, app), None)
    ensures n < |attempts| ==>
      exists error ::
        && LastAttempt(AfterAttempts(p, attempts[..n], app), attempts[n], app, error)
        && Reconnecting(p, attempts, app) == (AfterAttempts(p, attempts[..n + 1], app), Some(error))
    decreases |attempts|
  {
    hide LastAttempt, Retried, OneAttempt;
    n := 0;
    if attempts != [] {
      AttemptMeaning(p, attempts[0], app);
      var (next, outcome) := OneAttempt(p, attempts[0], app);
      var rest := attempts[1..];
      if outcome.Err? && IsFatal(outcome.error) {
        assert attempts[..1][1..] == [] && AfterAttempts(p, attempts[..1], app) == next;
        assert LastAttempt(AfterAttempts(p, attempts[..0], app), attempts[0], app, outcome.error);
      } else {
        var m := StopsAtFirstFatal(next, rest, app);
        n := m + 1;
        forall k | 0 <= k < n
          ensures Retried(AfterAttempts(p, attempts[..k], app), attempts[k], app)
        {
          if k > 0 {
            assert attempts[..k][1..] == rest[..k - 1] && rest[k - 1] == attempts[k];
          }
        }
        assert attempts[..n][1..] == rest[..m];
        if n < |attempts| {
          assert attempts[..n + 1][1..] == rest[..m + 1] && rest[m] == attempts[n];
          var error :| LastAttempt(AfterAttempts(next, rest[..m], app), rest[m], app, error)
            && Reconnecting(next, rest, app) == (AfterAttempts(next, rest[..m + 1], app), Some(error));
          assert LastAttempt(AfterAttempts(p, attempts[..n], app), attempts[n], app, error);
        }
      }
    }
  }

  /** The pipeline's steps for one turn: receive, then record and save unless the application
      refuses; a refusal stops the client. */
  function PipelineTurn(w: Pipeline.World, app: Application): Pipeline.World
    requires w.client.wire.Some? && w.client.wire.value != []
  {
    var msg, received := w.client.wire.value[0], Pipeline.DoReceive(w);
    if received.client.phase.Handling? then
      if !app.accepts(msg) then Pipeline.Ended(received, received.client.(phase := Pipeline.Stopped))
      else
        var recorded := Pipeline.DoRecord(received);
        if app.persists(recorded.client.resume.cursor) then Pipeline.DoSave(recorded)
        else Pipeline.Ended(recorded, recorded.client.(phase := Pipeline.Stopped))
    else if Refused(msg, app) then Pipeline.Ended(received, received.client.(phase := Pipeline.Stopped))
    else received
  }

  /** A turn, whatever the application does, is the pipeline's receive, record, save and fail steps.
      The two agree on the resume state, on the saved cursor, on what has been handled and on
      whether the session, and the client, go on. */
  lemma TurnIsPipelineSteps(w: Pipeline.World, handled: seq<Arrival>, gaps: seq<(nat, nat)>, app: Application)
    requires w.client.phase.Ready? && w.client.wire.Some? && w.client.wire.value != []
    ensures var client, msg := PipelineTurn(w, app).client, w.client.wire.value[0];
      var turned := Turn(Progress(w.client.resume, w.client.saved, handled, gaps), msg, app);
      && client.resume == turned.progress.resume
      && client.saved == turned.progress.saved
      && client.completed == w.client.completed + (if |turned.progress.handled| > |handled| then {msg.row.id} else {})
      && (turned.Continue? ==> client.wire == Some(w.client.wire.value[1..]) && client.phase.Ready?)
      && (turned.Stop? ==> client.wire.None?)
      && (client.phase.Stopped? <==> turned.Stop? && turned.outcome.Err?)
  {
  }

  // ------------------------------------------------------------ the loop in place

  class Client {
    const resume: ResumeCell
    const app: Application
    var saved: nat
    var handled: seq<Arrival>
    var gaps: seq<(nat, nat)>

    ghost function State(): Progress
      reads this, resume
    {
      Progress(resume.State(), saved, handled, gaps)
    }

    ghost predicate Valid()
      reads this, resume
    {
      WindowValid(resume.State())
    }

    /** `run` loads the cursor from the store. */
    constructor (stored: nat, capacity: nat, app: Application)
      ensures fresh(resume) && Valid()
      ensures this.app == app && State() == StartAt(stored, capacity)
    {
      resume := new ResumeCell(stored, capacity);
      this.app := app;
      saved, handled, gaps := stored, [], [];
    }

    method RunSession(frames: seq<ServerMsg>) returns (outcome: Result<(), ClientError>)
      requires Valid()
      modifies this, resume
      ensures Valid()
      ensures (State(), outcome) == Session(old(State()), frames, app)
    {
      var i := 0;
      while i < |frames|
        invariant 0 <= i <= |frames| && Valid()
        invariant Session(State(), frames[i..], app) == Session(old(State()), frames, app)
        decreases |frames| - i
      {
        var msg := frames[i];
        assert frames[i..][0] == msg && frames[i..][1..] == frames[i + 1..];
        match msg {
          case EventMsg(row) =>
            var process := resume.Admits(row.id, row.seqno);
            if process {
              if !app.accepts(msg) {
                return Err(HandlerFailed);
              }
              handled := handled + [ArrivalOf(row)];
              resume.RecordHandled(row.id, row.seqno);
              if !app.persists(resume.cursor) {
                return Err(StoreFailed);
              }
              saved := resume.cursor;
            }
          case Replayed(_) =>
            if !app.accepts(msg) {
              return Err(HandlerFailed);
            }
          case ReplayGap(fromSeq, earliestSeq) =>
            if !app.accepts(msg) {
              return Err(HandlerFailed);
            }
            gaps := gaps + [(fromSeq, earliestSeq)];
          case Lagged(_) =>
            if !app.accepts(msg) {
              return Err(HandlerFailed);
            }
            return Ok(());
          case ErrorMsg(op, _) =>
            if op == "replay" && !app.accepts(msg) {
              return Err(HandlerFailed);
            }
          case Closing(reason) =>
            if reason.Revoked? {
              return Err(TokenRevoked);
            }
            return Ok(());
          case _ =>
        }
        i := i + 1;
      }
      return Err(ConnectionClosed);
    }

    /** The reconnect loop, for as many attempts as are made. */
    method Run(attempts: seq<Attempt>) returns (stopped: Option<ClientError>)
      requires Valid()
      modifies this, resume
      ensures Valid()
      ensures (State(), stopped) == Reconnecting(old(State()), attempts, app)
    {
      var i := 0;
      while i < |attempts|
        invariant 0 <= i <= |attempts| && Valid()
        invariant Reconnecting(State(), attempts[i..], app) == Reconnecting(old(State()), attempts, app)
        decreases |attempts| - i
      {
        assert attempts[i..][0] == attempts[i] && attempts[i..][1..] == attempts[i + 1..];
        var outcome: Result<(), ClientError>;
        match attempts[i] {
          case RefusedWith(error) => outcome := Err(error);
          case Delivers(frames) => outcome := RunSession(frames);
        }
        if outcome.Err? && IsFatal(outcome.error) {
          return Some(outcome.error);
        }
        i := i + 1;
      }
      return None;
    }
  }
}
