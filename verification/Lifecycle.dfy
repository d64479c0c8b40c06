/** How sessions end in the pipeline, and what becomes of the client after. */
module Lifecycle {
  import opened Wrappers
  import opened Messages
  import opened DeliveryLog
  import opened Pipeline
  import OutboundQueue

  /** A stopped client: no connection, nothing left to read. */
  predicate Gone(w: World) {
    w.client.phase.Stopped? && w.client.wire.None?
  }

  /** What the client reads last decides: a shutdown or a lag notice leaves it ready to reconnect from
      where it is, a revoked token stops it, and so does a refusal at any time. */
  lemma LastFrameDecides(cfg: Config, w: World)
    requires w.client.phase.Ready? && w.client.wire.Some? && w.client.wire.value != []
    ensures var msg, r := w.client.wire.value[0], Do(cfg, w, Receive);
      && (msg == Closing(Shutdown) || msg.Lagged? ==> r == w.(conn := None, client := w.client.(wire := None)))
      && (msg == Closing(Revoked) ==> Gone(r) && r.conn.None? && r.client.resume == w.client.resume && r.client.saved == w.client.saved)
    ensures var r := Do(cfg, w, Fail);
      Gone(r) && r.conn.None? && r.client.resume == w.client.resume && r.client.saved == w.client.saved
  {
  }

  /** The server's end of a session: a close sends its reason after everything already sent; a lost
      connection and a crash send nothing, and a crash also loses what was still to be pushed and keeps
      only what the table has. */
  lemma ServerEndsSession(cfg: Config, w: World, reason: ClosingReason, nowMs: nat)
    requires w.conn.Some? && w.client.wire.Some?
    ensures Do(cfg, w, ServerClose(reason))
         == w.(conn := None, client := w.client.(wire := Some(w.client.wire.value + [Closing(reason)])))
    ensures Do(cfg, w, Disconnect) == w.(conn := None)
    ensures var r := Do(cfg, w, ServerCrash(nowMs));
      && r.conn.None? && r.pending == [] && r.client == w.client && r.committed == w.committed
      && r.log == PruneTo(Recover(w.log.table), cfg.limits, nowMs)
  {
  }

  /** A client that is not stopped comes back: it connects anew with an empty queue, asks for what is
      after its cursor, and has forgotten nothing. */
  lemma ReconnectResumes(cfg: Config, w: World)
    requires w.client.phase.Ready?
    ensures RunFrom(cfg, w, [EndSession, Connect])
         == w.(conn := Some(Conn(OutboundQueue.Create(cfg.queueEvents, cfg.queueBytes), None, Connected, w.client.resume.cursor)),
               client := w.client.(wire := Some([Welcome])))
  {
    assert [EndSession, Connect][..1] == [EndSession] && [EndSession][..0] == [];
    assert RunFrom(cfg, w, [EndSession]) == Do(cfg, w, EndSession);
  }

  lemma StepKeepsGone(cfg: Config, w: World, action: Action)
    requires Gone(w) && action != ClientCrash
    ensures Gone(Do(cfg, w, action))
    ensures Do(cfg, w, action).client == w.client
  {
  }

  /** A stopped client stays stopped, whatever the server does, until its process is started again; it
      then resumes from the cursor it saved last. */
  lemma {:induction false} StoppedForGood(cfg: Config, w: World, actions: seq<Action>)
    requires Gone(w) && ClientCrash !in actions
    ensures RunFrom(cfg, w, actions).client == w.client
    ensures var r := Do(cfg, RunFrom(cfg, w, actions), ClientCrash).client;
      r.phase.Ready? && r.resume.cursor == w.client.saved && r.handedOver == [] && r.completed == w.client.completed
  {
    if actions != [] {
      var n := |actions| - 1;
      StoppedForGood(cfg, w, actions[..n]);
      assert actions[n] in actions;
      StepKeepsGone(cfg, RunFrom(cfg, w, actions[..n]), actions[n]);
    }
  }

  /** A control frame is answered on the connection's queue, behind what is there. */
  lemma ReplyJoinsQueue(cfg: Config, w: World, control: ServerMsg)
    requires w.conn.Some? && (w.conn.value.phase.Connected? || w.conn.value.phase.Live?) && Inert(control)
    ensures var q, r := w.conn.value.queue, Do(cfg, w, Reply(control));
      r == w.(conn := Some(w.conn.value.(queue := q.(frames := q.frames + [OutboundQueue.Frame(control, 0, false)]))))
  {
  }
}
