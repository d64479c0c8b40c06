/** The registry's fan-out is what the delivery pipeline does to the queue of its one subscriber. */
module Fanout {
  import opened Wrappers
  import opened Messages
  import opened DeliveryLog
  import opened Pipeline
  import OutboundQueue
  import Subscribers

  /** What the registry holds for the client: nothing until the subscribe is in. */
  function HeldPatterns(cfg: Config, conn: Conn): seq<string> {
    if conn.phase.Connected? then [] else cfg.patterns
  }

  function Pushes(n: nat): (actions: seq<Action>)
    ensures |actions| == n
  {
    if n == 0 then [] else Pushes(n - 1) + [Push(0)]
  }

  /** Pushing n pending rows one after the other offers them to the connection's queue, in order, and
      does nothing else. */
  lemma {:induction false} PushesOffer(cfg: Config, w: World, n: nat)
    requires n <= |w.pending|
    ensures var r := RunFrom(cfg, w, Pushes(n));
      && r.log == w.log && r.committed == w.committed && r.client == w.client
      && r.pending == w.pending[n..]
      && (w.conn.None? ==> r.conn.None?)
      && (w.conn.Some? ==>
            var conn := w.conn.value;
            r.conn == Some(conn.(queue := Subscribers.Offered(conn.queue, HeldPatterns(cfg, conn), w.pending[..n]))))
  {
    if n == 0 {
      assert w.pending[0..] == w.pending;
    } else {
      PushesOffer(cfg, w, n - 1);
      assert Pushes(n)[..n - 1] == Pushes(n - 1);
      OnePush(cfg, w, RunFrom(cfg, w, Pushes(n - 1)), n - 1);
    }
  }

  lemma OnePush(cfg: Config, w: World, r: World, n: nat)
    requires n < |w.pending| && r.pending == w.pending[n..]
    requires w.conn.None? ==> r.conn.None?
    requires w.conn.Some? ==>
      var conn := w.conn.value;
      r.conn == Some(conn.(queue := Subscribers.Offered(conn.queue, HeldPatterns(cfg, conn), w.pending[..n])))
    ensures var s := Do(cfg, r, Push(0));
      && s.log == r.log && s.committed == r.committed && s.client == r.client
      && s.pending == w.pending[n + 1..]
      && (w.conn.None? ==> s.conn.None?)
      && (w.conn.Some? ==>
            var conn := w.conn.value;
            s.conn == Some(conn.(queue := Subscribers.Offered(conn.queue, HeldPatterns(cfg, conn), w.pending[..n + 1]))))
  {
    hide OutboundQueue.PushEvent;
    assert r.pending[..0] + r.pending[1..] == w.pending[n + 1..];
    assert w.pending[..n + 1][..n] == w.pending[..n];
  }

  /** A commit and its pushes are one durable fan-out: the log is extended by the stamped batch, and
      the client's queue is the one the registry's fan-out leaves. */
  lemma CommitAndPushesAreFanout(cfg: Config, w: World, events: seq<Emission>, nowMs: nat)
    requires Gapless(w.log) && w.pending == [] && FreshIds(w.committed, events)
    ensures var r := RunFrom(cfg, Do(cfg, w, Commit(events, nowMs)), Pushes(|events|));
      && r.log == AppendTo(w.log, events, nowMs) && r.pending == []
      && (w.conn.Some? ==>
            var conn, rows := w.conn.value, Stamped(w.log.head, events, nowMs);
            r.conn == Some(conn.(queue := Subscribers.Offered(conn.queue, HeldPatterns(cfg, conn), rows))))
  {
    hide Subscribers.Offered, HeldPatterns, AppendTo, RunFrom;
    var rows := Stamped(w.log.head, events, nowMs);
    var committed := Do(cfg, w, Commit(events, nowMs));
    assert committed.pending == rows && rows[..|events|] == rows;
    PushesOffer(cfg, committed, |events|);
  }
}
