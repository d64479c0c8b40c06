/** The subscriber registry: who is connected, what each asked for, and the fan-out of a
    stamped batch to every matching queue. */
module Subscribers {
  import opened Wrappers
  import opened Messages
  import DeliveryLog
  import OutboundQueue
  import Channel

  // ------------------------------------------------------------- subscriptions

  /** The first pattern that does not parse refuses the whole request. */
  function FirstInvalid(patterns: seq<string>): (r: Option<string>)
    ensures r.None? <==> forall i :: 0 <= i < |patterns| ==> Channel.ValidPattern(patterns[i])
    ensures r.Some? ==> r.value in patterns && !Channel.ValidPattern(r.value)
  {
    if patterns == [] then None
    else
      Channel.ValidatePatternMeaning(patterns[0]);
      if Channel.ValidatePattern(patterns[0]).Err? then Some(patterns[0]) else FirstInvalid(patterns[1..])
  }

  /** Requested patterns join the end, each only once. */
  function Joined(held: seq<string>, requested: seq<string>): seq<string> {
    if requested == [] then held
    else
      var before, last := Joined(held, requested[..|requested| - 1]), requested[|requested| - 1];
      if last in before then before else before + [last]
  }

  function Without(held: seq<string>, dropped: seq<string>): seq<string> {
    if held == [] then []
    else if held[0] in dropped then Without(held[1..], dropped)
    else [held[0]] + Without(held[1..], dropped)
  }

  ghost predicate Distinct(patterns: seq<string>) {
    forall i, j :: 0 <= i < j < |patterns| ==> patterns[i] != patterns[j]
  }

  lemma {:induction false} JoinedIsUnion(held: seq<string>, requested: seq<string>)
    requires Distinct(held)
    ensures Distinct(Joined(held, requested))
    ensures forall p :: p in Joined(held, requested) <==> p in held || p in requested
  {
    if requested != [] {
      JoinedIsUnion(held, requested[..|requested| - 1]);
      assert requested == requested[..|requested| - 1] + [requested[|requested| - 1]];
    }
  }

  lemma {:induction false} WithoutIsDifference(held: seq<string>, dropped: seq<string>)
    requires Distinct(held)
    ensures Distinct(Without(held, dropped))
    ensures forall p :: p in Without(held, dropped) <==> p in held && p !in dropped
  {
    if held != [] {
      assert forall i :: 0 <= i < |held[1..]| ==> held[1..][i] == held[i + 1];
      WithoutIsDifference(held[1..], dropped);
      var rest := Without(held[1..], dropped);
      forall i | 0 <= i < |rest|
        ensures rest[i] != held[0]
      {
        assert rest[i] in held[1..];
      }
    }
  }

  /** Unsubscribing what one has just subscribed gives back the earlier subscription, less the
      patterns that were held before too. */
  lemma SubscribeThenUnsubscribe(held: seq<string>, requested: seq<string>)
    requires Distinct(held)
    ensures forall p :: p in Without(Joined(held, requested), requested) <==> p in held && p !in requested
  {
    JoinedIsUnion(held, requested);
    WithoutIsDifference(Joined(held, requested), requested);
  }

  // -------------------------------------------------------------------- fan-out

  type QueueState = OutboundQueue.QueueState<ServerMsg>

  function OfferedOne(q: QueueState, patterns: seq<string>, row: Row): QueueState {
    if Channel.AnyMatches(patterns, row.channel) then OutboundQueue.PushEvent(q, EventMsg(row), row.text) else q
  }

  /** What a queue becomes when a run of rows is offered to a subscription, in order. */
  function Offered(q: QueueState, patterns: seq<string>, rows: seq<Row>): QueueState {
    if rows == [] then q
    else OfferedOne(Offered(q, patterns, rows[..|rows| - 1]), patterns, rows[|rows| - 1])
  }

  /** A subscription matches a row if the row's channel is valid and one of the patterns stands for
      it, position by position. */
  ghost predicate Matched(patterns: seq<string>, row: Row) {
    Channel.ValidChannel(row.channel) && exists p :: p in patterns && Stands(p, row.channel)
  }

  ghost predicate Stands(pattern: string, channel: string) {
    Channel.ValidPattern(pattern) && Channel.PositionalMatch(Channel.Tokens(pattern), Channel.Tokens(channel))
  }

  lemma MatchedMeaning(patterns: seq<string>, row: Row)
    ensures Channel.AnyMatches(patterns, row.channel) <==> Matched(patterns, row)
  {
    Channel.ValidateChannelMeaning(row.channel);
    forall p: string
      ensures Channel.Matching(row.channel, p) == Ok(true) <==> Channel.ValidChannel(row.channel) && Stands(p, row.channel)
    {
      Channel.ValidatePatternMeaning(p);
      if Channel.ValidChannel(row.channel) && Channel.ValidPattern(p) {
        Channel.MatchingMeaning(row.channel, p);
      }
    }
  }

  type QueuedFrame = OutboundQueue.Frame<ServerMsg>

  /** The event frames of the rows a subscription matches, in order. */
  ghost function MatchedFrames(patterns: seq<string>, rows: seq<Row>): seq<QueuedFrame> {
    if rows == [] then []
    else
      var before, last := MatchedFrames(patterns, rows[..|rows| - 1]), rows[|rows| - 1];
      if Matched(patterns, last) then before + [OutboundQueue.Frame(EventMsg(last), last.text, true)] else before
  }

  /** A batch with room in the queue leaves it with its frames followed by exactly the rows on
      matching channels, in batch order, and changes nothing else. */
  lemma {:induction false} OfferedWithRoom(q: QueueState, patterns: seq<string>, rows: seq<Row>)
    requires var events, added := OutboundQueue.EventFrames(q.frames), MatchedFrames(patterns, rows);
      && |events| + |added| <= q.maxEvents
      && OutboundQueue.TotalLength(events) + OutboundQueue.TotalLength(added) <= q.maxBytes
    ensures Offered(q, patterns, rows) == q.(frames := q.frames + MatchedFrames(patterns, rows))
    ensures OutboundQueue.EventFrames(q.frames + MatchedFrames(patterns, rows))
         == OutboundQueue.EventFrames(q.frames) + MatchedFrames(patterns, rows)
  {
    if rows == [] {
      assert q.frames + MatchedFrames(patterns, rows) == q.frames;
    } else {
      var before, last := rows[..|rows| - 1], rows[|rows| - 1];
      var added, frame := MatchedFrames(patterns, before), OutboundQueue.Frame(EventMsg(last), last.text, true);
      MatchedMeaning(patterns, last);
      OutboundQueue.FrameAdded(added, frame);
      OfferedWithRoom(q, patterns, before);
      if Matched(patterns, last) {
        OneMoreFrame(q, added, frame);
      }
    }
  }

  lemma OneMoreFrame(q: QueueState, added: seq<QueuedFrame>, frame: QueuedFrame)
    requires frame.isEvent
    requires var events := OutboundQueue.EventFrames(q.frames);
      && OutboundQueue.EventFrames(q.frames + added) == events + added
      && |events| + |added| + 1 <= q.maxEvents
      && OutboundQueue.TotalLength(events) + OutboundQueue.TotalLength(added) + frame.len <= q.maxBytes
    ensures var grown := q.(frames := q.frames + added);
      OutboundQueue.PushEvent(grown, frame.body, frame.len) == q.(frames := q.frames + (added + [frame]))
    ensures OutboundQueue.EventFrames(q.frames + (added + [frame])) == OutboundQueue.EventFrames(q.frames) + (added + [frame])
  {
    hide OutboundQueue.EventFrames, OutboundQueue.TotalLength, OutboundQueue.PushEvent;
    var grown := q.(frames := q.frames + added);
    OutboundQueue.TotalLengthConcat(OutboundQueue.EventFrames(q.frames), added);
    OutboundQueue.PushWithRoom(grown, frame.body, frame.len);
    OutboundQueue.FrameAdded(grown.frames, frame);
    assert q.frames + (added + [frame]) == grown.frames + [frame];
  }

  /** A queue whose subscription matches no row of the batch is left as it was. */
  lemma {:induction false} OfferedToOthers(q: QueueState, patterns: seq<string>, rows: seq<Row>)
    requires forall i :: 0 <= i < |rows| ==> !Matched(patterns, rows[i])
    ensures Offered(q, patterns, rows) == q
  {
    if rows != [] {
      MatchedMeaning(patterns, rows[|rows| - 1]);
      OfferedToOthers(q, patterns, rows[..|rows| - 1]);
    }
  }

  class Subscriber {
    var patterns: seq<string>
    const queue: OutboundQueue.Queue<ServerMsg>

    constructor (queue: OutboundQueue.Queue<ServerMsg>)
      ensures this.queue == queue && patterns == []
    {
      this.queue := queue;
      patterns := [];
    }
  }

  class Registry {
    var subscribers: map<nat, Subscriber>
    var nextId: nat
    var counter: nat
    var persistErrors: nat
    const delivery: DeliveryLog.Store?

    ghost predicate Valid()
      reads this, subscribers.Values
    {
      && (forall id :: id in subscribers ==> id < nextId)
      && (forall i, j :: i in subscribers && j in subscribers && i != j ==>
            subscribers[i] != subscribers[j] && subscribers[i].queue != subscribers[j].queue)
      && (forall id :: id in subscribers ==> Distinct(subscribers[id].patterns))
    }

    ghost function Queues(): set<object>
      reads this
    {
      set id | id in subscribers :: subscribers[id].queue
    }

    constructor (delivery: DeliveryLog.Store?)
      ensures Valid() && subscribers == map[] && counter == 0 && persistErrors == 0 && this.delivery == delivery
    {
      this.delivery := delivery;
      subscribers, nextId, counter, persistErrors := map[], 1, 0, 0;
    }

    method Insert(queue: OutboundQueue.Queue<ServerMsg>) returns (id: nat)
      requires Valid() && queue !in Queues()
      modifies this
      ensures Valid()
      ensures id !in old(subscribers) && id in subscribers && fresh(subscribers[id])
      ensures subscribers == old(subscribers)[id := subscribers[id]]
      ensures subscribers[id].patterns == [] && subscribers[id].queue == queue
      ensures counter == old(counter) && persistErrors == old(persistErrors)
    {
      id := nextId;
      nextId := nextId + 1;
      var subscriber := new Subscriber(queue);
      subscribers := subscribers[id := subscriber];
    }

    method Remove(id: nat)
      requires Valid()
      modifies this
      ensures Valid()
      ensures subscribers == old(subscribers) - {id} && counter == old(counter)
    {
      subscribers := subscribers - {id};
    }

    /** All requested patterns are taken on, or none if one of them is invalid. */
    method Subscribe(id: nat, requested: seq<string>) returns (r: Result<(), string>)
      requires Valid()
      modifies subscribers.Values
      ensures Valid() && subscribers == old(subscribers)
      ensures r == match FirstInvalid(requested) case Some(pattern) => Err(pattern) case None => Ok(())
      ensures forall i :: i in subscribers ==>
        subscribers[i].patterns
        == if i == id && r.Ok? then Joined(old(subscribers[i].patterns), requested) else old(subscribers[i].patterns)
    {
      var invalid := FirstInvalid(requested);
      if invalid.Some? {
        return Err(invalid.value);
      }
      if id in subscribers {
        var subscriber := subscribers[id];
        for i := 0 to |requested|
          invariant subscriber.patterns == Joined(old(subscribers[id].patterns), requested[..i])
          invariant forall k :: k in subscribers && k != id ==> subscribers[k].patterns == old(subscribers[k].patterns)
        {
          assert requested[..i + 1][..i] == requested[..i];
          if requested[i] !in subscriber.patterns {
            subscriber.patterns := subscriber.patterns + [requested[i]];
          }
        }
        assert requested[..|requested|] == requested;
        JoinedIsUnion(old(subscribers[id].patterns), requested);
      }
      return Ok(());
    }

    method Unsubscribe(id: nat, dropped: seq<string>)
      requires Valid()
      modifies subscribers.Values
      ensures Valid() && subscribers == old(subscribers)
      ensures forall i :: i in subscribers ==>
        subscribers[i].patterns
        == if i == id then Without(old(subscribers[i].patterns), dropped) else old(subscribers[i].patterns)
    {
      if id in subscribers {
        WithoutIsDifference(subscribers[id].patterns, dropped);
        subscribers[id].patterns := Without(subscribers[id].patterns, dropped);
      }
    }

    /** Stamp a batch from the counter, without storing it. */
    method StampInMemory(events: seq<Emission>, nowMs: nat) returns (rows: seq<Row>)
      modifies `counter
      ensures counter == old(counter) + |events|
      ensures rows == DeliveryLog.Stamped(old(counter), events, nowMs)
    {
      rows := [];
      for i := 0 to |events|
        invariant counter == old(counter) + i
        invariant rows == DeliveryLog.Stamped(old(counter), events, nowMs)[..i]
      {
        counter := counter + 1;
        rows := rows + [Stamp(counter, events[i], nowMs)];
      }
    }

    /** Fan out a batch: number it (durably if a log is kept, and before any queue sees it), then
        push it. Every queue sees the same ids and numbers. When the append fails the batch is
        counted as not persisted and delivered with numbers from the counter all the same. */
    method Fanout(events: seq<Emission>, nowMs: nat, commits: bool)
      requires Valid()
      requires delivery != null ==> delivery.Valid()
      modifies `counter, `persistErrors, if delivery == null then {} else {delivery}, Queues()
      ensures Valid() && subscribers == old(subscribers)
      ensures delivery != null ==> delivery.Valid()
      ensures delivery != null && commits ==>
        && delivery.State() == DeliveryLog.AppendTo(old(delivery.State()), events, nowMs)
        && counter == old(counter) && persistErrors == old(persistErrors)
      ensures delivery != null && !commits && events != [] ==>
        && delivery.State() == old(delivery.State())
        && counter == old(counter) + |events| && persistErrors == old(persistErrors) + 1
      ensures delivery == null ==> counter == old(counter) + |events| && persistErrors == old(persistErrors)
      ensures var base := if delivery != null && commits then old(delivery.head) else old(counter);
        forall id :: id in subscribers ==>
          subscribers[id].queue.State()
          == Offered(old(subscribers[id].queue.State()), subscribers[id].patterns, DeliveryLog.Stamped(base, events, nowMs))
    {
      if events == [] {
        return;
      }
      var rows: seq<Row>;
      if delivery != null {
        var stored := delivery.Append(events, nowMs, commits);
        if stored.Some? {
          rows := stored.value;
        } else {
          persistErrors := persistErrors + 1;
          rows := StampInMemory(events, nowMs);
        }
      } else {
        rows := StampInMemory(events, nowMs);
      }
      PushBatch(rows);
    }

    /** Offer each row of a batch, in order, to every subscriber with a matching pattern. */
    method PushBatch(rows: seq<Row>)
      requires Valid()
      modifies Queues()
      ensures Valid() && subscribers == old(subscribers)
      ensures forall id :: id in subscribers ==>
        subscribers[id].queue.State() == Offered(old(subscribers[id].queue.State()), subscribers[id].patterns, rows)
    {
      ghost var before := map id | id in subscribers :: subscribers[id].queue.State();
      for j := 0 to |rows|
        invariant forall id :: id in subscribers ==>
          subscribers[id].queue.State() == Offered(before[id], subscribers[id].patterns, rows[..j])
      {
        PushRow(rows[j]);
        assert rows[..j + 1][..j] == rows[..j];
      }
      assert rows[..|rows|] == rows;
    }

    method PushRow(row: Row)
      requires Valid()
      modifies Queues()
      ensures Valid() && subscribers == old(subscribers)
      ensures forall id :: id in subscribers ==>
        subscribers[id].queue.State() == OfferedOne(old(subscribers[id].queue.State()), subscribers[id].patterns, row)
    {
      var rest := subscribers.Keys;
      while rest != {}
        invariant rest <= subscribers.Keys
        invariant forall id :: id in rest ==> subscribers[id].queue.State() == old(subscribers[id].queue.State())
        invariant forall id :: id in subscribers && id !in rest ==>
          subscribers[id].queue.State() == OfferedOne(old(subscribers[id].queue.State()), subscribers[id].patterns, row)
        decreases rest
      {
        var id :| id in rest;
        rest := rest - {id};
        if Channel.AnyMatches(subscribers[id].patterns, row.channel) {
          subscribers[id].queue.Push(EventMsg(row), row.text);
        }
      }
    }
  }
}
