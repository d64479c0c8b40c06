/** The client's resume cursor and its bounded window of recently handled ids. */
module ResumeState {
  import opened Messages

  datatype Resume = Resume(cursor: nat, seen: set<Uuid>, order: seq<Uuid>, capacity: nat)

  function StartFrom(cursor: nat, capacity: nat): Resume {
    Resume(cursor, {}, [], if capacity < 1 then 1 else capacity)
  }

  predicate ShouldProcess(r: Resume, id: Uuid, seqno: nat) {
    seqno > r.cursor && id !in r.seen
  }

  function Remember(r: Resume, id: Uuid): Resume {
    if id in r.seen then r
    else
      var order := r.order + [id];
      if |order| > r.capacity then
        r.(seen := r.seen + {id} - {order[0]}, order := order[1..])
      else
        r.(seen := r.seen + {id}, order := order)
  }

  function Record(r: Resume, id: Uuid, seqno: nat): Resume {
    var remembered := Remember(r, id);
    if seqno > remembered.cursor then remembered.(cursor := seqno) else remembered
  }

  /** The window holds distinct ids, at most `capacity` of them, and the set mirrors the order. */
  ghost predicate WindowValid(r: Resume) {
    && r.capacity >= 1
    && |r.order| <= r.capacity
    && (forall i, j :: 0 <= i < j < |r.order| ==> r.order[i] != r.order[j])
    && r.seen == set id | id in r.order
  }

  lemma RecordKeepsWindow(r: Resume, id: Uuid, seqno: nat)
    requires WindowValid(r)
    ensures WindowValid(Record(r, id, seqno))
  {
    var order := r.order + [id];
    if id !in r.seen {
      assert forall i, j :: 0 <= i < j < |order| ==> order[i] != order[j];
      var kept := Record(r, id, seqno).order;
      forall x: Uuid
        ensures x in Record(r, id, seqno).seen <==> x in kept
      {
        if x in order && x != order[0] {
          var k :| 0 <= k < |order| && order[k] == x;
          assert order[1..][k - 1] == x;
        }
      }
    }
  }

  // ------------------------------------------------- what a stream of frames does

  /** An event frame as the guard sees it. */
  datatype Arrival = Arrival(id: Uuid, seqno: nat)

  function Receive(r: Resume, a: Arrival): Resume {
    if ShouldProcess(r, a.id, a.seqno) then Record(r, a.id, a.seqno) else r
  }

  function ReceiveAll(r: Resume, arrivals: seq<Arrival>): Resume {
    if arrivals == [] then r
    else Receive(ReceiveAll(r, arrivals[..|arrivals| - 1]), arrivals[|arrivals| - 1])
  }

  /** The events handed to the handler, in order. */
  function Handled(r: Resume, arrivals: seq<Arrival>): seq<Arrival> {
    if arrivals == [] then []
    else
      var before, last := arrivals[..|arrivals| - 1], arrivals[|arrivals| - 1];
      Handled(r, before) + if ShouldProcess(ReceiveAll(r, before), last.id, last.seqno) then [last] else []
  }

  ghost predicate IsLastOf<T>(window: seq<T>, all: seq<T>, capacity: nat) {
    var n := if |all| < capacity then |all| else capacity;
    window == all[|all| - n..]
  }

  function Ids(arrivals: seq<Arrival>): seq<Uuid> {
    seq(|arrivals|, i requires 0 <= i < |arrivals| => arrivals[i].id)
  }

  /** The handled numbers strictly increase from above the first cursor up to the last one. */
  ghost predicate Climbs(from: nat, handled: seq<Arrival>, to: nat) {
    && (forall i, j :: 0 <= i < j < |handled| ==> handled[i].seqno < handled[j].seqno)
    && (forall i :: 0 <= i < |handled| ==> from < handled[i].seqno <= to)
    && to == if handled == [] then from else handled[|handled| - 1].seqno
  }

  lemma ClimbHigher(from: nat, handled: seq<Arrival>, to: nat, next: Arrival)
    requires Climbs(from, handled, to) && next.seqno > to
    ensures Climbs(from, handled + [next], next.seqno)
  {
  }

  lemma WindowSlides<T>(window: seq<T>, all: seq<T>, capacity: nat, x: T)
    requires capacity >= 1 && IsLastOf(window, all, capacity)
    ensures IsLastOf(if |window| + 1 > capacity then (window + [x])[1..] else window + [x], all + [x], capacity)
  {
  }

  /** What a client that has handled these frames, from this cursor on, remembers. */
  ghost predicate Remembers(r: Resume, from: nat, handled: seq<Arrival>) {
    && WindowValid(r)
    && IsLastOf(r.order, Ids(handled), r.capacity)
    && Climbs(from, handled, r.cursor)
  }

  lemma RecordRemembers(r: Resume, from: nat, handled: seq<Arrival>, next: Arrival)
    requires Remembers(r, from, handled) && ShouldProcess(r, next.id, next.seqno)
    ensures Remembers(Record(r, next.id, next.seqno), from, handled + [next])
  {
    RecordKeepsWindow(r, next.id, next.seqno);
    assert Ids(handled + [next]) == Ids(handled) + [next.id];
    WindowSlides(r.order, Ids(handled), r.capacity, next.id);
    ClimbHigher(from, handled, r.cursor, next);
  }

  /** At most once: over any stream, across sessions, handled numbers strictly increase, the
      cursor is the last of them, and the window is the last `capacity` handled ids, all
      distinct. */
  lemma {:induction false} HandledAtMostOnce(start: Resume, arrivals: seq<Arrival>)
    requires start == StartFrom(start.cursor, start.capacity)
    ensures Remembers(ReceiveAll(start, arrivals), start.cursor, Handled(start, arrivals))
    ensures ReceiveAll(start, arrivals).capacity == start.capacity
  {
    if arrivals == [] {
      assert Remembers(start, start.cursor, []);
    } else {
      var before, last := arrivals[..|arrivals| - 1], arrivals[|arrivals| - 1];
      HandledAtMostOnce(start, before);
      var r := ReceiveAll(start, before);
      var handled := Handled(start, before);
      if ShouldProcess(r, last.id, last.seqno) {
        RecordRemembers(r, start.cursor, handled, last);
        assert Handled(start, arrivals) == handled + [last];
      } else {
        assert Handled(start, arrivals) == handled;
      }
    }
  }

  /** The last n of these, or all of them. */
  function Latest<T>(all: seq<T>, n: nat): seq<T> {
    if |all| <= n then all else all[|all| - n..]
  }

  /** The window in the configured figure: the ids of the last `capacity` handled events, of the last
      one for a capacity of zero; any of these arriving again is turned away whatever its number. */
  lemma WindowIsLastHandled(cursor: nat, capacity: nat, arrivals: seq<Arrival>)
    ensures var r, handled := ReceiveAll(StartFrom(cursor, capacity), arrivals), Handled(StartFrom(cursor, capacity), arrivals);
      && r.order == Latest(Ids(handled), if capacity == 0 then 1 else capacity)
      && forall id, seqno :: id in r.order ==> !ShouldProcess(r, id, seqno)
  {
    hide Handled, ReceiveAll;
    HandledAtMostOnce(StartFrom(cursor, capacity), arrivals);
  }

  /** Each id names one event. */
  ghost predicate IdsFunctional(arrivals: seq<Arrival>) {
    forall i, j :: 0 <= i < |arrivals| && 0 <= j < |arrivals| && arrivals[i].id == arrivals[j].id
      ==> arrivals[i].seqno == arrivals[j].seqno
  }

  lemma {:induction false} SeenWereReceived(cursor: nat, capacity: nat, arrivals: seq<Arrival>)
    ensures var r := ReceiveAll(StartFrom(cursor, capacity), arrivals);
      && WindowValid(r)
      && forall id :: id in r.seen ==> exists i :: 0 <= i < |arrivals| && arrivals[i].id == id && arrivals[i].seqno <= r.cursor
  {
    if arrivals != [] {
      var before, last := arrivals[..|arrivals| - 1], arrivals[|arrivals| - 1];
      SeenWereReceived(cursor, capacity, before);
      var r := ReceiveAll(StartFrom(cursor, capacity), before);
      var next := ReceiveAll(StartFrom(cursor, capacity), arrivals);
      RecordKeepsWindow(r, last.id, last.seqno);
      forall id | id in next.seen
        ensures exists i :: 0 <= i < |arrivals| && arrivals[i].id == id && arrivals[i].seqno <= next.cursor
      {
        if id in r.seen {
          var i :| 0 <= i < |before| && before[i].id == id && before[i].seqno <= r.cursor;
          assert arrivals[i] == before[i];
        } else {
          assert arrivals[|arrivals| - 1].id == id;
        }
      }
    }
  }

  /** With one number per id the window never rejects what the cursor would accept, whatever
      its capacity: the guard is exactly `seqno > cursor`. */
  lemma WindowNeverRejectsMore(cursor: nat, capacity: nat, arrivals: seq<Arrival>, next: Arrival)
    requires IdsFunctional(arrivals + [next])
    ensures var r := ReceiveAll(StartFrom(cursor, capacity), arrivals);
      ShouldProcess(r, next.id, next.seqno) <==> next.seqno > r.cursor
  {
    SeenWereReceived(cursor, capacity, arrivals);
    var all := arrivals + [next];
    assert all[|arrivals|] == next;
    var r := ReceiveAll(StartFrom(cursor, capacity), arrivals);
    if next.id in r.seen {
      var i :| 0 <= i < |arrivals| && arrivals[i].id == next.id && arrivals[i].seqno <= r.cursor;
      assert all[i] == arrivals[i];
    }
  }

  /** A number higher than the starting cursor and than everything before it. */
  ghost predicate RecordHigh(cursor: nat, arrivals: seq<Arrival>, i: nat)
    requires i < |arrivals|
  {
    arrivals[i].seqno > cursor && forall j :: 0 <= j < i ==> arrivals[j].seqno < arrivals[i].seqno
  }

  ghost predicate HandledAt(cursor: nat, capacity: nat, arrivals: seq<Arrival>, i: nat)
    requires i < |arrivals|
  {
    ShouldProcess(ReceiveAll(StartFrom(cursor, capacity), arrivals[..i]), arrivals[i].id, arrivals[i].seqno)
  }

  lemma {:induction false} CursorIsHighest(cursor: nat, capacity: nat, arrivals: seq<Arrival>)
    requires IdsFunctional(arrivals)
    ensures var c := ReceiveAll(StartFrom(cursor, capacity), arrivals).cursor;
      && c >= cursor
      && (forall j :: 0 <= j < |arrivals| ==> arrivals[j].seqno <= c)
      && (c == cursor || exists j :: 0 <= j < |arrivals| && arrivals[j].seqno == c)
  {
    if arrivals != [] {
      var n := |arrivals| - 1;
      assert arrivals == arrivals[..n] + [arrivals[n]];
      CursorIsHighest(cursor, capacity, arrivals[..n]);
      WindowNeverRejectsMore(cursor, capacity, arrivals[..n], arrivals[n]);
      var c := ReceiveAll(StartFrom(cursor, capacity), arrivals[..n]).cursor;
      assert arrivals[n].seqno > c || c == cursor || exists j :: 0 <= j < n && arrivals[..n][j].seqno == c && arrivals[j].seqno == c;
    }
  }

  /** Exactly the frames that arrive above everything before them are handled: a lower number
      arriving after a higher one is dropped for good. */
  lemma HandledIffRecordHigh(cursor: nat, capacity: nat, arrivals: seq<Arrival>, i: nat)
    requires IdsFunctional(arrivals) && i < |arrivals|
    ensures HandledAt(cursor, capacity, arrivals, i) <==> RecordHigh(cursor, arrivals, i)
  {
    var before := arrivals[..i];
    assert before + [arrivals[i]] == arrivals[..i + 1];
    CursorIsHighest(cursor, capacity, before);
    WindowNeverRejectsMore(cursor, capacity, before, arrivals[i]);
    assert forall j :: 0 <= j < i ==> before[j] == arrivals[j];
  }

  /** New frames are all handled exactly when they arrive in increasing order. */
  lemma AllHandledIffInOrder(cursor: nat, capacity: nat, arrivals: seq<Arrival>)
    requires IdsFunctional(arrivals)
    requires forall i :: 0 <= i < |arrivals| ==> arrivals[i].seqno > cursor
    ensures (forall i :: 0 <= i < |arrivals| ==> HandledAt(cursor, capacity, arrivals, i))
       <==> (forall i, j :: 0 <= j < i < |arrivals| ==> arrivals[j].seqno < arrivals[i].seqno)
  {
    forall i | 0 <= i < |arrivals|
      ensures HandledAt(cursor, capacity, arrivals, i) <==> RecordHigh(cursor, arrivals, i)
    {
      HandledIffRecordHigh(cursor, capacity, arrivals, i);
    }
    if forall i :: 0 <= i < |arrivals| ==> HandledAt(cursor, capacity, arrivals, i) {
      forall i, j | 0 <= j < i < |arrivals|
        ensures arrivals[j].seqno < arrivals[i].seqno
      {
        assert HandledAt(cursor, capacity, arrivals, i);
      }
    } else {
      var i :| 0 <= i < |arrivals| && !HandledAt(cursor, capacity, arrivals, i);
      assert !RecordHigh(cursor, arrivals, i);
    }
  }

  // ------------------------------------------------------------ the state in place

  class ResumeCell {
    var cursor: nat
    var seen: set<Uuid>
    var order: seq<Uuid>
    const capacity: nat

    ghost function State(): Resume
      reads this
    {
      Resume(cursor, seen, order, capacity)
    }

    constructor (cursor: nat, capacity: nat)
      ensures State() == StartFrom(cursor, capacity)
      ensures WindowValid(State())
    {
      this.cursor := cursor;
      this.capacity := if capacity < 1 then 1 else capacity;
      seen, order := {}, [];
    }

    method Admits(id: Uuid, seqno: nat) returns (process: bool)
      ensures process == ShouldProcess(State(), id, seqno)
    {
      process := seqno > cursor && id !in seen;
    }

    method RecordHandled(id: Uuid, seqno: nat)
      requires WindowValid(State())
      modifies this
      ensures State() == Record(old(State()), id, seqno)
      ensures WindowValid(State())
    {
      RecordKeepsWindow(State(), id, seqno);
      if id !in seen {
        seen := seen + {id};
        order := order + [id];
        if |order| > capacity {
          var oldest := order[0];
          order := order[1..];
          seen := seen - {oldest};
        }
      }
      if seqno > cursor {
        cursor := seqno;
      }
    }
  }
}
