/** The TypeScript client's queue between the session loop and an async iterator. A promise is a
    number, in the order `next` handed them out; settling it appends to `answers`. */
module EventQueue {
  import opened Wrappers

  datatype Outcome<E> = Event(event: E) | End | Failed(error: string)

  datatype Answer<E> = Answer(promise: nat, outcome: Outcome<E>)

  datatype State<E> = State(
    items: seq<E>,
    waiting: Option<nat>,
    done: bool,
    error: Option<string>,
    asked: nat,
    answers: seq<Answer<E>>)

  /** An error may be null, which the queue cannot tell from no error at all. */
  datatype Op<E> = Push(event: E) | Finish | Fail(error: Option<string>) | Next

  function Fresh<E>(): State<E> {
    State([], None, false, None, 0, [])
  }

  /** Settles the waiting promise, if there is one. */
  function Settled<E>(s: State<E>, outcome: Outcome<E>): State<E> {
    match s.waiting
    case Some(promise) => s.(waiting := None, answers := s.answers + [Answer(promise, outcome)])
    case None => s
  }

  function Asked<E>(s: State<E>): State<E> {
    var promise := s.asked;
    var asked := s.(asked := s.asked + 1);
    if s.items != [] then asked.(items := s.items[1..], answers := s.answers + [Answer(promise, Event(s.items[0]))])
    else if s.error.Some? then asked.(answers := s.answers + [Answer(promise, Failed(s.error.value))])
    else if s.done then asked.(answers := s.answers + [Answer(promise, End)])
    else asked.(waiting := Some(promise))
  }

  function Do<E>(s: State<E>, op: Op<E>): State<E> {
    match op
    case Push(event) => if s.waiting.Some? then Settled(s, Event(event)) else s.(items := s.items + [event])
    case Finish => Settled(s.(done := true), End)
    case Fail(error) =>
      // Rejecting with null is still a rejection.
      Settled(s.(error := error), Failed(if error.Some? then error.value else "null"))
    case Next => Asked(s)
  }

  class EventQueue<E> {
    var items: seq<E>
    var waiting: Option<nat>
    var done: bool
    var error: Option<string>
    var asked: nat
    var answers: seq<Answer<E>>

    ghost function View(): State<E>
      reads this
    {
      State(items, waiting, done, error, asked, answers)
    }

    constructor ()
      ensures View() == Fresh()
    {
      items, waiting, done, error, asked, answers := [], None, false, None, 0, [];
    }

    method Settle(outcome: Outcome<E>)
      requires waiting.Some?
      modifies this
      ensures View() == Settled(old(View()), outcome)
    {
      var promise := waiting.value;
      waiting := None;
      answers := answers + [Answer(promise, outcome)];
    }

    method Push(event: E)
      modifies this
      ensures View() == Do(old(View()), Op.Push(event))
    {
      if waiting.Some? {
        Settle(Event(event));
      } else {
        items := items + [event];
      }
    }

    method Finish()
      modifies this
      ensures View() == Do(old(View()), Op.Finish)
    {
      done := true;
      if waiting.Some? {
        Settle(End);
      }
    }

    method Fail(reason: Option<string>)
      modifies this
      ensures View() == Do(old(View()), Op.Fail(reason))
    {
      error := reason;
      if waiting.Some? {
        Settle(Failed(if reason.Some? then reason.value else "null"));
      }
    }

    method Next() returns (promise: nat)
      modifies this
      ensures promise == old(asked) && View() == Do(old(View()), Op.Next)
    {
      promise := asked;
      asked := asked + 1;
      if items != [] {
        answers := answers + [Answer(promise, Event(items[0]))];
        items := items[1..];
      } else if error.Some? {
        answers := answers + [Answer(promise, Failed(error.value))];
      } else if done {
        answers := answers + [Answer(promise, End)];
      } else {
        waiting := Some(promise);
      }
    }
  }

  // --------------------------------------------------------------------------- runs

  function RunFrom<E>(s: State<E>, ops: seq<Op<E>>): State<E>
    decreases |ops|
  {
    if ops == [] then s else Do(RunFrom(s, ops[..|ops| - 1]), ops[|ops| - 1])
  }

  function Pushed<E>(ops: seq<Op<E>>): seq<E> {
    if ops == [] then []
    else
      var before, last := Pushed(ops[..|ops| - 1]), ops[|ops| - 1];
      if last.Push? then before + [last.event] else before
  }

  function Events<E>(answers: seq<Answer<E>>): seq<E> {
    if answers == [] then []
    else
      var before, last := Events(answers[..|answers| - 1]), answers[|answers| - 1];
      if last.outcome.Event? then before + [last.outcome.event] else before
  }

  ghost predicate Inv<E>(s: State<E>) {
    && (s.waiting.Some? ==> s.items == [] && !s.done && s.error.None? && s.waiting.value < s.asked)
  }

  lemma EventsAppend<E>(answers: seq<Answer<E>>, answer: Answer<E>)
    ensures Events(answers + [answer])
         == if answer.outcome.Event? then Events(answers) + [answer.outcome.event] else Events(answers)
  {
    assert (answers + [answer])[..|answers|] == answers;
  }

  lemma StepKeepsInv<E>(s: State<E>, op: Op<E>)
    requires Inv(s)
    ensures Inv(Do(s, op))
  {
  }

  /** At most one answer is given, and only a queued or a pushed event is answered as one. */
  lemma StepAnswers<E>(s: State<E>, op: Op<E>)
    requires Inv(s)
    ensures var t, pushed := Do(s, op), if op.Push? then [op.event] else [];
      || (t.answers == s.answers && t.items == s.items + pushed)
      || (t.answers == s.answers + [t.answers[|s.answers|]]
          && (if t.answers[|s.answers|].outcome.Event? then [t.answers[|s.answers|].outcome.event] else []) + t.items == s.items + pushed)
  {
    if op.Next? && s.items != [] {
      assert s.items == [s.items[0]] + s.items[1..];
    }
  }

  lemma StepConserves<E>(s: State<E>, op: Op<E>)
    requires Inv(s)
    ensures Events(Do(s, op).answers) + Do(s, op).items
         == Events(s.answers) + s.items + (if op.Push? then [op.event] else [])
  {
    hide Do, Events, Inv;
    StepAnswers(s, op);
    var t, pushed := Do(s, op), if op.Push? then [op.event] else [];
    assert Events(s.answers) + (s.items + pushed) == Events(s.answers) + s.items + pushed;
    if t.answers != s.answers {
      var answer := t.answers[|s.answers|];
      EventsAppend(s.answers, answer);
      var now := if answer.outcome.Event? then [answer.outcome.event] else [];
      assert Events(t.answers) == Events(s.answers) + now;
      assert (Events(s.answers) + now) + t.items == Events(s.answers) + (now + t.items);
    }
  }

  /** Nothing is lost or reordered, however pushes, asks, ends and failures interleave: the events
      answered, then those queued, are the events pushed. A waiter and queued events never meet,
      and nobody is left waiting once the queue has ended or failed. */
  lemma {:induction false} NothingIsLost<E>(ops: seq<Op<E>>)
    ensures var s := RunFrom(Fresh(), ops);
      Inv(s) && Events(s.answers) + s.items == Pushed(ops)
  {
    if ops != [] {
      var before, op := ops[..|ops| - 1], ops[|ops| - 1];
      NothingIsLost(before);
      StepKeepsInv(RunFrom(Fresh(), before), op);
      StepConserves(RunFrom(Fresh(), before), op);
    }
  }

  /** An end or an error is answered only when every event pushed so far has been. */
  lemma EndsComeLast<E>(before: seq<Op<E>>, op: Op<E>)
    requires var s, t := RunFrom(Fresh(), before), RunFrom(Fresh(), before + [op]);
      t.answers != s.answers && !t.answers[|t.answers| - 1].outcome.Event?
    ensures Events(RunFrom(Fresh(), before).answers) == Pushed(before)
  {
    assert (before + [op])[..|before|] == before;
    NothingIsLost(before);
  }

  /** The caller asks again only when its last ask has been answered. */
  ghost predicate OneAtATime<E>(ops: seq<Op<E>>) {
    forall i :: 0 <= i < |ops| && ops[i].Next? ==> RunFrom(Fresh<E>(), ops[..i]).waiting.None?
  }

  /** The k-th answer is the k-th ask's, and no ask but the last is still open. */
  ghost predicate InAskOrder<E>(s: State<E>) {
    && (forall k :: 0 <= k < |s.answers| ==> s.answers[k].promise == k)
    && s.asked == |s.answers| + (if s.waiting.Some? then 1 else 0)
    && (s.waiting.Some? ==> s.waiting.value == |s.answers|)
  }

  lemma StepKeepsAskOrder<E>(s: State<E>, op: Op<E>)
    requires InAskOrder(s) && (op.Next? ==> s.waiting.None?)
    ensures InAskOrder(Do(s, op))
  {
  }

  lemma {:induction false} AnswersInAskOrder<E>(ops: seq<Op<E>>)
    requires OneAtATime(ops)
    ensures InAskOrder(RunFrom(Fresh<E>(), ops))
  {
    if ops != [] {
      var n := |ops| - 1;
      var before := ops[..n];
      assert forall i :: 0 <= i < n ==> before[..i] == ops[..i];
      AnswersInAskOrder(before);
      assert ops[n].Next? ==> RunFrom(Fresh<E>(), ops[..n]).waiting.None?;
      StepKeepsAskOrder(RunFrom(Fresh<E>(), before), ops[n]);
    }
  }

  ghost predicate IsAnswered<E>(s: State<E>, promise: nat) {
    exists k :: 0 <= k < |s.answers| && s.answers[k].promise == promise
  }

  ghost predicate Stranded<E>(s: State<E>, promise: nat) {
    promise < s.asked && s.waiting != Some(promise) && !IsAnswered(s, promise)
  }

  lemma StrandedStep<E>(s: State<E>, promise: nat, op: Op<E>)
    requires Stranded(s, promise)
    ensures Stranded(Do(s, op), promise)
  {
    var t := Do(s, op);
    forall k | 0 <= k < |t.answers|
      ensures t.answers[k].promise != promise
    {
      if k < |s.answers| {
        assert t.answers[k] == s.answers[k];
      }
    }
  }

  lemma {:induction false} StrandedForGood<E>(s: State<E>, promise: nat, ops: seq<Op<E>>)
    requires Stranded(s, promise)
    ensures Stranded(RunFrom(s, ops), promise)
    decreases |ops|
  {
    if ops != [] {
      StrandedForGood(s, promise, ops[..|ops| - 1]);
      StrandedStep(RunFrom(s, ops[..|ops| - 1]), promise, ops[|ops| - 1]);
    }
  }

  /** Asking while an ask is open strands the earlier one: no later operation ever answers it. */
  lemma OverlappingAskIsStranded<E>(s: State<E>, later: seq<Op<E>>)
    requires Inv(s) && s.waiting.Some? && !IsAnswered(s, s.waiting.value)
    ensures !IsAnswered(RunFrom(Do(s, Next), later), s.waiting.value)
  {
    var promise := s.waiting.value;
    assert Do(s, Next).answers == s.answers;
    StrandedForGood(Do(s, Next), promise, later);
  }

  /** After a failure the next ask on an empty, unfinished queue is answered exactly when the error
      was not null. */
  lemma FailureIsSeenIff<E>(s: State<E>, error: Option<string>)
    requires Inv(s) && s.items == [] && !s.done
    ensures Do(Do(s, Fail(error)), Next).waiting.None? <==> error.Some?
  {
  }

  /** Nobody is told of an end or an error that has not been. */
  ghost predicate Caused<E(!new)>(ops: seq<Op<E>>, outcome: Outcome<E>) {
    match outcome
    case Event(_) => true
    case End => Finish in ops
    case Failed(text) => exists error: Option<string> :: Fail(error) in ops && text == (match error case Some(e) => e case None => "null")
  }

  ghost predicate AllCaused<E(!new)>(ops: seq<Op<E>>, s: State<E>) {
    && (forall k :: 0 <= k < |s.answers| ==> Caused(ops, s.answers[k].outcome))
    && (s.done ==> Finish in ops)
    && (s.error.Some? ==> Fail(s.error) in ops)
  }

  lemma CausedStays<E(!new)>(before: seq<Op<E>>, op: Op<E>, outcome: Outcome<E>)
    requires Caused(before, outcome)
    ensures Caused(before + [op], outcome)
  {
    if outcome.Failed? {
      var error: Option<string> :| Fail(error) in before && outcome.error == (match error case Some(e) => e case None => "null");
      assert Fail(error) in before + [op];
    }
  }

  lemma StepKeepsCauses<E(!new)>(before: seq<Op<E>>, op: Op<E>, s: State<E>)
    requires AllCaused(before, s)
    ensures AllCaused(before + [op], Do(s, op))
  {
    var ops, t := before + [op], Do(s, op);
    assert op in ops;
    forall k | 0 <= k < |t.answers|
      ensures Caused(ops, t.answers[k].outcome)
    {
      if k < |s.answers| {
        CausedStays(before, op, s.answers[k].outcome);
        assert t.answers[k] == s.answers[k];
      }
    }
  }

  /** On every run an ask is answered with the end only if the queue was finished, and with an error
      only if it failed with that one; an ask on a queue that has neither, and no items, stays open. */
  lemma {:induction false} EndsHaveCauses<E(!new)>(ops: seq<Op<E>>)
    ensures var s := RunFrom(Fresh(), ops);
      && AllCaused(ops, s)
      && (s.items == [] && Finish !in ops && (forall error :: Fail(error) !in ops) ==> Do(s, Next).waiting == Some(s.asked))
  {
    if ops != [] {
      var before, op := ops[..|ops| - 1], ops[|ops| - 1];
      assert ops == before + [op];
      EndsHaveCauses(before);
      StepKeepsCauses(before, op, RunFrom(Fresh(), before));
    }
  }

  /** An ask that is open is answered by the next push with that event, by the end with the end, and
      by a failure with its error, a null one included; nobody else is answered by any of them. */
  lemma OpenAskIsSettled<E>(s: State<E>, event: E, error: Option<string>)
    ensures var open := s.waiting.Some?;
      && Do(s, Push(event)).answers == s.answers + (if open then [Answer(s.waiting.value, Event(event))] else [])
      && Do(s, Finish).answers == s.answers + (if open then [Answer(s.waiting.value, End)] else [])
      && Do(s, Fail(error)).answers
         == s.answers + (if open then [Answer(s.waiting.value, Failed(match error case Some(e) => e case None => "null"))] else [])
    ensures Do(s, Push(event)).waiting.None? && Do(s, Finish).waiting.None? && Do(s, Fail(error)).waiting.None?
  {
    assert s.answers + [] == s.answers;
  }

  function Asks<E>(n: nat): (ops: seq<Op<E>>)
    ensures |ops| == n
  {
    if n == 0 then [] else Asks(n - 1) + [Next]
  }

  function LastWord<E>(s: State<E>): Outcome<E> {
    if s.error.Some? then Failed(s.error.value) else End
  }

  /** The k-th thing a consumer sees from here on, if nothing more is pushed. */
  function Seen<E>(s: State<E>, k: nat): Outcome<E> {
    if k < |s.items| then Event(s.items[k]) else LastWord(s)
  }

  lemma AskWhenDone<E>(s: State<E>)
    requires s.done && s.waiting.None?
    ensures Do(s, Next) == s.(asked := s.asked + 1, items := if s.items == [] then [] else s.items[1..],
                              answers := s.answers + [Answer(s.asked, Seen(s, 0))])
  {
  }

  ghost predicate Answered<E>(t: State<E>, u: State<E>, n: nat) {
    && u.waiting.None? && u.done && u.error == t.error
    && u.items == t.items[if n < |t.items| then n else |t.items|..]
    && |u.answers| == |t.answers| + n
    && forall k :: 0 <= k < n ==> u.answers[|t.answers| + k].outcome == Seen(t, k)
  }

  lemma OneMoreAnswered<E>(t: State<E>, u: State<E>, n: nat)
    requires Answered(t, u, n)
    ensures Answered(t, Do(u, Next), n + 1)
  {
    AskWhenDone(u);
    assert Seen(u, 0) == Seen(t, n);
    hide Do, Seen;
    var v := Do(u, Next);
    forall k | 0 <= k < n + 1
      ensures v.answers[|t.answers| + k].outcome == Seen(t, k)
    {
      if k < n {
        assert v.answers[|t.answers| + k] == u.answers[|t.answers| + k];
      }
    }
  }

  /** What a consumer sees once the queue has finished: the items left, in order, one an ask, and
      from then on the error, or the end, for ever. */
  lemma {:induction false} AsksAfterFinish<E>(s: State<E>, n: nat)
    requires Inv(s)
    ensures var t := Do(s, Finish);
      t.items == s.items && t.error == s.error && Answered(t, RunFrom(t, Asks(n)), n)
  {
    if n > 0 {
      AsksAfterFinish(s, n - 1);
      var t := Do(s, Finish);
      assert Asks<E>(n)[..n - 1] == Asks<E>(n - 1);
      OneMoreAnswered(t, RunFrom(t, Asks(n - 1)), n - 1);
    }
  }
}
