/** The window of dispatches in flight to an extension, with every atomic step of its threads a
    step of its own: loads and compare-exchanges of the counter, insertions and removals under the
    lock, releases of permits, and the two ends of each request's one-shot channel. */
module DispatchWindow {
  type Thread = nat
  type Request = nat

  /** The sending end: still in the pending map, taken out to be answered, used, or dropped. */
  datatype Sender = Parked | Taken | Sent | Dropped

  /** The waiting end. `Expired` is after the timer fired and before the entry is withdrawn. */
  datatype Waiter = Waiting | Expired | Answered | FoundDead | TimedOut | Abandoned

  datatype Slot = Slot(sender: Sender, waiter: Waiter)

  /** A thread in the reservation loop: the count it saw, and the limit it was given. */
  datatype Attempt = Attempt(seen: nat, max: nat)

  /** `holders` passed the compare-exchange and have not inserted yet; `releasing` left the pending
      map and have not given their permit back yet. */
  datatype World = World(
    inFlight: nat,
    attempts: map<Thread, Attempt>,
    holders: set<Thread>,
    pending: set<Request>,
    releasing: set<Request>,
    slots: map<Request, Slot>)

  const EMPTY := World(0, map[], {}, {}, {}, map[])

  datatype Step =
    | Begin(thread: Thread, max: nat)
    | TryReserve(thread: Thread)
    | SpuriousFailure(thread: Thread)
    | Insert(thread: Thread, req: Request)
    | Take(req: Request)
    | Send(req: Request)
    | Release(req: Request)
    | Receive(req: Request)
    | NoticeDead(req: Request)
    | Expire(req: Request)
    | Withdraw(req: Request)
    | Abandon(req: Request)
    | Clear

  /** Whether a request is in the pending map and leaves it; its permit is given back later. */
  function Unparked(w: World, req: Request, sender: Sender): World
    requires req in w.slots
  {
    if req in w.pending then
      w.(pending := w.pending - {req}, releasing := w.releasing + {req}, slots := w.slots[req := w.slots[req].(sender := sender)])
    else w
  }

  function Concluded(w: World, req: Request, waiter: Waiter): World
    requires req in w.slots
  {
    w.(slots := w.slots[req := w.slots[req].(waiter := waiter)])
  }

  function AllDropped(w: World): World {
    w.(pending := {}, releasing := w.releasing + w.pending,
    slots := map r | r in w.slots :: if r in w.pending then w.slots[r].(sender := Dropped) else w.slots[r])
  }

  predicate At(w: World, req: Request, sender: Sender, waiter: Waiter) {
    req in w.slots && w.slots[req] == Slot(sender, waiter)
  }

  predicate WaitsAs(w: World, req: Request, waiter: Waiter) {
    req in w.slots && w.slots[req].waiter == waiter
  }

  /** One step; a step that is not enabled changes nothing. */
  function Do(w: World, step: Step): World {
    match step
    case Begin(t, max) =>
      if t in w.attempts || t in w.holders then w else w.(attempts := w.attempts[t := Attempt(w.inFlight, max)])
    case TryReserve(t) =>
      if t !in w.attempts then w
      else if w.attempts[t].seen >= w.attempts[t].max then w.(attempts := w.attempts - {t})
      else if w.attempts[t].seen == w.inFlight then
        w.(inFlight := w.inFlight + 1, attempts := w.attempts - {t}, holders := w.holders + {t})
      else w.(attempts := w.attempts[t := w.attempts[t].(seen := w.inFlight)])
    case SpuriousFailure(t) =>
      if t in w.attempts && w.attempts[t].seen < w.attempts[t].max then
        w.(attempts := w.attempts[t := w.attempts[t].(seen := w.inFlight)])
      else w
    case Insert(t, req) =>
      if t in w.holders && req !in w.slots then
        w.(holders := w.holders - {t}, pending := w.pending + {req}, slots := w.slots[req := Slot(Parked, Waiting)])
      else w
    case Take(req) => if req in w.slots then Unparked(w, req, Taken) else w
    case Send(req) =>
      if req in w.slots && w.slots[req].sender == Taken && req !in w.releasing then
        w.(slots := w.slots[req := w.slots[req].(sender := Sent)])
      else w
    case Release(req) =>
      if req in w.releasing then
        w.(releasing := w.releasing - {req}, inFlight := if w.inFlight == 0 then 0 else w.inFlight - 1)
      else w
    case Receive(req) => if At(w, req, Sent, Waiting) then Concluded(w, req, Answered) else w
    case NoticeDead(req) => if At(w, req, Dropped, Waiting) then Concluded(w, req, FoundDead) else w
    case Expire(req) => if WaitsAs(w, req, Waiting) then Concluded(w, req, Expired) else w
    case Withdraw(req) =>
      if WaitsAs(w, req, Expired) then Concluded(Unparked(w, req, Dropped), req, TimedOut) else w
    case Abandon(req) =>
      if WaitsAs(w, req, Waiting) || WaitsAs(w, req, Expired) then Concluded(Unparked(w, req, Dropped), req, Abandoned)
      else w
    case Clear => AllDropped(w)
  }

  function RunFrom(w: World, steps: seq<Step>): World
    decreases |steps|
  {
    if steps == [] then w else Do(RunFrom(w, steps[..|steps| - 1]), steps[|steps| - 1])
  }

  // ----------------------------------------------------------- permits are conserved

  /** No attempt is given a limit above `bound`. */
  ghost predicate WithinLimit(steps: seq<Step>, bound: nat) {
    forall i :: 0 <= i < |steps| && steps[i].Begin? ==> steps[i].max <= bound
  }

  ghost predicate Conserved(w: World) {
    w.inFlight == |w.pending| + |w.holders| + |w.releasing|
  }

  ghost predicate Apart(w: World) {
    w.pending !! w.releasing && w.attempts.Keys !! w.holders && w.pending + w.releasing <= w.slots.Keys
  }

  ghost predicate Placed(w: World) {
    && Apart(w)
    && (forall r :: r in w.slots ==> (r in w.pending <==> w.slots[r].sender == Parked))
    && (forall r :: r in w.releasing ==> w.slots[r].sender != Sent)
    && (forall r :: r in w.pending ==> w.slots[r].waiter in {Waiting, Expired})
    && (forall r :: r in w.slots && w.slots[r].waiter == Answered ==> w.slots[r].sender == Sent)
  }

  ghost predicate Limited(w: World, bound: nat) {
    && w.inFlight <= bound
    && (forall t :: t in w.attempts ==> w.attempts[t].max <= bound)
  }

  ghost predicate Inv(w: World, bound: nat) {
    Conserved(w) && Placed(w) && Limited(w, bound)
  }

  lemma UnparkedKeepsConserved(w: World, req: Request, sender: Sender)
    requires Conserved(w) && Apart(w) && req in w.slots
    ensures Conserved(Unparked(w, req, sender))
  {
    if req in w.pending {
      assert |w.pending - {req}| == |w.pending| - 1 && |w.releasing + {req}| == |w.releasing| + 1;
    }
  }

  lemma ConcludedKeepsConserved(w: World, req: Request, waiter: Waiter)
    requires Conserved(w) && req in w.slots
    ensures Conserved(Concluded(w, req, waiter))
  {
  }

  lemma LeavingKeepsConserved(w: World, step: Step)
    requires Conserved(w) && Apart(w) && (step.Take? || step.Withdraw? || step.Abandon?)
    ensures Conserved(Do(w, step))
  {
    hide Conserved, Apart, Concluded;
    if step.req in w.slots {
      var sender := if step.Take? then Taken else Dropped;
      UnparkedKeepsConserved(w, step.req, sender);
      ConcludedKeepsConserved(Unparked(w, step.req, sender), step.req, if step.Withdraw? then TimedOut else Abandoned);
    }
  }

  lemma AllDroppedKeepsConserved(w: World)
    requires Conserved(w) && Apart(w)
    ensures Conserved(AllDropped(w))
  {
    assert |w.releasing + w.pending| == |w.releasing| + |w.pending|;
  }

  lemma ReleaseKeepsConserved(w: World, req: Request)
    requires Conserved(w)
    ensures Conserved(Do(w, Release(req)))
  {
    if req in w.releasing {
      assert |w.releasing - {req}| == |w.releasing| - 1;
    }
  }

  lemma InsertKeepsConserved(w: World, t: Thread, req: Request)
    requires Conserved(w) && Apart(w)
    ensures Conserved(Do(w, Insert(t, req)))
  {
    if t in w.holders && req !in w.slots {
      assert |w.holders - {t}| == |w.holders| - 1 && |w.pending + {req}| == |w.pending| + 1;
    }
  }

  lemma AttemptsHoldNothing(w: World, t: Thread)
    requires Apart(w)
    ensures t in w.attempts ==> t !in w.holders
  {
  }

  lemma TryReserveKeepsConserved(w: World, t: Thread)
    requires Conserved(w) && (t in w.attempts ==> t !in w.holders)
    ensures Conserved(Do(w, TryReserve(t)))
  {
    if t in w.attempts {
      assert |w.holders + {t}| == |w.holders| + 1;
    }
  }

  lemma OtherStepsKeepConserved(w: World, step: Step)
    requires Conserved(w)
    requires step.Begin? || step.SpuriousFailure? || step.Send? || step.Receive? || step.NoticeDead? || step.Expire?
    ensures Conserved(Do(w, step))
  {
    var w' := Do(w, step);
    assert w'.inFlight == w.inFlight && w'.pending == w.pending && w'.holders == w.holders && w'.releasing == w.releasing;
  }

  lemma StepKeepsConserved(w: World, step: Step)
    requires Conserved(w) && Apart(w)
    ensures Conserved(Do(w, step))
  {
    hide Conserved, Apart, AllDropped, Concluded, Unparked;
    match step {
      case TryReserve(t) =>
        AttemptsHoldNothing(w, t);
        TryReserveKeepsConserved(w, t);
      case Insert(t, req) => InsertKeepsConserved(w, t, req);
      case Release(req) => ReleaseKeepsConserved(w, req);
      case Clear => AllDroppedKeepsConserved(w);
      case Take(_) => LeavingKeepsConserved(w, step);
      case Withdraw(_) => LeavingKeepsConserved(w, step);
      case Abandon(_) => LeavingKeepsConserved(w, step);
      case _ => OtherStepsKeepConserved(w, step);
    }
  }

  lemma StepKeepsApart(w: World, step: Step)
    requires Apart(w)
    ensures Apart(Do(w, step))
  {
  }

  lemma LeavingKeepsPlaced(w: World, req: Request, sender: Sender, waiter: Waiter)
    requires Placed(w) && req in w.slots && w.slots[req].waiter in {Waiting, Expired} && sender != Parked && sender != Sent && waiter != Answered
    ensures Placed(Unparked(w, req, sender))
    ensures waiter !in {Waiting, Expired} ==> Placed(Concluded(Unparked(w, req, sender), req, waiter))
  {
  }

  lemma StepKeepsPlaced(w: World, step: Step)
    requires Placed(w)
    ensures Placed(Do(w, step))
  {
    StepKeepsApart(w, step);
    match step {
      case Withdraw(req) =>
        if WaitsAs(w, req, Expired) {
          LeavingKeepsPlaced(w, req, Dropped, TimedOut);
        }
      case Abandon(req) =>
        if WaitsAs(w, req, Waiting) || WaitsAs(w, req, Expired) {
          LeavingKeepsPlaced(w, req, Dropped, Abandoned);
        }
      case _ =>
    }
  }

  lemma StepKeepsLimited(w: World, step: Step, bound: nat)
    requires Limited(w, bound) && (step.Begin? ==> step.max <= bound)
    ensures Limited(Do(w, step), bound)
  {
  }

  /** Whatever the interleaving, the counter is the number of permits held: by requests pending, by
      threads between reserving and inserting, and by requests about to release. It never passes
      the limit. */
  lemma {:induction false} PermitsAreConserved(steps: seq<Step>, bound: nat)
    requires WithinLimit(steps, bound)
    ensures Inv(RunFrom(EMPTY, steps), bound)
  {
    if steps != [] {
      var before, last := steps[..|steps| - 1], steps[|steps| - 1];
      PermitsAreConserved(before, bound);
      var w := RunFrom(EMPTY, before);
      StepKeepsConserved(w, last);
      StepKeepsPlaced(w, last);
      StepKeepsLimited(w, last, bound);
    }
  }

  /** The release's saturating subtraction never meets a zero. */
  lemma ReleaseNeverSaturates(steps: seq<Step>, bound: nat, req: Request)
    requires WithinLimit(steps, bound) && req in RunFrom(EMPTY, steps).releasing
    ensures var w := RunFrom(EMPTY, steps); Do(w, Release(req)).inFlight + 1 == w.inFlight
  {
    PermitsAreConserved(steps, bound);
  }

  /** No permit leaks: only requests whose wait is still open are pending, so when every wait is over
      and every release is done, nothing is in flight. */
  lemma NothingInFlightWhenAllDone(steps: seq<Step>, bound: nat)
    requires WithinLimit(steps, bound)
    ensures var w := RunFrom(EMPTY, steps);
      && (forall r :: r in w.pending ==> WaitsAs(w, r, Waiting) || WaitsAs(w, r, Expired))
      && (w.holders == {} && w.releasing == {} && (forall r :: r in w.slots ==> Final(w, r)) ==> w.inFlight == 0)
  {
    PermitsAreConserved(steps, bound);
    var w := RunFrom(EMPTY, steps);
    if w.holders == {} && w.releasing == {} && forall r :: r in w.slots ==> Final(w, r) {
      assert forall r :: r in w.pending ==> Final(w, r);
      assert w.pending == {};
    }
  }

  /** A thread turned away really saw the window full: the count it compares with its limit is one
      the counter had at some moment since the run began. */
  lemma {:induction false} SeenWasTrue(steps: seq<Step>, thread: Thread) returns (k: nat)
    requires thread in RunFrom(EMPTY, steps).attempts
    ensures k <= |steps| && RunFrom(EMPTY, steps[..k]).inFlight == RunFrom(EMPTY, steps).attempts[thread].seen
  {
    var before, last := steps[..|steps| - 1], steps[|steps| - 1];
    var w := RunFrom(EMPTY, before);
    SeenIsKeptOrRead(w, last, thread);
    if Do(w, last).attempts[thread].seen == w.inFlight {
      k := |steps| - 1;
    } else {
      k := SeenWasTrue(before, thread);
      assert steps[..k] == before[..k];
    }
  }

  lemma SeenIsKeptOrRead(w: World, step: Step, thread: Thread)
    requires thread in Do(w, step).attempts
    ensures var seen := Do(w, step).attempts[thread].seen;
      seen == w.inFlight || (thread in w.attempts && seen == w.attempts[thread].seen)
  {
  }

  // ------------------------------------------------------- one outcome per request

  predicate Final(w: World, req: Request) {
    req in w.slots && w.slots[req].waiter !in {Waiting, Expired}
  }

  lemma StepKeepsOutcome(w: World, step: Step, req: Request)
    requires Final(w, req)
    ensures Final(Do(w, step), req) && Do(w, step).slots[req].waiter == w.slots[req].waiter
  {
  }

  /** The first outcome of a request is its only one, whatever comes later. */
  lemma {:induction false} OutcomeIsFinal(w: World, steps: seq<Step>, req: Request)
    requires Final(w, req)
    ensures Final(RunFrom(w, steps), req) && RunFrom(w, steps).slots[req].waiter == w.slots[req].waiter
    decreases |steps|
  {
    if steps != [] {
      OutcomeIsFinal(w, steps[..|steps| - 1], req);
      StepKeepsOutcome(RunFrom(w, steps[..|steps| - 1]), steps[|steps| - 1], req);
    }
  }

  /** Once the timer has fired the request is never answered, even when a result is sent before the
      entry is withdrawn. */
  lemma {:induction false} NoAnswerAfterTimeout(w: World, steps: seq<Step>, req: Request)
    requires req in w.slots && w.slots[req].waiter in {Expired, TimedOut}
    ensures req in RunFrom(w, steps).slots && RunFrom(w, steps).slots[req].waiter in {Expired, TimedOut, Abandoned}
    decreases |steps|
  {
    if steps != [] {
      var before := RunFrom(w, steps[..|steps| - 1]);
      if w.slots[req].waiter == TimedOut {
        OutcomeIsFinal(w, steps, req);
      } else {
        NoAnswerAfterTimeout(w, steps[..|steps| - 1], req);
        if Final(before, req) {
          StepKeepsOutcome(before, steps[|steps| - 1], req);
        }
      }
    }
  }

  /** How many steps of a run gave the request an outcome. */
  function Outcomes(steps: seq<Step>, req: Request): nat {
    if steps == [] then 0
    else
      var before := steps[..|steps| - 1];
      Outcomes(before, req) + if !Final(RunFrom(EMPTY, before), req) && Final(RunFrom(EMPTY, steps), req) then 1 else 0
  }

  lemma {:induction false} AtMostOneOutcome(steps: seq<Step>, req: Request)
    ensures Outcomes(steps, req) == if Final(RunFrom(EMPTY, steps), req) then 1 else 0
  {
    if steps != [] {
      var before := steps[..|steps| - 1];
      AtMostOneOutcome(before, req);
      if Final(RunFrom(EMPTY, before), req) {
        StepKeepsOutcome(RunFrom(EMPTY, before), steps[|steps| - 1], req);
      }
    }
  }

  // ------------------------------------------------------------ how a wait ends

  /** An open wait ends as its sender decides: with the result once one is sent, with the loss noticed
      once the sender is dropped, and at any time with the timer, after which it is withdrawn. */
  lemma OpenWaitCanEnd(w: World, req: Request)
    requires WaitsAs(w, req, Waiting)
    ensures w.slots[req].sender == Sent ==> At(Do(w, Receive(req)), req, Sent, Answered)
    ensures w.slots[req].sender == Dropped ==> At(Do(w, NoticeDead(req)), req, Dropped, FoundDead)
    ensures At(Do(w, Expire(req)), req, w.slots[req].sender, Expired)
    ensures WaitsAs(Do(Do(w, Expire(req)), Withdraw(req)), req, TimedOut)
  {
  }

  /** A request runs its course: inserted by a permit's holder it is pending and waited for; once it is
      taken, its permit given back, and answered, the window is one permit emptier and nothing else of
      it has changed. */
  lemma AnsweredCourse(w: World, thread: Thread, req: Request)
    requires Apart(w) && Conserved(w) && thread in w.holders && req !in w.slots
    ensures var v := Do(w, Insert(thread, req)); req in v.pending && At(v, req, Parked, Waiting)
    ensures var v := Do(Do(Do(Do(w, Insert(thread, req)), Take(req)), Release(req)), Send(req));
      Do(v, Receive(req)) == w.(inFlight := w.inFlight - 1, holders := w.holders - {thread}, slots := w.slots[req := Slot(Sent, Answered)])
  {
    assert w.inFlight > 0 by {
      assert |w.holders| > 0;
    }
    hide Conserved;
    var rest := w.(holders := w.holders - {thread});
    var inserted := Do(w, Insert(thread, req));
    assert inserted == rest.(pending := w.pending + {req}, slots := w.slots[req := Slot(Parked, Waiting)]);
    TakenAndReleased(rest.(slots := inserted.slots), req);
    var released := rest.(inFlight := w.inFlight - 1, slots := inserted.slots[req := Slot(Taken, Waiting)]);
    assert Do(Do(inserted, Take(req)), Release(req)) == released;
    SentAndReceived(released, req);
    assert released.slots[req := Slot(Sent, Answered)] == w.slots[req := Slot(Sent, Answered)];
  }

  lemma TakenAndReleased(w: World, req: Request)
    requires req !in w.pending && req !in w.releasing && At(w, req, Parked, Waiting) && w.inFlight > 0
    ensures Do(Do(w.(pending := w.pending + {req}), Take(req)), Release(req))
         == w.(inFlight := w.inFlight - 1, slots := w.slots[req := Slot(Taken, Waiting)])
  {
    assert w.pending + {req} - {req} == w.pending && w.releasing + {req} - {req} == w.releasing;
  }

  lemma SentAndReceived(w: World, req: Request)
    requires req !in w.releasing && At(w, req, Taken, Waiting)
    ensures Do(Do(w, Send(req)), Receive(req)) == w.(slots := w.slots[req := Slot(Sent, Answered)])
  {
    assert w.slots[req := Slot(Sent, Waiting)][req := Slot(Sent, Answered)] == w.slots[req := Slot(Sent, Answered)];
  }

  /** A thread whose compare-exchange lost the race looks again, and if the window is not full now its
      next try succeeds. */
  lemma SecondTrySucceeds(w: World, thread: Thread)
    requires thread in w.attempts && w.attempts[thread].seen < w.attempts[thread].max
    requires w.inFlight < w.attempts[thread].max
    ensures var v := if w.attempts[thread].seen == w.inFlight then w else Do(w, TryReserve(thread));
      var r := Do(v, TryReserve(thread));
      r.inFlight == w.inFlight + 1 && r.holders == w.holders + {thread} && r.attempts == w.attempts - {thread}
  {
    var v := Do(w, TryReserve(thread));
    assert w.attempts[thread].seen != w.inFlight ==> v.attempts - {thread} == w.attempts - {thread};
  }

  // ------------------------------------------- the entry, its permit and its sender

  /** The step makes the request's entry leave the pending map. */
  predicate Removes(w: World, step: Step, req: Request) {
    req in w.pending && req !in Do(w, step).pending
  }

  predicate Releases(w: World, step: Step, req: Request) {
    step == Release(req) && req in w.releasing
  }

  /** The step puts a result into the request's channel. */
  predicate Sends(w: World, step: Step, req: Request) {
    step == Send(req) && req in w.slots && w.slots[req].sender == Taken && req !in w.releasing
  }

  function Removals(steps: seq<Step>, req: Request): nat {
    if steps == [] then 0
    else
      var before := steps[..|steps| - 1];
      Removals(before, req) + if Removes(RunFrom(EMPTY, before), steps[|steps| - 1], req) then 1 else 0
  }

  function GivenBack(steps: seq<Step>, req: Request): nat {
    if steps == [] then 0
    else
      var before := steps[..|steps| - 1];
      GivenBack(before, req) + if Releases(RunFrom(EMPTY, before), steps[|steps| - 1], req) then 1 else 0
  }

  function Results(steps: seq<Step>, req: Request): nat {
    if steps == [] then 0
    else
      var before := steps[..|steps| - 1];
      Results(before, req) + if Sends(RunFrom(EMPTY, before), steps[|steps| - 1], req) then 1 else 0
  }

  lemma {:induction false} RunStaysPlaced(steps: seq<Step>)
    ensures Placed(RunFrom(EMPTY, steps))
  {
    if steps != [] {
      RunStaysPlaced(steps[..|steps| - 1]);
      StepKeepsPlaced(RunFrom(EMPTY, steps[..|steps| - 1]), steps[|steps| - 1]);
    }
  }

  /** Only four kinds of step take an entry out, and each leaves its mark on the sender: the reader
      takes it, everything else drops it. */
  lemma RemovedByOneOfFour(w: World, step: Step, req: Request)
    requires Placed(w) && Removes(w, step, req)
    ensures step == Take(req) || (step == Withdraw(req) && w.slots[req].waiter == Expired) || step == Abandon(req) || step == Clear
    ensures req in Do(w, step).slots && Do(w, step).slots[req].sender == if step == Take(req) then Taken else Dropped
    ensures req in Do(w, step).releasing
  {
  }

  /** And each of the four does remove it: the reader's take, a withdrawal once the timer has fired, a
      reservation dropped while its wait is open, and a clear. Only the take keeps the sender. */
  lemma EachOfFourRemoves(w: World, req: Request)
    requires Placed(w) && req in w.pending
    ensures Removes(w, Take(req), req) && Do(w, Take(req)).slots[req].sender == Taken
    ensures w.slots[req].waiter == Expired ==> Removes(w, Withdraw(req), req) && At(Do(w, Withdraw(req)), req, Dropped, TimedOut)
    ensures Removes(w, Abandon(req), req) && At(Do(w, Abandon(req)), req, Dropped, Waiter.Abandoned)
    ensures Removes(w, Clear, req) && Do(w, Clear).slots[req].sender == Dropped
  {
  }

  /** A thread that has seen a full window and holds no permit. */
  predicate TurnedAway(w: World, thread: Thread) {
    thread !in w.holders && (thread in w.attempts ==> w.attempts[thread].seen >= w.attempts[thread].max)
  }

  lemma StepKeepsTurnedAway(w: World, step: Step, thread: Thread)
    requires TurnedAway(w, thread) && !(step.Begin? && step.thread == thread)
    ensures TurnedAway(Do(w, step), thread)
  {
    if !(step.Begin? || step.TryReserve? || step.SpuriousFailure? || step.Insert?) {
      hide Do;
      OthersKeepThreads(w, step);
    }
  }

  lemma OthersKeepThreads(w: World, step: Step)
    requires !(step.Begin? || step.TryReserve? || step.SpuriousFailure? || step.Insert?)
    ensures Do(w, step).attempts == w.attempts && Do(w, step).holders == w.holders
  {
  }

  /** Such a thread is turned away: until it begins again it never gets a permit, however the counter
      moves. */
  lemma {:induction false} FullWindowTurnsAway(w: World, steps: seq<Step>, thread: Thread)
    requires TurnedAway(w, thread)
    requires forall i :: 0 <= i < |steps| && steps[i].Begin? ==> steps[i].thread != thread
    ensures TurnedAway(RunFrom(w, steps), thread)
    decreases |steps|
  {
    hide Do, TurnedAway;
    if steps != [] {
      FullWindowTurnsAway(w, steps[..|steps| - 1], thread);
      StepKeepsTurnedAway(RunFrom(w, steps[..|steps| - 1]), steps[|steps| - 1], thread);
    }
  }

  lemma EntryCount(w: World, step: Step, req: Request)
    requires Placed(w)
    ensures req in w.slots && req !in w.pending ==>
      req in Do(w, step).slots && req !in Do(w, step).pending && !Removes(w, step, req)
    ensures req in w.pending ==> req in Do(w, step).slots
    ensures req !in w.slots ==> (req in Do(w, step).slots ==> req in Do(w, step).pending)
  {
  }

  /** A request's entry leaves the map at most once: exactly once if it was ever inserted and is not
      pending any more. */
  lemma {:induction false} EntryLeavesOnce(steps: seq<Step>, req: Request)
    ensures var w := RunFrom(EMPTY, steps);
      Removals(steps, req) == if req in w.slots && req !in w.pending then 1 else 0
  {
    if steps != [] {
      var before := steps[..|steps| - 1];
      EntryLeavesOnce(before, req);
      RunStaysPlaced(before);
      EntryCount(RunFrom(EMPTY, before), steps[|steps| - 1], req);
    }
  }

  lemma PermitCount(w: World, step: Step, req: Request)
    requires Placed(w)
    ensures Releases(w, step, req) ==> req !in Do(w, step).releasing
    ensures Removes(w, step, req) ==> req in Do(w, step).releasing && !Releases(w, step, req)
    ensures !Releases(w, step, req) && !Removes(w, step, req) ==> (req in Do(w, step).releasing <==> req in w.releasing)
  {
  }

  /** Its permit is given back once for each time the entry leaves, and not before. */
  lemma {:induction false} PermitGivenBackOnce(steps: seq<Step>, req: Request)
    ensures var w := RunFrom(EMPTY, steps);
      GivenBack(steps, req) + (if req in w.releasing then 1 else 0) == Removals(steps, req)
  {
    if steps != [] {
      var before := steps[..|steps| - 1];
      PermitGivenBackOnce(before, req);
      RunStaysPlaced(before);
      PermitCount(RunFrom(EMPTY, before), steps[|steps| - 1], req);
    }
  }

  predicate SenderIs(w: World, req: Request, sender: Sender) {
    req in w.slots && w.slots[req].sender == sender
  }

  /** How a request's sender may change in one step. */
  lemma SenderMoves(w: World, step: Step, req: Request)
    requires Placed(w)
    ensures SenderIs(w, req, Sent) ==> SenderIs(Do(w, step), req, Sent)
    ensures SenderIs(w, req, Dropped) ==> SenderIs(Do(w, step), req, Dropped)
    ensures SenderIs(w, req, Taken) ==> SenderIs(Do(w, step), req, if Sends(w, step, req) then Sent else Taken)
    ensures SenderIs(w, req, Parked) ==>
      SenderIs(Do(w, step), req, if !Removes(w, step, req) then Parked else if step == Take(req) then Taken else Dropped)
    ensures req !in w.slots ==> req !in Do(w, step).slots || SenderIs(Do(w, step), req, Parked)
    ensures Sends(w, step, req) ==> SenderIs(w, req, Taken)
  {
  }

  /** At most one result is ever put into a request's channel. */
  lemma {:induction false} AtMostOneResult(steps: seq<Step>, req: Request)
    ensures Results(steps, req) == if SenderIs(RunFrom(EMPTY, steps), req, Sent) then 1 else 0
  {
    if steps != [] {
      var before := steps[..|steps| - 1];
      AtMostOneResult(before, req);
      RunStaysPlaced(before);
      SenderMoves(RunFrom(EMPTY, before), steps[|steps| - 1], req);
    }
  }

  lemma {:induction false} RunFromSplit(w: World, left: seq<Step>, right: seq<Step>)
    ensures RunFrom(w, left + right) == RunFrom(RunFrom(w, left), right)
    decreases |right|
  {
    if right == [] {
      assert left + right == left;
    } else {
      assert (left + right)[..|left + right| - 1] == left + right[..|right| - 1];
      RunFromSplit(w, left, right[..|right| - 1]);
    }
  }

  lemma {:induction false} DroppedForGood(steps: seq<Step>, n: nat, req: Request)
    requires n <= |steps| && SenderIs(RunFrom(EMPTY, steps[..n]), req, Dropped)
    ensures SenderIs(RunFrom(EMPTY, steps), req, Dropped)
    decreases |steps|
  {
    if n < |steps| {
      var before := steps[..|steps| - 1];
      assert before[..n] == steps[..n];
      DroppedForGood(before, n, req);
      RunStaysPlaced(before);
      SenderMoves(RunFrom(EMPTY, before), steps[|steps| - 1], req);
    } else {
      assert steps[..n] == steps;
    }
  }

  /** If anything but the reader takes the entry out, in particular a waiter withdrawing it after
      its timer, then no result is put into the channel in the whole run, before or after. */
  lemma WithdrawnIsNeverAnswered(steps: seq<Step>, n: nat, req: Request)
    requires n < |steps| && Removes(RunFrom(EMPTY, steps[..n]), steps[n], req) && steps[n] != Take(req)
    ensures Results(steps, req) == 0
  {
    RunStaysPlaced(steps[..n]);
    RemovedByOneOfFour(RunFrom(EMPTY, steps[..n]), steps[n], req);
    assert steps[..n + 1][..n] == steps[..n];
    DroppedForGood(steps, n + 1, req);
    AtMostOneResult(steps, req);
  }

  /** A result reaches the channel only after the reader took the entry. */
  lemma {:induction false} TakenBeforeSent(steps: seq<Step>, req: Request) returns (n: nat)
    requires SenderIs(RunFrom(EMPTY, steps), req, Taken) || SenderIs(RunFrom(EMPTY, steps), req, Sent)
    ensures n < |steps| && steps[n] == Take(req) && Removes(RunFrom(EMPTY, steps[..n]), steps[n], req)
  {
    var before := steps[..|steps| - 1];
    var w := RunFrom(EMPTY, before);
    RunStaysPlaced(before);
    SenderMoves(w, steps[|steps| - 1], req);
    if SenderIs(w, req, Taken) || SenderIs(w, req, Sent) {
      n := TakenBeforeSent(before, req);
      assert before[..n] == steps[..n];
    } else {
      n := |steps| - 1;
    }
  }

  lemma WaiterMoves(w: World, step: Step, req: Request)
    requires WaitsAs(Do(w, step), req, Waiting)
    ensures WaitsAs(w, req, Waiting) || (req !in w.slots && SenderIs(Do(w, step), req, Parked))
  {
  }

  /** While a request is waited for, a result in its channel was put there while it was. */
  lemma {:induction false} SentWhileWaiting(steps: seq<Step>, req: Request) returns (i: nat)
    requires At(RunFrom(EMPTY, steps), req, Sent, Waiting)
    ensures i < |steps| && Sends(RunFrom(EMPTY, steps[..i]), steps[i], req) && WaitsAs(RunFrom(EMPTY, steps[..i]), req, Waiting)
  {
    var before := steps[..|steps| - 1];
    var w := RunFrom(EMPTY, before);
    RunStaysPlaced(before);
    SenderMoves(w, steps[|steps| - 1], req);
    WaiterMoves(w, steps[|steps| - 1], req);
    if SenderIs(w, req, Sent) {
      i := SentWhileWaiting(before, req);
      assert before[..i] == steps[..i];
    } else {
      i := |steps| - 1;
    }
  }

  /** An answered request's result was put into the channel, and received, while its timer had not
      fired; it never does afterwards. */
  lemma {:induction false} AnsweredInTime(steps: seq<Step>, req: Request) returns (i: nat, m: nat)
    requires WaitsAs(RunFrom(EMPTY, steps), req, Answered)
    ensures i < m < |steps| && steps[m] == Receive(req)
    ensures Sends(RunFrom(EMPTY, steps[..i]), steps[i], req)
    ensures WaitsAs(RunFrom(EMPTY, steps[..i]), req, Waiting) && WaitsAs(RunFrom(EMPTY, steps[..m]), req, Waiting)
    ensures forall n :: 0 <= n <= |steps| ==> !WaitsAs(RunFrom(EMPTY, steps[..n]), req, Expired)
  {
    m := Received(steps, req);
    var before := steps[..m];
    i := SentWhileWaiting(before, req);
    assert before[..i] == steps[..i];
    forall n | 0 <= n <= |steps|
      ensures !WaitsAs(RunFrom(EMPTY, steps[..n]), req, Expired)
    {
      assert steps == steps[..n] + steps[n..];
      RunFromSplit(EMPTY, steps[..n], steps[n..]);
      if WaitsAs(RunFrom(EMPTY, steps[..n]), req, Expired) {
        NoAnswerAfterTimeout(RunFrom(EMPTY, steps[..n]), steps[n..], req);
      }
    }
  }

  lemma {:induction false} Received(steps: seq<Step>, req: Request) returns (m: nat)
    requires WaitsAs(RunFrom(EMPTY, steps), req, Answered)
    ensures m < |steps| && steps[m] == Receive(req) && At(RunFrom(EMPTY, steps[..m]), req, Sent, Waiting)
  {
    var before := steps[..|steps| - 1];
    AnsweredNow(RunFrom(EMPTY, before), steps[|steps| - 1], req);
    if WaitsAs(RunFrom(EMPTY, before), req, Answered) {
      m := Received(before, req);
      assert before[..m] == steps[..m];
    } else {
      m := |steps| - 1;
    }
  }

  lemma AnsweredNow(w: World, step: Step, req: Request)
    requires WaitsAs(Do(w, step), req, Answered)
    ensures WaitsAs(w, req, Answered) || (step == Receive(req) && At(w, req, Sent, Waiting))
  {
  }

  /** A request still waited for has lost its sender only to a clearing of the window. */
  lemma {:induction false} LostToClear(steps: seq<Step>, req: Request) returns (n: nat)
    requires At(RunFrom(EMPTY, steps), req, Dropped, Waiting) || WaitsAs(RunFrom(EMPTY, steps), req, FoundDead)
    ensures n < |steps| && steps[n] == Clear && Removes(RunFrom(EMPTY, steps[..n]), steps[n], req)
  {
    var before := steps[..|steps| - 1];
    LostNow(RunFrom(EMPTY, before), steps[|steps| - 1], req);
    if At(RunFrom(EMPTY, before), req, Dropped, Waiting) || WaitsAs(RunFrom(EMPTY, before), req, FoundDead) {
      n := LostToClear(before, req);
      assert before[..n] == steps[..n];
    } else {
      n := |steps| - 1;
    }
  }

  lemma LostNow(w: World, step: Step, req: Request)
    requires At(Do(w, step), req, Dropped, Waiting) || WaitsAs(Do(w, step), req, FoundDead)
    ensures At(w, req, Dropped, Waiting) || WaitsAs(w, req, FoundDead) || (step == Clear && Removes(w, step, req))
  {
  }

  // ------------------------------------------------------------- the window itself

  /** The window's own operations, run with no other thread in between; each is the run of its
      atomic steps. */
  class Window {
    var inFlight: nat
    var pending: set<Request>
    var slots: map<Request, Slot>

    ghost function View(): World
      reads this
    {
      World(inFlight, map[], {}, pending, {}, slots)
    }

    ghost predicate Valid()
      reads this
    {
      pending <= slots.Keys
    }

    constructor ()
      ensures Valid() && View() == EMPTY
    {
      inFlight, pending, slots := 0, {}, map[];
    }

    /** `req` is the fresh identifier the window draws. */
    method Reserve(max: nat, req: Request) returns (reserved: bool)
      requires Valid() && req !in slots
      modifies this
      ensures Valid()
      ensures reserved <==> old(inFlight) < max
      ensures View() == RunFrom(old(View()), [Begin(0, max), TryReserve(0), Insert(0, req)])
      ensures reserved ==> At(View(), req, Parked, Waiting) && inFlight == old(inFlight) + 1
      ensures !reserved ==> View() == old(View())
    {
      ghost var before := View();
      ghost var begun := Do(before, Begin(0, max));
      ghost var tried := Do(begun, TryReserve(0));
      ThreeSteps(before, Begin(0, max), TryReserve(0), Insert(0, req));
      if inFlight >= max {
        assert begun.attempts - {0} == map[];
        return false;
      }
      inFlight := inFlight + 1;
      pending := pending + {req};
      slots := slots[req := Slot(Parked, Waiting)];
      assert tried.attempts == map[] && tried.holders - {0} == {};
      return true;
    }

    /** Nothing happens for an identifier that is not pending. */
    method Remove(req: Request) returns (taken: bool)
      requires Valid()
      modifies this
      ensures Valid()
      ensures taken <==> req in old(pending)
      ensures View() == RunFrom(old(View()), [Take(req), Release(req)])
    {
      TwoSteps(View(), Take(req), Release(req));
      taken := req in pending;
      if taken {
        pending := pending - {req};
        slots := slots[req := slots[req].(sender := Taken)];
        inFlight := if inFlight == 0 then 0 else inFlight - 1;
        assert {req} - {req} == {};
      }
    }

    /** Every entry's sender is dropped and every permit given back, one after another. */
    method Clear()
      modifies this
      ensures Valid()
      ensures pending == {} && slots == AllDropped(old(View())).slots
      ensures old(inFlight) >= |old(pending)| ==> inFlight == old(inFlight) - |old(pending)|
    {
      var rest := pending;
      slots := map r | r in slots :: if r in pending then slots[r].(sender := Dropped) else slots[r];
      pending := {};
      while rest != {}
        invariant pending == {} && slots == AllDropped(old(View())).slots
        invariant old(inFlight) >= |old(pending)| ==> inFlight == old(inFlight) - |old(pending)| + |rest|
        decreases rest
      {
        var r :| r in rest;
        rest := rest - {r};
        inFlight := if inFlight == 0 then 0 else inFlight - 1;
      }
    }

    /** What a waiter does when its timer has fired. A reservation whose wait is over is disarmed and
        withdraws nothing. */
    method RemovePending(req: Request) returns (removed: bool)
      requires Valid()
      modifies this
      ensures Valid()
      ensures removed <==> req in old(pending) && (WaitsAs(old(View()), req, Waiting) || WaitsAs(old(View()), req, Expired))
      ensures View() == RunFrom(old(View()), [Expire(req), Withdraw(req), Release(req)])
    {
      ThreeSteps(View(), Expire(req), Withdraw(req), Release(req));
      removed := false;
      if req !in slots || slots[req].waiter !in {Waiting, Expired} {
        return;
      }
      removed := req in pending;
      slots := slots[req := slots[req].(waiter := TimedOut)];
      if removed {
        pending := pending - {req};
        slots := slots[req := slots[req].(sender := Dropped)];
        inFlight := if inFlight == 0 then 0 else inFlight - 1;
        assert {req} - {req} == {};
      }
    }
  }

  lemma TwoSteps(w: World, first: Step, second: Step)
    ensures RunFrom(w, [first, second]) == Do(Do(w, first), second)
  {
    assert [first, second][..1] == [first] && [first][..0] == [];
    assert RunFrom(w, [first]) == Do(w, first);
  }

  lemma ThreeSteps(w: World, first: Step, second: Step, third: Step)
    ensures RunFrom(w, [first, second, third]) == Do(Do(Do(w, first), second), third)
  {
    assert [first, second, third][..2] == [first, second];
    TwoSteps(w, first, second);
  }
}
