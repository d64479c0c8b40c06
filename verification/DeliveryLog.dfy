/** The durable delivery log: an ordered table of stamped events and four counters over it. */
module DeliveryLog {
  import opened Messages
  import opened Wrappers
  import Channel

  datatype Limits = Limits(retentionSecs: nat, maxBytes: nat, maxEvents: nat)

  /** The table is the ordered store, by ascending key; `count` is an int because the source
      subtracts from it without saturation. */
  datatype Log = Log(table: seq<Row>, head: nat, floor: nat, count: int, bytes: nat)

  const FRESH := Log([], 0, 0, 0, 0)

  function TotalBytes(table: seq<Row>): nat {
    if table == [] then 0 else table[0].stored + TotalBytes(table[1..])
  }

  lemma {:induction false} TotalBytesConcat(left: seq<Row>, right: seq<Row>)
    ensures TotalBytes(left + right) == TotalBytes(left) + TotalBytes(right)
  {
    if left == [] {
      assert left + right == right;
    } else {
      assert (left + right)[1..] == left[1..] + right;
      TotalBytesConcat(left[1..], right);
    }
  }

  // -------------------------------------------------------------------- append

  function Stamped(base: nat, events: seq<Emission>, tsMs: nat): (rows: seq<Row>) {
    seq(|events|, i requires 0 <= i < |events| => Stamp(base + 1 + i, events[i], tsMs))
  }

  /** Insertion into the ordered table; an existing key is overwritten. */
  function Insert(table: seq<Row>, row: Row): (r: seq<Row>) {
    if table == [] || row.seqno < table[0].seqno then [row] + table
    else if row.seqno == table[0].seqno then [row] + table[1..]
    else [table[0]] + Insert(table[1..], row)
  }

  function InsertAll(table: seq<Row>, rows: seq<Row>): seq<Row> {
    if rows == [] then table
    else Insert(InsertAll(table, rows[..|rows| - 1]), rows[|rows| - 1])
  }

  function AppendTo(log: Log, events: seq<Emission>, tsMs: nat): Log {
    if events == [] then log
    else
      var rows := Stamped(log.head, events, tsMs);
      Log(InsertAll(log.table, rows),
          log.head + |rows|,
          if log.floor == 0 then rows[0].seqno else log.floor,
          log.count + |rows|,
          log.bytes + TotalBytes(rows))
  }

  // --------------------------------------------------------------------- prune

  predicate TooOld(row: Row, limits: Limits, nowMs: nat) {
    (if nowMs > row.tsMs then nowMs - row.tsMs else 0) / 1000 > limits.retentionSecs
  }

  datatype Shedding = Shedding(table: seq<Row>, count: int, bytes: nat, pruned: nat)

  function SaturatingSub(x: nat, y: nat): nat {
    if x >= y then x - y else 0
  }

  /** The front row goes: one off the count, its bytes off the total. */
  function ShedOne(s: Shedding): Shedding
    requires s.table != []
  {
    Shedding(s.table[1..], s.count - 1, SaturatingSub(s.bytes, s.table[0].stored), s.pruned + 1)
  }

  /** Drop the front while it is too old or the counters exceed a cap. */
  function Shed(s: Shedding, limits: Limits, nowMs: nat): Shedding
    decreases |s.table|
  {
    if s.table == [] then s
    else if TooOld(s.table[0], limits, nowMs) || s.count > limits.maxEvents || s.bytes > limits.maxBytes then
      Shed(ShedOne(s), limits, nowMs)
    else s
  }

  /** The counters after k removals, whatever the limits. */
  function ShedTimes(s: Shedding, k: nat): Shedding
    requires k <= |s.table|
    ensures |ShedTimes(s, k).table| == |s.table| - k
  {
    if k == 0 then s else ShedOne(ShedTimes(s, k - 1))
  }

  function FirstKey(table: seq<Row>): nat {
    if table == [] then 0 else table[0].seqno
  }

  function PruneTo(log: Log, limits: Limits, nowMs: nat): Log {
    var s := Shed(Shedding(log.table, log.count, log.bytes, 0), limits, nowMs);
    Log(s.table, log.head, FirstKey(s.table), s.count, s.bytes)
  }

  // -------------------------------------------------------------------- reopen

  function FirstNonZeroKey(table: seq<Row>): nat {
    if table == [] then 0 else if table[0].seqno != 0 then table[0].seqno else FirstNonZeroKey(table[1..])
  }

  function LastKey(table: seq<Row>): nat {
    if table == [] then 0 else table[|table| - 1].seqno
  }

  /** Head, floor and counters as the scan at startup recovers them from the table alone. */
  function Recover(table: seq<Row>): Log {
    Log(table, LastKey(table), FirstNonZeroKey(table), |table|, TotalBytes(table))
  }

  function Reopen(log: Log, limits: Limits, nowMs: nat): Log {
    PruneTo(Recover(log.table), limits, nowMs)
  }

  // ---------------------------------------------------------------------- read

  predicate Selected(row: Row, afterSeq: nat, patterns: Option<seq<string>>) {
    row.seqno > afterSeq && (patterns.None? || Channel.AnyMatches(patterns.value, row.channel))
  }

  /** The rows after a cursor that match, in table order. */
  function Select(table: seq<Row>, afterSeq: nat, patterns: Option<seq<string>>): seq<Row> {
    if table == [] then []
    else if Selected(table[0], afterSeq, patterns) then [table[0]] + Select(table[1..], afterSeq, patterns)
    else Select(table[1..], afterSeq, patterns)
  }

  // ---------------------------------------------------------------- invariants

  /** Stored keys are exactly floor..head and the counters are the table's true totals. */
  ghost predicate Gapless(log: Log) {
    && Counted(log)
    && (forall i :: 0 <= i < |log.table| ==> log.table[i].seqno == log.floor + i)
    && (if log.table == [] then log.floor == 0 else log.floor >= 1 && log.head == log.floor + |log.table| - 1)
  }

  ghost predicate Counted(log: Log) {
    log.count == |log.table| && log.bytes == TotalBytes(log.table)
  }

  /** What every table the log has written looks like. */
  ghost predicate GaplessTable(table: seq<Row>) {
    forall i :: 0 <= i < |table| ==> table[i].seqno == table[0].seqno + i >= 1
  }

  lemma {:induction false} InsertAtEnd(table: seq<Row>, row: Row)
    requires forall i :: 0 <= i < |table| ==> table[i].seqno < row.seqno
    ensures Insert(table, row) == table + [row]
  {
    if table != [] {
      assert forall i :: 0 <= i < |table[1..]| ==> table[1..][i] == table[i + 1];
      InsertAtEnd(table[1..], row);
    }
  }

  lemma {:induction false} InsertAllAtEnd(table: seq<Row>, rows: seq<Row>, base: nat)
    requires forall i :: 0 <= i < |table| ==> table[i].seqno <= base
    requires forall i :: 0 <= i < |rows| ==> rows[i].seqno == base + 1 + i
    ensures InsertAll(table, rows) == table + rows
  {
    if rows == [] {
      assert table + rows == table;
    } else {
      var n := |rows| - 1;
      InsertAllAtEnd(table, rows[..n], base);
      InsertAtEnd(table + rows[..n], rows[n]);
      assert rows == rows[..n] + [rows[n]];
      assert table + rows == (table + rows[..n]) + [rows[n]];
    }
  }

  /** Appending extends the table by the new rows, numbered on from the head, and nothing else. */
  lemma AppendKeepsGapless(log: Log, events: seq<Emission>, tsMs: nat)
    requires Gapless(log)
    ensures var l := AppendTo(log, events, tsMs);
      && Gapless(l)
      && l.head == log.head + |events|
      && l.table == log.table + Stamped(log.head, events, tsMs)
  {
    var rows := Stamped(log.head, events, tsMs);
    if events == [] {
      assert log.table + rows == log.table;
    } else {
      InsertAllAtEnd(log.table, rows, log.head);
      TotalBytesConcat(log.table, rows);
    }
  }

  /** Whether the row at position k must go when it is at the front. */
  ghost predicate MustShed(table: seq<Row>, limits: Limits, nowMs: nat, k: nat)
    requires k < |table|
  {
    || TooOld(table[k], limits, nowMs)
    || |table| - k > limits.maxEvents
    || TotalBytes(table[k..]) > limits.maxBytes
  }

  /** k is the least number of front rows whose removal satisfies every limit. */
  ghost predicate LeastShed(table: seq<Row>, limits: Limits, nowMs: nat, k: nat) {
    && k <= |table|
    && (forall j :: 0 <= j < k ==> MustShed(table, limits, nowMs, j))
    && (k < |table| ==> !MustShed(table, limits, nowMs, k))
  }

  lemma {:induction false} ShedFrom(table: seq<Row>, limits: Limits, nowMs: nat, k: nat) returns (n: nat)
    requires k <= |table|
    requires forall j :: 0 <= j < k ==> MustShed(table, limits, nowMs, j)
    ensures LeastShed(table, limits, nowMs, n)
    ensures Shed(Shedding(table[k..], |table| - k, TotalBytes(table[k..]), k), limits, nowMs)
         == Shedding(table[n..], |table| - n, TotalBytes(table[n..]), n)
    decreases |table| - k
  {
    n := k;
    if k < |table| && MustShed(table, limits, nowMs, k) {
      assert table[k..][1..] == table[k + 1..];
      n := ShedFrom(table, limits, nowMs, k + 1);
    }
  }

  lemma {:induction false} ShedTimesExact(table: seq<Row>, k: nat)
    requires k <= |table|
    ensures ShedTimes(Shedding(table, |table|, TotalBytes(table), 0), k)
         == Shedding(table[k..], |table| - k, TotalBytes(table[k..]), k)
  {
    if k == 0 {
      assert table[0..] == table;
    } else {
      ShedTimesExact(table, k - 1);
      assert table[k - 1..][1..] == table[k..];
    }
  }

  /** Each subtraction of a pruning is exact: the count is not zero and the bytes hold at least the
      row's own. */
  ghost predicate SubtractsExactly(s: Shedding) {
    s.table != [] && s.count >= 1 && s.bytes >= s.table[0].stored
  }

  /** Pruning removes exactly the least sufficient prefix, one row after another, and at every
      removal both subtractions are exact. A gapless log stays so. */
  lemma PruneRemovesLeastPrefix(log: Log, limits: Limits, nowMs: nat) returns (k: nat)
    requires Counted(log)
    ensures LeastShed(log.table, limits, nowMs, k)
    ensures var start := Shedding(log.table, log.count, log.bytes, 0);
      && Shed(start, limits, nowMs) == ShedTimes(start, k)
      && forall j :: 0 <= j < k ==> SubtractsExactly(ShedTimes(start, j))
    ensures var l := PruneTo(log, limits, nowMs);
      && Counted(l) && l.table == log.table[k..] && l.head == log.head
      && (Gapless(log) ==> Gapless(l))
  {
    assert log.table[0..] == log.table;
    k := ShedFrom(log.table, limits, nowMs, 0);
    ShedTimesExact(log.table, k);
    forall j | 0 <= j < k
      ensures SubtractsExactly(ShedTimes(Shedding(log.table, log.count, log.bytes, 0), j))
    {
      ShedTimesExact(log.table, j);
    }
    assert k < |log.table| && Gapless(log) ==> log.table[k].seqno == log.floor + k;
  }

  /** The same in milliseconds: the front row goes while a whole second more than the retention has
      passed since its stamp, or a cap is exceeded, and the pruning stops at the first row for which
      neither holds. */
  lemma PruneInMilliseconds(log: Log, limits: Limits, nowMs: nat) returns (k: nat)
    requires Counted(log)
    ensures k <= |log.table| && PruneTo(log, limits, nowMs).table == log.table[k..]
    ensures forall j :: 0 <= j < k ==>
      || nowMs >= log.table[j].tsMs + 1000 * (limits.retentionSecs + 1)
      || |log.table| - j > limits.maxEvents
      || TotalBytes(log.table[j..]) > limits.maxBytes
    ensures k < |log.table| ==>
      && nowMs < log.table[k].tsMs + 1000 * (limits.retentionSecs + 1)
      && |log.table| - k <= limits.maxEvents
      && TotalBytes(log.table[k..]) <= limits.maxBytes
  {
    k := PruneRemovesLeastPrefix(log, limits, nowMs);
    forall j | 0 <= j < |log.table|
      ensures TooOld(log.table[j], limits, nowMs) <==> nowMs >= log.table[j].tsMs + 1000 * (limits.retentionSecs + 1)
    {
      WholeSeconds(log.table[j].tsMs, nowMs, limits.retentionSecs);
    }
    hide TooOld;
    forall j | 0 <= j < k
      ensures || nowMs >= log.table[j].tsMs + 1000 * (limits.retentionSecs + 1)
              || |log.table| - j > limits.maxEvents
              || TotalBytes(log.table[j..]) > limits.maxBytes
    {
      assert MustShed(log.table, limits, nowMs, j);
    }
  }

  lemma WholeSeconds(tsMs: nat, nowMs: nat, secs: nat)
    ensures SaturatingSub(nowMs, tsMs) / 1000 > secs <==> nowMs >= tsMs + 1000 * (secs + 1)
  {
  }

  /** With both caps met and timestamps nondecreasing, pruning keeps exactly the rows younger than the
      retention and one second, in order. */
  lemma TtlAloneKeepsTheYoung(log: Log, limits: Limits, nowMs: nat)
    requires Counted(log)
    requires |log.table| <= limits.maxEvents && TotalBytes(log.table) <= limits.maxBytes
    requires forall i, j :: 0 <= i <= j < |log.table| ==> log.table[i].tsMs <= log.table[j].tsMs
    ensures PruneTo(log, limits, nowMs).table == Younger(log.table, nowMs, limits.retentionSecs)
  {
    var k := PruneInMilliseconds(log, limits, nowMs);
    forall j | 0 <= j <= |log.table|
      ensures TotalBytes(log.table[j..]) <= TotalBytes(log.table)
    {
      assert log.table == log.table[..j] + log.table[j..];
      TotalBytesConcat(log.table[..j], log.table[j..]);
    }
    YoungerIsSuffix(log.table, nowMs, limits.retentionSecs, k);
  }

  function Younger(table: seq<Row>, nowMs: nat, secs: nat): seq<Row> {
    if table == [] then []
    else if nowMs < table[0].tsMs + 1000 * (secs + 1) then [table[0]] + Younger(table[1..], nowMs, secs)
    else Younger(table[1..], nowMs, secs)
  }

  lemma {:induction false} YoungerIsSuffix(table: seq<Row>, nowMs: nat, secs: nat, k: nat)
    requires k <= |table|
    requires forall j :: 0 <= j < k ==> nowMs >= table[j].tsMs + 1000 * (secs + 1)
    requires forall j :: k <= j < |table| ==> nowMs < table[j].tsMs + 1000 * (secs + 1)
    ensures Younger(table, nowMs, secs) == table[k..]
  {
    if table != [] {
      YoungerIsSuffix(table[1..], nowMs, secs, if k > 0 then k - 1 else 0);
    }
  }

  /** With timestamps nondecreasing in sequence order every survivor is within the TTL and
      both caps hold. */
  lemma SurvivorsWithinLimits(log: Log, limits: Limits, nowMs: nat)
    requires Gapless(log)
    requires forall i, j :: 0 <= i <= j < |log.table| ==> log.table[i].tsMs <= log.table[j].tsMs
    ensures var l := PruneTo(log, limits, nowMs);
      && (forall i :: 0 <= i < |l.table| ==> !TooOld(l.table[i], limits, nowMs))
      && |l.table| <= limits.maxEvents
      && TotalBytes(l.table) <= limits.maxBytes
  {
    var k := PruneRemovesLeastPrefix(log, limits, nowMs);
    var l := PruneTo(log, limits, nowMs);
    forall i | 0 <= i < |l.table|
      ensures !TooOld(l.table[i], limits, nowMs)
    {
      assert l.table[i] == log.table[k + i] && l.table[0] == log.table[k];
      assert !TooOld(log.table[k], limits, nowMs);
      assert l.table[0].tsMs <= l.table[i].tsMs;
      AgeIsMonotone(log.table[k].tsMs, l.table[i].tsMs, nowMs);
    }
  }

  lemma AgeIsMonotone(older: nat, newer: nat, nowMs: nat)
    requires older <= newer
    ensures SaturatingSub(nowMs, newer) / 1000 <= SaturatingSub(nowMs, older) / 1000
  {
  }

  /** The scan at startup restores the counters exactly when the table still holds a row or
      nothing was ever appended. */
  lemma RecoverRestores(log: Log)
    requires Gapless(log)
    ensures Gapless(Recover(log.table))
    ensures Recover(log.table) == log <==> (log.table != [] || log.head == 0)
  {
    if log.table != [] {
      assert log.table[0].seqno == log.floor;
    }
  }

  // ---------------------------------------------------------------------- runs

  datatype LogOp = Append(events: seq<Emission>, tsMs: nat) | Prune(nowMs: nat) | Restart(nowMs: nat)

  function DoOp(log: Log, op: LogOp, limits: Limits): Log {
    match op
    case Append(events, tsMs) => AppendTo(log, events, tsMs)
    case Prune(nowMs) => PruneTo(log, limits, nowMs)
    case Restart(nowMs) => Reopen(log, limits, nowMs)
  }

  function Assigned(log: Log, op: LogOp): seq<nat> {
    if op.Append? then Numbers(log.head, |op.events|) else []
  }

  function Numbers(base: nat, n: nat): seq<nat> {
    seq(n, i requires 0 <= i < n => base + 1 + i)
  }

  function RunLog(log: Log, ops: seq<LogOp>, limits: Limits): Log {
    if ops == [] then log else DoOp(RunLog(log, ops[..|ops| - 1], limits), ops[|ops| - 1], limits)
  }

  /** Every sequence number a run hands out, in order. */
  function AllAssigned(log: Log, ops: seq<LogOp>, limits: Limits): seq<nat> {
    if ops == [] then []
    else
      var before := ops[..|ops| - 1];
      AllAssigned(log, before, limits) + Assigned(RunLog(log, before, limits), ops[|ops| - 1])
  }

  /** The one way a restart can lose the numbering: the table was pruned empty. */
  predicate RestartSafe(log: Log) {
    log.table != [] || log.head == 0
  }

  ghost predicate SafeRestarts(log: Log, ops: seq<LogOp>, limits: Limits) {
    forall n :: 0 <= n < |ops| && ops[n].Restart? ==> RestartSafe(RunLog(log, ops[..n], limits))
  }

  lemma {:induction false} RunStaysGapless(ops: seq<LogOp>, limits: Limits)
    ensures Gapless(RunLog(FRESH, ops, limits))
  {
    if ops != [] {
      var n := |ops| - 1;
      RunStaysGapless(ops[..n], limits);
      var log := RunLog(FRESH, ops[..n], limits);
      match ops[n] {
        case Append(events, tsMs) => AppendKeepsGapless(log, events, tsMs);
        case Prune(nowMs) => var k := PruneRemovesLeastPrefix(log, limits, nowMs);
        case Restart(nowMs) =>
          RecoverRestores(log);
          var k := PruneRemovesLeastPrefix(Recover(log.table), limits, nowMs);
      }
    }
  }

  lemma OpNumbersOnward(log: Log, op: LogOp, limits: Limits)
    requires Gapless(log)
    requires op.Restart? ==> RestartSafe(log)
    ensures Gapless(DoOp(log, op, limits))
    ensures Numbers(0, log.head) + Assigned(log, op) == Numbers(0, DoOp(log, op, limits).head)
  {
    match op {
      case Append(events, tsMs) => AppendKeepsGapless(log, events, tsMs);
      case Prune(nowMs) => var k := PruneRemovesLeastPrefix(log, limits, nowMs);
      case Restart(nowMs) =>
        RecoverRestores(log);
        var k := PruneRemovesLeastPrefix(Recover(log.table), limits, nowMs);
    }
  }

  /** Over any run whose restarts are safe, the numbers handed out are 1, 2, 3, ... up to the
      head: gapless and never reused. */
  lemma {:induction false} RunNumbersOnward(ops: seq<LogOp>, limits: Limits)
    requires SafeRestarts(FRESH, ops, limits)
    ensures AllAssigned(FRESH, ops, limits) == Numbers(0, RunLog(FRESH, ops, limits).head)
  {
    if ops != [] {
      var n := |ops| - 1;
      var before := ops[..n];
      assert forall m :: 0 <= m <= n ==> before[..m] == ops[..m];
      assert forall m :: 0 <= m < n ==> before[m] == ops[m];
      RunNumbersOnward(before, limits);
      RunStaysGapless(before, limits);
      OpNumbersOnward(RunLog(FRESH, before, limits), ops[n], limits);
    }
  }

  /** A restart makes the next append reuse a number exactly when it is unsafe. */
  lemma {:induction false} RestartReusesNumbers(ops: seq<LogOp>, limits: Limits, nowMs: nat)
    requires SafeRestarts(FRESH, ops, limits)
    ensures var log := RunLog(FRESH, ops, limits);
      Reopen(log, limits, nowMs).head + 1 in AllAssigned(FRESH, ops, limits) <==> !RestartSafe(log)
  {
    var log := RunLog(FRESH, ops, limits);
    RunNumbersOnward(ops, limits);
    RunStaysGapless(ops, limits);
    RecoverRestores(log);
    var k := PruneRemovesLeastPrefix(Recover(log.table), limits, nowMs);
    assert forall i :: 0 <= i < log.head ==> Numbers(0, log.head)[i] == i + 1;
    if !RestartSafe(log) {
      assert Numbers(0, log.head)[0] == 1;
    }
  }

  // ---------------------------------------------------------- the log in place

  method StampBatch(base: nat, events: seq<Emission>, tsMs: nat) returns (stamped: seq<Row>, bytesAdded: nat)
    ensures stamped == Stamped(base, events, tsMs)
    ensures bytesAdded == TotalBytes(stamped)
  {
    stamped, bytesAdded := [], 0;
    for offset := 0 to |events|
      invariant stamped == Stamped(base, events, tsMs)[..offset]
      invariant bytesAdded == TotalBytes(stamped)
    {
      var row := Stamp(base + 1 + offset, events[offset], tsMs);
      TotalBytesConcat(stamped, [row]);
      stamped := stamped + [row];
      bytesAdded := bytesAdded + row.stored;
    }
  }

  /** What one more row adds to the recovery scan. */
  lemma RecoverOneMore(stored: seq<Row>, i: nat)
    requires i < |stored|
    ensures var before, after := Recover(stored[..i]), Recover(stored[..i + 1]);
      && after.head == stored[i].seqno
      && after.floor == (if before.floor == 0 then stored[i].seqno else before.floor)
      && after.count == before.count + 1
      && after.bytes == before.bytes + stored[i].stored
  {
    assert stored[..i + 1] == stored[..i] + [stored[i]];
    TotalBytesConcat(stored[..i], [stored[i]]);
    FirstNonZeroKeyConcat(stored[..i], stored[i]);
    assert [stored[i]][1..] == [];
  }

  lemma RecoverIsGapless(stored: seq<Row>)
    ensures Counted(Recover(stored)) && (GaplessTable(stored) ==> Gapless(Recover(stored)))
  {
  }

  class Store {
    var table: seq<Row>
    var head: nat
    var floor: nat
    var retainedCount: int
    var retainedBytes: nat
    const limits: Limits

    ghost function State(): Log
      reads this
    {
      Log(table, head, floor, retainedCount, retainedBytes)
    }

    ghost predicate Valid()
      reads this
    {
      Gapless(State())
    }

    /** Opening scans the table once for head, floor and counters, then prunes. Any table is opened;
        one this log has written makes a gapless log again. */
    constructor (stored: seq<Row>, limits: Limits, nowMs: nat)
      ensures Counted(State()) && (GaplessTable(stored) ==> Valid())
      ensures this.limits == limits
      ensures State() == PruneTo(Recover(stored), limits, nowMs)
    {
      this.limits := limits;
      table := stored;
      head, floor, retainedCount, retainedBytes := 0, 0, 0, 0;
      new;
      for i := 0 to |stored|
        invariant table == stored && this.limits == limits
        invariant State() == Recover(stored[..i]).(table := stored)
      {
        RecoverOneMore(stored, i);
        if floor == 0 {
          floor := stored[i].seqno;
        }
        head := stored[i].seqno;
        retainedCount := retainedCount + 1;
        retainedBytes := retainedBytes + stored[i].stored;
      }
      assert stored[..|stored|] == stored;
      RecoverIsGapless(stored);
      var pruned := PruneFront(nowMs);
    }

    /** Stamp a batch with the next run of numbers and commit it as one transaction; `commits` says
        whether the disk lets it. A failed one changes nothing. */
    method Append(events: seq<Emission>, tsMs: nat, commits: bool) returns (stamped: Option<seq<Row>>)
      requires Valid()
      modifies this
      ensures Valid()
      ensures stamped.Some? <==> commits || events == []
      ensures stamped.None? ==> State() == old(State())
      ensures stamped.Some? ==>
        && State() == AppendTo(old(State()), events, tsMs)
        && stamped.value == Stamped(old(head), events, tsMs)
        && table == old(table) + stamped.value
    {
      AppendKeepsGapless(State(), events, tsMs);
      if events == [] {
        return Some([]);
      }
      var rows, bytesAdded := StampBatch(head, events, tsMs);
      if !commits {
        return None;
      }
      StoreRows(rows, bytesAdded);
      return Some(rows);
    }

    /** The transaction's insertions and, once it is committed, the counters. */
    method StoreRows(rows: seq<Row>, bytesAdded: nat)
      requires rows != []
      modifies this
      ensures State() == Log(InsertAll(old(table), rows), old(head) + |rows|,
                             if old(floor) == 0 then rows[0].seqno else old(floor),
                             old(retainedCount) + |rows|, old(retainedBytes) + bytesAdded)
    {
      for i := 0 to |rows|
        invariant table == InsertAll(old(table), rows[..i])
        invariant State() == old(State()).(table := table)
      {
        assert rows[..i + 1][..i] == rows[..i];
        table := Insert(table, rows[i]);
      }
      assert rows[..|rows|] == rows;
      head := head + |rows|;
      if floor == 0 {
        floor := rows[0].seqno;
      }
      retainedCount := retainedCount + |rows|;
      retainedBytes := retainedBytes + bytesAdded;
    }

    /** The stored rows after the cursor, in ascending order, that match some pattern. */
    method ReadAfter(afterSeq: nat, patterns: Option<seq<string>>) returns (rows: seq<Row>)
      ensures rows == Select(table, afterSeq, patterns)
    {
      rows := [];
      for i := 0 to |table|
        invariant rows == Select(table[..i], afterSeq, patterns)
      {
        var row := table[i];
        assert table[..i + 1] == table[..i] + [row];
        SelectConcat(table[..i], [row], afterSeq, patterns);
        assert [row][1..] == [];
        if row.seqno <= afterSeq {
          continue;
        }
        if patterns.Some? && !Channel.AnyMatches(patterns.value, row.channel) {
          continue;
        }
        rows := rows + [row];
      }
      assert table[..|table|] == table;
    }

    /** Remove the front while it is past the TTL or a cap is exceeded. */
    method PruneFront(nowMs: nat) returns (pruned: nat)
      requires Counted(State())
      modifies this
      ensures Counted(State()) && (old(Valid()) ==> Valid())
      ensures State() == PruneTo(old(State()), limits, nowMs)
      ensures LeastShed(old(table), limits, nowMs, pruned) && table == old(table)[pruned..]
    {
      ghost var k := PruneRemovesLeastPrefix(State(), limits, nowMs);
      var rows, count, bytes;
      pruned, rows, count, bytes := ShedRows(nowMs);
      table, retainedCount, retainedBytes, floor := rows, count, bytes, FirstKey(rows);
    }

    /** The loop of one pruning transaction, over copies of the counters. */
    method ShedRows(nowMs: nat) returns (pruned: nat, rows: seq<Row>, count: int, bytes: nat)
      requires Counted(State())
      ensures Shedding(rows, count, bytes, pruned) == Shed(Shedding(table, retainedCount, retainedBytes, 0), limits, nowMs)
      ensures LeastShed(table, limits, nowMs, pruned) && rows == table[pruned..]
    {
      rows, count, bytes := table, retainedCount, retainedBytes;
      pruned := 0;
      assert table[0..] == table;
      while rows != []
        invariant pruned <= |table| && rows == table[pruned..]
        invariant count == |rows| && bytes == TotalBytes(rows)
        invariant forall j :: 0 <= j < pruned ==> MustShed(table, limits, nowMs, j)
        invariant Shed(Shedding(rows, count, bytes, pruned), limits, nowMs)
               == Shed(Shedding(table, retainedCount, retainedBytes, 0), limits, nowMs)
        decreases |rows|
      {
        var front := rows[0];
        if !(TooOld(front, limits, nowMs) || count > limits.maxEvents || bytes > limits.maxBytes) {
          break;
        }
        assert rows[1..] == table[pruned + 1..];
        rows := rows[1..];
        count := count - 1;
        bytes := SaturatingSub(bytes, front.stored);
        pruned := pruned + 1;
      }
    }
  }

  lemma {:induction false} SelectConcat(left: seq<Row>, right: seq<Row>, afterSeq: nat, patterns: Option<seq<string>>)
    ensures Select(left + right, afterSeq, patterns) == Select(left, afterSeq, patterns) + Select(right, afterSeq, patterns)
  {
    if left == [] {
      assert left + right == right;
    } else {
      assert (left + right)[1..] == left[1..] + right;
      SelectConcat(left[1..], right, afterSeq, patterns);
    }
  }

  lemma {:induction false} FirstNonZeroKeyConcat(table: seq<Row>, row: Row)
    ensures FirstNonZeroKey(table + [row])
         == if FirstNonZeroKey(table) == 0 then row.seqno else FirstNonZeroKey(table)
  {
    if table == [] {
      assert table + [row] == [row];
    } else {
      assert (table + [row])[1..] == table[1..] + [row];
      FirstNonZeroKeyConcat(table[1..], row);
    }
  }
}
