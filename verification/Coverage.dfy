/** What a stream of messages still to come means to a client at a given cursor: reading it,
    the client never passes a committed matching event it has not been given or told about. */
module Coverage {
  import opened Wrappers
  import opened Messages
  import opened DeliveryLog
  import opened SubscriberSocket
  import opened Pipeline

  /** The committed rows are numbered 1, 2, 3, ... and their ids differ. */
  ghost predicate Numbered(rows: seq<Row>) {
    forall i :: 0 <= i < |rows| ==> rows[i].seqno == i + 1
  }

  /** Every matching row numbered above c and up to `upTo` lies in an announced gap. */
  ghost predicate Clear(cfg: Config, rows: seq<Row>, c: nat, upTo: int, gaps: set<(nat, nat)>) {
    forall i :: 0 <= i < |rows| && c < rows[i].seqno <= upTo && Wanted(cfg, rows[i]) ==> InGap(rows[i].seqno, gaps)
  }

  ghost predicate Covers(cfg: Config, rows: seq<Row>, c: nat, gaps: set<(nat, nat)>, msgs: seq<ServerMsg>)
    decreases |msgs|
  {
    if msgs == [] then Clear(cfg, rows, c, |rows|, gaps)
    else
      match msgs[0]
      case EventMsg(row) =>
        && Clear(cfg, rows, c, row.seqno - 1, gaps)
        && Covers(cfg, rows, Max(c, row.seqno), gaps, msgs[1..])
      case ReplayGap(fromSeq, earliestSeq) => Covers(cfg, rows, c, gaps + {(fromSeq, earliestSeq)}, msgs[1..])
      case Lagged(_) => true
      case Closing(_) => true
      case _ => Covers(cfg, rows, c, gaps, msgs[1..])
  }

  function WantedMsgs(cfg: Config, rows: seq<Row>): seq<ServerMsg> {
    if rows == [] then []
    else if Wanted(cfg, rows[0]) then [EventMsg(rows[0])] + WantedMsgs(cfg, rows[1..])
    else WantedMsgs(cfg, rows[1..])
  }

  /** The events numbered above a mark, in order. */
  function EventsAbove(msgs: seq<ServerMsg>, mark: nat): seq<ServerMsg> {
    if msgs == [] then []
    else if msgs[0].EventMsg? && msgs[0].row.seqno > mark then [msgs[0]] + EventsAbove(msgs[1..], mark)
    else EventsAbove(msgs[1..], mark)
  }

  /** Events of committed rows. */
  ghost predicate Real(rows: seq<Row>, msgs: seq<ServerMsg>) {
    forall i :: 0 <= i < |msgs| && msgs[i].EventMsg? ==> msgs[i].row in rows
  }

  /** What a queue may hold: events and inert control frames. */
  ghost predicate Plain(msgs: seq<ServerMsg>) {
    forall i :: 0 <= i < |msgs| ==> msgs[i].EventMsg? || Inert(msgs[i])
  }

  ghost predicate AllInert(msgs: seq<ServerMsg>) {
    forall i :: 0 <= i < |msgs| ==> Inert(msgs[i])
  }

  // ---------------------------------------------------------------- list lemmas

  lemma {:induction false} WantedMsgsConcat(cfg: Config, left: seq<Row>, right: seq<Row>)
    ensures WantedMsgs(cfg, left + right) == WantedMsgs(cfg, left) + WantedMsgs(cfg, right)
  {
    if left == [] {
      assert left + right == right;
    } else {
      assert (left + right)[1..] == left[1..] + right;
      WantedMsgsConcat(cfg, left[1..], right);
    }
  }

  lemma {:induction false} WantedMsgsReal(cfg: Config, rows: seq<Row>)
    ensures Real(rows, WantedMsgs(cfg, rows)) && Plain(WantedMsgs(cfg, rows))
  {
    if rows != [] {
      WantedMsgsReal(cfg, rows[1..]);
    }
  }

  lemma {:induction false} EventsAboveConcat(left: seq<ServerMsg>, right: seq<ServerMsg>, mark: nat)
    ensures EventsAbove(left + right, mark) == EventsAbove(left, mark) + EventsAbove(right, mark)
  {
    if left == [] {
      assert left + right == right;
    } else {
      assert (left + right)[1..] == left[1..] + right;
      EventsAboveConcat(left[1..], right, mark);
    }
  }

  lemma {:induction false} EventsAboveNone(msgs: seq<ServerMsg>, mark: nat)
    requires forall i :: 0 <= i < |msgs| && msgs[i].EventMsg? ==> msgs[i].row.seqno <= mark
    ensures EventsAbove(msgs, mark) == []
  {
    if msgs != [] {
      EventsAboveNone(msgs[1..], mark);
    }
  }

  lemma {:induction false} EventsAboveReal(rows: seq<Row>, msgs: seq<ServerMsg>, mark: nat)
    requires Real(rows, msgs)
    ensures Real(rows, EventsAbove(msgs, mark)) && Plain(EventsAbove(msgs, mark))
  {
    if msgs != [] {
      EventsAboveReal(rows, msgs[1..], mark);
    }
  }

  lemma {:induction false} EventsAboveAll(cfg: Config, rows: seq<Row>, mark: nat)
    requires forall i :: 0 <= i < |rows| ==> rows[i].seqno > mark
    ensures EventsAbove(WantedMsgs(cfg, rows), mark) == WantedMsgs(cfg, rows)
  {
    if rows != [] {
      EventsAboveAll(cfg, rows[1..], mark);
      if Wanted(cfg, rows[0]) {
        EventsAboveConcat([EventMsg(rows[0])], WantedMsgs(cfg, rows[1..]), mark);
        assert [EventMsg(rows[0])][1..] == [];
      }
    }
  }

  lemma {:induction false} WantedAtOrBelow(cfg: Config, rows: seq<Row>, mark: nat)
    requires forall i :: 0 <= i < |rows| && Wanted(cfg, rows[i]) ==> rows[i].seqno <= mark
    ensures EventsAbove(WantedMsgs(cfg, rows), mark) == []
  {
    if rows != [] {
      WantedAtOrBelow(cfg, rows[1..], mark);
      if Wanted(cfg, rows[0]) {
        EventsAboveConcat([EventMsg(rows[0])], WantedMsgs(cfg, rows[1..]), mark);
        EventsAboveNone([EventMsg(rows[0])], mark);
      }
    }
  }

  lemma WantedAbove(cfg: Config, rows: seq<Row>, mark: nat)
    requires Numbered(rows) && mark <= |rows|
    ensures EventsAbove(WantedMsgs(cfg, rows), mark) == WantedMsgs(cfg, rows[mark..])
  {
    assert rows == rows[..mark] + rows[mark..];
    WantedMsgsConcat(cfg, rows[..mark], rows[mark..]);
    EventsAboveConcat(WantedMsgs(cfg, rows[..mark]), WantedMsgs(cfg, rows[mark..]), mark);
    WantedAtOrBelow(cfg, rows[..mark], mark);
    EventsAboveAll(cfg, rows[mark..], mark);
  }

  // ------------------------------------------------------------ coverage lemmas

  lemma {:induction false} CoversInert(cfg: Config, rows: seq<Row>, c: nat, gaps: set<(nat, nat)>,
                                       inert: seq<ServerMsg>, rest: seq<ServerMsg>)
    requires AllInert(inert) && Covers(cfg, rows, c, gaps, rest)
    ensures Covers(cfg, rows, c, gaps, inert + rest)
    decreases |inert|
  {
    if inert == [] {
      assert inert + rest == rest;
    } else {
      assert (inert + rest)[1..] == inert[1..] + rest;
      CoversInert(cfg, rows, c, gaps, inert[1..], rest);
    }
  }

  /** Ending the session early keeps the promise for what was read so far. */
  lemma {:induction false} CoversCut(cfg: Config, rows: seq<Row>, c: nat, gaps: set<(nat, nat)>,
                                     kept: seq<ServerMsg>, rest: seq<ServerMsg>, end: ServerMsg, after: seq<ServerMsg>)
    requires Covers(cfg, rows, c, gaps, kept + rest) && EndsSession(end)
    ensures Covers(cfg, rows, c, gaps, kept + ([end] + after))
    decreases |kept|
  {
    if kept == [] {
      assert kept + ([end] + after) == [end] + after;
    } else {
      assert (kept + rest)[1..] == kept[1..] + rest;
      assert (kept + ([end] + after))[1..] == kept[1..] + ([end] + after);
      match kept[0] {
        case EventMsg(row) => CoversCut(cfg, rows, Max(c, row.seqno), gaps, kept[1..], rest, end, after);
        case ReplayGap(f, e) => CoversCut(cfg, rows, c, gaps + {(f, e)}, kept[1..], rest, end, after);
        case Lagged(_) =>
        case Closing(_) =>
        case _ => CoversCut(cfg, rows, c, gaps, kept[1..], rest, end, after);
      }
    }
  }

  lemma ClearWithMoreGaps(cfg: Config, rows: seq<Row>, c: nat, upTo: int, gaps: set<(nat, nat)>, gap: (nat, nat))
    requires Clear(cfg, rows, c, upTo, gaps)
    ensures Clear(cfg, rows, c, upTo, gaps + {gap})
  {
    forall i | 0 <= i < |rows| && c < rows[i].seqno <= upTo && Wanted(cfg, rows[i])
      ensures InGap(rows[i].seqno, gaps + {gap})
    {
      var g :| g in gaps && g.0 < rows[i].seqno < g.1;
      assert g in gaps + {gap};
    }
  }

  /** A client clear to the end of the log may be sent anything. */
  lemma {:induction false} CoversWhenClear(cfg: Config, rows: seq<Row>, c: nat, gaps: set<(nat, nat)>, msgs: seq<ServerMsg>)
    requires Numbered(rows) && Clear(cfg, rows, c, |rows|, gaps)
    ensures Covers(cfg, rows, c, gaps, msgs)
    decreases |msgs|
  {
    if msgs != [] {
      match msgs[0] {
        case EventMsg(row) => CoversWhenClear(cfg, rows, Max(c, row.seqno), gaps, msgs[1..]);
        case ReplayGap(f, e) =>
          ClearWithMoreGaps(cfg, rows, c, |rows|, gaps, (f, e));
          CoversWhenClear(cfg, rows, c, gaps + {(f, e)}, msgs[1..]);
        case Lagged(_) =>
        case Closing(_) =>
        case _ => CoversWhenClear(cfg, rows, c, gaps, msgs[1..]);
      }
    }
  }

  /** What covers the log covers it whatever is sent afterwards. */
  lemma {:induction false} CoversAppend(cfg: Config, rows: seq<Row>, c: nat, gaps: set<(nat, nat)>,
                                        left: seq<ServerMsg>, right: seq<ServerMsg>)
    requires Numbered(rows) && Covers(cfg, rows, c, gaps, left)
    ensures Covers(cfg, rows, c, gaps, left + right)
    decreases |left|
  {
    if left == [] {
      CoversWhenClear(cfg, rows, c, gaps, left + right);
    } else {
      assert (left + right)[1..] == left[1..] + right;
      match left[0] {
        case EventMsg(row) => CoversAppend(cfg, rows, Max(c, row.seqno), gaps, left[1..], right);
        case ReplayGap(f, e) => CoversAppend(cfg, rows, c, gaps + {(f, e)}, left[1..], right);
        case Lagged(_) =>
        case Closing(_) =>
        case _ => CoversAppend(cfg, rows, c, gaps, left[1..], right);
      }
    }
  }

  /** A client further on needs no more. */
  lemma {:induction false} CoversHigher(cfg: Config, rows: seq<Row>, c: nat, higher: nat, gaps: set<(nat, nat)>, msgs: seq<ServerMsg>)
    requires Covers(cfg, rows, c, gaps, msgs) && c <= higher
    ensures Covers(cfg, rows, higher, gaps, msgs)
    decreases |msgs|
  {
    if msgs != [] {
      match msgs[0] {
        case EventMsg(row) => CoversHigher(cfg, rows, Max(c, row.seqno), Max(higher, row.seqno), gaps, msgs[1..]);
        case ReplayGap(f, e) => CoversHigher(cfg, rows, c, higher, gaps + {(f, e)}, msgs[1..]);
        case Lagged(_) =>
        case Closing(_) =>
        case _ => CoversHigher(cfg, rows, c, higher, gaps, msgs[1..]);
      }
    }
  }

  /** A late event changes nothing once the messages before it account for its number. */
  lemma {:induction false} CoversLateEvent(cfg: Config, rows: seq<Row>, c: nat, gaps: set<(nat, nat)>,
                                           left: seq<ServerMsg>, right: seq<ServerMsg>, late: Row, upTo: nat)
    requires Numbered(rows) && upTo <= |rows| && (late.seqno <= upTo || late.seqno <= c)
    requires Covers(cfg, rows, c, gaps, left + right) && Covers(cfg, rows[..upTo], c, gaps, left)
    ensures Covers(cfg, rows, c, gaps, left + ([EventMsg(late)] + right))
    decreases |left|
  {
    if left == [] {
      assert left + right == right;
      var msgs := left + ([EventMsg(late)] + right);
      assert msgs[0] == EventMsg(late) && msgs[1..] == right;
      forall i | 0 <= i < |rows| && c < rows[i].seqno <= late.seqno - 1 && Wanted(cfg, rows[i])
        ensures InGap(rows[i].seqno, gaps)
      {
        assert rows[i] == rows[..upTo][i];
      }
      CoversHigher(cfg, rows, c, Max(c, late.seqno), gaps, right);
    } else {
      assert (left + right)[1..] == left[1..] + right;
      assert (left + ([EventMsg(late)] + right))[1..] == left[1..] + ([EventMsg(late)] + right);
      match left[0] {
        case EventMsg(row) => CoversLateEvent(cfg, rows, Max(c, row.seqno), gaps, left[1..], right, late, upTo);
        case ReplayGap(f, e) => CoversLateEvent(cfg, rows, c, gaps + {(f, e)}, left[1..], right, late, upTo);
        case Lagged(_) =>
        case Closing(_) =>
        case _ => CoversLateEvent(cfg, rows, c, gaps, left[1..], right, late, upTo);
      }
    }
  }

  /** Nothing after a session end matters. */
  lemma {:induction false} CoversEnded(cfg: Config, rows: seq<Row>, c: nat, gaps: set<(nat, nat)>,
                                       left: seq<ServerMsg>, right: seq<ServerMsg>, other: seq<ServerMsg>, end: nat)
    requires end < |left| && EndsSession(left[end])
    requires Covers(cfg, rows, c, gaps, left + right)
    ensures Covers(cfg, rows, c, gaps, left + other)
    decreases |left|
  {
    if end > 0 {
      assert (left + right)[1..] == left[1..] + right && (left + other)[1..] == left[1..] + other;
      assert left[1..][end - 1] == left[end];
      match left[0] {
        case EventMsg(row) => CoversEnded(cfg, rows, Max(c, row.seqno), gaps, left[1..], right, other, end - 1);
        case ReplayGap(f, e) => CoversEnded(cfg, rows, c, gaps + {(f, e)}, left[1..], right, other, end - 1);
        case Lagged(_) =>
        case Closing(_) =>
        case _ => CoversEnded(cfg, rows, c, gaps, left[1..], right, other, end - 1);
      }
    }
  }

  /** A new row at or below the cursor is none of the client's business. */
  lemma {:induction false} CoversIgnores(cfg: Config, rows: seq<Row>, c: nat, gaps: set<(nat, nat)>, msgs: seq<ServerMsg>, row: Row)
    requires Numbered(rows + [row]) && row.seqno <= c && Covers(cfg, rows, c, gaps, msgs)
    ensures Covers(cfg, rows + [row], c, gaps, msgs)
    decreases |msgs|
  {
    assert (rows + [row])[|rows|] == row;
    if msgs != [] {
      match msgs[0] {
        case EventMsg(r) => CoversIgnores(cfg, rows, Max(c, r.seqno), gaps, msgs[1..], row);
        case ReplayGap(f, e) => CoversIgnores(cfg, rows, c, gaps + {(f, e)}, msgs[1..], row);
        case Lagged(_) =>
        case Closing(_) =>
        case _ => CoversIgnores(cfg, rows, c, gaps, msgs[1..], row);
      }
    }
  }

  /** Committing one more row is matched by the event that will be pushed for it. */
  lemma {:induction false} CoversCommit(cfg: Config, rows: seq<Row>, c: nat, gaps: set<(nat, nat)>, msgs: seq<ServerMsg>, row: Row)
    requires Numbered(rows + [row]) && Real(rows, msgs) && Covers(cfg, rows, c, gaps, msgs)
    ensures Covers(cfg, rows + [row], c, gaps, msgs + WantedMsgs(cfg, [row]))
    decreases |msgs|
  {
    var longer := rows + [row];
    var added := WantedMsgs(cfg, [row]);
    assert longer[|rows|] == row;
    if msgs == [] {
      assert msgs + added == added;
      assert Clear(cfg, longer, c, |rows|, gaps);
      assert WantedMsgs(cfg, [row]) == if Wanted(cfg, row) then [EventMsg(row)] else [] by {
        assert [row][1..] == [];
      }
    } else {
      assert (msgs + added)[1..] == msgs[1..] + added;
      match msgs[0] {
        case EventMsg(r) =>
          var k :| 0 <= k < |rows| && rows[k] == r;
          assert longer[k] == r;
          CoversCommit(cfg, rows, Max(c, r.seqno), gaps, msgs[1..], row);
        case ReplayGap(f, e) => CoversCommit(cfg, rows, c, gaps + {(f, e)}, msgs[1..], row);
        case Lagged(_) =>
        case Closing(_) =>
        case _ => CoversCommit(cfg, rows, c, gaps, msgs[1..], row);
      }
    }
  }

  /** The same when rows at or below a mark are left out, which only the client's cursor can do. */
  lemma CoversCommitAbove(cfg: Config, rows: seq<Row>, c: nat, gaps: set<(nat, nat)>, msgs: seq<ServerMsg>, row: Row, mark: nat)
    requires Numbered(rows + [row]) && Real(rows, msgs) && Covers(cfg, rows, c, gaps, msgs)
    requires row.seqno <= mark ==> row.seqno <= c
    ensures Covers(cfg, rows + [row], c, gaps, msgs + EventsAbove(WantedMsgs(cfg, [row]), mark))
  {
    if row.seqno <= mark {
      CoversIgnores(cfg, rows, c, gaps, msgs, row);
      WantedAtOrBelow(cfg, [row], mark);
      assert msgs + [] == msgs;
    } else {
      CoversCommit(cfg, rows, c, gaps, msgs, row);
      EventsAboveAll(cfg, [row], mark);
    }
  }

  lemma {:induction false} CoversCommitAll(cfg: Config, rows: seq<Row>, c: nat, gaps: set<(nat, nat)>,
                                           msgs: seq<ServerMsg>, added: seq<Row>, mark: nat)
    requires Numbered(rows + added) && Real(rows, msgs) && Covers(cfg, rows, c, gaps, msgs)
    requires mark <= Max(|rows|, c)
    ensures Covers(cfg, rows + added, c, gaps, msgs + EventsAbove(WantedMsgs(cfg, added), mark))
  {
    hide Covers;
    if added == [] {
      assert rows + added == rows && msgs + EventsAbove(WantedMsgs(cfg, added), mark) == msgs;
    } else {
      var n := |added| - 1;
      var longer := rows + added[..n];
      assert longer + [added[n]] == rows + added;
      assert forall i :: 0 <= i < |longer| ==> longer[i] == (rows + added)[i];
      assert (rows + added)[|rows| + n] == added[n];
      CoversCommitAll(cfg, rows, c, gaps, msgs, added[..n], mark);
      var before := EventsAbove(WantedMsgs(cfg, added[..n]), mark);
      var last := EventsAbove(WantedMsgs(cfg, [added[n]]), mark);
      WantedMsgsReal(cfg, added[..n]);
      EventsAboveReal(added[..n], WantedMsgs(cfg, added[..n]), mark);
      CoversCommitAbove(cfg, longer, c, gaps, msgs + before, added[n], mark);
      OwedOneMore(cfg, added, n, mark);
      assert (msgs + before) + last == msgs + (before + last);
    }
  }

  lemma OwedOneMore(cfg: Config, rows: seq<Row>, n: nat, mark: nat)
    requires |rows| == n + 1
    ensures EventsAbove(WantedMsgs(cfg, rows), mark)
         == EventsAbove(WantedMsgs(cfg, rows[..n]), mark) + EventsAbove(WantedMsgs(cfg, [rows[n]]), mark)
  {
    assert rows == rows[..n] + [rows[n]];
    WantedMsgsConcat(cfg, rows[..n], [rows[n]]);
    EventsAboveConcat(WantedMsgs(cfg, rows[..n]), WantedMsgs(cfg, [rows[n]]), mark);
  }

  /** Live events above a mark, with control frames and late events among them, cover the rest of
      the log for a client that is clear up to where they start. */
  lemma {:induction false} CoversLiveTail(cfg: Config, rows: seq<Row>, c: nat, gaps: set<(nat, nat)>, msgs: seq<ServerMsg>,
                                          from: nat, mark: nat)
    requires Numbered(rows) && mark <= from <= |rows| && Clear(cfg, rows, c, from, gaps)
    requires Plain(msgs) && EventsAbove(msgs, mark) == WantedMsgs(cfg, rows[from..])
    ensures Covers(cfg, rows, c, gaps, msgs)
    decreases |msgs| + |rows| - from
  {
    if msgs != [] && !(msgs[0].EventMsg? && msgs[0].row.seqno > mark) {
      assert msgs[0].EventMsg? || Inert(msgs[0]);
      assert EventsAbove(msgs, mark) == EventsAbove(msgs[1..], mark);
      CoversLiveTail(cfg, rows, if msgs[0].EventMsg? then Max(c, msgs[0].row.seqno) else c, gaps, msgs[1..], from, mark);
    } else if from < |rows| {
      assert rows[from..][1..] == rows[from + 1..];
      if Wanted(cfg, rows[from]) {
        assert EventsAbove(msgs, mark)[0] == EventMsg(rows[from]);
        assert EventsAbove(msgs, mark)[1..] == WantedMsgs(cfg, rows[from + 1..]);
        CoversLiveTail(cfg, rows, Max(c, from + 1), gaps, msgs[1..], from + 1, mark);
      } else {
        CoversLiveTail(cfg, rows, c, gaps, msgs, from + 1, mark);
      }
    }
  }

  /** What may follow a replay: a session end, or all the live events above a mark. */
  ghost predicate Continues(cfg: Config, rows: seq<Row>, tail: seq<ServerMsg>, mark: nat) {
    || (tail != [] && EndsSession(tail[0]))
    || (Plain(tail) && EventsAbove(tail, mark) == EventsAbove(WantedMsgs(cfg, rows), mark))
  }

  lemma CoversContinuation(cfg: Config, rows: seq<Row>, c: nat, gaps: set<(nat, nat)>, tail: seq<ServerMsg>, head: nat, mark: nat)
    requires Numbered(rows) && head <= |rows| && Clear(cfg, rows, c, head, gaps) && mark <= Max(head, c)
    requires Continues(cfg, rows, tail, mark)
    ensures Covers(cfg, rows, c, gaps, tail)
  {
    if tail == [] || !EndsSession(tail[0]) {
      if mark <= |rows| {
        WantedAbove(cfg, rows, mark);
        CoversLiveTail(cfg, rows, c, gaps, tail, mark, mark);
      } else {
        CoversWhenClear(cfg, rows, c, gaps, tail);
      }
    }
  }

  /** A replayed stretch of the log followed by its live continuation covers everything, the
      overlap between the two notwithstanding. */
  lemma {:induction false} CoversReplay(cfg: Config, rows: seq<Row>, c: nat, gaps: set<(nat, nat)>, lo: nat, head: nat,
                                        tail: seq<ServerMsg>, mark: nat)
    requires Numbered(rows) && lo <= head <= |rows| && Clear(cfg, rows, c, lo, gaps) && mark <= Max(head, c)
    requires Continues(cfg, rows, tail, mark)
    ensures Covers(cfg, rows, c, gaps, WantedMsgs(cfg, rows[lo..head]) + ([Replayed(head)] + tail))
    decreases head - lo
  {
    hide Covers, Continues, Wanted;
    var rest := [Replayed(head)] + tail;
    if lo == head {
      assert WantedMsgs(cfg, rows[lo..head]) + rest == rest;
      CoversContinuation(cfg, rows, c, gaps, tail, head, mark);
      CoversMarker(cfg, rows, c, gaps, head, tail);
    } else {
      var row, later := rows[lo], WantedMsgs(cfg, rows[lo + 1..head]) + rest;
      assert rows[lo..head] == [row] + rows[lo + 1..head];
      WantedMsgsOfMore(cfg, row, rows[lo + 1..head]);
      if Wanted(cfg, row) {
        CoversReplay(cfg, rows, Max(c, lo + 1), gaps, lo + 1, head, tail, mark);
        CoversEvent(cfg, rows, c, gaps, row, later);
        assert WantedMsgs(cfg, rows[lo..head]) + rest == [EventMsg(row)] + later;
      } else {
        CoversReplay(cfg, rows, c, gaps, lo + 1, head, tail, mark);
      }
    }
  }

  lemma WantedMsgsOfMore(cfg: Config, row: Row, rows: seq<Row>)
    ensures WantedMsgs(cfg, [row] + rows) == if Wanted(cfg, row) then [EventMsg(row)] + WantedMsgs(cfg, rows) else WantedMsgs(cfg, rows)
  {
    assert ([row] + rows)[1..] == rows;
  }

  lemma CoversMarker(cfg: Config, rows: seq<Row>, c: nat, gaps: set<(nat, nat)>, head: nat, tail: seq<ServerMsg>)
    requires Covers(cfg, rows, c, gaps, tail)
    ensures Covers(cfg, rows, c, gaps, [Replayed(head)] + tail)
  {
    assert ([Replayed(head)] + tail)[1..] == tail;
  }

  lemma CoversEvent(cfg: Config, rows: seq<Row>, c: nat, gaps: set<(nat, nat)>, row: Row, tail: seq<ServerMsg>)
    requires Clear(cfg, rows, c, row.seqno - 1, gaps) && Covers(cfg, rows, Max(c, row.seqno), gaps, tail)
    ensures Covers(cfg, rows, c, gaps, [EventMsg(row)] + tail)
  {
    assert ([EventMsg(row)] + tail)[1..] == tail;
  }

  // -------------------------------------------------------- what a replay lists

  lemma {:induction false} SelectAbove(table: seq<Row>, afterSeq: nat, patterns: Option<seq<string>>)
    ensures forall row :: row in Select(table, afterSeq, patterns) ==> row.seqno > afterSeq
  {
    if table != [] {
      SelectAbove(table[1..], afterSeq, patterns);
    }
  }

  lemma {:induction false} ReplayListsWanted(cfg: Config, rows: seq<Row>, start: nat, afterSeq: nat, head: nat)
    requires Numbered(rows) && start <= |rows| && head <= |rows|
    requires start <= afterSeq || afterSeq >= head
    ensures EventMsgs(UpTo(Select(rows[start..], afterSeq, Some(cfg.patterns)), head))
         == if afterSeq < head then WantedMsgs(cfg, rows[afterSeq..head]) else []
    decreases |rows| - start
  {
    var table := rows[start..];
    if afterSeq >= head {
      SelectAbove(table, afterSeq, Some(cfg.patterns));
      var selected := Select(table, afterSeq, Some(cfg.patterns));
      assert selected != [] ==> selected[0] in selected;
    } else if start < afterSeq {
      assert table[1..] == rows[start + 1..];
      assert !Selected(table[0], afterSeq, Some(cfg.patterns));
      assert Select(table, afterSeq, Some(cfg.patterns)) == Select(table[1..], afterSeq, Some(cfg.patterns));
      ReplayListsWanted(cfg, rows, start + 1, afterSeq, head);
    } else {
      ReplayListsFrom(cfg, rows, start, afterSeq, head);
    }
  }

  lemma {:induction false} ReplayListsFrom(cfg: Config, rows: seq<Row>, start: nat, afterSeq: nat, head: nat)
    requires Numbered(rows) && afterSeq <= start <= head <= |rows|
    ensures EventMsgs(UpTo(Select(rows[start..], afterSeq, Some(cfg.patterns)), head)) == WantedMsgs(cfg, rows[start..head])
    decreases |rows| - start
  {
    var selected := Select(rows[start..], afterSeq, Some(cfg.patterns));
    if start == head {
      SelectAboveStart(rows, start, afterSeq, Some(cfg.patterns));
      assert selected != [] ==> selected[0] in selected;
    } else {
      assert rows[start..][1..] == rows[start + 1..];
      assert rows[start..head][1..] == rows[start + 1..head];
      ReplayListsFrom(cfg, rows, start + 1, afterSeq, head);
      assert Selected(rows[start], afterSeq, Some(cfg.patterns)) == Wanted(cfg, rows[start]);
      if !Wanted(cfg, rows[start]) {
        assert selected == Select(rows[start + 1..], afterSeq, Some(cfg.patterns));
      } else {
        var later := UpTo(Select(rows[start + 1..], afterSeq, Some(cfg.patterns)), head);
        assert selected[0] == rows[start] && selected[1..] == Select(rows[start + 1..], afterSeq, Some(cfg.patterns));
        assert UpTo(selected, head) == [rows[start]] + later;
        assert EventMsgs([rows[start]] + later) == [EventMsg(rows[start])] + EventMsgs(later);
      }
    }
  }

  lemma {:induction false} SelectAboveStart(rows: seq<Row>, start: nat, afterSeq: nat, patterns: Option<seq<string>>)
    requires Numbered(rows) && start <= |rows|
    ensures forall row :: row in Select(rows[start..], afterSeq, patterns) ==> row.seqno > start
    decreases |rows| - start
  {
    if start < |rows| {
      assert rows[start..][1..] == rows[start + 1..];
      SelectAboveStart(rows, start + 1, afterSeq, patterns);
    }
  }
}
