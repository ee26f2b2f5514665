/** Progress streams: one bounded event log per endpoint, replaced by each new run, written by the run
    that holds the current id and read by pollers that feed `next` back as their cursor. */
module Progress {
  import opened Wrappers

  const EVENT_LIMIT: nat := 10000
  const RETENTION_SECONDS := 1800

  type Endpoint = string
  type RunId = string
  type Event = nat
  type Row = nat
  type Summary = nat

  datatype Entry = Entry(idx: nat, event: Event)
  datatype RunState = RunState(
    runId: RunId, status: string, updatedTs: int, events: seq<Entry>, nextIndex: nat, droppedUntil: nat,
    summary: Option<Summary>, error: Option<string>, partialRows: seq<Row>, partialRowsNext: nat)

  datatype Reply =
    | Idle(next: int)
    | Replaced(runId: RunId, droppedUntil: nat, next: int)
    | Current(runId: RunId, status: string, error: Option<string>, droppedUntil: nat, events: seq<Entry>, next: int,
              summary: Option<Summary>, partialRows: seq<Row>, partialRowsNext: nat)

  function Max(a: int, b: int): int { if a < b then b else a }

  // ----- one run's log against its full history -----

  function Started(runId: RunId, now: int): RunState {
    RunState(runId, "running", now, [], 0, 0, None, None, [], 0)
  }

  // The entries numbered from lo on of a history.
  function Numbered(history: seq<Event>, lo: nat): (r: seq<Entry>)
    requires lo <= |history|
    ensures |r| == |history| - lo && forall k :: 0 <= k < |r| ==> r[k] == Entry(lo + k, history[lo + k])
  {
    seq(|history| - lo, k requires 0 <= k < |history| - lo => Entry(lo + k, history[lo + k]))
  }

  function FirstKept(length: nat): nat { if length <= EVENT_LIMIT then 0 else length - EVENT_LIMIT }

  /** The log stores exactly the newest EVENT_LIMIT events of the run, numbered by position. */
  ghost predicate LogOk(r: RunState, history: seq<Event>) {
    && r.nextIndex == |history| && r.droppedUntil == FirstKept(|history|)
    && r.events == Numbered(history, r.droppedUntil)
    && r.partialRowsNext == |r.partialRows|
  }

  // One more event, and the oldest dropped beyond the limit.
  function LogEvent(r: RunState, event: Event): RunState {
    var events := r.events + [Entry(r.nextIndex, event)];
    if |events| <= EVENT_LIMIT then r.(events := events, nextIndex := r.nextIndex + 1)
    else r.(events := events[|events| - EVENT_LIMIT..], nextIndex := r.nextIndex + 1,
            droppedUntil := events[|events| - EVENT_LIMIT].idx)
  }

  lemma LogKeeps(r: RunState, history: seq<Event>, event: Event)
    requires LogOk(r, history)
    ensures LogOk(LogEvent(r, event), history + [event])
  {
    var t := LogEvent(r, event);
    assert t.events == Numbered(history + [event], FirstKept(|history| + 1));
  }

  function AtOrAfter(events: seq<Entry>, cursor: int): (r: seq<Entry>) {
    if |events| == 0 then []
    else if events[0].idx >= cursor then [events[0]] + AtOrAfter(events[1..], cursor)
    else AtOrAfter(events[1..], cursor)
  }

  lemma {:induction false} AtOrAfterNumbered(history: seq<Event>, lo: nat, cursor: nat)
    requires lo <= |history|
    ensures AtOrAfter(Numbered(history, lo), cursor) ==
            if cursor > |history| then [] else Numbered(history, if cursor < lo then lo else cursor)
    decreases |history| - lo
  {
    if lo < |history| {
      assert Numbered(history, lo)[1..] == Numbered(history, lo + 1);
      AtOrAfterNumbered(history, lo + 1, cursor);
      if cursor <= lo { assert Numbered(history, lo) == [Entry(lo, history[lo])] + Numbered(history, lo + 1); }
    }
  }

  // What a reader that names the current run, or none, gets.
  function ReadRun(r: RunState, since: int, rowsSince: int): Reply {
    var cursor := Max(since, r.droppedUntil);
    var rowsCursor: nat := if rowsSince < 0 then 0 else rowsSince;
    Current(r.runId, r.status, r.error, r.droppedUntil, AtOrAfter(r.events, cursor),
            if r.nextIndex != 0 then r.nextIndex else cursor, r.summary,
            if rowsCursor < |r.partialRows| then r.partialRows[rowsCursor..] else [], r.partialRowsNext)
  }

  /** The cursor a reader is told to come back with is the end of the log; before the first event it is the
      cursor the reader came with, so one kept from another run skips as many events of this one. */
  lemma NextIsEnd(r: RunState, history: seq<Event>, since: int, rowsSince: int)
    requires LogOk(r, history)
    ensures ReadRun(r, since, rowsSince).next == if history == [] then Max(0, since) else |history|
    ensures ReadRun(r, since, rowsSince).events ==
            if since > |history| then [] else Numbered(history, Max(Max(0, since), FirstKept(|history|)))
  {
    AtOrAfterNumbered(history, r.droppedUntil, Max(since, r.droppedUntil));
  }

  // The run with its outcome; an empty error is none.
  function Ended(r: RunState, status: string, summary: Option<Summary>, error: Option<string>): RunState {
    r.(status := status, summary := summary, error := NonEmpty(error))
  }

  // ----- the store -----

  class Store {
    var runs: map<Endpoint, RunState>
    // every event appended to an endpoint's current run
    ghost var histories: map<Endpoint, seq<Event>>

    ghost predicate Valid()
      reads this
    {
      runs.Keys == histories.Keys && forall e :: e in runs ==> LogOk(runs[e], histories[e])
    }

    constructor ()
      ensures Valid() && runs == map[]
    {
      runs, histories := map[], map[];
    }

    predicate Stale(e: Endpoint, now: int)
      reads this
    {
      e in runs && now - runs[e].updatedTs > RETENTION_SECONDS
    }

    // _cleanup_progress_locked: runs silent for longer than the retention are forgotten.
    method Cleanup(now: int)
      requires Valid()
      modifies this
      ensures Valid() && runs.Keys <= old(runs.Keys)
      ensures forall e :: e in old(runs) ==> (e in runs <==> !old(Stale(e, now)))
      ensures forall e :: e in runs ==> runs[e] == old(runs[e]) && histories[e] == old(histories[e])
    {
      var stale: set<Endpoint> := {};
      var left := runs.Keys;
      while left != {}
        invariant runs == old(runs) && histories == old(histories) && left <= runs.Keys
        invariant forall e :: e in runs ==> (e in stale <==> e !in left && Stale(e, now))
        invariant stale <= runs.Keys
        decreases |left|
      {
        var e :| e in left;
        if now - runs[e].updatedTs > RETENTION_SECONDS { stale := stale + {e}; }
        left := left - {e};
      }
      runs := runs - stale;
      histories := histories - stale;
    }

    // _start_progress
    method Start(e: Endpoint, runId: RunId, now: int)
      requires Valid()
      modifies this
      ensures Valid() && e in runs && runs[e] == Started(runId, now) && histories[e] == []
      ensures runs.Keys <= old(runs.Keys) + {e}
      ensures forall f :: f in runs && f != e ==> runs[f] == old(runs[f]) && histories[f] == old(histories[f])
    {
      Cleanup(now);
      runs := runs[e := Started(runId, now)];
      histories := histories[e := []];
    }

    // The run with one more event, its oldest ones dropped beyond the limit.
    static method Logged(r: RunState, ghost history: seq<Event>, event: Event) returns (t: RunState)
      requires LogOk(r, history)
      ensures t == LogEvent(r, event)
    {
      var events := r.events + [Entry(r.nextIndex, event)];
      var dropped := r.droppedUntil;
      if |events| > EVENT_LIMIT {
        var dropCount := |events| - EVENT_LIMIT;
        assert events[dropCount].idx > 0;
        dropped := if events[dropCount].idx != 0 then events[dropCount].idx else r.nextIndex + 1;
        events := events[dropCount..];
      }
      t := r.(events := events, nextIndex := r.nextIndex + 1, droppedUntil := dropped);
    }

    // _append_progress_event
    method Append(e: Endpoint, runId: RunId, event: Event, now: int)
      requires Valid()
      modifies this
      ensures Valid() && runs.Keys == old(runs.Keys)
      ensures e !in runs || old(runs[e]).runId != runId ==> runs == old(runs) && histories == old(histories)
      ensures e in runs && old(runs[e]).runId == runId ==>
        && histories == old(histories)[e := old(histories[e]) + [event]]
        && runs[e] == LogEvent(old(runs[e]), event).(updatedTs := now)
      ensures forall f :: f in runs && f != e ==> runs[f] == old(runs[f])
    {
      if e !in runs || runs[e].runId != runId { return; }
      LogKeeps(runs[e], histories[e], event);
      var r := Logged(runs[e], histories[e], event);
      runs := runs[e := r.(updatedTs := now)];
      histories := histories[e := histories[e] + [event]];
    }

    // _append_progress_partial_row
    method AppendPartialRow(e: Endpoint, runId: RunId, row: Row, now: int)
      requires Valid()
      modifies this`runs
      ensures Valid() && runs.Keys == old(runs.Keys)
      ensures e !in runs || old(runs[e]).runId != runId ==> runs == old(runs)
      ensures e in runs && old(runs[e]).runId == runId ==>
        && runs[e].partialRows == old(runs[e]).partialRows + [row] && runs[e].updatedTs == now && SameRest(runs[e], old(runs[e]))
      ensures forall f :: f in runs && f != e ==> runs[f] == old(runs[f])
    {
      if e !in runs || runs[e].runId != runId { return; }
      var rows := runs[e].partialRows + [row];
      runs := runs[e := runs[e].(partialRows := rows, partialRowsNext := |rows|, updatedTs := now)];
    }

    // _finish_progress
    method Finish(e: Endpoint, runId: RunId, status: string, summary: Option<Summary>, error: Option<string>, now: int)
      requires Valid()
      modifies this`runs
      ensures Valid()
      ensures runs == if e in old(runs) && old(runs[e]).runId == runId
                      then old(runs)[e := Ended(old(runs[e]), status, summary, error).(updatedTs := now)]
                      else old(runs)
    {
      if e !in runs || runs[e].runId != runId { return; }
      runs := runs[e := runs[e].(status := status, summary := summary, error := NonEmpty(error), updatedTs := now)];
    }

    // _set_progress_summary, called with a dictionary
    method SetSummary(e: Endpoint, runId: RunId, summary: Summary, now: int)
      requires Valid()
      modifies this`runs
      ensures Valid()
      ensures runs == if e in old(runs) && old(runs[e]).runId == runId
                      then old(runs)[e := old(runs[e]).(summary := Some(summary), updatedTs := now)] else old(runs)
    {
      if e !in runs || runs[e].runId != runId { return; }
      runs := runs[e := runs[e].(summary := Some(summary), updatedTs := now)];
    }

    // _read_progress; an empty run id means none was named.
    method Read(e: Endpoint, since: int, runId: RunId, rowsSince: int, now: int) returns (reply: Reply)
      requires Valid()
      modifies this
      ensures Valid() && runs.Keys <= old(runs.Keys)
      ensures forall f :: f in old(runs) ==> (f in runs <==> !old(Stale(f, now)))
      ensures forall f :: f in runs ==> runs[f] == old(runs[f]) && histories[f] == old(histories[f])
      ensures reply.Idle? <==> e !in runs
      ensures reply.Idle? ==> reply.next == Max(0, since)
      ensures reply.Replaced? <==> e in runs && runId != "" && runId != runs[e].runId
      ensures reply.Replaced? ==> reply.runId == runs[e].runId && reply.droppedUntil == runs[e].droppedUntil && reply.next == |histories[e]|
      ensures reply.Current? ==> reply == ReadRun(runs[e], since, rowsSince)
    {
      Cleanup(now);
      if e !in runs { return Idle(Max(0, since)); }
      var r := runs[e];
      if runId != "" && runId != r.runId {
        return Replaced(r.runId, r.droppedUntil, if r.nextIndex != 0 then r.nextIndex else r.droppedUntil);
      }
      reply := ReadRun(r, since, rowsSince);
    }
  }

  function NonEmpty(error: Option<string>): Option<string> {
    if error.Some? && error.value != "" then error else None
  }

  // Everything an append leaves alone.
  predicate SameRest(a: RunState, b: RunState) {
    a.runId == b.runId && a.status == b.status && a.summary == b.summary && a.error == b.error
  }

  // ----- a poller that feeds `next` back -----

  // What the run's writers and the poller do, in the order the lock admits them.
  datatype Op =
    | Log(event: Event)
    | AddRow(row: Row)
    | End(status: string, summary: Option<Summary>, error: Option<string>)
    | Summarize(given: Summary)
    | Poll

  datatype Gap = Gap(lo: nat, hi: nat)
  datatype Poller = Poller(cursor: int, rowsCursor: int, received: seq<Entry>, rows: seq<Row>, gaps: seq<Gap>, last: Option<Reply>)
  datatype View = View(run: RunState, history: seq<Event>, poller: Poller)

  function Do(v: View, op: Op): View {
    match op
    case Log(event) => v.(run := LogEvent(v.run, event), history := v.history + [event])
    case AddRow(row) => v.(run := v.run.(partialRows := v.run.partialRows + [row], partialRowsNext := |v.run.partialRows| + 1))
    case End(status, summary, error) => v.(run := Ended(v.run, status, summary, error))
    case Summarize(given) => v.(run := v.run.(summary := Some(given)))
    case Poll =>
      var reply, p := ReadRun(v.run, v.poller.cursor, v.poller.rowsCursor), v.poller;
      v.(poller := Poller(reply.next, reply.partialRowsNext, p.received + reply.events, p.rows + reply.partialRows,
                          if 0 <= p.cursor < reply.droppedUntil then p.gaps + [Gap(p.cursor, reply.droppedUntil)] else p.gaps, Some(reply)))
  }

  function DoAll(ops: seq<Op>, runId: RunId, now: int): View {
    if |ops| == 0 then View(Started(runId, now), [], Poller(0, 0, [], [], [], None))
    else Do(DoAll(ops[..|ops| - 1], runId, now), ops[|ops| - 1])
  }

  predicate InGaps(gaps: seq<Gap>, i: int) { exists g :: g in gaps && g.lo <= i < g.hi }
  predicate Got(received: seq<Entry>, i: int) { exists k :: 0 <= k < |received| && received[k].idx == i }

  predicate Faithful(received: seq<Entry>, cursor: int, history: seq<Event>)
    requires cursor <= |history|
  {
    forall k :: 0 <= k < |received| ==> received[k].idx < cursor && received[k].event == history[received[k].idx]
  }

  predicate Ascending(received: seq<Entry>) {
    forall j, k :: 0 <= j < k < |received| ==> received[j].idx < received[k].idx
  }

  ghost predicate ViewOk(v: View) {
    && LogOk(v.run, v.history)
    && 0 <= v.poller.cursor <= |v.history|
    && Faithful(v.poller.received, v.poller.cursor, v.history) && Ascending(v.poller.received)
    && (forall i :: 0 <= i < v.poller.cursor ==> (Got(v.poller.received, i) <==> !InGaps(v.poller.gaps, i)))
    && (forall g :: g in v.poller.gaps ==> g.lo < g.hi <= v.poller.cursor)
    && v.poller.rowsCursor == |v.poller.rows| <= |v.run.partialRows| && v.poller.rows == v.run.partialRows[..v.poller.rowsCursor]
  }

  // What a poll delivers: the slice from the cursor, or from the oldest kept event if that is later.
  lemma PollDelivers(v: View)
    requires ViewOk(v)
    ensures var lo := Max(v.poller.cursor, v.run.droppedUntil);
      0 <= lo <= |v.history| && ReadRun(v.run, v.poller.cursor, v.poller.rowsCursor).events == Numbered(v.history, lo)
  {
    AtOrAfterNumbered(v.history, v.run.droppedUntil, Max(v.poller.cursor, v.run.droppedUntil));
  }

  lemma ReceivedGrows(received: seq<Entry>, history: seq<Event>, lo: nat, i: int)
    requires lo <= |history|
    ensures Got(received + Numbered(history, lo), i) <==> Got(received, i) || lo <= i < |history|
  {
    var all := received + Numbered(history, lo);
    if Got(received, i) {
      var k :| 0 <= k < |received| && received[k].idx == i;
      assert all[k].idx == i;
    }
    if lo <= i < |history| { assert all[|received| + i - lo].idx == i; }
  }

  lemma GapsGrow(gaps: seq<Gap>, g: Gap, i: int)
    ensures InGaps(gaps + [g], i) <==> InGaps(gaps, i) || g.lo <= i < g.hi
  {
    if g.lo <= i < g.hi { assert g in gaps + [g]; }
    if InGaps(gaps, i) {
      var h :| h in gaps && h.lo <= i < h.hi;
      assert h in gaps + [g];
    }
  }

  lemma PollAccounts(v: View, i: int)
    requires ViewOk(v) && 0 <= i < |v.history|
    ensures var p := Do(v, Poll).poller; Got(p.received, i) <==> !InGaps(p.gaps, i)
  {
    var p := v.poller;
    var lo := Max(p.cursor, v.run.droppedUntil);
    PollDelivers(v);
    ReceivedGrows(p.received, v.history, lo, i);
    if p.cursor < v.run.droppedUntil { GapsGrow(p.gaps, Gap(p.cursor, v.run.droppedUntil), i); }
    assert Got(p.received, i) || InGaps(p.gaps, i) ==> i < p.cursor;
  }

  lemma PollAppends(received: seq<Entry>, cursor: nat, history: seq<Event>, lo: nat)
    requires cursor <= lo <= |history| && Faithful(received, cursor, history) && Ascending(received)
    ensures Faithful(received + Numbered(history, lo), |history|, history) && Ascending(received + Numbered(history, lo))
  {
  }

  lemma PollKeeps(v: View)
    requires ViewOk(v)
    ensures ViewOk(Do(v, Poll))
  {
    var t := Do(v, Poll);
    PollDelivers(v);
    var lo := Max(v.poller.cursor, v.run.droppedUntil);
    assert t.poller.received == v.poller.received + Numbered(v.history, lo);
    PollAppends(v.poller.received, v.poller.cursor, v.history, lo);
    forall i | 0 <= i < t.poller.cursor ensures Got(t.poller.received, i) <==> !InGaps(t.poller.gaps, i) { PollAccounts(v, i); }
  }

  lemma DoKeeps(v: View, op: Op)
    requires ViewOk(v)
    ensures ViewOk(Do(v, op))
  {
    match op
    case Log(event) => LogKeeps(v.run, v.history, event);
    case Poll => PollKeeps(v);
    case _ =>
  }

  lemma {:induction false} DoAllOk(ops: seq<Op>, runId: RunId, now: int)
    ensures ViewOk(DoAll(ops, runId, now))
  {
    if |ops| > 0 {
      DoAllOk(ops[..|ops| - 1], runId, now);
      DoKeeps(DoAll(ops[..|ops| - 1], runId, now), ops[|ops| - 1]);
    }
  }

  // The events and the rows that a list of operations appends, in order.
  function EventsOf(ops: seq<Op>): seq<Event> {
    if |ops| == 0 then [] else EventsOf(ops[..|ops| - 1]) + if ops[|ops| - 1].Log? then [ops[|ops| - 1].event] else []
  }

  function RowsOf(ops: seq<Op>): seq<Row> {
    if |ops| == 0 then [] else RowsOf(ops[..|ops| - 1]) + if ops[|ops| - 1].AddRow? then [ops[|ops| - 1].row] else []
  }

  lemma {:induction false} RunHoldsAll(ops: seq<Op>, runId: RunId, now: int)
    ensures var v := DoAll(ops, runId, now); v.history == EventsOf(ops) && v.run.partialRows == RowsOf(ops)
  {
    if |ops| > 0 { RunHoldsAll(ops[..|ops| - 1], runId, now); }
  }

  /** Within one run a poller that starts at 0 receives events unaltered, in order and at most once,
      and what it has not received below its cursor is exactly the gaps, each from a cursor of its own
      to the oldest event then kept; of the partial rows it has every one, in order. */
  lemma PollerTheorem(ops: seq<Op>, runId: RunId, now: int)
    ensures var v := DoAll(ops, runId, now);
      && v.history == EventsOf(ops) && v.run.partialRows == RowsOf(ops)
      && 0 <= v.poller.cursor <= |v.history|
      && Faithful(v.poller.received, v.poller.cursor, v.history) && Ascending(v.poller.received)
      && (forall i :: 0 <= i < v.poller.cursor ==> (Got(v.poller.received, i) <==> !InGaps(v.poller.gaps, i)))
      && v.poller.rows <= v.run.partialRows && v.poller.rowsCursor == |v.poller.rows|
  {
    DoAllOk(ops, runId, now);
    RunHoldsAll(ops, runId, now);
  }

  /** After a poll the poller is up to date, and the poll skipped events if and only if more than
      EVENT_LIMIT of them were logged since the cursor it came with. */
  lemma PollCatchesUp(ops: seq<Op>, runId: RunId, now: int)
    ensures var before, after := DoAll(ops, runId, now), DoAll(ops + [Poll], runId, now);
      && after.poller.cursor == |after.history| && after.poller.rows == after.run.partialRows
      && (after.poller.gaps != before.poller.gaps <==> |before.history| - before.poller.cursor > EVENT_LIMIT)
  {
    DoAllOk(ops, runId, now);
    assert (ops + [Poll])[..|ops|] == ops;
    DoAllOk(ops + [Poll], runId, now);
  }

  predicate EndsAt(ops: seq<Op>, i: int) { 0 <= i < |ops| && ops[i].End? }
  predicate SummarizesAt(ops: seq<Op>, i: int) { 0 <= i < |ops| && (ops[i].End? || ops[i].Summarize?) }

  ghost predicate NeverEnds(ops: seq<Op>) { forall i :: !EndsAt(ops, i) }
  ghost predicate LastEnd(ops: seq<Op>, i: int) { EndsAt(ops, i) && forall j :: i < j ==> !EndsAt(ops, j) }
  ghost predicate NeverSummarizes(ops: seq<Op>) { forall i :: !SummarizesAt(ops, i) }
  ghost predicate LastSummary(ops: seq<Op>, i: int) { SummarizesAt(ops, i) && forall j :: i < j ==> !SummarizesAt(ops, j) }

  // What a run with these operations behind it shows of its outcome.
  ghost predicate ShowsOutcome(ops: seq<Op>, status: string, error: Option<string>, summary: Option<Summary>) {
    && (NeverEnds(ops) ==> status == "running" && error == None)
    && (forall i :: LastEnd(ops, i) ==>
          status == ops[i].status && (if ops[i].error == Some("") then error == None else error == ops[i].error))
    && (NeverSummarizes(ops) ==> summary == None)
    && (forall i :: LastSummary(ops, i) ==> summary == if ops[i].End? then ops[i].summary else Some(ops[i].given))
  }

  lemma EndsSnoc(ops: seq<Op>, op: Op)
    ensures NeverEnds(ops + [op]) <==> NeverEnds(ops) && !op.End?
    ensures forall i :: LastEnd(ops + [op], i) <==> if op.End? then i == |ops| else LastEnd(ops, i)
  {
    var more := ops + [op];
    forall i ensures EndsAt(more, i) <==> EndsAt(ops, i) || (i == |ops| && op.End?) {}
    if op.End? { assert EndsAt(more, |ops|); }
  }

  lemma SummariesSnoc(ops: seq<Op>, op: Op)
    ensures NeverSummarizes(ops + [op]) <==> NeverSummarizes(ops) && !op.End? && !op.Summarize?
    ensures forall i :: LastSummary(ops + [op], i) <==> if op.End? || op.Summarize? then i == |ops| else LastSummary(ops, i)
  {
    var more := ops + [op];
    forall i ensures SummarizesAt(more, i) <==> SummarizesAt(ops, i) || (i == |ops| && (op.End? || op.Summarize?)) {}
    if op.End? || op.Summarize? { assert SummarizesAt(more, |ops|); }
  }

  lemma OutcomeMoves(ops: seq<Op>, op: Op, more: seq<Op>, v: View, t: View)
    requires ShowsOutcome(ops, v.run.status, v.run.error, v.run.summary) && t == Do(v, op) && more == ops + [op]
    ensures ShowsOutcome(more, t.run.status, t.run.error, t.run.summary) && t.run.runId == v.run.runId
  {
    EndsSnoc(ops, op);
    SummariesSnoc(ops, op);
    assert forall i :: 0 <= i < |ops| ==> more[i] == ops[i];
  }

  lemma {:induction false} RunShowsOutcome(ops: seq<Op>, runId: RunId, now: int)
    ensures var r := DoAll(ops, runId, now).run; ShowsOutcome(ops, r.status, r.error, r.summary) && r.runId == runId
  {
    if |ops| > 0 {
      var init := ops[..|ops| - 1];
      RunShowsOutcome(init, runId, now);
      assert ops == init + [ops[|ops| - 1]];
      OutcomeMoves(init, ops[|ops| - 1], ops, DoAll(init, runId, now), DoAll(ops, runId, now));
    }
  }

  /** A poll tells how the run stands: running without an error until it is finished, then the status and
      error it was last finished with, and the summary set last, if any. */
  lemma PollShowsOutcome(ops: seq<Op>, runId: RunId, now: int)
    ensures var last := DoAll(ops + [Poll], runId, now).poller.last;
      && last.Some? && last.value.Current? && last.value.runId == runId
      && ShowsOutcome(ops, last.value.status, last.value.error, last.value.summary)
  {
    assert (ops + [Poll])[..|ops|] == ops;
    RunShowsOutcome(ops, runId, now);
  }

  /** A poller that is never more than EVENT_LIMIT events behind when it polls misses nothing: what it
      has received is the whole run up to its cursor. */
  lemma {:induction false} PromptPollerMissesNothing(ops: seq<Op>, runId: RunId, now: int)
    requires forall n :: 0 <= n < |ops| && ops[n].Poll? ==>
      |DoAll(ops[..n], runId, now).history| - DoAll(ops[..n], runId, now).poller.cursor <= EVENT_LIMIT
    ensures DoAll(ops, runId, now).poller.gaps == []
    ensures forall i :: 0 <= i < DoAll(ops, runId, now).poller.cursor ==> Got(DoAll(ops, runId, now).poller.received, i)
  {
    DoAllOk(ops, runId, now);
    if |ops| > 0 {
      var n := |ops| - 1;
      assert forall k :: 0 <= k < n ==> ops[..n][..k] == ops[..k];
      PromptPollerMissesNothing(ops[..n], runId, now);
      DoAllOk(ops[..n], runId, now);
      NoGapOpens(DoAll(ops[..n], runId, now), ops[n], DoAll(ops, runId, now));
    }
    NoGapsMeansAll(DoAll(ops, runId, now));
  }

  lemma NoGapOpens(v: View, op: Op, t: View)
    requires ViewOk(v) && v.poller.gaps == [] && t == Do(v, op)
    requires op.Poll? ==> |v.history| - v.poller.cursor <= EVENT_LIMIT
    ensures t.poller.gaps == []
  {
  }

  lemma NoGapsMeansAll(v: View)
    requires ViewOk(v) && v.poller.gaps == []
    ensures forall i :: 0 <= i < v.poller.cursor ==> Got(v.poller.received, i)
  {
  }
}
