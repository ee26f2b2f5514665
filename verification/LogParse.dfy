/** The backend-log error extractor: one pass that keeps the last lines seen, opens a window at an error
    line and records it some lines later.  Buffers hold line numbers, so that it can be said which lines
    a window is made of. */
module LogParse {
  import opened Wrappers

  const LINES_BEFORE := 10
  const LINES_AFTER := 100
  const MAX_ERRORS := 5
  const TIME_THRESHOLD := 5.0

  // A line as the loop sees it: does it carry an error level, and which real timestamp, if any.
  datatype Line = Line(isError: bool, stamp: Option<real>)
  datatype Window = Window(errorLine: nat, before: seq<nat>, after: seq<nat>)

  function Range(a: int, b: int): (r: seq<nat>)
    requires 0 <= a
    ensures |r| == if a <= b then b - a else 0
    ensures forall i :: 0 <= i < |r| ==> r[i] == a + i
  {
    seq(if a <= b then b - a else 0, i requires 0 <= i => a + i)
  }

  function Max(a: int, b: int): int { if a < b then b else a }

  // ----- the loop's variables, one line at a time -----

  // The last error that opened a window: its real timestamp, if it had one.
  datatype LastError = Never | At(stamp: Option<real>)

  // A recorded window with its history: where its lines before could start, where it ended, whether the
  // end of the log cut it short, which of its lines restarted it, and where it was last restarted.
  datatype Record = Record(window: Window, from: nat, end: nat, flushed: bool, repeats: set<nat>, resetAt: nat)

  datatype State = State(
    count: nat, errors: nat, recent: seq<Window>, before: seq<nat>, collecting: nat, after: seq<nat>, last: LastError, errorLine: nat,
    // history
    records: seq<Record>, from: nat, repeats: set<nat>, resetAt: nat, replaced: nat, openers: seq<nat>)

  const START := State(0, 0, [], [], 0, [], Never, 0, [], 0, {}, 0, 0, [])

  function Keep(recent: seq<Window>, w: Window): seq<Window> {
    var all := recent + [w];
    if |all| > MAX_ERRORS then all[1..] else all
  }

  function Slide(before: seq<nat>, k: nat): seq<nat> {
    var all := before + [k];
    if |all| > LINES_BEFORE then all[1..] else all
  }

  // Too soon after the last error to open a window, both with real timestamps.
  predicate TooSoon(last: LastError, line: Line) {
    last.At? && last.stamp.Some? && line.stamp.Some? && line.stamp.value - last.stamp.value < TIME_THRESHOLD
  }

  function Close(s: State, after: seq<nat>, end: nat, flushed: bool): State {
    var w := Window(s.errorLine, s.before, after);
    s.(recent := Keep(s.recent, w), records := s.records + [Record(w, s.from, end, flushed, s.repeats, s.resetAt)])
  }

  function Step(s: State, line: Line): State {
    var k := s.count;
    var t := s.(count := k + 1);
    if s.collecting == 1 then
      Close(t, s.after + [k], k + 1, false).(collecting := 0, after := [], before := [], from := k + 1)
    else
      var u := if s.collecting > 0 then t.(after := s.after + [k], collecting := s.collecting - 1, before := Slide(s.before, k))
               else t.(before := Slide(s.before, k));
      if !line.isError then u
      else if TooSoon(s.last, line) then
        (if u.collecting > 0 then u.(collecting := LINES_AFTER - 1, after := u.after + [k], repeats := u.repeats + {k}, resetAt := k) else u)
      else
        u.(errors := u.errors + 1, errorLine := k, last := At(line.stamp), collecting := LINES_AFTER - 1, after := [k],
           repeats := {}, resetAt := k, replaced := if u.collecting > 0 then u.replaced + 1 else u.replaced,
           openers := u.openers + [k])
  }

  function Steps(lines: seq<Line>): State {
    if |lines| == 0 then START else Step(Steps(lines[..|lines| - 1]), lines[|lines| - 1])
  }

  // The end of the log records a window still open.
  function Finish(s: State): State { if s.collecting > 0 then Close(s, s.after, s.count, true) else s }

  // The loop, with its own variables.
  method ParseLogErrors(lines: seq<Line>) returns (recent: seq<Window>, errorCount: nat)
    ensures recent == Finish(Steps(lines)).recent && errorCount == Finish(Steps(lines)).errors
  {
    var before: seq<nat>, after: seq<nat>, collecting, errorLine := [], [], 0, 0;
    var last := Never;
    recent, errorCount := [], 0;
    var k := 0;
    while k < |lines|
      invariant k <= |lines|
      invariant var s := Steps(lines[..k]);
        && s.count == k && s.errors == errorCount && s.recent == recent && s.before == before && s.collecting == collecting
        && s.after == after && s.last == last && s.errorLine == errorLine
    {
      assert lines[..k + 1][..k] == lines[..k] && lines[..k + 1][k] == lines[k];
      var line, closed := lines[k], false;
      if collecting > 0 {
        after := after + [k];
        collecting := collecting - 1;
        if collecting == 0 {
          recent := recent + [Window(errorLine, before, after)];
          if |recent| > MAX_ERRORS { recent := recent[1..]; }
          after, before, closed := [], [], true;
        }
      }
      if !closed {
        before := before + [k];
        if |before| > LINES_BEFORE { before := before[1..]; }
        if line.isError {
          if TooSoon(last, line) {
            if collecting > 0 {
              collecting := if collecting < LINES_AFTER then LINES_AFTER else collecting;
              after := after + [k];
              collecting := collecting - 1;
            }
          } else {
            errorCount, errorLine, last := errorCount + 1, k, At(line.stamp);
            collecting, after := LINES_AFTER, [k];
            collecting := collecting - 1;
          }
        }
      }
      CollectingBelow(lines[..k]);
      k := k + 1;
    }
    assert lines[..k] == lines;
    if collecting > 0 {
      recent := recent + [Window(errorLine, before, after)];
      if |recent| > MAX_ERRORS { recent := recent[1..]; }
    }
  }

  lemma {:induction false} CollectingBelow(lines: seq<Line>)
    ensures Steps(lines).collecting < LINES_AFTER && Steps(lines).count == |lines|
  {
    if |lines| > 0 { CollectingBelow(lines[..|lines| - 1]); }
  }

  // ----- what the windows are made of -----

  // Lines a to b - 1, those that restarted the window twice.
  function Covered(a: nat, b: nat, repeats: set<nat>): seq<nat>
    decreases b
  {
    if b <= a then [] else Covered(a, b - 1, repeats) + (if b - 1 in repeats then [b - 1, b - 1] else [b - 1])
  }

  predicate RecordOk(r: Record) {
    var o := r.window.errorLine;
    && r.from <= o <= r.resetAt < r.end && r.window.after == Covered(o, r.end, r.repeats)
    && (forall x :: x in r.repeats ==> o < x <= r.resetAt) && (r.resetAt == o || r.resetAt in r.repeats)
    && if r.flushed then r.end < r.resetAt + LINES_AFTER && r.window.before == Range(Max(r.from, r.end - LINES_BEFORE), r.end)
       else r.end == r.resetAt + LINES_AFTER && r.window.before == Range(Max(r.from, r.end - 1 - LINES_BEFORE), r.end - 1)
  }

  function Windows(rs: seq<Record>): (r: seq<Window>)
    ensures |r| == |rs| && forall i :: 0 <= i < |r| ==> r[i] == rs[i].window
  {
    seq(|rs|, i requires 0 <= i < |rs| => rs[i].window)
  }

  function LastFew(ws: seq<Window>): seq<Window> { if |ws| > MAX_ERRORS then ws[|ws| - MAX_ERRORS..] else ws }

  // Each window starts where the one before it ended.
  predicate Chained(rs: seq<Record>, from: nat) {
    && (forall i :: 0 <= i < |rs| ==> RecordOk(rs[i]))
    && (forall i :: 0 < i < |rs| ==> rs[i].from == rs[i - 1].end)
    && from == (if |rs| == 0 then 0 else rs[|rs| - 1].end)
    && (|rs| > 0 ==> rs[0].from == 0)
  }

  predicate OpenOk(s: State) {
    s.collecting > 0 ==>
      && s.from <= s.errorLine <= s.resetAt < s.count && s.collecting + (s.count - s.resetAt) == LINES_AFTER
      && s.after == Covered(s.errorLine, s.count, s.repeats)
      && (forall x :: x in s.repeats ==> s.errorLine < x <= s.resetAt) && (s.resetAt == s.errorLine || s.resetAt in s.repeats)
  }

  // The windows recorded so far, and the newest of them that are kept.
  predicate KeptOk(rs: seq<Record>, from: nat, recent: seq<Window>) {
    Chained(rs, from) && recent == LastFew(Windows(rs))
  }

  predicate StateOk(s: State) {
    && s.from <= s.count && s.before == Range(Max(s.from, s.count - LINES_BEFORE), s.count)
    && OpenOk(s) && KeptOk(s.records, s.from, s.recent)
    && s.errors == |s.records| + s.replaced + if s.collecting > 0 then 1 else 0
  }

  lemma SlideKeeps(from: nat, k: nat)
    requires from <= k
    ensures Slide(Range(Max(from, k - LINES_BEFORE), k), k) == Range(Max(from, k + 1 - LINES_BEFORE), k + 1)
  {
  }

  lemma KeepKeeps(rs: seq<Record>, r: Record)
    ensures Keep(LastFew(Windows(rs)), r.window) == LastFew(Windows(rs + [r]))
  {
    assert Windows(rs + [r]) == Windows(rs) + [r.window];
  }

  lemma {:induction false} CoveredSame(a: nat, b: nat, repeats: set<nat>, x: nat)
    requires b <= x
    ensures Covered(a, b, repeats + {x}) == Covered(a, b, repeats)
  {
    if b > a { CoveredSame(a, b - 1, repeats, x); }
  }

  lemma ChainMore(rs: seq<Record>, from: nat, r: Record)
    requires Chained(rs, from) && RecordOk(r) && r.from == from
    ensures Chained(rs + [r], r.end)
  {
  }

  lemma CloseKeeps(rs: seq<Record>, from: nat, recent: seq<Window>, r: Record)
    requires KeptOk(rs, from, recent) && RecordOk(r) && r.from == from
    ensures KeptOk(rs + [r], r.end, Keep(recent, r.window))
  {
    ChainMore(rs, from, r);
    KeepKeeps(rs, r);
  }

  // The record a window makes when its last line k is read.
  function Closing(s: State): Record {
    Record(Window(s.errorLine, s.before, s.after + [s.count]), s.from, s.count + 1, false, s.repeats, s.resetAt)
  }

  lemma ClosingOk(s: State)
    requires StateOk(s) && s.collecting == 1
    ensures RecordOk(Closing(s))
  {
    assert s.count !in s.repeats && Covered(s.errorLine, s.count + 1, s.repeats) == s.after + [s.count];
  }

  lemma ClosingStep(s: State, line: Line)
    requires StateOk(s) && s.collecting == 1
    ensures StateOk(Step(s, line))
  {
    ClosingOk(s);
    CloseKeeps(s.records, s.from, s.recent, Closing(s));
    assert Step(s, line).records == s.records + [Closing(s)];
  }

  lemma OpenKept(s: State, line: Line)
    requires OpenOk(s) && s.collecting != 1 && s.from <= s.count
    ensures OpenOk(Step(s, line))
  {
    var k := s.count;
    if s.collecting > 0 {
      assert k !in s.repeats && Covered(s.errorLine, k + 1, s.repeats) == s.after + [k];
      CoveredSame(s.errorLine, k, s.repeats, k);
      assert Covered(s.errorLine, k + 1, s.repeats + {k}) == s.after + [k, k];
    }
    assert Covered(k, k + 1, {}) == [k];
  }

  lemma OtherStep(s: State, line: Line)
    requires StateOk(s) && s.collecting != 1
    ensures StateOk(Step(s, line))
  {
    SlideKeeps(s.from, s.count);
    OpenKept(s, line);
  }

  lemma StepKeeps(s: State, line: Line)
    requires StateOk(s)
    ensures StateOk(Step(s, line)) && Step(s, line).count == s.count + 1
  {
    if s.collecting == 1 { ClosingStep(s, line); } else { OtherStep(s, line); }
  }

  lemma {:induction false} StepsOk(lines: seq<Line>)
    ensures StateOk(Steps(lines)) && Steps(lines).count == |lines|
  {
    if |lines| > 0 {
      StepsOk(lines[..|lines| - 1]);
      StepKeeps(Steps(lines[..|lines| - 1]), lines[|lines| - 1]);
    }
  }

  // ----- what is reported -----

  // Every window recorded, the one cut short by the end of the log included.
  function Recorded(lines: seq<Line>): seq<Record> { Finish(Steps(lines)).records }

  // Where lines after the last recorded window start.
  function RestFrom(s: State): nat { if s.collecting > 0 then s.count else s.from }

  function Flushing(s: State): Record { Record(Window(s.errorLine, s.before, s.after), s.from, s.count, true, s.repeats, s.resetAt) }

  lemma FlushOk(s: State)
    requires StateOk(s) && s.collecting > 0
    ensures Finish(s).records == s.records + [Flushing(s)] && KeptOk(Finish(s).records, s.count, Finish(s).recent)
    ensures Finish(s).errors == |Finish(s).records| + s.replaced
  {
    CloseKeeps(s.records, s.from, s.recent, Flushing(s));
  }

  lemma FinishOk(lines: seq<Line>)
    ensures var s, t := Steps(lines), Finish(Steps(lines));
      KeptOk(t.records, RestFrom(s), t.recent) && RestFrom(s) <= |lines| && t.errors == |t.records| + s.replaced
  {
    StepsOk(lines);
    if Steps(lines).collecting > 0 { FlushOk(Steps(lines)); }
  }

  lemma {:induction false} EndsGrow(rs: seq<Record>, from: nat, i: nat, j: nat)
    requires Chained(rs, from) && i <= j < |rs|
    ensures rs[i].end <= rs[j].end && (i < j ==> rs[i].end <= rs[j].window.errorLine)
  {
    if i < j {
      EndsGrow(rs, from, i, j - 1);
      assert rs[j].from == rs[j - 1].end && RecordOk(rs[j]);
    }
  }

  // Windows from their error line to their end do not overlap, and lie in the first n lines.
  predicate Disjoint(rs: seq<Record>, n: nat) {
    && (forall i :: 0 <= i < |rs| ==> rs[i].window.errorLine < rs[i].end <= n)
    && (forall i, j :: 0 <= i < j < |rs| ==> rs[i].end <= rs[j].window.errorLine)
  }

  lemma DisjointWithin(rs: seq<Record>, from: nat, n: nat)
    requires Chained(rs, from) && from <= n
    ensures Disjoint(rs, n)
  {
    forall i | 0 <= i < |rs| ensures rs[i].window.errorLine < rs[i].end <= n {
      EndsGrow(rs, from, i, |rs| - 1);
      assert RecordOk(rs[i]);
    }
    forall i, j | 0 <= i < j < |rs| ensures rs[i].end <= rs[j].window.errorLine { EndsGrow(rs, from, i, j); }
  }

  // ----- windows and the lines of the log -----

  // Line x is an error that comes too soon after line o to open a window of its own.
  predicate Restarts(lines: seq<Line>, o: int, x: int) {
    && 0 <= o < x < |lines| && lines[x].isError
    && lines[o].stamp.Some? && lines[x].stamp.Some? && lines[x].stamp.value - lines[o].stamp.value < TIME_THRESHOLD
  }

  // The lines before end that restart the window of line o.
  ghost predicate RepeatsAre(lines: seq<Line>, o: int, end: int, repeats: set<nat>) {
    forall x: nat :: x in repeats <==> Restarts(lines, o, x) && x < end
  }

  // Each restart comes before the window would have closed without it.
  ghost predicate InTime(o: nat, repeats: set<nat>) {
    forall x :: x in repeats ==> exists y :: y in repeats + {o} && y < x < y + LINES_AFTER - 1
  }

  // Where the loop stopped looking for errors: the line that closes a window is not looked at.
  function Examined(r: Record): int { if r.flushed then r.end else r.end - 1 }

  // A recorded window starts at an error line, and the lines that restarted it are those of the log.
  ghost predicate FromLog(lines: seq<Line>, r: Record) {
    var o := r.window.errorLine;
    && o < |lines| && lines[o].isError && r.end <= |lines| && (r.flushed ==> r.end == |lines|)
    && RepeatsAre(lines, o, Examined(r), r.repeats) && InTime(o, r.repeats)
  }

  ghost predicate OpenFromLog(lines: seq<Line>, s: State) {
    s.collecting > 0 ==>
      && s.errorLine < |lines| && lines[s.errorLine].isError && s.last == At(lines[s.errorLine].stamp)
      && RepeatsAre(lines, s.errorLine, |lines|, s.repeats) && InTime(s.errorLine, s.repeats)
  }

  ghost predicate RecordsFromLog(lines: seq<Line>, rs: seq<Record>) {
    forall i :: 0 <= i < |rs| ==> FromLog(lines, rs[i]) && !rs[i].flushed
  }

  lemma RepeatsMore(lines: seq<Line>, line: Line, o: int, end: int, repeats: set<nat>)
    requires RepeatsAre(lines, o, end, repeats) && o < |lines| && end <= |lines|
    ensures RepeatsAre(lines + [line], o, end, repeats)
  {
    forall x: nat | x < |lines| ensures Restarts(lines + [line], o, x) <==> Restarts(lines, o, x) {}
  }

  lemma RecordsMore(lines: seq<Line>, line: Line, rs: seq<Record>)
    requires RecordsFromLog(lines, rs)
    ensures RecordsFromLog(lines + [line], rs)
  {
    forall i | 0 <= i < |rs| ensures FromLog(lines + [line], rs[i]) {
      RepeatsMore(lines, line, rs[i].window.errorLine, Examined(rs[i]), rs[i].repeats);
    }
  }

  lemma OpenMore(lines: seq<Line>, line: Line, s: State)
    requires OpenFromLog(lines, s) && OpenOk(s) && s.count == |lines| && s.collecting != 1
    ensures OpenFromLog(lines + [line], Step(s, line))
  {
    var t, k, more := Step(s, line), s.count, lines + [line];
    if s.collecting > 0 {
      RepeatsMore(lines, line, s.errorLine, k, s.repeats);
      if t.errorLine == s.errorLine {
        RepeatsGrow(more, s.errorLine, k, s.repeats, t.repeats);
        InTimeGrows(s.errorLine, s.repeats, s.resetAt, k);
      }
    }
    assert more[k] == line;
  }

  lemma InTimeGrows(o: nat, repeats: set<nat>, y: nat, k: nat)
    requires InTime(o, repeats) && y in repeats + {o} && y < k < y + LINES_AFTER - 1
    ensures InTime(o, repeats + {k})
  {
    forall x | x in repeats + {k} ensures exists z :: z in repeats + {k} + {o} && z < x < z + LINES_AFTER - 1 {
      if x == k {
        assert y in repeats + {k} + {o};
      } else {
        var z :| z in repeats + {o} && z < x < z + LINES_AFTER - 1;
        assert z in repeats + {k} + {o};
      }
    }
  }

  lemma RepeatsGrow(more: seq<Line>, o: int, k: nat, repeats: set<nat>, grown: set<nat>)
    requires RepeatsAre(more, o, k, repeats) && |more| == k + 1
    requires grown == if Restarts(more, o, k) then repeats + {k} else repeats
    ensures RepeatsAre(more, o, k + 1, grown)
  {
  }

  lemma ClosingMore(lines: seq<Line>, line: Line, s: State)
    requires RecordsFromLog(lines, s.records) && OpenFromLog(lines, s) && s.count == |lines| && s.collecting == 1
    ensures RecordsFromLog(lines + [line], s.records + [Closing(s)])
  {
    RecordsMore(lines, line, s.records);
    RepeatsMore(lines, line, s.errorLine, s.count, s.repeats);
    assert FromLog(lines + [line], Closing(s));
  }

  lemma StepFromLog(lines: seq<Line>, line: Line, s: State)
    requires RecordsFromLog(lines, s.records) && OpenFromLog(lines, s) && OpenOk(s) && s.count == |lines|
    ensures RecordsFromLog(lines + [line], Step(s, line).records) && OpenFromLog(lines + [line], Step(s, line))
  {
    if s.collecting == 1 {
      ClosingMore(lines, line, s);
    } else {
      RecordsMore(lines, line, s.records);
      OpenMore(lines, line, s);
    }
  }

  // ----- which errors open a window -----

  // The last of the openers before line k, as the loop remembers it.
  function LastOpener(lines: seq<Line>, openers: seq<nat>, k: int): LastError {
    if |openers| == 0 then Never
    else
      var o := openers[|openers| - 1];
      if o < k && o < |lines| then At(lines[o].stamp) else LastOpener(lines, openers[..|openers| - 1], k)
  }

  // Line k is the last line of a window.
  predicate ClosesAt(rs: seq<Record>, k: int) { exists i :: 0 <= i < |rs| && !rs[i].flushed && rs[i].end == k + 1 }

  predicate Opens(lines: seq<Line>, rs: seq<Record>, openers: seq<nat>, k: int) {
    && 0 <= k < |lines| && lines[k].isError && !ClosesAt(rs, k)
    && var last := LastOpener(lines, openers, k);
       last.At? && last.stamp.Some? && lines[k].stamp.Some? ==> lines[k].stamp.value - last.stamp.value >= TIME_THRESHOLD
  }

  predicate Rising(ks: seq<nat>, n: int) {
    (forall i, j :: 0 <= i < j < |ks| ==> ks[i] < ks[j]) && (forall i :: 0 <= i < |ks| ==> ks[i] < n)
  }

  ghost predicate OpenersAre(lines: seq<Line>, rs: seq<Record>, openers: seq<nat>) {
    Rising(openers, |lines|) && forall k: nat :: k in openers <==> Opens(lines, rs, openers, k)
  }

  predicate LastsAgree(lines: seq<Line>, s: State) {
    && s.last == LastOpener(lines, s.openers, |lines|) && |s.openers| == s.errors
    && (s.collecting > 0 ==> |s.openers| > 0 && s.errorLine == s.openers[|s.openers| - 1])
  }

  lemma {:induction false} LastOpenerMore(lines: seq<Line>, line: Line, openers: seq<nat>, k: int)
    ensures k <= |lines| ==> LastOpener(lines + [line], openers, k) == LastOpener(lines, openers, k)
    ensures Rising(openers, |lines|) ==> LastOpener(lines + [line], openers, |lines| + 1) == LastOpener(lines, openers, |lines|)
  {
    if |openers| > 0 { LastOpenerMore(lines, line, openers[..|openers| - 1], k); }
  }

  lemma LastOpenerSnoc(lines: seq<Line>, openers: seq<nat>, o: nat, k: int)
    ensures LastOpener(lines, openers + [o], k) ==
      if o < k && o < |lines| then At(lines[o].stamp) else LastOpener(lines, openers, k)
  {
    assert (openers + [o])[..|openers|] == openers;
  }

  // One more line: whether an earlier line opens a window is settled.
  lemma OpensMore(lines: seq<Line>, line: Line, rs: seq<Record>, rs': seq<Record>, openers: seq<nat>, openers': seq<nat>, k: nat)
    requires k < |lines| && (rs' == rs || exists r :: rs' == rs + [r] && r.end == |lines| + 1)
    requires openers' == openers || openers' == openers + [|lines|]
    ensures Opens(lines + [line], rs', openers', k) <==> Opens(lines, rs, openers, k)
  {
    LastOpenerMore(lines, line, openers, k);
    LastOpenerSnoc(lines + [line], openers, |lines|, k);
    ClosesMore(rs, rs', |lines|, k);
  }

  lemma ClosesMore(rs: seq<Record>, rs': seq<Record>, n: nat, k: nat)
    requires k < n && (rs' == rs || exists r :: rs' == rs + [r] && r.end == n + 1)
    ensures ClosesAt(rs', k) <==> ClosesAt(rs, k)
  {
    if i :| 0 <= i < |rs| && !rs[i].flushed && rs[i].end == k + 1 { assert rs'[i] == rs[i]; }
  }

  // The new line itself opens a window if and only if the step does.
  predicate OpensNow(s: State, line: Line) { s.collecting != 1 && line.isError && !TooSoon(s.last, line) }

  lemma NewLineOpens(lines: seq<Line>, line: Line, s: State)
    requires StateOk(s) && LastsAgree(lines, s) && s.count == |lines| && RecordsFromLog(lines, s.records)
    ensures var t := Step(s, line);
      Opens(lines + [line], t.records, t.openers, |lines|) <==> OpensNow(s, line)
  {
    var t, k, more := Step(s, line), |lines|, lines + [line];
    LastOpenerMore(lines, line, s.openers, k);
    LastOpenerSnoc(more, s.openers, k, k);
    if s.collecting == 1 {
      assert t.records[|s.records|] == Closing(s);
    } else {
      forall i | 0 <= i < |s.records| ensures s.records[i].end != k + 1 { assert FromLog(lines, s.records[i]); }
    }
  }

  lemma StepShape(s: State, line: Line)
    ensures var t := Step(s, line);
      && (t.records == s.records || exists r :: t.records == s.records + [r] && r.end == s.count + 1)
      && t.openers == if OpensNow(s, line) then s.openers + [s.count] else s.openers
  {
    if s.collecting == 1 { assert Step(s, line).records == s.records + [Closing(s)]; }
  }

  lemma StepOpeners(lines: seq<Line>, line: Line, s: State)
    requires StateOk(s) && LastsAgree(lines, s) && s.count == |lines| && RecordsFromLog(lines, s.records)
    requires OpenersAre(lines, s.records, s.openers)
    ensures var t := Step(s, line); OpenersAre(lines + [line], t.records, t.openers)
  {
    StepShape(s, line);
    NewLineOpens(lines, line, s);
    OpenersMore(lines, line, s.records, Step(s, line).records, s.openers, Step(s, line).openers);
  }

  lemma OpenersMore(lines: seq<Line>, line: Line, rs: seq<Record>, rs': seq<Record>, openers: seq<nat>, openers': seq<nat>)
    requires OpenersAre(lines, rs, openers) && (rs' == rs || exists r :: rs' == rs + [r] && r.end == |lines| + 1)
    requires openers' == if Opens(lines + [line], rs', openers', |lines|) then openers + [|lines|] else openers
    ensures OpenersAre(lines + [line], rs', openers')
  {
    forall k: nat ensures k in openers' <==> Opens(lines + [line], rs', openers', k) {
      if k < |lines| { OpensMore(lines, line, rs, rs', openers, openers', k); }
    }
  }

  lemma StepLasts(lines: seq<Line>, line: Line, s: State)
    requires LastsAgree(lines, s) && s.count == |lines| && Rising(s.openers, |lines|)
    ensures LastsAgree(lines + [line], Step(s, line))
  {
    LastOpenerMore(lines, line, s.openers, 0);
    LastOpenerSnoc(lines + [line], s.openers, s.count, s.count + 1);
  }

  // What the loop's variables and the history say about the lines read so far.
  ghost predicate Tied(lines: seq<Line>, s: State) {
    && StateOk(s) && s.count == |lines| && RecordsFromLog(lines, s.records) && OpenFromLog(lines, s)
    && OpenersAre(lines, s.records, s.openers) && LastsAgree(lines, s)
  }

  lemma TiedStep(lines: seq<Line>, init: seq<Line>, line: Line, s: State, t: State)
    requires Tied(init, s) && lines == init + [line] && t == Step(s, line)
    ensures Tied(lines, t)
  {
    StepKeeps(s, line);
    StepFromLog(init, line, s);
    StepOpeners(init, line, s);
    StepLasts(init, line, s);
  }

  lemma TiedStart()
    ensures Tied([], START)
  {
  }

  lemma {:induction false} StepsTied(lines: seq<Line>)
    ensures Tied(lines, Steps(lines))
  {
    if |lines| == 0 {
      TiedStart();
      assert lines == [];
    } else {
      var init, line := lines[..|lines| - 1], lines[|lines| - 1];
      var s, t := Steps(init), Steps(lines);
      assert lines == init + [line] && t == Step(s, line);
      StepsTied(init);
      TiedStep(lines, init, line, s, t);
    }
  }

  /** Every window starts at an error line, and the lines that restart it are exactly the errors too soon
      after that line, up to the line that closes the window. */
  lemma WindowsFromLog(lines: seq<Line>)
    ensures forall i :: 0 <= i < |Recorded(lines)| ==> FromLog(lines, Recorded(lines)[i])
    ensures OpenFromLog(lines, Steps(lines))
  {
    StepsTied(lines);
  }

  /** The error count is the number of lines that open a window, and a line opens one if and only if it is
      an error, is not the closing line of a window, and does not come too soon after the last opener. */
  lemma ErrorsAreOpeners(lines: seq<Line>)
    ensures var openers := Steps(lines).openers;
      && Finish(Steps(lines)).errors == |openers| && OpenersAre(lines, Recorded(lines), openers)
  {
    StepsTied(lines);
    var s := Steps(lines);
    forall k: nat ensures Opens(lines, Recorded(lines), s.openers, k) <==> Opens(lines, s.records, s.openers, k) {
      if i :| 0 <= i < |s.records| && !s.records[i].flushed && s.records[i].end == k + 1 { assert Recorded(lines)[i] == s.records[i]; }
    }
  }

  // Line k takes the branch that restarts the open window.
  predicate TakesRestart(lines: seq<Line>, k: int) {
    0 <= k < |lines| && Steps(lines[..k]).collecting > 1 && lines[k].isError && TooSoon(Steps(lines[..k]).last, lines[k])
  }

  /** The branch that restarts a window is taken at a line if and only if a window is open there that the
      line does not close, and the line is an error too soon after that window's error line. */
  lemma RestartTakenIff(lines: seq<Line>, k: nat)
    requires k < |lines|
    ensures var s := Steps(lines[..k]); TakesRestart(lines, k) <==> s.collecting > 1 && Restarts(lines, s.errorLine, k)
  {
    StepsTied(lines[..k]);
    var s := Steps(lines[..k]);
    if s.collecting > 1 { assert lines[..k][s.errorLine] == lines[s.errorLine]; }
  }

  // ----- which windows are recorded -----

  predicate Has(rs: seq<Record>, o: nat) { exists i :: 0 <= i < |rs| && rs[i].window.errorLine == o }

  predicate OpenAt(s: State, o: nat) { s.collecting > 0 && s.errorLine == o }

  // Line k opens a window while another one is collecting and does not close it.
  predicate Replaces(lines: seq<Line>, k: int) {
    0 <= k < |lines| && Steps(lines[..k]).collecting > 0 && OpensNow(Steps(lines[..k]), lines[k])
  }

  // The window of line o was replaced by a later one.
  ghost predicate Lost(lines: seq<Line>, o: nat) { exists k :: Replaces(lines, k) && Steps(lines[..k]).errorLine == o }

  function ReplacingLines(lines: seq<Line>): set<int> { set k | 0 <= k < |lines| && Replaces(lines, k) }

  ghost predicate Accounted(lines: seq<Line>, s: State) {
    && (forall o :: o in s.openers ==> Has(s.records, o) || OpenAt(s, o) || Lost(lines, o))
    && (forall o :: Lost(lines, o) ==> o in s.openers && !Has(s.records, o) && !OpenAt(s, o))
    && s.replaced == |ReplacingLines(lines)|
  }

  lemma ReplacesMore(lines: seq<Line>, line: Line, k: int)
    ensures k < |lines| ==> (Replaces(lines + [line], k) <==> Replaces(lines, k))
    ensures Replaces(lines + [line], |lines|) <==> Steps(lines).collecting > 0 && OpensNow(Steps(lines), line)
  {
    assert (lines + [line])[..|lines|] == lines;
    if 0 <= k < |lines| { assert (lines + [line])[..k] == lines[..k] && (lines + [line])[k] == lines[k]; }
  }

  lemma LostMore(lines: seq<Line>, line: Line, o: nat)
    ensures Lost(lines + [line], o) <==> Lost(lines, o) || (OpenAt(Steps(lines), o) && OpensNow(Steps(lines), line))
  {
    var more := lines + [line];
    assert more[..|lines|] == lines;
    ReplacesMore(lines, line, 0);
    if k :| Replaces(more, k) && Steps(more[..k]).errorLine == o {
      ReplacesMore(lines, line, k);
      assert k < |lines| ==> more[..k] == lines[..k];
    }
    if k :| Replaces(lines, k) && Steps(lines[..k]).errorLine == o {
      ReplacesMore(lines, line, k);
      assert more[..k] == lines[..k];
    }
  }

  lemma ReplacingMore(lines: seq<Line>, line: Line)
    ensures |ReplacingLines(lines + [line])| ==
      |ReplacingLines(lines)| + if Steps(lines).collecting > 0 && OpensNow(Steps(lines), line) then 1 else 0
  {
    var more, now := lines + [line], Steps(lines).collecting > 0 && OpensNow(Steps(lines), line);
    forall k: int ensures k in ReplacingLines(more) <==> k in ReplacingLines(lines) + (if now then {|lines|} else {}) {
      ReplacesMore(lines, line, k);
    }
    assert ReplacingLines(more) == ReplacingLines(lines) + if now then {|lines|} else {};
  }

  // Recorded windows lie before the open one.
  lemma OpenIsNew(s: State)
    requires StateOk(s) && s.collecting > 0
    ensures !Has(s.records, s.errorLine)
  {
    DisjointWithin(s.records, s.from, s.from);
  }

  lemma HasMore(s: State, line: Line, o: nat)
    ensures Has(Step(s, line).records, o) <==> Has(s.records, o) || (s.collecting == 1 && s.errorLine == o)
  {
    if s.collecting == 1 { HasSnoc(s.records, Closing(s), o); }
  }

  lemma HasSnoc(rs: seq<Record>, r: Record, o: nat)
    ensures Has(rs + [r], o) <==> Has(rs, o) || r.window.errorLine == o
  {
    if i :| 0 <= i < |rs| && rs[i].window.errorLine == o { assert (rs + [r])[i] == rs[i]; }
    assert (rs + [r])[|rs|] == r;
  }

  // What the next line does to the window of line o.
  lemma AccountedOne(lines: seq<Line>, line: Line, s: State, o: nat)
    requires Tied(lines, s) && s == Steps(lines) && Accounted(lines, s)
    ensures var t, more := Step(s, line), lines + [line];
      && (o in t.openers ==> Has(t.records, o) || OpenAt(t, o) || Lost(more, o))
      && (Lost(more, o) ==> o in t.openers && !Has(t.records, o) && !OpenAt(t, o))
  {
    LostMore(lines, line, o);
    HasMore(s, line, o);
    StepShape(s, line);
    if s.collecting > 0 { OpenIsNew(s); }
  }

  lemma {:induction false} StepsAccounted(lines: seq<Line>)
    ensures Accounted(lines, Steps(lines))
  {
    if |lines| > 0 {
      var init, line := lines[..|lines| - 1], lines[|lines| - 1];
      assert lines == init + [line];
      StepsAccounted(init);
      StepsTied(init);
      forall o: nat ensures
        && (o in Steps(lines).openers ==> Has(Steps(lines).records, o) || OpenAt(Steps(lines), o) || Lost(lines, o))
        && (Lost(lines, o) ==> o in Steps(lines).openers && !Has(Steps(lines).records, o) && !OpenAt(Steps(lines), o)) {
        AccountedOne(init, line, Steps(init), o);
      }
      ReplacingMore(init, line);
    }
  }

  lemma RecordedHas(lines: seq<Line>, o: nat)
    ensures Has(Recorded(lines), o) <==> Has(Steps(lines).records, o) || OpenAt(Steps(lines), o)
  {
    if Steps(lines).collecting > 0 { HasSnoc(Steps(lines).records, Flushing(Steps(lines)), o); }
  }

  /** A window that was opened is recorded if and only if no later line replaced it; the lines that replace
      one are those counted. */
  lemma RecordedIffNotReplaced(lines: seq<Line>)
    ensures forall o :: o in Steps(lines).openers ==> (Has(Recorded(lines), o) <==> !Lost(lines, o))
    ensures Steps(lines).replaced == |ReplacingLines(lines)|
  {
    StepsAccounted(lines);
    forall o | o in Steps(lines).openers ensures Has(Recorded(lines), o) <==> !Lost(lines, o) { RecordedHas(lines, o); }
  }

  /** An error that opens a window while another one is collecting replaces it, and the window it replaces
      is never recorded, whatever follows. */
  lemma ReplacedIsLost(lines: seq<Line>, k: nat)
    requires Replaces(lines, k)
    ensures !Has(Recorded(lines), Steps(lines[..k]).errorLine)
  {
    var o := Steps(lines[..k]).errorLine;
    assert Lost(lines, o);
    StepsAccounted(lines);
    RecordedHas(lines, o);
  }

  /** The extractor reports the last min(5, recorded) windows; windows are disjoint and increasing, each
      from its error line to where the next may start; the error count is the number of windows opened,
      that is, recorded or replaced by a later error while still collecting. */
  lemma ReportIsLastWindows(lines: seq<Line>)
    ensures Finish(Steps(lines)).recent == LastFew(Windows(Recorded(lines)))
    ensures Finish(Steps(lines)).errors == |Recorded(lines)| + Steps(lines).replaced
    ensures Disjoint(Recorded(lines), |lines|)
  {
    FinishOk(lines);
    DisjointWithin(Recorded(lines), RestFrom(Steps(lines)), |lines|);
  }

  /** What a recorded window holds.  After: every line from its error line to its end, twice each error
      too soon after that line and before the closing line, ending 100 lines after the last of them unless
      the log ended first.  Before: the last lines, up to ten, of the log up to its end, less the end line
      itself unless the log ended; not the lines up to its error line. */
  lemma WindowContents(lines: seq<Line>, i: nat)
    requires i < |Recorded(lines)|
    ensures var r := Recorded(lines)[i]; var o := r.window.errorLine;
      && r.window.after == Covered(o, r.end, r.repeats) && RepeatsAre(lines, o, Examined(r), r.repeats)
      && (r.resetAt == o || r.resetAt in r.repeats) && (forall x :: x in r.repeats ==> x <= r.resetAt)
      && (if r.flushed then r.end == |lines| < r.resetAt + LINES_AFTER else r.end == r.resetAt + LINES_AFTER <= |lines|)
      && r.window.before == (if r.flushed then Range(Max(r.from, r.end - LINES_BEFORE), r.end)
                             else Range(Max(r.from, r.end - 1 - LINES_BEFORE), r.end - 1))
  {
    FinishOk(lines);
    WindowsFromLog(lines);
    assert RecordOk(Recorded(lines)[i]) && FromLog(lines, Recorded(lines)[i]);
  }

  lemma {:induction false} CoveredLength(a: nat, b: nat, repeats: set<nat>)
    requires a <= b
    ensures |Covered(a, b, repeats)| >= b - a
    ensures (exists x :: x in repeats && a <= x < b) ==> |Covered(a, b, repeats)| > b - a
    ensures (forall x :: x in repeats ==> !(a <= x < b)) ==> Covered(a, b, repeats) == Range(a, b)
  {
    if a < b { CoveredLength(a, b - 1, repeats); }
  }

  // The first restart comes before the window would have closed.
  lemma {:induction false} FirstInTime(o: nat, repeats: set<nat>, x: nat) returns (z: nat)
    requires InTime(o, repeats) && x in repeats
    ensures z in repeats && o < z < o + LINES_AFTER - 1
    decreases x
  {
    var y :| y in repeats + {o} && y < x < y + LINES_AFTER - 1;
    if y in repeats { z := FirstInTime(o, repeats, y); } else { z := x; }
  }

  function Min(a: int, b: int): int { if a < b then a else b }

  /** A window holds the hundred lines from its error line on, or those the log still has, if and only if
      none of the next 98 lines is an error too soon after it: the branch that restarts a window is
      taken exactly for those, and appends each of them twice. */
  lemma HundredLinesIff(lines: seq<Line>, i: nat)
    requires i < |Recorded(lines)|
    ensures var o, after := Recorded(lines)[i].window.errorLine, Recorded(lines)[i].window.after;
      after == Range(o, Min(o + LINES_AFTER, |lines|)) <==> !exists x :: Restarts(lines, o, x) && x < o + LINES_AFTER - 1
  {
    FinishOk(lines);
    WindowsFromLog(lines);
    var r := Recorded(lines)[i];
    assert RecordOk(r) && FromLog(lines, r);
    PlainIffNoRepeats(lines, r);
    RepeatsIffRestart(lines, r);
  }

  lemma PlainIffNoRepeats(lines: seq<Line>, r: Record)
    requires RecordOk(r) && r.end <= |lines| && (r.flushed ==> r.end == |lines|)
    ensures var o := r.window.errorLine; r.window.after == Range(o, Min(o + LINES_AFTER, |lines|)) <==> r.repeats == {}
  {
    CoveredLength(r.window.errorLine, r.end, r.repeats);
    if r.repeats != {} {
      var x :| x in r.repeats;
      assert r.window.errorLine <= x < r.end;
    }
  }

  lemma RepeatsIffRestart(lines: seq<Line>, r: Record)
    requires RecordOk(r) && FromLog(lines, r)
    ensures var o := r.window.errorLine;
      r.repeats != {} <==> exists x :: Restarts(lines, o, x) && x < o + LINES_AFTER - 1
  {
    var o := r.window.errorLine;
    if r.repeats != {} {
      var x :| x in r.repeats;
      var z := FirstInTime(o, r.repeats, x);
      assert Restarts(lines, o, z);
    }
    if x :| Restarts(lines, o, x) && x < o + LINES_AFTER - 1 {
      var n: nat := x;
      assert n in r.repeats;
    }
  }

  // The shape a reader would expect: up to ten lines ending at the error line.
  predicate EndsAtError(r: Record) {
    r.window.before == Range(Max(r.from, r.window.errorLine + 1 - LINES_BEFORE), r.window.errorLine + 1)
  }

  lemma EndsAtErrorAtEnd(r: Record)
    requires RecordOk(r)
    ensures EndsAtError(r) <==> r.flushed && r.end == r.window.errorLine + 1
  {
    var before, o := r.window.before, r.window.errorLine;
    assert |before| > 0 && before[|before| - 1] == (if r.flushed then r.end - 1 else r.end - 2);
    var wanted := Range(Max(r.from, o + 1 - LINES_BEFORE), o + 1);
    assert |wanted| > 0 && wanted[|wanted| - 1] == o;
  }

  /** A window's lines before end at its error line if and only if that is the last line of the log. */
  lemma EndsAtErrorIff(lines: seq<Line>, i: nat)
    requires i < |Recorded(lines)|
    ensures EndsAtError(Recorded(lines)[i]) <==> Recorded(lines)[i].window.errorLine == |lines| - 1
  {
    FinishOk(lines);
    WindowsFromLog(lines);
    var r := Recorded(lines)[i];
    assert RecordOk(r) && FromLog(lines, r);
    EndsAtErrorAtEnd(r);
  }

  // ----- two short logs -----

  function Stamped(t: real): Line { Line(true, Some(t)) }

  /** Two errors within five seconds: one window, whose second line is there twice. */
  lemma RestartIsReached(t: real, u: real)
    requires u - t < TIME_THRESHOLD
    ensures var lines := [Stamped(t), Stamped(u)];
      |Recorded(lines)| == 1 && Recorded(lines)[0].window.errorLine == 0 && Recorded(lines)[0].window.after == [0, 1, 1]
  {
    var lines := [Stamped(t), Stamped(u)];
    assert lines[..1] == [Stamped(t)] && [Stamped(t)][..0] == [];
    assert Steps([Stamped(t)]) == Step(START, Stamped(t));
    assert Steps(lines) == Step(Steps([Stamped(t)]), Stamped(u));
  }

  /** Two errors without timestamps: both are counted, only the second one's window is recorded. */
  lemma SecondErrorReplacesFirst()
    ensures var lines := [Line(true, None), Line(true, None)];
      Finish(Steps(lines)).errors == 2 && Has(Recorded(lines), 1) && !Has(Recorded(lines), 0)
  {
    var line := Line(true, None);
    var lines := [line, line];
    assert lines[..1] == [line] && [line][..0] == [];
    assert Steps([line]) == Step(START, line);
    assert Steps(lines) == Step(Steps([line]), line);
    assert Replaces(lines, 1);
    ReplacedIsLost(lines, 1);
    RecordedHas(lines, 1);
  }
}
