/** Adoption figures from project git histories: paging a log to its end or to the page cap, filling the
    months between the first and the last active one, and the aggregate whose sums must agree. */
module GitAdoption {
  import opened Wrappers
  import opened KeyedSort
  import opened Tally

  // ----- _continue_git_log -----

  const PAGE_COUNT := 1000
  const MAX_PAGES := 30

  datatype Log<E> = Log(entries: seq<E>, next: Option<nat>)

  function Min(a: int, b: int): int { if a < b then a else b }

  // What git.log(count, start_commit) answers for a history: entries from the cursor on, and a cursor if
  // more remain.
  function Page<E>(history: seq<E>, start: nat): Log<E>
    requires start <= |history|
  {
    var end := Min(|history|, start + PAGE_COUNT);
    Log(history[start..end], if end < |history| then Some(end) else None)
  }

  // A log holds the newest n entries and says whether there are more.
  ghost predicate Holds<E>(log: Log<E>, history: seq<E>, n: nat) {
    n <= |history| && log.entries == history[..n] && log.next == if n < |history| then Some(n) else None
  }

  // The p-th further page is asked for.
  predicate Asked(have: nat, length: nat, p: nat) { p < MAX_PAGES && have + PAGE_COUNT * p < length }

  /** A continued log is a prefix of the history, thirty pages longer or complete, and carries the cursor
      exactly if it is incomplete; nothing is returned exactly if a page that is asked for fails. */
  method ContinueGitLog<E>(history: seq<E>, log: Log<E>, fails: nat -> bool) returns (r: Option<Log<E>>)
    requires Holds(log, history, |log.entries|)
    ensures r.Some? ==> Holds(r.value, history, Min(|history|, |log.entries| + PAGE_COUNT * MAX_PAGES))
    ensures r.None? <==> exists p: nat :: Asked(|log.entries|, |history|, p) && fails(p)
    ensures log.next.None? ==> r == Some(log)
  {
    var entries, next := log.entries, log.next;
    if next.None? { return Some(log); }
    var pages := 0;
    while next.Some? && pages < MAX_PAGES
      invariant forall p: nat :: p < pages ==> !fails(p)
      invariant pages <= MAX_PAGES && Holds(Log(entries, next), history, Min(|history|, |log.entries| + PAGE_COUNT * pages))
    {
      assert Asked(|log.entries|, |history|, pages);
      if fails(pages) { return None; }
      var page := Page(history, next.value);
      entries, next, pages := entries + page.entries, page.next, pages + 1;
    }
    r := Some(Log(entries, next));
  }

  // ----- _fill_month_range -----

  const MAX_SPAN := 600

  datatype YearMonth = YearMonth(year: nat, month: nat)
  type Month = m: YearMonth | 1 <= m.month <= 12 witness YearMonth(1, 1)

  function Index(m: Month): nat { m.year * 12 + m.month - 1 }
  predicate Rising(ms: seq<Month>) { forall i, j :: 0 <= i < j < |ms| ==> Index(ms[i]) < Index(ms[j]) }
  predicate Contiguous(ms: seq<Month>) { forall i :: 0 <= i < |ms| ==> Index(ms[i]) == Index(ms[0]) + i }

  lemma IndexInjective(a: Month, b: Month)
    requires Index(a) == Index(b)
    ensures a == b
  {
  }

  /** Every month from the first to the last active one, once and in order; or, if the span is implausible,
      the active months as they are. */
  method FillMonthRange(active: seq<Month>) returns (out: seq<Month>)
    ensures |active| > 0 && 1 <= Index(active[|active| - 1]) - Index(active[0]) + 1 <= MAX_SPAN ==>
      Contiguous(out) && |out| == Index(active[|active| - 1]) - Index(active[0]) + 1 && out[0] == active[0]
    ensures |active| == 0 || Index(active[|active| - 1]) - Index(active[0]) + 1 < 1 || Index(active[|active| - 1]) - Index(active[0]) + 1 > MAX_SPAN
      ==> out == active
    ensures Rising(active) ==> Rising(out) && forall m :: m in active ==> m in out
  {
    if |active| == 0 { return []; }
    var first, last := active[0], active[|active| - 1];
    var y: nat, m: nat := first.year, first.month;
    var span := (last.year - y) * 12 + (last.month - m) + 1;
    if span < 1 || span > MAX_SPAN { return active; }
    out := [];
    while y < last.year || (y == last.year && m <= last.month)
      invariant 1 <= m <= 12 && Index(YearMonth(y, m)) == Index(first) + |out| <= Index(last) + 1
      invariant forall i :: 0 <= i < |out| ==> Index(out[i]) == Index(first) + i
      invariant if |out| > 0 then out[0] == first else YearMonth(y, m) == first
      decreases Index(last) + 1 - Index(YearMonth(y, m))
    {
      out := out + [YearMonth(y, m)];
      m := m + 1;
      if m > 12 { y, m := y + 1, 1; }
    }
    if Rising(active) { AllActive(active, out); }
  }

  lemma AllActive(active: seq<Month>, out: seq<Month>)
    requires Rising(active) && |active| > 0 && Contiguous(out)
    requires |out| == Index(active[|active| - 1]) - Index(active[0]) + 1 && out[0] == active[0]
    ensures forall m :: m in active ==> m in out
  {
    forall m | m in active ensures m in out {
      var i :| 0 <= i < |active| && active[i] == m;
      var k := Index(m) - Index(active[0]);
      assert 0 <= k < |out|;
      IndexInjective(out[k], m);
    }
  }

  // ----- _adoption_git_aggregate -----

  datatype Author = Blank | Automation(id: string) | Human(login: string)

  // A log entry: entries that are no dictionaries and migration commits are skipped, and an unreadable
  // timestamp gives no month.
  datatype Entry = Entry(skipped: bool, author: Author, month: Option<Month>)

  datatype Row = Row(key: string, authors: set<string>, commits: nat, months: set<Month>)

  // login -> the projects it touched, in the order logins first came up
  datatype Touched = Touched(login: string, projects: set<string>)

  datatype Totals = Totals(
    rows: seq<Row>, months: seq<Count<Month>>, builders: seq<Count<string>>, touched: seq<Touched>, commits: nat)

  function Touch(d: seq<Touched>, login: string, key: string): seq<Touched> {
    if |d| == 0 then [Touched(login, {key})]
    else if d[0].login == login then [Touched(login, d[0].projects + {key})] + d[1..]
    else [d[0]] + Touch(d[1..], login, key)
  }

  predicate HasTouched(d: seq<Touched>, login: string, key: string) {
    |d| > 0 && if d[0].login == login then key in d[0].projects else HasTouched(d[1..], login, key)
  }

  // The sum of projectCount over the builders.
  function ProjectCounts(d: seq<Touched>): nat { if |d| == 0 then 0 else |d[0].projects| + ProjectCounts(d[1..]) }

  function AuthorCounts(rows: seq<Row>): nat { if |rows| == 0 then 0 else AuthorCounts(rows[..|rows| - 1]) + |rows[|rows| - 1].authors| }
  function RowCommits(rows: seq<Row>): nat { if |rows| == 0 then 0 else RowCommits(rows[..|rows| - 1]) + rows[|rows| - 1].commits }

  lemma {:induction false} TouchCounts(d: seq<Touched>, login: string, key: string)
    ensures ProjectCounts(Touch(d, login, key)) == ProjectCounts(d) + if HasTouched(d, login, key) then 0 else 1
    ensures forall l, k :: HasTouched(Touch(d, login, key), l, k) <==> HasTouched(d, l, k) || (l == login && k == key)
  {
    if |d| > 0 {
      if d[0].login == login {
        assert key in d[0].projects ==> d[0].projects + {key} == d[0].projects;
      } else {
        TouchCounts(d[1..], login, key);
      }
    }
  }

  // One entry of the project whose row is being made.
  function AddEntry(t: Totals, row: Row, e: Entry): (Totals, Row) {
    if e.skipped || !e.author.Human? then (t, row)
    else
      var login := e.author.login;
      (t.(commits := t.commits + 1, builders := Bump(t.builders, login), touched := Touch(t.touched, login, row.key),
          months := if e.month.Some? then Bump(t.months, e.month.value) else t.months),
       row.(commits := row.commits + 1, authors := row.authors + {login},
            months := if e.month.Some? then row.months + {e.month.value} else row.months))
  }

  function AddEntries(t: Totals, row: Row, es: seq<Entry>): (Totals, Row) {
    if |es| == 0 then (t, row)
    else
      var r := AddEntries(t, row, es[..|es| - 1]);
      AddEntry(r.0, r.1, es[|es| - 1])
  }

  // One project; a missing or empty log adds no row.
  function AddProject(t: Totals, key: string, es: seq<Entry>): Totals {
    if |es| == 0 then t
    else
      var r := AddEntries(t, Row(key, {}, 0, {}), es);
      r.0.(rows := r.0.rows + [r.1])
  }

  const NOTHING := Totals([], [], [], [], 0)

  function LogOf(logs: map<string, seq<Entry>>, key: string): seq<Entry> { if key in logs then logs[key] else [] }

  function Aggregate(keys: seq<string>, logs: map<string, seq<Entry>>): Totals {
    if |keys| == 0 then NOTHING
    else AddProject(Aggregate(keys[..|keys| - 1], logs), keys[|keys| - 1], LogOf(logs, keys[|keys| - 1]))
  }

  // ----- what the sums should be -----

  predicate IsHuman(e: Entry) { !e.skipped && e.author.Human? }
  function HumanIn(es: seq<Entry>): nat { if |es| == 0 then 0 else HumanIn(es[..|es| - 1]) + if IsHuman(es[|es| - 1]) then 1 else 0 }
  function DatedIn(es: seq<Entry>): nat {
    if |es| == 0 then 0 else DatedIn(es[..|es| - 1]) + if IsHuman(es[|es| - 1]) && es[|es| - 1].month.Some? then 1 else 0
  }
  function HumanCommits(keys: seq<string>, logs: map<string, seq<Entry>>): nat {
    if |keys| == 0 then 0 else HumanCommits(keys[..|keys| - 1], logs) + HumanIn(LogOf(logs, keys[|keys| - 1]))
  }
  function DatedCommits(keys: seq<string>, logs: map<string, seq<Entry>>): nat {
    if |keys| == 0 then 0 else DatedCommits(keys[..|keys| - 1], logs) + DatedIn(LogOf(logs, keys[|keys| - 1]))
  }

  // Authors counted again because their project's key stands in the catalog more than once.
  function CountedAgain(rows: seq<Row>): nat {
    if |rows| == 0 then 0
    else CountedAgain(rows[..|rows| - 1]) + if HasRow(rows[..|rows| - 1], rows[|rows| - 1].key) then |rows[|rows| - 1].authors| else 0
  }
  predicate HasRow(rows: seq<Row>, key: string) { exists i :: 0 <= i < |rows| && rows[i].key == key }

  // The logins with a human commit in a log.
  function AuthorsOf(es: seq<Entry>): set<string> {
    if |es| == 0 then {} else AuthorsOf(es[..|es| - 1]) + if IsHuman(es[|es| - 1]) then {es[|es| - 1].author.login} else {}
  }

  lemma {:induction false} EntriesAdd(t: Totals, row: Row, es: seq<Entry>)
    ensures var r := AddEntries(t, row, es);
      && r.0.rows == t.rows && r.1.key == row.key
      && r.0.commits == t.commits + HumanIn(es) && r.1.commits == row.commits + HumanIn(es)
      && Total(r.0.builders) == Total(t.builders) + HumanIn(es) && Total(r.0.months) == Total(t.months) + DatedIn(es)
      && r.1.authors == row.authors + AuthorsOf(es)
  {
    if |es| > 0 {
      var init, e := es[..|es| - 1], es[|es| - 1];
      EntriesAdd(t, row, init);
      var r := AddEntries(t, row, init);
      if IsHuman(e) {
        BumpCounts(r.0.builders, e.author.login);
        if e.month.Some? { BumpCounts(r.0.months, e.month.value); }
      }
    }
  }

  /** Commits are conserved: project rows, builders and the total all count every human commit once, and
      the months count every dated one. */
  lemma {:induction false} CommitsAgree(keys: seq<string>, logs: map<string, seq<Entry>>)
    ensures var t := Aggregate(keys, logs);
      && t.commits == HumanCommits(keys, logs) && RowCommits(t.rows) == t.commits && Total(t.builders) == t.commits
      && Total(t.months) == DatedCommits(keys, logs)
  {
    if |keys| > 0 {
      var init, key := keys[..|keys| - 1], keys[|keys| - 1];
      CommitsAgree(init, logs);
      EntriesAdd(Aggregate(init, logs), Row(key, {}, 0, {}), LogOf(logs, key));
    }
  }

  // How many entries of the logs p holds of.
  function Matching(es: seq<Entry>, p: Entry -> bool): nat {
    if |es| == 0 then 0 else Matching(es[..|es| - 1], p) + if p(es[|es| - 1]) then 1 else 0
  }
  function MatchingAll(keys: seq<string>, logs: map<string, seq<Entry>>, p: Entry -> bool): nat {
    if |keys| == 0 then 0 else MatchingAll(keys[..|keys| - 1], logs, p) + Matching(LogOf(logs, keys[|keys| - 1]), p)
  }

  function By(login: string): Entry -> bool { (e: Entry) => !e.skipped && e.author == Human(login) }
  function During(m: Month): Entry -> bool { (e: Entry) => !e.skipped && e.author.Human? && e.month == Some(m) }

  lemma {:induction false} EntriesCount(t: Totals, row: Row, es: seq<Entry>, login: string, m: Month)
    ensures var r := AddEntries(t, row, es);
      && Get(r.0.builders, login) == Get(t.builders, login) + Matching(es, By(login))
      && Get(r.0.months, m) == Get(t.months, m) + Matching(es, During(m))
  {
    if |es| > 0 {
      var init, e := es[..|es| - 1], es[|es| - 1];
      EntriesCount(t, row, init, login, m);
      var r := AddEntries(t, row, init);
      if IsHuman(e) {
        BumpGet(r.0.builders, e.author.login, login);
        if e.month.Some? { BumpGet(r.0.months, e.month.value, m); }
      }
    }
  }

  /** Every counter counts what it is named for: a builder's its human commits in all the logs, a month's
      the human commits dated in it. */
  lemma {:induction false} CountersCount(keys: seq<string>, logs: map<string, seq<Entry>>, login: string, m: Month)
    ensures var t := Aggregate(keys, logs);
      Get(t.builders, login) == MatchingAll(keys, logs, By(login)) && Get(t.months, m) == MatchingAll(keys, logs, During(m))
  {
    if |keys| > 0 {
      var init, key := keys[..|keys| - 1], keys[|keys| - 1];
      CountersCount(init, logs, login, m);
      EntriesCount(Aggregate(init, logs), Row(key, {}, 0, {}), LogOf(logs, key), login, m);
    }
  }

  predicate AnyOf(es: seq<Entry>, p: Entry -> bool) { exists e :: e in es && p(e) }

  // A row says what its project's log holds: how many human commits, by whom and in which months.
  ghost predicate RowOf(row: Row, key: string, es: seq<Entry>) {
    && row.key == key && row.commits == Matching(es, e => IsHuman(e))
    && (forall l :: l in row.authors <==> AnyOf(es, By(l)))
    && (forall m :: m in row.months <==> AnyOf(es, During(m)))
  }

  lemma AnyOfSnoc(es: seq<Entry>, p: Entry -> bool)
    requires |es| > 0
    ensures AnyOf(es, p) <==> AnyOf(es[..|es| - 1], p) || p(es[|es| - 1])
  {
    assert es == es[..|es| - 1] + [es[|es| - 1]];
  }

  lemma {:induction false} EntriesMakeRow(t: Totals, key: string, es: seq<Entry>)
    ensures RowOf(AddEntries(t, Row(key, {}, 0, {}), es).1, key, es)
  {
    if |es| > 0 {
      var init, row := es[..|es| - 1], AddEntries(t, Row(key, {}, 0, {}), es).1;
      EntriesMakeRow(t, key, init);
      forall l ensures l in row.authors <==> AnyOf(es, By(l)) { AnyOfSnoc(es, By(l)); }
      forall m ensures m in row.months <==> AnyOf(es, During(m)) { AnyOfSnoc(es, During(m)); }
    }
  }

  // The projects that have a log, in catalog order.
  function WithLogs(keys: seq<string>, logs: map<string, seq<Entry>>): (ks: seq<string>)
    ensures forall i :: 0 <= i < |ks| ==> ks[i] in logs
  {
    if |keys| == 0 then []
    else
      var key := keys[|keys| - 1];
      WithLogs(keys[..|keys| - 1], logs) + if key in logs && |logs[key]| > 0 then [key] else []
  }

  /** There is one row for each project with a log, in catalog order, and each says what its log holds. */
  lemma {:induction false} RowsSay(keys: seq<string>, logs: map<string, seq<Entry>>)
    ensures var rows, ks := Aggregate(keys, logs).rows, WithLogs(keys, logs);
      |rows| == |ks| && forall i :: 0 <= i < |rows| ==> RowOf(rows[i], ks[i], logs[ks[i]])
  {
    if |keys| > 0 {
      var init, key := keys[..|keys| - 1], keys[|keys| - 1];
      RowsSay(init, logs);
      EntriesMakeRow(Aggregate(init, logs), key, LogOf(logs, key));
      EntriesAdd(Aggregate(init, logs), Row(key, {}, 0, {}), LogOf(logs, key));
    }
  }

  // The authors of a log that have not touched its project before.
  function NewAuthors(d: seq<Touched>, key: string, es: seq<Entry>): set<string> {
    set l | l in AuthorsOf(es) && !HasTouched(d, l, key)
  }

  lemma {:induction false} EntriesTouch(t: Totals, row: Row, es: seq<Entry>)
    ensures var r := AddEntries(t, row, es);
      && ProjectCounts(r.0.touched) == ProjectCounts(t.touched) + |NewAuthors(t.touched, row.key, es)|
      && forall l, k :: HasTouched(r.0.touched, l, k) <==> HasTouched(t.touched, l, k) || (k == row.key && l in AuthorsOf(es))
  {
    if |es| > 0 {
      var init, e := es[..|es| - 1], es[|es| - 1];
      EntriesTouch(t, row, init);
      EntriesAdd(t, row, init);
      var r := AddEntries(t, row, init);
      if IsHuman(e) {
        var login := e.author.login;
        TouchCounts(r.0.touched, login, row.key);
        assert HasTouched(r.0.touched, login, row.key) <==> HasTouched(t.touched, login, row.key) || login in AuthorsOf(init);
        NewAuthorsGrow(t.touched, row.key, es);
      } else {
        assert AuthorsOf(es) == AuthorsOf(init);
      }
    }
  }

  lemma NewAuthorsGrow(d: seq<Touched>, key: string, es: seq<Entry>)
    requires |es| > 0 && IsHuman(es[|es| - 1])
    ensures var init, login := es[..|es| - 1], es[|es| - 1].author.login;
      |NewAuthors(d, key, es)| == |NewAuthors(d, key, init)| + if HasTouched(d, login, key) || login in AuthorsOf(init) then 0 else 1
  {
    var init, login := es[..|es| - 1], es[|es| - 1].author.login;
    if HasTouched(d, login, key) || login in AuthorsOf(init) {
      assert NewAuthors(d, key, es) == NewAuthors(d, key, init);
    } else {
      assert NewAuthors(d, key, es) == NewAuthors(d, key, init) + {login};
    }
  }

  // Who has touched what: exactly the authors in the logs of the projects so far.
  ghost predicate TouchedOk(t: Totals, keys: seq<string>, logs: map<string, seq<Entry>>) {
    && (forall l, k :: HasTouched(t.touched, l, k) <==> k in keys && l in AuthorsOf(LogOf(logs, k)))
    && (forall k :: HasRow(t.rows, k) <==> k in keys && |LogOf(logs, k)| > 0)
    && AuthorCounts(t.rows) == ProjectCounts(t.touched) + CountedAgain(t.rows)
  }

  lemma HasRowSnoc(rows: seq<Row>, row: Row, k: string)
    ensures HasRow(rows + [row], k) <==> HasRow(rows, k) || row.key == k
  {
    if HasRow(rows, k) {
      var i :| 0 <= i < |rows| && rows[i].key == k;
      assert (rows + [row])[i].key == k;
    }
    if row.key == k { assert (rows + [row])[|rows|].key == k; }
  }

  lemma NewOrKnown(t: Totals, keys: seq<string>, logs: map<string, seq<Entry>>, key: string)
    requires TouchedOk(t, keys, logs) && |LogOf(logs, key)| > 0
    ensures var es := LogOf(logs, key);
      NewAuthors(t.touched, key, es) == if HasRow(t.rows, key) then {} else AuthorsOf(es)
  {
    assert HasRow(t.rows, key) <==> key in keys;
  }

  lemma ProjectTouches(t: Totals, keys: seq<string>, logs: map<string, seq<Entry>>, key: string)
    requires TouchedOk(t, keys, logs)
    ensures TouchedOk(AddProject(t, key, LogOf(logs, key)), keys + [key], logs)
  {
    var es := LogOf(logs, key);
    var row := Row(key, {}, 0, {});
    if |es| > 0 {
      var r := AddEntries(t, row, es);
      EntriesTouch(t, row, es);
      EntriesAdd(t, row, es);
      NewOrKnown(t, keys, logs, key);
      assert (r.0.rows + [r.1])[..|r.0.rows|] == t.rows && r.1.authors == AuthorsOf(es);
      forall k ensures HasRow(r.0.rows + [r.1], k) <==> k in keys + [key] && |LogOf(logs, k)| > 0 { HasRowSnoc(t.rows, r.1, k); }
    }
  }

  lemma {:induction false} TouchesFollow(keys: seq<string>, logs: map<string, seq<Entry>>)
    ensures TouchedOk(Aggregate(keys, logs), keys, logs)
  {
    if |keys| > 0 {
      var init := keys[..|keys| - 1];
      TouchesFollow(init, logs);
      ProjectTouches(Aggregate(init, logs), init, logs, keys[|keys| - 1]);
      assert keys == init + [keys[|keys| - 1]];
    }
  }

  // No key stands twice in the catalog whose log has a human author.
  predicate AuthorsOnce(keys: seq<string>, logs: map<string, seq<Entry>>) {
    forall i, j :: 0 <= i < j < |keys| && keys[i] == keys[j] ==> AuthorsOf(LogOf(logs, keys[i])) == {}
  }

  lemma AuthorsOnceSnoc(keys: seq<string>, key: string, logs: map<string, seq<Entry>>)
    ensures AuthorsOnce(keys + [key], logs) <==> AuthorsOnce(keys, logs) && (key in keys ==> AuthorsOf(LogOf(logs, key)) == {})
  {
    var all := keys + [key];
    if AuthorsOnce(all, logs) {
      forall i, j | 0 <= i < j < |keys| && keys[i] == keys[j] ensures AuthorsOf(LogOf(logs, keys[i])) == {} {
        assert all[i] == keys[i] && all[j] == keys[j];
      }
      if i :| 0 <= i < |keys| && keys[i] == key { assert all[i] == all[|keys|]; }
    }
  }

  lemma RowCountsAgain(t: Totals, keys: seq<string>, logs: map<string, seq<Entry>>, key: string)
    requires TouchedOk(t, keys, logs)
    ensures CountedAgain(AddProject(t, key, LogOf(logs, key)).rows) ==
      CountedAgain(t.rows) + if key in keys then |AuthorsOf(LogOf(logs, key))| else 0
  {
    var es := LogOf(logs, key);
    if |es| > 0 {
      EntriesAdd(t, Row(key, {}, 0, {}), es);
      var r := AddEntries(t, Row(key, {}, 0, {}), es);
      assert (r.0.rows + [r.1])[..|t.rows|] == t.rows && HasRow(t.rows, key) == (key in keys);
    }
  }

  lemma {:induction false} CountedAgainIff(keys: seq<string>, logs: map<string, seq<Entry>>)
    ensures CountedAgain(Aggregate(keys, logs).rows) == 0 <==> AuthorsOnce(keys, logs)
  {
    if |keys| > 0 {
      var init, key := keys[..|keys| - 1], keys[|keys| - 1];
      CountedAgainIff(init, logs);
      TouchesFollow(init, logs);
      RowCountsAgain(Aggregate(init, logs), init, logs, key);
      AuthorsOnceSnoc(init, key, logs);
      assert keys == init + [key];
    }
  }

  /** The summed author counts of the projects exceed the summed project counts of the builders by the
      authors counted again, so the two agree if and only if no key stands twice in the catalog whose log
      has a human author. */
  lemma PeopleAgree(keys: seq<string>, logs: map<string, seq<Entry>>)
    ensures var t := Aggregate(keys, logs);
      && AuthorCounts(t.rows) == ProjectCounts(t.touched) + CountedAgain(t.rows)
      && (AuthorCounts(t.rows) == ProjectCounts(t.touched) <==> AuthorsOnce(keys, logs))
  {
    TouchesFollow(keys, logs);
    CountedAgainIff(keys, logs);
  }

  lemma DistinctKeysAgree(keys: seq<string>, logs: map<string, seq<Entry>>)
    requires Distinct(keys)
    ensures AuthorCounts(Aggregate(keys, logs).rows) == ProjectCounts(Aggregate(keys, logs).touched)
  {
    PeopleAgree(keys, logs);
  }

  // ----- the aggregate's loops -----

  /** _adoption_git_aggregate, as far as its counters go. */
  method AdoptionGitAggregate(keys: seq<string>, logs: map<string, seq<Entry>>) returns (t: Totals)
    ensures t == Aggregate(keys, logs)
  {
    t := NOTHING;
    var i := 0;
    while i < |keys|
      invariant i <= |keys| && t == Aggregate(keys[..i], logs)
    {
      assert keys[..i + 1][..i] == keys[..i] && keys[..i + 1][i] == keys[i];
      var es := LogOf(logs, keys[i]);
      if |es| > 0 {
        ghost var before := t;
        var row := Row(keys[i], {}, 0, {});
        var j := 0;
        while j < |es|
          invariant j <= |es| && (t, row) == AddEntries(before, Row(keys[i], {}, 0, {}), es[..j])
        {
          assert es[..j + 1][..j] == es[..j] && es[..j + 1][j] == es[j];
          var e := es[j];
          if !e.skipped && e.author.Human? {
            var login := e.author.login;
            t := t.(commits := t.commits + 1, builders := Bump(t.builders, login), touched := Touch(t.touched, login, row.key));
            row := row.(commits := row.commits + 1, authors := row.authors + {login});
            if e.month.Some? {
              t := t.(months := Bump(t.months, e.month.value));
              row := row.(months := row.months + {e.month.value});
            }
          }
          j := j + 1;
        }
        assert es[..j] == es;
        t := t.(rows := t.rows + [row]);
      }
      i := i + 1;
    }
    assert keys[..i] == keys;
  }

  // ----- the monthly trend -----

  lemma {:induction false} MonthsDistinct(t: Totals, row: Row, es: seq<Entry>)
    requires Distinct(Keys(t.months))
    ensures Distinct(Keys(AddEntries(t, row, es).0.months))
  {
    if |es| > 0 {
      MonthsDistinct(t, row, es[..|es| - 1]);
      var e := es[|es| - 1];
      if IsHuman(e) && e.month.Some? { BumpDistinct(AddEntries(t, row, es[..|es| - 1]).0.months, e.month.value); }
    }
  }

  lemma {:induction false} AggregateMonthsDistinct(keys: seq<string>, logs: map<string, seq<Entry>>)
    ensures Distinct(Keys(Aggregate(keys, logs).months))
  {
    if |keys| > 0 {
      AggregateMonthsDistinct(keys[..|keys| - 1], logs);
      MonthsDistinct(Aggregate(keys[..|keys| - 1], logs), Row(keys[|keys| - 1], {}, 0, {}), LogOf(logs, keys[|keys| - 1]));
    }
  }

  function Keyed(ms: seq<Month>): (r: seq<KeyedSort.Keyed<Month>>)
    ensures |r| == |ms| && forall i :: 0 <= i < |r| ==> r[i] == KeyedSort.Keyed(Index(ms[i]), ms[i])
  {
    seq(|ms|, i requires 0 <= i < |ms| => KeyedSort.Keyed(Index(ms[i]), ms[i]))
  }

  function Latest(ms: seq<Month>): (m: nat)
    ensures forall i :: 0 <= i < |ms| ==> Index(ms[i]) <= m
  {
    if |ms| == 0 then 0
    else
      var m := Latest(ms[..|ms| - 1]);
      if m < Index(ms[|ms| - 1]) then Index(ms[|ms| - 1]) else m
  }

  // sorted(month_commits.keys())
  function SortMonths(ms: seq<Month>): seq<Month> { Payloads(SortKeyed(Keyed(ms))) }

  lemma SortedMonths(ms: seq<Month>)
    requires Distinct(ms)
    ensures Rising(SortMonths(ms)) && forall m :: m in ms ==> m in SortMonths(ms)
  {
    var ks := Keyed(ms);
    var sorted := SortKeyed(ks);
    SortSorts(ks, Latest(ms));
    forall i | 0 <= i < |sorted| ensures sorted[i].key == Index(sorted[i].value) { assert sorted[i] in multiset(ks); }
    forall m | m in ms ensures m in SortMonths(ms) {
      var i :| 0 <= i < |ms| && ms[i] == m;
      assert ks[i] in multiset(sorted);
      var j :| 0 <= j < |sorted| && sorted[j] == ks[i];
      assert SortMonths(ms)[j] == m;
    }
    NoKeyTwice(ks, sorted);
  }

  // Distinct months have distinct keys, so the sorted keys rise strictly.
  lemma NoKeyTwice(ks: seq<KeyedSort.Keyed<Month>>, sorted: seq<KeyedSort.Keyed<Month>>)
    requires multiset(ks) == multiset(sorted) && Ascending(sorted)
    requires forall i, j :: 0 <= i < j < |ks| ==> ks[i] != ks[j]
    requires forall i :: 0 <= i < |sorted| ==> sorted[i].key == Index(sorted[i].value)
    ensures forall i, j :: 0 <= i < j < |sorted| ==> sorted[i].key < sorted[j].key
  {
    forall i, j | 0 <= i < j < |sorted| ensures sorted[i].key < sorted[j].key {
      if sorted[i].key == sorted[j].key {
        IndexInjective(sorted[i].value, sorted[j].value);
        assert sorted[i] == sorted[j];
        TwiceInMultiset(sorted, i, j);
        OnceInMultiset(ks, sorted[i]);
      }
    }
  }

  /** The monthly trend: every month from the first to the last active one, or only the active ones if the
      span is implausible; either way its commits sum to the dated human commits. */
  method MonthlyTrend(keys: seq<string>, logs: map<string, seq<Entry>>) returns (trend: seq<Count<Month>>)
    ensures Rising(Keys(trend)) && Total(trend) == DatedCommits(keys, logs)
    ensures trend == Shows(Keys(trend), Aggregate(keys, logs).months)
  {
    var t := AdoptionGitAggregate(keys, logs);
    CommitsAgree(keys, logs);
    AggregateMonthsDistinct(keys, logs);
    SortedMonths(Keys(t.months));
    var filled := FillMonthRange(SortMonths(Keys(t.months)));
    RisingIsDistinct(filled);
    ShownIsTotal(filled, t.months);
    trend := Shows(filled, t.months);
    ShowsTotal(filled, t.months);
    assert Keys(trend) == filled;
  }

  lemma RisingIsDistinct(ms: seq<Month>)
    requires Rising(ms)
    ensures Distinct(ms)
  {
  }

  function Shows(ms: seq<Month>, d: seq<Count<Month>>): (r: seq<Count<Month>>)
    ensures |r| == |ms| && forall i :: 0 <= i < |r| ==> r[i] == Count(ms[i], Get(d, ms[i]))
  {
    seq(|ms|, i requires 0 <= i < |ms| => Count(ms[i], Get(d, ms[i])))
  }

  lemma {:induction false} ShowsTotal(ms: seq<Month>, d: seq<Count<Month>>)
    ensures Total(Shows(ms, d)) == Shown(ms, d)
  {
    if |ms| > 0 {
      ShowsTotal(ms[1..], d);
      assert Shows(ms, d)[1..] == Shows(ms[1..], d);
    }
  }
}
