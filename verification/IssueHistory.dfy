/** What a database holds, read off the sequence of ingests alone.  Both back ends keep their
    tables equal to these functions; the theorems say what the functions amount to. */
module IssueHistory {
  import opened Wrappers
  import opened TrackingSchema

  // The k-th ingest of a database, counting from 1, is run k.

  function IssueAfter(h: seq<RunInput>, k: IssueKey): Option<Issue> {
    if h == [] then None
    else IngestIssue(IssueAfter(h[..|h| - 1], k), k, h[|h| - 1], |h|)
  }

  datatype Kind = Users | Projects

  function Roster(run: RunInput, kind: Kind): seq<EntityInput> {
    if kind.Users? then run.users else run.projects
  }

  function EntityAfter(h: seq<RunInput>, kind: Kind, k: EntityRowKey): Option<KnownEntity> {
    if h == [] then None
    else
      var run := h[|h| - 1];
      IngestEntity(EntityAfter(h[..|h| - 1], kind, k), k, Roster(run, kind), Ctx(run.instance, |h|, run.now))
  }

  function FindingAfter(h: seq<RunInput>, k: FindingKey): Option<Finding> {
    if h == [] then None
    else IngestFinding(FindingAfter(h[..|h| - 1], k), k, h[|h| - 1].findings, |h|)
  }

  // The tables hold exactly what the history of ingests accounts for.
  ghost predicate Holds(h: seq<RunInput>, issues: IssueTable, findings: FindingTable, users: EntityTable, projects: EntityTable) {
    && (forall k :: Body(issues, k) == IssueAfter(h, k))
    && (forall k :: Body(findings, k) == FindingAfter(h, k))
    && (forall k :: LookupEntity(users, k) == EntityAfter(h, Users, k))
    && (forall k :: LookupEntity(projects, k) == EntityAfter(h, Projects, k))
  }

  // Every run has its row, with the coverage of its sections.
  ghost predicate CoverageKept(h: seq<RunInput>, coverage: map<nat, Coverage>) {
    forall i :: (i in coverage <==> 1 <= i <= |h|) && (i in coverage ==> coverage[i] == CoverageOf(h[i - 1].sections))
  }

  lemma CoverageGrows(h: seq<RunInput>, run: RunInput, before: map<nat, Coverage>, after: map<nat, Coverage>)
    requires CoverageKept(h, before) && after == before[|h| + 1 := CoverageOf(run.sections)]
    ensures CoverageKept(h + [run], after)
  {
  }

  ghost predicate IssuesIngested(run: RunInput, id: nat, t: IssueTable, t': IssueTable) {
    forall k :: Body(t', k) == IngestIssue(Body(t, k), k, run, id)
  }

  ghost predicate FindingsIngested(fs: seq<FindingInput>, id: nat, t: FindingTable, t': FindingTable) {
    forall k :: Body(t', k) == IngestFinding(Body(t, k), k, fs, id)
  }

  ghost predicate EntitiesIngested(us: seq<EntityInput>, ctx: Ctx, t: EntityTable, t': EntityTable) {
    forall k :: LookupEntity(t', k) == IngestEntity(LookupEntity(t, k), k, us, ctx)
  }

  // Every table went through the ingest of a run.
  ghost predicate Ingested(run: RunInput, id: nat,
                           issues: IssueTable, findings: FindingTable, users: EntityTable, projects: EntityTable,
                           issues': IssueTable, findings': FindingTable, users': EntityTable, projects': EntityTable) {
    && IssuesIngested(run, id, issues, issues')
    && FindingsIngested(run.findings, id, findings, findings')
    && EntitiesIngested(run.users, Ctx(run.instance, id, run.now), users, users')
    && EntitiesIngested(run.projects, Ctx(run.instance, id, run.now), projects, projects')
  }

  lemma HistoryGrows(h: seq<RunInput>, run: RunInput,
                     issues: IssueTable, findings: FindingTable, users: EntityTable, projects: EntityTable,
                     issues': IssueTable, findings': FindingTable, users': EntityTable, projects': EntityTable)
    requires Holds(h, issues, findings, users, projects)
    requires Ingested(run, |h| + 1, issues, findings, users, projects, issues', findings', users', projects')
    ensures Holds(h + [run], issues', findings', users', projects')
  {
    assert (h + [run])[..|h + [run]| - 1] == h;
  }

  // ----- events of one issue key -----

  predicate Hits(run: RunInput, k: IssueKey) {
    run.instance == k.instance && exists f :: f in run.findings && ValidFinding(f) && KeyOf(run.instance, f) == k
  }

  // The run would resolve the issue: its campaign's sections all completed and no finding names it.
  predicate Clears(run: RunInput, k: IssueKey) {
    && run.instance == k.instance && !Hits(run, k) && k.campaign in CAMPAIGN_REQUIRED_SECTIONS
    && forall s :: s in CAMPAIGN_REQUIRED_SECTIONS[k.campaign] ==> s in run.sections && run.sections[s] == Some("success")
  }

  predicate HitAt(h: seq<RunInput>, i: int, k: IssueKey) { 0 <= i < |h| && Hits(h[i], k) }
  predicate ClearAt(h: seq<RunInput>, i: int, k: IssueKey) { 0 <= i < |h| && Clears(h[i], k) }

  ghost predicate FirstHit(h: seq<RunInput>, i: int, k: IssueKey) {
    HitAt(h, i, k) && forall j :: 0 <= j < i ==> !HitAt(h, j, k)
  }

  ghost predicate LastHit(h: seq<RunInput>, i: int, k: IssueKey) {
    HitAt(h, i, k) && forall j :: i < j < |h| ==> !HitAt(h, j, k)
  }

  // c is the first clearing run after i.
  ghost predicate FirstClearAfter(h: seq<RunInput>, i: int, c: int, k: IssueKey) {
    i < c && ClearAt(h, c, k) && forall j :: i < j < c ==> !ClearAt(h, j, k)
  }

  // Run i finds the issue again, after a run that cleared it since the previous finding p.
  ghost predicate RegressionAt(h: seq<RunInput>, i: int, k: IssueKey) {
    HitAt(h, i, k) && exists p, c :: RegressionWitness(h, p, c, i, k)
  }

  ghost predicate RegressionWitness(h: seq<RunInput>, p: int, c: int, i: int, k: IssueKey) {
    p < c < i && HitAt(h, p, k) && ClearAt(h, c, k) && forall j :: p < j < i ==> !HitAt(h, j, k)
  }

  ghost function Regressions(h: seq<RunInput>, k: IssueKey): set<int> {
    set i | 0 <= i < |h| && RegressionAt(h, i, k)
  }

  // The finding whose columns the issue shows: the last one of the run that names it.
  ghost predicate LastFinding(run: RunInput, f: FindingInput, k: IssueKey) {
    exists n :: LastFindingAt(run.instance, run.findings, n, f, k)
  }

  ghost predicate LastFindingAt(instance: string, fs: seq<FindingInput>, n: int, f: FindingInput, k: IssueKey) {
    && 0 <= n < |fs| && fs[n] == f && ValidFinding(f) && KeyOf(instance, f) == k
    && forall m :: n < m < |fs| && ValidFinding(fs[m]) ==> KeyOf(instance, fs[m]) != k
  }

  ghost predicate ShowsFinding(b: Issue, f: FindingInput) {
    b.ownerLogin == f.ownerLogin && b.ownerEmail == f.ownerEmail && b.entityName == f.entityName && b.metrics == f.metrics
  }

  // First and last finding runs, and the columns of the last finding.
  ghost predicate Dates(h: seq<RunInput>, k: IssueKey, b: Issue) {
    && 1 <= b.firstRun <= b.lastRun <= |h|
    && FirstHit(h, b.firstRun - 1, k) && b.firstAt == h[b.firstRun - 1].now
    && LastHit(h, b.lastRun - 1, k) && b.lastAt == h[b.lastRun - 1].now
    && exists f :: LastFinding(h[b.lastRun - 1], f, k) && ShowsFinding(b, f)
  }

  // Resolved exactly when a run after the last finding clears it; the first such run is recorded.
  ghost predicate Resolution(h: seq<RunInput>, k: IssueKey, b: Issue) {
    && (b.status.Resolved? <==> exists c :: b.lastRun <= c && ClearAt(h, c, k))
    && (if b.status.Resolved? then
          && b.resolvedRun.Some? && b.resolvedAt.Some? && b.reason.Some?
          && 1 <= b.resolvedRun.value <= |h| && FirstClearAfter(h, b.lastRun - 1, b.resolvedRun.value - 1, k)
          && b.resolvedAt.value == h[b.resolvedRun.value - 1].now
          && b.reason.value == WhyResolved(k, Entities(h[b.resolvedRun.value - 1].findings))
        else b.resolvedRun.None? && b.resolvedAt.None? && b.reason.None?)
  }

  ghost predicate Recurrence(h: seq<RunInput>, k: IssueKey, b: Issue) {
    && b.timesRegressed == |Regressions(h, k)|
    && (!b.status.Resolved? ==> (b.status.Regressed? <==> b.timesRegressed > 0))
    && b.timesEmailed == 0
  }

  // Every column of an issue, as its history fixes it.
  ghost predicate Describes(h: seq<RunInput>, k: IssueKey, b: Issue) {
    Dates(h, k, b) && Resolution(h, k, b) && Recurrence(h, k, b)
  }

  // ----- one run, seen as an event -----

  ghost predicate Named(instance: string, fs: seq<FindingInput>, k: IssueKey) {
    exists g :: g in fs && ValidFinding(g) && KeyOf(instance, g) == k
  }

  // What detecting the findings fs one after the other amounts to.
  ghost predicate DetectsLast(o: Option<Issue>, k: IssueKey, run: RunInput, fs: seq<FindingInput>, ctx: Ctx, f: FindingInput) {
    && (!Named(run.instance, fs, k) ==> DetectAll(o, k, fs, ctx) == o)
    && (Named(run.instance, fs, k) ==>
          DetectAll(o, k, fs, ctx) == Some(Detect(o, f, ctx)) && LastFinding(run.(findings := fs), f, k))
  }

  lemma DetectTwice(o: Option<Issue>, f: FindingInput, g: FindingInput, ctx: Ctx)
    ensures Detect(Some(Detect(o, f, ctx)), g, ctx) == Detect(o, g, ctx)
  {
  }

  lemma NamedSnoc(instance: string, fs: seq<FindingInput>, g: FindingInput, k: IssueKey)
    ensures Named(instance, fs + [g], k) <==> Named(instance, fs, k) || (ValidFinding(g) && KeyOf(instance, g) == k)
  {
    if q :| q in fs && ValidFinding(q) && KeyOf(instance, q) == k { assert q in fs + [g]; }
    if ValidFinding(g) && KeyOf(instance, g) == k { assert g in fs + [g]; }
  }

  lemma DetectOneMore(o: Option<Issue>, k: IssueKey, run: RunInput, fs: seq<FindingInput>, g: FindingInput, ctx: Ctx, f: FindingInput)
    requires ctx.instance == run.instance && DetectsLast(o, k, run, fs, ctx, f)
    ensures DetectsLast(o, k, run, fs + [g], ctx, if ValidFinding(g) && KeyOf(run.instance, g) == k then g else f)
  {
    var more := fs + [g];
    NamedSnoc(run.instance, fs, g, k);
    assert more[..|fs|] == fs;
    if ValidFinding(g) && KeyOf(run.instance, g) == k {
      DetectTwice(o, f, g, ctx);
      assert LastFindingAt(run.instance, more, |fs|, g, k);
    } else if Named(run.instance, fs, k) {
      assert more[..|more|] == more;
      LastFindingSnoc(run.(findings := more), |more|, f, k);
    }
  }

  /** However often a run names an issue, its findings act as one detection by the last of them. */
  lemma {:induction false} DetectAllIsLastFinding(o: Option<Issue>, k: IssueKey, run: RunInput, n: nat, ctx: Ctx) returns (f: FindingInput)
    requires n <= |run.findings| && ctx.instance == run.instance
    ensures DetectsLast(o, k, run, run.findings[..n], ctx, f)
  {
    if n == 0 {
      f := FindingInput("", "", "", None, "", None, None);
    } else {
      var g, fs := run.findings[n - 1], run.findings[..n - 1];
      f := DetectAllIsLastFinding(o, k, run, n - 1, ctx);
      DetectOneMore(o, k, run, fs, g, ctx, f);
      assert run.findings[..n] == fs + [g];
      f := if ValidFinding(g) && KeyOf(run.instance, g) == k then g else f;
    }
  }

  lemma LastFindingSnoc(run: RunInput, n: nat, f: FindingInput, k: IssueKey)
    requires 0 < n <= |run.findings| && LastFinding(run.(findings := run.findings[..n - 1]), f, k)
    requires !(ValidFinding(run.findings[n - 1]) && KeyOf(run.instance, run.findings[n - 1]) == k)
    ensures LastFinding(run.(findings := run.findings[..n]), f, k)
  {
    var a, b := run.findings[..n - 1], run.findings[..n];
    var i :| LastFindingAt(run.instance, a, i, f, k);
    assert b == a + [run.findings[n - 1]];
    assert LastFindingAt(run.instance, b, i, f, k);
  }

  function Cleared(o: Option<Issue>, k: IssueKey, run: RunInput, id: nat): Option<Issue> {
    if o.Some? && !o.value.status.Resolved?
    then Some(Resolve(o.value, Ctx(run.instance, id, run.now), WhyResolved(k, Entities(run.findings)))) else o
  }

  lemma RunIsOneEvent(o: Option<Issue>, k: IssueKey, run: RunInput, id: nat) returns (f: FindingInput)
    ensures var ctx := Ctx(run.instance, id, run.now);
      && (Hits(run, k) ==> IngestIssue(o, k, run, id) == Some(Detect(o, f, ctx)) && LastFinding(run, f, k))
      && (Clears(run, k) ==> IngestIssue(o, k, run, id) == Cleared(o, k, run, id))
      && (!Hits(run, k) && !Clears(run, k) ==> IngestIssue(o, k, run, id) == o)
  {
    var ctx := Ctx(run.instance, id, run.now);
    f := DetectAllIsLastFinding(o, k, run, |run.findings|, ctx);
    assert run.findings[..|run.findings|] == run.findings;
    assert run.(findings := run.findings) == run;
    assert run.instance == k.instance ==>
      (Hits(run, k) <==> (k.campaign, k.entityType, k.entityKey) in FindingKeys(run.findings)) by {
      if g :| g in run.findings && ValidFinding(g) && (g.campaign, g.entityType, g.entityKey) == (k.campaign, k.entityType, k.entityKey) && run.instance == k.instance {
        assert KeyOf(run.instance, g) == k;
      }
    }
  }

  // ----- histories, one run longer -----

  lemma EventsKept(h: seq<RunInput>, run: RunInput, k: IssueKey)
    ensures forall i {:trigger HitAt(h + [run], i, k)} :: HitAt(h + [run], i, k) <==> HitAt(h, i, k) || (i == |h| && Hits(run, k))
    ensures forall i {:trigger ClearAt(h + [run], i, k)} :: ClearAt(h + [run], i, k) <==> ClearAt(h, i, k) || (i == |h| && Clears(run, k))
  {
  }

  lemma RegressionKept(h: seq<RunInput>, run: RunInput, i: int, k: IssueKey)
    requires 0 <= i < |h|
    ensures RegressionAt(h + [run], i, k) <==> RegressionAt(h, i, k)
  {
    var h' := h + [run];
    EventsKept(h, run, k);
    if p, c :| RegressionWitness(h, p, c, i, k) {
      assert RegressionWitness(h', p, c, i, k);
    }
    if p, c :| RegressionWitness(h', p, c, i, k) {
      assert forall j :: p < j < i ==> (HitAt(h, j, k) ==> HitAt(h', j, k));
      assert RegressionWitness(h, p, c, i, k);
    }
  }

  lemma RegressionsGrow(h: seq<RunInput>, run: RunInput, k: IssueKey)
    ensures Regressions(h + [run], k) == Regressions(h, k) + if RegressionAt(h + [run], |h|, k) then {|h|} else {}
    ensures |Regressions(h + [run], k)| == |Regressions(h, k)| + if RegressionAt(h + [run], |h|, k) then 1 else 0
  {
    forall i | 0 <= i < |h| ensures RegressionAt(h + [run], i, k) <==> RegressionAt(h, i, k) {
      RegressionKept(h, run, i, k);
    }
    assert |h| !in Regressions(h, k);
  }

  lemma RegressionMeansResolved(h: seq<RunInput>, run: RunInput, k: IssueKey, b: Issue)
    requires Dates(h, k, b) && Resolution(h, k, b) && Hits(run, k)
    ensures RegressionAt(h + [run], |h|, k) <==> b.status.Resolved?
  {
    var h' := h + [run];
    EventsKept(h, run, k);
    assert HitAt(h', |h|, k);
    if b.status.Resolved? {
      assert RegressionWitness(h', b.lastRun - 1, b.resolvedRun.value - 1, |h|, k);
    }
    if p, c :| RegressionWitness(h', p, c, |h|, k) {
      assert HitAt(h, p, k) && HitAt(h', b.lastRun - 1, k) && ClearAt(h, c, k);
      assert p == b.lastRun - 1;
    }
  }

  lemma FirstDetection(h: seq<RunInput>, run: RunInput, k: IssueKey, b: Issue, f: FindingInput)
    requires forall i :: !HitAt(h, i, k)
    requires Hits(run, k) && LastFinding(run, f, k)
    requires b == NewIssue(f, Ctx(run.instance, |h| + 1, run.now))
    ensures Describes(h + [run], k, b)
  {
    var h' := h + [run];
    EventsKept(h, run, k);
    assert HitAt(h', |h|, k) && ShowsFinding(b, f);
    forall i | 0 <= i < |h'| ensures !RegressionAt(h', i, k) {
      assert forall p, c :: RegressionWitness(h', p, c, i, k) ==> HitAt(h', p, k);
    }
    assert Regressions(h', k) == {};
  }

  lemma DatesMove(h: seq<RunInput>, run: RunInput, k: IssueKey, b: Issue, f: FindingInput)
    requires Dates(h, k, b) && Hits(run, k) && LastFinding(run, f, k)
    ensures Dates(h + [run], k, Detect(Some(b), f, Ctx(run.instance, |h| + 1, run.now)))
  {
    EventsKept(h, run, k);
    assert ShowsFinding(Detect(Some(b), f, Ctx(run.instance, |h| + 1, run.now)), f);
    assert HitAt(h + [run], |h|, k);
  }

  lemma LaterDetection(h: seq<RunInput>, run: RunInput, k: IssueKey, b: Issue, f: FindingInput)
    requires Describes(h, k, b) && Hits(run, k) && LastFinding(run, f, k)
    ensures Describes(h + [run], k, Detect(Some(b), f, Ctx(run.instance, |h| + 1, run.now)))
  {
    DatesMove(h, run, k, b, f);
    RegressionsGrow(h, run, k);
    RegressionMeansResolved(h, run, k, b);
  }

  lemma DatesStay(h: seq<RunInput>, run: RunInput, k: IssueKey, b: Issue)
    requires Dates(h, k, b) && !Hits(run, k)
    ensures Dates(h + [run], k, b)
  {
    EventsKept(h, run, k);
  }

  lemma ResolutionStays(h: seq<RunInput>, run: RunInput, k: IssueKey, b: Issue)
    requires 1 <= b.lastRun <= |h| && Resolution(h, k, b) && (Clears(run, k) ==> b.status.Resolved?)
    ensures Resolution(h + [run], k, b)
  {
    EventsKept(h, run, k);
    if c :| b.lastRun <= c && ClearAt(h, c, k) { assert ClearAt(h + [run], c, k); }
  }

  lemma ResolutionMade(h: seq<RunInput>, run: RunInput, k: IssueKey, b: Issue)
    requires 1 <= b.lastRun <= |h| && Resolution(h, k, b) && Clears(run, k) && !b.status.Resolved?
    ensures Resolution(h + [run], k, Cleared(Some(b), k, run, |h| + 1).value)
  {
    EventsKept(h, run, k);
    assert ClearAt(h + [run], |h|, k);
    assert FirstClearAfter(h + [run], b.lastRun - 1, |h|, k);
  }

  lemma RecurrenceStays(h: seq<RunInput>, run: RunInput, k: IssueKey, b: Issue)
    requires Recurrence(h, k, b) && !Hits(run, k)
    ensures Recurrence(h + [run], k, b)
  {
    RegressionsGrow(h, run, k);
  }

  lemma RunWithoutFinding(h: seq<RunInput>, run: RunInput, k: IssueKey, b: Issue)
    requires Describes(h, k, b) && !Hits(run, k)
    ensures Describes(h + [run], k, if Clears(run, k) then Cleared(Some(b), k, run, |h| + 1).value else b)
  {
    DatesStay(h, run, k, b);
    RecurrenceStays(h, run, k, b);
    if Clears(run, k) && !b.status.Resolved? {
      ResolutionMade(h, run, k, b);
      DatesIgnoreStatus(h + [run], k, b, Cleared(Some(b), k, run, |h| + 1).value);
    } else {
      ResolutionStays(h, run, k, b);
    }
  }

  lemma DatesIgnoreStatus(h: seq<RunInput>, k: IssueKey, b: Issue, b': Issue)
    requires Dates(h, k, b)
    requires b' == b.(status := b'.status, resolvedRun := b'.resolvedRun, resolvedAt := b'.resolvedAt, reason := b'.reason)
    ensures Dates(h, k, b')
  {
    var f :| LastFinding(h[b.lastRun - 1], f, k) && ShowsFinding(b, f);
    assert ShowsFinding(b', f);
  }

  /** After any sequence of ingests an issue exists exactly when some run found it, and then its
      history fixes its record: first and last finding runs, whether and when it was resolved and
      why, how often it regressed, and the columns of the last finding. */
  lemma {:induction false} IssueIsItsHistory(h: seq<RunInput>, k: IssueKey)
    ensures IssueAfter(h, k).Some? <==> exists i :: HitAt(h, i, k)
    ensures IssueAfter(h, k).Some? ==> Describes(h, k, IssueAfter(h, k).value)
  {
    if h != [] {
      var init, run := h[..|h| - 1], h[|h| - 1];
      assert h == init + [run];
      IssueIsItsHistory(init, k);
      OneMoreRun(init, run, k, IssueAfter(init, k));
    }
  }

  lemma OneMoreRun(h: seq<RunInput>, run: RunInput, k: IssueKey, o: Option<Issue>)
    requires o.Some? <==> exists i :: HitAt(h, i, k)
    requires o.Some? ==> Describes(h, k, o.value)
    ensures var o' := IngestIssue(o, k, run, |h| + 1);
      && (o'.Some? <==> exists i :: HitAt(h + [run], i, k))
      && (o'.Some? ==> Describes(h + [run], k, o'.value))
  {
    var f := RunIsOneEvent(o, k, run, |h| + 1);
    EventsKept(h, run, k);
    if Hits(run, k) {
      assert HitAt(h + [run], |h|, k);
      if o.None? { FirstDetection(h, run, k, IngestIssue(o, k, run, |h| + 1).value, f); }
      else { LaterDetection(h, run, k, o.value, f); }
    } else if o.Some? {
      var i :| HitAt(h, i, k);
      assert HitAt(h + [run], i, k);
      RunWithoutFinding(h, run, k, o.value);
    }
  }

  /** A history determines the record: two issues it describes are equal, columns of the last
      finding included, so Describes leaves nothing to the implementation. */
  lemma DescribesIsExact(h: seq<RunInput>, k: IssueKey, a: Issue, b: Issue)
    requires Describes(h, k, a) && Describes(h, k, b)
    ensures a == b
  {
    DatesExact(h, k, a, b);
    ResolutionExact(h, k, a, b);
  }

  lemma HitsUnique(h: seq<RunInput>, i: int, j: int, k: IssueKey)
    ensures FirstHit(h, i, k) && FirstHit(h, j, k) ==> i == j
    ensures LastHit(h, i, k) && LastHit(h, j, k) ==> i == j
  {
    assert HitAt(h, i, k) && HitAt(h, j, k) ==> 0 <= i < |h| && 0 <= j < |h|;
  }

  lemma DatesExact(h: seq<RunInput>, k: IssueKey, a: Issue, b: Issue)
    requires Dates(h, k, a) && Dates(h, k, b)
    ensures a.firstRun == b.firstRun && a.lastRun == b.lastRun && a.firstAt == b.firstAt && a.lastAt == b.lastAt
    ensures a.ownerLogin == b.ownerLogin && a.ownerEmail == b.ownerEmail && a.entityName == b.entityName && a.metrics == b.metrics
  {
    HitsUnique(h, a.firstRun - 1, b.firstRun - 1, k);
    HitsUnique(h, a.lastRun - 1, b.lastRun - 1, k);
    ColumnsExact(h[a.lastRun - 1], k, a, b);
  }

  lemma ColumnsExact(run: RunInput, k: IssueKey, a: Issue, b: Issue)
    requires exists f :: LastFinding(run, f, k) && ShowsFinding(a, f)
    requires exists f :: LastFinding(run, f, k) && ShowsFinding(b, f)
    ensures a.ownerLogin == b.ownerLogin && a.ownerEmail == b.ownerEmail && a.entityName == b.entityName && a.metrics == b.metrics
  {
    var f :| LastFinding(run, f, k) && ShowsFinding(a, f);
    var g :| LastFinding(run, g, k) && ShowsFinding(b, g);
    LastFindingUnique(run, f, g, k);
  }

  lemma ResolutionExact(h: seq<RunInput>, k: IssueKey, a: Issue, b: Issue)
    requires Resolution(h, k, a) && Resolution(h, k, b) && a.lastRun == b.lastRun
    ensures a.status.Resolved? == b.status.Resolved?
    ensures a.resolvedRun == b.resolvedRun && a.resolvedAt == b.resolvedAt && a.reason == b.reason
  {
    if a.status.Resolved? {
      var c, d := a.resolvedRun.value - 1, b.resolvedRun.value - 1;
      assert ClearAt(h, c, k) && ClearAt(h, d, k) && c == d;
    }
  }

  lemma LastFindingUnique(run: RunInput, f: FindingInput, g: FindingInput, k: IssueKey)
    requires LastFinding(run, f, k) && LastFinding(run, g, k)
    ensures f == g
  {
    var fs := run.findings;
    var i :| LastFindingAt(run.instance, fs, i, f, k);
    var j :| LastFindingAt(run.instance, fs, j, g, k);
    assert i == j;
  }

  // A finding of the run that counts: none of the columns the source asks for is empty.
  predicate Counts(run: RunInput, f: FindingInput) {
    f in run.findings && f.campaign != "" && f.entityKey != "" && f.ownerLogin != ""
  }

  lemma HitsMeans(run: RunInput, k: IssueKey)
    ensures Hits(run, k) <==>
            run.instance == k.instance
            && exists f :: Counts(run, f) && f.campaign == k.campaign && f.entityType == k.entityType && f.entityKey == k.entityKey
  {
    if f :| f in run.findings && ValidFinding(f) && KeyOf(run.instance, f) == k { assert Counts(run, f); }
    if f :| Counts(run, f) && f.campaign == k.campaign && f.entityType == k.entityType && f.entityKey == k.entityKey {
      assert run.instance == k.instance ==> KeyOf(run.instance, f) == k;
    }
  }

  /** One run resolves an unresolved issue of its instance, which it does not find, if and only if every
      section the campaign needs is recorded as a success; a campaign without a list of sections is never
      resolved.  The reason says whether any campaign's finding names the same entity. */
  lemma RunResolvesIff(o: Option<Issue>, k: IssueKey, run: RunInput, id: nat)
    requires o.Some? && !o.value.status.Resolved? && run.instance == k.instance
    requires forall f :: Counts(run, f) ==> !(f.campaign == k.campaign && f.entityType == k.entityType && f.entityKey == k.entityKey)
    ensures var o' := IngestIssue(o, k, run, id);
      && o'.Some?
      && (o'.value.status.Resolved? <==>
            k.campaign in CAMPAIGN_REQUIRED_SECTIONS
            && forall s :: s in CAMPAIGN_REQUIRED_SECTIONS[k.campaign] ==> s in run.sections && run.sections[s] == Some("success"))
      && (o'.value.status.Resolved? ==>
            && o'.value.resolvedRun == Some(id) && o'.value.resolvedAt == Some(run.now)
            && o'.value.reason == Some(if exists f :: Counts(run, f) && f.entityType == k.entityType && f.entityKey == k.entityKey
                                       then ConditionCleared else EntityDeleted))
      && (!o'.value.status.Resolved? ==> o' == o)
  {
    HitsMeans(run, k);
    var _ := RunIsOneEvent(o, k, run, id);
    EntityNamed(run, k);
  }

  lemma EntityNamed(run: RunInput, k: IssueKey)
    ensures (k.entityType, k.entityKey) in Entities(run.findings) <==>
            exists f :: Counts(run, f) && f.entityType == k.entityType && f.entityKey == k.entityKey
  {
    if (k.entityType, k.entityKey) in Entities(run.findings) {
      var f :| f in run.findings && ValidFinding(f) && (f.entityType, f.entityKey) == (k.entityType, k.entityKey);
      assert Counts(run, f);
    }
  }

  /** A run of another instance leaves an issue as it was, whether it was there or not. */
  lemma OtherInstancesUntouched(o: Option<Issue>, k: IssueKey, run: RunInput, id: nat)
    requires run.instance != k.instance
    ensures IngestIssue(o, k, run, id) == o
  {
    var _ := RunIsOneEvent(o, k, run, id);
  }

  // ----- finding rows -----

  // The n-th finding of the run is the first that counts for the key.
  ghost predicate FirstFor(fs: seq<FindingInput>, n: int, k: FindingKey) {
    && 0 <= n < |fs| && CountsFor(fs[n], k) && forall m :: 0 <= m < n ==> !CountsFor(fs[m], k)
  }

  ghost predicate FirstInRun(h: seq<RunInput>, n: int, k: FindingKey) {
    1 <= k.run <= |h| && FirstFor(h[k.run - 1].findings, n, k)
  }

  predicate CountsFor(f: FindingInput, k: FindingKey) {
    && f.campaign != "" && f.entityKey != "" && f.ownerLogin != ""
    && f.campaign == k.campaign && f.entityType == k.entityType && f.entityKey == k.entityKey
  }

  predicate ShowsColumns(b: Finding, f: FindingInput) {
    b.entityName == f.entityName && b.ownerLogin == f.ownerLogin && b.ownerEmail == f.ownerEmail && b.metrics == f.metrics
  }

  lemma {:induction false} FirstFindingKept(k: FindingKey, fs: seq<FindingInput>, n: int)
    ensures FirstFor(fs, n, k) ==> var o := IngestFinding(None, k, fs, k.run); o.Some? && ShowsColumns(o.value, fs[n])
    ensures (forall m :: 0 <= m < |fs| ==> !CountsFor(fs[m], k)) ==> IngestFinding(None, k, fs, k.run).None?
  {
    if fs != [] {
      var init := fs[..|fs| - 1];
      FirstFindingKept(k, init, n);
      assert FirstFor(fs, n, k) && n < |init| ==> FirstFor(init, n, k);
      assert FirstFor(fs, n, k) && n == |init| ==> forall m :: 0 <= m < |init| ==> init[m] == fs[m] && !CountsFor(init[m], k);
      assert (forall m :: 0 <= m < |fs| ==> !CountsFor(fs[m], k)) ==> forall m :: 0 <= m < |init| ==> init[m] == fs[m];
    }
  }

  lemma {:induction false} OtherRunsKeep(k: FindingKey, o: Option<Finding>, fs: seq<FindingInput>, run: nat)
    requires run != k.run
    ensures IngestFinding(o, k, fs, run) == o
  {
    if fs != [] { OtherRunsKeep(k, o, fs[..|fs| - 1], run); }
  }

  /** After any sequence of ingests the findings table has a row exactly for each key of a run that some
      finding of that run counts for, and it shows the columns of the first such finding. */
  lemma {:induction false} FindingRowsAreFirst(h: seq<RunInput>, k: FindingKey)
    ensures FindingAfter(h, k).Some? <==> exists n :: FirstInRun(h, n, k)
    ensures forall n :: FirstInRun(h, n, k) && FindingAfter(h, k).Some? ==> ShowsColumns(FindingAfter(h, k).value, h[k.run - 1].findings[n])
  {
    if h != [] {
      var init, fs := h[..|h| - 1], h[|h| - 1].findings;
      FindingRowsAreFirst(init, k);
      assert forall n :: k.run < |h| ==> (FirstInRun(h, n, k) <==> FirstInRun(init, n, k));
      assert forall n :: k.run == |h| ==> (FirstInRun(h, n, k) <==> FirstFor(fs, n, k));
      if k.run == |h| {
        var o := IngestFinding(None, k, fs, k.run);
        forall n ensures FirstFor(fs, n, k) ==> o.Some? && ShowsColumns(o.value, fs[n]) {
          FirstFindingKept(k, fs, n);
        }
        if !exists n :: FirstFor(fs, n, k) {
          NoneIfNoFirst(fs, |fs|, k);
          FirstFindingKept(k, fs, 0);
        }
      } else {
        OtherRunsKeep(k, FindingAfter(init, k), fs, |h|);
      }
    }
  }

  lemma {:induction false} NoneIfNoFirst(fs: seq<FindingInput>, n: nat, k: FindingKey)
    requires n <= |fs| && forall m :: !FirstFor(fs, m, k)
    ensures forall m :: 0 <= m < n ==> !CountsFor(fs[m], k)
  {
    if n > 0 {
      NoneIfNoFirst(fs, n - 1, k);
      assert !FirstFor(fs, n - 1, k);
    }
  }

  // ----- the columns of known users and projects -----

  // The roster rows that name k, in order; rows without a name are skipped.
  function RowsOf(us: seq<EntityInput>, instance: string, k: EntityRowKey): seq<EntityInput> {
    if us == [] then []
    else
      var u := us[|us| - 1];
      RowsOf(us[..|us| - 1], instance, k) + if u.name != "" && instance == k.instance && u.name == k.name then [u] else []
  }

  function Sightings(h: seq<RunInput>, kind: Kind, k: EntityRowKey): seq<EntityInput> {
    if h == [] then []
    else Sightings(h[..|h| - 1], kind, k) + RowsOf(Roster(h[|h| - 1], kind), h[|h| - 1].instance, k)
  }

  predicate Gives(ss: seq<EntityInput>, p: int, j: nat) {
    0 <= p < |ss| && j < |ss[p].columns| && ss[p].columns[j].Some?
  }

  // v is what the last row that gives column j gives, or NULL if none does.
  ghost predicate LastGiven(ss: seq<EntityInput>, j: nat, v: Option<string>) {
    && (v.None? ==> forall p :: !Gives(ss, p, j))
    && (v.Some? ==> exists p :: Gives(ss, p, j) && ss[p].columns[j] == v && forall q :: p < q ==> !Gives(ss, q, j))
  }

  ghost predicate Shows(e: KnownEntity, ss: seq<EntityInput>) {
    && |ss| > 0 && e.flag == ss[|ss| - 1].flag && |e.columns| == |ss[|ss| - 1].columns|
    && forall j {:trigger e.columns[j]} :: 0 <= j < |e.columns| ==> LastGiven(ss, j, e.columns[j])
  }

  // All rows of a table have the same columns.
  predicate Wide(ss: seq<EntityInput>, width: nat) { forall p :: 0 <= p < |ss| ==> |ss[p].columns| == width }

  lemma GivesSnoc(ss: seq<EntityInput>, u: EntityInput, p: int, j: nat)
    ensures Gives(ss + [u], p, j) <==> Gives(ss, p, j) || (p == |ss| && j < |u.columns| && u.columns[j].Some?)
  {
  }

  lemma LastGivenSnoc(ss: seq<EntityInput>, u: EntityInput, j: nat, v: Option<string>)
    requires LastGiven(ss, j, v) && j < |u.columns|
    ensures LastGiven(ss + [u], j, if u.columns[j].Some? then u.columns[j] else v)
  {
    var more := ss + [u];
    forall p ensures Gives(more, p, j) <==> Gives(ss, p, j) || (p == |ss| && u.columns[j].Some?) { GivesSnoc(ss, u, p, j); }
    if u.columns[j].Some? {
      assert Gives(more, |ss|, j) && more[|ss|].columns[j] == u.columns[j];
    } else if v.Some? {
      var p :| Gives(ss, p, j) && ss[p].columns[j] == v && forall q :: p < q ==> !Gives(ss, q, j);
      assert Gives(more, p, j) && more[p].columns[j] == v;
    }
  }

  lemma FirstShows(u: EntityInput, run: nat)
    ensures Shows(FirstSeen(u, run), [u])
  {
    forall j | 0 <= j < |u.columns| ensures LastGiven([u], j, u.columns[j]) {
      if u.columns[j].Some? { assert Gives([u], 0, j); }
    }
  }

  lemma ShowsMore(e: KnownEntity, ss: seq<EntityInput>, u: EntityInput, run: nat, width: nat)
    requires Shows(e, ss) && Wide(ss + [u], width)
    ensures Shows(SeenAgain(e, u, run), ss + [u])
  {
    assert (ss + [u])[|ss|] == u && (ss + [u])[|ss| - 1] == ss[|ss| - 1];
    forall j | 0 <= j < width ensures LastGiven(ss + [u], j, SeenAgain(e, u, run).columns[j]) {
      LastGivenSnoc(ss, u, j, e.columns[j]);
    }
  }

  ghost predicate Known(o: Option<KnownEntity>, ss: seq<EntityInput>) {
    (o.Some? <==> |ss| > 0) && (o.Some? ==> Shows(o.value, ss))
  }

  lemma {:induction false} RosterKnown(o: Option<KnownEntity>, k: EntityRowKey, us: seq<EntityInput>, ctx: Ctx, ss: seq<EntityInput>, width: nat)
    requires Known(o, ss) && Wide(ss + RowsOf(us, ctx.instance, k), width)
    ensures Known(IngestEntity(o, k, us, ctx), ss + RowsOf(us, ctx.instance, k))
  {
    if us == [] {
      assert ss + [] == ss;
    } else {
      var init, u := us[..|us| - 1], us[|us| - 1];
      var before := ss + RowsOf(init, ctx.instance, k);
      assert forall p :: 0 <= p < |before| ==> before[p] == (ss + RowsOf(us, ctx.instance, k))[p];
      RosterKnown(o, k, init, ctx, ss, width);
      if u.name != "" && EntityRowKey(ctx.instance, u.name) == k {
        assert ss + RowsOf(us, ctx.instance, k) == before + [u];
        OneMoreKnown(IngestEntity(o, k, init, ctx), before, u, ctx.run, width);
      } else {
        assert ss + RowsOf(us, ctx.instance, k) == before;
      }
    }
  }

  lemma OneMoreKnown(o: Option<KnownEntity>, ss: seq<EntityInput>, u: EntityInput, run: nat, width: nat)
    requires Known(o, ss) && Wide(ss + [u], width)
    ensures Known(Some(if o.None? then FirstSeen(u, run) else SeenAgain(o.value, u, run)), ss + [u])
  {
    if o.None? {
      assert ss + [u] == [u];
      FirstShows(u, run);
    } else {
      ShowsMore(o.value, ss, u, run, width);
    }
  }

  /** A known user or project is one that some roster named; its flag is the last one given, and each of its
      columns shows the last value given that was not NULL, however many NULLs came after it. */
  lemma {:induction false} EntityShowsLastGiven(h: seq<RunInput>, kind: Kind, k: EntityRowKey, width: nat)
    requires Wide(Sightings(h, kind, k), width)
    ensures Known(EntityAfter(h, kind, k), Sightings(h, kind, k))
  {
    if h != [] {
      var init, run := h[..|h| - 1], h[|h| - 1];
      var before, now := Sightings(init, kind, k), Sightings(h, kind, k);
      assert forall p :: 0 <= p < |before| ==> before[p] == now[p];
      EntityShowsLastGiven(init, kind, k, width);
      RosterKnown(EntityAfter(init, kind, k), k, Roster(run, kind), Ctx(run.instance, |h|, run.now), before, width);
    }
  }
}
