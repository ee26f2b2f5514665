/** The row-at-a-time back end: one SELECT, then an INSERT or an UPDATE by primary key,
    for every finding and for every issue to resolve. */
module Tracking {
  import opened Wrappers
  import opened TrackingSchema
  import opened IssueHistory

  // ----- step 7: one finding -----

  function DetectRow(t: IssueTable, next: nat, f: FindingInput, ctx: Ctx): IssueTable {
    var k := KeyOf(ctx.instance, f);
    if k !in t then t[k := Row(next, NewIssue(f, ctx))]
    else
      var id := t[k].id;
      if t[k].body.status.Resolved?
      then UpdateWhere(t, (_, r: Row<Issue>) => r.id == id, (b: Issue) => Reopen(b, f, ctx))
      else UpdateWhere(t, (_, r: Row<Issue>) => r.id == id, (b: Issue) => Refresh(b, f, ctx))
  }

  // The table and the next generated id after the findings of a run, in order.
  function DetectRows(t: IssueTable, next: nat, fs: seq<FindingInput>, ctx: Ctx): (IssueTable, nat) {
    if fs == [] then (t, next)
    else
      var (t0, n0) := DetectRows(t, next, fs[..|fs| - 1], ctx);
      var f := fs[|fs| - 1];
      if !ValidFinding(f) then (t0, n0)
      else (DetectRow(t0, n0, f, ctx), if KeyOf(ctx.instance, f) in t0 then n0 else n0 + 1)
  }

  lemma DetectRowMeaning(t: IssueTable, next: nat, f: FindingInput, ctx: Ctx)
    requires UniqueIds(t) && IdsBelow(t, next)
    ensures var t' := DetectRow(t, next, f, ctx);
      && (forall k :: Body(t', k) ==
            if k == KeyOf(ctx.instance, f) then Some(Detect(Body(t, k), f, ctx)) else Body(t, k))
      && UniqueIds(t') && KeepsIds(t, t')
      && IdsBelow(t', if KeyOf(ctx.instance, f) in t then next else next + 1)
  {
    var k := KeyOf(ctx.instance, f);
    var t' := DetectRow(t, next, f, ctx);
    if k in t {
      forall j ensures Body(t', j) == if j == k then Some(Detect(Body(t, j), f, ctx)) else Body(t, j) {
        assert j in t && j != k ==> t[j].id != t[k].id;
      }
    }
  }

  lemma {:induction false} DetectRowsMeaning(t: IssueTable, next: nat, fs: seq<FindingInput>, ctx: Ctx)
    requires UniqueIds(t) && IdsBelow(t, next)
    ensures var (t', n') := DetectRows(t, next, fs, ctx);
      && (forall k :: Body(t', k) == DetectAll(Body(t, k), k, fs, ctx))
      && UniqueIds(t') && IdsBelow(t', n') && KeepsIds(t, t')
  {
    if fs != [] {
      var f := fs[|fs| - 1];
      DetectRowsMeaning(t, next, fs[..|fs| - 1], ctx);
      var (t0, n0) := DetectRows(t, next, fs[..|fs| - 1], ctx);
      if ValidFinding(f) {
        DetectRowMeaning(t0, n0, f, ctx);
      }
    }
  }

  // ----- step 9: coverage-gated auto-resolve -----

  datatype Selected = Selected(id: nat, key: IssueKey)

  predicate OpenRow(t: IssueTable, k: IssueKey, ctx: Ctx, safe: set<string>) {
    k in t && Sweepable(t[k].body, k, ctx, safe)
  }

  // rows is the SELECT's answer: every open issue of a safe campaign once, in any order.
  ghost predicate Lists(rows: seq<Selected>, t: IssueTable, ctx: Ctx, safe: set<string>) {
    && (forall r :: r in rows ==> OpenRow(t, r.key, ctx, safe) && t[r.key].id == r.id)
    && (forall k :: OpenRow(t, k, ctx, safe) ==> Selected(t[k].id, k) in rows)
  }

  function ResolveRow(t: IssueTable, r: Selected, ctx: Ctx,
                      seen: set<(string, string, string)>, entities: set<(string, string)>): IssueTable {
    if (r.key.campaign, r.key.entityType, r.key.entityKey) in seen then t
    else
      var why := WhyResolved(r.key, entities);
      UpdateWhere(t, (_, row: Row<Issue>) => row.id == r.id, (b: Issue) => Resolve(b, ctx, why))
  }

  function ResolveRows(t: IssueTable, rows: seq<Selected>, ctx: Ctx,
                       seen: set<(string, string, string)>, entities: set<(string, string)>): IssueTable {
    if rows == [] then t
    else ResolveRow(ResolveRows(t, rows[..|rows| - 1], ctx, seen, entities), rows[|rows| - 1], ctx, seen, entities)
  }

  // What the sweep of the listed rows does to one issue.
  function SweepListed(o: Option<Issue>, k: IssueKey, listed: bool, ctx: Ctx,
                       seen: set<(string, string, string)>, entities: set<(string, string)>): Option<Issue> {
    if o.Some? && listed && (k.campaign, k.entityType, k.entityKey) !in seen
    then Some(Resolve(o.value, ctx, WhyResolved(k, entities))) else o
  }

  predicate ListedKey(rows: seq<Selected>, k: IssueKey) {
    exists r :: r in rows && r.key == k
  }

  lemma {:induction false} ResolveRowsMeaning(t: IssueTable, rows: seq<Selected>, ctx: Ctx,
                                              seen: set<(string, string, string)>, entities: set<(string, string)>)
    requires UniqueIds(t)
    requires forall r :: r in rows ==> r.key in t && t[r.key].id == r.id
    ensures var t' := ResolveRows(t, rows, ctx, seen, entities);
      && t'.Keys == t.Keys && (forall k :: k in t ==> t'[k].id == t[k].id)
      && (forall k :: Body(t', k) == SweepListed(Body(t, k), k, ListedKey(rows, k), ctx, seen, entities))
  {
    if rows != [] {
      var init, r := rows[..|rows| - 1], rows[|rows| - 1];
      assert forall q :: q in init ==> q in rows;
      ResolveRowsMeaning(t, init, ctx, seen, entities);
      var t0 := ResolveRows(t, init, ctx, seen, entities);
      var t' := ResolveRows(t, rows, ctx, seen, entities);
      assert r in rows;
      forall k ensures Body(t', k) == SweepListed(Body(t, k), k, ListedKey(rows, k), ctx, seen, entities) {
        assert rows == init + [r];
        assert ListedKey(rows, k) <==> ListedKey(init, k) || r.key == k by {
          if ListedKey(init, k) { var q :| q in init && q.key == k; assert q in rows; }
        }
        assert k in t && k != r.key ==> t[k].id != t[r.key].id;
      }
    }
  }

  // ----- the whole ingest, on the issues table -----

  // order: the listing the SELECT of step 9 happened to return.
  function IngestRows(t: IssueTable, next: nat, run: RunInput, runId: nat, order: seq<Selected>): IssueTable {
    var ctx := Ctx(run.instance, runId, run.now);
    ResolveRows(DetectRows(t, next, run.findings, ctx).0, order, ctx, FindingKeys(run.findings), Entities(run.findings))
  }

  /** Whatever order the rows come back in, the row-at-a-time ingest takes every issue
      through the automaton of TrackingSchema, touches no other row and keeps primary keys. */
  lemma IngestRowsMeaning(t: IssueTable, next: nat, run: RunInput, runId: nat, order: seq<Selected>)
    requires UniqueIds(t) && IdsBelow(t, next)
    requires Lists(order, DetectRows(t, next, run.findings, Ctx(run.instance, runId, run.now)).0,
                   Ctx(run.instance, runId, run.now), SafeCampaigns(run.sections))
    ensures var t' := IngestRows(t, next, run, runId, order);
      && (forall k :: Body(t', k) == IngestIssue(Body(t, k), k, run, runId))
      && UniqueIds(t') && KeepsIds(t, t')
      && IdsBelow(t', DetectRows(t, next, run.findings, Ctx(run.instance, runId, run.now)).1)
  {
    var ctx := Ctx(run.instance, runId, run.now);
    var safe := SafeCampaigns(run.sections);
    DetectRowsMeaning(t, next, run.findings, ctx);
    var (t0, n0) := DetectRows(t, next, run.findings, ctx);
    ResolveRowsMeaning(t0, order, ctx, FindingKeys(run.findings), Entities(run.findings));
    forall k ensures Body(IngestRows(t, next, run, runId, order), k) == IngestIssue(Body(t, k), k, run, runId) {
      assert ListedKey(order, k) <==> OpenRow(t0, k, ctx, safe) by {
        if OpenRow(t0, k, ctx, safe) { assert Selected(t0[k].id, k) in order; }
      }
    }
  }

  // ----- the database object -----

  // One more finding row, under the next generated id.
  lemma FindingRecorded(first: FindingTable, before: FindingTable, next: nat, after: FindingTable, next': nat, k: FindingKey)
    requires UniqueIds(before) && IdsBelow(before, next) && KeepsIds(first, before)
    requires if k in before then after == before && next' == next
             else k in after && after == before[k := after[k]] && after[k].id == next && next' == next + 1
    ensures UniqueIds(after) && IdsBelow(after, next') && KeepsIds(first, after)
  {
  }

  class TrackingDb {
    var issues: IssueTable
    var findings: FindingTable
    var users: EntityTable
    var projects: EntityTable
    var coverage: map<nat, Coverage>
    var lastRunId: nat
    var nextIssueId: nat
    var nextFindingId: nat
    ghost var history: seq<RunInput>

    // The database holds what its history of ingests says it holds.
    ghost predicate Valid()
      reads this
    {
      && UniqueIds(issues) && IdsBelow(issues, nextIssueId)
      && UniqueIds(findings) && IdsBelow(findings, nextFindingId)
      && lastRunId == |history| && CoverageKept(history, coverage)
      && Holds(history, issues, findings, users, projects)
    }

    constructor ()
      ensures Valid() && history == []
    {
      issues, findings, users, projects, coverage := map[], map[], map[], map[], map[];
      lastRunId, nextIssueId, nextFindingId := 0, 1, 1;
      history := [];
    }

    method UpsertUsers(us: seq<EntityInput>, ctx: Ctx)
      modifies this`users
      ensures EntitiesIngested(us, ctx, old(users), users)
    {
      for i := 0 to |us|
        invariant forall k :: LookupEntity(users, k) == IngestEntity(old(LookupEntity(users, k)), k, us[..i], ctx)
      {
        assert us[..i + 1][..i] == us[..i];
        var key := EntityRowKey(ctx.instance, us[i].name);
        if us[i].name != "" {
          users := users[key := if key in users then SeenAgain(users[key], us[i], ctx.run) else FirstSeen(us[i], ctx.run)];
        }
      }
      assert us[..|us|] == us;
    }

    method UpsertProjects(ps: seq<EntityInput>, ctx: Ctx)
      modifies this`projects
      ensures EntitiesIngested(ps, ctx, old(projects), projects)
    {
      for i := 0 to |ps|
        invariant forall k :: LookupEntity(projects, k) == IngestEntity(old(LookupEntity(projects, k)), k, ps[..i], ctx)
      {
        assert ps[..i + 1][..i] == ps[..i];
        var key := EntityRowKey(ctx.instance, ps[i].name);
        if ps[i].name != "" {
          projects := projects[key := if key in projects then SeenAgain(projects[key], ps[i], ctx.run) else FirstSeen(ps[i], ctx.run)];
        }
      }
      assert ps[..|ps|] == ps;
    }

    method RecordFinding(f: FindingInput, ctx: Ctx)
      requires ValidFinding(f)
      modifies this`issues, this`findings, this`nextIssueId, this`nextFindingId
      ensures issues == DetectRow(old(issues), old(nextIssueId), f, ctx)
      ensures nextIssueId == if KeyOf(ctx.instance, f) in old(issues) then old(nextIssueId) else old(nextIssueId) + 1
      ensures var fk := FindingKey(ctx.run, f.campaign, f.entityType, f.entityKey);
        nextFindingId == if fk in old(findings) then old(nextFindingId) else old(nextFindingId) + 1
      ensures var fk := FindingKey(ctx.run, f.campaign, f.entityType, f.entityKey);
        findings == if fk in old(findings) then old(findings) else old(findings)[fk := Row(old(nextFindingId), FindingBody(f))]
    {
      var fk := FindingKey(ctx.run, f.campaign, f.entityType, f.entityKey);
      if fk !in findings {
        findings := findings[fk := Row(nextFindingId, FindingBody(f))];
        nextFindingId := nextFindingId + 1;
      }
      var key := KeyOf(ctx.instance, f);
      if key !in issues {
        issues := issues[key := Row(nextIssueId, NewIssue(f, ctx))];
        nextIssueId := nextIssueId + 1;
      } else {
        var id := issues[key].id;
        if issues[key].body.status.Resolved? {
          issues := UpdateWhere(issues, (_, r: Row<Issue>) => r.id == id, (b: Issue) => Reopen(b, f, ctx));
        } else {
          issues := UpdateWhere(issues, (_, r: Row<Issue>) => r.id == id, (b: Issue) => Refresh(b, f, ctx));
        }
      }
    }

    method RecordFindings(fs: seq<FindingInput>, ctx: Ctx)
      returns (seen: set<(string, string, string)>, entities: set<(string, string)>)
      requires UniqueIds(findings) && IdsBelow(findings, nextFindingId)
      modifies this`issues, this`findings, this`nextIssueId, this`nextFindingId
      ensures (issues, nextIssueId) == DetectRows(old(issues), old(nextIssueId), fs, ctx)
      ensures FindingsIngested(fs, ctx.run, old(findings), findings)
      ensures UniqueIds(findings) && IdsBelow(findings, nextFindingId) && KeepsIds(old(findings), findings)
      ensures seen == FindingKeys(fs) && entities == Entities(fs)
    {
      seen, entities := {}, {};
      for i := 0 to |fs|
        invariant (issues, nextIssueId) == DetectRows(old(issues), old(nextIssueId), fs[..i], ctx)
        invariant forall k :: Body(findings, k) == IngestFinding(old(Body(findings, k)), k, fs[..i], ctx.run)
        invariant UniqueIds(findings) && IdsBelow(findings, nextFindingId) && KeepsIds(old(findings), findings)
        invariant seen == FindingKeys(fs[..i]) && entities == Entities(fs[..i])
      {
        var f := fs[i];
        KeysSnoc(fs[..i], f);
        assert fs[..i + 1][..i] == fs[..i] && fs[..i + 1] == fs[..i] + [f];
        if ValidFinding(f) {
          seen, entities := seen + {(f.campaign, f.entityType, f.entityKey)}, entities + {(f.entityType, f.entityKey)};
          ghost var before, next := findings, nextFindingId;
          RecordFinding(f, ctx);
          FindingRecorded(old(findings), before, next, findings, nextFindingId, FindingKey(ctx.run, f.campaign, f.entityType, f.entityKey));
        }
      }
      assert fs[..|fs|] == fs;
    }

    // SELECT ... FROM issues WHERE instance_id = ? AND status IN ('open', 'regressed') AND campaign_id IN (...)
    method SelectOpen(ctx: Ctx, safe: set<string>) returns (rows: seq<Selected>)
      ensures Lists(rows, issues, ctx, safe)
      ensures forall i, j :: 0 <= i < j < |rows| ==> rows[i].key != rows[j].key
    {
      var todo := set k | k in issues.Keys && OpenRow(issues, k, ctx, safe);
      rows := [];
      while todo != {}
        invariant todo <= issues.Keys
        invariant forall r :: r in rows ==> OpenRow(issues, r.key, ctx, safe) && issues[r.key].id == r.id
        invariant forall k :: k in todo ==> OpenRow(issues, k, ctx, safe)
        invariant forall r :: r in rows ==> r.key !in todo
        invariant forall i, j :: 0 <= i < j < |rows| ==> rows[i].key != rows[j].key
        invariant forall k :: OpenRow(issues, k, ctx, safe) && k !in todo ==> Selected(issues[k].id, k) in rows
        decreases |todo|
      {
        var k :| k in todo;
        rows, todo := rows + [Selected(issues[k].id, k)], todo - {k};
      }
    }

    method AutoResolve(ctx: Ctx, safe: set<string>, seen: set<(string, string, string)>, entities: set<(string, string)>)
      returns (ghost order: seq<Selected>)
      modifies this`issues
      ensures Lists(order, old(issues), ctx, safe)
      ensures issues == ResolveRows(old(issues), order, ctx, seen, entities)
    {
      var rows := SelectOpen(ctx, safe);
      order := rows;
      for i := 0 to |rows|
        invariant issues == ResolveRows(old(issues), rows[..i], ctx, seen, entities)
      {
        assert rows[..i + 1][..i] == rows[..i];
        var r := rows[i];
        if (r.key.campaign, r.key.entityType, r.key.entityKey) !in seen {
          var why := if (r.key.entityType, r.key.entityKey) in entities then ConditionCleared else EntityDeleted;
          issues := UpdateWhere(issues, (_, row: Row<Issue>) => row.id == r.id, (b: Issue) => Resolve(b, ctx, why));
        }
      }
      assert rows[..|rows|] == rows;
    }

    // Steps 7 and 9
    method UpdateIssues(run: RunInput, ctx: Ctx)
      requires UniqueIds(issues) && IdsBelow(issues, nextIssueId) && UniqueIds(findings) && IdsBelow(findings, nextFindingId)
      requires ctx == Ctx(run.instance, ctx.run, run.now)
      modifies this`issues, this`findings, this`nextIssueId, this`nextFindingId
      ensures IssuesIngested(run, ctx.run, old(issues), issues)
      ensures FindingsIngested(run.findings, ctx.run, old(findings), findings)
      ensures UniqueIds(issues) && IdsBelow(issues, nextIssueId) && KeepsIds(old(issues), issues)
      ensures UniqueIds(findings) && IdsBelow(findings, nextFindingId) && KeepsIds(old(findings), findings)
    {
      var seen, entities := RecordFindings(run.findings, ctx);
      var safe := SafeCampaigns(run.sections);
      ghost var order := [];
      if safe != {} {
        order := AutoResolve(ctx, safe, seen, entities);
      }
      IngestRowsMeaning(old(issues), old(nextIssueId), run, ctx.run, order);
    }

    // Everything a run writes.
    method WriteTables(run: RunInput, ctx: Ctx)
      requires UniqueIds(issues) && IdsBelow(issues, nextIssueId) && UniqueIds(findings) && IdsBelow(findings, nextFindingId)
      requires ctx == Ctx(run.instance, ctx.run, run.now)
      modifies this`issues, this`findings, this`users, this`projects, this`coverage, this`nextIssueId, this`nextFindingId
      ensures Ingested(run, ctx.run, old(issues), old(findings), old(users), old(projects), issues, findings, users, projects)
      ensures UniqueIds(issues) && IdsBelow(issues, nextIssueId) && KeepsIds(old(issues), issues)
      ensures UniqueIds(findings) && IdsBelow(findings, nextFindingId) && KeepsIds(old(findings), findings)
      ensures coverage == old(coverage)[ctx.run := CoverageOf(run.sections)]
    {
      UpsertUsers(run.users, ctx);
      UpsertProjects(run.projects, ctx);
      coverage := coverage[ctx.run := CoverageOf(run.sections)];
      UpdateIssues(run, ctx);
    }

    /** One ingest keeps the database equal to its history, extended by this run; with
        IssueHistory.IssueIsItsHistory that fixes every column of every issue. */
    method IngestRun(run: RunInput) returns (runId: nat)
      requires Valid()
      modifies this
      ensures Valid() && history == old(history) + [run] && runId == |history|
      ensures Ingested(run, runId, old(issues), old(findings), old(users), old(projects), issues, findings, users, projects)
      ensures KeepsIds(old(issues), issues)
      ensures coverage == old(coverage)[runId := CoverageOf(run.sections)]
    {
      runId := lastRunId + 1;
      lastRunId := runId;
      WriteTables(run, Ctx(run.instance, runId, run.now));
      HistoryGrows(history, run, old(issues), old(findings), old(users), old(projects), issues, findings, users, projects);
      CoverageGrows(history, run, old(coverage), coverage);
      history := history + [run];
    }
  }
}
