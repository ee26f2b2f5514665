/** The batched back end: an ingest first writes down SQL statements, then executes them as
    whole-table updates.  It is proved to leave the same tables as Tracking, generated ids aside. */
module SqlTracking {
  import opened Wrappers
  import opened TrackingSchema
  import opened IssueHistory
  import Tracking

  // ----- statements and their execution -----

  datatype IssueStmt =
    | Touch(key: IssueKey, f: FindingInput, ctx: Ctx)
    | InsertIfAbsent(id: nat, key: IssueKey, f: FindingInput, ctx: Ctx)
    | ResolveMatching(ctx: Ctx, campaigns: set<string>, seen: set<(string, string, string)>,
                      entities: set<(string, string)>, inEntities: bool, why: Reason)
    | ResolveEvery(ctx: Ctx, campaigns: set<string>)

  // SET col = CASE WHEN status = 'resolved' THEN .. ELSE .. END, column by column
  function CaseTouch(b: Issue, f: FindingInput, ctx: Ctx): Issue {
    var was := b.status.Resolved?;
    Issue(f.ownerLogin, f.ownerEmail, if was then Regressed else b.status,
          b.firstRun, b.firstAt, ctx.run, ctx.now,
          if was then None else b.resolvedRun,
          if was then None else b.resolvedAt,
          if was then None else b.reason,
          if was then b.timesRegressed + 1 else b.timesRegressed, b.timesEmailed,
          f.entityName, f.metrics)
  }

  function Exec(t: IssueTable, s: IssueStmt): IssueTable {
    match s
    case Touch(key, f, ctx) =>
      UpdateWhere(t, (k, _: Row<Issue>) => k == key, (b: Issue) => CaseTouch(b, f, ctx))
    case InsertIfAbsent(id, key, f, ctx) =>
      if key in t then t else t[key := Row(id, NewIssue(f, ctx))]
    case ResolveMatching(ctx, campaigns, seen, entities, inEntities, why) =>
      UpdateWhere(t, (k: IssueKey, r: Row<Issue>) =>
                    && Sweepable(r.body, k, ctx, campaigns)
                    && (k.campaign, k.entityType, k.entityKey) !in seen
                    && ((k.entityType, k.entityKey) in entities) == inEntities,
                  (b: Issue) => Resolve(b, ctx, why))
    case ResolveEvery(ctx, campaigns) =>
      UpdateWhere(t, (k: IssueKey, r: Row<Issue>) => Sweepable(r.body, k, ctx, campaigns),
                  (b: Issue) => Resolve(b, ctx, EntityDeleted))
  }

  function ExecAll(t: IssueTable, stmts: seq<IssueStmt>): IssueTable {
    if stmts == [] then t else Exec(ExecAll(t, stmts[..|stmts| - 1]), stmts[|stmts| - 1])
  }

  lemma {:induction false} ExecAllSplits(t: IssueTable, a: seq<IssueStmt>, b: seq<IssueStmt>)
    ensures ExecAll(t, a + b) == ExecAll(ExecAll(t, a), b)
    decreases |b|
  {
    if b == [] {
      assert a + b == a;
    } else {
      assert (a + b)[..|a + b| - 1] == a + b[..|b| - 1];
      ExecAllSplits(t, a, b[..|b| - 1]);
    }
  }

  // ----- the statements an ingest writes -----

  function ValidFindings(fs: seq<FindingInput>): seq<FindingInput> {
    if fs == [] then []
    else
      var before := ValidFindings(fs[..|fs| - 1]);
      if ValidFinding(fs[|fs| - 1]) then before + [fs[|fs| - 1]] else before
  }

  // Call 3: for the i-th valid finding an UPDATE, then an INSERT with the i-th generated id.
  function LifecycleStmts(valid: seq<FindingInput>, next: nat, ctx: Ctx): seq<IssueStmt> {
    if valid == [] then []
    else
      var n := |valid| - 1;
      var f := valid[n];
      var key := KeyOf(ctx.instance, f);
      LifecycleStmts(valid[..n], next, ctx) + [Touch(key, f, ctx), InsertIfAbsent(next + n, key, f, ctx)]
  }

  // Call 4: two set-based resolves, or one when the run has no findings.
  function ResolveStmts(ctx: Ctx, safe: set<string>, seen: set<(string, string, string)>,
                        entities: set<(string, string)>): seq<IssueStmt> {
    if safe != {} && seen != {} then
      [ResolveMatching(ctx, safe, seen, entities, true, ConditionCleared),
       ResolveMatching(ctx, safe, seen, entities, false, EntityDeleted)]
    else if safe != {} then [ResolveEvery(ctx, safe)]
    else []
  }

  function IngestBatch(t: IssueTable, next: nat, run: RunInput, runId: nat): IssueTable {
    var ctx := Ctx(run.instance, runId, run.now);
    var detected := ExecAll(t, LifecycleStmts(ValidFindings(run.findings), next, ctx));
    ExecAll(detected, ResolveStmts(ctx, SafeCampaigns(run.sections), FindingKeys(run.findings), Entities(run.findings)))
  }

  // ----- what the statements mean -----

  lemma TouchThenInsert(t: IssueTable, id: nat, f: FindingInput, ctx: Ctx)
    requires UniqueIds(t) && IdsBelow(t, id)
    ensures var key := KeyOf(ctx.instance, f);
      var t' := Exec(Exec(t, Touch(key, f, ctx)), InsertIfAbsent(id, key, f, ctx));
      && (forall k :: Body(t', k) == if k == key then Some(Detect(Body(t, k), f, ctx)) else Body(t, k))
      && UniqueIds(t') && IdsBelow(t', id + 1) && KeepsIds(t, t')
  {
    var key := KeyOf(ctx.instance, f);
    var t0 := Exec(t, Touch(key, f, ctx));
    assert t0.Keys == t.Keys && forall k :: k in t ==> t0[k].id == t[k].id;
    if key in t {
      assert CaseTouch(t[key].body, f, ctx) == Detect(Body(t, key), f, ctx);
    }
  }

  lemma {:induction false} LifecycleMeaning(t: IssueTable, next: nat, valid: seq<FindingInput>, ctx: Ctx)
    requires UniqueIds(t) && IdsBelow(t, next)
    requires forall f :: f in valid ==> ValidFinding(f)
    ensures Detected(t, ExecAll(t, LifecycleStmts(valid, next, ctx)), next + |valid|, valid, ctx)
  {
    if valid == [] {
      assert ExecAll(t, LifecycleStmts(valid, next, ctx)) == t;
    } else {
      var init, f := valid[..|valid| - 1], valid[|valid| - 1];
      assert valid == init + [f];
      LifecycleMeaning(t, next, init, ctx);
      LifecycleStep(t, next, init, f, ctx);
      DetectedStep(t, ExecAll(t, LifecycleStmts(init, next, ctx)), ExecAll(t, LifecycleStmts(init + [f], next, ctx)),
                   next + |init|, init, f, ctx);
    }
  }

  lemma {:induction false} InvalidFindingsIgnored(fs: seq<FindingInput>, ctx: Ctx)
    ensures forall o, k :: DetectAll(o, k, ValidFindings(fs), ctx) == DetectAll(o, k, fs, ctx)
    ensures forall f :: f in ValidFindings(fs) ==> ValidFinding(f)
  {
    if fs != [] {
      var init, f := fs[..|fs| - 1], fs[|fs| - 1];
      InvalidFindingsIgnored(init, ctx);
      assert (ValidFindings(init) + [f])[..|ValidFindings(init)|] == ValidFindings(init);
    }
  }

  ghost predicate Detected(t: IssueTable, t': IssueTable, next: nat, fs: seq<FindingInput>, ctx: Ctx) {
    && (forall k :: Body(t', k) == DetectAll(Body(t, k), k, fs, ctx))
    && UniqueIds(t') && IdsBelow(t', next) && KeepsIds(t, t')
  }

  lemma DetectedStep(t: IssueTable, t0: IssueTable, t1: IssueTable, next: nat, init: seq<FindingInput>, f: FindingInput, ctx: Ctx)
    requires ValidFinding(f) && Detected(t, t0, next, init, ctx)
    requires var key := KeyOf(ctx.instance, f);
      t1 == Exec(Exec(t0, Touch(key, f, ctx)), InsertIfAbsent(next, key, f, ctx))
    ensures Detected(t, t1, next + 1, init + [f], ctx)
  {
    TouchThenInsert(t0, next, f, ctx);
    assert (init + [f])[..|init|] == init;
  }

  lemma LifecycleStep(t: IssueTable, next: nat, before: seq<FindingInput>, f: FindingInput, ctx: Ctx)
    ensures var key := KeyOf(ctx.instance, f);
      ExecAll(t, LifecycleStmts(before + [f], next, ctx)) ==
      Exec(Exec(ExecAll(t, LifecycleStmts(before, next, ctx)), Touch(key, f, ctx)), InsertIfAbsent(next + |before|, key, f, ctx))
  {
    var key := KeyOf(ctx.instance, f);
    assert (before + [f])[..|before|] == before;
    var a, b := Touch(key, f, ctx), InsertIfAbsent(next + |before|, key, f, ctx);
    ExecAllSplits(t, LifecycleStmts(before, next, ctx), [a, b]);
    ExecTwo(ExecAll(t, LifecycleStmts(before, next, ctx)), a, b);
  }

  lemma ExecTwo(t: IssueTable, a: IssueStmt, b: IssueStmt)
    ensures ExecAll(t, [a, b]) == Exec(Exec(t, a), b)
  {
    assert [a, b][..1] == [a] && [a][..0] == [];
    assert ExecAll(t, [a]) == Exec(t, a);
  }

  lemma SeenEntity(fs: seq<FindingInput>)
    ensures FindingKeys(fs) == {} ==> Entities(fs) == {}
  {
    if e :| e in Entities(fs) {
      var f :| f in fs && ValidFinding(f) && e == (f.entityType, f.entityKey);
      assert (f.campaign, f.entityType, f.entityKey) in FindingKeys(fs);
    }
  }

  lemma ResolveMeaning(t: IssueTable, ctx: Ctx, safe: set<string>, fs: seq<FindingInput>)
    ensures var seen, entities := FindingKeys(fs), Entities(fs);
      var t' := ExecAll(t, ResolveStmts(ctx, safe, seen, entities));
      && (forall k :: Body(t', k) == Sweep(Body(t, k), k, ctx, safe, seen, entities))
      && t'.Keys == t.Keys && (forall k :: k in t ==> t'[k].id == t[k].id)
  {
    var seen, entities := FindingKeys(fs), Entities(fs);
    SeenEntity(fs);
    var stmts := ResolveStmts(ctx, safe, seen, entities);
    if |stmts| == 2 {
      ExecTwo(t, stmts[0], stmts[1]);
    } else if |stmts| == 1 {
      assert stmts[..0] == [];
      assert ExecAll(t, stmts) == Exec(t, stmts[0]);
    }
  }

  lemma IngestBatchMeaning(t: IssueTable, next: nat, run: RunInput, runId: nat)
    requires UniqueIds(t) && IdsBelow(t, next)
    ensures var t' := IngestBatch(t, next, run, runId);
      && (forall k :: Body(t', k) == IngestIssue(Body(t, k), k, run, runId))
      && UniqueIds(t') && KeepsIds(t, t')
  {
    var ctx := Ctx(run.instance, runId, run.now);
    InvalidFindingsIgnored(run.findings, ctx);
    LifecycleMeaning(t, next, ValidFindings(run.findings), ctx);
    var t0 := ExecAll(t, LifecycleStmts(ValidFindings(run.findings), next, ctx));
    ResolveMeaning(t0, ctx, SafeCampaigns(run.sections), run.findings);
  }

  /** For every issues table, every run (duplicate and invalid findings included) and every order
      in which the row-at-a-time SELECT lists its rows, the two ingests leave the same issues: the
      same keys with the same columns, and the same primary keys on the rows that were there. */
  lemma BatchEqualsRows(t: IssueTable, nextRow: nat, nextBatch: nat, run: RunInput, runId: nat, order: seq<Tracking.Selected>)
    requires UniqueIds(t) && IdsBelow(t, nextRow) && IdsBelow(t, nextBatch)
    requires Tracking.Lists(order, Tracking.DetectRows(t, nextRow, run.findings, Ctx(run.instance, runId, run.now)).0,
                            Ctx(run.instance, runId, run.now), SafeCampaigns(run.sections))
    ensures var rows, batch := Tracking.IngestRows(t, nextRow, run, runId, order), IngestBatch(t, nextBatch, run, runId);
      && rows.Keys == batch.Keys
      && (forall k :: k in rows ==> rows[k].body == batch[k].body)
      && (forall k :: k in t ==> k in rows && rows[k].id == batch[k].id)
  {
    Tracking.IngestRowsMeaning(t, nextRow, run, runId, order);
    IngestBatchMeaning(t, nextBatch, run, runId);
    var rows, batch := Tracking.IngestRows(t, nextRow, run, runId, order), IngestBatch(t, nextBatch, run, runId);
    assert forall k :: Body(rows, k) == Body(batch, k);
    assert forall k :: k in rows <==> Body(rows, k).Some?;
    assert forall k :: k in batch <==> Body(batch, k).Some?;
  }

  // ----- findings and known entities: INSERT ... WHERE NOT EXISTS, and UPDATE then INSERT -----

  datatype FindingStmt = InsertFinding(id: nat, key: FindingKey, body: Finding)

  function ExecFindings(t: FindingTable, stmts: seq<FindingStmt>): FindingTable {
    if stmts == [] then t
    else
      var before := ExecFindings(t, stmts[..|stmts| - 1]);
      var s := stmts[|stmts| - 1];
      if s.key in before then before else before[s.key := Row(s.id, s.body)]
  }

  function FindingStmts(valid: seq<FindingInput>, next: nat, run: nat): seq<FindingStmt> {
    seq(|valid|, i requires 0 <= i < |valid| =>
      InsertFinding(next + i, FindingKey(run, valid[i].campaign, valid[i].entityType, valid[i].entityKey), FindingBody(valid[i])))
  }

  lemma {:induction false} FindingsMeaning(t: FindingTable, next: nat, fs: seq<FindingInput>, run: nat)
    ensures forall k :: Body(ExecFindings(t, FindingStmts(ValidFindings(fs), next, run)), k) == IngestFinding(Body(t, k), k, fs, run)
  {
    if fs != [] {
      var init, f := fs[..|fs| - 1], fs[|fs| - 1];
      FindingsMeaning(t, next, init, run);
      if ValidFinding(f) {
        var before := ValidFindings(init);
        var stmts := FindingStmts(before + [f], next, run);
        assert stmts[..|stmts| - 1] == FindingStmts(before, next, run);
      }
    }
  }

  // The rows inserted get ids of their own, above those in use.
  lemma {:induction false} FindingIds(t: FindingTable, next: nat, valid: seq<FindingInput>, run: nat)
    requires UniqueIds(t) && IdsBelow(t, next)
    ensures var t' := ExecFindings(t, FindingStmts(valid, next, run));
      UniqueIds(t') && IdsBelow(t', next + |valid|) && KeepsIds(t, t')
  {
    if valid != [] {
      var stmts := FindingStmts(valid, next, run);
      FindingIds(t, next, valid[..|valid| - 1], run);
      assert stmts[..|stmts| - 1] == FindingStmts(valid[..|valid| - 1], next, run);
      var before := ExecFindings(t, stmts[..|stmts| - 1]);
      FindingIdAdded(t, before, ExecFindings(t, stmts), next + |valid| - 1, stmts[|stmts| - 1]);
    }
  }

  lemma FindingIdAdded(first: FindingTable, before: FindingTable, after: FindingTable, id: nat, s: FindingStmt)
    requires UniqueIds(before) && IdsBelow(before, id) && KeepsIds(first, before) && s.id == id
    requires after == if s.key in before then before else before[s.key := Row(s.id, s.body)]
    ensures UniqueIds(after) && IdsBelow(after, id + 1) && KeepsIds(first, after)
  {
  }

  datatype EntityStmt =
    | UpdateEntity(key: EntityRowKey, u: EntityInput, run: nat)
    | InsertEntity(key: EntityRowKey, u: EntityInput, run: nat)

  function ExecEntity(t: EntityTable, s: EntityStmt): EntityTable {
    match s
    case UpdateEntity(key, u, run) => map k | k in t :: if k == key then SeenAgain(t[k], u, run) else t[k]
    case InsertEntity(key, u, run) => if key in t then t else t[key := FirstSeen(u, run)]
  }

  function ExecEntities(t: EntityTable, stmts: seq<EntityStmt>): EntityTable {
    if stmts == [] then t else ExecEntity(ExecEntities(t, stmts[..|stmts| - 1]), stmts[|stmts| - 1])
  }

  function EntityStmts(us: seq<EntityInput>, ctx: Ctx): seq<EntityStmt> {
    if us == [] then []
    else
      var before := EntityStmts(us[..|us| - 1], ctx);
      var u := us[|us| - 1];
      var key := EntityRowKey(ctx.instance, u.name);
      if u.name == "" then before else before + [UpdateEntity(key, u, ctx.run), InsertEntity(key, u, ctx.run)]
  }

  /** UPDATE-then-INSERT keeps the first sighting and the COALESCEd columns that an upsert keeps,
      except that a row inserted by the second statement was not yet there for the first: the
      two agree because the columns of a new row are its own. */
  lemma {:induction false} EntitiesMeaning(t: EntityTable, us: seq<EntityInput>, ctx: Ctx)
    ensures forall k :: LookupEntity(ExecEntities(t, EntityStmts(us, ctx)), k) == IngestEntity(LookupEntity(t, k), k, us, ctx)
  {
    if us != [] {
      EntitiesMeaning(t, us[..|us| - 1], ctx);
      var before, u := EntityStmts(us[..|us| - 1], ctx), us[|us| - 1];
      if u.name != "" {
        var stmts := EntityStmts(us, ctx);
        assert stmts[..|stmts| - 1] == before + [stmts[|before|]];
        assert stmts[..|stmts| - 1][..|before|] == before;
      }
    }
  }

  // ----- the database object -----

  class SqlTrackingDb {
    var issues: IssueTable
    var findings: FindingTable
    var users: EntityTable
    var projects: EntityTable
    var coverage: map<nat, Coverage>
    ghost var history: seq<RunInput>

    ghost predicate Valid()
      reads this
    {
      && UniqueIds(issues) && UniqueIds(findings) && CoverageKept(history, coverage)
      && Holds(history, issues, findings, users, projects)
    }

    constructor ()
      ensures Valid() && history == []
    {
      issues, findings, users, projects, coverage := map[], map[], map[], map[], map[];
      history := [];
    }

    // SELECT COALESCE(MAX(id), 0) + 1
    method NextId(ids: set<nat>) returns (next: nat)
      ensures forall i :: i in ids ==> i < next
      ensures next == 1 || next - 1 in ids
    {
      next := 1;
      var todo := ids;
      while todo != {}
        invariant todo <= ids
        invariant forall i :: i in ids ==> i in todo || i < next
        invariant next == 1 || next - 1 in ids
      {
        var i :| i in todo;
        if i >= next { next := i + 1; }
        todo := todo - {i};
      }
    }

    method Execute(stmts: seq<IssueStmt>)
      modifies this`issues
      ensures issues == ExecAll(old(issues), stmts)
    {
      for i := 0 to |stmts|
        invariant issues == ExecAll(old(issues), stmts[..i])
      {
        assert stmts[..i + 1][..i] == stmts[..i];
        issues := Exec(issues, stmts[i]);
      }
      assert stmts[..|stmts|] == stmts;
    }

    method ExecuteBulk(userStmts: seq<EntityStmt>, projectStmts: seq<EntityStmt>, findingStmts: seq<FindingStmt>)
      modifies this`users, this`projects, this`findings
      ensures users == ExecEntities(old(users), userStmts)
      ensures projects == ExecEntities(old(projects), projectStmts)
      ensures findings == ExecFindings(old(findings), findingStmts)
    {
      for i := 0 to |userStmts|
        invariant users == ExecEntities(old(users), userStmts[..i])
        invariant projects == old(projects) && findings == old(findings)
      {
        assert userStmts[..i + 1][..i] == userStmts[..i];
        users := ExecEntity(users, userStmts[i]);
      }
      assert userStmts[..|userStmts|] == userStmts;
      for i := 0 to |projectStmts|
        invariant projects == ExecEntities(old(projects), projectStmts[..i])
        invariant users == ExecEntities(old(users), userStmts) && findings == old(findings)
      {
        assert projectStmts[..i + 1][..i] == projectStmts[..i];
        projects := ExecEntity(projects, projectStmts[i]);
      }
      assert projectStmts[..|projectStmts|] == projectStmts;
      for i := 0 to |findingStmts|
        invariant findings == ExecFindings(old(findings), findingStmts[..i])
        invariant users == ExecEntities(old(users), userStmts) && projects == ExecEntities(old(projects), projectStmts)
      {
        assert findingStmts[..i + 1][..i] == findingStmts[..i];
        var s := findingStmts[i];
        if s.key !in findings { findings := findings[s.key := Row(s.id, s.body)]; }
      }
      assert findingStmts[..|findingStmts|] == findingStmts;
    }

    static method WriteEntityStmts(us: seq<EntityInput>, ctx: Ctx) returns (stmts: seq<EntityStmt>)
      ensures stmts == EntityStmts(us, ctx)
    {
      stmts := [];
      for i := 0 to |us|
        invariant stmts == EntityStmts(us[..i], ctx)
      {
        assert us[..i + 1][..i] == us[..i];
        var key := EntityRowKey(ctx.instance, us[i].name);
        if us[i].name != "" {
          stmts := stmts + [UpdateEntity(key, us[i], ctx.run), InsertEntity(key, us[i], ctx.run)];
        }
      }
      assert us[..|us|] == us;
    }

    static method CollectFindings(fs: seq<FindingInput>)
      returns (valid: seq<FindingInput>, seen: set<(string, string, string)>, entities: set<(string, string)>)
      ensures valid == ValidFindings(fs) && seen == FindingKeys(fs) && entities == Entities(fs)
    {
      valid, seen, entities := [], {}, {};
      for i := 0 to |fs|
        invariant valid == ValidFindings(fs[..i])
        invariant seen == FindingKeys(fs[..i]) && entities == Entities(fs[..i])
      {
        var f := fs[i];
        KeysSnoc(fs[..i], f);
        assert fs[..i + 1][..i] == fs[..i] && fs[..i + 1] == fs[..i] + [f];
        if ValidFinding(f) {
          valid := valid + [f];
          seen, entities := seen + {(f.campaign, f.entityType, f.entityKey)}, entities + {(f.entityType, f.entityKey)};
        }
      }
      assert fs[..|fs|] == fs;
    }

    static method WriteLifecycleStmts(valid: seq<FindingInput>, next: nat, ctx: Ctx) returns (stmts: seq<IssueStmt>)
      ensures stmts == LifecycleStmts(valid, next, ctx)
    {
      stmts := [];
      for i := 0 to |valid|
        invariant stmts == LifecycleStmts(valid[..i], next, ctx)
      {
        assert valid[..i + 1][..i] == valid[..i];
        var key := KeyOf(ctx.instance, valid[i]);
        stmts := stmts + [Touch(key, valid[i], ctx), InsertIfAbsent(next + i, key, valid[i], ctx)];
      }
      assert valid[..|valid|] == valid;
    }

    /** The batched ingest promises exactly what Tracking.TrackingDb.IngestRun promises. */
    method IngestRun(run: RunInput) returns (runId: nat)
      requires Valid()
      modifies this
      ensures Valid() && history == old(history) + [run] && runId == |history|
      ensures Ingested(run, runId, old(issues), old(findings), old(users), old(projects), issues, findings, users, projects)
      ensures KeepsIds(old(issues), issues) && KeepsIds(old(findings), findings)
      ensures coverage == old(coverage)[runId := CoverageOf(run.sections)]
    {
      runId := NextId(coverage.Keys);
      assert |history| > 0 ==> |history| in coverage.Keys;
      var ctx := Ctx(run.instance, runId, run.now);

      WriteTables(run, ctx);
      HistoryGrows(history, run, old(issues), old(findings), old(users), old(projects), issues, findings, users, projects);
      CoverageGrows(history, run, old(coverage), coverage);
      history := history + [run];
    }

    // Everything a run writes.
    method WriteTables(run: RunInput, ctx: Ctx)
      requires UniqueIds(issues) && UniqueIds(findings) && ctx == Ctx(run.instance, ctx.run, run.now)
      modifies this`issues, this`findings, this`users, this`projects, this`coverage
      ensures Ingested(run, ctx.run, old(issues), old(findings), old(users), old(projects), issues, findings, users, projects)
      ensures UniqueIds(issues) && KeepsIds(old(issues), issues)
      ensures UniqueIds(findings) && KeepsIds(old(findings), findings)
      ensures coverage == old(coverage)[ctx.run := CoverageOf(run.sections)]
    {
      var valid, seen, entities := CollectFindings(run.findings);
      BulkInserts(run, ctx, valid);
      UpdateIssues(run, ctx, valid, seen, entities);
      coverage := coverage[ctx.run := CoverageOf(run.sections)];
    }

    // Call 2
    method BulkInserts(run: RunInput, ctx: Ctx, valid: seq<FindingInput>)
      requires valid == ValidFindings(run.findings) && UniqueIds(findings)
      modifies this`users, this`projects, this`findings
      ensures UniqueIds(findings) && KeepsIds(old(findings), findings)
      ensures EntitiesIngested(run.users, ctx, old(users), users)
      ensures EntitiesIngested(run.projects, ctx, old(projects), projects)
      ensures FindingsIngested(run.findings, ctx.run, old(findings), findings)
    {
      var userStmts := WriteEntityStmts(run.users, ctx);
      var projectStmts := WriteEntityStmts(run.projects, ctx);
      var ids := set k | k in findings.Keys :: findings[k].id;
      assert forall k :: k in findings ==> findings[k].id in ids;
      var nextFinding := NextId(ids);
      EntitiesMeaning(users, run.users, ctx);
      EntitiesMeaning(projects, run.projects, ctx);
      FindingsMeaning(findings, nextFinding, run.findings, ctx.run);
      FindingIds(findings, nextFinding, valid, ctx.run);
      ExecuteBulk(userStmts, projectStmts, FindingStmts(valid, nextFinding, ctx.run));
    }

    // Calls 3 and 4, on the issues table
    method UpdateIssues(run: RunInput, ctx: Ctx, valid: seq<FindingInput>,
                        seen: set<(string, string, string)>, entities: set<(string, string)>)
      requires UniqueIds(issues)
      requires ctx == Ctx(run.instance, ctx.run, run.now) && valid == ValidFindings(run.findings)
      requires seen == FindingKeys(run.findings) && entities == Entities(run.findings)
      modifies this`issues
      ensures IssuesIngested(run, ctx.run, old(issues), issues)
      ensures UniqueIds(issues) && KeepsIds(old(issues), issues)
    {
      var ids := set k | k in issues.Keys :: issues[k].id;
      assert forall k :: k in issues ==> issues[k].id in ids;
      var nextIssue := NextId(ids);
      var lifecycle := WriteLifecycleStmts(valid, nextIssue, ctx);
      Execute(lifecycle);
      Execute(ResolveStmts(ctx, SafeCampaigns(run.sections), seen, entities));
      IngestBatchMeaning(old(issues), nextIssue, run, ctx.run);
    }
  }
}
