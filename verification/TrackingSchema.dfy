/** The tables and inputs both tracking back ends share, and the meaning of one ingest
    for one issue: a small automaton that neither back end mentions.  Each back end is
    proved against it in its own module. */
module TrackingSchema {
  import opened Wrappers

  datatype Status = Open | Resolved | Regressed
  datatype Reason = ConditionCleared | EntityDeleted
  datatype Coverage = Complete | Failed | Partial

  // UNIQUE(instance_id, campaign_id, entity_type, entity_key)
  datatype IssueKey = IssueKey(instance: string, campaign: string, entityType: string, entityKey: string)

  datatype Issue = Issue(
    ownerLogin: string, ownerEmail: Option<string>, status: Status,
    firstRun: nat, firstAt: string, lastRun: nat, lastAt: string,
    resolvedRun: Option<nat>, resolvedAt: Option<string>, reason: Option<Reason>,
    timesRegressed: nat, timesEmailed: nat,
    entityName: Option<string>, metrics: Option<string>)

  datatype FindingKey = FindingKey(run: nat, campaign: string, entityType: string, entityKey: string)
  datatype Finding = Finding(entityName: Option<string>, ownerLogin: string, ownerEmail: Option<string>, metrics: Option<string>)

  datatype EntityRowKey = EntityRowKey(instance: string, name: string)
  // known_users and known_projects: first and last sighting, and columns kept by COALESCE.
  datatype KnownEntity = KnownEntity(columns: seq<Option<string>>, flag: bool, firstSeen: nat, lastSeen: nat)

  // A row of a table with a generated primary key.
  datatype Row<T> = Row(id: nat, body: T)
  type IssueTable = map<IssueKey, Row<Issue>>
  type FindingTable = map<FindingKey, Row<Finding>>
  type EntityTable = map<EntityRowKey, KnownEntity>

  datatype FindingInput = FindingInput(
    campaign: string, entityType: string, entityKey: string, entityName: Option<string>,
    ownerLogin: string, ownerEmail: Option<string>, metrics: Option<string>)
  datatype EntityInput = EntityInput(name: string, columns: seq<Option<string>>, flag: bool)
  datatype RunInput = RunInput(
    instance: string, now: string, findings: seq<FindingInput>,
    users: seq<EntityInput>, projects: seq<EntityInput>, sections: map<string, Option<string>>)

  // What every statement of one ingest knows about its run.
  datatype Ctx = Ctx(instance: string, run: nat, now: string)

  const CAMPAIGN_REQUIRED_SECTIONS: map<string, seq<string>> := map[
    "project" := ["projects", "project_footprint", "code_envs"],
    "code_env" := ["projects", "code_envs"],
    "code_studio" := ["projects", "project_footprint"],
    "auto_scenario" := ["projects", "scenarios"],
    "scenario_frequency" := ["projects", "scenarios"],
    "scenario_failing" := ["projects", "scenarios"],
    "disabled_user" := ["projects", "users", "project_footprint"],
    "deprecated_code_env" := ["code_envs"],
    "default_code_env" := ["projects", "code_envs"],
    "empty_project" := ["projects", "project_footprint"],
    "large_flow" := ["projects", "project_footprint"],
    "orphan_notebooks" := ["projects", "project_footprint"],
    "overshared_project" := ["projects"],
    "inactive_project" := ["projects"],
    "unused_code_env" := ["code_envs"]]

  // ----- coverage -----

  predicate SectionComplete(sections: map<string, Option<string>>, s: string) {
    s in sections && sections[s] == Some("success")
  }

  predicate SafeCampaign(campaign: string, sections: map<string, Option<string>>) {
    campaign in CAMPAIGN_REQUIRED_SECTIONS
    && forall s | s in CAMPAIGN_REQUIRED_SECTIONS[campaign] :: SectionComplete(sections, s)
  }

  function SafeCampaigns(sections: map<string, Option<string>>): (safe: set<string>)
    ensures forall c :: c in safe <==> SafeCampaign(c, sections)
  {
    set c | c in CAMPAIGN_REQUIRED_SECTIONS.Keys && SafeCampaign(c, sections)
  }

  // runs.coverage_status defaults a missing section status to success; auto-resolve does not.
  function StatusOrDefault(status: Option<string>): string {
    if status.Some? then status.value else "success"
  }

  function CoverageOf(sections: map<string, Option<string>>): Coverage {
    if forall s | s in sections :: StatusOrDefault(sections[s]) == "success" then Complete
    else if exists s | s in sections :: StatusOrDefault(sections[s]) == "error" then Failed
    else Partial
  }

  // A section without a status passes for a success, whether or not it ever ran.
  predicate Passes(sections: map<string, Option<string>>, s: string) {
    s in sections && (sections[s].None? || sections[s].value == "success")
  }

  predicate Errs(sections: map<string, Option<string>>, s: string) {
    s in sections && sections[s] == Some("error")
  }

  /** A run's coverage is complete if every section passes, failed if one does not and one is an error, and
      partial otherwise. */
  lemma CoverageMeans(sections: map<string, Option<string>>)
    ensures CoverageOf(sections).Complete? <==> forall s :: s in sections ==> Passes(sections, s)
    ensures CoverageOf(sections).Failed? <==> exists s :: Errs(sections, s)
  {
    if s :| s in sections && StatusOrDefault(sections[s]) == "error" { assert Errs(sections, s); }
    if s :| Errs(sections, s) { assert StatusOrDefault(sections[s]) == "error"; }
  }

  /** Complete coverage is not enough to resolve: of a run with complete coverage a campaign is safe if and
      only if each of its sections is recorded with a status of its own. */
  lemma CompleteNeedNotBeSafe(sections: map<string, Option<string>>, campaign: string)
    requires CoverageOf(sections).Complete? && campaign in CAMPAIGN_REQUIRED_SECTIONS
    ensures campaign in SafeCampaigns(sections) <==>
            forall s :: s in CAMPAIGN_REQUIRED_SECTIONS[campaign] ==> s in sections && sections[s].Some?
  {
    CoverageMeans(sections);
    assert forall s :: s in sections && sections[s].Some? ==> (Passes(sections, s) <==> SectionComplete(sections, s));
  }

  // ----- findings -----

  predicate ValidFinding(f: FindingInput) {
    f.campaign != "" && f.entityKey != "" && f.ownerLogin != ""
  }

  function KeyOf(instance: string, f: FindingInput): IssueKey {
    IssueKey(instance, f.campaign, f.entityType, f.entityKey)
  }

  // finding_keys_this_run and entities_this_run, for the findings seen so far.
  function FindingKeys(fs: seq<FindingInput>): set<(string, string, string)> {
    set f | f in fs && ValidFinding(f) :: (f.campaign, f.entityType, f.entityKey)
  }

  function Entities(fs: seq<FindingInput>): set<(string, string)> {
    set f | f in fs && ValidFinding(f) :: (f.entityType, f.entityKey)
  }

  lemma KeysSnoc(fs: seq<FindingInput>, f: FindingInput)
    ensures FindingKeys(fs + [f]) == FindingKeys(fs) + (if ValidFinding(f) then {(f.campaign, f.entityType, f.entityKey)} else {})
    ensures Entities(fs + [f]) == Entities(fs) + (if ValidFinding(f) then {(f.entityType, f.entityKey)} else {})
  {
    assert forall g :: g in fs + [f] <==> g in fs || g == f;
  }

  function NewIssue(f: FindingInput, ctx: Ctx): Issue {
    Issue(f.ownerLogin, f.ownerEmail, Open, ctx.run, ctx.now, ctx.run, ctx.now,
          None, None, None, 0, 0, f.entityName, f.metrics)
  }

  function Refresh(b: Issue, f: FindingInput, ctx: Ctx): Issue {
    b.(lastRun := ctx.run, lastAt := ctx.now, ownerLogin := f.ownerLogin, ownerEmail := f.ownerEmail,
       entityName := f.entityName, metrics := f.metrics)
  }

  function Reopen(b: Issue, f: FindingInput, ctx: Ctx): Issue {
    Refresh(b, f, ctx).(status := Regressed, timesRegressed := b.timesRegressed + 1,
                        resolvedRun := None, resolvedAt := None, reason := None)
  }

  function Resolve(b: Issue, ctx: Ctx, why: Reason): Issue {
    b.(status := Resolved, resolvedRun := Some(ctx.run), resolvedAt := Some(ctx.now), reason := Some(why))
  }

  // ----- one ingest, for one key -----

  function Detect(o: Option<Issue>, f: FindingInput, ctx: Ctx): Issue {
    if o.None? then NewIssue(f, ctx)
    else if o.value.status.Resolved? then Reopen(o.value, f, ctx)
    else Refresh(o.value, f, ctx)
  }

  function DetectAll(o: Option<Issue>, k: IssueKey, fs: seq<FindingInput>, ctx: Ctx): Option<Issue> {
    if fs == [] then o
    else
      var before := DetectAll(o, k, fs[..|fs| - 1], ctx);
      var f := fs[|fs| - 1];
      if ValidFinding(f) && KeyOf(ctx.instance, f) == k then Some(Detect(before, f, ctx)) else before
  }

  predicate Sweepable(b: Issue, k: IssueKey, ctx: Ctx, safe: set<string>) {
    k.instance == ctx.instance && !b.status.Resolved? && k.campaign in safe
  }

  function WhyResolved(k: IssueKey, entities: set<(string, string)>): Reason {
    if (k.entityType, k.entityKey) in entities then ConditionCleared else EntityDeleted
  }

  function Sweep(o: Option<Issue>, k: IssueKey, ctx: Ctx, safe: set<string>,
                 seen: set<(string, string, string)>, entities: set<(string, string)>): Option<Issue> {
    if o.Some? && Sweepable(o.value, k, ctx, safe) && (k.campaign, k.entityType, k.entityKey) !in seen
    then Some(Resolve(o.value, ctx, WhyResolved(k, entities)))
    else o
  }

  function IngestIssue(o: Option<Issue>, k: IssueKey, run: RunInput, runId: nat): Option<Issue> {
    var ctx := Ctx(run.instance, runId, run.now);
    Sweep(DetectAll(o, k, run.findings, ctx), k, ctx, SafeCampaigns(run.sections),
          FindingKeys(run.findings), Entities(run.findings))
  }

  // ----- tables -----

  function Body<K, T>(t: map<K, Row<T>>, k: K): Option<T> {
    if k in t then Some(t[k].body) else None
  }

  ghost predicate UniqueIds<K(!new), T>(t: map<K, Row<T>>) {
    forall a, b :: a in t && b in t && t[a].id == t[b].id ==> a == b
  }

  ghost predicate IdsBelow<K(!new), T>(t: map<K, Row<T>>, next: nat) {
    forall a :: a in t ==> t[a].id < next
  }

  // Old rows keep the primary key they were given.
  ghost predicate KeepsIds<K(!new), T>(before: map<K, Row<T>>, after: map<K, Row<T>>) {
    forall k :: k in before ==> k in after && after[k].id == before[k].id
  }

  // UPDATE t SET body = g(body) WHERE p
  function UpdateWhere<K, T>(t: map<K, Row<T>>, p: (K, Row<T>) -> bool, g: T -> T): map<K, Row<T>> {
    map k | k in t :: if p(k, t[k]) then t[k].(body := g(t[k].body)) else t[k]
  }

  // known_users / known_projects: COALESCE(new, old) column by column
  function Coalesce(excluded: seq<Option<string>>, stored: seq<Option<string>>): seq<Option<string>> {
    seq(|excluded|, i requires 0 <= i < |excluded| =>
      if excluded[i].Some? || i >= |stored| then excluded[i] else stored[i])
  }

  function SeenAgain(e: KnownEntity, u: EntityInput, run: nat): KnownEntity {
    KnownEntity(Coalesce(u.columns, e.columns), u.flag, e.firstSeen, run)
  }

  function FirstSeen(u: EntityInput, run: nat): KnownEntity {
    KnownEntity(u.columns, u.flag, run, run)
  }

  function LookupEntity(t: EntityTable, k: EntityRowKey): Option<KnownEntity> {
    if k in t then Some(t[k]) else None
  }

  function IngestEntity(o: Option<KnownEntity>, k: EntityRowKey, us: seq<EntityInput>, ctx: Ctx): Option<KnownEntity> {
    if us == [] then o
    else
      var before := IngestEntity(o, k, us[..|us| - 1], ctx);
      var u := us[|us| - 1];
      if u.name == "" || EntityRowKey(ctx.instance, u.name) != k then before
      else if before.None? then Some(FirstSeen(u, ctx.run))
      else Some(SeenAgain(before.value, u, ctx.run))
  }

  // findings: INSERT OR IGNORE keeps the first finding of a key
  function IngestFinding(o: Option<Finding>, k: FindingKey, fs: seq<FindingInput>, run: nat): Option<Finding> {
    if fs == [] then o
    else
      var before := IngestFinding(o, k, fs[..|fs| - 1], run);
      var f := fs[|fs| - 1];
      if before.None? && ValidFinding(f) && FindingKey(run, f.campaign, f.entityType, f.entityKey) == k
      then Some(FindingBody(f)) else before
  }

  function FindingBody(f: FindingInput): Finding {
    Finding(f.entityName, f.ownerLogin, f.ownerEmail, f.metrics)
  }
}
