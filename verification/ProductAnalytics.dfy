/** Product analytics with an installation-wide opt-out: a bounded queue of events stamped with the
    generation they were accepted in, and one sender that filters its batch by the current one.
    `_LOCK` covers reading the settings, the whole accept loop and the whole of `set_enabled`; the
    queue has a lock of its own, so the sender takes events out in the middle of both loops. */
module ProductAnalytics {
  import opened Wrappers
  import Runs

  const QUEUE_LIMIT := 1000
  const SEEN_LIMIT := 4096
  const BATCH_LIMIT := 50
  const CONFIG_SECONDS := 10

  datatype Config = Config(enabled: bool, configured: bool, secret: nat)   // secret 0: none stored yet
  datatype Settings = Settings(enabled: bool, secret: nat)
  datatype Queued = Queued(generation: nat, item: nat)
  // What was true when an event was accepted.
  datatype Stamp = Stamp(generation: nat, opts: nat, config: Config, dedup: nat)

  datatype AcceptPc = AtRead | AtLock(config: Config) | Adding(config: Config) | Returned(accepted: nat)
  datatype Accept = Accept(pc: AcceptPc, rest: seq<nat>, accepted: nat)
  datatype Sender = Idle | Batching(batch: seq<Queued>) | HasRead(batch: seq<Queued>, config: Config)
  datatype Holder = Free | Adder(call: nat) | Setter

  // How one read of the saved settings turns out.
  datatype Outcome = Loaded(configured: bool, minted: nat) | Fails

  datatype State = State(
    now: int, settings: Settings, config: Option<Config>, configAt: Option<int>, generation: nat, lock: Holder,
    queue: seq<Queued>, seen: set<nat>, accepts: map<nat, Accept>, sender: Sender,
    // history: every accepted event, the number of set_enabled calls, where the seen-set was last
    // cleared, and the events handed to the network
    stamps: seq<Stamp>, opts: nat, clearedAt: nat, sent: seq<nat>)

  datatype Action =
    | Begin(call: nat, events: seq<nat>)
    | AcceptRead(call: nat, outcome: Outcome)
    | AcceptLock(call: nat)
    | AddOne(call: nat)
    | AddDone(call: nat)
    | Read(outcome: Outcome)
    | SetEnabled(value: bool)
    | Drain
    | SetDone
    | SenderGet
    | SenderMore
    | SenderRead(outcome: Outcome)
    | SenderFilter
    | EditSettings(edited: Settings)
    | Tick(to: int)

  predicate Enabled(s: State, a: Action) {
    match a
    case Begin(c, _) => c !in s.accepts
    case AcceptRead(c, o) => s.lock.Free? && c in s.accepts && s.accepts[c].pc.AtRead? && (o.Loaded? ==> o.minted > 0)
    case AcceptLock(c) => s.lock.Free? && c in s.accepts && s.accepts[c].pc.AtLock?
    case AddOne(c) => c in s.accepts && s.accepts[c].pc.Adding? && |s.accepts[c].rest| > 0
    case AddDone(c) => c in s.accepts && s.accepts[c].pc.Adding? && |s.accepts[c].rest| == 0
    case Read(o) => s.lock.Free? && (o.Loaded? ==> o.minted > 0)
    case SetEnabled(_) => s.lock.Free?
    case Drain => s.lock.Setter? && |s.queue| > 0
    case SetDone => s.lock.Setter? && |s.queue| == 0
    case SenderGet => s.sender.Idle? && |s.queue| > 0
    case SenderMore => s.sender.Batching? && |s.sender.batch| < BATCH_LIMIT && |s.queue| > 0
    case SenderRead(o) =>
      s.lock.Free? && s.sender.Batching? && (|s.sender.batch| >= BATCH_LIMIT || |s.queue| == 0) && (o.Loaded? ==> o.minted > 0)
    case SenderFilter => s.lock.Free? && s.sender.HasRead?
    case EditSettings(_) => true
    case Tick(to) => s.now <= to
  }

  // The state and the answer after one _read_config.
  function ReadConfig(s: State, o: Outcome): (State, Option<Config>) {
    if s.config.Some? && s.configAt.Some? && s.now - s.configAt.value < CONFIG_SECONDS then (s, s.config)
    else if o.Fails? then (s, None)
    else
      var enabled := s.settings.enabled;
      var secret := if enabled && o.configured && s.settings.secret == 0 then o.minted else s.settings.secret;
      var value := Config(enabled, o.configured, secret);
      var bump := s.config.Some? && (s.config.value.enabled != enabled || s.config.value.secret != secret);
      (s.(settings := s.settings.(secret := secret), config := Some(value), configAt := Some(s.now),
          generation := if bump then s.generation + 1 else s.generation), Some(value))
  }

  function Goto(s: State, c: nat, pc: AcceptPc): State
    requires c in s.accepts
  {
    s.(accepts := s.accepts[c := s.accepts[c].(pc := pc)])
  }

  predicate MayAccept(s: State, config: Config) {
    s.config.Some? && s.config.value.enabled && s.config.value.secret == config.secret
  }

  // One turn of the accept loop: skip a duplicate, stop at a full queue, else enqueue and remember.
  function AddEvent(s: State, c: nat): State
    requires Enabled(s, AddOne(c)) && s.config.Some?
  {
    var a := s.accepts[c];
    var dedup := a.rest[0];
    if dedup in s.seen then s.(accepts := s.accepts[c := a.(rest := a.rest[1..])])
    else if |s.queue| >= QUEUE_LIMIT then s.(accepts := s.accepts[c := a.(rest := [])])
    else
      var clear := |s.seen| >= SEEN_LIMIT;
      s.(accepts := s.accepts[c := a.(rest := a.rest[1..], accepted := a.accepted + 1)],
         queue := s.queue + [Queued(s.generation, |s.stamps|)],
         seen := (if clear then {} else s.seen) + {dedup}, clearedAt := if clear then |s.stamps| else s.clearedAt,
         stamps := s.stamps + [Stamp(s.generation, s.opts, s.config.value, dedup)])
  }

  function Passing(batch: seq<Queued>, generation: nat): (r: seq<nat>) {
    if |batch| == 0 then []
    else (if batch[0].generation == generation then [batch[0].item] else []) + Passing(batch[1..], generation)
  }

  // What of a batch is sent, under the configuration the sender read before it took the lock.
  function Filtered(batch: seq<Queued>, config: Config, generation: nat): seq<nat> {
    if config.enabled && config.configured then Passing(batch, generation) else []
  }

  function Apply(s: State, a: Action): State
    requires Enabled(s, a)
  {
    match a
    case Begin(c, events) => s.(accepts := s.accepts[c := Accept(AtRead, events, 0)])
    case AcceptRead(c, o) =>
      var (t, r) := ReadConfig(s, o);
      Goto(t, c, if r.Some? && r.value.enabled && r.value.configured then AtLock(r.value) else Returned(0))
    case AcceptLock(c) =>
      var config := s.accepts[c].pc.config;
      if MayAccept(s, config) then Goto(s, c, Adding(config)).(lock := Adder(c)) else Goto(s, c, Returned(0))
    case AddOne(c) => if s.config.Some? then AddEvent(s, c) else s
    case AddDone(c) => Goto(s, c, Returned(s.accepts[c].accepted)).(lock := Free)
    case Read(o) => ReadConfig(s, o).0
    case SetEnabled(v) =>
      s.(settings := s.settings.(enabled := v), generation := s.generation + 1, configAt := None, lock := Setter, opts := s.opts + 1,
         config := if s.config.Some? then Some(s.config.value.(enabled := v)) else None)
    case Drain => s.(queue := s.queue[1..])
    case SetDone => s.(lock := Free)
    case SenderGet => s.(queue := s.queue[1..], sender := Batching([s.queue[0]]))
    case SenderMore => s.(queue := s.queue[1..], sender := Batching(s.sender.batch + [s.queue[0]]))
    case SenderRead(o) =>
      var (t, r) := ReadConfig(s, o);
      t.(sender := if r.Some? then HasRead(s.sender.batch, r.value) else Idle)
    case SenderFilter => s.(sender := Idle, sent := s.sent + Filtered(s.sender.batch, s.sender.config, s.generation))
    case EditSettings(edited) => s.(settings := edited)
    case Tick(to) => s.(now := to)
  }

  ghost predicate Init(s: State) {
    && s.config == None && s.configAt == None && s.lock == Free && s.queue == [] && s.seen == {} && s.accepts == map[]
    && s.sender == Idle && s.stamps == [] && s.opts == 0 && s.clearedAt == 0 && s.sent == []
  }

  ghost predicate Next(s: State, t: State) {
    exists a: Action :: Enabled(s, a) && t == Apply(s, a)
  }

  // ----- opt-out safety -----

  function Batch(s: State): seq<Queued> { if s.sender.Idle? then [] else s.sender.batch }

  /** What a queued event of the current generation promises: it was accepted while analytics was
      enabled, under the secret still in force, and set_enabled has not been called since. */
  predicate Truthful(s: State, q: Queued) {
    && q.item < |s.stamps| && q.generation == s.stamps[q.item].generation <= s.generation
    && (q.generation == s.generation ==> Unrevoked(s, s.stamps[q.item]))
  }

  predicate Unrevoked(s: State, p: Stamp) {
    && p.opts == s.opts && p.config.enabled
    && s.config.Some? && s.config.value.enabled && s.config.value.secret == p.config.secret
  }

  ghost predicate AllTruthful(s: State) {
    && (forall i {:trigger s.queue[i]} :: 0 <= i < |s.queue| ==> Truthful(s, s.queue[i]))
    && (forall i {:trigger Batch(s)[i]} :: 0 <= i < |Batch(s)| ==> Truthful(s, Batch(s)[i]))
  }

  // A call adding events holds the lock, so the configuration it checked cannot change under it.
  ghost predicate LockOk(s: State) {
    forall c :: c in s.accepts && s.accepts[c].pc.Adding? ==> s.lock == Adder(c) && MayAccept(s, s.accepts[c].pc.config)
  }

  ghost predicate Safe(s: State) { AllTruthful(s) && LockOk(s) }

  // A step that adds no event: what is queued or batched was so before, and promises stay kept.
  ghost predicate AddsNothing(s: State, t: State) {
    && t.stamps == s.stamps && s.generation <= t.generation
    && (t.generation == s.generation ==> t.opts == s.opts && (s.config.Some? ==> SameRights(s.config, t.config)))
    && (t.queue == s.queue || (|s.queue| > 0 && t.queue == s.queue[1..]))
    && (Batch(t) == Batch(s) || Batch(t) == [] || (|s.queue| > 0 && Batch(t) == Batch(s) + [s.queue[0]]))
  }

  predicate SameRights(a: Option<Config>, b: Option<Config>) {
    a.Some? && b.Some? && a.value.enabled == b.value.enabled && a.value.secret == b.value.secret
  }

  lemma NothingAddedKeeps(s: State, t: State)
    requires AllTruthful(s) && AddsNothing(s, t)
    ensures AllTruthful(t)
  {
    forall i | 0 <= i < |t.queue| ensures Truthful(t, t.queue[i]) {
      var j := if t.queue == s.queue then i else i + 1;
      assert t.queue[i] == s.queue[j] && Truthful(s, s.queue[j]);
    }
    forall i | 0 <= i < |Batch(t)| ensures Truthful(t, Batch(t)[i]) {
      assert (i < |Batch(s)| && Batch(t)[i] == Batch(s)[i] && Truthful(s, Batch(s)[i])) || (Batch(t)[i] == s.queue[0] && Truthful(s, s.queue[0]));
    }
  }

  lemma StepsAddNothing(s: State, a: Action)
    requires LockOk(s) && Enabled(s, a) && !a.AddOne?
    ensures AddsNothing(s, Apply(s, a))
  {
    assert a.SenderGet? ==> [s.queue[0]] == [] + [s.queue[0]];
  }

  lemma StillTruthful(s: State, c: nat, q: Queued)
    requires LockOk(s) && Enabled(s, AddOne(c)) && Truthful(s, q)
    ensures Truthful(Apply(s, AddOne(c)), q)
  {
  }

  lemma AddKeepsPromises(s: State, c: nat)
    requires Safe(s) && Enabled(s, AddOne(c))
    ensures AllTruthful(Apply(s, AddOne(c)))
  {
    var t := Apply(s, AddOne(c));
    forall i | 0 <= i < |t.queue| ensures Truthful(t, t.queue[i]) {
      if i < |s.queue| { StillTruthful(s, c, s.queue[i]); }
    }
    forall i | 0 <= i < |Batch(t)| ensures Truthful(t, Batch(t)[i]) { StillTruthful(s, c, Batch(s)[i]); }
  }

  lemma LockKept(s: State, a: Action)
    requires LockOk(s) && Enabled(s, a)
    ensures LockOk(Apply(s, a))
  {
    match a
    case AddOne(_) =>
    case AcceptLock(_) =>
    case AcceptRead(_, _) =>
    case Read(_) =>
    case SenderRead(_) =>
    case _ =>
  }

  lemma SafeInductive()
    ensures Runs.Inductive(Init, Next, Safe)
  {
    forall s, t | Safe(s) && Next(s, t) ensures Safe(t) {
      var a: Action :| Enabled(s, a) && t == Apply(s, a);
      LockKept(s, a);
      if a.AddOne? { AddKeepsPromises(s, a.call); } else { StepsAddNothing(s, a); NothingAddedKeeps(s, t); }
    }
  }

  lemma {:induction false} PassingComesFromBatch(batch: seq<Queued>, generation: nat, i: nat)
    requires i < |Passing(batch, generation)|
    ensures Queued(generation, Passing(batch, generation)[i]) in batch
  {
    var first := if batch[0].generation == generation then 1 else 0;
    if i >= first { PassingComesFromBatch(batch[1..], generation, i - first); }
  }

  /** Opt-out safety: every event that passes the sender's filter was accepted while analytics was
      enabled, with no set_enabled call between its acceptance and the filter; and analytics is
      enabled at the filter, under the secret the event's identifiers were made with. */
  lemma PassingIsUnrevoked(s: State, i: nat)
    requires Runs.Reachable(Init, Next, s) && Enabled(s, SenderFilter)
    requires |s.sent| <= i < |Apply(s, SenderFilter).sent|
    ensures var n := Apply(s, SenderFilter).sent[i]; n < |s.stamps| && Unrevoked(s, s.stamps[n])
  {
    SafeInductive();
    Runs.HoldsOnReachable(Init, Next, Safe);
    PassingComesFromBatch(s.sender.batch, s.generation, i - |s.sent|);
    var j :| 0 <= j < |Batch(s)| && Batch(s)[j] == Queued(s.generation, Apply(s, SenderFilter).sent[i]);
    assert Truthful(s, Batch(s)[j]);
  }

  // What one step does to the history.
  ghost predicate Grows(s: State, t: State) {
    s.stamps <= t.stamps && s.opts <= t.opts && forall n :: |s.stamps| <= n < |t.stamps| ==> t.stamps[n].opts == t.opts
  }

  lemma NextGrows(s: State, t: State)
    requires Next(s, t)
    ensures Grows(s, t)
  {
    var a: Action :| Enabled(s, a) && t == Apply(s, a);
    if !a.AddOne? { assert t.stamps == s.stamps; }
  }

  // History only grows: an event's stamp stays, and the number of set_enabled calls never falls.
  lemma {:induction false} HistoryGrows(run: seq<State>, i: nat, j: nat)
    requires Runs.IsRun(Init, Next, run) && i <= j < |run|
    ensures run[i].stamps <= run[j].stamps && run[i].opts <= run[j].opts
  {
    if i < j {
      HistoryGrows(run, i, j - 1);
      assert Runs.StepAt(Next, run, j);
      NextGrows(run[j - 1], run[j]);
    }
  }

  ghost predicate Step(s: State, a: Action, t: State) { Enabled(s, a) && t == Apply(s, a) }

  /** The count of set_enabled calls that stamps carry rises between two states if and only if set_enabled
      was called between them. */
  lemma {:induction false} OptsRiseIff(run: seq<State>, acts: seq<Action>, i: nat, j: nat)
    requires Runs.Trace(Init, Step, run, acts) && i <= j < |run|
    ensures run[i].opts <= run[j].opts
    ensures run[i].opts < run[j].opts <==> exists m :: i < m <= j && acts[m].SetEnabled?
  {
    if i < j {
      OptsRiseIff(run, acts, i, j - 1);
      assert Runs.ActAt(Step, run, acts, j);
      OptsMove(run[j - 1], acts[j], run[j]);
    }
  }

  lemma OptsMove(s: State, a: Action, t: State)
    requires Step(s, a, t)
    ensures t.opts == s.opts + if a.SetEnabled? then 1 else 0
  {
  }

  /** Nothing accepted before a set_enabled call is sent by a filter after it, even if analytics was
      enabled again in between. */
  lemma OptOutIsFinal(run: seq<State>, acts: seq<Action>, i: nat, m: nat, k: nat, n: nat)
    requires Runs.Trace(Init, Step, run, acts) && i < m <= k < |run| && n < |run[i].stamps| && acts[m].SetEnabled?
    requires Enabled(run[k], SenderFilter)
    ensures n !in Apply(run[k], SenderFilter).sent[|run[k].sent|..]
  {
    var s := run[k];
    Runs.TraceIsRun(Init, Next, Step, run, acts);
    OptsRiseIff(run, acts, i, k);
    HistoryGrows(run, i, k);
    StampsAreOld(run, i, n);
    Runs.ReachedOnRun(Init, Next, run, k);
    var added := Apply(s, SenderFilter).sent[|s.sent|..];
    assert s.stamps[n] == run[i].stamps[n] && s.stamps[n].opts < s.opts;
    forall j | 0 <= j < |added| ensures added[j] != n { PassingIsUnrevoked(s, |s.sent| + j); }
  }

  lemma {:induction false} StampsAreOld(run: seq<State>, i: nat, n: nat)
    requires Runs.IsRun(Init, Next, run) && i < |run| && n < |run[i].stamps|
    ensures run[i].stamps[n].opts <= run[i].opts
  {
    if i > 0 {
      assert Runs.StepAt(Next, run, i);
      NextGrows(run[i - 1], run[i]);
      if n < |run[i - 1].stamps| { StampsAreOld(run, i - 1, n); }
    }
  }

  // ----- order, bounds and duplicates -----

  predicate Increasing(xs: seq<nat>) { forall i, j :: 0 <= i < j < |xs| ==> xs[i] < xs[j] }

  predicate AllBelow(xs: seq<nat>, n: nat) { forall i :: 0 <= i < |xs| ==> xs[i] < n }

  function Items(qs: seq<Queued>): (r: seq<nat>)
    ensures |r| == |qs| && forall i :: 0 <= i < |r| ==> r[i] == qs[i].item
  {
    seq(|qs|, i requires 0 <= i < |qs| => qs[i].item)
  }

  // Everything accepted and not dropped, oldest first: sent, in the sender's batch, in the queue.
  function Line(s: State): seq<nat> { s.sent + Items(Batch(s)) + Items(s.queue) }

  ghost predicate InOrder(s: State) {
    Increasing(Line(s)) && AllBelow(Line(s), |s.stamps|)
  }

  // The duplicate table holds the events accepted since it was last cleared, each once.
  ghost predicate Window(seen: set<nat>, stamps: seq<Stamp>, from: nat) {
    && from + |seen| == |stamps|
    && (forall i :: from <= i < |stamps| ==> stamps[i].dedup in seen)
    && (forall d :: d in seen ==> exists i :: from <= i < |stamps| && stamps[i].dedup == d)
    && (forall i, j :: from <= i < j < |stamps| ==> stamps[i].dedup != stamps[j].dedup)
  }

  lemma WindowGrows(seen: set<nat>, stamps: seq<Stamp>, from: nat, p: Stamp)
    requires Window(seen, stamps, from) && p.dedup !in seen
    ensures Window(seen + {p.dedup}, stamps + [p], from)
  {
    var more := stamps + [p];
    forall d | d in seen + {p.dedup} ensures exists i :: from <= i < |more| && more[i].dedup == d {
      if d == p.dedup { assert more[|stamps|].dedup == d; }
      else { var i :| from <= i < |stamps| && stamps[i].dedup == d; assert more[i].dedup == d; }
    }
  }

  lemma WindowCleared(stamps: seq<Stamp>, p: Stamp)
    ensures Window({p.dedup}, stamps + [p], |stamps|)
  {
    assert (stamps + [p])[|stamps|].dedup == p.dedup;
  }

  ghost predicate Bounded(s: State) {
    && |s.queue| <= QUEUE_LIMIT && |Batch(s)| <= BATCH_LIMIT && |s.seen| <= SEEN_LIMIT
    && Window(s.seen, s.stamps, s.clearedAt)
  }

  lemma MiddleDropped(a: seq<nat>, b: seq<nat>, c: seq<nat>, n: nat)
    requires Increasing(a + b + c) && AllBelow(a + b + c, n)
    ensures Increasing(a + c) && AllBelow(a + c, n)
  {
    forall i, j | 0 <= i < j < |a + c| ensures (a + c)[i] < (a + c)[j] < n {
      var p, q := if i < |a| then i else i + |b|, if j < |a| then j else j + |b|;
      assert (a + b + c)[p] == (a + c)[i] && (a + b + c)[q] == (a + c)[j];
    }
    forall i | 0 <= i < |a + c| ensures (a + c)[i] < n {
      assert (a + b + c)[if i < |a| then i else i + |b|] == (a + c)[i];
    }
  }

  // Filtering the batch leaves out entries of the line, and keeps the others in their places.
  lemma {:induction false} FilteredLine(a: seq<nat>, batch: seq<Queued>, generation: nat, c: seq<nat>, n: nat)
    requires Increasing(a + Items(batch) + c) && AllBelow(a + Items(batch) + c, n)
    ensures Increasing(a + Passing(batch, generation) + c) && AllBelow(a + Passing(batch, generation) + c, n)
    decreases |batch|
  {
    if |batch| == 0 {
      assert Items(batch) == [] == Passing(batch, generation);
    } else {
      var x, rest := [batch[0].item], batch[1..];
      assert a + Items(batch) + c == a + x + (Items(rest) + c);
      if batch[0].generation == generation {
        assert a + Items(batch) + c == (a + x) + Items(rest) + c;
        FilteredLine(a + x, rest, generation, c, n);
        assert Passing(batch, generation) == x + Passing(rest, generation);
        assert (a + x) + Passing(rest, generation) + c == a + Passing(batch, generation) + c;
      } else {
        MiddleDropped(a, x, Items(rest) + c, n);
        assert a + (Items(rest) + c) == a + Items(rest) + c;
        FilteredLine(a, rest, generation, c, n);
        assert Passing(batch, generation) == Passing(rest, generation);
      }
    }
  }

  lemma FilterKeepsOrder(s: State)
    requires InOrder(s) && Enabled(s, SenderFilter)
    ensures InOrder(Apply(s, SenderFilter))
  {
    FilteredLine(s.sent, s.sender.batch, s.generation, Items(s.queue), |s.stamps|);
    MiddleDropped(s.sent, Items(s.sender.batch), Items(s.queue), |s.stamps|);
    var sent := Filtered(s.sender.batch, s.sender.config, s.generation);
    assert s.sent + [] + Items(s.queue) == s.sent + Items(s.queue);
    assert Line(Apply(s, SenderFilter)) == s.sent + sent + Items(s.queue);
  }

  lemma TakeKeepsOrder(s: State, a: Action)
    requires Enabled(s, a) && (a.SenderGet? || a.SenderMore?)
    ensures Line(Apply(s, a)) == Line(s)
  {
    var t := Apply(s, a);
    OneMoved(s.sent, Batch(s), s.queue);
    assert Batch(t) == Batch(s) + [s.queue[0]] && t.queue == s.queue[1..];
  }

  lemma Regroup(a: seq<nat>, b: seq<nat>, x: seq<nat>, c: seq<nat>)
    ensures a + (b + x) + c == a + b + (x + c)
  {
  }

  lemma OneMoved(sent: seq<nat>, batch: seq<Queued>, queue: seq<Queued>)
    requires |queue| > 0
    ensures sent + Items(batch + [queue[0]]) + Items(queue[1..]) == sent + Items(batch) + Items(queue)
  {
    var x := [queue[0].item];
    assert Items(batch + [queue[0]]) == Items(batch) + x && Items(queue) == x + Items(queue[1..]);
    Regroup(sent, Items(batch), x, Items(queue[1..]));
  }

  lemma DropsKeepOrder(s: State, a: Action)
    requires InOrder(s) && Enabled(s, a) && (a.Drain? || (a.SenderRead? && Apply(s, a).sender.Idle?))
    ensures InOrder(Apply(s, a))
  {
    var t := Apply(s, a);
    if a.Drain? {
      assert Line(s) == (s.sent + Items(Batch(s))) + [s.queue[0].item] + Items(t.queue);
      MiddleDropped(s.sent + Items(Batch(s)), [s.queue[0].item], Items(t.queue), |s.stamps|);
    } else {
      MiddleDropped(s.sent, Items(Batch(s)), Items(s.queue), |s.stamps|);
      assert Line(t) == s.sent + Items(s.queue);
    }
  }

  lemma AddKeepsOrder(s: State, c: nat)
    requires InOrder(s) && Enabled(s, AddOne(c))
    ensures InOrder(Apply(s, AddOne(c)))
  {
    var t := Apply(s, AddOne(c));
    if t.queue != s.queue {
      QueueGrows(s.sent + Items(Batch(s)), s.queue, t.queue[|s.queue|]);
      assert Line(t) == Line(s) + [|s.stamps|];
    }
  }

  lemma QueueGrows(before: seq<nat>, queue: seq<Queued>, q: Queued)
    ensures before + Items(queue + [q]) == before + Items(queue) + [q.item]
  {
    assert Items(queue + [q]) == Items(queue) + [q.item];
  }

  lemma OrderKept(s: State, a: Action)
    requires InOrder(s) && Enabled(s, a)
    ensures InOrder(Apply(s, a))
  {
    if a.SenderFilter? {
      FilterKeepsOrder(s);
    } else if a.SenderGet? || a.SenderMore? {
      TakeKeepsOrder(s, a);
    } else if a.Drain? || (a.SenderRead? && Apply(s, a).sender.Idle?) {
      DropsKeepOrder(s, a);
    } else if a.AddOne? {
      AddKeepsOrder(s, a.call);
    } else {
      assert Line(Apply(s, a)) == Line(s);
    }
  }

  // An accepted event is stamped, remembered and queued.
  lemma AddedShape(s: State, c: nat, t: State) returns (p: Stamp)
    requires Enabled(s, AddOne(c)) && t == Apply(s, AddOne(c)) && t.stamps != s.stamps
    ensures t.stamps == s.stamps + [p] && p.dedup !in s.seen && |t.queue| == |s.queue| + 1 <= QUEUE_LIMIT && t.sender == s.sender
    ensures if |s.seen| >= SEEN_LIMIT then t.seen == {p.dedup} && t.clearedAt == |s.stamps|
            else t.seen == s.seen + {p.dedup} && t.clearedAt == s.clearedAt
  {
    p := t.stamps[|s.stamps|];
  }

  lemma NothingAddedShape(s: State, c: nat, t: State)
    requires Enabled(s, AddOne(c)) && t == Apply(s, AddOne(c)) && t.stamps == s.stamps
    ensures t.queue == s.queue && t.sender == s.sender && t.seen == s.seen && t.clearedAt == s.clearedAt
  {
    assert |t.stamps| == |s.stamps|;
  }

  lemma AddKeepsBounds(s: State, c: nat)
    requires Bounded(s) && Enabled(s, AddOne(c))
    ensures Bounded(Apply(s, AddOne(c)))
  {
    var t := Apply(s, AddOne(c));
    if t.stamps != s.stamps {
      var p := AddedShape(s, c, t);
      if |s.seen| >= SEEN_LIMIT { WindowCleared(s.stamps, p); } else { WindowGrows(s.seen, s.stamps, s.clearedAt, p); }
    } else {
      NothingAddedShape(s, c, t);
    }
  }

  lemma BoundsKept(s: State, a: Action)
    requires Bounded(s) && Enabled(s, a)
    ensures Bounded(Apply(s, a))
  {
    var t := Apply(s, a);
    if a.AddOne? {
      AddKeepsBounds(s, a.call);
    } else {
      assert t.stamps == s.stamps && t.seen == s.seen && t.clearedAt == s.clearedAt && |t.queue| <= |s.queue|;
      assert |Batch(t)| <= BATCH_LIMIT;
    }
  }

  ghost predicate Orderly(s: State) { InOrder(s) && Bounded(s) }

  lemma PassedFirst(s: State)
    requires InOrder(s)
    ensures Increasing(s.sent) && AllBelow(s.sent, |s.stamps|)
  {
    assert forall i :: 0 <= i < |s.sent| ==> s.sent[i] == Line(s)[i];
  }

  lemma OrderlyInductive()
    ensures Runs.Inductive(Init, Next, Orderly)
  {
    forall s, t | Orderly(s) && Next(s, t) ensures Orderly(t) {
      var a: Action :| Enabled(s, a) && t == Apply(s, a);
      OrderKept(s, a);
      BoundsKept(s, a);
    }
  }

  /** No event passes the filter twice, and those that pass do so in the order of acceptance; the
      queue, the sender's batch and the duplicate table keep their bounds; and an event is accepted
      a second time only if the full duplicate table was cleared in between. */
  lemma PassedInOrderOnce(s: State)
    requires Runs.Reachable(Init, Next, s)
    ensures Increasing(s.sent) && AllBelow(s.sent, |s.stamps|)
    ensures |s.queue| <= QUEUE_LIMIT && |Batch(s)| <= BATCH_LIMIT && |s.seen| <= SEEN_LIMIT
    ensures forall i, j :: 0 <= i < j < |s.stamps| && s.stamps[i].dedup == s.stamps[j].dedup ==> i < s.clearedAt
  {
    OrderlyInductive();
    Runs.HoldsOnReachable(Init, Next, Orderly);
    PassedFirst(s);
  }

  // The stamp of an event like this one is still in the duplicate table.
  ghost predicate SeenLately(s: State, dedup: nat) {
    exists i :: s.clearedAt <= i < |s.stamps| && s.stamps[i].dedup == dedup
  }

  /** An offered event is accepted if and only if the queue has room and none like it was accepted since
      the duplicate table was last cleared, which happens when it holds 4096; the caller is told how many
      were.  A full queue ends the call's batch. */
  lemma AcceptedIff(s: State, c: nat)
    requires Runs.Reachable(Init, Next, s) && Enabled(s, AddOne(c))
    ensures var t, dedup := Apply(s, AddOne(c)), s.accepts[c].rest[0];
      if |s.queue| < QUEUE_LIMIT && !SeenLately(s, dedup)
      then && |t.stamps| == |s.stamps| + 1 && t.stamps[|s.stamps|].dedup == dedup && t.accepts[c].accepted == s.accepts[c].accepted + 1
           && t.clearedAt == (if |s.stamps| - s.clearedAt < SEEN_LIMIT then s.clearedAt else |s.stamps|)
      else t.stamps == s.stamps && t.queue == s.queue && t.accepts[c].accepted == s.accepts[c].accepted
    ensures var t, rest := Apply(s, AddOne(c)), s.accepts[c].rest;
      t.accepts[c].rest == if |s.queue| >= QUEUE_LIMIT && !SeenLately(s, rest[0]) then [] else rest[1..]
  {
    OrderlyInductive();
    SafeInductive();
    Runs.HoldsOnReachable(Init, Next, Orderly);
    Runs.HoldsOnReachable(Init, Next, Safe);
    assert MayAccept(s, s.accepts[c].pc.config);
  }

  // ----- what becomes of an accepted event -----

  /** Filtering keeps exactly the events of the current generation. */
  lemma {:induction false} PassingIff(batch: seq<Queued>, generation: nat, n: nat)
    ensures n in Passing(batch, generation) <==> Queued(generation, n) in batch
  {
    if |batch| > 0 {
      PassingIff(batch[1..], generation, n);
      assert Queued(generation, n) in batch <==> batch[0] == Queued(generation, n) || Queued(generation, n) in batch[1..];
    }
  }

  /** The generation moves with every set_enabled call and with every read that finds the switch or the
      secret changed, and with nothing else. */
  lemma GenerationMovesIff(s: State, a: Action, t: State)
    requires Step(s, a, t)
    ensures t.generation == s.generation || t.generation == s.generation + 1
    ensures t.generation > s.generation <==> a.SetEnabled? || (s.config.Some? && !SameRights(s.config, t.config))
  {
  }

  // A read of the settings that fails, with no answer recent enough to stand in for it.
  predicate ReadFails(s: State, o: Outcome) {
    o.Fails? && !(s.config.Some? && s.configAt.Some? && s.now - s.configAt.value < CONFIG_SECONDS)
  }

  // The ways to lose event n: set_enabled empties the queue, or the sender has it in its batch and cannot
  // read the settings, or reads that the destination is not configured, or finds the generation moved on.
  predicate LostIn(s: State, a: Action, n: nat)
    requires Enabled(s, a) && n < |s.stamps|
  {
    || (a.Drain? && s.queue[0].item == n)
    || (n in Items(Batch(s)) && a.SenderRead? && ReadFails(s, a.outcome))
    || (n in Items(Batch(s)) && a.SenderFilter? && (!s.sender.config.configured || s.stamps[n].generation != s.generation))
  }

  // Once the sender has read the settings, an event of the current generation means they were enabled.
  predicate SenderOk(s: State) {
    s.sender.HasRead? ==> forall i :: 0 <= i < |s.sender.batch| && s.sender.batch[i].generation == s.generation ==> s.sender.config.enabled
  }

  lemma SenderReads(s: State, a: Action)
    requires Safe(s) && Enabled(s, a) && a.SenderRead? && Safe(Apply(s, a))
    ensures SenderOk(Apply(s, a))
  {
    var t := Apply(s, a);
    if t.sender.HasRead? {
      assert t.sender.config == t.config.value && Batch(t) == t.sender.batch;
      forall i | 0 <= i < |t.sender.batch| && t.sender.batch[i].generation == t.generation ensures t.sender.config.enabled {
        assert Truthful(t, Batch(t)[i]);
      }
    }
  }

  lemma SenderKept(s: State, a: Action, t: State)
    requires Safe(s) && Step(s, a, t) && !a.SenderRead? && SenderOk(s)
    ensures SenderOk(t)
  {
    if t.sender.HasRead? {
      GenerationMovesIff(s, a, t);
      assert t.sender == s.sender && Batch(s) == s.sender.batch;
      forall i | 0 <= i < |t.sender.batch| && t.sender.batch[i].generation == t.generation ensures t.sender.config.enabled {
        assert Truthful(s, Batch(s)[i]);
      }
    }
  }

  ghost predicate Sound(s: State) { Safe(s) && InOrder(s) && SenderOk(s) }

  lemma SoundInductive()
    ensures Runs.Inductive(Init, Next, Sound)
  {
    SafeInductive();
    forall s, t | Sound(s) && Next(s, t) ensures Sound(t) {
      var a: Action :| Enabled(s, a) && t == Apply(s, a);
      OrderKept(s, a);
      if a.SenderRead? { SenderReads(s, a); } else { SenderKept(s, a, t); }
    }
  }

  lemma InParts(a: seq<nat>, b: seq<nat>, c: seq<nat>, n: nat)
    requires Increasing(a + b + c)
    ensures n in a + b + c <==> n in a || n in b || n in c
    ensures n in b ==> n !in a && n !in c
    ensures n in c ==> n !in a
  {
    var all := a + b + c;
    forall i, j | 0 <= i < |a| && 0 <= j < |b| ensures a[i] < b[j] { assert all[i] == a[i] && all[|a| + j] == b[j]; }
    forall i, j | 0 <= i < |b| && 0 <= j < |c| ensures b[i] < c[j] { assert all[|a| + i] == b[i] && all[|a| + |b| + j] == c[j]; }
    forall i, j | 0 <= i < |a| && 0 <= j < |c| ensures a[i] < c[j] { assert all[i] == a[i] && all[|a| + |b| + j] == c[j]; }
  }

  lemma FilterSends(s: State, n: nat)
    requires Sound(s) && Enabled(s, SenderFilter) && n < |s.stamps| && n in Items(s.sender.batch)
    ensures n in Filtered(s.sender.batch, s.sender.config, s.generation) <==> !LostIn(s, SenderFilter, n)
  {
    var batch := s.sender.batch;
    PassingIff(batch, s.generation, n);
    assert Batch(s) == batch;
    var i :| 0 <= i < |batch| && batch[i].item == n;
    assert Truthful(s, Batch(s)[i]);
    if Queued(s.generation, n) in batch {
      var j :| 0 <= j < |batch| && batch[j] == Queued(s.generation, n);
      assert Truthful(s, Batch(s)[j]);
    } else {
      assert batch[i] != Queued(s.generation, n);
    }
  }

  lemma FilterLoses(s: State, n: nat)
    requires Sound(s) && Enabled(s, SenderFilter) && n < |s.stamps|
    ensures n in Line(Apply(s, SenderFilter)) <==> n in Line(s) && !LostIn(s, SenderFilter, n)
  {
    var batch, t := s.sender.batch, Apply(s, SenderFilter);
    var passing := Filtered(batch, s.sender.config, s.generation);
    InParts(s.sent, Items(batch), Items(s.queue), n);
    assert Line(t) == s.sent + passing + Items(s.queue);
    if n in Items(batch) { FilterSends(s, n); }
    if n in passing {
      PassingIff(batch, s.generation, n);
      var j :| 0 <= j < |batch| && batch[j] == Queued(s.generation, n);
      assert Items(batch)[j] == n;
    }
  }

  lemma ReadLoses(s: State, a: Action, n: nat)
    requires Sound(s) && Enabled(s, a) && a.SenderRead? && n < |s.stamps|
    ensures n in Line(Apply(s, a)) <==> n in Line(s) && !LostIn(s, a, n)
  {
    InParts(s.sent, Items(Batch(s)), Items(s.queue), n);
    if ReadFails(s, a.outcome) {
      assert Line(Apply(s, a)) == s.sent + Items(s.queue);
    } else {
      assert Line(Apply(s, a)) == Line(s);
    }
  }

  lemma DrainLoses(s: State, n: nat)
    requires Sound(s) && Enabled(s, Drain) && n < |s.stamps|
    ensures n in Line(Apply(s, Drain)) <==> n in Line(s) && !LostIn(s, Drain, n)
  {
    var before, first, rest := s.sent + Items(Batch(s)), [s.queue[0].item], Items(s.queue[1..]);
    assert Items(s.queue) == first + rest;
    assert Line(s) == before + first + rest;
    InParts(before, first, rest, n);
    assert Line(Apply(s, Drain)) == before + rest;
  }

  // A step loses what LostIn says, and adds the event it accepts.
  lemma LineStep(s: State, a: Action, n: nat)
    requires Sound(s) && Enabled(s, a)
    ensures n < |s.stamps| ==> (n in Line(Apply(s, a)) <==> n in Line(s) && !LostIn(s, a, n))
    ensures n == |s.stamps| < |Apply(s, a).stamps| ==> n in Line(Apply(s, a))
  {
    if a.AddOne? {
      AddLine(s, a.call, n);
    } else if n < |s.stamps| {
      if a.SenderFilter? { FilterLoses(s, n); }
      else if a.SenderRead? { ReadLoses(s, a, n); }
      else if a.Drain? { DrainLoses(s, n); }
      else { OtherStepsLoseNothing(s, a); }
    }
  }

  lemma AddLine(s: State, c: nat, n: nat)
    requires Sound(s) && Enabled(s, AddOne(c))
    ensures var t := Apply(s, AddOne(c)); n in Line(t) <==> n in Line(s) || n == |s.stamps| < |t.stamps|
  {
    var t := Apply(s, AddOne(c));
    if t.queue != s.queue {
      QueueGrows(s.sent + Items(Batch(s)), s.queue, t.queue[|s.queue|]);
      assert Line(t) == Line(s) + [|s.stamps|];
    }
  }

  lemma OtherStepsLoseNothing(s: State, a: Action)
    requires Enabled(s, a) && !a.AddOne? && !a.SenderFilter? && !a.SenderRead? && !a.Drain?
    ensures Line(Apply(s, a)) == Line(s)
  {
    if a.SenderGet? || a.SenderMore? { TakeKeepsOrder(s, a); }
  }

  ghost predicate LostAt(run: seq<State>, acts: seq<Action>, i: int, n: nat) {
    0 < i < |run| && |run| == |acts| && n < |run[i - 1].stamps| && Enabled(run[i - 1], acts[i]) && LostIn(run[i - 1], acts[i], n)
  }

  ghost predicate Lost(run: seq<State>, acts: seq<Action>, j: nat, n: nat) {
    exists i :: i <= j && LostAt(run, acts, i, n)
  }

  lemma LostLater(run: seq<State>, acts: seq<Action>, j: nat, n: nat)
    requires 0 < j < |run|
    ensures Lost(run, acts, j, n) <==> Lost(run, acts, j - 1, n) || LostAt(run, acts, j, n)
  {
    if LostAt(run, acts, j, n) { assert Lost(run, acts, j, n); }
    if i :| i <= j - 1 && LostAt(run, acts, i, n) { assert i <= j; }
    if i :| i <= j && LostAt(run, acts, i, n) { assert i == j || i <= j - 1; }
  }

  lemma {:induction false} LineIsNotLost(run: seq<State>, acts: seq<Action>, j: nat, n: nat)
    requires Runs.Trace(Init, Step, run, acts) && j < |run|
    ensures n < |run[j].stamps| ==> (n in Line(run[j]) <==> !Lost(run, acts, j, n))
    ensures n >= |run[j].stamps| ==> !Lost(run, acts, j, n)
  {
    if j > 0 {
      var s, t := run[j - 1], run[j];
      LineIsNotLost(run, acts, j - 1, n);
      LostLater(run, acts, j, n);
      assert Runs.ActAt(Step, run, acts, j);
      Runs.TraceIsRun(Init, Next, Step, run, acts);
      SoundInductive();
      Runs.HoldsOnRuns(Init, Next, Sound, run, j - 1);
      LineStep(s, acts[j], n);
      AtMostOneMore(s, acts[j]);
    }
  }

  lemma AtMostOneMore(s: State, a: Action)
    requires Enabled(s, a)
    ensures |s.stamps| <= |Apply(s, a).stamps| <= |s.stamps| + 1
  {
  }

  /** What becomes of an accepted event, in every run: it is sent if and only if it has left the queue and
      the sender's batch and no step of the run lost it, by draining the queue, by a failed read, because
      no destination was configured, or because the generation had moved on since it was accepted. */
  lemma SentIffNotLost(run: seq<State>, acts: seq<Action>, j: nat, n: nat)
    requires Runs.Trace(Init, Step, run, acts) && j < |run| && n < |run[j].stamps|
    ensures n in run[j].sent <==> n !in Items(Batch(run[j])) && n !in Items(run[j].queue) && !Lost(run, acts, j, n)
  {
    LineIsNotLost(run, acts, j, n);
    Runs.TraceIsRun(Init, Next, Step, run, acts);
    SoundInductive();
    Runs.HoldsOnRuns(Init, Next, Sound, run, j);
    InParts(run[j].sent, Items(Batch(run[j])), Items(run[j].queue), n);
  }

  // ----- what a read of the settings tells -----

  /** A read within ten seconds of the last one repeats its answer and changes nothing; a later one tells
      the saved switch and keeps a saved secret, and a new secret is made and saved exactly when analytics
      is on, a destination is configured and none is saved. */
  lemma ReadTells(s: State, o: Outcome)
    ensures var (t, r) := ReadConfig(s, o); r.Some? ==> ReadConfig(t, o) == (t, r) && t.config == r
    ensures var (t, r) := ReadConfig(s, o); r.None? ==> ReadFails(s, o) && t == s
    ensures var (t, r) := ReadConfig(s, o);
      r.Some? && t != s && t.configAt != s.configAt ==>
        && r.value.enabled == s.settings.enabled == t.settings.enabled && o.Loaded? && r.value.configured == o.configured
        && r.value.secret == t.settings.secret && t.configAt == Some(s.now)
        && (s.settings.secret != 0 ==> t.settings.secret == s.settings.secret)
        && (s.settings.secret == 0 ==> t.settings.secret == if s.settings.enabled && o.configured then o.minted else 0)
  {
  }

  // ----- opting out -----

  // Outside set_enabled the queue holds only events accepted since the last call of it.
  predicate QueueCurrent(s: State) {
    !s.lock.Setter? ==> forall i :: 0 <= i < |s.queue| ==> s.queue[i].item < |s.stamps| && s.stamps[s.queue[i].item].opts == s.opts
  }

  ghost predicate LockedCurrent(s: State) { LockOk(s) && QueueCurrent(s) }

  lemma QueueCurrentInductive()
    ensures Runs.Inductive(Init, Next, LockedCurrent)
  {
    forall s, t | LockedCurrent(s) && Next(s, t) ensures LockedCurrent(t) {
      var a: Action :| Enabled(s, a) && t == Apply(s, a);
      LockKept(s, a);
      QueueStaysCurrent(s, a, t);
    }
  }

  lemma QueueStaysCurrent(s: State, a: Action, t: State)
    requires LockOk(s) && QueueCurrent(s) && Step(s, a, t)
    ensures QueueCurrent(t)
  {
    if a.AddOne? {
      AddedIsCurrent(s, a.call);
    } else if !a.SetEnabled? && !a.SetDone? {
      OtherStepsQueueNothing(s, a, t);
      NothingQueuedIsCurrent(s, t);
    }
  }

  ghost predicate QueuesNothing(s: State, t: State) {
    && t.stamps == s.stamps && t.opts == s.opts && t.lock.Setter? == s.lock.Setter?
    && (t.queue == s.queue || (|s.queue| > 0 && t.queue == s.queue[1..]))
  }

  lemma OtherStepsQueueNothing(s: State, a: Action, t: State)
    requires LockOk(s) && Step(s, a, t) && !a.AddOne? && !a.SetEnabled? && !a.SetDone?
    ensures QueuesNothing(s, t)
  {
  }

  lemma NothingQueuedIsCurrent(s: State, t: State)
    requires QueueCurrent(s) && QueuesNothing(s, t)
    ensures QueueCurrent(t)
  {
    forall i | 0 <= i < |t.queue| ensures t.queue[i] == s.queue[if t.queue == s.queue then i else i + 1] {}
  }

  lemma AddedIsCurrent(s: State, c: nat)
    requires Enabled(s, AddOne(c)) && QueueCurrent(s)
    ensures QueueCurrent(Apply(s, AddOne(c)))
  {
    var t := Apply(s, AddOne(c));
    forall i | 0 <= i < |t.queue| && !t.lock.Setter? ensures t.queue[i].item < |t.stamps| && t.stamps[t.queue[i].item].opts == t.opts {
      if i < |s.queue| { assert t.queue[i] == s.queue[i]; }
    }
  }

  /** A set_enabled call returns with an empty queue: outside it, whatever is queued was accepted after the
      last call. */
  lemma NothingOldIsQueued(s: State, i: nat)
    requires Runs.Reachable(Init, Next, s) && !s.lock.Setter? && i < |s.queue|
    ensures s.queue[i].item < |s.stamps| && s.stamps[s.queue[i].item].opts == s.opts
  {
    QueueCurrentInductive();
    Runs.HoldsOnReachable(Init, Next, LockedCurrent);
  }

  // The switch is saved as v, and so does every configuration in memory say.
  predicate Switched(s: State, v: bool) {
    && s.settings.enabled == v && (s.config.Some? ==> s.config.value.enabled == v)
  }

  lemma SwitchStays(s: State, a: Action, t: State, v: bool)
    requires Step(s, a, t) && Switched(s, v) && !a.SetEnabled? && !a.EditSettings?
    ensures Switched(t, v)
  {
  }

  lemma NothingAccepted(s: State, a: Action, t: State)
    requires Safe(s) && Step(s, a, t) && (s.config.Some? ==> !s.config.value.enabled)
    ensures t.stamps == s.stamps
  {
  }

  /** Opting out stops acceptance: after set_enabled(false) no event is accepted, by any call however far it
      had come, until set_enabled is called again or the settings are edited elsewhere. */
  lemma {:induction false} OptOutStopsAcceptance(run: seq<State>, acts: seq<Action>, i: nat, j: nat)
    requires Runs.Trace(Init, Step, run, acts) && 0 < i <= j < |run| && acts[i] == SetEnabled(false)
    requires forall m :: i < m <= j ==> !acts[m].SetEnabled? && !acts[m].EditSettings?
    ensures run[j].stamps == run[i].stamps && Switched(run[j], false)
  {
    assert Runs.ActAt(Step, run, acts, j);
    if i < j {
      OptOutStopsAcceptance(run, acts, i, j - 1);
      SwitchStays(run[j - 1], acts[j], run[j], false);
      Runs.TraceIsRun(Init, Next, Step, run, acts);
      SafeInductive();
      Runs.HoldsOnRuns(Init, Next, Safe, run, j - 1);
      NothingAccepted(run[j - 1], acts[j], run[j]);
    }
  }

  /** And opting in again is seen by every later read, until the next call or edit. */
  lemma {:induction false} SwitchIsRead(run: seq<State>, acts: seq<Action>, i: nat, j: nat, v: bool, o: Outcome)
    requires Runs.Trace(Init, Step, run, acts) && 0 < i <= j < |run| && acts[i] == SetEnabled(v)
    requires forall m :: i < m <= j ==> !acts[m].SetEnabled? && !acts[m].EditSettings?
    ensures Switched(run[j], v) && (run[i - 1].config.Some? ==> run[j].config.Some?)
    ensures ReadConfig(run[j], o).1.Some? ==> ReadConfig(run[j], o).1.value.enabled == v
  {
    assert Runs.ActAt(Step, run, acts, j);
    if i < j {
      SwitchIsRead(run, acts, i, j - 1, v, o);
      SwitchStays(run[j - 1], acts[j], run[j], v);
    }
  }

  // ----- a run -----

  lemma Walk(s: State, a: Action) returns (t: State)
    requires Runs.Reachable(Init, Next, s) && Enabled(s, a)
    ensures t == Apply(s, a) && Runs.Reachable(Init, Next, t)
  {
    t := Apply(s, a);
    assert Next(s, t);
    Runs.ReachableStep(Init, Next, s, t);
  }

  // Analytics is on, as read at the given time, and nothing is going on.
  predicate Quiet(s: State, at: int) {
    && s.config == Some(Config(true, true, 5)) && s.settings == Settings(true, 5) && s.now == at && s.configAt == Some(at)
    && s.lock.Free? && s.queue == [] && s.sender.Idle?
  }

  // The sender takes what two events are queued, and sends them.
  lemma BatchSent(s: State, p: Queued, q: Queued) returns (t: State)
    requires Runs.Reachable(Init, Next, s) && Quiet(s.(queue := []), 0) && s.queue == [p, q] && p.generation == q.generation == s.generation
    ensures Runs.Reachable(Init, Next, t) && t == s.(queue := [], sent := s.sent + [p.item, q.item])
  {
    t := Walk(s, SenderGet);
    t := Walk(t, SenderMore);
    t := FilterSent(t, p, q);
  }

  lemma FilterSent(s: State, p: Queued, q: Queued) returns (t: State)
    requires Runs.Reachable(Init, Next, s) && Quiet(s.(sender := Idle), 0) && s.sender == Batching([p, q])
    requires p.generation == q.generation == s.generation
    ensures Runs.Reachable(Init, Next, t) && t == s.(sender := Idle, sent := s.sent + [p.item, q.item])
  {
    t := Walk(s, SenderRead(Fails));
    assert Passing([p, q][1..], s.generation) == [q.item];
    t := Walk(t, SenderFilter);
    assert t.sent == s.sent + [p.item, q.item];
  }

  // A call with two new events, admitted.
  lemma TwoEventsAdded(s: State, c: nat, d: nat, e: nat) returns (t: State)
    requires Runs.Reachable(Init, Next, s) && c in s.accepts && s.accepts[c] == Accept(Adding(Config(true, true, 5)), [d, e], 0)
    requires s.config.Some? && d != e && s.seen == {} && s.queue == []
    ensures Runs.Reachable(Init, Next, t)
    ensures t.queue == [Queued(s.generation, |s.stamps|), Queued(s.generation, |s.stamps| + 1)] && |t.stamps| == |s.stamps| + 2
    ensures c in t.accepts && t.accepts[c].pc == Returned(2)
    ensures t == s.(queue := t.queue, stamps := t.stamps, seen := {d, e}, lock := Free, accepts := s.accepts[c := t.accepts[c]])
  {
    t := Walk(s, AddOne(c));
    t := Walk(t, AddOne(c));
    t := Walk(t, AddDone(c));
    assert t.accepts == s.accepts[c := t.accepts[c]];
  }

  lemma TwoEventsQueued() returns (s: State)
    ensures Runs.Reachable(Init, Next, s) && Quiet(s.(queue := []), 0) && s.queue == [Queued(0, 0), Queued(0, 1)] && s.generation == 0
    ensures |s.stamps| == 2 && s.sent == [] && s.accepts.Keys == {0} && s.accepts[0].pc == Returned(2) && s.seen == {7, 8}
  {
    s := State(0, Settings(true, 0), None, None, 0, Free, [], {}, map[], Idle, [], 0, 0, []);
    Runs.ReachableInit(Init, Next, s);
    s := Walk(s, Begin(0, [7, 8]));
    s := Walk(s, AcceptRead(0, Loaded(true, 5)));
    s := Walk(s, AcceptLock(0));
    s := TwoEventsAdded(s, 0, 7, 8);
  }

  lemma TwoEventsSent() returns (s: State)
    ensures Runs.Reachable(Init, Next, s) && Quiet(s, 0) && s.sent == [0, 1] && |s.stamps| == 2
    ensures s.accepts.Keys == {0} && s.accepts[0].pc == Returned(2) && s.seen == {7, 8}
  {
    s := TwoEventsQueued();
    s := BatchSent(s, Queued(0, 0), Queued(0, 1));
  }

  // Switched off, an event is turned away.
  lemma SwitchedOff(s: State) returns (t: State)
    requires Runs.Reachable(Init, Next, s) && Quiet(s, 0) && s.accepts.Keys == {0}
    ensures Runs.Reachable(Init, Next, t) && t.accepts.Keys == {0, 1} && t.accepts[1].pc == Returned(0)
    ensures t.now == 0 && t.lock.Free? && t.queue == [] && t.sender.Idle? && t.config == Some(Config(false, true, 5))
    ensures t.settings == Settings(false, 5) && t.sent == s.sent && t.stamps == s.stamps && t.seen == s.seen
  {
    t := Walk(s, SetEnabled(false));
    t := Walk(t, SetDone);
    t := Walk(t, Begin(1, [9]));
    t := Walk(t, AcceptRead(1, Loaded(true, 6)));
  }

  // Switched on again, it is accepted and sent.
  lemma SwitchedOn(s: State) returns (t: State)
    requires Runs.Reachable(Init, Next, s) && s.accepts.Keys == {0, 1} && s.seen == {7, 8} && s.config.Some?
    requires s.now == 0 && s.lock.Free? && s.queue == [] && s.sender.Idle? && s.settings == Settings(false, 5)
    ensures Runs.Reachable(Init, Next, t) && Quiet(t.(queue := []), 0) && t.sent == s.sent && t.queue == [Queued(t.generation, |s.stamps|)]
  {
    t := Walk(s, SetEnabled(true));
    t := Walk(t, SetDone);
    t := Walk(t, Begin(2, [9]));
    t := Walk(t, AcceptRead(2, Loaded(true, 6)));
    t := Walk(t, AcceptLock(2));
    t := Walk(t, AddOne(2));
    t := Walk(t, AddDone(2));
  }

  lemma OneSent(s: State, q: Queued) returns (t: State)
    requires Runs.Reachable(Init, Next, s) && Quiet(s.(queue := []), 0) && s.queue == [q] && q.generation == s.generation
    ensures Runs.Reachable(Init, Next, t) && t == s.(queue := [], sent := s.sent + [q.item])
  {
    t := Walk(s, SenderGet);
    t := Walk(t, SenderRead(Fails));
    t := Walk(t, SenderFilter);
    assert Passing([q], s.generation) == [q.item];
  }

  /** Events are sent, turned away while analytics is off, and sent once it is on again; a switch edited
      behind the server's back is seen by the first read ten seconds after the last one, and moves the
      generation. */
  lemma OffAndOnAgain() returns (on: State, edited: State, seen: State)
    ensures Runs.Reachable(Init, Next, on) && on.sent == [0, 1, 2]
    ensures Runs.Reachable(Init, Next, edited) && edited.config == on.config && edited.generation == on.generation && !edited.settings.enabled
    ensures Runs.Reachable(Init, Next, seen) && seen.now == 10 && seen.config == Some(Config(false, true, 5)) && seen.generation == on.generation + 1
  {
    var s := TwoEventsSent();
    s := SwitchedOff(s);
    var n := |s.stamps|;
    s := SwitchedOn(s);
    on := OneSent(s, Queued(s.generation, n));
    s := Walk(on, EditSettings(Settings(false, 5)));
    s := Walk(s, Tick(9));
    edited := Walk(s, Read(Loaded(true, 6)));
    s := Walk(edited, Tick(10));
    seen := Walk(s, Read(Loaded(true, 6)));
  }
}
