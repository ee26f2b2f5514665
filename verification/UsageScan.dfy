/** The shared code-env usage scan: one owner per key scans, the others wait on its event, and an
    owner sets its event only if its entry is still the one in the shared map.  An owner that an exception
    outside `Exception` ends sets nothing and leaves its entry running. */
module UsageScan {
  import Runs

  type Key = nat
  datatype Status = Running | Finished(owner: nat) | Failed
  datatype Entry = Entry(status: Status, ts: int, ready: nat)

  datatype Pc =
    | AtEnter
    | Scanning(event: nat)
    | Waiting(event: nat)
    | AtReread(woken: bool)
    | ScanningAlone
    | Done(from: nat)        // the call whose scan produced the result
    | Raised
    | Died                   // ended by an exception the owner does not catch
  datatype Call = Call(key: Key, pc: Pc)

  datatype State = State(
    now: int, ttl: nat, entries: map<Key, Entry>, events: set<nat>, calls: map<nat, Call>, nextEvent: nat,
    // history: who made an event, and whether the map was ever cleared under a running scan or an owner died
    maker: map<nat, nat>, cut: bool)

  datatype Action =
    | Begin(call: nat, key: Key)
    | Enter(call: nat)
    | Finish(call: nat, ok: bool)
    | Die(call: nat)
    | Wake(call: nat)
    | TimeOut(call: nat)
    | Reread(call: nat)
    | FinishAlone(call: nat, ok: bool)
    | Tick(to: int)
    | Clear

  predicate Enabled(s: State, a: Action) {
    match a
    case Begin(c, _) => c !in s.calls
    case Enter(c) => c in s.calls && s.calls[c].pc.AtEnter?
    case Finish(c, _) => c in s.calls && s.calls[c].pc.Scanning?
    case Die(c) => c in s.calls && s.calls[c].pc.Scanning?
    case Wake(c) => c in s.calls && s.calls[c].pc.Waiting? && s.calls[c].pc.event in s.events
    case TimeOut(c) => c in s.calls && s.calls[c].pc.Waiting?
    case Reread(c) => c in s.calls && s.calls[c].pc.AtReread?
    case FinishAlone(c, _) => c in s.calls && s.calls[c].pc.ScanningAlone?
    case Tick(to) => s.now <= to
    case Clear => true
  }

  function Goto(s: State, c: nat, pc: Pc): State
    requires c in s.calls
  {
    s.(calls := s.calls[c := s.calls[c].(pc := pc)])
  }

  function WithoutStale(s: State): map<Key, Entry> {
    map k | k in s.entries && (s.entries[k].status.Running? || s.now - s.entries[k].ts <= s.ttl) :: s.entries[k]
  }

  function Apply(s: State, a: Action): State
    requires Enabled(s, a)
  {
    match a
    case Begin(c, key) => s.(calls := s.calls[c := Call(key, AtEnter)])
    case Enter(c) =>
      var key, kept := s.calls[c].key, WithoutStale(s);
      if key in kept && kept[key].status.Finished? then Goto(s, c, Done(kept[key].status.owner)).(entries := kept)
      else if key in kept && kept[key].status.Running? then Goto(s, c, Waiting(kept[key].ready)).(entries := kept)
      else Goto(s, c, Scanning(s.nextEvent)).(entries := kept[key := Entry(Running, s.now, s.nextEvent)],
                                              maker := s.maker[s.nextEvent := c], nextEvent := s.nextEvent + 1)
    case Finish(c, ok) =>
      var key, e := s.calls[c].key, s.calls[c].pc.event;
      var t := Goto(s, c, if ok then Done(c) else Raised);
      if key in s.entries && s.entries[key].ready == e
      then t.(entries := s.entries[key := Entry(if ok then Finished(c) else Failed, s.now, e)], events := s.events + {e})
      else t
    case Die(c) => Goto(s, c, Died).(cut := true)
    case Wake(c) => Goto(s, c, AtReread(true))
    case TimeOut(c) => Goto(s, c, AtReread(false))
    case Reread(c) =>
      var key := s.calls[c].key;
      if s.calls[c].pc.woken && key in s.entries && s.entries[key].status.Finished?
      then Goto(s, c, Done(s.entries[key].status.owner)) else Goto(s, c, ScanningAlone)
    case FinishAlone(c, ok) => Goto(s, c, if ok then Done(c) else Raised)
    case Tick(to) => s.(now := to)
    case Clear => s.(entries := map[], cut := s.cut || exists k :: k in s.entries && s.entries[k].status.Running?)
  }

  ghost predicate Init(s: State) {
    s.entries == map[] && s.events == {} && s.calls == map[] && s.maker == map[] && !s.cut
  }

  ghost predicate Next(s: State, t: State) {
    exists a :: Enabled(s, a) && t == Apply(s, a)
  }

  // ----- events and entries -----

  // The maker of the event has not died, and the map still shows its scan as running under that event.
  predicate Attached(s: State, e: nat) {
    && e in s.maker && s.maker[e] in s.calls && !s.calls[s.maker[e]].pc.Died? && s.calls[s.maker[e]].key in s.entries
    && s.entries[s.calls[s.maker[e]].key].ready == e && s.entries[s.calls[s.maker[e]].key].status.Running?
  }

  ghost predicate Inv(s: State) {
    && (forall e :: e in s.maker ==> e < s.nextEvent && s.maker[e] in s.calls)
    && (forall c :: c in s.calls && s.calls[c].pc.Scanning? ==> s.calls[c].pc.event in s.maker && s.maker[s.calls[c].pc.event] == c)
    && (forall c :: c in s.calls && s.calls[c].pc.Waiting? ==> s.calls[c].pc.event in s.maker)
    && (forall k :: k in s.entries ==> EntryOk(s, k))
    && (!s.cut ==> forall e :: e in s.maker ==> e in s.events || Attached(s, e))
    && s.events <= s.maker.Keys
  }

  // An entry belongs to the maker of its event; running, that maker is scanning or died, and has not set it.
  predicate EntryOk(s: State, k: Key) {
    k in s.entries &&
    var en := s.entries[k];
    && en.ready in s.maker && s.maker[en.ready] in s.calls && s.calls[s.maker[en.ready]].key == k
    && (en.status.Running? ==> (s.calls[s.maker[en.ready]].pc == Scanning(en.ready) || s.calls[s.maker[en.ready]].pc.Died?) && en.ready !in s.events)
    && (!en.status.Running? ==> en.ready in s.events && !s.calls[s.maker[en.ready]].pc.Scanning?)
  }

  // Call c moved between places without an event of its own; entries at most lost stale ones.
  ghost predicate Quiet(s: State, t: State, c: nat) {
    && t.maker == s.maker && t.nextEvent == s.nextEvent && t.events == s.events && t.cut == s.cut
    && (t.entries == s.entries || t.entries == WithoutStale(s))
    && c in t.calls && t.calls == s.calls[c := t.calls[c]]
    && (c in s.calls ==> t.calls[c].key == s.calls[c].key && !s.calls[c].pc.Scanning? && !s.calls[c].pc.Died?)
    && !t.calls[c].pc.Scanning? && (t.calls[c].pc.Waiting? ==> t.calls[c].pc.event in s.maker)
  }

  lemma QuietKeeps(s: State, t: State, c: nat)
    requires Inv(s) && Quiet(s, t, c)
    ensures Inv(t)
  {
    forall k | k in t.entries ensures EntryOk(t, k) { assert EntryOk(s, k); }
    forall e | e in t.maker && e !in t.events && !t.cut ensures Attached(t, e) { assert Attached(s, e); }
  }

  lemma CallStepsAreQuiet(s: State, a: Action)
    requires Inv(s) && Enabled(s, a) && (a.Begin? || a.Enter? || a.Wake? || a.TimeOut? || a.Reread? || a.FinishAlone?)
    ensures (a.Enter? && Apply(s, a).calls[a.call].pc.Scanning?) || Quiet(s, Apply(s, a), a.call)
  {
    if a.Enter? && s.calls[a.call].key in s.entries { assert EntryOk(s, s.calls[a.call].key); }
  }

  lemma OwnerStarts(s: State, c: nat)
    requires Inv(s) && Enabled(s, Enter(c)) && Apply(s, Enter(c)).calls[c].pc.Scanning?
    ensures Inv(Apply(s, Enter(c)))
  {
    ScanStarts(s, Apply(s, Enter(c)), c, s.calls[c].key, s.nextEvent);
  }

  // Call c shows a new event n in the map, where its key had no running scan.
  lemma ScanStarts(s: State, t: State, c: nat, key: Key, n: nat)
    requires Inv(s) && c in s.calls && s.calls[c] == Call(key, AtEnter) && n == s.nextEvent && t.nextEvent == n + 1
    requires t.calls == s.calls[c := Call(key, Scanning(n))] && t.maker == s.maker[n := c] && t.events == s.events && t.cut == s.cut
    requires t.entries == WithoutStale(s)[key := Entry(Running, s.now, n)]
    requires key in s.entries ==> !s.entries[key].status.Running?
    ensures Inv(t)
  {
    assert n !in s.maker;
    forall k | k in t.entries ensures EntryOk(t, k) { if k != key { assert EntryOk(s, k); } }
    forall e | e in t.maker && e !in t.events && !t.cut ensures Attached(t, e) {
      if e != n {
        assert Attached(s, e);
        assert EntryOk(s, s.calls[s.maker[e]].key);
      }
    }
  }

  // The owner of a cleared entry finishes without touching the map.
  lemma DetachedFinishKeeps(s: State, c: nat, ok: bool)
    requires Inv(s) && Enabled(s, Finish(c, ok)) && !Attached(s, s.calls[c].pc.event)
    ensures Inv(Apply(s, Finish(c, ok)))
  {
    var t, key, n := Apply(s, Finish(c, ok)), s.calls[c].key, s.calls[c].pc.event;
    assert key in s.entries ==> EntryOk(s, key);
    assert t.calls == s.calls[c := t.calls[c]] && t.calls[c].key == key && t.entries == s.entries && t.events == s.events;
    forall k | k in t.entries ensures EntryOk(t, k) { assert EntryOk(s, k); }
    forall e | e in t.maker && e !in t.events && !t.cut ensures Attached(t, e) { assert Attached(s, e); }
  }

  lemma AttachedFinishKeeps(s: State, c: nat, ok: bool)
    requires Inv(s) && Enabled(s, Finish(c, ok)) && Attached(s, s.calls[c].pc.event)
    ensures Inv(Apply(s, Finish(c, ok)))
  {
    FinishSets(s, Apply(s, Finish(c, ok)), c, if ok then Done(c) else Raised, if ok then Finished(c) else Failed);
  }

  // The owner of a shown entry records its outcome and sets its event.
  lemma FinishSets(s: State, t: State, c: nat, pc: Pc, status: Status)
    requires Inv(s) && c in s.calls && s.calls[c].pc.Scanning? && Attached(s, s.calls[c].pc.event)
    requires (pc.Done? || pc.Raised?) && !status.Running?
    requires t == Goto(s, c, pc).(entries := s.entries[s.calls[c].key := Entry(status, s.now, s.calls[c].pc.event)],
                                  events := s.events + {s.calls[c].pc.event})
    ensures Inv(t)
  {
    forall k | k in t.entries ensures EntryOk(t, k) { assert EntryOk(s, k); }
    forall e | e in t.maker && e !in t.events && !t.cut ensures Attached(t, e) { assert Attached(s, e); }
  }

  lemma DeathKeeps(s: State, c: nat)
    requires Inv(s) && Enabled(s, Die(c))
    ensures Inv(Apply(s, Die(c)))
  {
    var t := Apply(s, Die(c));
    forall k | k in t.entries ensures EntryOk(t, k) { assert EntryOk(s, k); }
  }

  lemma OutsideKeeps(s: State, a: Action)
    requires Inv(s) && (a.Clear? || (a.Tick? && Enabled(s, a)))
    ensures Inv(Apply(s, a))
  {
    var t := Apply(s, a);
    forall k | k in t.entries ensures EntryOk(t, k) { assert EntryOk(s, k); }
    forall e | e in t.maker && e !in t.events && !t.cut ensures Attached(t, e) { assert Attached(s, e); }
  }

  lemma InvKept(s: State, a: Action)
    requires Inv(s) && Enabled(s, a)
    ensures Inv(Apply(s, a))
  {
    if a.Clear? || a.Tick? {
      OutsideKeeps(s, a);
    } else if a.Die? {
      DeathKeeps(s, a.call);
    } else if a.Finish? {
      if Attached(s, s.calls[a.call].pc.event) { AttachedFinishKeeps(s, a.call, a.ok); } else { DetachedFinishKeeps(s, a.call, a.ok); }
    } else {
      CallStepsAreQuiet(s, a);
      if Quiet(s, Apply(s, a), a.call) { QuietKeeps(s, Apply(s, a), a.call); } else { OwnerStarts(s, a.call); }
    }
  }

  lemma InvInductive()
    ensures Runs.Inductive(Init, Next, Inv)
  {
    forall s, t | Inv(s) && Next(s, t) ensures Inv(t) {
      var a :| Enabled(s, a) && t == Apply(s, a);
      InvKept(s, a);
    }
  }

  // ----- exactly when a waiter is woken -----

  /** An event still shown in the map is one step from being set: its owner is scanning, and
      finishing, with a result or an error, sets it. */
  lemma AttachedWillBeSet(s: State, e: nat, ok: bool)
    requires Runs.Reachable(Init, Next, s) && Attached(s, e)
    ensures Enabled(s, Finish(s.maker[e], ok)) && e in Apply(s, Finish(s.maker[e], ok)).events
  {
    InvInductive();
    Runs.HoldsOnReachable(Init, Next, Inv);
    assert EntryOk(s, s.calls[s.maker[e]].key);
  }

  // The event exists, is not set and is no longer shown.
  ghost predicate Lost(s: State, e: nat) {
    Inv(s) && e in s.maker && e !in s.events && !Attached(s, e)
  }

  lemma LostStaysLost(s: State, a: Action, e: nat)
    requires Lost(s, e) && Enabled(s, a)
    ensures Lost(Apply(s, a), e)
  {
    InvKept(s, a);
    assert e < s.nextEvent;
    LostNotShown(s, a, e);
  }

  lemma LostNotShown(s: State, a: Action, e: nat)
    requires Lost(s, e) && Enabled(s, a) && e < s.nextEvent
    ensures var t := Apply(s, a); e in t.maker && e !in t.events && !Attached(t, e)
  {
    if a.Finish? { FinishNotShown(s, a.call, a.ok, e); } else if a.Enter? { EnterNotShown(s, a.call, e); }
  }

  lemma FinishNotShown(s: State, c: nat, ok: bool, e: nat)
    requires Lost(s, e) && Enabled(s, Finish(c, ok))
    ensures var t := Apply(s, Finish(c, ok)); e in t.maker && e !in t.events && !Attached(t, e)
  {
    if s.calls[c].key in s.entries { assert EntryOk(s, s.calls[c].key); }
  }

  lemma EnterNotShown(s: State, c: nat, e: nat)
    requires Lost(s, e) && Enabled(s, Enter(c)) && e < s.nextEvent
    ensures var t := Apply(s, Enter(c)); e in t.maker && e !in t.events && !Attached(t, e)
  {
  }

  /** A wake-up is lost for good: once the map no longer shows an unset event, no continuation of
      the run ever sets it, so a waiter without a deadline waits forever. */
  lemma {:induction false} LostForever(s: State, e: nat, run: seq<State>, i: nat)
    requires Runs.Reachable(Init, Next, s) && e in s.maker && e !in s.events && !Attached(s, e)
    requires Runs.Path(Next, run) && run[0] == s && i < |run|
    ensures e !in run[i].events
  {
    InvInductive();
    Runs.HoldsOnReachable(Init, Next, Inv);
    LostAlong(e, run, i);
  }

  lemma {:induction false} LostAlong(e: nat, run: seq<State>, i: nat)
    requires Runs.Path(Next, run) && i < |run| && Lost(run[0], e)
    ensures Lost(run[i], e)
  {
    if i > 0 {
      LostAlong(e, run, i - 1);
      assert Runs.StepAt(Next, run, i);
      var a :| Enabled(run[i - 1], a) && run[i] == Apply(run[i - 1], a);
      LostStaysLost(run[i - 1], a, e);
    }
  }

  /** Only clearing the shared map, or an owner's death, loses a wake-up: any other step leaves a shown
      event shown or sets it. */
  lemma OnlyClearLoses(s: State, a: Action, e: nat)
    requires Runs.Reachable(Init, Next, s) && Attached(s, e) && Enabled(s, a) && !a.Clear? && a != Die(s.maker[e])
    ensures Attached(Apply(s, a), e) || e in Apply(s, a).events
  {
    InvInductive();
    Runs.HoldsOnReachable(Init, Next, Inv);
    assert EntryOk(s, s.calls[s.maker[e]].key) && e < s.nextEvent;
    ShownStaysOrIsSet(s, a, e, s.calls[s.maker[e]].key);
  }

  lemma ShownStaysOrIsSet(s: State, a: Action, e: nat, k: Key)
    requires Attached(s, e) && k == s.calls[s.maker[e]].key && EntryOk(s, k) && e < s.nextEvent && Enabled(s, a) && !a.Clear? && a != Die(s.maker[e])
    requires forall c :: c in s.calls && s.calls[c].pc.Scanning? ==> s.calls[c].pc.event in s.maker && s.maker[s.calls[c].pc.event] == c
    ensures Attached(Apply(s, a), e) || e in Apply(s, a).events
  {
    if a.Enter? && s.calls[a.call].key != k { assert k in WithoutStale(s); }
  }

  /** On a run that never clears under a running scan and in which no owner dies, every waiter's event is
      set or one step of its owner from being set. */
  lemma WaitersAreWoken(s: State, c: nat)
    requires Runs.Reachable(Init, Next, s) && !s.cut
    requires c in s.calls && s.calls[c].pc.Waiting?
    ensures s.calls[c].pc.event in s.events || Attached(s, s.calls[c].pc.event)
  {
    InvInductive();
    Runs.HoldsOnReachable(Init, Next, Inv);
  }

  /** One scan per key is ever shown as running, and unless its owner died it is scanning under the shown
      event. */
  lemma OneShownScan(s: State, k: Key)
    requires Runs.Reachable(Init, Next, s) && k in s.entries && s.entries[k].status.Running?
    ensures s.entries[k].ready in s.maker
    ensures forall c :: c in s.calls ==>
      (s.calls[c] == Call(k, Scanning(s.entries[k].ready)) <==> c == s.maker[s.entries[k].ready] && !s.calls[c].pc.Died?)
  {
    InvInductive();
    Runs.HoldsOnReachable(Init, Next, Inv);
    assert EntryOk(s, k);
  }

  lemma Walk(s: State, a: Action)
    requires Runs.Reachable(Init, Next, s) && Enabled(s, a)
    ensures Runs.Reachable(Init, Next, Apply(s, a))
  {
    assert Next(s, Apply(s, a));
    Runs.ReachableStep(Init, Next, s, Apply(s, a));
  }

  /** An owner's death strands its waiters, although the map goes on showing its scan as running. */
  lemma DeathStrandsWaiter() returns (s: State)
    ensures Runs.Reachable(Init, Next, s)
    ensures 1 in s.calls && s.calls[1].pc == Waiting(0) && 0 in s.maker && 0 !in s.events && !Attached(s, 0)
    ensures 0 in s.entries && s.entries[0].status.Running?
  {
    s := OwnerAndWaiter();
    Walk(s, Die(0)); s := Apply(s, Die(0));
  }

  // Call 0 scans for key 0 under event 0 while call 1 waits for it.
  lemma OwnerAndWaiter() returns (s: State)
    ensures Runs.Reachable(Init, Next, s)
    ensures s == State(0, 5, map[0 := Entry(Running, 0, 0)], {}, map[0 := Call(0, Scanning(0)), 1 := Call(0, Waiting(0))], 1,
                       map[0 := 0], false)
  {
    s := State(0, 5, map[], {}, map[], 0, map[], false);
    Runs.ReachableInit(Init, Next, s);
    Walk(s, Begin(0, 0)); s := Apply(s, Begin(0, 0));
    Walk(s, Enter(0)); s := Apply(s, Enter(0));
    Walk(s, Begin(1, 0)); s := Apply(s, Begin(1, 0));
    Walk(s, Enter(1)); s := Apply(s, Enter(1));
  }

  /** And clearing does lose one: the owner has finished, its waiter still waits, its event is unset. */
  lemma ClearStrandsWaiter() returns (s: State)
    ensures Runs.Reachable(Init, Next, s)
    ensures 0 in s.calls && s.calls[0].pc == Done(0)
    ensures 1 in s.calls && s.calls[1].pc == Waiting(0) && 0 in s.maker && 0 !in s.events && !Attached(s, 0)
  {
    s := OwnerAndWaiter();
    Walk(s, Clear); s := Apply(s, Clear);
    Walk(s, Finish(0, true)); s := Apply(s, Finish(0, true));
  }

  // ----- what callers are given -----

  ghost predicate Step(s: State, a: Action, t: State) { Enabled(s, a) && t == Apply(s, a) }

  lemma TraceInv(run: seq<State>, acts: seq<Action>, j: nat)
    requires Runs.Trace(Init, Step, run, acts) && j < |run|
    ensures Inv(run[j])
  {
    Runs.TraceIsRun(Init, Next, Step, run, acts);
    InvInductive();
    Runs.HoldsOnRuns(Init, Next, Inv, run, j);
  }

  // The map shows the result of call c for key k, recorded at the given time.
  predicate ShowsResult(s: State, k: Key, c: nat, at: int) {
    k in s.entries && s.entries[k].status == Finished(c) && s.entries[k].ts == at
  }

  lemma ResultStays(s: State, a: Action, t: State, k: Key, c: nat, at: int)
    requires Inv(s) && Step(s, a, t) && ShowsResult(s, k, c, at) && !a.Clear? && t.now - at <= t.ttl
    ensures ShowsResult(t, k, c, at)
  {
    assert EntryOk(s, k);
  }

  lemma ClockRuns(s: State, a: Action, t: State)
    requires Step(s, a, t)
    ensures s.now <= t.now && t.ttl == s.ttl
  {
  }

  // Step i is the end of the scan the map shows for key k, with a result.
  predicate ResultAt(run: seq<State>, acts: seq<Action>, i: int, k: Key, c: nat) {
    && 0 < i < |run| && |acts| == |run| && acts[i] == Finish(c, true)
    && c in run[i - 1].calls && run[i - 1].calls[c].key == k && run[i - 1].calls[c].pc.Scanning?
    && Attached(run[i - 1], run[i - 1].calls[c].pc.event)
  }

  lemma {:induction false} ResultShown(run: seq<State>, acts: seq<Action>, i: nat, j: nat, k: Key, c: nat)
    requires Runs.Trace(Init, Step, run, acts) && ResultAt(run, acts, i, k, c) && i <= j < |run|
    requires run[j].now - run[i].now <= run[j].ttl && forall m :: i < m <= j ==> !acts[m].Clear?
    ensures ShowsResult(run[j], k, c, run[i].now)
  {
    assert Runs.ActAt(Step, run, acts, j);
    TraceInv(run, acts, j - 1);
    if i < j {
      ClockRuns(run[j - 1], acts[j], run[j]);
      ResultShown(run, acts, i, j - 1, k, c);
      ResultStays(run[j - 1], acts[j], run[j], k, c, run[i].now);
    }
  }

  /** A result is served for as long as it lives: from the end of a shown scan of the key until the TTL is
      over or the map is cleared, every call that enters for the key, and every waiter that is woken, is
      done at once with that scan's result, and nobody scans again. */
  lemma ResultIsServed(run: seq<State>, acts: seq<Action>, i: nat, j: nat, k: Key, c: nat, d: nat, a: Action)
    requires Runs.Trace(Init, Step, run, acts) && ResultAt(run, acts, i, k, c) && i <= j < |run|
    requires run[j].now - run[i].now <= run[j].ttl && forall m :: i < m <= j ==> !acts[m].Clear?
    requires Enabled(run[j], a) && (a == Enter(d) || a == Reread(d)) && run[j].calls[d].key == k
    requires a.Reread? ==> run[j].calls[d].pc.woken
    ensures Apply(run[j], a).calls[d].pc == Done(c)
  {
    ResultShown(run, acts, i, j, k, c);
  }

  /** A call that enters drops the other keys' finished and failed entries that are older than the TTL, and
      leaves all others as they are. */
  lemma EnterDropsStale(s: State, c: nat, t: State, k: Key)
    requires Step(s, Enter(c), t) && k != s.calls[c].key
    ensures k in t.entries <==> k in s.entries && (s.entries[k].status.Running? || s.now - s.entries[k].ts <= s.ttl)
    ensures k in t.entries ==> t.entries[k] == s.entries[k]
  {
  }

  // Call c ended with a result of its own, or without one.
  ghost predicate Ended(acts: seq<Action>, j: int, c: nat, ok: bool) {
    Runs.Taken(acts, j, Finish(c, ok)) || Runs.Taken(acts, j, FinishAlone(c, ok))
  }

  lemma EndedNext(acts: seq<Action>, j: int, c: nat, ok: bool)
    requires 0 < j < |acts|
    ensures Ended(acts, j, c, ok) <==> Ended(acts, j - 1, c, ok) || acts[j] == Finish(c, ok) || acts[j] == FinishAlone(c, ok)
  {
    Runs.TakenNext(acts, j, Finish(c, ok));
    Runs.TakenNext(acts, j, FinishAlone(c, ok));
  }

  // A call raised exactly if its own scan failed, and has a result of its own exactly if that succeeded.
  predicate OwnOutcome(s: State, c: nat, ok: bool, failed: bool) {
    if c in s.calls then (s.calls[c].pc.Raised? <==> failed) && (s.calls[c].pc == Done(c) <==> ok) else !ok && !failed
  }

  // A result belongs to a call for the same key that has it as its own.
  predicate Owned(s: State, k: Key, c: nat) { c in s.calls && s.calls[c].key == k && s.calls[c].pc == Done(c) }

  predicate ResultsOwned(s: State) {
    && (forall k :: k in s.entries && s.entries[k].status.Finished? ==> Owned(s, k, s.entries[k].status.owner))
    && (forall d :: d in s.calls && s.calls[d].pc.Done? ==> Owned(s, s.calls[d].key, s.calls[d].pc.from))
  }

  // A result once had is kept.
  lemma OwnedStays(s: State, a: Action, t: State, k: Key, c: nat)
    requires Step(s, a, t) && Owned(s, k, c)
    ensures Owned(t, k, c)
  {
    match a
    case Enter(_) =>
    case Reread(_) =>
    case Finish(_, _) =>
    case _ =>
  }

  // Every result a step shows or gives was there before, or is the one its call has just found.
  ghost predicate FromBefore(s: State, t: State, k: Key, c: nat) {
    Owned(t, k, c) || Owned(s, k, c)
  }

  lemma ResultsFromBefore(s: State, a: Action, t: State)
    requires ResultsOwned(s) && Step(s, a, t)
    ensures forall k :: k in t.entries && t.entries[k].status.Finished? ==> FromBefore(s, t, k, t.entries[k].status.owner)
    ensures forall d :: d in t.calls && t.calls[d].pc.Done? ==> FromBefore(s, t, t.calls[d].key, t.calls[d].pc.from)
  {
    match a
    case Enter(_) =>
    case Reread(_) =>
    case Finish(_, _) =>
    case _ =>
  }

  lemma ResultsOwnedKept(s: State, a: Action, t: State)
    requires ResultsOwned(s) && Step(s, a, t)
    ensures ResultsOwned(t)
  {
    ResultsFromBefore(s, a, t);
    forall k, c | Owned(s, k, c) ensures Owned(t, k, c) { OwnedStays(s, a, t, k, c); }
  }

  lemma ResultsOwnedInductive()
    ensures Runs.Inductive(Init, Next, ResultsOwned)
  {
    forall s, t | ResultsOwned(s) && Next(s, t) ensures ResultsOwned(t) {
      var a :| Enabled(s, a) && t == Apply(s, a);
      ResultsOwnedKept(s, a, t);
    }
  }

  lemma OutcomeStep(s: State, a: Action, t: State, c: nat, ok: bool, failed: bool)
    requires ResultsOwned(s) && Step(s, a, t) && OwnOutcome(s, c, ok, failed)
    ensures OwnOutcome(t, c, ok || a == Finish(c, true) || a == FinishAlone(c, true), failed || a == Finish(c, false) || a == FinishAlone(c, false))
  {
    match a
    case Enter(_) =>
    case Reread(_) =>
    case Finish(_, _) =>
    case FinishAlone(_, _) =>
    case _ =>
  }

  lemma {:induction false} OutcomeKnown(run: seq<State>, acts: seq<Action>, j: nat, c: nat)
    requires Runs.Trace(Init, Step, run, acts) && j < |run|
    ensures OwnOutcome(run[j], c, Ended(acts, j, c, true), Ended(acts, j, c, false))
  {
    if j > 0 {
      OutcomeKnown(run, acts, j - 1, c);
      assert Runs.ActAt(Step, run, acts, j);
      Runs.TraceIsRun(Init, Next, Step, run, acts);
      ResultsOwnedInductive();
      Runs.HoldsOnRuns(Init, Next, ResultsOwned, run, j - 1);
      EndedNext(acts, j, c, true);
      EndedNext(acts, j, c, false);
      OutcomeStep(run[j - 1], acts[j], run[j], c, Ended(acts, j - 1, c, true), Ended(acts, j - 1, c, false));
    }
  }

  /** What a finished call has: the result of a scan for its own key that did succeed, its own or another
      call's; a call raises exactly if its own scan failed. */
  lemma ResultsAreReal(run: seq<State>, acts: seq<Action>, j: nat, d: nat)
    requires Runs.Trace(Init, Step, run, acts) && j < |run| && d in run[j].calls
    ensures run[j].calls[d].pc.Raised? <==> Ended(acts, j, d, false)
    ensures run[j].calls[d].pc == Done(d) <==> Ended(acts, j, d, true)
    ensures run[j].calls[d].pc.Done? ==>
      var c := run[j].calls[d].pc.from; c in run[j].calls && run[j].calls[c].key == run[j].calls[d].key && Ended(acts, j, c, true)
  {
    OutcomeKnown(run, acts, j, d);
    if run[j].calls[d].pc.Done? {
      Runs.TraceIsRun(Init, Next, Step, run, acts);
      ResultsOwnedInductive();
      Runs.HoldsOnRuns(Init, Next, ResultsOwned, run, j);
      OutcomeKnown(run, acts, j, run[j].calls[d].pc.from);
    }
  }

  /** The TTL at work: with a TTL of 5 the result of time 0 goes to the waiter and to a call that comes at
      time 5, and a call that comes at time 6 scans again. */
  lemma ServedUntilStale() returns (served: State, again: State)
    ensures Runs.Reachable(Init, Next, served) && served.now == 5 && 1 in served.calls && 2 in served.calls
    ensures served.calls[1].pc == Done(0) && served.calls[2].pc == Done(0)
    ensures Runs.Reachable(Init, Next, again) && again.now == 6 && 3 in again.calls && again.calls[3].pc.Scanning?
  {
    var s := OwnerAndWaiter();
    Walk(s, Finish(0, true)); s := Apply(s, Finish(0, true));
    Walk(s, Wake(1)); s := Apply(s, Wake(1));
    Walk(s, Reread(1)); s := Apply(s, Reread(1));
    Walk(s, Tick(5)); s := Apply(s, Tick(5));
    Walk(s, Begin(2, 0)); s := Apply(s, Begin(2, 0));
    Walk(s, Enter(2)); served := Apply(s, Enter(2));
    again := ScansAgain(served);
  }

  lemma ScansAgain(s: State) returns (t: State)
    requires Runs.Reachable(Init, Next, s) && s.now == 5 && s.ttl == 5 && 3 !in s.calls
    requires 0 in s.entries && s.entries[0].status.Finished? && s.entries[0].ts == 0
    ensures Runs.Reachable(Init, Next, t) && t.now == 6 && 3 in t.calls && t.calls[3].pc.Scanning?
  {
    Walk(s, Tick(6)); t := Apply(s, Tick(6));
    Walk(t, Begin(3, 0)); t := Apply(t, Begin(3, 0));
    Walk(t, Enter(3)); t := Apply(t, Enter(3));
  }
}
