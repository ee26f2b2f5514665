/** The SDK result cache: an L1 dictionary with per-key time stamps, and an in-flight table that
    lets one caller fetch while the others wait on its event. */
module SdkCache {
  import opened Wrappers
  import Runs

  datatype Key = Key(instance: string, name: string)
  // A fetched value is known by the call that fetched it; set_many supplies values of its own.
  datatype Value = FetchedBy(call: nat, key: Key) | Given(id: nat)
  datatype Entry = Entry(at: int, value: Value)
  datatype Store = Store(key: Key, at: int, value: Value)
  datatype Return = Return(call: nat, key: Key, ttl: int, value: Value, at: int)

  datatype Pc =
    | AtLookup
    | AtFlight
    | Fetching(event: nat)                          // the owner, inside fetch_fn
    | Storing(event: nat, value: Value)
    | Popping(event: nat, outcome: Option<Value>)   // finally: about to leave the in-flight table
    | Setting(event: nat, outcome: Option<Value>)   // about to set the event
    | Waiting(event: nat)
    | AtReread
    | AtFallback
    | Done
  datatype Call = Call(key: Key, ttl: int, pc: Pc)

  datatype State = State(
    now: int, mem: map<Key, Entry>, inFlight: map<Key, nat>, events: set<nat>,
    calls: map<nat, Call>, nextEvent: nat,
    // history: who created an event, what was ever stored, what was ever returned
    owner: map<nat, nat>, stores: set<Store>, answers: set<Return>)

  datatype Action =
    | Begin(call: nat, key: Key, ttl: int)
    | Lookup(call: nat)
    | Join(call: nat)
    | Fetch(call: nat, ok: bool)
    | DoStore(call: nat)
    | Pop(call: nat)
    | SetEvent(call: nat)
    | Wake(call: nat)          // the event is set, or the wait timed out
    | Reread(call: nat)
    | Fallback(call: nat, ok: bool)
    | Tick(to: int)
    | SetMany(items: map<Key, Value>)
    | Drop(keys: set<Key>)     // invalidate_all, or get_mem evicting an expired entry

  predicate Fresh(s: State, key: Key, ttl: int) {
    key in s.mem && s.now - s.mem[key].at < ttl
  }

  predicate Enabled(s: State, a: Action) {
    match a
    case Begin(c, _, _) => c !in s.calls
    case Lookup(c) => c in s.calls && s.calls[c].pc.AtLookup?
    case Join(c) => c in s.calls && s.calls[c].pc.AtFlight?
    case Fetch(c, _) => c in s.calls && s.calls[c].pc.Fetching?
    case DoStore(c) => c in s.calls && s.calls[c].pc.Storing?
    case Pop(c) => c in s.calls && s.calls[c].pc.Popping?
    case SetEvent(c) => c in s.calls && s.calls[c].pc.Setting?
    case Wake(c) => c in s.calls && s.calls[c].pc.Waiting?
    case Reread(c) => c in s.calls && s.calls[c].pc.AtReread?
    case Fallback(c, _) => c in s.calls && s.calls[c].pc.AtFallback?
    case Tick(to) => s.now <= to
    case SetMany(items) => forall k :: k in items ==> items[k].Given?
    case Drop(_) => true
  }

  function Goto(s: State, c: nat, pc: Pc): State
    requires c in s.calls
  {
    s.(calls := s.calls[c := s.calls[c].(pc := pc)])
  }

  function Answer(s: State, c: nat, value: Value): State
    requires c in s.calls
  {
    Goto(s, c, Done).(answers := s.answers + {Return(c, s.calls[c].key, s.calls[c].ttl, value, s.now)})
  }

  function Apply(s: State, a: Action): State
    requires Enabled(s, a)
  {
    match a
    case Begin(c, key, ttl) => s.(calls := s.calls[c := Call(key, ttl, AtLookup)])
    case Lookup(c) =>
      var call := s.calls[c];
      if Fresh(s, call.key, call.ttl) then Answer(s, c, s.mem[call.key].value) else Goto(s, c, AtFlight)
    case Join(c) =>
      var key := s.calls[c].key;
      if key in s.inFlight then Goto(s, c, Waiting(s.inFlight[key]))
      else Goto(s, c, Fetching(s.nextEvent)).(inFlight := s.inFlight[key := s.nextEvent],
                                              owner := s.owner[s.nextEvent := c], nextEvent := s.nextEvent + 1)
    case Fetch(c, ok) =>
      var call := s.calls[c];
      Goto(s, c, if ok then Storing(call.pc.event, FetchedBy(c, call.key)) else Popping(call.pc.event, None))
    case DoStore(c) =>
      var call := s.calls[c];
      Goto(s, c, Popping(call.pc.event, Some(call.pc.value))).(
        mem := s.mem[call.key := Entry(s.now, call.pc.value)],
        stores := s.stores + {Store(call.key, s.now, call.pc.value)})
    case Pop(c) =>
      var call := s.calls[c];
      Goto(s, c, Setting(call.pc.event, call.pc.outcome)).(inFlight := s.inFlight - {call.key})
    case SetEvent(c) =>
      var pc := s.calls[c].pc;
      (if pc.outcome.Some? then Answer(s, c, pc.outcome.value) else Goto(s, c, Done)).(events := s.events + {pc.event})
    case Wake(c) => Goto(s, c, AtReread)
    case Reread(c) =>
      var call := s.calls[c];
      if Fresh(s, call.key, call.ttl) then Answer(s, c, s.mem[call.key].value) else Goto(s, c, AtFallback)
    case Fallback(c, ok) =>
      if ok then Answer(s, c, FetchedBy(c, s.calls[c].key)) else Goto(s, c, Done)
    case Tick(to) => s.(now := to)
    case SetMany(items) =>
      s.(mem := s.mem + (map k | k in items :: Entry(s.now, items[k])),
         stores := s.stores + set k | k in items :: Store(k, s.now, items[k]))
    case Drop(keys) => s.(mem := s.mem - keys)
  }

  ghost predicate Init(s: State) {
    && s.mem == map[] && s.inFlight == map[] && s.events == {} && s.calls == map[]
    && s.owner == map[] && s.stores == {} && s.answers == {}
  }

  ghost predicate Next(s: State, t: State) {
    exists a :: Enabled(s, a) && t == Apply(s, a)
  }

  // ----- owners, waiters and events -----

  predicate InTable(pc: Pc) { pc.Fetching? || pc.Storing? || pc.Popping? }
  predicate Live(pc: Pc) { InTable(pc) || pc.Setting? }

  predicate Holds(s: State, c: nat, k: Key, e: nat) {
    c in s.calls && InTable(s.calls[c].pc) && s.calls[c].key == k && s.calls[c].pc.event == e
  }

  // The in-flight table holds exactly the events of the owners that have not yet left it, and
  // every event belongs to the one call that made it.
  ghost predicate Ownership(s: State) {
    && (forall c :: c in s.calls && Live(s.calls[c].pc) ==>
          s.calls[c].pc.event in s.owner && s.owner[s.calls[c].pc.event] == c)
    && (forall c :: c in s.calls && InTable(s.calls[c].pc) ==>
          s.calls[c].key in s.inFlight && s.inFlight[s.calls[c].key] == s.calls[c].pc.event)
    && (forall k :: k in s.inFlight ==> s.inFlight[k] in s.owner && Holds(s, s.owner[s.inFlight[k]], k, s.inFlight[k]))
    && (forall e :: e in s.owner ==> e < s.nextEvent)
  }

  // Whoever made an event either still holds it or has set it.
  ghost predicate Promised(s: State, e: nat) {
    e in s.owner && (e in s.events ||
      (s.owner[e] in s.calls && Live(s.calls[s.owner[e]].pc) && s.calls[s.owner[e]].pc.event == e))
  }

  ghost predicate Promises(s: State) {
    && (forall e :: e in s.owner ==> Promised(s, e))
    && (forall c :: c in s.calls && s.calls[c].pc.Waiting? ==> s.calls[c].pc.event in s.owner)
  }

  // ----- values -----

  ghost predicate Entries(s: State) {
    forall k :: k in s.mem ==> s.mem[k].at <= s.now && Store(k, s.mem[k].at, s.mem[k].value) in s.stores
  }

  // A call that holds a value fetched it itself, for its own key.
  predicate OwnValue(c: nat, call: Call) {
    match call.pc
    case Storing(_, value) => value == FetchedBy(c, call.key)
    case Popping(_, Some(value)) => value == FetchedBy(c, call.key)
    case Setting(_, Some(value)) => value == FetchedBy(c, call.key)
    case _ => true
  }

  ghost predicate Carried(s: State) {
    forall c :: c in s.calls ==> OwnValue(c, s.calls[c])
  }

  ghost predicate StoresKeyed(s: State) {
    forall st :: st in s.stores ==> st.value.Given? || st.value.key == st.key
  }

  // Stored under this key less than the caller's TTL before it was read, or fetched by this call.
  ghost predicate Justified(s: State, r: Return) {
    || r.value == FetchedBy(r.call, r.key)
    || exists at :: 0 <= r.at - at < r.ttl && Store(r.key, at, r.value) in s.stores
  }

  ghost predicate Returns(s: State) {
    forall r :: r in s.answers ==> Justified(s, r)
  }

  ghost predicate Inv(s: State) {
    Ownership(s) && Promises(s) && Entries(s) && Carried(s) && StoresKeyed(s) && Returns(s)
  }

  predicate SameHold(p: Pc, q: Pc) {
    InTable(p) == InTable(q) && Live(p) == Live(q) && (Live(p) ==> p.event == q.event)
  }

  // t differs from s in no ownership: calls keep their keys and what they hold, new calls hold nothing.
  ghost predicate SameHolders(s: State, t: State) {
    && t.inFlight == s.inFlight && t.owner == s.owner && t.nextEvent == s.nextEvent && s.events <= t.events
    && (forall c :: c in s.calls ==> c in t.calls && t.calls[c].key == s.calls[c].key && SameHold(s.calls[c].pc, t.calls[c].pc))
    && (forall c :: c in t.calls && c !in s.calls ==> !Live(t.calls[c].pc) && !t.calls[c].pc.Waiting?)
    && (forall c :: c in t.calls && t.calls[c].pc.Waiting? ==> c in s.calls && s.calls[c].pc == t.calls[c].pc)
  }

  lemma HoldersFrame(s: State, t: State)
    requires Ownership(s) && Promises(s) && SameHolders(s, t)
    ensures Ownership(t) && Promises(t)
  {
    forall k | k in t.inFlight ensures t.inFlight[k] in t.owner && Holds(t, t.owner[t.inFlight[k]], k, t.inFlight[k]) {
      assert Holds(s, s.owner[s.inFlight[k]], k, s.inFlight[k]);
    }
    forall e | e in t.owner ensures Promised(t, e) {
      assert Promised(s, e);
    }
  }

  // Call c moved on to pc, and nothing about ownership changed.
  predicate Moved(s: State, t: State, c: nat, pc: Pc) {
    && c in s.calls && t.calls == s.calls[c := s.calls[c].(pc := pc)] && SameHold(s.calls[c].pc, pc) && !pc.Waiting?
    && t.inFlight == s.inFlight && t.owner == s.owner && t.nextEvent == s.nextEvent && s.events <= t.events
  }

  lemma MovedKeepsHolders(s: State, t: State, c: nat, pc: Pc)
    requires Moved(s, t, c, pc)
    ensures SameHolders(s, t)
  {
  }

  // Steps of a call that neither join, leave the table nor set an event.
  lemma CallStepsKeepHolders(s: State, a: Action)
    requires Enabled(s, a) && (a.Lookup? || a.Fetch? || a.DoStore? || a.Wake? || a.Reread? || a.Fallback?)
    ensures SameHolders(s, Apply(s, a))
  {
    var t := Apply(s, a);
    assert Moved(s, t, a.call, t.calls[a.call].pc);
    MovedKeepsHolders(s, t, a.call, t.calls[a.call].pc);
  }

  lemma OutsideStepsKeepHolders(s: State, a: Action)
    requires Enabled(s, a) && (a.Begin? || a.Tick? || a.SetMany? || a.Drop?)
    ensures SameHolders(s, Apply(s, a))
  {
  }

  lemma JoinWaits(s: State, c: nat)
    requires Ownership(s) && Promises(s) && Enabled(s, Join(c)) && s.calls[c].key in s.inFlight
    ensures Ownership(Apply(s, Join(c))) && Promises(Apply(s, Join(c)))
  {
    WaitsOn(s, Apply(s, Join(c)), c);
  }

  lemma WaitsOn(s: State, t: State, c: nat)
    requires Ownership(s) && Promises(s) && c in s.calls && !Live(s.calls[c].pc) && s.calls[c].key in s.inFlight
    requires t == Goto(s, c, Waiting(s.inFlight[s.calls[c].key]))
    ensures Ownership(t) && Promises(t)
  {
    forall k | k in t.inFlight ensures Holds(t, t.owner[t.inFlight[k]], k, t.inFlight[k]) {
      assert Holds(s, s.owner[s.inFlight[k]], k, s.inFlight[k]);
    }
    forall e | e in t.owner ensures Promised(t, e) { assert Promised(s, e); }
  }

  lemma JoinOwns(s: State, c: nat)
    requires Ownership(s) && Promises(s) && Enabled(s, Join(c)) && s.calls[c].key !in s.inFlight
    ensures Ownership(Apply(s, Join(c))) && Promises(Apply(s, Join(c)))
  {
    var t := Apply(s, Join(c));
    assert s.nextEvent !in s.owner && !Live(s.calls[c].pc);
    assert Holds(t, c, s.calls[c].key, s.nextEvent);
    forall k | k in s.inFlight ensures Holds(t, t.owner[t.inFlight[k]], k, t.inFlight[k]) {
      assert Holds(s, s.owner[s.inFlight[k]], k, s.inFlight[k]);
    }
    forall e | e in s.owner ensures Promised(t, e) { assert Promised(s, e); }
  }

  lemma PopKeeps(s: State, c: nat)
    requires Ownership(s) && Promises(s) && Enabled(s, Pop(c))
    ensures Ownership(Apply(s, Pop(c))) && Promises(Apply(s, Pop(c)))
  {
    var t := Apply(s, Pop(c));
    forall k | k in t.inFlight ensures t.inFlight[k] in t.owner && Holds(t, t.owner[t.inFlight[k]], k, t.inFlight[k]) {
      assert Holds(s, s.owner[s.inFlight[k]], k, s.inFlight[k]);
    }
    forall e | e in t.owner ensures Promised(t, e) { assert Promised(s, e); }
  }

  lemma SetEventKeeps(s: State, c: nat)
    requires Ownership(s) && Promises(s) && Enabled(s, SetEvent(c))
    ensures Ownership(Apply(s, SetEvent(c))) && Promises(Apply(s, SetEvent(c)))
  {
    var t := Apply(s, SetEvent(c));
    assert t.calls == s.calls[c := s.calls[c].(pc := Done)];
    EventSet(s, t, c);
  }

  // The owner has set its event and is done.
  lemma EventSet(s: State, t: State, c: nat)
    requires Ownership(s) && Promises(s) && c in s.calls && s.calls[c].pc.Setting?
    requires t.calls == s.calls[c := s.calls[c].(pc := Done)] && t.events == s.events + {s.calls[c].pc.event}
    requires t.inFlight == s.inFlight && t.owner == s.owner && t.nextEvent == s.nextEvent
    ensures Ownership(t) && Promises(t)
  {
    forall k | k in s.inFlight ensures Holds(t, s.owner[s.inFlight[k]], k, s.inFlight[k]) {
      assert Holds(s, s.owner[s.inFlight[k]], k, s.inFlight[k]);
    }
    forall e | e in s.owner ensures Promised(t, e) { assert Promised(s, e); }
  }

  lemma OwnershipKept(s: State, a: Action)
    requires Ownership(s) && Promises(s) && Enabled(s, a)
    ensures Ownership(Apply(s, a)) && Promises(Apply(s, a))
  {
    match a
    case Join(c) => if s.calls[c].key in s.inFlight { JoinWaits(s, c); } else { JoinOwns(s, c); }
    case Pop(c) => PopKeeps(s, c);
    case SetEvent(c) => SetEventKeeps(s, c);
    case _ =>
      if a.Begin? || a.Tick? || a.SetMany? || a.Drop? { OutsideStepsKeepHolders(s, a); } else { CallStepsKeepHolders(s, a); }
      HoldersFrame(s, Apply(s, a));
  }

  lemma EntriesKept(s: State, a: Action)
    requires Entries(s) && Enabled(s, a)
    ensures Entries(Apply(s, a)) && s.stores <= Apply(s, a).stores
  {
  }

  lemma CarriedKept(s: State, a: Action)
    requires Carried(s) && Enabled(s, a)
    ensures Carried(Apply(s, a))
  {
  }

  lemma StoresKeyedKept(s: State, a: Action)
    requires Carried(s) && StoresKeyed(s) && Enabled(s, a)
    ensures StoresKeyed(Apply(s, a))
  {
  }

  lemma ReturnsKept(s: State, a: Action)
    requires Entries(s) && Carried(s) && Returns(s) && Enabled(s, a)
    ensures Returns(Apply(s, a))
  {
  }

  lemma InvInductive()
    ensures Runs.Inductive(Init, Next, Inv)
  {
    forall s, t | Inv(s) && Next(s, t) ensures Inv(t) {
      var a :| Enabled(s, a) && t == Apply(s, a);
      OwnershipKept(s, a);
      EntriesKept(s, a);
      CarriedKept(s, a);
      StoresKeyedKept(s, a);
      ReturnsKept(s, a);
    }
  }

  // ----- what every interleaving guarantees -----

  /** Single flight: in every reachable state at most one call per key is between joining as owner
      and leaving the table, and the table lists exactly those owners, each under its own event. */
  lemma OneOwnerPerKey(s: State)
    requires Runs.Reachable(Init, Next, s)
    ensures forall c, d, k, e, f :: Holds(s, c, k, e) && Holds(s, d, k, f) ==> c == d
    ensures forall c, k, e :: Holds(s, c, k, e) ==> k in s.inFlight && s.inFlight[k] == e
    ensures forall k :: k in s.inFlight ==> exists c :: Holds(s, c, k, s.inFlight[k])
  {
    InvInductive();
    Runs.HoldsOnReachable(Init, Next, Inv);
    forall k | k in s.inFlight ensures exists c :: Holds(s, c, k, s.inFlight[k]) {
      assert Holds(s, s.owner[s.inFlight[k]], k, s.inFlight[k]);
    }
  }

  // The event gets set within n steps of its owner alone, whatever everyone else does not do.
  ghost predicate SetWithin(s: State, e: nat, n: nat)
    decreases n
  {
    e in s.events ||
    (n > 0 && e in s.owner && exists a :: OwnStep(a, s.owner[e]) && Enabled(s, a) && SetWithin(Apply(s, a), e, n - 1))
  }

  predicate OwnStep(a: Action, c: nat) {
    (a.Fetch? || a.DoStore? || a.Pop? || a.SetEvent?) && a.call == c
  }

  function StepsLeft(pc: Pc): nat {
    if pc.Fetching? then 4 else if pc.Storing? then 3 else if pc.Popping? then 2 else 1
  }

  lemma {:induction false} OwnerSets(s: State, e: nat)
    requires e in s.owner && s.owner[e] in s.calls && Live(s.calls[s.owner[e]].pc) && s.calls[s.owner[e]].pc.event == e
    ensures SetWithin(s, e, StepsLeft(s.calls[s.owner[e]].pc))
    decreases StepsLeft(s.calls[s.owner[e]].pc)
  {
    var c := s.owner[e];
    var pc := s.calls[c].pc;
    var a := if pc.Fetching? then Fetch(c, true) else if pc.Storing? then DoStore(c) else if pc.Popping? then Pop(c) else SetEvent(c);
    if !pc.Setting? {
      OwnerSets(Apply(s, a), e);
    }
    assert OwnStep(a, c) && Enabled(s, a) && SetWithin(Apply(s, a), e, StepsLeft(pc) - 1);
  }

  lemma {:induction false} SetWithinMore(s: State, e: nat, n: nat, m: nat)
    requires SetWithin(s, e, n) && n <= m
    ensures SetWithin(s, e, m)
    decreases n
  {
    if e !in s.events {
      var a :| OwnStep(a, s.owner[e]) && Enabled(s, a) && SetWithin(Apply(s, a), e, n - 1);
      SetWithinMore(Apply(s, a), e, n - 1, m - 1);
    }
  }

  /** No lost wake-ups: whatever the interleaving, a waiter's event is set already or its maker is
      still live and sets it within four steps of its own, needing nobody else. */
  lemma WaitersAreWoken(s: State, c: nat)
    requires Runs.Reachable(Init, Next, s)
    requires c in s.calls && s.calls[c].pc.Waiting?
    ensures SetWithin(s, s.calls[c].pc.event, 4)
  {
    InvInductive();
    Runs.HoldsOnReachable(Init, Next, Inv);
    var e := s.calls[c].pc.event;
    assert Promised(s, e);
    if e !in s.events {
      OwnerSets(s, e);
      SetWithinMore(s, e, StepsLeft(s.calls[s.owner[e]].pc), 4);
    }
  }

  /** Every value any call ever returned was its own fetch, or had been stored under that very key
      less than the caller's TTL before it was read; and a fetched value never crosses keys. */
  lemma AnswersAreJustified(s: State)
    requires Runs.Reachable(Init, Next, s)
    ensures forall r :: r in s.answers ==> Justified(s, r) && (r.value.FetchedBy? ==> r.value.key == r.key)
  {
    InvInductive();
    Runs.HoldsOnReachable(Init, Next, Inv);
    forall r | r in s.answers ensures Justified(s, r) && (r.value.FetchedBy? ==> r.value.key == r.key) {
      if r.value != FetchedBy(r.call, r.key) {
        var at :| 0 <= r.at - at < r.ttl && Store(r.key, at, r.value) in s.stores;
      }
    }
  }

  // ----- what the cache answers, run by run -----

  ghost predicate Step(s: State, a: Action, t: State) { Enabled(s, a) && t == Apply(s, a) }

  // A step that stores v under the key: the end of a fetch, or set_many.
  predicate Puts(s: State, a: Action, k: Key, v: Value) {
    || (a.DoStore? && a.call in s.calls && s.calls[a.call].key == k && v == FetchedBy(a.call, k))
    || (a.SetMany? && k in a.items && v == a.items[k])
  }

  // A step that stores something under the key, or drops it.
  predicate Touches(s: State, a: Action, k: Key) {
    || (a.DoStore? && a.call in s.calls && s.calls[a.call].key == k)
    || (a.SetMany? && k in a.items) || (a.Drop? && k in a.keys)
  }

  // Step i stored v under the key, and no step up to j has touched the key since.
  ghost predicate Supplied(run: seq<State>, acts: seq<Action>, i: int, j: nat, k: Key, v: Value)
    requires |run| == |acts| && j < |run|
  {
    0 < i <= j && Puts(run[i - 1], acts[i], k, v) && forall m :: i < m <= j ==> !Touches(run[m - 1], acts[m], k)
  }

  ghost predicate SameEntry(s: State, t: State, k: Key) {
    (k in s.mem <==> k in t.mem) && (k in s.mem ==> t.mem[k] == s.mem[k])
  }

  lemma EntryStep(s: State, a: Action, t: State, k: Key)
    requires Carried(s) && Step(s, a, t)
    ensures !Touches(s, a, k) ==> SameEntry(s, t, k)
    ensures forall v :: Puts(s, a, k, v) ==> k in t.mem && t.mem[k] == Entry(t.now, v)
    ensures Touches(s, a, k) && k in t.mem ==> Puts(s, a, k, t.mem[k].value) && t.mem[k].at == t.now
  {
  }

  lemma TraceCarries(run: seq<State>, acts: seq<Action>, j: nat)
    requires Runs.Trace(Init, Step, run, acts) && j < |run|
    ensures Carried(run[j])
  {
    Runs.TraceIsRun(Init, Next, Step, run, acts);
    InvInductive();
    Runs.HoldsOnRuns(Init, Next, Inv, run, j);
  }

  // What a key maps to is what the last step that touched it stored, with the time of that step.
  lemma {:induction false} EntryIsLastPut(run: seq<State>, acts: seq<Action>, j: nat, k: Key) returns (i: nat)
    requires Runs.Trace(Init, Step, run, acts) && j < |run| && k in run[j].mem
    ensures Supplied(run, acts, i, j, k, run[j].mem[k].value) && run[i].now == run[j].mem[k].at
  {
    assert Runs.ActAt(Step, run, acts, j);
    TraceCarries(run, acts, j - 1);
    EntryStep(run[j - 1], acts[j], run[j], k);
    i := j;
    if !Touches(run[j - 1], acts[j], k) {
      i := EntryIsLastPut(run, acts, j - 1, k);
    }
  }

  // And what was stored last is there.
  lemma {:induction false} LastPutIsEntry(run: seq<State>, acts: seq<Action>, i: int, j: nat, k: Key, v: Value)
    requires Runs.Trace(Init, Step, run, acts) && j < |run| && Supplied(run, acts, i, j, k, v)
    ensures k in run[j].mem && run[j].mem[k] == Entry(run[i].now, v)
  {
    assert Runs.ActAt(Step, run, acts, j);
    TraceCarries(run, acts, j - 1);
    EntryStep(run[j - 1], acts[j], run[j], k);
    if i < j {
      assert Supplied(run, acts, i, j - 1, k, v);
      LastPutIsEntry(run, acts, i, j - 1, k, v);
    }
  }

  // A value stored under the key less than ttl before state j, and not touched since.
  ghost predicate FreshAt(run: seq<State>, acts: seq<Action>, i: int, j: nat, k: Key, ttl: int, v: Value)
    requires |run| == |acts| && j < |run|
  {
    Supplied(run, acts, i, j, k, v) && run[j].now - run[i].now < ttl
  }

  /** What is stored is answered.  In every run a lookup, and the second look of a woken waiter, ends the
      call if and only if some step stored a value under the key less than the caller's TTL ago and no
      step has stored or dropped the key since; the answer is then that value: for a fetch the one of the
      call that fetched, and nothing is fetched again.  Otherwise the call goes on to the in-flight table,
      or to a fetch of its own. */
  lemma AnsweredFromCacheIff(run: seq<State>, acts: seq<Action>, j: nat, d: nat, a: Action)
    requires Runs.Trace(Init, Step, run, acts) && j < |run| && (a == Lookup(d) || a == Reread(d)) && Enabled(run[j], a)
    ensures var call, t := run[j].calls[d], Apply(run[j], a);
      && (t.calls[d].pc.Done? <==> exists i, v :: FreshAt(run, acts, i, j, call.key, call.ttl, v))
      && (!t.calls[d].pc.Done? ==> t.calls[d].pc == if a.Lookup? then AtFlight else AtFallback)
      && forall i, v :: FreshAt(run, acts, i, j, call.key, call.ttl, v) ==>
           Return(d, call.key, call.ttl, v, run[j].now) in t.answers && t.answers <= run[j].answers + {Return(d, call.key, call.ttl, v, run[j].now)}
  {
    var call := run[j].calls[d];
    if call.key in run[j].mem {
      var i := EntryIsLastPut(run, acts, j, call.key);
      assert Fresh(run[j], call.key, call.ttl) ==> FreshAt(run, acts, i, j, call.key, call.ttl, run[j].mem[call.key].value);
    }
    forall i, v | FreshAt(run, acts, i, j, call.key, call.ttl, v)
      ensures Fresh(run[j], call.key, call.ttl) && run[j].mem[call.key].value == v
    {
      LastPutIsEntry(run, acts, i, j, call.key, v);
    }
  }

  // ----- whom an error reaches -----

  ghost predicate Answered(s: State, c: nat) { exists r :: r in s.answers && r.call == c }

  // The call's own fetch raised, as the owner or after the fall-through.
  ghost predicate Raised(acts: seq<Action>, j: nat, c: nat) {
    Runs.Taken(acts, j, Fetch(c, false)) || Runs.Taken(acts, j, Fallback(c, false))
  }

  predicate Failing(pc: Pc) { (pc.Popping? || pc.Setting?) && pc.outcome.None? }

  // What is known of a call by where it stands.
  predicate Settled(s: State, c: nat, answered: bool, raised: bool) {
    if c !in s.calls then !answered && !raised
    else if s.calls[c].pc.Done? then answered != raised
    else !answered && (raised <==> Failing(s.calls[c].pc))
  }

  predicate Mine(a: Action, c: nat) { !a.Tick? && !a.SetMany? && !a.Drop? && a.call == c }

  lemma OthersSettleNothing(s: State, a: Action, t: State, c: nat)
    requires Step(s, a, t) && !Mine(a, c)
    ensures (c in s.calls <==> c in t.calls) && (c in s.calls ==> t.calls[c] == s.calls[c])
    ensures Answered(t, c) <==> Answered(s, c)
  {
    if r :| r in s.answers && r.call == c { assert r in t.answers; }
  }

  lemma OwnStepSettles(s: State, a: Action, t: State, c: nat, raised: bool)
    requires Step(s, a, t) && Mine(a, c) && Settled(s, c, Answered(s, c), raised)
    ensures Settled(t, c, Answered(t, c), raised || a == Fetch(c, false) || a == Fallback(c, false))
  {
    if t.answers != s.answers {
      var v :| t.answers == s.answers + {v};
      assert v.call == c;
    }
  }

  lemma SettledStep(s: State, a: Action, t: State, c: nat, raised: bool)
    requires Step(s, a, t) && Settled(s, c, Answered(s, c), raised)
    ensures Settled(t, c, Answered(t, c), raised || a == Fetch(c, false) || a == Fallback(c, false))
  {
    if Mine(a, c) { OwnStepSettles(s, a, t, c, raised); } else { OthersSettleNothing(s, a, t, c); }
  }

  lemma {:induction false} CallIsSettled(run: seq<State>, acts: seq<Action>, j: nat, c: nat)
    requires Runs.Trace(Init, Step, run, acts) && j < |run|
    ensures Settled(run[j], c, Answered(run[j], c), Raised(acts, j, c))
  {
    if j > 0 {
      CallIsSettled(run, acts, j - 1, c);
      assert Runs.ActAt(Step, run, acts, j);
      SettledStep(run[j - 1], acts[j], run[j], c, Raised(acts, j - 1, c));
      Runs.TakenNext(acts, j, Fetch(c, false));
      Runs.TakenNext(acts, j, Fallback(c, false));
    }
  }

  /** A fetch that raises reaches its own caller and nobody else: a finished call has answered if and only
      if its own fetch did not raise. */
  lemma FinishedAnswersIff(run: seq<State>, acts: seq<Action>, j: nat, c: nat)
    requires Runs.Trace(Init, Step, run, acts) && j < |run| && c in run[j].calls && run[j].calls[c].pc.Done?
    ensures Answered(run[j], c) <==> !Raised(acts, j, c)
  {
    CallIsSettled(run, acts, j, c);
  }

  // ----- a run of the cache -----

  lemma Walk(s: State, a: Action) returns (t: State)
    requires Runs.Reachable(Init, Next, s) && Enabled(s, a)
    ensures t == Apply(s, a) && Runs.Reachable(Init, Next, t)
  {
    t := Apply(s, a);
    assert Next(s, t);
    Runs.ReachableStep(Init, Next, s, t);
  }

  // Call 0 is about to store what it fetched.
  lemma FetchUnderWay(k: Key) returns (s: State)
    ensures Runs.Reachable(Init, Next, s)
    ensures s == State(0, map[], map[k := 0], {}, map[0 := Call(k, 60, Storing(0, FetchedBy(0, k)))], 1, map[0 := 0], {}, {})
  {
    s := State(0, map[], map[], {}, map[], 0, map[], {}, {});
    Runs.ReachableInit(Init, Next, s);
    s := Walk(s, Begin(0, k, 60));
    s := Walk(s, Lookup(0));
    s := Walk(s, Join(0));
    s := Walk(s, Fetch(0, true));
    assert s.calls == map[0 := Call(k, 60, Storing(0, FetchedBy(0, k)))];
  }

  // Call 0 has fetched and stored the key at time 0.
  lemma FirstFetch(k: Key) returns (s: State)
    ensures Runs.Reachable(Init, Next, s) && s.now == 0 && s.calls.Keys == {0} && s.inFlight == map[]
    ensures s.mem == map[k := Entry(0, FetchedBy(0, k))] && Return(0, k, 60, FetchedBy(0, k), 0) in s.answers
  {
    s := FetchUnderWay(k);
    s := Walk(s, DoStore(0));
    s := Walk(s, Pop(0));
    s := Walk(s, SetEvent(0));
  }

  /** The cache at work: with a TTL of 60 a value fetched at time 0 answers a second call at time 59, and at
      time 60 a third call fetches again. */
  lemma ServedUntilExpiry(k: Key) returns (served: State, again: State)
    ensures Runs.Reachable(Init, Next, served) && Return(1, k, 60, FetchedBy(0, k), 59) in served.answers
    ensures Runs.Reachable(Init, Next, again) && again.now == 60 && 2 in again.calls && again.calls[2].pc.Fetching?
  {
    var s := FirstFetch(k);
    s := Walk(s, Begin(1, k, 60));
    s := Walk(s, Tick(59));
    served := Walk(s, Lookup(1));
    s := Walk(served, Begin(2, k, 60));
    s := Walk(s, Tick(60));
    s := Walk(s, Lookup(2));
    again := Walk(s, Join(2));
  }
}
