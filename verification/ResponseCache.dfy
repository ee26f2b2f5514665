/** The response cache: one loader per key, waiters on its event, errors handed over through a
    table keyed like the cache, and a fall-through for a waiter that finds neither.  A streaming route
    shares the tables: it loads and waits too, but stores its value in a step of its own and looks at
    an error without taking it. */
module ResponseCache {
  import Runs

  type Key = nat
  // A load is known by the call that made it: its value, or its error.
  datatype Entry = Entry(ts: int, load: nat)

  datatype Pc =
    | AtEntry
    | Loading(event: nat, mine: bool)                 // mine: this call created the event; otherwise it fell through
    | Setting(event: nat, mine: bool, ok: bool)       // the finally block has published, the event is not set yet
    | Waiting(event: nat)
    | AtReread(event: nat)
    | Done
  datatype Call = Call(key: Key, ttl: int, stream: bool, pc: Pc)

  datatype State = State(
    now: int, cache: map<Key, Entry>, inFlight: map<Key, nat>, errors: map<Key, nat>, events: set<nat>,
    calls: map<nat, Call>, nextEvent: nat,
    // history: who made an event, which keys saw a fall-through, which error each waiter raised and which
    // load's value each call returned
    maker: map<nat, nat>, fell: set<Key>, raised: map<nat, nat>, answered: map<nat, nat>)

  datatype Action =
    | Begin(call: nat, key: Key, ttl: int, stream: bool)
    | Enter(call: nat)
    | Publish(call: nat, ok: bool)
    | SetEvent(call: nat)
    | Wake(call: nat)
    | TimeOut(call: nat)
    | Reread(call: nat)
    | Tick(to: int)
    | Drop(keys: set<Key>)     // entries taken out of the cache
    | Put(key: Key, load: nat) // a value stored by a stream or by another route
    | ClearAll                 // the route that clears the cache and the error table

  predicate Enabled(s: State, a: Action) {
    match a
    case Begin(c, _, _, _) => c !in s.calls
    case Enter(c) => c in s.calls && s.calls[c].pc.AtEntry?
    case Publish(c, _) => c in s.calls && s.calls[c].pc.Loading?
    case SetEvent(c) => c in s.calls && s.calls[c].pc.Setting?
    case Wake(c) => c in s.calls && s.calls[c].pc.Waiting? && s.calls[c].pc.event in s.events
    case TimeOut(c) => c in s.calls && s.calls[c].pc.Waiting?
    case Reread(c) => c in s.calls && s.calls[c].pc.AtReread?
    case Tick(to) => s.now <= to
    case Drop(_) => true
    case Put(_, _) => true
    case ClearAll => true
  }

  // The calls when call c has moved.
  function Placed(s: State, c: nat, pc: Pc): map<nat, Call>
    requires c in s.calls
  {
    s.calls[c := s.calls[c].(pc := pc)]
  }

  function Goto(s: State, c: nat, pc: Pc): State
    requires c in s.calls
  {
    s.(calls := Placed(s, c, pc))
  }

  function Answer(s: State, c: nat, load: nat): State
    requires c in s.calls
  {
    s.(calls := Placed(s, c, Done), answered := s.answered[c := load])
  }

  // The first locked region of _cache_get, and of the stream.
  function Entered(s: State, c: nat): State
    requires c in s.calls
  {
    var call := s.calls[c];
    if !call.stream && call.key in s.cache && s.now - s.cache[call.key].ts < call.ttl then Answer(s, c, s.cache[call.key].load)
    else if call.key in s.inFlight then Goto(s, c, Waiting(s.inFlight[call.key]))
    else s.(calls := Placed(s, c, Loading(s.nextEvent, true)), inFlight := s.inFlight[call.key := s.nextEvent],
            maker := s.maker[s.nextEvent := c], nextEvent := s.nextEvent + 1)
  }

  // The locked part of the finally block.
  function Published(s: State, c: nat, ok: bool): State
    requires c in s.calls && s.calls[c].pc.Loading?
  {
    var call := s.calls[c];
    s.(calls := Placed(s, c, Setting(call.pc.event, call.pc.mine, ok)),
      cache := if ok && !call.stream then s.cache[call.key := Entry(s.now, c)] else s.cache,
      errors := if ok then s.errors else s.errors[call.key := c],
      inFlight := s.inFlight - {call.key})        // whoever put the entry there
  }

  // A waiter looks for an error and a value; a stream shows the error and leaves it in the table.
  function Looked(s: State, c: nat): State
    requires c in s.calls && s.calls[c].pc.AtReread?
  {
    var call := s.calls[c];
    if call.stream then Goto(s, c, Done)
    else if call.key in s.errors then
      s.(calls := Placed(s, c, Done), errors := s.errors - {call.key}, raised := s.raised[c := s.errors[call.key]])
    else if call.key in s.cache then Answer(s, c, s.cache[call.key].load)
    else s.(calls := Placed(s, c, Loading(call.pc.event, false)), fell := s.fell + {call.key})
  }

  function Apply(s: State, a: Action): State
    requires Enabled(s, a)
  {
    match a
    case Begin(c, key, ttl, stream) => s.(calls := s.calls[c := Call(key, ttl, stream, AtEntry)])
    case Enter(c) => Entered(s, c)
    case Publish(c, ok) => Published(s, c, ok)
    case SetEvent(c) =>
      s.(calls := Placed(s, c, Done), events := s.events + {s.calls[c].pc.event},
         answered := if s.calls[c].pc.ok then s.answered[c := c] else s.answered)
    case Wake(c) => Goto(s, c, AtReread(s.calls[c].pc.event))
    case TimeOut(c) => Goto(s, c, Done)
    case Reread(c) => Looked(s, c)
    case Tick(to) => s.(now := to)
    case Drop(keys) => s.(cache := s.cache - keys)
    case Put(key, load) => s.(cache := s.cache[key := Entry(s.now, load)])
    case ClearAll => s.(cache := map[], errors := map[])
  }

  // A step that moves no call.
  predicate Outside(a: Action) { a.Tick? || a.Drop? || a.Put? || a.ClearAll? }

  ghost predicate Init(s: State) {
    && s.cache == map[] && s.inFlight == map[] && s.errors == map[] && s.events == {} && s.calls == map[]
    && s.maker == map[] && s.fell == {} && s.raised == map[] && s.answered == map[]
  }

  ghost predicate Next(s: State, t: State) {
    exists a :: Enabled(s, a) && t == Apply(s, a)
  }

  // ----- events -----

  // The maker of the event still owes it: it is loading, or has published and not set it yet.
  predicate Owes(s: State, c: nat, e: nat) {
    c in s.calls && (s.calls[c].pc.Loading? || s.calls[c].pc.Setting?) && s.calls[c].pc.mine && s.calls[c].pc.event == e
  }

  predicate LoadsKey(s: State, c: nat, k: Key, e: nat) {
    c in s.calls && s.calls[c].key == k && s.calls[c].pc == Loading(e, true)
  }

  ghost predicate Promised(s: State, e: nat) {
    e in s.maker && (e in s.events || Owes(s, s.maker[e], e))
  }

  ghost predicate Events(s: State) {
    && (forall e :: e in s.maker ==> e < s.nextEvent && Promised(s, e))
    && (forall c, e :: Owes(s, c, e) ==> e in s.maker && s.maker[e] == c)
    && (forall c :: c in s.calls && s.calls[c].pc.Waiting? ==> s.calls[c].pc.event in s.maker)
    && (forall k :: k in s.inFlight ==> s.inFlight[k] in s.maker && LoadsKey(s, s.maker[s.inFlight[k]], k, s.inFlight[k]))
  }

  predicate Owing(pc: Pc) { (pc.Loading? || pc.Setting?) && pc.mine }

  // The step moved only call c, between places where it owes no event.
  ghost predicate Quiet(s: State, t: State, c: nat) {
    && t.maker == s.maker && t.nextEvent == s.nextEvent && t.inFlight == s.inFlight && t.events == s.events
    && c in t.calls && t.calls == s.calls[c := t.calls[c]]
    && (c in s.calls ==> t.calls[c].key == s.calls[c].key && !Owing(s.calls[c].pc))
    && !Owing(t.calls[c].pc) && (t.calls[c].pc.Waiting? ==> t.calls[c].pc.event in s.maker)
  }

  lemma QuietKeepsEvents(s: State, t: State, c: nat)
    requires Events(s) && Quiet(s, t, c)
    ensures Events(t)
  {
    forall e | e in s.maker ensures Promised(t, e) { assert Promised(s, e); }
    forall d, e | Owes(t, d, e) ensures e in t.maker && t.maker[e] == d { assert Owes(s, d, e); }
    forall k | k in t.inFlight ensures LoadsKey(t, t.maker[t.inFlight[k]], k, t.inFlight[k]) {
      assert LoadsKey(s, s.maker[s.inFlight[k]], k, s.inFlight[k]);
    }
  }

  // Call c has put a new event n in the table under its key.
  ghost predicate NewLoader(s: State, t: State, c: nat, n: nat) {
    && c in s.calls && !Owing(s.calls[c].pc) && n == s.nextEvent && t.nextEvent == n + 1 && t.events == s.events
    && t.calls == s.calls[c := s.calls[c].(pc := Loading(n, true))] && t.maker == s.maker[n := c]
    && t.inFlight == s.inFlight[s.calls[c].key := n]
  }

  lemma NewLoaderKeepsEvents(s: State, t: State, c: nat, n: nat)
    requires Events(s) && NewLoader(s, t, c, n)
    ensures Events(t)
  {
    assert n !in s.maker;
    forall e | e in t.maker ensures Promised(t, e) { if e != n { assert Promised(s, e); } }
    forall d, e | Owes(t, d, e) ensures e in t.maker && t.maker[e] == d { if d != c { assert Owes(s, d, e); } }
    forall k | k in t.inFlight ensures LoadsKey(t, t.maker[t.inFlight[k]], k, t.inFlight[k]) {
      if k in s.inFlight { assert LoadsKey(s, s.maker[s.inFlight[k]], k, s.inFlight[k]); }
    }
  }

  lemma LoaderStarts(s: State, c: nat)
    requires Events(s) && Enabled(s, Enter(c)) && Apply(s, Enter(c)).calls[c].pc.Loading?
    ensures Events(Apply(s, Enter(c)))
  {
    NewLoaderKeepsEvents(s, Apply(s, Enter(c)), c, s.nextEvent);
  }

  // Call c has published and left the in-flight table.
  lemma PublishedKeepsEvents(s: State, t: State, c: nat, pc: Pc)
    requires Events(s) && c in s.calls && s.calls[c].pc.Loading? && pc.Setting? && pc.event == s.calls[c].pc.event && pc.mine == s.calls[c].pc.mine
    requires t.calls == s.calls[c := s.calls[c].(pc := pc)] && t.inFlight == s.inFlight - {s.calls[c].key}
    requires t.maker == s.maker && t.nextEvent == s.nextEvent && t.events == s.events
    ensures Events(t)
  {
    forall e | e in s.maker ensures Promised(t, e) { assert Promised(s, e); }
    forall d, e | Owes(t, d, e) ensures e in t.maker && t.maker[e] == d { assert Owes(s, d, e); }
    forall k | k in t.inFlight ensures LoadsKey(t, t.maker[t.inFlight[k]], k, t.inFlight[k]) {
      assert LoadsKey(s, s.maker[s.inFlight[k]], k, s.inFlight[k]);
    }
  }

  // Call c has set its event and is done.
  lemma SetKeepsEvents(s: State, t: State, c: nat)
    requires Events(s) && c in s.calls && s.calls[c].pc.Setting?
    requires t.calls == s.calls[c := s.calls[c].(pc := Done)] && t.events == s.events + {s.calls[c].pc.event}
    requires t.maker == s.maker && t.nextEvent == s.nextEvent && t.inFlight == s.inFlight
    ensures Events(t)
  {
    forall e | e in s.maker ensures Promised(t, e) { assert Promised(s, e); }
    forall d, e | Owes(t, d, e) ensures e in t.maker && t.maker[e] == d { assert Owes(s, d, e); }
    forall k | k in t.inFlight ensures LoadsKey(t, t.maker[t.inFlight[k]], k, t.inFlight[k]) {
      assert LoadsKey(s, s.maker[s.inFlight[k]], k, s.inFlight[k]);
    }
  }

  lemma LoaderStepKeepsEvents(s: State, a: Action)
    requires Events(s) && Enabled(s, a) && (a.Publish? || a.SetEvent?)
    ensures Events(Apply(s, a))
  {
    match a
    case Publish(c, ok) => PublishedKeepsEvents(s, Published(s, c, ok), c, Setting(s.calls[c].pc.event, s.calls[c].pc.mine, ok));
    case SetEvent(c) => SetKeepsEvents(s, Apply(s, a), c);
  }

  lemma GotoIsQuiet(s: State, t: State, c: nat, pc: Pc)
    requires c in s.calls && !Owing(s.calls[c].pc) && !Owing(pc) && (pc.Waiting? ==> pc.event in s.maker)
    requires t.calls == Placed(s, c, pc) && t.maker == s.maker && t.nextEvent == s.nextEvent
    requires t.inFlight == s.inFlight && t.events == s.events
    ensures Quiet(s, t, c)
  {
  }

  lemma EnterIsQuiet(s: State, c: nat, t: State)
    requires Events(s) && c in s.calls && s.calls[c].pc.AtEntry? && t == Entered(s, c) && !t.calls[c].pc.Loading?
    ensures Quiet(s, t, c)
  {
    var key := s.calls[c].key;
    if t.calls == Placed(s, c, Done) {
      GotoIsQuiet(s, t, c, Done);
    } else {
      assert key in s.inFlight && t == Goto(s, c, Waiting(s.inFlight[key]));
      GotoIsQuiet(s, t, c, Waiting(s.inFlight[key]));
    }
  }

  // A look moves its call and nothing about events.
  lemma LookMoves(s: State, c: nat, t: State)
    requires c in s.calls && s.calls[c].pc.AtReread? && t == Looked(s, c)
    ensures c in t.calls && t.calls == Placed(s, c, t.calls[c].pc)
    ensures t.calls[c].pc.Done? || (t.calls[c].pc == Loading(s.calls[c].pc.event, false) && s.calls[c].key in t.fell)
    ensures t.maker == s.maker && t.nextEvent == s.nextEvent && t.inFlight == s.inFlight && t.events == s.events && s.fell <= t.fell
  {
    var key := s.calls[c].key;
    if !s.calls[c].stream && key !in s.errors && key !in s.cache {
      assert t.calls == Placed(s, c, Loading(s.calls[c].pc.event, false));
    } else {
      assert t.calls == Placed(s, c, Done);
    }
  }

  lemma LookIsQuiet(s: State, c: nat, t: State)
    requires c in s.calls && s.calls[c].pc.AtReread? && t == Looked(s, c)
    ensures Quiet(s, t, c)
  {
    LookMoves(s, c, t);
    GotoIsQuiet(s, t, c, t.calls[c].pc);
  }

  lemma CallStepsAreQuiet(s: State, a: Action)
    requires Events(s) && Enabled(s, a) && (a.Begin? || a.Enter? || a.Wake? || a.TimeOut? || a.Reread?)
    ensures (a.Enter? && Apply(s, a).calls[a.call].pc.Loading?) || Quiet(s, Apply(s, a), a.call)
  {
    match a
    case Enter(c) => if !Entered(s, c).calls[c].pc.Loading? { EnterIsQuiet(s, c, Entered(s, c)); }
    case Reread(c) => LookIsQuiet(s, c, Looked(s, c));
    case Begin(_, _, _, _) =>
    case Wake(_) =>
    case TimeOut(_) =>
  }

  lemma OutsideStepKeepsEvents(s: State, a: Action)
    requires Events(s) && Enabled(s, a) && Outside(a)
    ensures Events(Apply(s, a))
  {
    var t := Apply(s, a);
    forall e | e in s.maker ensures Promised(t, e) { assert Promised(s, e); }
    forall d, e | Owes(t, d, e) ensures e in t.maker && t.maker[e] == d { assert Owes(s, d, e); }
    forall k | k in t.inFlight ensures LoadsKey(t, t.maker[t.inFlight[k]], k, t.inFlight[k]) {
      assert LoadsKey(s, s.maker[s.inFlight[k]], k, s.inFlight[k]);
    }
  }

  lemma EventsKept(s: State, a: Action)
    requires Events(s) && Enabled(s, a)
    ensures Events(Apply(s, a))
  {
    if Outside(a) {
      OutsideStepKeepsEvents(s, a);
    } else if a.Publish? || a.SetEvent? {
      LoaderStepKeepsEvents(s, a);
    } else {
      CallStepsAreQuiet(s, a);
      if Quiet(s, Apply(s, a), a.call) { QuietKeepsEvents(s, Apply(s, a), a.call); } else { LoaderStarts(s, a.call); }
    }
  }

  // ----- single flight, key by key -----

  // Without a fall-through on the key, every loader of the key is the one in the table.
  ghost predicate SingleFlight(s: State) {
    && (forall c, k, e :: LoadsKey(s, c, k, e) && k !in s.fell ==> k in s.inFlight && s.inFlight[k] == e)
    && (forall c :: c in s.calls && s.calls[c].pc.Loading? && !s.calls[c].pc.mine ==> s.calls[c].key in s.fell)
  }

  lemma PublishKeepsSingleFlight(s: State, c: nat, ok: bool)
    requires Events(s) && SingleFlight(s) && Enabled(s, Publish(c, ok))
    ensures SingleFlight(Apply(s, Publish(c, ok)))
  {
    var t, pc := Apply(s, Publish(c, ok)), s.calls[c].pc;
    forall d, k, e | LoadsKey(t, d, k, e) && k !in t.fell ensures k in t.inFlight && t.inFlight[k] == e {
      assert d != c && LoadsKey(s, d, k, e);
      if s.calls[c].key == k {
        assert LoadsKey(s, c, k, pc.event);
        assert Owes(s, d, e) && Owes(s, c, pc.event);
      }
    }
  }

  // Nobody started to load but callers that fell through.
  predicate NoNewLoader(s: State, t: State) {
    && t.inFlight == s.inFlight && s.fell <= t.fell
    && forall d :: d in t.calls && t.calls[d].pc.Loading? ==>
         (d in s.calls && s.calls[d] == t.calls[d]) || (!t.calls[d].pc.mine && t.calls[d].key in t.fell)
  }

  lemma NoNewLoaderKeepsSingleFlight(s: State, t: State)
    requires SingleFlight(s) && NoNewLoader(s, t)
    ensures SingleFlight(t)
  {
    forall d, k, e | LoadsKey(t, d, k, e) && k !in t.fell ensures k in t.inFlight && t.inFlight[k] == e {
      assert LoadsKey(s, d, k, e);
    }
  }

  lemma NewLoaderKeepsSingleFlight(s: State, t: State, c: nat, n: nat)
    requires SingleFlight(s) && NewLoader(s, t, c, n) && t.fell == s.fell && s.calls[c].key !in s.inFlight
    ensures SingleFlight(t)
  {
    forall d, k, e | LoadsKey(t, d, k, e) && k !in t.fell ensures k in t.inFlight && t.inFlight[k] == e {
      if d != c { assert LoadsKey(s, d, k, e); }
    }
  }

  lemma EnteredLoads(s: State, c: nat, t: State)
    requires c in s.calls && s.calls[c].pc.AtEntry? && t == Entered(s, c) && t.nextEvent != s.nextEvent
    ensures NewLoader(s, t, c, s.nextEvent) && t.fell == s.fell && s.calls[c].key !in s.inFlight
  {
  }

  lemma EnterKeepsSingleFlight(s: State, c: nat, t: State)
    requires SingleFlight(s) && c in s.calls && s.calls[c].pc.AtEntry? && t == Entered(s, c)
    ensures SingleFlight(t)
  {
    if t.nextEvent == s.nextEvent {
      assert NoNewLoader(s, t);
      NoNewLoaderKeepsSingleFlight(s, t);
    } else {
      EnteredLoads(s, c, t);
      NewLoaderKeepsSingleFlight(s, t, c, s.nextEvent);
    }
  }

  lemma OtherStepsKeepSingleFlight(s: State, a: Action)
    requires SingleFlight(s) && Enabled(s, a) && !a.Publish?
    ensures SingleFlight(Apply(s, a))
  {
    if a.Enter? {
      EnterKeepsSingleFlight(s, a.call, Entered(s, a.call));
    } else {
      StepKeepsSingleFlight(s, a);
    }
  }

  // Only call c moved, and not to a load of its own.
  lemma OneMoved(s: State, t: State, c: nat)
    requires SingleFlight(s) && t.inFlight == s.inFlight && s.fell <= t.fell && c in t.calls && t.calls == s.calls[c := t.calls[c]]
    requires t.calls[c].pc.Loading? ==> !t.calls[c].pc.mine && t.calls[c].key in t.fell
    ensures SingleFlight(t)
  {
    NoNewLoaderKeepsSingleFlight(s, t);
  }

  lemma LookKeepsSingleFlight(s: State, c: nat, t: State)
    requires SingleFlight(s) && c in s.calls && s.calls[c].pc.AtReread? && t == Looked(s, c)
    ensures SingleFlight(t)
  {
    LookMoves(s, c, t);
    OneMoved(s, t, c);
  }

  lemma StepKeepsSingleFlight(s: State, a: Action)
    requires SingleFlight(s) && Enabled(s, a) && !a.Publish? && !a.Enter?
    ensures SingleFlight(Apply(s, a))
  {
    if Outside(a) {
      NoNewLoaderKeepsSingleFlight(s, Apply(s, a));
    } else if a.Reread? {
      LookKeepsSingleFlight(s, a.call, Looked(s, a.call));
    } else {
      OneMoved(s, Apply(s, a), a.call);
    }
  }

  // ----- errors -----

  // A published error sits in the table or has been raised by one waiter, never both, never twice.
  ghost predicate ErrorsOnce(s: State) {
    && (forall k :: k in s.errors ==> Failed(s, s.errors[k], k))
    && (forall w :: w in s.raised ==> w in s.calls && s.calls[w].pc.Done? && Failed(s, s.raised[w], s.calls[w].key))
    && (forall k, w :: k in s.errors && w in s.raised ==> s.errors[k] != s.raised[w])
    && (forall v, w :: v in s.raised && w in s.raised && s.raised[v] == s.raised[w] ==> v == w)
  }

  // The call has published for this key (its load is over).
  predicate Failed(s: State, c: nat, k: Key) {
    c in s.calls && s.calls[c].key == k && (s.calls[c].pc.Setting? || s.calls[c].pc.Done?)
  }

  lemma FailedStays(s: State, a: Action, c: nat, k: Key)
    requires Failed(s, c, k) && Enabled(s, a)
    ensures Failed(Apply(s, a), c, k)
  {
    if !Outside(a) && a.call != c { OthersStay(s, a, c); }
  }

  lemma PublishKeepsErrors(s: State, c: nat, ok: bool)
    requires ErrorsOnce(s) && Enabled(s, Publish(c, ok))
    ensures ErrorsOnce(Apply(s, Publish(c, ok)))
  {
    var a := Publish(c, ok);
    forall k | k in s.errors ensures Failed(Apply(s, a), s.errors[k], k) { FailedStays(s, a, s.errors[k], k); }
    forall w | w in s.raised ensures Failed(Apply(s, a), s.raised[w], s.calls[w].key) { FailedStays(s, a, s.raised[w], s.calls[w].key); }
  }

  lemma OthersStay(s: State, a: Action, c: nat)
    requires c in s.calls && Enabled(s, a) && !Outside(a) && a.call != c
    ensures c in Apply(s, a).calls && Apply(s, a).calls[c] == s.calls[c]
  {
    match a
    case Begin(_, _, _, _) =>
    case Enter(_) =>
    case Publish(_, _) =>
    case Reread(_) =>
    case _ =>
  }

  lemma DoneStays(s: State, a: Action, c: nat)
    requires c in s.calls && s.calls[c].pc.Done? && Enabled(s, a)
    ensures c in Apply(s, a).calls && Apply(s, a).calls[c] == s.calls[c]
  {
    if !Outside(a) { OthersStay(s, a, c); }
  }

  lemma RereadKeepsErrors(s: State, c: nat)
    requires ErrorsOnce(s) && Enabled(s, Reread(c)) && !s.calls[c].stream && s.calls[c].key in s.errors
    ensures ErrorsOnce(Apply(s, Reread(c)))
  {
    var a, key := Reread(c), s.calls[c].key;
    var t := Apply(s, a);
    forall k | k in t.errors ensures Failed(t, t.errors[k], k) && t.errors[k] != s.errors[key] {
      assert Failed(s, s.errors[k], k) && Failed(s, s.errors[key], key);
      FailedStays(s, a, s.errors[k], k);
    }
    FailedStays(s, a, s.errors[key], key);
    forall w | w in s.raised ensures w != c && t.calls[w] == s.calls[w] && Failed(t, s.raised[w], s.calls[w].key) {
      DoneStays(s, a, w);
      FailedStays(s, a, s.raised[w], s.calls[w].key);
    }
  }

  lemma OtherStepsKeepErrors(s: State, t: State, a: Action)
    requires ErrorsOnce(s) && Enabled(s, a) && t == Apply(s, a)
    requires (t.errors == s.errors || t.errors == map[]) && t.raised == s.raised
    ensures ErrorsOnce(t)
  {
    forall k | k in s.errors ensures Failed(t, s.errors[k], k) { FailedStays(s, a, s.errors[k], k); }
    forall w | w in s.raised ensures w in t.calls && t.calls[w] == s.calls[w] && Failed(t, s.raised[w], s.calls[w].key) {
      DoneStays(s, a, w);
      FailedStays(s, a, s.raised[w], s.calls[w].key);
    }
  }

  // ----- all runs -----

  ghost predicate Inv(s: State) {
    Events(s) && SingleFlight(s) && ErrorsOnce(s)
  }

  lemma InvKept(s: State, a: Action)
    requires Inv(s) && Enabled(s, a)
    ensures Inv(Apply(s, a))
  {
    EventsKept(s, a);
    if a.Publish? {
      PublishKeepsSingleFlight(s, a.call, a.ok);
      PublishKeepsErrors(s, a.call, a.ok);
    } else {
      OtherStepsKeepSingleFlight(s, a);
      if a.Reread? && !s.calls[a.call].stream && s.calls[a.call].key in s.errors {
        RereadKeepsErrors(s, a.call);
      } else {
        OtherStepsKeepErrors(s, Apply(s, a), a);
      }
    }
  }

  lemma InvInductive()
    ensures Runs.Inductive(Init, Next, Inv)
  {
    forall s, t | Inv(s) && Next(s, t) ensures Inv(t) {
      var a :| Enabled(s, a) && t == Apply(s, a);
      InvKept(s, a);
    }
  }

  lemma Walk(s: State, a: Action)
    requires Runs.Reachable(Init, Next, s) && Enabled(s, a)
    ensures Runs.Reachable(Init, Next, Apply(s, a))
  {
    assert Next(s, Apply(s, a));
    Runs.ReachableStep(Init, Next, s, Apply(s, a));
  }

  // ----- what every interleaving guarantees -----

  // The event gets set within n steps of its maker alone.
  ghost predicate SetWithin(s: State, e: nat, n: nat)
    decreases n
  {
    e in s.events ||
    (n > 0 && e in s.maker && exists a: Action :: (a.Publish? || a.SetEvent?) && a.call == s.maker[e] && Enabled(s, a) && SetWithin(Apply(s, a), e, n - 1))
  }

  /** No lost wake-ups, even though a caller that fell through removes other loaders' entries from
      the in-flight table: a waiter's event is set, or its maker sets it in two steps of its own. */
  lemma WaitersAreWoken(s: State, c: nat)
    requires Runs.Reachable(Init, Next, s)
    requires c in s.calls && s.calls[c].pc.Waiting?
    ensures SetWithin(s, s.calls[c].pc.event, 2)
  {
    InvInductive();
    Runs.HoldsOnReachable(Init, Next, Inv);
    var e := s.calls[c].pc.event;
    assert Promised(s, e);
    if e !in s.events {
      var m := s.maker[e];
      var t := if s.calls[m].pc.Loading? then Apply(s, Publish(m, true)) else s;
      assert Enabled(t, SetEvent(m)) && e in Apply(t, SetEvent(m)).events;
      assert SetWithin(t, e, 1) by { assert SetWithin(Apply(t, SetEvent(m)), e, 0); }
      if s.calls[m].pc.Loading? { assert Enabled(s, Publish(m, true)) && SetWithin(Apply(s, Publish(m, true)), e, 1); }
      else { assert Enabled(s, SetEvent(m)) && SetWithin(Apply(s, SetEvent(m)), e, 1) by { assert e in Apply(s, SetEvent(m)).events; } }
    }
  }

  /** Single flight holds for a key exactly as long as promised: while no caller of that key has
      fallen through, its loader is alone and is the one in the table. */
  lemma OneLoaderUnlessFallThrough(s: State, k: Key)
    requires Runs.Reachable(Init, Next, s) && k !in s.fell
    ensures forall c, d, e, f :: LoadsKey(s, c, k, e) && LoadsKey(s, d, k, f) ==> c == d && e == f
    ensures forall c :: c in s.calls && s.calls[c].key == k && s.calls[c].pc.Loading? ==>
      s.calls[c].pc.mine && k in s.inFlight && s.inFlight[k] == s.calls[c].pc.event
  {
    InvInductive();
    Runs.HoldsOnReachable(Init, Next, Inv);
    forall c, d, e, f | LoadsKey(s, c, k, e) && LoadsKey(s, d, k, f) ensures c == d && e == f {
      assert Owes(s, c, e) && Owes(s, d, f);
    }
    forall c | c in s.calls && s.calls[c].key == k && s.calls[c].pc.Loading? ensures s.calls[c].pc.mine && k in s.inFlight && s.inFlight[k] == s.calls[c].pc.event {
      assert s.calls[c].pc.mine;
      assert LoadsKey(s, c, k, s.calls[c].pc.event);
    }
  }

  /** The error of one failed load is raised in at most one waiter, in every run: the promise that
      all waiters get the same error can only be kept when at most one caller waits. */
  lemma ErrorReachesOneWaiter(s: State, v: nat, w: nat)
    requires Runs.Reachable(Init, Next, s)
    requires v in s.raised && w in s.raised && s.raised[v] == s.raised[w]
    ensures v == w
  {
    InvInductive();
    Runs.HoldsOnReachable(Init, Next, Inv);
  }

  // ----- who raises which error -----

  ghost predicate Takes(run: seq<State>, i: nat, a: Action) {
    0 < i < |run| && Enabled(run[i - 1], a) && run[i] == Apply(run[i - 1], a)
  }

  // Step i publishes the failure of call c's load of key k.
  ghost predicate FailsAt(run: seq<State>, i: nat, c: nat, k: Key) {
    Takes(run, i, Publish(c, false)) && run[i - 1].calls[c].key == k
  }

  // Step i is waiter w of key k, woken, looking for an error and a value.
  ghost predicate RereadsAt(run: seq<State>, i: nat, w: nat, k: Key) {
    Takes(run, i, Reread(w)) && run[i - 1].calls[w].key == k && !run[i - 1].calls[w].stream
  }

  ghost predicate ClearsAt(run: seq<State>, i: nat) { Takes(run, i, ClearAll) }

  // Step i takes the key's error out of the table or replaces it.
  ghost predicate Disturbs(run: seq<State>, i: nat, k: Key) {
    (exists w :: RereadsAt(run, i, w, k)) || (exists c :: FailsAt(run, i, c, k)) || ClearsAt(run, i)
  }

  ghost predicate Undisturbed(run: seq<State>, i: nat, j: nat, k: Key) {
    forall m :: i < m < j ==> !Disturbs(run, m, k)
  }

  ghost predicate InTable(s: State, k: Key, c: nat) { k in s.errors && s.errors[k] == c }

  // Call c failed, and its error has not been disturbed before step j.
  ghost predicate Untaken(run: seq<State>, i: nat, j: nat, c: nat, k: Key) {
    i < j && FailsAt(run, i, c, k) && Undisturbed(run, i, j, k)
  }

  ghost predicate Remains(run: seq<State>, j: nat, c: nat, k: Key) { exists i :: Untaken(run, i, j, c, k) }

  lemma FailureStored(run: seq<State>, i: nat, c: nat, k: Key)
    requires FailsAt(run, i, c, k)
    ensures forall d :: InTable(run[i], k, d) <==> d == c
  {
  }

  lemma RereadEmpties(run: seq<State>, i: nat, w: nat, k: Key)
    requires RereadsAt(run, i, w, k)
    ensures k !in run[i].errors
  {
  }

  lemma StepKeepsError(s: State, a: Action, k: Key)
    requires Enabled(s, a)
    requires (a.Publish? && !a.ok) || (a.Reread? && !s.calls[a.call].stream) ==> s.calls[a.call].key != k
    requires !a.ClearAll?
    ensures k in Apply(s, a).errors <==> k in s.errors
    ensures k in s.errors ==> Apply(s, a).errors[k] == s.errors[k]
  {
    match a
    case Enter(_) =>
    case Reread(_) =>
    case Publish(_, _) =>
    case _ =>
  }

  lemma QuietStep(run: seq<State>, i: nat, k: Key)
    requires Runs.Path(Next, run) && 0 < i < |run| && !Disturbs(run, i, k)
    ensures forall c :: InTable(run[i], k, c) <==> InTable(run[i - 1], k, c)
  {
    assert Runs.StepAt(Next, run, i);
    var a: Action :| Enabled(run[i - 1], a) && run[i] == Apply(run[i - 1], a);
    assert Takes(run, i, a);
    if a.Publish? && !a.ok { assert !FailsAt(run, i, a.call, k); }
    if a.Reread? { assert !RereadsAt(run, i, a.call, k); }
    assert !ClearsAt(run, i);
    StepKeepsError(run[i - 1], a, k);
  }

  /** The error table, in every run: a key's entry is call c's error if and only if c failed at some step
      since which no waiter of the key looked, no other load of the key failed and nobody cleared the cache. */
  lemma {:induction false} ErrorInTableIff(run: seq<State>, n: nat, c: nat, k: Key)
    requires Runs.IsRun(Init, Next, run) && n < |run|
    ensures InTable(run[n], k, c) <==> Remains(run, n + 1, c, k)
  {
    if n > 0 {
      if w :| RereadsAt(run, n, w, k) {
        RereadEmpties(run, n, w, k);
        LastStepDecides(run, n, c, k);
      } else if d :| FailsAt(run, n, d, k) {
        FailureStored(run, n, d, k);
        LastStepDecides(run, n, c, k);
      } else if ClearsAt(run, n) {
        LastStepDecides(run, n, c, k);
        FailureDoesNotClear(run, n, c, k);
      } else {
        ErrorInTableIff(run, n - 1, c, k);
        QuietStep(run, n, k);
        UntakenOneMore(run, n, c, k);
      }
    }
  }

  lemma FailureDoesNotClear(run: seq<State>, n: nat, c: nat, k: Key)
    requires ClearsAt(run, n)
    ensures k !in run[n].errors && !FailsAt(run, n, c, k)
  {
    if FailsAt(run, n, c, k) { FailureStored(run, n, c, k); }
  }

  lemma LastStepDecides(run: seq<State>, n: nat, c: nat, k: Key)
    requires Disturbs(run, n, k)
    ensures Remains(run, n + 1, c, k) <==> FailsAt(run, n, c, k)
  {
    if FailsAt(run, n, c, k) { assert Untaken(run, n, n + 1, c, k); }
  }

  lemma UntakenOneMore(run: seq<State>, n: nat, c: nat, k: Key)
    requires !Disturbs(run, n, k)
    ensures Remains(run, n + 1, c, k) <==> Remains(run, n, c, k)
  {
    var next := n + 1;
    if i :| Untaken(run, i, next, c, k) {
      assert i != n;
      assert Untaken(run, i, n, c, k);
    }
    if i :| Untaken(run, i, n, c, k) { assert Untaken(run, i, next, c, k); }
  }

  lemma RereadRaises(run: seq<State>, j: nat, w: nat, k: Key, c: nat)
    requires RereadsAt(run, j, w, k) && ErrorsOnce(run[j - 1])
    ensures (w in run[j].raised && run[j].raised[w] == c) <==> InTable(run[j - 1], k, c)
  {
  }

  /** Exactly which error a woken waiter raises: that of call c if and only if c's load of the key failed
      earlier and, since then, no waiter of the key looked, no other load of it failed and nobody cleared
      the cache.  Nothing is asked of the load the waiter waited for: its success does not clear an error. */
  lemma RaisesIff(run: seq<State>, j: nat, w: nat, k: Key, c: nat)
    requires Runs.IsRun(Init, Next, run) && RereadsAt(run, j, w, k)
    ensures (w in run[j].raised && run[j].raised[w] == c) <==> Remains(run, j, c, k)
  {
    InvInductive();
    Runs.HoldsOnRuns(Init, Next, Inv, run, j - 1);
    RereadRaises(run, j, w, k, c);
    ErrorInTableIff(run, j - 1, c, k);
  }

  lemma {:induction false} PublishedFrom(run: seq<State>, i: nat, n: nat, c: nat, ok: bool)
    requires Runs.Path(Next, run) && Takes(run, i, Publish(c, ok)) && i <= n < |run|
    ensures Failed(run[n], c, run[i - 1].calls[c].key)
  {
    if n > i {
      PublishedFrom(run, i, n - 1, c, ok);
      assert Runs.StepAt(Next, run, n);
      var a: Action :| Enabled(run[n - 1], a) && run[n] == Apply(run[n - 1], a);
      FailedStays(run[n - 1], a, c, run[i - 1].calls[c].key);
    }
  }

  lemma PublishesOnce(run: seq<State>, i: nat, j: nat, c: nat, ok: bool, okay: bool)
    requires Runs.Path(Next, run) && Takes(run, i, Publish(c, ok)) && Takes(run, j, Publish(c, okay))
    ensures i == j && ok == okay
  {
    if i < j { PublishedFrom(run, i, j - 1, c, ok); }
    if j < i { PublishedFrom(run, j, i - 1, c, okay); }
    assert run[i].calls[c].pc.ok == ok && run[j].calls[c].pc.ok == okay;
  }

  /** A failure published at step i reaches a waiter that looks at step j, its own or one of another load,
      if and only if no other waiter of the key looked, no other load of it failed and nobody cleared the
      cache in between. */
  lemma FailureReachesIff(run: seq<State>, i: nat, j: nat, c: nat, w: nat, k: Key)
    requires Runs.IsRun(Init, Next, run) && i < j && FailsAt(run, i, c, k) && RereadsAt(run, j, w, k)
    ensures (w in run[j].raised && run[j].raised[w] == c) <==> Undisturbed(run, i, j, k)
  {
    RaisesIff(run, j, w, k, c);
    if h :| Untaken(run, h, j, c, k) {
      PublishesOnce(run, h, i, c, false, false);
    }
    if Undisturbed(run, i, j, k) { assert Untaken(run, i, j, c, k); }
  }

  /** So the second of two waiters that look after a failure never raises its error, whatever it waited
      for: that every waiter gets the error is kept if and only if one waiter looks. */
  lemma SecondNeverRaises(run: seq<State>, i: nat, h: nat, j: nat, c: nat, v: nat, w: nat, k: Key)
    requires Runs.IsRun(Init, Next, run) && i < h < j && FailsAt(run, i, c, k) && RereadsAt(run, h, v, k) && RereadsAt(run, j, w, k)
    ensures !(w in run[j].raised && run[j].raised[w] == c)
  {
    FailureReachesIff(run, i, j, c, w, k);
    assert Disturbs(run, h, k);
  }

  /** A waiter that is the only one to look after its own load failed raises that load's error if and only
      if no other load of the key failed and nobody cleared the cache before it looked. */
  lemma OnlyWaiterRaisesIff(run: seq<State>, i: nat, j: nat, c: nat, w: nat, k: Key)
    requires Runs.IsRun(Init, Next, run) && i < j && FailsAt(run, i, c, k) && RereadsAt(run, j, w, k)
    requires run[i - 1].calls[c].pc.mine && w in run[i - 1].calls && run[i - 1].calls[w].pc == Waiting(run[i - 1].calls[c].pc.event)
    requires forall m, v :: i < m < j ==> !RereadsAt(run, m, v, k)
    ensures (w in run[j].raised && run[j].raised[w] == c) <==>
      (forall m, d :: i < m < j ==> !FailsAt(run, m, d, k)) && forall m :: i < m < j ==> !ClearsAt(run, m)
  {
    FailureReachesIff(run, i, j, c, w, k);
    if Undisturbed(run, i, j, k) {
      forall m, d | i < m < j ensures !FailsAt(run, m, d, k) { assert !Disturbs(run, m, k); }
      forall m | i < m < j ensures !ClearsAt(run, m) { assert !Disturbs(run, m, k); }
    }
  }

  /** A waiter whose load succeeded, at any step before it looks, raises an error if and only if some load
      of the key failed earlier and its error was still untaken. */
  lemma StaleErrorIff(run: seq<State>, g: nat, j: nat, d: nat, w: nat, k: Key)
    requires Runs.IsRun(Init, Next, run) && g < j && Takes(run, g, Publish(d, true)) && run[g - 1].calls[d].key == k
    requires RereadsAt(run, j, w, k)
    ensures w in run[j].raised <==> exists c :: Remains(run, j, c, k)
    ensures w in run[j].raised ==> run[j].raised[w] != d
  {
    if w in run[j].raised {
      var c := run[j].raised[w];
      RaisesIff(run, j, w, k, c);
      var i :| Untaken(run, i, j, c, k);
      if c == d { PublishesOnce(run, i, g, d, false, true); }
    }
    if c :| Remains(run, j, c, k) { RaisesIff(run, j, w, k, c); }
  }

  // ----- whose value a call returns -----

  ghost predicate Step(s: State, a: Action, t: State) { Enabled(s, a) && t == Apply(s, a) }

  // A step that stores a value under the key: a load that succeeds, or another route.
  predicate Puts(s: State, a: Action, k: Key, load: nat) {
    || (a.Publish? && a.ok && a.call in s.calls && !s.calls[a.call].stream && s.calls[a.call].key == k && load == a.call)
    || (a.Put? && a.key == k && load == a.load)
  }

  // A step that stores something under the key, or takes it out.
  predicate Touches(s: State, a: Action, k: Key) {
    || (a.Publish? && a.ok && a.call in s.calls && !s.calls[a.call].stream && s.calls[a.call].key == k)
    || (a.Put? && a.key == k) || (a.Drop? && k in a.keys) || a.ClearAll?
  }

  // Step i stored the value of a load under the key, and no step up to j has touched the key since.
  ghost predicate Stored(run: seq<State>, acts: seq<Action>, i: int, j: nat, k: Key, load: nat)
    requires |run| == |acts| && j < |run|
  {
    0 < i <= j && Puts(run[i - 1], acts[i], k, load) && forall m :: i < m <= j ==> !Touches(run[m - 1], acts[m], k)
  }

  ghost predicate SameEntry(s: State, t: State, k: Key) {
    (k in s.cache <==> k in t.cache) && (k in s.cache ==> t.cache[k] == s.cache[k])
  }

  // Entering, looking and waking leave the cache alone.
  lemma CacheKept(s: State, a: Action)
    requires Enabled(s, a) && !a.Publish? && !a.Put? && !a.Drop? && !a.ClearAll?
    ensures Apply(s, a).cache == s.cache
  {
    match a
    case Enter(_) =>
    case Reread(_) =>
    case SetEvent(_) =>
    case _ =>
  }

  lemma EntryStep(s: State, a: Action, t: State, k: Key)
    requires Step(s, a, t)
    ensures !Touches(s, a, k) ==> SameEntry(s, t, k)
    ensures forall load :: Puts(s, a, k, load) ==> k in t.cache && t.cache[k] == Entry(t.now, load)
    ensures Touches(s, a, k) && k in t.cache ==> Puts(s, a, k, t.cache[k].load) && t.cache[k].ts == t.now
  {
    match a
    case Publish(_, _) =>
    case Put(_, _) =>
    case Drop(_) =>
    case ClearAll =>
    case _ => CacheKept(s, a);
  }

  // What the cache holds for a key is what the last step that touched it stored, with that step's time.
  lemma {:induction false} EntryIsLastStored(run: seq<State>, acts: seq<Action>, j: nat, k: Key) returns (i: nat)
    requires Runs.Trace(Init, Step, run, acts) && j < |run| && k in run[j].cache
    ensures Stored(run, acts, i, j, k, run[j].cache[k].load) && run[i].now == run[j].cache[k].ts
  {
    assert Runs.ActAt(Step, run, acts, j);
    EntryStep(run[j - 1], acts[j], run[j], k);
    i := j;
    if !Touches(run[j - 1], acts[j], k) {
      i := EntryIsLastStored(run, acts, j - 1, k);
    }
  }

  // And what was stored last is there.
  lemma {:induction false} LastStoredIsEntry(run: seq<State>, acts: seq<Action>, i: int, j: nat, k: Key, load: nat)
    requires Runs.Trace(Init, Step, run, acts) && j < |run| && Stored(run, acts, i, j, k, load)
    ensures k in run[j].cache && run[j].cache[k] == Entry(run[i].now, load)
  {
    assert Runs.ActAt(Step, run, acts, j);
    EntryStep(run[j - 1], acts[j], run[j], k);
    if i < j {
      assert Stored(run, acts, i, j - 1, k, load);
      LastStoredIsEntry(run, acts, i, j - 1, k, load);
    }
  }

  // What the entering caller does about the key.
  predicate Returns(s: State, t: State, c: nat, load: nat) {
    c in t.calls && t.calls[c].pc.Done? && t.answered == s.answered[c := load]
  }

  /** What is stored is served.  A caller that enters returns a load's value at once if and only if that value
      was stored under the key less than the caller's TTL ago, and no step has stored or taken out the key
      since.  Otherwise it waits if a load is under way, and loads if none is. */
  lemma EntersServedIff(run: seq<State>, acts: seq<Action>, j: nat, c: nat, load: nat)
    requires Runs.Trace(Init, Step, run, acts) && j < |run| && Enabled(run[j], Enter(c)) && !run[j].calls[c].stream
    ensures var call, t := run[j].calls[c], Apply(run[j], Enter(c));
      && (Returns(run[j], t, c, load) <==> exists i :: Stored(run, acts, i, j, call.key, load) && run[j].now - run[i].now < call.ttl)
      && (t.calls[c].pc.Done? || (t.answered == run[j].answered
            && if call.key in run[j].inFlight then t.calls[c].pc == Waiting(run[j].inFlight[call.key]) else t.calls[c].pc.Loading?))
  {
    var call, s := run[j].calls[c], run[j];
    if call.key in s.cache { var _ := EntryIsLastStored(run, acts, j, call.key); }
    forall i | Stored(run, acts, i, j, call.key, load) ensures call.key in s.cache && s.cache[call.key] == Entry(run[i].now, load) {
      LastStoredIsEntry(run, acts, i, j, call.key, load);
    }
    EnterReturnsIff(s, c, load);
  }

  lemma EnterReturnsIff(s: State, c: nat, load: nat)
    requires c in s.calls && s.calls[c].pc.AtEntry? && !s.calls[c].stream
    ensures var call, t := s.calls[c], Entered(s, c);
      && (Returns(s, t, c, load) <==> call.key in s.cache && s.now - s.cache[call.key].ts < call.ttl && s.cache[call.key].load == load)
      && (t.calls[c].pc.Done? || (t.answered == s.answered
            && if call.key in s.inFlight then t.calls[c].pc == Waiting(s.inFlight[call.key]) else t.calls[c].pc.Loading?))
  {
    if Returns(s, Entered(s, c), c, load) { assert Entered(s, c).answered[c] == load; }
  }

  /** A woken waiter that finds no error returns a load's value if and only if that value was stored under
      the key, however long ago, and no step has stored or taken out the key since; with no such value it
      loads itself. */
  lemma WaiterServedIff(run: seq<State>, acts: seq<Action>, j: nat, c: nat, load: nat)
    requires Runs.Trace(Init, Step, run, acts) && j < |run| && Enabled(run[j], Reread(c)) && !run[j].calls[c].stream
    requires run[j].calls[c].key !in run[j].errors
    ensures var call, t := run[j].calls[c], Apply(run[j], Reread(c));
      && (Returns(run[j], t, c, load) <==> exists i :: Stored(run, acts, i, j, call.key, load))
      && (t.calls[c].pc.Done? || (t.answered == run[j].answered && t.calls[c].pc == Loading(call.pc.event, false)))
  {
    var k := run[j].calls[c].key;
    if k in run[j].cache { var _ := EntryIsLastStored(run, acts, j, k); }
    forall i | Stored(run, acts, i, j, k, load) ensures k in run[j].cache && run[j].cache[k] == Entry(run[i].now, load) {
      LastStoredIsEntry(run, acts, i, j, k, load);
    }
    LookReturnsIff(run[j], c, load);
  }

  lemma LookReturnsIff(s: State, c: nat, load: nat)
    requires c in s.calls && s.calls[c].pc.AtReread? && !s.calls[c].stream && s.calls[c].key !in s.errors
    ensures var call, t := s.calls[c], Looked(s, c);
      && (Returns(s, t, c, load) <==> call.key in s.cache && s.cache[call.key].load == load)
      && (t.calls[c].pc.Done? || (t.answered == s.answered && t.calls[c].pc == Loading(call.pc.event, false)))
  {
    if Returns(s, Looked(s, c), c, load) { assert Looked(s, c).answered[c] == load; }
  }

  // How a call stands: whether it returned a value, raised a waiter's error, failed itself, or timed out.
  predicate Stands(call: Call, answered: bool, raised: bool, failed: bool, timedOut: bool) {
    match call.pc
    case Done => !call.stream ==> (answered <==> !raised && !failed && !timedOut)
    case Setting(_, _, ok) => !answered && !raised && !timedOut && (failed <==> !ok)
    case _ => !answered && !raised && !timedOut && !failed
  }

  ghost predicate CallStands(s: State, c: nat, failed: bool, timedOut: bool) {
    if c in s.calls then Stands(s.calls[c], c in s.answered, c in s.raised, failed, timedOut)
    else c !in s.answered && c !in s.raised && !failed && !timedOut
  }

  lemma StandsStep(s: State, a: Action, t: State, c: nat, failed: bool, timedOut: bool)
    requires Step(s, a, t) && CallStands(s, c, failed, timedOut)
    ensures CallStands(t, c, failed || a == Publish(c, false), timedOut || a == TimeOut(c))
  {
    if Outside(a) || a.call != c { OthersStand(s, a, t, c); } else { OwnStepStands(s, a, t, c, failed, timedOut); }
  }

  // A step of call c, which leaves the records of other calls alone.
  ghost predicate OnlyOf(s: State, t: State, c: nat) {
    && c in t.calls && t.calls == s.calls[c := t.calls[c]]
    && (t.answered == s.answered || (c in t.answered && t.answered == s.answered[c := t.answered[c]]))
    && (t.raised == s.raised || (c in t.raised && t.raised == s.raised[c := t.raised[c]]))
  }

  lemma EnterOnlyOf(s: State, c: nat, t: State)
    requires c in s.calls && t == Entered(s, c)
    ensures OnlyOf(s, t, c)
  {
  }

  lemma LookOnlyOf(s: State, c: nat, t: State)
    requires c in s.calls && s.calls[c].pc.AtReread? && t == Looked(s, c)
    ensures OnlyOf(s, t, c)
  {
    LookMoves(s, c, t);
    LookRecords(s, c, t);
  }

  lemma LookRecords(s: State, c: nat, t: State)
    requires c in s.calls && s.calls[c].pc.AtReread? && t == Looked(s, c)
    ensures t.answered == s.answered || (c in t.answered && t.answered == s.answered[c := t.answered[c]])
    ensures t.raised == s.raised || (c in t.raised && t.raised == s.raised[c := t.raised[c]])
  {
  }

  lemma StepOnlyOf(s: State, a: Action)
    requires Enabled(s, a) && !Outside(a)
    ensures OnlyOf(s, Apply(s, a), a.call)
  {
    match a
    case Enter(d) => EnterOnlyOf(s, d, Entered(s, d));
    case Reread(d) => LookOnlyOf(s, d, Looked(s, d));
    case Publish(_, _) =>
    case SetEvent(_) =>
    case _ =>
  }

  lemma OthersStand(s: State, a: Action, t: State, c: nat)
    requires Step(s, a, t) && (Outside(a) || a.call != c)
    ensures (c in s.calls <==> c in t.calls) && (c in s.calls ==> t.calls[c] == s.calls[c])
    ensures (c in s.answered <==> c in t.answered) && (c in s.raised <==> c in t.raised)
  {
    if !Outside(a) {
      StepOnlyOf(s, a);
      OnlyOfSkips(s, t, a.call, c);
    }
  }

  lemma OnlyOfSkips(s: State, t: State, d: nat, c: nat)
    requires OnlyOf(s, t, d) && c != d
    ensures (c in s.calls <==> c in t.calls) && (c in s.calls ==> t.calls[c] == s.calls[c])
    ensures (c in s.answered <==> c in t.answered) && (c in s.raised <==> c in t.raised)
  {
  }

  lemma EnterStands(s: State, c: nat, t: State, failed: bool, timedOut: bool)
    requires c in s.calls && s.calls[c].pc.AtEntry? && t == Entered(s, c) && CallStands(s, c, failed, timedOut)
    ensures CallStands(t, c, failed, timedOut)
  {
  }

  // A look answers, raises, or does neither, by what it finds.
  lemma LookFinds(s: State, c: nat, t: State)
    requires c in s.calls && s.calls[c].pc.AtReread? && t == Looked(s, c) && !s.calls[c].stream
    ensures s.calls[c].key in s.errors ==> t.calls[c].pc.Done? && c in t.raised && t.answered == s.answered
    ensures s.calls[c].key !in s.errors && s.calls[c].key in s.cache ==> t.calls[c].pc.Done? && c in t.answered && t.raised == s.raised
    ensures s.calls[c].key !in s.errors && s.calls[c].key !in s.cache ==> t.calls[c].pc.Loading? && t.answered == s.answered && t.raised == s.raised
  {
  }

  lemma LookStands(s: State, c: nat, t: State, failed: bool, timedOut: bool)
    requires c in s.calls && s.calls[c].pc.AtReread? && t == Looked(s, c) && CallStands(s, c, failed, timedOut)
    ensures CallStands(t, c, failed, timedOut)
  {
    LookMoves(s, c, t);
    if !s.calls[c].stream { LookFinds(s, c, t); }
  }

  lemma OwnStepStands(s: State, a: Action, t: State, c: nat, failed: bool, timedOut: bool)
    requires Step(s, a, t) && !Outside(a) && a.call == c && CallStands(s, c, failed, timedOut)
    ensures CallStands(t, c, failed || a == Publish(c, false), timedOut || a == TimeOut(c))
  {
    match a
    case Enter(_) => EnterStands(s, c, Entered(s, c), failed, timedOut);
    case Reread(_) => LookStands(s, c, Looked(s, c), failed, timedOut);
    case Publish(_, _) =>
    case SetEvent(_) =>
    case _ =>
  }

  lemma {:induction false} CallStandsThere(run: seq<State>, acts: seq<Action>, j: nat, c: nat)
    requires Runs.Trace(Init, Step, run, acts) && j < |run|
    ensures CallStands(run[j], c, Runs.Taken(acts, j, Publish(c, false)), Runs.Taken(acts, j, TimeOut(c)))
  {
    if j > 0 {
      CallStandsThere(run, acts, j - 1, c);
      assert Runs.ActAt(Step, run, acts, j);
      Runs.TakenNext(acts, j, Publish(c, false));
      Runs.TakenNext(acts, j, TimeOut(c));
      StandsStep(run[j - 1], acts[j], run[j], c, Runs.Taken(acts, j - 1, Publish(c, false)), Runs.Taken(acts, j - 1, TimeOut(c)));
    }
  }

  /** Every finished call has returned a value, unless it raised the error of a load it waited for, its own
      load raised, or it waited too long. */
  lemma FinishedReturnsIff(run: seq<State>, acts: seq<Action>, j: nat, c: nat)
    requires Runs.Trace(Init, Step, run, acts) && j < |run| && c in run[j].calls && run[j].calls[c].pc.Done? && !run[j].calls[c].stream
    ensures c in run[j].answered <==>
            c !in run[j].raised && !Runs.Taken(acts, j, Publish(c, false)) && !Runs.Taken(acts, j, TimeOut(c))
  {
    CallStandsThere(run, acts, j, c);
  }

  // ----- what some interleavings do -----

  // Call 0 loads key 0 under event 0 while call 1 waits for it.
  lemma LoaderAndWaiter() returns (s: State)
    ensures Runs.Reachable(Init, Next, s)
    ensures s == State(0, map[], map[0 := 0], map[], {}, map[0 := Call(0, 60, false, Loading(0, true)), 1 := Call(0, 60, false, Waiting(0))], 1,
                       map[0 := 0], {}, map[], map[])
  {
    s := State(0, map[], map[], map[], {}, map[], 0, map[], {}, map[], map[]);
    Runs.ReachableInit(Init, Next, s);
    Walk(s, Begin(0, 0, 60, false)); s := Apply(s, Begin(0, 0, 60, false));
    Walk(s, Enter(0)); s := Apply(s, Enter(0));
    Walk(s, Begin(1, 0, 60, false)); s := Apply(s, Begin(1, 0, 60, false));
    Walk(s, Enter(1)); s := Apply(s, Enter(1));
  }

  // Call 1 has fallen through: call 0's value was dropped before call 1 looked.
  lemma FallenThrough() returns (s: State)
    ensures Runs.Reachable(Init, Next, s)
    ensures s == State(0, map[], map[], map[], {0}, map[0 := Call(0, 60, false, Done), 1 := Call(0, 60, false, Loading(0, false))], 1,
                       map[0 := 0], {0}, map[], map[0 := 0])
  {
    s := LoaderAndWaiter();
    Walk(s, Publish(0, true)); s := Apply(s, Publish(0, true));
    Walk(s, SetEvent(0)); s := Apply(s, SetEvent(0));
    Walk(s, Drop({0})); s := Apply(s, Drop({0}));
    Walk(s, Wake(1)); s := Apply(s, Wake(1));
    Walk(s, Reread(1)); s := Apply(s, Reread(1));
  }

  /** After a fall-through two calls can each be the loader of one key, each with its own event. */
  lemma FallThroughBreaksSingleFlight() returns (s: State)
    ensures Runs.Reachable(Init, Next, s)
    ensures LoadsKey(s, 2, 0, 1) && LoadsKey(s, 3, 0, 2)
  {
    s := FallenThrough();
    Walk(s, Begin(2, 0, 60, false)); s := Apply(s, Begin(2, 0, 60, false));
    Walk(s, Enter(2)); s := Apply(s, Enter(2));
    Walk(s, Publish(1, false)); s := Apply(s, Publish(1, false));
    Walk(s, Begin(3, 0, 60, false)); s := Apply(s, Begin(3, 0, 60, false));
    Walk(s, Enter(3)); s := Apply(s, Enter(3));
  }

  /** A load fails while call 1 waits for it; nobody else raised its error yet call 1 can time out,
      and a later caller whose own load succeeded for it then raises the old error. */
  lemma OldErrorAfterSuccess() returns (s: State)
    ensures Runs.Reachable(Init, Next, s)
    ensures 3 in s.raised && s.raised[3] == 0 && 1 in s.maker && s.maker[1] == 2
    ensures 0 in s.cache && s.cache[0].load == 2
  {
    s := LoaderAndWaiter();
    Walk(s, TimeOut(1)); s := Apply(s, TimeOut(1));
    Walk(s, Publish(0, false)); s := Apply(s, Publish(0, false));
    Walk(s, Begin(2, 0, 60, false)); s := Apply(s, Begin(2, 0, 60, false));
    Walk(s, Enter(2)); s := Apply(s, Enter(2));
    s := SecondLoadSucceeds(s);
  }

  lemma SecondLoadSucceeds(s0: State) returns (s: State)
    requires Runs.Reachable(Init, Next, s0) && 3 !in s0.calls
    requires 2 in s0.calls && s0.calls[2] == Call(0, 60, false, Loading(1, true)) && s0.inFlight == map[0 := 1] && s0.cache == map[]
    requires s0.errors == map[0 := 0] && 1 in s0.maker && s0.maker[1] == 2
    ensures Runs.Reachable(Init, Next, s)
    ensures 3 in s.raised && s.raised[3] == 0 && 1 in s.maker && s.maker[1] == 2
    ensures 0 in s.cache && s.cache[0].load == 2
  {
    s := s0;
    Walk(s, Begin(3, 0, 60, false)); s := Apply(s, Begin(3, 0, 60, false));
    Walk(s, Enter(3)); s := Apply(s, Enter(3));
    Walk(s, Publish(2, true)); s := Apply(s, Publish(2, true));
    Walk(s, SetEvent(2)); s := Apply(s, SetEvent(2));
    Walk(s, Wake(3)); s := Apply(s, Wake(3));
    Walk(s, Reread(3)); s := Apply(s, Reread(3));
  }

  /** Two callers wait on one load that fails: the first raises its error, the second does not and
      loads again.  This is where the code departs from its own description. */
  lemma SecondWaiterGetsNoError() returns (s: State)
    ensures Runs.Reachable(Init, Next, s)
    ensures 1 in s.raised && s.raised[1] == 0
    ensures 2 in s.calls && s.calls[2].pc == Loading(0, false)
  {
    s := LoaderAndWaiter();
    Walk(s, Begin(2, 0, 60, false)); s := Apply(s, Begin(2, 0, 60, false));
    Walk(s, Enter(2)); s := Apply(s, Enter(2));
    Walk(s, Publish(0, false)); s := Apply(s, Publish(0, false));
    Walk(s, SetEvent(0)); s := Apply(s, SetEvent(0));
    Walk(s, Wake(1)); s := Apply(s, Wake(1));
    Walk(s, Reread(1)); s := Apply(s, Reread(1));
    Walk(s, Wake(2)); s := Apply(s, Wake(2));
    Walk(s, Reread(2)); s := Apply(s, Reread(2));
  }

  /** A load fails, the cache is cleared, and its only waiter looks: it raises nothing and loads again. */
  lemma ClearLosesError() returns (s: State)
    ensures Runs.Reachable(Init, Next, s)
    ensures s.raised == map[] && s.errors == map[] && s.calls.Keys == {0, 1} && s.calls[1].pc == Loading(0, false)
  {
    s := LoaderAndWaiter();
    Walk(s, Publish(0, false)); s := Apply(s, Publish(0, false));
    Walk(s, SetEvent(0)); s := Apply(s, SetEvent(0));
    Walk(s, ClearAll); s := Apply(s, ClearAll);
    Walk(s, Wake(1)); s := Apply(s, Wake(1));
    Walk(s, Reread(1)); s := Apply(s, Reread(1));
  }

  /** The cache at work: with a TTL of 60 a value loaded at time 0 is returned at time 59 and loaded again at
      time 60. */
  lemma ServedUntilExpiry() returns (served: State, again: State)
    ensures Runs.Reachable(Init, Next, served) && served.now == 59 && 2 in served.answered && served.answered[2] == 0
    ensures Runs.Reachable(Init, Next, again) && again.now == 60 && 3 in again.calls && again.calls[3].pc.Loading?
  {
    var s := LoaderAndWaiter();
    Walk(s, Publish(0, true)); s := Apply(s, Publish(0, true));
    Walk(s, Tick(59)); s := Apply(s, Tick(59));
    Walk(s, Begin(2, 0, 60, false)); s := Apply(s, Begin(2, 0, 60, false));
    Walk(s, Enter(2)); served := Apply(s, Enter(2));
    Walk(served, Tick(60)); s := Apply(served, Tick(60));
    Walk(s, Begin(3, 0, 60, false)); s := Apply(s, Begin(3, 0, 60, false));
    Walk(s, Enter(3)); again := Apply(s, Enter(3));
  }

  // ----- host scoping of keys -----

  function Scoped(key: string, host: string): string {
    if host == "local" then key else "host:" + host + ":" + key
  }

  lemma SplitsAtColon(a: string, x: string, b: string, y: string)
    requires ':' !in a && ':' !in b && a + ":" + x == b + ":" + y
    ensures a == b && x == y
  {
    var l, r := a + ":" + x, b + ":" + y;
    assert l[|a|] == ':' && r[|b|] == ':';
    assert forall i :: 0 <= i < |a| ==> l[i] == a[i] && a[i] in a;
    assert forall i :: 0 <= i < |b| ==> r[i] == b[i] && b[i] in b;
    assert |a| == |b|;
    assert a == l[..|a|] && b == r[..|a|];
    assert x == l[|a| + 1..] && y == r[|a| + 1..];
  }

  lemma RemotePrefixMatches(j: string, g: string, k: string, h: string)
    requires ':' !in g && ':' !in h && "host:" + g + ":" + j == "host:" + h + ":" + k
    ensures g == h && j == k
  {
    var l, r := "host:" + g + ":" + j, "host:" + h + ":" + k;
    assert g + ":" + j == l[5..] && h + ":" + k == r[5..];
    SplitsAtColon(g, j, h, k);
  }

  /** Remote scans never reuse local data, exactly when no local key spells out a remote one: for
      host ids without a colon two scoped keys collide only if they are the same key of the same
      host, or one is local and is literally the other's scoped form. */
  lemma ScopedKeysCollideExactly(j: string, g: string, k: string, h: string)
    requires ':' !in g && ':' !in h
    ensures Scoped(j, g) == Scoped(k, h) <==>
      || (j == k && g == h)
      || (g == "local" && h != "local" && j == Scoped(k, h))
      || (h == "local" && g != "local" && k == Scoped(j, g))
  {
    if g != "local" && h != "local" && Scoped(j, g) == Scoped(k, h) {
      RemotePrefixMatches(j, g, k, h);
    }
  }
}
