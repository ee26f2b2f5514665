/** Headless sessions: request threads accept messages and stop sessions under `_LOCK`, while one
    event loop runs a task per session.  A message goes from `submit` to a scheduled callback, to a
    queue of one, to the task; every one of those moves is a step here.  What the task does without the
    lock, its test of `stopped`, the send after it and the outcome it records, can fall between any two
    steps of a request, and between the test and the update inside `submit`. */
module HeadlessService {
  import opened Wrappers
  import Runs

  const MAX_SESSIONS := 8
  const MAX_ROWS := 128
  const IDLE_SECONDS := 3600

  type Id = nat
  type Message = nat                 // 0 is the empty string that `stop` uses to wake the task
  datatype Status = Pending | Completed | Unknown | Failed

  datatype Pc =
    | Scheduled(message: Message)
    | Opening(message: Message)
    | AtTop(message: Message)        // about to test `stopped`
    | Sending(message: Message)      // tested, about to send
    | InTurn
    | Awaiting
    | Leaving                        // out of the loop, closing the client
    | Closing                        // the outcome is recorded, the final block is next
    | Ended

  datatype Session = Session(
    owner: nat, binding: nat, revision: nat, status: Status, stopped: bool, touched: int, active: bool, sdkPending: nat,
    queue: Option<seq<Message>>, scheduled: seq<Message>, pc: Pc,
    submitting: Option<Message>,     // `submit` has tested the session and holds the lock
    // history: messages accepted, by revision, the revision each follow-up named, and messages sent; how the
    // task left its loop; whether it was stopped, whether it crashed, and whether the outcome the crash
    // recorded fell inside a `submit` and was overwritten
    accepted: seq<Message>, named: seq<nat>, sent: seq<Message>, idled: bool, stopCalled: bool, crashed: bool, overwrote: bool)

  function NewSession(owner: nat, binding: nat, message: Message, now: int): Session {
    Session(owner, binding, 0, Pending, false, now, true, 0, None, [], Scheduled(message), None,
            [message], [], [], false, false, false, false)
  }

  // ----- one session -----

  datatype Step = Start | Opened | Test | Send | TurnDone(at: int) | Crash(status: Status) | Get | IdleOut | Finish | Deliver
                | Check(message: Message, revision: nat) | Accept | Stop | SdkStart | SdkFinish

  predicate Left(pc: Pc) { pc.Leaving? || pc.Closing? || pc.Ended? }

  predicate CanStep(r: Session, a: Step) {
    match a
    case Start => r.pc.Scheduled?
    case Opened => r.pc.Opening?
    case Test => r.pc.AtTop?
    case Send => r.pc.Sending?
    case TurnDone(_) => r.pc.InTurn?
    case Crash(status) => !r.pc.Closing? && !r.pc.Ended? && (status.Unknown? || status.Failed?)
    case Get => r.pc.Awaiting? && r.queue.Some? && |r.queue.value| > 0
    case IdleOut => r.pc.Awaiting?
    case Finish => r.pc.Leaving? || r.pc.Closing?
    case Deliver => |r.scheduled| > 0 && r.queue.Some?
    case Check(m, rev) => m > 0 && r.submitting.None? && !r.stopped && r.status.Completed? && r.revision == rev
    case Accept => r.submitting.Some?
    case Stop => r.submitting.None?
    case SdkStart => true
    case SdkFinish => r.sdkPending > 0
  }

  function Advance(r: Session, a: Step): Session
    requires CanStep(r, a)
  {
    match a
    case Start => r.(queue := Some([]), pc := Opening(r.pc.message))
    case Opened => r.(pc := AtTop(r.pc.message))
    case Test => if r.stopped then r.(pc := Leaving) else r.(pc := Sending(r.pc.message))
    case Send => r.(sent := r.sent + [r.pc.message], pc := InTurn)
    case TurnDone(at) => r.(status := Completed, touched := at, pc := Awaiting)
    case Crash(status) => r.(status := status, pc := Closing, crashed := true)
    case Get => r.(pc := AtTop(r.queue.value[0]), queue := Some(r.queue.value[1..]))
    case IdleOut => r.(pc := Leaving, idled := true)
    case Finish => r.(stopped := true, active := false, pc := Ended)
    case Deliver =>   // put_nowait on a full queue raises inside the callback: the message is dropped
      r.(queue := if |r.queue.value| == 0 then Some([r.scheduled[0]]) else r.queue, scheduled := r.scheduled[1..])
    case Check(m, _) => r.(submitting := Some(m))
    case Accept =>
      r.(submitting := None, status := Pending, revision := r.revision + 1, scheduled := r.scheduled + [r.submitting.value],
         accepted := r.accepted + [r.submitting.value], named := r.named + [r.revision], overwrote := r.overwrote || r.crashed)
    case Stop =>
      r.(stopped := true, stopCalled := true, status := if r.status.Pending? then Unknown else r.status,
         scheduled := if r.queue.Some? && r.queue.value == [] then r.scheduled + [0] else r.scheduled)
    case SdkStart => r.(sdkPending := r.sdkPending + 1)
    case SdkFinish => r.(sdkPending := r.sdkPending - 1)
  }

  // Everything on its way to the task, next first.
  function Held(pc: Pc): seq<Message> { if pc.Scheduled? || pc.Opening? || pc.AtTop? || pc.Sending? then [pc.message] else [] }
  function Line(r: Session): seq<Message> { Held(r.pc) + (if r.queue.Some? then r.queue.value else []) + r.scheduled }

  predicate Blank(ms: seq<Message>) { forall i :: 0 <= i < |ms| ==> ms[i] == 0 }

  predicate HeadedBy(ms: seq<Message>, m: Message) {
    |ms| > 0 && ms[0] == m && forall i :: 1 <= i < |ms| ==> ms[i] == 0
  }

  predicate AllReal(ms: seq<Message>) { forall i :: 0 <= i < |ms| ==> ms[i] > 0 }

  // One accepted message has not been sent.
  predicate Owed(r: Session) { |r.accepted| == |r.sent| + 1 }

  // The message owed is at the head of the line, with nothing but wake-ups behind it.
  predicate LineOk(r: Session) {
    Left(r.pc) || (if Owed(r) then HeadedBy(Line(r), r.accepted[|r.sent|]) else Blank(Line(r)))
  }

  // Inside `submit` the session owes nothing, and its task is waiting with nothing on its way or has left.
  predicate SubmitOk(r: Session) {
    r.submitting.Some? ==>
      && r.submitting.value > 0 && !Owed(r) && !r.status.Pending? && (r.stopped ==> r.pc.Ended?)
      && r.queue.Some? && (Left(r.pc) || (r.pc.Awaiting? && r.queue.value == [] && r.scheduled == []))
  }

  predicate SessionOk(r: Session) {
    && |r.accepted| == r.revision + 1 && |r.named| == r.revision
    && (forall i :: 0 <= i < |r.named| ==> r.named[i] == i)
    && AllReal(r.accepted)
    && r.sent <= r.accepted && (|r.accepted| == |r.sent| || Owed(r))
    && LineOk(r) && (!Left(r.pc) && !r.stopped ==> AllReal(Line(r)))
    && (Owed(r) ==> !r.status.Completed?)
    && (r.pc.InTurn? ==> !Owed(r) && !r.status.Completed?)
    && (r.pc.Closing? ==> !r.status.Completed?) && (r.pc.Sending? ==> Owed(r)) && SubmitOk(r)
    && ((r.pc.Awaiting? || Left(r.pc)) && r.status.Pending? ==> Owed(r))
    && (r.stopped && !r.pc.Ended? ==> !r.status.Pending?)
    && (r.pc.Ended? ==> r.stopped) && (r.active <==> !r.pc.Ended?)
    && (r.queue.None? ==> r.pc.Scheduled? || r.pc.Closing? || r.pc.Ended?)
    && (r.queue.Some? ==> |r.queue.value| <= 1)
    && (r.pc.Scheduled? || r.pc.Opening? ==> !r.status.Completed? && Owed(r))
    && (r.queue.None? ==> r.scheduled == []) && (r.pc.Scheduled? ==> r.queue.None?)
  }

  lemma RealAndBlank(ms: seq<Message>)
    requires AllReal(ms) && Blank(ms)
    ensures ms == []
  {
    assert (ms + [1])[0] > 0;
  }

  lemma RealLine(ms: seq<Message>, m: Message)
    requires AllReal(ms) && (HeadedBy(ms, m) || Blank(ms)) && |ms| > 0
    ensures ms == [m] && HeadedBy(ms, m)
  {
    assert ms[|ms| - 1] > 0;
  }

  lemma TestKeeps(r: Session)
    requires SessionOk(r) && CanStep(r, Test)
    ensures SessionOk(Advance(r, Test))
  {
    assert Line(r)[0] == r.pc.message;
    if !r.stopped {
      assert Line(Advance(r, Test)) == Line(r);
      RealLine(Line(r), r.pc.message);
    }
  }

  lemma SendKeeps(r: Session)
    requires SessionOk(r) && CanStep(r, Send)
    ensures SessionOk(Advance(r, Send))
  {
    var t := Advance(r, Send);
    assert Line(r)[0] == r.pc.message && Line(r) == [r.pc.message] + Line(t);
    assert forall i :: 0 <= i < |Line(t)| ==> Line(t)[i] == Line(r)[i + 1];
  }

  lemma OneDropped(ms: seq<Message>, short: seq<Message>, k: nat)
    requires 0 < k < |ms| && short == ms[..k] + ms[k + 1..]
    ensures AllReal(ms) ==> AllReal(short)
    ensures Blank(ms) ==> Blank(short)
    ensures HeadedBy(ms, ms[0]) ==> HeadedBy(short, ms[0])
  {
    forall i | 0 <= i < |short| ensures short[i] == ms[if i < k then i else i + 1] {}
  }

  lemma GetKeeps(r: Session)
    requires SessionOk(r) && CanStep(r, Get)
    ensures SessionOk(Advance(r, Get))
  {
    assert Line(Advance(r, Get)) == Line(r);
  }

  // A message that finds the queue empty stays in the line.
  lemma DeliverStores(r: Session)
    requires CanStep(r, Deliver) && |r.queue.value| == 0
    ensures Line(Advance(r, Deliver)) == Line(r) && |Line(r)| > 0
  {
  }

  // One that finds it full is dropped from the line.
  lemma DeliverDrops(r: Session)
    requires CanStep(r, Deliver) && |r.queue.value| == 1
    ensures var k := |Held(r.pc)| + 1; 0 < k < |Line(r)| && Line(Advance(r, Deliver)) == Line(r)[..k] + Line(r)[k + 1..]
  {
  }

  predicate LineKept(ms: seq<Message>, short: seq<Message>) {
    && |ms| > 0 && (AllReal(ms) ==> AllReal(short)) && (Blank(ms) ==> Blank(short))
    && (HeadedBy(ms, ms[0]) ==> HeadedBy(short, ms[0]))
  }

  lemma DeliverKeepsLine(r: Session)
    requires CanStep(r, Deliver) && |r.queue.value| <= 1
    ensures LineKept(Line(r), Line(Advance(r, Deliver)))
  {
    if |r.queue.value| == 0 {
      DeliverStores(r);
    } else {
      DeliverDrops(r);
      OneDropped(Line(r), Line(Advance(r, Deliver)), |Held(r.pc)| + 1);
    }
  }

  lemma KeptLineKeeps(r: Session, t: Session)
    requires SessionOk(r) && t == r.(queue := t.queue, scheduled := t.scheduled) && LineKept(Line(r), Line(t))
    requires r.queue.Some? && t.queue.Some? && |t.queue.value| <= 1 && |r.scheduled| > 0
    ensures SessionOk(t)
  {
    assert LineOk(t);
  }

  lemma DeliverKeeps(r: Session)
    requires SessionOk(r) && CanStep(r, Deliver)
    ensures SessionOk(Advance(r, Deliver))
  {
    DeliverKeepsLine(r);
    KeptLineKeeps(r, Advance(r, Deliver));
  }

  lemma CheckKeeps(r: Session, m: Message, rev: nat)
    requires SessionOk(r) && CanStep(r, Check(m, rev))
    ensures SessionOk(Advance(r, Check(m, rev)))
  {
    assert Line(Advance(r, Check(m, rev))) == Line(r);
    if !Left(r.pc) {
      RealAndBlank(Line(r));
      assert |Line(r)| == |Held(r.pc)| + |r.queue.value| + |r.scheduled|;
    }
  }

  lemma AcceptKeeps(r: Session)
    requires SessionOk(r) && CanStep(r, Accept)
    ensures SessionOk(Advance(r, Accept))
  {
    assert Line(Advance(r, Accept)) == Line(r) + [r.submitting.value];
  }

  lemma StopKeeps(r: Session)
    requires SessionOk(r) && CanStep(r, Stop)
    ensures SessionOk(Advance(r, Stop))
  {
    var t := Advance(r, Stop);
    if t.scheduled == r.scheduled { assert Line(t) == Line(r); } else { WakeUpLast(Line(r), Line(t)); }
  }

  // A wake-up at the end of the line changes nothing about the message owed.
  lemma WakeUpLast(ms: seq<Message>, more: seq<Message>)
    requires more == ms + [0]
    ensures Blank(more) <==> Blank(ms)
    ensures |ms| > 0 ==> (HeadedBy(more, ms[0]) <==> HeadedBy(ms, ms[0])) && more[0] == ms[0]
  {
    assert forall i :: 0 <= i < |ms| ==> more[i] == ms[i];
  }

  // A task that has left leaves nothing to say about its line.
  lemma LeavingKeeps(r: Session, a: Step)
    requires SessionOk(r) && CanStep(r, a) && (a.Crash? || a.IdleOut? || a.Finish?)
    ensures SessionOk(Advance(r, a))
  {
  }

  lemma OpeningKeeps(r: Session, a: Step)
    requires SessionOk(r) && CanStep(r, a) && (a.Start? || a.Opened?)
    ensures SessionOk(Advance(r, a))
  {
    assert Line(Advance(r, a)) == Line(r);
  }

  lemma TurnDoneKeeps(r: Session, at: int)
    requires SessionOk(r) && CanStep(r, TurnDone(at))
    ensures SessionOk(Advance(r, TurnDone(at)))
  {
    assert Line(Advance(r, TurnDone(at))) == Line(r);
  }

  lemma WorkersKeep(r: Session, a: Step)
    requires SessionOk(r) && CanStep(r, a) && (a.SdkStart? || a.SdkFinish?)
    ensures SessionOk(Advance(r, a))
  {
    assert Line(Advance(r, a)) == Line(r);
  }

  lemma AdvanceKeeps(r: Session, a: Step)
    requires SessionOk(r) && CanStep(r, a)
    ensures SessionOk(Advance(r, a))
  {
    match a
    case Test => TestKeeps(r);
    case Send => SendKeeps(r);
    case Get => GetKeeps(r);
    case Deliver => DeliverKeeps(r);
    case Check(m, rev) => CheckKeeps(r, m, rev);
    case Accept => AcceptKeeps(r);
    case Stop => StopKeeps(r);
    case TurnDone(at) => TurnDoneKeeps(r, at);
    case Start => OpeningKeeps(r, a);
    case Opened => OpeningKeeps(r, a);
    case SdkStart => WorkersKeep(r, a);
    case SdkFinish => WorkersKeep(r, a);
    case _ => LeavingKeeps(r, a);
  }

  // How a session can end.
  predicate FateOk(r: Session) {
    && (r.stopCalled ==> r.stopped && !r.status.Pending?) && (r.stopped ==> r.stopCalled || r.pc.Ended?)
    && (r.submitting.Some? ==> !r.stopCalled)
    && (r.crashed ==> (r.pc.Closing? || r.pc.Ended?) && !r.status.Completed? && (r.status.Pending? ==> r.overwrote))
    && (r.overwrote ==> r.crashed && (r.status.Pending? || r.stopCalled) && r.submitting.None?) && (r.pc.Closing? ==> r.crashed)
    && (r.status.Unknown? || r.status.Failed? ==> r.stopCalled || r.crashed)
    && (Left(r.pc) && !r.stopCalled && !r.crashed ==> r.idled)
    && (r.pc.InTurn? || r.pc.Awaiting? || r.idled ==> |r.sent| > 0)
  }

  lemma FateKeeps(r: Session, a: Step)
    requires FateOk(r) && CanStep(r, a)
    ensures FateOk(Advance(r, a))
  {
    match a
    case Crash(_) =>
    case Finish =>
    case Stop =>
    case Accept =>
    case Check(_, _) =>
    case Test =>
    case _ =>
  }

  // ----- the service -----

  datatype State = State(
    now: int, rows: map<Id, Session>,   // every session ever made
    table: set<Id>,                     // those still listed
    // history: whether an SDK call ever started for a session that was no longer live
    late: bool,
    lock: Option<Id>)                   // the session a `submit` has tested and not yet updated

  datatype Action =
    | Create(id: Id, owner: nat, binding: nat, message: Message, evict: Id)
    | Resubmit(id: Id, owner: nat, binding: nat, message: Message, revision: nat)
    | Commit(id: Id)                    // the rest of `submit`, after its test
    | StopCall(id: Id, owner: nat)
    | Loop(id: Id, step: Step)          // a step of the event loop or of an SDK worker
    | Tick(to: int)

  predicate Live(r: Session) { r.active || r.sdkPending > 0 }

  function Cleaned(s: State): set<Id> {
    set k | k in s.table && k in s.rows && (Live(s.rows[k]) || s.now - s.rows[k].touched <= IDLE_SECONDS)
  }

  function LiveIn(s: State, ids: set<Id>): set<Id> {
    set k | k in ids && k in s.rows && Live(s.rows[k])
  }

  function Evictable(s: State): set<Id> { Cleaned(s) - LiveIn(s, Cleaned(s)) }

  // Steps of a request, and those of the loop and the workers that take the lock.
  predicate OfCaller(step: Step) { step.Check? || step.Accept? || step.Stop? }
  predicate Locked(step: Step) { step.TurnDone? || step.SdkStart? || step.SdkFinish? }

  predicate Enabled(s: State, a: Action) {
    match a
    case Create(id, _, _, _, evict) =>
      && s.lock.None? && id !in s.rows
      && (Evictable(s) != {} ==> evict in Evictable(s) && forall k :: k in Evictable(s) ==> s.rows[evict].touched <= s.rows[k].touched)
    case Resubmit(_, _, _, _, _) => s.lock.None?
    case Commit(id) => s.lock == Some(id) && id in s.rows && CanStep(s.rows[id], Accept)
    case StopCall(id, _) => s.lock.None? && (id in s.rows ==> CanStep(s.rows[id], Stop))
    case Loop(id, step) =>
      && id in s.rows && !OfCaller(step) && CanStep(s.rows[id], step) && (step.TurnDone? ==> step.at == s.now)
      && (Locked(step) ==> s.lock.None?)
    case Tick(to) => s.now <= to
  }

  function With(s: State, id: Id, step: Step): State
    requires id in s.rows && CanStep(s.rows[id], step)
  {
    s.(rows := s.rows[id := Advance(s.rows[id], step)])
  }

  predicate Owned(s: State, table: set<Id>, id: Id, owner: nat) {
    id in table && id in s.rows && s.rows[id].owner == owner
  }

  function Apply(s: State, a: Action): State
    requires Enabled(s, a)
  {
    match a
    case Create(id, owner, binding, m, evict) =>
      var kept := Cleaned(s);
      if m == 0 then s
      else if |LiveIn(s, kept)| >= MAX_SESSIONS then s.(table := kept)
      else s.(table := (if |kept| >= MAX_ROWS && Evictable(s) != {} then kept - {evict} else kept) + {id},
              rows := s.rows[id := NewSession(owner, binding, m, s.now)])
    case Resubmit(id, owner, binding, m, rev) =>
      var kept := Cleaned(s);
      if m == 0 then s
      else if Owned(s, kept, id, owner) && s.rows[id].binding == binding && CanStep(s.rows[id], Check(m, rev))
      then With(s, id, Check(m, rev)).(table := kept, lock := Some(id))
      else s.(table := kept)
    case Commit(id) => With(s, id, Accept).(lock := None)
    case StopCall(id, owner) => if Owned(s, s.table, id, owner) then With(s, id, Stop) else s
    case Loop(id, step) => With(s, id, step).(late := s.late || (step.SdkStart? && !Live(s.rows[id])))
    case Tick(to) => s.(now := to)
  }

  ghost predicate Init(s: State) { s.rows == map[] && s.table == {} && !s.late && s.lock.None? }

  ghost predicate Next(s: State, t: State) {
    exists a: Action :: Enabled(s, a) && t == Apply(s, a)
  }

  // ----- messages -----

  ghost predicate SessionsOk(s: State) { forall id :: id in s.rows ==> SessionOk(s.rows[id]) && FateOk(s.rows[id]) }

  // A listed session is new, or one step on, or as it was.
  ghost predicate RowFollows(s: State, t: State, id: Id) {
    && id in t.rows
    && (id in s.rows ==> t.rows[id] == s.rows[id] || exists step: Step :: CanStep(s.rows[id], step) && t.rows[id] == Advance(s.rows[id], step))
    && (id !in s.rows ==> exists owner, binding, m :: m > 0 && t.rows[id] == NewSession(owner, binding, m, s.now))
  }

  function StepOf(a: Action): Step
    requires !a.Create? && !a.Tick?
  {
    if a.Resubmit? then Check(a.message, a.revision) else if a.Commit? then Accept else if a.StopCall? then Stop else a.step
  }

  lemma RowsFollow(s: State, a: Action, id: Id)
    requires Enabled(s, a) && id in Apply(s, a).rows
    ensures RowFollows(s, Apply(s, a), id)
  {
    if id !in s.rows { RowIsNew(s, a, id); } else { RowAdvances(s, a, id); }
  }

  lemma RowIsNew(s: State, a: Action, id: Id)
    requires Enabled(s, a) && id in Apply(s, a).rows && id !in s.rows
    ensures a.Create? && a.message > 0 && Apply(s, a).rows[id] == NewSession(a.owner, a.binding, a.message, s.now)
  {
  }

  lemma RowAdvances(s: State, a: Action, id: Id)
    requires Enabled(s, a) && id in s.rows
    ensures id in Apply(s, a).rows
    ensures Apply(s, a).rows[id] == s.rows[id] || (!a.Create? && !a.Tick? && CanStep(s.rows[id], StepOf(a)) && Apply(s, a).rows[id] == Advance(s.rows[id], StepOf(a)))
  {
  }

  lemma NewSessionOk(owner: nat, binding: nat, m: Message, now: int)
    requires m > 0
    ensures SessionOk(NewSession(owner, binding, m, now)) && FateOk(NewSession(owner, binding, m, now))
  {
    assert Line(NewSession(owner, binding, m, now)) == [m];
  }

  lemma SessionsKept(s: State, a: Action)
    requires SessionsOk(s) && Enabled(s, a)
    ensures SessionsOk(Apply(s, a))
  {
    var t := Apply(s, a);
    forall id | id in t.rows ensures SessionOk(t.rows[id]) && FateOk(t.rows[id]) {
      RowsFollow(s, a, id);
      RowKept(s, t, id);
    }
  }

  lemma RowKept(s: State, t: State, id: Id)
    requires RowFollows(s, t, id) && (id in s.rows ==> SessionOk(s.rows[id]) && FateOk(s.rows[id]))
    ensures SessionOk(t.rows[id]) && FateOk(t.rows[id])
  {
    if id in s.rows {
      if t.rows[id] != s.rows[id] {
        var step: Step :| CanStep(s.rows[id], step) && t.rows[id] == Advance(s.rows[id], step);
        AdvanceKeeps(s.rows[id], step);
        FateKeeps(s.rows[id], step);
      }
    } else {
      var owner, binding, m :| m > 0 && t.rows[id] == NewSession(owner, binding, m, s.now);
      NewSessionOk(owner, binding, m, s.now);
    }
  }

  lemma SessionsInductive()
    ensures Runs.Inductive(Init, Next, SessionsOk)
  {
    forall s, t | SessionsOk(s) && Next(s, t) ensures SessionsOk(t) {
      var a: Action :| Enabled(s, a) && t == Apply(s, a);
      SessionsKept(s, a);
    }
  }

  /** What a session has sent is a prefix of what was accepted for it, one message a revision, never
      more than one behind; the empty wake-up is never sent. */
  lemma SentIsPrefixOfAccepted(s: State, id: Id)
    requires Runs.Reachable(Init, Next, s) && id in s.rows
    ensures var r := s.rows[id];
      && r.sent <= r.accepted && |r.accepted| == r.revision + 1 && |r.accepted| <= |r.sent| + 1
      && forall i :: 0 <= i < |r.sent| ==> r.sent[i] > 0
  {
    SessionsInductive();
    Runs.HoldsOnReachable(Init, Next, SessionsOk);
  }

  /** At most one follow-up is accepted for each revision: the i-th accepted one named revision i. */
  lemma OneFollowUpPerRevision(s: State, id: Id)
    requires Runs.Reachable(Init, Next, s) && id in s.rows
    ensures |s.rows[id].named| == s.rows[id].revision
    ensures forall i :: 0 <= i < |s.rows[id].named| ==> s.rows[id].named[i] == i
  {
    SessionsInductive();
    Runs.HoldsOnReachable(Init, Next, SessionsOk);
  }

  // The last accepted message was not sent; inside the loop it is next in line.
  predicate LastUnsent(r: Session) {
    && |r.accepted| == |r.sent| + 1 && r.sent <= r.accepted
    && (!Left(r.pc) ==> |Line(r)| > 0 && Line(r)[0] == r.accepted[|r.sent|])
  }

  lemma PendingIsOwed(r: Session)
    requires SessionOk(r) && r.status.Pending? && !r.pc.InTurn?
    ensures LastUnsent(r)
  {
    if r.pc.AtTop? || r.pc.Sending? { assert Line(r)[0] == r.pc.message; }
  }

  /** A session still pending after its task left the loop has lost its last accepted message: it was
      never sent.  While the task is in the loop, outside a turn, the message is next in line. */
  lemma PendingMeansUnsent(s: State, id: Id)
    requires Runs.Reachable(Init, Next, s) && id in s.rows && s.rows[id].status.Pending? && !s.rows[id].pc.InTurn?
    ensures LastUnsent(s.rows[id])
  {
    SessionsInductive();
    Runs.HoldsOnReachable(Init, Next, SessionsOk);
    PendingIsOwed(s.rows[id]);
  }

  /** Exactly when a session whose task has ended still reports pending: its task left the loop by the idle
      timeout without crashing, or the outcome of its crash was recorded inside the `submit` and overwritten;
      a follow-up was accepted and never sent, and nobody stopped the session. */
  lemma EndedPendingIff(s: State, id: Id)
    requires Runs.Reachable(Init, Next, s) && id in s.rows && s.rows[id].pc.Ended?
    ensures var r := s.rows[id]; r.status.Pending? <==> Owed(r) && !r.stopCalled && (r.overwrote || (r.idled && !r.crashed))
    ensures Owed(s.rows[id]) && s.rows[id].idled ==> s.rows[id].revision > 0
  {
    SessionsInductive();
    Runs.HoldsOnReachable(Init, Next, SessionsOk);
  }

  // The task has ended, and what was accepted and sent stays as it was.
  predicate Over(before: Session, after: Session) {
    && after.pc.Ended? && after.stopped && after.submitting.None? && after.accepted == before.accepted && after.sent == before.sent
    && after.idled == before.idled && after.crashed == before.crashed && after.overwrote == before.overwrote
  }

  lemma EndedStep(s: State, t: State, id: Id)
    requires Next(s, t) && id in s.rows && s.rows[id].pc.Ended? && s.rows[id].stopped && s.rows[id].submitting.None?
    ensures id in t.rows && Over(s.rows[id], t.rows[id])
  {
    var a: Action :| Enabled(s, a) && t == Apply(s, a);
    RowAdvances(s, a, id);
    if t.rows[id] != s.rows[id] { AdvanceStaysOver(s.rows[id], StepOf(a)); }
  }

  lemma AdvanceStaysOver(r: Session, a: Step)
    requires CanStep(r, a) && r.pc.Ended? && r.stopped && r.submitting.None?
    ensures Over(r, Advance(r, a))
  {
  }

  lemma {:induction false} EndedStays(run: seq<State>, i: nat, j: nat, id: Id)
    requires Runs.IsRun(Init, Next, run) && i <= j < |run| && id in run[i].rows && run[i].rows[id].pc.Ended? && run[i].rows[id].stopped && run[i].rows[id].submitting.None?
    ensures id in run[j].rows && Over(run[i].rows[id], run[j].rows[id])
  {
    if i < j {
      EndedStays(run, i, j - 1, id);
      assert Runs.StepAt(Next, run, j);
      EndedStep(run[j - 1], run[j], id);
    }
  }

  /** And it does so for ever, whatever else happens, until someone stops the session. */
  lemma PendingForever(run: seq<State>, i: nat, j: nat, id: Id)
    requires Runs.IsRun(Init, Next, run) && i <= j < |run|
    requires id in run[i].rows && run[i].rows[id].pc.Ended? && run[i].rows[id].status.Pending?
    ensures id in run[j].rows && run[j].rows[id].pc.Ended? && (run[j].rows[id].status.Pending? <==> !run[j].rows[id].stopCalled)
  {
    SessionsInductive();
    Runs.HoldsOnRuns(Init, Next, SessionsOk, run, i);
    EndedStays(run, i, j, id);
    Runs.ReachedOnRun(Init, Next, run, i);
    Runs.ReachedOnRun(Init, Next, run, j);
    EndedPendingIff(run[i], id);
    EndedPendingIff(run[j], id);
  }

  // ----- after stop -----

  // What a session does after it was stopped: the message whose test came before the stop is still sent,
  // unless the task crashes first; nothing else is.
  predicate Silenced(before: Session, after: Session) {
    && after.stopped && (after.pc.Sending? ==> after.pc == before.pc && after.sent == before.sent)
    && (before.pc.Sending? && !after.pc.Sending? ==>
          after.sent == before.sent + [before.pc.message] || (after.crashed && after.sent == before.sent))
    && (!before.pc.Sending? ==> after.sent == before.sent)
  }

  ghost predicate SilencedStep(s: State, t: State, id: Id) {
    id in s.rows && s.rows[id].stopped ==> id in t.rows && Silenced(s.rows[id], t.rows[id]) && (s.rows[id].crashed ==> t.rows[id].crashed)
  }

  lemma NextSilences(s: State, t: State, id: Id)
    requires Next(s, t)
    ensures SilencedStep(s, t, id)
  {
    var a: Action :| Enabled(s, a) && t == Apply(s, a);
    if id in s.rows && s.rows[id].stopped { StoppedStep(s, a, id); }
  }

  /** Once a session is stopped at most one more message is sent for it, whatever else happens: the one whose
      test of `stopped` came before the stop, and that one unless the task crashes before sending it. */
  lemma {:induction false} AtMostOneAfterStop(run: seq<State>, i: nat, j: nat, id: Id)
    requires Runs.IsRun(Init, Next, run) && i <= j < |run| && id in run[i].rows && run[i].rows[id].stopped
    ensures id in run[j].rows && Silenced(run[i].rows[id], run[j].rows[id])
  {
    if i < j {
      AtMostOneAfterStop(run, i, j - 1, id);
      assert Runs.StepAt(Next, run, j);
      NextSilences(run[j - 1], run[j], id);
      StaysSilent(run[i].rows[id], run[j - 1], run[j], id);
    }
  }

  lemma StaysSilent(r: Session, s: State, t: State, id: Id)
    requires id in s.rows && Silenced(r, s.rows[id]) && SilencedStep(s, t, id)
    ensures id in t.rows && Silenced(r, t.rows[id])
  {
  }

  lemma StoppedStep(s: State, a: Action, id: Id)
    requires Enabled(s, a) && id in s.rows && s.rows[id].stopped
    ensures id in Apply(s, a).rows && Silenced(s.rows[id], Apply(s, a).rows[id])
    ensures s.rows[id].crashed ==> Apply(s, a).rows[id].crashed
  {
    RowAdvances(s, a, id);
    if Apply(s, a).rows[id] != s.rows[id] { AdvanceSilences(s.rows[id], StepOf(a)); }
  }

  lemma AdvanceSilences(r: Session, a: Step)
    requires CanStep(r, a) && r.stopped
    ensures Silenced(r, Advance(r, a)) && (r.crashed ==> Advance(r, a).crashed)
  {
  }

  // ----- a stop is heard -----

  // A stopped session whose task may still come to wait has something on its way to wake it.
  predicate WakeUpComes(r: Session) {
    r.stopped && (r.pc.Sending? || r.pc.InTurn? || r.pc.Awaiting?) ==>
      r.queue.Some? && (|r.queue.value| > 0 || |r.scheduled| > 0)
  }

  lemma WakeUpKept(r: Session, a: Step)
    requires SessionOk(r) && WakeUpComes(r) && CanStep(r, a)
    ensures WakeUpComes(Advance(r, a))
  {
  }

  ghost predicate Heard(s: State) {
    SessionsOk(s) && forall id :: id in s.rows ==> WakeUpComes(s.rows[id])
  }

  lemma HeardKept(s: State, a: Action)
    requires Heard(s) && Enabled(s, a)
    ensures Heard(Apply(s, a))
  {
    SessionsKept(s, a);
    var t := Apply(s, a);
    forall id | id in t.rows ensures WakeUpComes(t.rows[id]) {
      if id in s.rows {
        RowAdvances(s, a, id);
        if t.rows[id] != s.rows[id] { WakeUpKept(s.rows[id], StepOf(a)); }
      } else {
        RowIsNew(s, a, id);
      }
    }
  }

  lemma HeardInductive()
    ensures Runs.Inductive(Init, Next, Heard)
  {
    forall s, t | Heard(s) && Next(s, t) ensures Heard(t) {
      var a: Action :| Enabled(s, a) && t == Apply(s, a);
      HeardKept(s, a);
    }
  }

  // Steps the task and the event loop take by themselves: no request, no timeout, no crash.
  predicate Unforced(a: Step) {
    a.Start? || a.Opened? || a.Test? || a.Send? || a.TurnDone? || a.Get? || a.Deliver?
  }

  // The task leaves its loop within n such steps.
  ghost predicate LeavesWithin(r: Session, n: nat)
    decreases n
  {
    Left(r.pc) || (n > 0 && exists a :: Unforced(a) && CanStep(r, a) && LeavesWithin(Advance(r, a), n - 1))
  }

  lemma OneStepNearer(r: Session, a: Step, n: nat)
    requires n > 0 && Unforced(a) && CanStep(r, a) && LeavesWithin(Advance(r, a), n - 1)
    ensures LeavesWithin(r, n)
  {
  }

  lemma TestLeaves(r: Session, n: nat)
    requires n > 0 && r.stopped && r.pc.AtTop?
    ensures LeavesWithin(r, n)
  {
    OneStepNearer(r, Test, n);
  }

  lemma QueuedLeaves(r: Session, n: nat)
    requires n >= 2 && r.stopped && r.pc.Awaiting? && r.queue.Some? && |r.queue.value| > 0
    ensures LeavesWithin(r, n)
  {
    TestLeaves(Advance(r, Get), n - 1);
    OneStepNearer(r, Get, n);
  }

  lemma WokenLeaves(r: Session, n: nat)
    requires n >= 3 && r.stopped && r.pc.Awaiting? && WakeUpComes(r)
    ensures LeavesWithin(r, n)
  {
    if |r.queue.value| > 0 {
      QueuedLeaves(r, n);
    } else {
      QueuedLeaves(Advance(r, Deliver), n - 1);
      OneStepNearer(r, Deliver, n);
    }
  }

  lemma TurnEnds(r: Session) returns (t: Session)
    requires r.pc.InTurn?
    ensures CanStep(r, TurnDone(0)) && t == Advance(r, TurnDone(0))
    ensures t.pc.Awaiting? && t.stopped == r.stopped && t.queue == r.queue && t.scheduled == r.scheduled
  {
    t := Advance(r, TurnDone(0));
  }

  lemma TurnLeaves(r: Session, n: nat)
    requires n >= 4 && r.stopped && r.pc.InTurn? && WakeUpComes(r)
    ensures LeavesWithin(r, n)
  {
    var t := TurnEnds(r);
    WokenLeaves(t, n - 1);
    OneStepNearer(r, TurnDone(0), n);
  }

  lemma SendingLeaves(r: Session)
    requires r.stopped && r.pc.Sending? && WakeUpComes(r)
    ensures LeavesWithin(r, 5)
  {
    TurnLeaves(Advance(r, Send), 4);
    OneStepNearer(r, Send, 5);
  }

  lemma OpeningLeaves(r: Session, n: nat)
    requires n >= 2 && r.stopped && r.pc.Opening?
    ensures LeavesWithin(r, n)
  {
    TestLeaves(Advance(r, Opened), n - 1);
    OneStepNearer(r, Opened, n);
  }

  lemma ScheduledLeaves(r: Session)
    requires r.stopped && r.pc.Scheduled?
    ensures LeavesWithin(r, 5)
  {
    var t := Advance(r, Start);
    OpeningLeaves(t, 4);
    OneStepNearer(r, Start, 5);
  }

  lemma StoppedLeaves(r: Session)
    requires r.stopped && WakeUpComes(r)
    ensures LeavesWithin(r, 5)
  {
    match r.pc
    case Scheduled(_) => ScheduledLeaves(r);
    case Opening(_) => OpeningLeaves(r, 5);
    case AtTop(_) => TestLeaves(r, 5);
    case Sending(_) => SendingLeaves(r);
    case InTurn => TurnLeaves(r, 5);
    case Awaiting => WokenLeaves(r, 5);
    case _ =>
  }

  /** A stop is heard: whatever a stopped session's task was doing, it leaves its loop within five steps of
      its own, the turn it may be in included, and needs neither the idle timeout nor a crash for it. */
  lemma StopIsHeard(s: State, id: Id)
    requires Runs.Reachable(Init, Next, s) && id in s.rows && s.rows[id].stopped
    ensures LeavesWithin(s.rows[id], 5)
  {
    HeardInductive();
    Runs.HoldsOnReachable(Init, Next, Heard);
    StoppedLeaves(s.rows[id]);
  }

  // ----- who may do what -----

  ghost predicate Moves(s: State, a: Action, t: State) { Enabled(s, a) && t == Apply(s, a) }

  /** A stop or a follow-up that names somebody else's session, or a follow-up under another binding,
      changes no session and takes no lock. */
  lemma StrangersChangeNothing(s: State, a: Action, t: State)
    requires Moves(s, a, t) && (a.StopCall? || a.Resubmit?)
    requires !(a.id in s.rows && s.rows[a.id].owner == a.owner && (a.Resubmit? ==> s.rows[a.id].binding == a.binding))
    ensures t.rows == s.rows && t.lock == s.lock
  {
  }

  // Only the session a `submit` has tested is inside one.
  ghost predicate LockNames(s: State) {
    forall id :: id in s.rows && s.rows[id].submitting.Some? ==> s.lock == Some(id)
  }

  lemma LockStep(s: State, a: Action, id: Id)
    requires LockNames(s) && Enabled(s, a) && id in Apply(s, a).rows && Apply(s, a).rows[id].submitting.Some?
    ensures Apply(s, a).lock == Some(id)
  {
    var t := Apply(s, a);
    if id in s.rows {
      RowAdvances(s, a, id);
      if a.Resubmit? || a.StopCall? { RequestTouchesOwn(s, a, t, id); } else { StepTouchesOwn(s, a, t, id); }
      if t.rows[id] != s.rows[id] && !a.Resubmit? { OnlyCheckSubmits(s.rows[id], StepOf(a)); }
    } else {
      RowIsNew(s, a, id);
    }
  }

  lemma LockNamesInductive()
    ensures Runs.Inductive(Init, Next, LockNames)
  {
    forall s, t | LockNames(s) && Next(s, t) ensures LockNames(t) {
      var a: Action :| Enabled(s, a) && t == Apply(s, a);
      forall id | id in t.rows && t.rows[id].submitting.Some? ensures t.lock == Some(id) { LockStep(s, a, id); }
    }
  }

  /** Exactly when a follow-up is taken: it is not empty, the session is listed and not idle for more than
      an hour, the caller owns it under this binding, it has not been stopped, its turn is completed, and
      the caller has seen its latest revision.  Otherwise no session changes. */
  lemma FollowUpTakenIff(s: State, a: Action)
    requires Runs.Reachable(Init, Next, s) && Enabled(s, a) && a.Resubmit?
    ensures Apply(s, a).lock == Some(a.id) <==>
            && a.message > 0 && a.id in s.table && a.id in s.rows
            && var r := s.rows[a.id];
               && (r.active || r.sdkPending > 0 || s.now - r.touched <= IDLE_SECONDS)
               && r.owner == a.owner && r.binding == a.binding && !r.stopped && r.status.Completed? && r.revision == a.revision
    ensures Apply(s, a).lock != Some(a.id) ==> Apply(s, a).lock.None? && Apply(s, a).rows == s.rows
  {
    LockNamesInductive();
    Runs.HoldsOnReachable(Init, Next, LockNames);
  }

  /** A stop by the owner of a listed session takes effect at once, and on that session only. */
  lemma OwnerStops(s: State, id: Id)
    requires Runs.Reachable(Init, Next, s) && id in s.table && id in s.rows && Enabled(s, StopCall(id, s.rows[id].owner))
    ensures var r, t := s.rows[id], Apply(s, StopCall(id, s.rows[id].owner));
      && id in t.rows && t.rows == s.rows[id := t.rows[id]]
      && t.rows[id].stopped && t.rows[id].stopCalled && t.rows[id].status == (if r.status.Pending? then Unknown else r.status)
  {
  }

  // A request that changes a session is its owner's, and about that session.
  lemma RequestTouchesOwn(s: State, a: Action, t: State, id: Id)
    requires Moves(s, a, t) && id in s.rows && (a.Resubmit? || a.StopCall?)
    ensures id in t.rows
    ensures t.rows[id] != s.rows[id] ==>
      a.id == id && a.owner == s.rows[id].owner && (a.Resubmit? ==> a.binding == s.rows[id].binding && t.lock == Some(id))
  {
  }

  // So is a step of the loop, and the rest of a `submit`.
  lemma StepTouchesOwn(s: State, a: Action, t: State, id: Id)
    requires Moves(s, a, t) && id in s.rows && !a.Resubmit? && !a.StopCall?
    ensures id in t.rows && (t.rows[id] != s.rows[id] ==> (a.Commit? || a.Loop?) && a.id == id)
    ensures a.Loop? ==> !OfCaller(a.step)
    ensures t.lock != s.lock ==> a.Commit? && s.lock == Some(a.id) && t.lock.None?
  {
  }

  lemma AdvanceKeepsOwner(r: Session, step: Step)
    requires CanStep(r, step)
    ensures Advance(r, step).owner == r.owner && Advance(r, step).binding == r.binding
  {
    match step
    case Check(_, _) =>
    case Accept =>
    case Stop =>
    case Crash(_) =>
    case Deliver =>
    case Test =>
    case _ =>
  }

  lemma OnlyCheckSubmits(r: Session, step: Step)
    requires CanStep(r, step) && !step.Check?
    ensures Advance(r, step).submitting.Some? ==> Advance(r, step).submitting == r.submitting && !step.Accept?
  {
  }

  // What was done to a session in the name of its owner was asked for by the owner.
  ghost predicate Granted(r: Session, id: Id, acts: seq<Action>, j: nat) {
    && (r.stopCalled ==> Runs.Taken(acts, j, StopCall(id, r.owner)))
    && (r.submitting.Some? ==> Runs.Taken(acts, j, Resubmit(id, r.owner, r.binding, r.submitting.value, r.revision)))
    && (forall n :: 1 <= n < |r.accepted| ==> Runs.Taken(acts, j, Resubmit(id, r.owner, r.binding, r.accepted[n], n - 1)))
  }

  lemma GrantedLater(r: Session, id: Id, acts: seq<Action>, j: nat)
    requires 0 < j < |acts| && Granted(r, id, acts, j - 1)
    ensures Granted(r, id, acts, j)
  {
    forall x | Runs.Taken(acts, j - 1, x) ensures Runs.Taken(acts, j, x) { Runs.TakenNext(acts, j, x); }
  }

  lemma OnlyAcceptAccepts(r: Session, step: Step)
    requires CanStep(r, step) && !step.Accept?
    ensures Advance(r, step).accepted == r.accepted && Advance(r, step).revision == r.revision
    ensures Advance(r, step).stopCalled == (r.stopCalled || step.Stop?)
  {
    match step
    case Crash(_) =>
    case Deliver =>
    case Stop =>
    case Check(_, _) =>
    case _ =>
  }

  lemma AcceptGranted(r: Session, id: Id, acts: seq<Action>, j: nat)
    requires CanStep(r, Accept) && Granted(r, id, acts, j) && |r.accepted| == r.revision + 1
    ensures Granted(Advance(r, Accept), id, acts, j)
  {
  }

  lemma AdvanceGranted(r: Session, step: Step, id: Id, acts: seq<Action>, j: nat)
    requires CanStep(r, step) && Granted(r, id, acts, j) && |r.accepted| == r.revision + 1
    requires step.Check? ==> Runs.Taken(acts, j, Resubmit(id, r.owner, r.binding, step.message, step.revision))
    requires step.Stop? ==> Runs.Taken(acts, j, StopCall(id, r.owner))
    ensures Granted(Advance(r, step), id, acts, j)
  {
    if step.Accept? {
      AcceptGranted(r, id, acts, j);
    } else {
      AdvanceKeepsOwner(r, step);
      OnlyAcceptAccepts(r, step);
      if !step.Check? { OnlyCheckSubmits(r, step); }
    }
  }

  lemma OneStepGranted(s: State, a: Action, t: State, id: Id, acts: seq<Action>, j: nat)
    requires Moves(s, a, t) && id in s.rows && SessionOk(s.rows[id]) && 0 < j < |acts| && acts[j] == a
    requires Granted(s.rows[id], id, acts, j)
    ensures id in t.rows && Granted(t.rows[id], id, acts, j) && t.rows[id].owner == s.rows[id].owner && t.rows[id].binding == s.rows[id].binding
    ensures |t.rows[id].accepted| > 0 && t.rows[id].accepted[0] == s.rows[id].accepted[0]
  {
    RowAdvances(s, a, id);
    if a.Resubmit? || a.StopCall? { RequestTouchesOwn(s, a, t, id); } else { StepTouchesOwn(s, a, t, id); }
    assert Runs.Taken(acts, j, a);
    if t.rows[id] != s.rows[id] { RowGranted(s.rows[id], StepOf(a), t.rows[id], id, acts, j); }
  }

  lemma RowGranted(r: Session, step: Step, t: Session, id: Id, acts: seq<Action>, j: nat)
    requires CanStep(r, step) && t == Advance(r, step) && Granted(r, id, acts, j) && |r.accepted| == r.revision + 1
    requires step.Check? ==> Runs.Taken(acts, j, Resubmit(id, r.owner, r.binding, step.message, step.revision))
    requires step.Stop? ==> Runs.Taken(acts, j, StopCall(id, r.owner))
    ensures Granted(t, id, acts, j) && t.owner == r.owner && t.binding == r.binding && |t.accepted| > 0 && t.accepted[0] == r.accepted[0]
  {
    AdvanceGranted(r, step, id, acts, j);
    AdvanceKeepsOwner(r, step);
    if !step.Accept? { OnlyAcceptAccepts(r, step); }
  }

  /** Over whole runs: whoever a session belongs to made it, every follow-up accepted for it was asked for by
      its owner, under its binding and naming the revision before it, and so was every stop. */
  lemma {:induction false} OwnerAskedForAll(run: seq<State>, acts: seq<Action>, j: nat, id: Id)
    requires Runs.Trace(Init, Moves, run, acts) && j < |run| && id in run[j].rows
    ensures Granted(run[j].rows[id], id, acts, j)
    ensures var r := run[j].rows[id];
      |r.accepted| > 0 && exists evict :: Runs.Taken(acts, j, Create(id, r.owner, r.binding, r.accepted[0], evict))
  {
    var s, t, a := run[j - 1], run[j], acts[j];
    assert Runs.ActAt(Moves, run, acts, j);
    Runs.TraceIsRun(Init, Next, Moves, run, acts);
    SessionsInductive();
    Runs.HoldsOnRuns(Init, Next, SessionsOk, run, j - 1);
    if id in s.rows {
      OwnerAskedForAll(run, acts, j - 1, id);
      GrantedLater(s.rows[id], id, acts, j);
      OneStepGranted(s, a, t, id, acts, j);
    } else {
      RowIsNew(s, a, id);
    }
  }

  // ----- capacity -----

  function LiveRows(s: State): set<Id> { LiveIn(s, s.rows.Keys) }

  ghost predicate Capped(s: State) {
    && s.table <= s.rows.Keys && |s.table| <= MAX_ROWS
    && (!s.late ==> |LiveRows(s)| <= MAX_SESSIONS && LiveRows(s) <= s.table)
  }

  lemma NoLarger<T>(a: set<T>, b: set<T>)
    requires a <= b
    ensures |a| <= |b|
  {
    assert b == a + (b - a);
  }

  lemma KeptPartition(s: State)
    ensures LiveIn(s, Cleaned(s)) <= Cleaned(s) && Cleaned(s) == Evictable(s) + LiveIn(s, Cleaned(s))
  {
  }

  lemma CreateTable(s: State, a: Action)
    requires Enabled(s, a) && a.Create? && |Cleaned(s)| <= MAX_ROWS
    ensures |Apply(s, a).table| <= MAX_ROWS || Apply(s, a).table == s.table
    ensures LiveIn(s, Cleaned(s)) <= Apply(s, a).table || Apply(s, a).table == s.table
  {
    KeptPartition(s);
    assert a.evict in Evictable(s) ==> a.evict !in LiveIn(s, Cleaned(s));
  }

  lemma RowPut(s: State, t: State, id: Id)
    requires id in t.rows && t.rows == s.rows[id := t.rows[id]]
    ensures LiveRows(t) == if Live(t.rows[id]) then LiveRows(s) + {id} else LiveRows(s) - {id}
  {
  }

  predicate Joins(s: State, t: State, id: Id) {
    LiveRows(t) == LiveRows(s) + {id} && id in t.table && |LiveIn(s, Cleaned(s))| < MAX_SESSIONS
  }

  lemma CreateLive(s: State, a: Action)
    requires Enabled(s, a) && a.Create?
    ensures LiveRows(Apply(s, a)) == LiveRows(s) || Joins(s, Apply(s, a), a.id)
  {
    var t := Apply(s, a);
    if a.message > 0 && |LiveIn(s, Cleaned(s))| < MAX_SESSIONS {
      RowPut(s, t, a.id);
    } else {
      assert t.rows == s.rows;
    }
  }

  lemma LiveStaysListed(s: State)
    requires LiveRows(s) <= s.table
    ensures LiveRows(s) == LiveIn(s, Cleaned(s))
  {
  }

  lemma CreateCapped(s: State, a: Action)
    requires Capped(s) && Enabled(s, a) && a.Create?
    ensures Capped(Apply(s, a))
  {
    NoLarger(Cleaned(s), s.table);
    CreateTable(s, a);
    CreateLive(s, a);
    if !s.late { LiveStaysListed(s); }
  }

  // No other step makes a session live that was not, except an SDK call starting late.
  lemma OthersNotLivelier(s: State, a: Action)
    requires Enabled(s, a) && !a.Create? && !Apply(s, a).late
    ensures LiveRows(Apply(s, a)) <= LiveRows(s)
  {
    var t := Apply(s, a);
    forall id | id in LiveRows(t) ensures id in LiveRows(s) {
      assert id in t.rows && t.rows.Keys == s.rows.Keys;
    }
  }

  lemma OthersCapped(s: State, a: Action)
    requires Capped(s) && Enabled(s, a) && !a.Create?
    ensures Capped(Apply(s, a))
  {
    var t := Apply(s, a);
    assert t.rows.Keys == s.rows.Keys;
    NoLarger(Cleaned(s), s.table);
    if !t.late {
      OthersNotLivelier(s, a);
      NoLarger(LiveRows(t), LiveRows(s));
      assert LiveRows(s) <= Cleaned(s);
    }
  }

  lemma CappedInductive()
    ensures Runs.Inductive(Init, Next, Capped)
  {
    forall s, t | Capped(s) && Next(s, t) ensures Capped(t) {
      var a: Action :| Enabled(s, a) && t == Apply(s, a);
      if a.Create? { CreateCapped(s, a); } else { OthersCapped(s, a); }
    }
  }

  /** The table never holds more than 128 sessions.  As long as SDK calls start only for live
      sessions, at most 8 sessions are live, running or with an SDK call outstanding, and each of
      them is still in the table. */
  lemma CapacityHolds(s: State)
    requires Runs.Reachable(Init, Next, s)
    ensures |s.table| <= MAX_ROWS
    ensures !s.late ==> |LiveRows(s)| <= MAX_SESSIONS && LiveRows(s) <= s.table
  {
    CappedInductive();
    Runs.HoldsOnReachable(Init, Next, Capped);
  }

  /** A session leaves the table only once it is over, with no SDK call outstanding, and then because its
      last turn is more than an hour old, or to make room in a full table when no other listed session that
      is over had its last turn earlier. */
  lemma LeavesTableOnlyIf(s: State, a: Action, t: State, id: Id)
    requires Moves(s, a, t) && id in s.table && id in s.rows && id !in t.table
    ensures (a.Create? || a.Resubmit?) && !s.rows[id].active && s.rows[id].sdkPending == 0
    ensures s.now - s.rows[id].touched > IDLE_SECONDS || (a.Create? && a.evict == id && |Cleaned(s)| >= MAX_ROWS
      && forall k :: k in s.table && k in s.rows && !Live(s.rows[k]) && s.rows[k].touched < s.rows[id].touched ==> k !in t.table)
  {
  }

  // ----- what liveness and idleness are measured by -----

  lemma SdkCallsMove(s: State, a: Action, t: State, id: Id)
    requires Moves(s, a, t) && id in s.rows
    ensures id in t.rows
    ensures t.rows[id].sdkPending == s.rows[id].sdkPending + (if a == Loop(id, SdkStart) then 1 else 0) - (if a == Loop(id, SdkFinish) then 1 else 0)
  {
    RowAdvances(s, a, id);
    if a.Resubmit? || a.StopCall? { RequestTouchesOwn(s, a, t, id); } else { StepTouchesOwn(s, a, t, id); }
    if t.rows[id] != s.rows[id] { AdvanceCounts(s.rows[id], StepOf(a)); }
  }

  lemma AdvanceCounts(r: Session, a: Step)
    requires CanStep(r, a)
    ensures Advance(r, a).sdkPending == r.sdkPending + (if a.SdkStart? then 1 else 0) - (if a.SdkFinish? then 1 else 0)
    ensures Advance(r, a).touched == if a.TurnDone? then a.at else r.touched
  {
    match a
    case Crash(_) =>
    case Deliver =>
    case Stop =>
    case Accept =>
    case _ =>
  }

  /** A session counts as having SDK calls outstanding exactly as many as were started and not finished. */
  lemma {:induction false} SdkCallsOutstanding(run: seq<State>, acts: seq<Action>, j: nat, id: Id)
    requires Runs.Trace(Init, Moves, run, acts) && j < |run|
    ensures if id in run[j].rows
            then run[j].rows[id].sdkPending == Runs.Times(acts, j, Loop(id, SdkStart)) - Runs.Times(acts, j, Loop(id, SdkFinish))
            else Runs.Times(acts, j, Loop(id, SdkStart)) == Runs.Times(acts, j, Loop(id, SdkFinish)) == 0
  {
    if j > 0 {
      SdkCallsOutstanding(run, acts, j - 1, id);
      assert Runs.ActAt(Moves, run, acts, j);
      if id in run[j - 1].rows {
        SdkCallsMove(run[j - 1], acts[j], run[j], id);
      } else if id in run[j].rows {
        RowIsNew(run[j - 1], acts[j], id);
      }
    }
  }

  // Step i makes the session, or ends one of its turns.
  ghost predicate TouchedAt(run: seq<State>, acts: seq<Action>, i: int, id: Id) {
    && 0 < i < |run| && i < |acts|
    && ((id !in run[i - 1].rows && id in run[i].rows) || (acts[i].Loop? && acts[i].id == id && acts[i].step.TurnDone?))
  }

  lemma TouchedMoves(s: State, a: Action, t: State, id: Id)
    requires Moves(s, a, t) && id in s.rows
    ensures id in t.rows && t.now >= s.now
    ensures t.rows[id].touched == if a.Loop? && a.id == id && a.step.TurnDone? then t.now else s.rows[id].touched
  {
    RowAdvances(s, a, id);
    if a.Resubmit? || a.StopCall? { RequestTouchesOwn(s, a, t, id); } else { StepTouchesOwn(s, a, t, id); }
    if t.rows[id] != s.rows[id] { AdvanceCounts(s.rows[id], StepOf(a)); }
  }

  /** And it has been idle since its last completed turn, or since it was made. */
  lemma {:induction false} IdleSince(run: seq<State>, acts: seq<Action>, j: nat, id: Id) returns (i: nat)
    requires Runs.Trace(Init, Moves, run, acts) && j < |run| && id in run[j].rows
    ensures i <= j && TouchedAt(run, acts, i, id) && run[j].rows[id].touched == run[i].now
    ensures forall m :: i < m <= j ==> !TouchedAt(run, acts, m, id)
  {
    assert Runs.ActAt(Moves, run, acts, j);
    if id in run[j - 1].rows {
      TouchedMoves(run[j - 1], acts[j], run[j], id);
      i := j;
      if !TouchedAt(run, acts, j, id) { i := IdleSince(run, acts, j - 1, id); }
    } else {
      RowIsNew(run[j - 1], acts[j], id);
      i := j;
    }
  }

  // ----- what the code does not prevent -----

  lemma Walk(s: State, a: Action)
    requires Runs.Reachable(Init, Next, s) && Enabled(s, a)
    ensures Runs.Reachable(Init, Next, Apply(s, a))
  {
    assert Next(s, Apply(s, a));
    Runs.ReachableStep(Init, Next, s, Apply(s, a));
  }

  function OneRow(r: Session): State { State(0, map[0 := r], {0}, false, None) }

  // The same while a `submit` for it holds the lock.
  function LockedRow(r: Session): State { OneRow(r).(lock := Some(0)) }

  lemma WalkRow(r: Session, step: Step) returns (next: Session)
    requires Runs.Reachable(Init, Next, OneRow(r)) && CanStep(r, step) && !OfCaller(step)
    requires !step.SdkStart? && (step.TurnDone? ==> step.at == 0)
    ensures next == Advance(r, step) && Runs.Reachable(Init, Next, OneRow(next))
  {
    next := Advance(r, step);
    Walk(OneRow(r), Loop(0, step));
    assert Apply(OneRow(r), Loop(0, step)) == OneRow(next);
  }

  lemma FirstSession() returns (r: Session)
    ensures Runs.Reachable(Init, Next, OneRow(r)) && r == NewSession(0, 0, 1, 0)
  {
    var s := State(0, map[], {}, false, None);
    Runs.ReachableInit(Init, Next, s);
    Walk(s, Create(0, 0, 0, 1, 0));
    r := NewSession(0, 0, 1, 0);
    assert Cleaned(s) == {} && LiveIn(s, {}) == {};
    assert Apply(s, Create(0, 0, 0, 1, 0)) == OneRow(r);
  }

  // A session whose first turn is done.
  lemma FirstTurn() returns (r: Session)
    ensures Runs.Reachable(Init, Next, OneRow(r))
    ensures r == Session(0, 0, 0, Completed, false, 0, true, 0, Some([]), [], Awaiting, None, [1], [], [1], false, false, false, false)
  {
    r := FirstSession();
    r := WalkRow(r, Start);
    r := WalkRow(r, Opened);
    r := WalkRow(r, Test);
    r := WalkRow(r, Send);
    r := WalkRow(r, TurnDone(0));
  }

  /** The idle timeout races with `submit`: a follow-up accepted after the wait expired and before the
      final block is lost, and the session reports pending although its task has ended. */
  lemma IdleRaceLosesMessage() returns (r: Session)
    ensures Runs.Reachable(Init, Next, OneRow(r))
    ensures r.pc.Ended? && r.status.Pending? && r.accepted == [1, 2] && r.sent == [1]
  {
    r := FirstTurn();
    r := WalkRow(r, IdleOut);
    r := WalkCheck(r, 2);
    r := WalkCommit(r);
    r := WalkRow(r, Finish);
  }

  lemma WalkLocked(r: Session, step: Step) returns (next: Session)
    requires Runs.Reachable(Init, Next, LockedRow(r)) && CanStep(r, step) && !OfCaller(step) && !Locked(step)
    ensures next == Advance(r, step) && Runs.Reachable(Init, Next, LockedRow(next))
  {
    next := Advance(r, step);
    Walk(LockedRow(r), Loop(0, step));
    assert Apply(LockedRow(r), Loop(0, step)) == LockedRow(next);
  }

  lemma WalkCheck(r: Session, m: Message) returns (next: Session)
    requires Runs.Reachable(Init, Next, OneRow(r)) && CanStep(r, Check(m, r.revision)) && r.touched == 0
    ensures next == Advance(r, Check(m, r.revision)) && Runs.Reachable(Init, Next, LockedRow(next))
  {
    next := Advance(r, Check(m, r.revision));
    CheckedRow(r, m);
    Walk(OneRow(r), Resubmit(0, r.owner, r.binding, m, r.revision));
  }

  lemma CheckedRow(r: Session, m: Message)
    requires CanStep(r, Check(m, r.revision)) && r.touched == 0
    ensures Apply(OneRow(r), Resubmit(0, r.owner, r.binding, m, r.revision)) == LockedRow(Advance(r, Check(m, r.revision)))
  {
    assert Cleaned(OneRow(r)) == {0};
    assert map[0 := r][0 := Advance(r, Check(m, r.revision))] == map[0 := Advance(r, Check(m, r.revision))];
  }

  lemma WalkCommit(r: Session) returns (next: Session)
    requires Runs.Reachable(Init, Next, LockedRow(r)) && CanStep(r, Accept)
    ensures next == Advance(r, Accept) && Runs.Reachable(Init, Next, OneRow(next))
  {
    next := Advance(r, Accept);
    Walk(LockedRow(r), Commit(0));
    assert Apply(LockedRow(r), Commit(0)) == OneRow(next);
  }

  /** The outcome a crash records is lost when it falls between `submit`'s test and its update: the session
      ends, and reports pending although its task crashed. */
  lemma CrashInsideSubmit() returns (r: Session)
    ensures Runs.Reachable(Init, Next, OneRow(r))
    ensures r.pc.Ended? && r.status.Pending? && r.crashed && r.accepted == [1, 2] && r.sent == [1]
  {
    r := FirstTurn();
    r := WalkRow(r, IdleOut);
    r := WalkCheck(r, 2);
    r := WalkLocked(r, Crash(Unknown));
    r := WalkCommit(r);
    r := WalkRow(r, Finish);
  }

  /** A message is sent after a stop when the stop falls between the task's test and its send. */
  lemma SentAfterStop() returns (stopped: Session, later: Session)
    ensures Runs.Reachable(Init, Next, OneRow(stopped)) && Runs.Reachable(Init, Next, OneRow(later))
    ensures stopped.stopCalled && stopped.sent == [] && stopped.pc.Sending? && later == Advance(stopped, Send) && later.sent == [1]
  {
    var r := FirstSession();
    r := WalkRow(r, Start);
    r := WalkRow(r, Opened);
    r := WalkRow(r, Test);
    stopped := Advance(r, Stop);
    Walk(OneRow(r), StopCall(0, 0));
    assert Apply(OneRow(r), StopCall(0, 0)) == OneRow(stopped);
    later := WalkRow(stopped, Send);
  }

  function Ids(k: nat): (r: set<Id>)
    ensures |r| == k && forall i :: i in r <==> 1 <= i <= k
  {
    if k == 0 then {} else Ids(k - 1) + {k}
  }

  // Session 0 has ended, sessions 1 to k are running.
  predicate Filled(s: State, k: nat) {
    && s.now == 0 && !s.late && s.lock.None? && s.rows.Keys == s.table == Ids(k) + {0}
    && s.rows[0].touched == 0 && !Live(s.rows[0]) && forall i :: i in Ids(k) ==> s.rows[i].active
  }

  lemma {:induction false} FilledReachable(k: nat) returns (s: State)
    requires k <= MAX_SESSIONS
    ensures Runs.Reachable(Init, Next, s) && Filled(s, k)
  {
    if k == 0 {
      var r := FirstTurn();
      r := WalkRow(r, IdleOut);
      r := WalkRow(r, Finish);
      s := OneRow(r);
      assert Ids(0) + {0} == {0};
    } else {
      var before := FilledReachable(k - 1);
      s := CreateInto(before, k);
    }
  }

  lemma CreateAccepted(s: State, id: Id)
    requires id !in s.rows && |LiveIn(s, Cleaned(s))| < MAX_SESSIONS && |Cleaned(s)| < MAX_ROWS
    requires Enabled(s, Create(id, 0, 0, 1, 0))
    ensures Apply(s, Create(id, 0, 0, 1, 0)) == s.(table := Cleaned(s) + {id}, rows := s.rows[id := NewSession(0, 0, 1, s.now)])
  {
  }

  lemma FilledNext(s: State, t: State, k: nat)
    requires 1 <= k && Filled(s, k - 1) && t == s.(table := s.table + {k}, rows := s.rows[k := NewSession(0, 0, 1, 0)])
    ensures Filled(t, k)
  {
    assert Ids(k) == Ids(k - 1) + {k} && 0 !in Ids(k);
    assert t.rows.Keys == s.rows.Keys + {k} == Ids(k) + {0};
  }

  lemma CreateInto(s: State, k: nat) returns (t: State)
    requires Runs.Reachable(Init, Next, s) && 1 <= k <= MAX_SESSIONS && Filled(s, k - 1)
    ensures Runs.Reachable(Init, Next, t) && Filled(t, k)
  {
    var a := Create(k, 0, 0, 1, 0);
    FilledMeasures(s, k - 1);
    assert k !in Ids(k - 1) && Enabled(s, a);
    CreateAccepted(s, k);
    Walk(s, a);
    t := Apply(s, a);
    FilledNext(s, t, k);
  }

  lemma FilledMeasures(s: State, k: nat)
    requires Filled(s, k)
    ensures Cleaned(s) == s.table && LiveIn(s, s.table) == LiveRows(s) == Ids(k) && Evictable(s) == {0} && |s.table| == k + 1
  {
    forall i | i in s.table ensures i in Cleaned(s) && (Live(s.rows[i]) <==> i in Ids(k)) {}
    assert Cleaned(s) == s.table && LiveIn(s, s.table) == Ids(k);
  }

  lemma OneMoreLive(full: State, s: State, k: nat)
    requires Filled(full, k) && LiveRows(full) == Ids(k) && s.rows == full.rows[0 := Advance(full.rows[0], SdkStart)]
    ensures |LiveRows(s)| == k + 1
  {
    RowPut(full, s, 0);
  }

  lemma SdkCallStarts(s: State)
    requires 0 in s.rows && s.lock.None?
    ensures Enabled(s, Loop(0, SdkStart)) && Apply(s, Loop(0, SdkStart)).rows == s.rows[0 := Advance(s.rows[0], SdkStart)]
  {
  }

  /** And the limit of 8 does depend on that assumption: an SDK call started for a session that has
      ended, as a turn task of the upstream server may do, makes a ninth live session. */
  lemma LateSdkCallMakesNine() returns (s: State)
    ensures Runs.Reachable(Init, Next, s) && |LiveRows(s)| == MAX_SESSIONS + 1
  {
    var full := FilledReachable(MAX_SESSIONS);
    FilledMeasures(full, MAX_SESSIONS);
    SdkCallStarts(full);
    Walk(full, Loop(0, SdkStart));
    s := Apply(full, Loop(0, SdkStart));
    OneMoreLive(full, s, MAX_SESSIONS);
  }
}
