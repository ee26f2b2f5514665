/** The per-host background-scan budget: a reference-counted table of one-permit semaphores.  Entering,
    acquiring, giving up, releasing and leaving are separate steps, so a slot object can be dropped
    from the table and a new one made for the same host at any point in between. */
module BackgroundBudget {
  import Runs

  type Host = nat
  datatype Slot = Slot(permits: nat, count: int)

  datatype Pc =
    | Waiting(slot: nat)
    | Holding(slot: nat)
    | Leaving(slot: nat, got: bool)   // released, or timed out, and not yet counted off
    | Done
    | TimedOut
    | OverReleased(slot: nat)         // BoundedSemaphore.release raised
  datatype Scan = Scan(host: Host, pc: Pc)

  datatype State = State(table: map<Host, nat>, slots: map<nat, Slot>, scans: map<nat, Scan>, nextSlot: nat)

  datatype Action = Enter(scan: nat, host: Host) | Acquire(scan: nat) | GiveUp(scan: nat) | Release(scan: nat) | Leave(scan: nat)

  predicate HasSlot(pc: Pc) { !pc.Done? && !pc.TimedOut? }

  // The slot object a scan counts in.
  predicate Uses(s: State, c: nat, slot: nat) {
    c in s.scans && HasSlot(s.scans[c].pc) && s.scans[c].pc.slot == slot
  }

  predicate Enabled(s: State, a: Action) {
    match a
    case Enter(c, _) => c !in s.scans
    case Acquire(c) => c in s.scans && s.scans[c].pc.Waiting? && s.scans[c].pc.slot in s.slots && s.slots[s.scans[c].pc.slot].permits > 0
    case GiveUp(c) => c in s.scans && s.scans[c].pc.Waiting?
    case Release(c) => c in s.scans && s.scans[c].pc.Holding? && s.scans[c].pc.slot in s.slots
    case Leave(c) => c in s.scans && s.scans[c].pc.Leaving? && s.scans[c].pc.slot in s.slots
  }

  function Goto(s: State, c: nat, pc: Pc): State
    requires c in s.scans
  {
    s.(scans := s.scans[c := s.scans[c].(pc := pc)])
  }

  function Apply(s: State, a: Action): State
    requires Enabled(s, a)
  {
    match a
    case Enter(c, host) =>
      if host in s.table && s.table[host] in s.slots
      then var slot := s.table[host];
           s.(scans := s.scans[c := Scan(host, Waiting(slot))], slots := s.slots[slot := s.slots[slot].(count := s.slots[slot].count + 1)])
      else State(s.table[host := s.nextSlot], s.slots[s.nextSlot := Slot(1, 1)],
                 s.scans[c := Scan(host, Waiting(s.nextSlot))], s.nextSlot + 1)
    case Acquire(c) =>
      var slot := s.scans[c].pc.slot;
      Goto(s, c, Holding(slot)).(slots := s.slots[slot := s.slots[slot].(permits := s.slots[slot].permits - 1)])
    case GiveUp(c) => Goto(s, c, Leaving(s.scans[c].pc.slot, false))
    case Release(c) =>
      var slot := s.scans[c].pc.slot;
      if s.slots[slot].permits >= 1 then Goto(s, c, OverReleased(slot))
      else Goto(s, c, Leaving(slot, true)).(slots := s.slots[slot := s.slots[slot].(permits := s.slots[slot].permits + 1)])
    case Leave(c) =>
      var slot, host := s.scans[c].pc.slot, s.scans[c].host;
      var left := s.slots[slot].count - 1;
      Goto(s, c, if s.scans[c].pc.got then Done else TimedOut).(
        slots := s.slots[slot := s.slots[slot].(count := left)],
        table := if left == 0 then s.table - {host} else s.table)
  }

  ghost predicate Init(s: State) {
    s.table == map[] && s.slots == map[] && s.scans == map[]
  }

  ghost predicate Next(s: State, t: State) {
    exists a: Action :: Enabled(s, a) && t == Apply(s, a)
  }

  // ----- the invariant -----

  ghost function Members(s: State, slot: nat): set<nat> {
    set c | c in s.scans && Uses(s, c, slot)
  }

  ghost function Holders(s: State, slot: nat): set<nat> {
    set c | c in s.scans && s.scans[c].pc == Holding(slot)
  }

  // A slot's count is the number of scans using it, and its permits are those not held.
  ghost predicate SlotOk(s: State, slot: nat) {
    slot in s.slots && s.slots[slot].count == |Members(s, slot)| && s.slots[slot].permits + |Holders(s, slot)| == 1
  }

  // A scan inside the budget uses the slot its host's table entry shows.
  predicate Shared(s: State, c: nat) {
    c in s.scans && (HasSlot(s.scans[c].pc) ==> s.scans[c].host in s.table && s.table[s.scans[c].host] == s.scans[c].pc.slot)
  }

  predicate Listed(s: State, h: Host) {
    h in s.table && s.table[h] in s.slots && s.slots[s.table[h]].count > 0
  }

  ghost predicate ScansShare(s: State) {
    forall c :: c in s.scans ==> Shared(s, c) && !s.scans[c].pc.OverReleased?
  }

  ghost predicate TableListed(s: State) {
    forall h :: h in s.table ==> Listed(s, h)
  }

  ghost predicate TableInjective(s: State) {
    forall g, h :: g in s.table && h in s.table && s.table[g] == s.table[h] ==> g == h
  }

  ghost predicate SlotsOk(s: State) {
    forall slot :: slot in s.slots ==> slot < s.nextSlot && SlotOk(s, slot)
  }

  ghost predicate Inv(s: State) {
    ScansShare(s) && TableListed(s) && TableInjective(s) && SlotsOk(s)
  }

  // Scan c moves; the only slot it can touch is the given one.
  ghost predicate Moves(s: State, t: State, c: nat, slot: nat) {
    && c in t.scans && t.scans == s.scans[c := t.scans[c]]
    && slot in t.slots && t.slots == s.slots[slot := t.slots[slot]] && s.nextSlot <= t.nextSlot && slot < t.nextSlot
    && (forall o :: o != slot ==> !Uses(s, c, o) && !Uses(t, c, o))
  }

  lemma OtherSlotsKept(s: State, t: State, c: nat, slot: nat)
    requires SlotsOk(s) && Moves(s, t, c, slot) && SlotOk(t, slot)
    ensures SlotsOk(t)
  {
    forall o | o in t.slots ensures o < t.nextSlot && SlotOk(t, o) {
      if o != slot {
        assert !Uses(s, c, o) && !Uses(t, c, o);
        assert Members(t, o) == Members(s, o) && Holders(t, o) == Holders(s, o);
      }
    }
  }

  lemma HeldMeansNoPermit(s: State, slot: nat)
    requires SlotOk(s, slot)
    ensures forall c :: c in s.scans && s.scans[c].pc == Holding(slot) ==> s.slots[slot].permits == 0 && Holders(s, slot) == {c}
  {
    forall c | c in s.scans && s.scans[c].pc == Holding(slot) ensures s.slots[slot].permits == 0 && Holders(s, slot) == {c} {
      assert Holders(s, slot) == {c} + (Holders(s, slot) - {c});
    }
  }

  // ----- entering -----

  lemma NewSlotUnused(s: State)
    requires Inv(s)
    ensures Members(s, s.nextSlot) == {} && Holders(s, s.nextSlot) == {}
  {
    forall d | d in s.scans ensures !Uses(s, d, s.nextSlot) {
      if HasSlot(s.scans[d].pc) { assert Shared(s, d) && Listed(s, s.scans[d].host); }
    }
  }

  lemma EnterMembers(s: State, t: State, c: nat, slot: nat)
    requires c !in s.scans && c in t.scans && t.scans == s.scans[c := t.scans[c]] && t.scans[c].pc == Waiting(slot)
    ensures Members(t, slot) == Members(s, slot) + {c} && Holders(t, slot) == Holders(s, slot)
  {
  }

  lemma EnterSlot(s: State, c: nat, host: Host)
    requires Inv(s) && c !in s.scans
    ensures var t := Apply(s, Enter(c, host)); Moves(s, t, c, t.table[host]) && SlotOk(t, t.table[host])
  {
    var t := Apply(s, Enter(c, host));
    var slot := t.table[host];
    assert host in s.table ==> Listed(s, host) && SlotOk(s, slot);
    NewSlotUnused(s);
    EnterMembers(s, t, c, slot);
  }

  lemma EnterTable(s: State, c: nat, host: Host)
    requires Inv(s) && c !in s.scans
    ensures var t := Apply(s, Enter(c, host)); ScansShare(t) && TableListed(t) && TableInjective(t)
  {
    var t := Apply(s, Enter(c, host));
    assert host in s.table ==> Listed(s, host);
    assert t.table == s.table[host := t.table[host]] && (host in s.table ==> t.table == s.table);
    assert t.scans == s.scans[c := Scan(host, Waiting(t.table[host]))];
    forall d | d in t.scans ensures Shared(t, d) && !t.scans[d].pc.OverReleased? { if d != c { assert Shared(s, d); } }
    forall h | h in t.table ensures Listed(t, h) && (h != host ==> t.table[h] != t.table[host]) {
      if h != host { assert Listed(s, h); }
    }
  }

  // ----- acquiring, giving up, releasing -----

  lemma StayMembers(s: State, t: State, c: nat, slot: nat)
    requires Uses(s, c, slot) && Uses(t, c, slot) && t.scans == s.scans[c := t.scans[c]]
    ensures Members(t, slot) == Members(s, slot)
    ensures Holders(t, slot) == if t.scans[c].pc.Holding? then Holders(s, slot) + {c} else Holders(s, slot) - {c}
  {
  }

  lemma StaySlot(s: State, a: Action)
    requires Inv(s) && Enabled(s, a) && (a.Acquire? || a.GiveUp? || a.Release?)
    ensures var t, slot := Apply(s, a), s.scans[a.scan].pc.slot;
            Moves(s, t, a.scan, slot) && SlotOk(t, slot) && t.slots[slot].count == s.slots[slot].count && !t.scans[a.scan].pc.OverReleased?
  {
    var t, c := Apply(s, a), a.scan;
    var slot := s.scans[c].pc.slot;
    assert Shared(s, c) && Listed(s, s.scans[c].host) && SlotOk(s, slot);
    HeldMeansNoPermit(s, slot);
    StayMembers(s, t, c, slot);
  }

  lemma StayTable(s: State, t: State, c: nat, slot: nat)
    requires Inv(s) && Moves(s, t, c, slot) && slot in s.slots && t.slots[slot].count == s.slots[slot].count && t.table == s.table
    requires c in s.scans && Uses(s, c, slot) && Uses(t, c, slot) && t.scans[c].host == s.scans[c].host && !t.scans[c].pc.OverReleased?
    ensures ScansShare(t) && TableListed(t) && TableInjective(t)
  {
    forall d | d in t.scans ensures Shared(t, d) && !t.scans[d].pc.OverReleased? { assert Shared(s, d); }
    forall h | h in t.table ensures Listed(t, h) { assert Listed(s, h); }
  }

  // ----- leaving -----

  lemma LeaveMembers(s: State, t: State, c: nat, slot: nat)
    requires Uses(s, c, slot) && s.scans[c].pc.Leaving? && c in t.scans && !HasSlot(t.scans[c].pc)
    requires t.scans == s.scans[c := t.scans[c]]
    ensures Members(t, slot) == Members(s, slot) - {c} && Holders(t, slot) == Holders(s, slot)
  {
  }

  lemma LeaveSlot(s: State, c: nat)
    requires Inv(s) && Enabled(s, Leave(c))
    ensures var t, slot := Apply(s, Leave(c)), s.scans[c].pc.slot;
            Moves(s, t, c, slot) && SlotOk(t, slot) && (t.slots[slot].count == 0 ==> Members(t, slot) == {})
  {
    var t, slot := Apply(s, Leave(c)), s.scans[c].pc.slot;
    assert SlotOk(s, slot) && Uses(s, c, slot) && c in Members(s, slot);
    LeaveMembers(s, t, c, slot);
  }

  lemma LeaveTable(s: State, c: nat)
    requires Inv(s) && Enabled(s, Leave(c)) && Shared(s, c)
    requires var t, slot := Apply(s, Leave(c)), s.scans[c].pc.slot; SlotOk(t, slot) && (t.slots[slot].count == 0 ==> Members(t, slot) == {})
    ensures var t := Apply(s, Leave(c)); ScansShare(t) && TableListed(t) && TableInjective(t)
  {
    var t, slot, host := Apply(s, Leave(c)), s.scans[c].pc.slot, s.scans[c].host;
    assert s.table[host] == slot && t.scans == s.scans[c := t.scans[c]];
    forall d | d in t.scans ensures Shared(t, d) && !t.scans[d].pc.OverReleased? {
      if d != c { assert Shared(s, d) && (t.slots[slot].count == 0 ==> d !in Members(t, slot)); }
    }
    forall h | h in t.table ensures Listed(t, h) { assert Listed(s, h); }
  }

  lemma InvKept(s: State, a: Action)
    requires Inv(s) && Enabled(s, a)
    ensures Inv(Apply(s, a))
  {
    var t, c := Apply(s, a), a.scan;
    if a.Enter? {
      EnterSlot(s, c, a.host);
      EnterTable(s, c, a.host);
      OtherSlotsKept(s, t, c, t.table[a.host]);
    } else if a.Leave? {
      assert Shared(s, c);
      LeaveSlot(s, c);
      LeaveTable(s, c);
      OtherSlotsKept(s, t, c, s.scans[c].pc.slot);
    } else {
      StaySlot(s, a);
      assert Shared(s, c) && Listed(s, s.scans[c].host);
      StayTable(s, t, c, s.scans[c].pc.slot);
      OtherSlotsKept(s, t, c, s.scans[c].pc.slot);
    }
  }

  lemma InvInductive()
    ensures Runs.Inductive(Init, Next, Inv)
  {
    forall s, t | Inv(s) && Next(s, t) ensures Inv(t) {
      var a: Action :| Enabled(s, a) && t == Apply(s, a);
      InvKept(s, a);
    }
  }

  lemma InvHolds(s: State)
    requires Runs.Reachable(Init, Next, s)
    ensures Inv(s)
  {
    InvInductive();
    Runs.HoldsOnReachable(Init, Next, Inv);
  }

  // ----- what the budget guarantees -----

  /** At most one background scan of a host holds the budget, however often its slot was dropped and
      made again in between. */
  lemma OneHolderPerHost(s: State, c: nat, d: nat)
    requires Runs.Reachable(Init, Next, s) && c in s.scans && d in s.scans
    requires s.scans[c].pc.Holding? && s.scans[d].pc.Holding? && s.scans[c].host == s.scans[d].host
    ensures c == d
  {
    InvHolds(s);
    assert Shared(s, c) && Shared(s, d) && Listed(s, s.scans[c].host);
    HeldMeansNoPermit(s, s.scans[c].pc.slot);
    assert Holders(s, s.scans[c].pc.slot) == {c} == {d};
    assert c in {d};
  }

  /** Every scan of a host that is inside the budget uses one slot object, the one in the table; its
      count is their number and its permit is free exactly when none of them holds it. */
  lemma ScansOfAHostShareOneSlot(s: State, h: Host)
    requires Runs.Reachable(Init, Next, s)
    ensures h in s.table <==> exists c :: c in s.scans && s.scans[c].host == h && HasSlot(s.scans[c].pc)
    ensures h in s.table ==> s.table[h] in s.slots && s.slots[s.table[h]].permits <= 1
    ensures h in s.table ==> (forall c :: c in s.scans ==> (s.scans[c].host == h && HasSlot(s.scans[c].pc) <==> Uses(s, c, s.table[h])))
    ensures h in s.table ==> s.slots[s.table[h]].count == |Members(s, s.table[h])|
    ensures h in s.table ==> (s.slots[s.table[h]].permits == 0 <==> exists c :: c in s.scans && s.scans[c].host == h && s.scans[c].pc.Holding?)
  {
    InvHolds(s);
    assert forall c :: c in s.scans ==> Shared(s, c);
    if h in s.table {
      assert Listed(s, h) && SlotOk(s, s.table[h]);
      TableEntryUsed(s, h);
      PermitTaken(s, h);
    }
  }

  lemma TableEntryUsed(s: State, h: Host)
    requires Inv(s) && h in s.table
    ensures exists c :: c in s.scans && s.scans[c].host == h && HasSlot(s.scans[c].pc)
    ensures forall c :: c in s.scans ==> (s.scans[c].host == h && HasSlot(s.scans[c].pc) <==> Uses(s, c, s.table[h]))
  {
    assert Listed(s, h) && SlotOk(s, s.table[h]);
    forall c | c in s.scans ensures s.scans[c].host == h && HasSlot(s.scans[c].pc) <==> Uses(s, c, s.table[h]) {
      assert Shared(s, c);
    }
    var m :| m in Members(s, s.table[h]);
    assert s.scans[m].host == h;
  }

  lemma PermitTaken(s: State, h: Host)
    requires Inv(s) && h in s.table
    ensures s.slots[s.table[h]].permits == 0 <==> exists c :: c in s.scans && s.scans[c].host == h && s.scans[c].pc.Holding?
  {
    var slot := s.table[h];
    assert Listed(s, h) && SlotOk(s, slot);
    TableEntryUsed(s, h);
    HeldMeansNoPermit(s, slot);
    if s.slots[slot].permits == 0 {
      var d :| d in Holders(s, slot);
      assert Uses(s, d, slot) && s.scans[d].pc.Holding?;
    }
    if c :| c in s.scans && s.scans[c].host == h && s.scans[c].pc.Holding? { assert Uses(s, c, slot); }
  }

  lemma ListedIsUsed(s: State, h: Host)
    requires Inv(s) && h in s.table
    ensures exists c :: c in s.scans && s.scans[c].host == h && Uses(s, c, s.table[h])
  {
    assert Listed(s, h) && SlotOk(s, s.table[h]);
    var m :| m in Members(s, s.table[h]);
    assert Shared(s, m);
  }

  lemma SlotPresent(s: State, c: nat)
    requires Inv(s) && c in s.scans && HasSlot(s.scans[c].pc)
    ensures s.scans[c].pc.slot in s.slots && (s.scans[c].pc.Holding? ==> s.slots[s.scans[c].pc.slot].permits == 0)
  {
    assert Shared(s, c) && Listed(s, s.scans[c].host);
    HeldMeansNoPermit(s, s.scans[c].pc.slot);
  }

  /** No release is ever refused by the bounded semaphore, and every scan inside can go on: a holder
      releases, a scan that released or gave up counts itself off. */
  lemma NoScanGetsStuck(s: State, c: nat)
    requires Runs.Reachable(Init, Next, s) && c in s.scans
    ensures !s.scans[c].pc.OverReleased?
    ensures s.scans[c].pc.Holding? ==> Enabled(s, Release(c)) && Apply(s, Release(c)).scans[c].pc.Leaving?
    ensures s.scans[c].pc.Leaving? ==> Enabled(s, Leave(c))
    ensures s.scans[c].pc.Waiting? && !Enabled(s, Acquire(c)) ==> exists d :: d in s.scans && s.scans[d].host == s.scans[c].host && s.scans[d].pc.Holding?
  {
    InvHolds(s);
    if HasSlot(s.scans[c].pc) {
      SlotPresent(s, c);
      assert Shared(s, c);
      ScansOfAHostShareOneSlot(s, s.scans[c].host);
    }
  }

  /** The table is empty once the last scan of every host has left. */
  lemma NothingLeaks(s: State)
    requires Runs.Reachable(Init, Next, s) && (forall c :: c in s.scans ==> !HasSlot(s.scans[c].pc))
    ensures s.table == map[]
  {
    InvHolds(s);
    forall h | h in s.table ensures false { ListedIsUsed(s, h); }
  }

  // ----- how a scan ends -----

  ghost predicate Step(s: State, a: Action, t: State) { Enabled(s, a) && t == Apply(s, a) }

  // Where a scan stands, by whether it got the permit, gave up waiting, and was counted off.
  predicate Stands(pc: Pc, got: bool, gaveUp: bool, left: bool) {
    match pc
    case Waiting(_) => !got && !gaveUp && !left
    case Holding(_) => got && !gaveUp && !left
    case Leaving(_, g) => got == g && gaveUp == !g && !left
    case Done => got && !gaveUp && left
    case TimedOut => !got && gaveUp && left
    case OverReleased(_) => got && !gaveUp && !left
  }

  ghost predicate ScanStands(s: State, acts: seq<Action>, j: int, c: nat) {
    var got, gaveUp, left := Runs.Taken(acts, j, Acquire(c)), Runs.Taken(acts, j, GiveUp(c)), Runs.Taken(acts, j, Leave(c));
    if c in s.scans then Stands(s.scans[c].pc, got, gaveUp, left) else !got && !gaveUp && !left
  }

  lemma StandsStep(s: State, a: Action, t: State, c: nat, got: bool, gaveUp: bool, left: bool)
    requires Step(s, a, t) && if c in s.scans then Stands(s.scans[c].pc, got, gaveUp, left) else !got && !gaveUp && !left
    ensures if c in t.scans then Stands(t.scans[c].pc, got || a == Acquire(c), gaveUp || a == GiveUp(c), left || a == Leave(c))
            else !got && !gaveUp && !left && a != Acquire(c) && a != GiveUp(c) && a != Leave(c)
  {
  }

  lemma {:induction false} ScanStandsThere(run: seq<State>, acts: seq<Action>, j: nat, c: nat)
    requires Runs.Trace(Init, Step, run, acts) && j < |run|
    ensures ScanStands(run[j], acts, j, c)
  {
    if j > 0 {
      ScanStandsThere(run, acts, j - 1, c);
      assert Runs.ActAt(Step, run, acts, j);
      Runs.TakenNext(acts, j, Acquire(c));
      Runs.TakenNext(acts, j, GiveUp(c));
      Runs.TakenNext(acts, j, Leave(c));
      StandsStep(run[j - 1], acts[j], run[j], c, Runs.Taken(acts, j - 1, Acquire(c)), Runs.Taken(acts, j - 1, GiveUp(c)),
                 Runs.Taken(acts, j - 1, Leave(c)));
    }
  }

  /** A scan that has left the budget is done if and only if it held the permit, and timed out if and only if
      it gave up waiting: never both, and never neither. */
  lemma LeftAsItWent(run: seq<State>, acts: seq<Action>, j: nat, c: nat)
    requires Runs.Trace(Init, Step, run, acts) && j < |run| && c in run[j].scans
    ensures !HasSlot(run[j].scans[c].pc) <==> Runs.Taken(acts, j, Leave(c))
    ensures run[j].scans[c].pc.Done? <==> Runs.Taken(acts, j, Leave(c)) && Runs.Taken(acts, j, Acquire(c))
    ensures run[j].scans[c].pc.TimedOut? <==> Runs.Taken(acts, j, Leave(c)) && Runs.Taken(acts, j, GiveUp(c))
  {
    ScanStandsThere(run, acts, j, c);
  }
}
