/** What every reachable state of the AlertRegistry satisfies, whatever expires and whenever. */
module AlertInvariant {
  import opened Host
  import opened Seqs
  import opened AlertModel
  import opened IndexLists

  // ---------------------------------------------------------------- folding the event log

  /** The ids announced by register events, in order. */
  function Registrations(events: seq<Event>): seq<nat> {
    if events == [] then [] else
      var before, e := Registrations(events[..|events| - 1]), events[|events| - 1];
      if e.Registered? then before + [e.id] else before
  }

  /** How one event changes an indexer's picture of who owns what. */
  function Told(owners: map<nat, Address>, e: Event): map<nat, Address> {
    match e
    case Registered(id, owner, _) => owners[id := owner]
    case Removed(_, _) => owners - {e.id}
    case RemovedByAdmin(_, _, _) => owners - {e.id}
    case Transferred(id, _, newOwner) => owners[id := newOwner]
    case Note(_) => owners
  }

  /** Who owns what, as an indexer rebuilds it from the register, remove and transfer events. */
  function Ownership(events: seq<Event>): map<nat, Address> {
    if events == [] then map[] else Told(Ownership(events[..|events| - 1]), events[|events| - 1])
  }

  /** The number of remove events of either arity. */
  function Removals(events: seq<Event>): nat {
    if events == [] then 0 else
      var e := events[|events| - 1];
      Removals(events[..|events| - 1]) + if e.Removed? || e.RemovedByAdmin? then 1 else 0
  }

  lemma LogNext(events: seq<Event>, e: Event)
    ensures Registrations(events + [e]) == Registrations(events) + if e.Registered? then [e.id] else []
    ensures Ownership(events + [e]) == Told(Ownership(events), e)
    ensures Removals(events + [e]) == Removals(events) + if e.Removed? || e.RemovedByAdmin? then 1 else 0
  {
    assert (events + [e])[..|events|] == events;
  }

  // ---------------------------------------------------------------- the invariant

  /** Both index maps are faithful to the records, and every id is below the counter. */
  ghost predicate Indexed(s: State) {
    && s.nextId <= U64_MAX
    && Faithful(s.owners, OwnerOf(s.alerts), s.nextId)
    && Faithful(s.targets, TargetOf(s.alerts), s.nextId)
  }

  /** The two indexes. */
  datatype Side = ByOwner | ByTarget

  function IndexOf(s: State, side: Side): Index {
    if side.ByOwner? then s.owners else s.targets
  }

  /** Where each live id belongs in that index. */
  function PlaceOf(alerts: Records, side: Side): map<nat, Address> {
    if side.ByOwner? then OwnerOf(alerts) else TargetOf(alerts)
  }

  /** The index lists every live id of `a`. This one needs the list itself not to expire. */
  ghost predicate Listed(s: State, side: Side, a: Address) {
    Complete(IndexOf(s, side), PlaceOf(s.alerts, side), a)
  }

  /** No address loses its listing, in either index. */
  ghost predicate StillListed(s: State, t: State) {
    && NoneLost(s.owners, OwnerOf(s.alerts), t.owners, OwnerOf(t.alerts))
    && NoneLost(s.targets, TargetOf(s.alerts), t.targets, TargetOf(t.alerts))
  }

  lemma ListedStays(s: State, t: State, side: Side, a: Address)
    requires StillListed(s, t) && Listed(s, side, a)
    ensures Listed(t, side, a)
  {}

  /** At ledger `now` the list of `a` is readable, unless none of its records is. */
  ghost predicate Outlives(s: State, side: Side, a: Address, now: nat) {
    Needed(IndexOf(s, side), PlaceOf(Surviving(s.alerts, now), side), a, now)
  }

  /** The cheap flag never outlives its record and always repeats the record's `active` field. */
  ghost predicate FlagsAgree(alerts: Records, flags: map<nat, Entry<bool>>) {
    forall id :: id in flags ==>
      && id in alerts
      && flags[id].liveUntil <= alerts[id].liveUntil
      && flags[id].value == alerts[id].value.active
  }

  ghost predicate Dated(alerts: Records, now: nat) {
    forall id :: id in alerts ==> alerts[id].value.createdAt <= alerts[id].value.updatedAt <= now
  }

  /** The log announced ids 0, 1, ..., `bound` - 1 and still knows the owner of every live alert. */
  ghost predicate Logged(events: seq<Event>, place: map<nat, Address>, bound: nat) {
    && Registrations(events) == Iota(bound)
    && forall id :: id in place ==> id in Ownership(events) && Ownership(events)[id] == place[id]
  }

  ghost predicate Inv(s: State) {
    && Indexed(s)
    && FlagsAgree(s.alerts, s.flags)
    && Dated(s.alerts, s.timestamp)
    && Logged(s.events, OwnerOf(s.alerts), s.nextId)
  }

  lemma InitInv(ledger: nat, timestamp: nat)
    ensures Inv(Init(ledger, timestamp))
    ensures forall side, a :: Listed(Init(ledger, timestamp), side, a)
  {}

  lemma BelowCounter(s: State)
    requires Inv(s)
    ensures forall id :: id in s.alerts ==> id < s.nextId
  {
    assert OwnerOf(s.alerts).Keys == s.alerts.Keys;
  }

  // ---------------------------------------------------------------- one record written

  lemma PutFlags(s: State, id: nat, c: AlertConfig, flagged: bool)
    requires FlagsAgree(s.alerts, s.flags)
    requires flagged || id !in s.alerts || c.active == s.alerts[id].value.active
    ensures FlagsAgree(PutRecord(s, id, c, flagged).alerts, PutRecord(s, id, c, flagged).flags)
  {}

  lemma PutDated(s: State, id: nat, c: AlertConfig, flagged: bool)
    requires Dated(s.alerts, s.timestamp) && c.createdAt <= c.updatedAt <= s.timestamp
    ensures Dated(PutRecord(s, id, c, flagged).alerts, s.timestamp)
  {}

  lemma DatedAt(s: State, id: nat)
    requires Inv(s) && id in s.alerts
    ensures s.alerts[id].value.createdAt <= s.timestamp
    ensures id in OwnerOf(s.alerts) && OwnerOf(s.alerts)[id] == s.alerts[id].value.owner
    ensures id in TargetOf(s.alerts) && TargetOf(s.alerts)[id] == s.alerts[id].value.target
  {}

  /** Rewriting a record in place, under the same owner and target. */
  lemma RewriteKeeps(s: State, id: nat, c: AlertConfig, flagged: bool)
    requires Inv(s) && id in s.alerts
    requires c.owner == s.alerts[id].value.owner && c.target == s.alerts[id].value.target
    requires flagged || c.active == s.alerts[id].value.active
    requires c.createdAt == s.alerts[id].value.createdAt && c.updatedAt == s.timestamp
    ensures Inv(PutRecord(s, id, c, flagged))
    ensures StillListed(s, PutRecord(s, id, c, flagged))
  {
    DatedAt(s, id);
    hide Faithful, Complete, Logged, FlagsAgree, Dated, OwnerOf, TargetOf, Put;
    PutFlags(s, id, c, flagged);
    PutDated(s, id, c, flagged);
    PutSamePlaces(s.alerts, id, c, s.ledger, DEFAULT_TTL);
  }

  // ---------------------------------------------------------------- one effect

  lemma AdmitKeeps(s: State, owner: Address, additional: nat)
    requires Inv(s)
    ensures Inv(DoAdmit(s, owner, additional).state)
    ensures StillListed(s, DoAdmit(s, owner, additional).state)
    ensures DoAdmit(s, owner, additional).Failed? ==> DoAdmit(s, owner, additional).error == OwnerAlertLimitExceeded
  {
    assert OwnerOf(s.alerts).Keys == s.alerts.Keys;
    PruneKeeps(s.owners, OwnerOf(s.alerts), s.nextId, owner, s.ledger);
  }

  lemma LogRegistered(events: seq<Event>, place: map<nat, Address>, id: nat, owner: Address, target: Address)
    requires Logged(events, place, id)
    ensures Logged(events + [Registered(id, owner, target)], place[id := owner], id + 1)
  {
    LogNext(events, Registered(id, owner, target));
  }

  lemma NotListed(m: Index, id: nat, a: Address)
    requires Unlisted(m, id)
    ensures id !in Listing(m, a)
  {
    assert !Lists(m, a, id);
  }

  lemma EnrollKeeps(s: State, owner: Address, input: AlertInput, tags: Option<seq<string>>)
    requires Inv(s)
    ensures Inv(DoEnroll(s, owner, input, tags).state)
    ensures DoEnroll(s, owner, input, tags).Done? <==> s.nextId < U64_MAX
    ensures DoEnroll(s, owner, input, tags).Failed? ==> DoEnroll(s, owner, input, tags).error == CounterOverflow
    ensures StillListed(s, DoEnroll(s, owner, input, tags).state)
  {
    hide Faithful, Complete, Logged, FlagsAgree, Dated, Store, Put, Unlisted, OwnerOf, TargetOf, Listing;
    var id := s.nextId;
    if id < U64_MAX {
      var s0 := s.(nextId := id + 1);
      var c := NewConfig(owner, input, tags, s.timestamp);
      FreshIsUnlisted(s.owners, OwnerOf(s.alerts), id, id);
      FreshIsUnlisted(s.targets, TargetOf(s.alerts), id, id);
      NotListed(s.owners, id, owner);
      NotListed(s.targets, id, input.target);
      AppendKeeps(s.owners, OwnerOf(s.alerts), id + 1, owner, id, s.ledger);
      AppendKeeps(s.targets, TargetOf(s.alerts), id + 1, input.target, id, s.ledger);
      PutPlaces(s.alerts, id, c, s.ledger, DEFAULT_TTL);
      PutFlags(s0, id, c, true);
      PutDated(s0, id, c, true);
      LogRegistered(s.events, OwnerOf(s.alerts), id, owner, input.target);
    }
  }

  lemma EditKeeps(s: State, id: nat, patch: Patch)
    requires Inv(s)
    ensures Inv(DoEdit(s, id, patch).state)
    ensures StillListed(s, DoEdit(s, id, patch).state)
  {
    hide Inv, Complete;
    if DoEdit(s, id, patch).Done? {
      RewriteKeeps(s, id, Patched(s.alerts[id].value, patch, s.timestamp), patch.Rules? || patch.Active?);
    }
  }

  lemma TouchedInv(s: State, c: AlertConfig, ttl: nat)
    requires Inv(s)
    ensures Inv(DoTouch(s, c, ttl).state)
    ensures StillListed(s, DoTouch(s, c, ttl).state)
    ensures DoTouch(s, c, ttl).Failed? ==> DoTouch(s, c, ttl).error == MissingEntry
  {
    hide Faithful, Complete, Logged, FlagsAgree, Dated;
    if c.owner in s.owners {
      TouchKeeps(s.owners, OwnerOf(s.alerts), s.nextId, c.owner, s.ledger, ttl);
      if c.target in s.targets {
        TouchKeeps(s.targets, TargetOf(s.alerts), s.nextId, c.target, s.ledger, ttl);
      }
    }
  }

  lemma ExtendedRecords(s: State, id: nat, ttl: nat, flagged: bool)
    requires FlagsAgree(s.alerts, s.flags) && Dated(s.alerts, s.timestamp)
    requires id in s.alerts && (flagged ==> id in s.flags)
    ensures var alerts := Extend(s.alerts, id, s.ledger, ttl);
            && FlagsAgree(alerts, if flagged then Extend(s.flags, id, s.ledger, ttl) else s.flags)
            && Dated(alerts, s.timestamp)
  {}

  /** Extending a record first and its flag second. */
  lemma ExtendedInv(s: State, id: nat, ttl: nat, flagged: bool)
    requires Inv(s) && id in s.alerts && (flagged ==> id in s.flags)
    ensures var t := s.(alerts := Extend(s.alerts, id, s.ledger, ttl),
                        flags := if flagged then Extend(s.flags, id, s.ledger, ttl) else s.flags);
            Inv(t) && StillListed(s, t)
  {
    hide Faithful, Complete, Logged, FlagsAgree, Dated;
    SamePlaces(Extend(s.alerts, id, s.ledger, ttl), s.alerts);
    ExtendedRecords(s, id, ttl, flagged);
  }

  lemma LogNote(events: seq<Event>, place: map<nat, Address>, bound: nat, notice: Notice)
    requires Logged(events, place, bound)
    ensures Logged(events + [Note(notice)], place, bound)
  {
    LogNext(events, Note(notice));
  }

  lemma RenewKeeps(s: State, id: nat, ttl: nat)
    requires Inv(s)
    ensures Inv(DoRenew(s, id, ttl).state)
    ensures StillListed(s, DoRenew(s, id, ttl).state)
    ensures DoRenew(s, id, ttl).Failed? ==> DoRenew(s, id, ttl).error == MissingEntry
  {
    hide Faithful, Complete, Logged, FlagsAgree, Dated;
    if id in s.alerts {
      ExtendedInv(s, id, ttl, id in s.flags);
      if id in s.flags {
        var s1 := s.(alerts := Extend(s.alerts, id, s.ledger, ttl), flags := Extend(s.flags, id, s.ledger, ttl));
        var o := DoTouch(s1, s.alerts[id].value, ttl);
        TouchedInv(s1, s.alerts[id].value, ttl);
        LogNote(o.state.events, OwnerOf(o.state.alerts), o.state.nextId, Bumped(id, ttl));
      }
    }
  }

  lemma LogErased(events: seq<Event>, place: map<nat, Address>, bound: nat, e: Event)
    requires Logged(events, place, bound) && (e.Removed? || e.RemovedByAdmin?)
    ensures Logged(events + [e], place - {e.id}, bound)
  {
    LogNext(events, e);
  }

  lemma ErasedRecords(alerts: Records, flags: map<nat, Entry<bool>>, now: nat, id: nat)
    requires FlagsAgree(alerts, flags) && Dated(alerts, now)
    ensures FlagsAgree(alerts - {id}, flags - {id}) && Dated(alerts - {id}, now)
    ensures OwnerOf(alerts - {id}) == OwnerOf(alerts) - {id}
    ensures TargetOf(alerts - {id}) == TargetOf(alerts) - {id}
  {}

  lemma EraseKeeps(s: State, id: nat, caller: Address, asAdmin: bool)
    requires Inv(s)
    ensures Inv(DoErase(s, id, caller, asAdmin).state)
    ensures StillListed(s, DoErase(s, id, caller, asAdmin).state)
    ensures DoErase(s, id, caller, asAdmin).Failed? ==> DoErase(s, id, caller, asAdmin).error == AlertNotFound
  {
    hide Faithful, Complete, Logged, FlagsAgree, Dated, Store, Without;
    if id in s.alerts {
      var owner := s.alerts[id].value.owner;
      DropKeeps(s.owners, OwnerOf(s.alerts), s.nextId, id, s.ledger);
      DropKeeps(s.targets, TargetOf(s.alerts), s.nextId, id, s.ledger);
      ErasedRecords(s.alerts, s.flags, s.timestamp, id);
      LogErased(s.events, OwnerOf(s.alerts), s.nextId,
                if asAdmin then RemovedByAdmin(id, caller, owner) else Removed(id, caller));
    }
  }

  /** Dropping an id from the list it belongs to and appending it to another. */
  lemma MoveKeeps(m: Index, place: map<nat, Address>, bound: nat, id: nat, a: Address, now: nat)
    requires Faithful(m, place, bound) && id in place
    ensures var dropped := Store(m, place[id], Without(Listing(m, place[id]), id), now);
            var moved := Store(dropped, a, Listing(dropped, a) + [id], now);
            && id !in Listing(dropped, a)
            && Faithful(dropped, place - {id}, bound)
            && Faithful(moved, place[id := a], bound)
            && NoneLost(m, place, moved, place[id := a])
  {
    hide Faithful, Complete, NoneLost, Store, Without, Listing;
    var dropped := Store(m, place[id], Without(Listing(m, place[id]), id), now);
    DropKeeps(m, place, bound, id, now);
    NotListed(dropped, id, a);
    assert id < bound by { InBounds(m, place, bound, id); }
    AppendKeeps(dropped, place - {id}, bound, a, id, now);
    assert (place - {id})[id := a] == place[id := a];
    NoneLostTwice(m, place, dropped, place - {id}, Store(dropped, a, Listing(dropped, a) + [id], now), place[id := a]);
  }

  lemma InBounds(m: Index, place: map<nat, Address>, bound: nat, id: nat)
    requires Faithful(m, place, bound) && id in place
    ensures id < bound
  {}

  lemma RetargetKeeps(s: State, id: nat, target: Address)
    requires Inv(s)
    ensures Inv(DoRetarget(s, id, target).state)
    ensures DoRetarget(s, id, target).Done? <==> id in s.alerts
    ensures DoRetarget(s, id, target).Failed? ==> DoRetarget(s, id, target).error == AlertNotFound
    ensures StillListed(s, DoRetarget(s, id, target).state)
  {
    hide Faithful, Complete, Logged, FlagsAgree, Dated, OwnerOf, TargetOf, Store, Put, Without, Listing;
    if id in s.alerts {
      DatedAt(s, id);
      var c := s.alerts[id].value.(target := target, updatedAt := s.timestamp);
      MoveKeeps(s.targets, TargetOf(s.alerts), s.nextId, id, target, s.ledger);
      PutPlaces(s.alerts, id, c, s.ledger, DEFAULT_TTL);
      PutFlags(s, id, c, false);
      PutDated(s, id, c, false);
      PutSamePlaces(s.alerts, id, c, s.ledger, DEFAULT_TTL);
    }
  }

  lemma LogTransferred(events: seq<Event>, place: map<nat, Address>, bound: nat, id: nat, from: Address, to: Address)
    requires Logged(events, place, bound)
    ensures Logged(events + [Transferred(id, from, to)], place[id := to], bound)
  {
    LogNext(events, Transferred(id, from, to));
  }

  lemma ReassignKeeps(s: State, id: nat, newOwner: Address)
    requires Inv(s)
    ensures Inv(DoReassign(s, id, newOwner).state)
    ensures DoReassign(s, id, newOwner).Done? <==> id in s.alerts
    ensures DoReassign(s, id, newOwner).Failed? ==> DoReassign(s, id, newOwner).error == AlertNotFound
    ensures StillListed(s, DoReassign(s, id, newOwner).state)
  {
    hide Faithful, Complete, Logged, FlagsAgree, Dated, OwnerOf, TargetOf, Store, Put, Without, Listing;
    if id in s.alerts {
      DatedAt(s, id);
      var c := s.alerts[id].value.(owner := newOwner, updatedAt := s.timestamp);
      MoveKeeps(s.owners, OwnerOf(s.alerts), s.nextId, id, newOwner, s.ledger);
      PutPlaces(s.alerts, id, c, s.ledger, DEFAULT_TTL);
      PutFlags(s, id, c, false);
      PutDated(s, id, c, false);
      PutSamePlaces(s.alerts, id, c, s.ledger, DEFAULT_TTL);
      LogTransferred(s.events, OwnerOf(s.alerts), s.nextId, id, s.alerts[id].value.owner, newOwner);
    }
  }

  lemma SurvivingRecords(s: State, ledgers: nat, seconds: nat)
    requires FlagsAgree(s.alerts, s.flags) && Dated(s.alerts, s.timestamp)
    requires Logged(s.events, OwnerOf(s.alerts), s.nextId)
    ensures var t := DoWait(s, ledgers, seconds);
            FlagsAgree(t.alerts, t.flags) && Dated(t.alerts, t.timestamp) && Logged(t.events, OwnerOf(t.alerts), t.nextId)
  {
    hide Registrations, Ownership;
  }

  lemma WaitKeeps(s: State, ledgers: nat, seconds: nat)
    requires Inv(s)
    ensures Inv(DoWait(s, ledgers, seconds))
    ensures forall side, a :: Listed(s, side, a) ==>
              (Listed(DoWait(s, ledgers, seconds), side, a) <==> Outlives(s, side, a, s.ledger + ledgers))
  {
    hide Faithful, Complete, Needed, Logged, FlagsAgree, Dated;
    var t := DoWait(s, ledgers, seconds);
    SurvivingRecords(s, ledgers, seconds);
    SurvivorsKeep(s.owners, OwnerOf(s.alerts), s.nextId, t.ledger, OwnerOf(t.alerts));
    SurvivorsKeep(s.targets, TargetOf(s.alerts), s.nextId, t.ledger, TargetOf(t.alerts));
  }

  lemma EffectKeepsInv(s: State, e: Effect)
    requires Inv(s)
    ensures Inv(Do(s, e).state)
    ensures Do(s, e).Failed? ==> Do(s, e).error != DuplicateAlertId
    ensures !e.Wait? ==> StillListed(s, Do(s, e).state)
  {
    hide Faithful, Complete, Logged, FlagsAgree, Dated, OwnerOf, TargetOf, Put, Extend;
    hide DoAdmit, DoEnroll, DoTouch, DoRenew, DoErase, DoRetarget, DoReassign, DoWait;
    match e
    case Admit(owner, additional) => AdmitKeeps(s, owner, additional);
    case Enroll(owner, input, tags) => EnrollKeeps(s, owner, input, tags);
    case Edit(id, patch) => EditKeeps(s, id, patch);
    case TouchIndexes(id) => if id in s.alerts { TouchedInv(s, s.alerts[id].value, DEFAULT_TTL); }
    case Renew(id, ttl) => RenewKeeps(s, id, ttl);
    case Keep(id) => if id in s.alerts { ExtendedInv(s, id, DEFAULT_TTL, false); }
    case Deactivate(id) => EditKeeps(s, id, Active(false));
    case Erase(id, caller, asAdmin) => EraseKeeps(s, id, caller, asAdmin);
    case Retarget(id, target) => RetargetKeeps(s, id, target);
    case Reassign(id, newOwner) => ReassignKeeps(s, id, newOwner);
    case Publish(notice) => LogNote(s.events, OwnerOf(s.alerts), s.nextId, notice);
    case PutLimit(_) =>
    case PutPaused(_) =>
    case PutAdmins(_) =>
    case Wait(ledgers, seconds) => WaitKeeps(s, ledgers, seconds);
  }

  // ---------------------------------------------------------------- whole calls and whole runs

  lemma {:induction false} PlanKeepsInv(s: State, es: seq<Effect>)
    requires Inv(s)
    ensures Inv(DoAll(s, es).state)
    ensures DoAll(s, es).Failed? ==> DoAll(s, es).error != DuplicateAlertId
    decreases |es|
  {
    if es != [] {
      PlanKeepsInv(s, es[..|es| - 1]);
      EffectKeepsInv(DoAll(s, es[..|es| - 1]).state, es[|es| - 1]);
    }
  }

  /** The raw writes of any entry point keep the invariant, also when it returns an error. */
  lemma ExecKeepsInv(s: State, op: Op)
    requires Inv(s)
    ensures Inv(Exec(s, op).state)
  {
    hide Inv, DoAll;
    if Plan(s, op).Ok? {
      PlanKeepsInv(s, Plan(s, op).value);
    }
  }

  /** No entry point ever returns `DuplicateAlertId`, even after lists expired and were rebuilt. */
  lemma DuplicateUnreachable(s: State, op: Op)
    requires Inv(s)
    ensures Exec(s, op).Failed? ==> Exec(s, op).error != DuplicateAlertId
  {
    hide Inv, DoAll;
    if Plan(s, op).Ok? {
      PlanKeepsInv(s, Plan(s, op).value);
    }
  }

  lemma {:induction false} RunKeepsInv(s: State, ops: seq<Op>)
    requires Inv(s)
    ensures Inv(Run(s, ops))
    decreases |ops|
  {
    if ops != [] {
      RunKeepsInv(s, ops[..|ops| - 1]);
      ExecKeepsInv(Run(s, ops[..|ops| - 1]), ops[|ops| - 1]);
    }
  }
}
