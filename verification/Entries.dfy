/** What each successful call leaves of the index lists, the flags, the settings and the event log. */
module Entries {
  import opened Host
  import opened Seqs
  import opened AlertModel
  import opened AlertInvariant
  import opened Enrolment
  import opened Rows
  import opened Loops
  import opened Lifetimes
  import Fields

  // ---------------------------------------------------------------- the index lists

  function PrunedList(s: State, a: Address): seq<nat> {
    if s.limit == 0 then Listing(s.owners, a) else Only(Listing(s.owners, a), s.alerts.Keys)
  }

  /** The list of `a` after a successful call. */
  function ListAfter(s: State, op: Op, side: Side, a: Address): seq<nat> {
    var ids := Listing(IndexOf(s, side), a);
    match op
    case Register(owner, input, _) =>
      if side.ByOwner? then if a == owner then PrunedList(s, a) + [s.nextId] else ids
      else if a == input.target then ids + [s.nextId] else ids
    case BatchRegister(caller, inputs) =>
      if side.ByOwner? then if a == caller then PrunedList(s, a) + Range(s.nextId, |inputs|) else ids
      else ids + IdsFor(inputs, s.nextId, a)
    case RemoveAlert(_, id) => if ListsUnder(s, op, side, a, id) then Without(ids, id) else ids
    case RemoveAlertByAdmin(_, id) => if ListsUnder(s, op, side, a, id) then Without(ids, id) else ids
    case UpdateTarget(_, id, target) =>
      if side.ByOwner? then ids else
        var rest := if ListsUnder(s, op, side, a, id) then Without(ids, id) else ids;
        if a == target then rest + [id] else rest
    case TransferOwnership(owner, id, newOwner) =>
      if side.ByTarget? || newOwner == owner then ids
      else if a == newOwner then PrunedList(s, a) + [id]
      else if a == owner then Without(ids, id)
      else ids
    case Advance(ledgers, _) =>
      if a in IndexOf(s, side) && IndexOf(s, side)[a].liveUntil >= s.ledger + ledgers then ids else []
    case _ => ids
  }

  lemma AppendedListing(m: Index, r: Index, a: Address, ids: seq<nat>, now: nat)
    requires Appended(m, r, a, ids, now)
    ensures Listing(r, a) == Listing(m, a) + ids
  {}

  lemma PrunedListing(s: State, p: State, owner: Address, a: Address)
    requires PrunedOf(s, p, owner)
    ensures Listing(p.owners, a) == if a == owner then PrunedList(s, a) else Listing(s.owners, a)
    ensures p == s.(owners := p.owners)
  {
    hide Only;
  }

  lemma OneId(input: AlertInput, first: nat, a: Address)
    ensures IdsFor([input], first, a) == if a == input.target then [first] else []
    ensures Range(first, 1) == [first]
  {
    assert [input][..0] == [];
  }

  lemma EnrolledLists(s: State, p: State, t: State, op: Op, owner: Address, inputs: seq<AlertInput>, tags: Option<seq<string>>, side: Side, a: Address)
    requires (op.Register? && inputs == [op.input] && op.owner == owner) || op == BatchRegister(owner, inputs)
    requires PrunedOf(s, p, owner) && Enrolled(p, t, owner, inputs, tags)
    ensures Listing(IndexOf(t, side), a) == ListAfter(s, op, side, a)
  {
    hide PrunedOf, Appended, Announcements, IdsFor, Listing, PrunedList, NewRecords, NewFlags, Range;
    PrunedListing(s, p, owner, a);
    AppendedListing(p.owners, t.owners, a, OwnIds(owner, p.nextId, |inputs|, a), s.ledger);
    AppendedListing(p.targets, t.targets, a, IdsFor(inputs, p.nextId, a), s.ledger);
    if op.Register? { OneId(op.input, s.nextId, a); }
  }

  lemma StoredListing(m: Index, b: Address, ids: seq<nat>, now: nat, a: Address)
    ensures Listing(Store(m, b, ids, now), a) == if a == b then ids else Listing(m, a)
  {}

  lemma MovedListing(m: Index, b: Address, id: nat, to: Address, now: nat, a: Address)
    ensures var rest := if a == b then Without(Listing(m, b), id) else Listing(m, a);
            && Listing(Dropped(m, b, id, now), a) == rest
            && Listing(Added(Dropped(m, b, id, now), to, id, now), a) == if a == to then rest + [id] else rest
  {
    hide Store, Listing, Without;
    StoredListing(m, b, Without(Listing(m, b), id), now, a);
    StoredListing(Dropped(m, b, id, now), to, Listing(Dropped(m, b, id, now), to) + [id], now, a);
  }

  lemma MovingLists(s: State, op: Op, side: Side, a: Address)
    requires (Removes(op) || op.UpdateTarget? || op.TransferOwnership?) && Exec(s, op).Done?
    ensures Listing(IndexOf(Apply(s, op), side), a) == ListAfter(s, op, side, a)
  {
    hide Exec, Apply, Dropped, Added, PrunedOf, Listing, Without, PrunedList;
    if Removes(op) {
      RemoveRow(s, op);
      var c := s.alerts[op.id].value;
      MovedListing(s.owners, c.owner, op.id, c.owner, s.ledger, a);
      MovedListing(s.targets, c.target, op.id, c.target, s.ledger, a);
    } else if op.UpdateTarget? {
      RetargetRow(s, op);
      MovedListing(s.targets, s.alerts[op.id].value.target, op.id, op.target, s.ledger, a);
    } else if op.newOwner == op.owner {
      SelfTransferRow(s, op);
    } else {
      var p := TransferRow(s, op);
      PrunedListing(s, p, op.newOwner, a);
      PrunedListing(s, p, op.newOwner, op.owner);
      MovedListing(p.owners, op.owner, op.id, op.newOwner, s.ledger, a);
    }
  }

  predicate LeavesLists(op: Op) {
    || Edits(op) || op.GetAlert? || op.SetLimit? || op.SetPaused? || op.SetAdmins? || op.DeactivateAll?
    || op.BumpAlert? || op.BulkRenew?
  }

  lemma SameLists(s: State, op: Op, side: Side, a: Address)
    requires LeavesLists(op) && Exec(s, op).Done?
    ensures Listing(IndexOf(Apply(s, op), side), a) == Listing(IndexOf(s, side), a)
  {
    hide Exec, Apply, Bumps, LiveOf, OwnersFor, TargetsFor, Value, NoticeOf, Put;
    if Edits(op) {
      EditRow(s, op);
    } else if op.DeactivateAll? {
      DeactivateAllSwitchesOff(s, op.caller);
    } else if op.BumpAlert? {
      BumpRow(s, op);
    } else if op.BulkRenew? {
      BulkRenewProlongs(s, op.ids);
    } else {
      OtherRow(s, op);
    }
  }

  /** Every list after every successful call. */
  lemma ListsExactly(s: State, op: Op, side: Side, a: Address)
    requires Inv(s) && Exec(s, op).Done?
    ensures Listing(IndexOf(Apply(s, op), side), a) == ListAfter(s, op, side, a)
  {
    hide Inv, Exec, Apply, Enrolled, PrunedOf, Listing, PrunedList;
    if op.Register? {
      var p := RegisterEnrols(s, op.owner, op.input, op.tags);
      EnrolledLists(s, p, Apply(s, op), op, op.owner, [op.input], op.tags, side, a);
    } else if op.BatchRegister? {
      var p := BatchEnrols(s, op.caller, op.inputs);
      EnrolledLists(s, p, Apply(s, op), op, op.caller, op.inputs, None, side, a);
    } else if Removes(op) || op.UpdateTarget? || op.TransferOwnership? {
      MovingLists(s, op, side, a);
    } else if op.Advance? {
      AdvancedLists(s, op, side, a);
    } else {
      SameLists(s, op, side, a);
    }
  }

  lemma AdvancedLists(s: State, op: Op, side: Side, a: Address)
    requires op.Advance?
    ensures Listing(IndexOf(Apply(s, op), side), a) == ListAfter(s, op, side, a)
  {
    hide Exec, Apply;
    AdvanceIsWait(s, op);
  }

  // ---------------------------------------------------------------- settings and events

  /** The events that a successful call publishes. */
  function Published(s: State, op: Op): seq<Event> {
    match op
    case Register(owner, input, _) => [Registered(s.nextId, owner, input.target)]
    case BatchRegister(caller, inputs) => Announcements(caller, inputs, s.nextId)
    case SetActiveByAdmin(admin, id, active) => [Note(Updated(id, admin, active))]
    case UpdateAlert(caller, id, _, active) => [Note(Updated(id, caller, active))]
    case UpdateWebhook(caller, id, _) => [Note(WebhookChanged(id, caller))]
    case ProposeWebhook(caller, id, _) => [Note(WebhookProposed(id, caller))]
    case ConfirmWebhook(caller, id) => [Note(WebhookChanged(id, caller))]
    case UpdateLabel(caller, id, _) => [Note(Updated(id, caller, id in s.alerts && s.alerts[id].value.active))]
    case UpdateTags(caller, id, _) => [Note(Tagged(id, caller))]
    case RemoveAlert(caller, id) => [Removed(id, caller)]
    case RemoveAlertByAdmin(admin, id) =>
      [RemovedByAdmin(id, admin, if id in s.alerts then s.alerts[id].value.owner else "")]
    case BumpAlert(id, ttl) => [Note(Bumped(id, Min(ttl, MAX_TTL)))]
    case BulkRenew(ids) => Bumps(Only(ids, s.alerts.Keys), DEFAULT_TTL)
    case TransferOwnership(owner, id, newOwner) => if newOwner == owner then [] else [Transferred(id, owner, newOwner)]
    case SetLimit(admin, limit) => [Note(LimitSet(admin, limit))]
    case SetPaused(admin, paused) => [Note(PauseSet(admin, paused))]
    case _ => []
  }

  /** The counter, the settings, the clock and the log after a successful call. */
  ghost predicate Recorded(s: State, t: State, op: Op) {
    && t.nextId == s.nextId + (if op.Register? then 1 else if op.BatchRegister? then |op.inputs| else 0)
    && t.limit == (if op.SetLimit? then op.limit else s.limit)
    && t.paused == (if op.SetPaused? then op.paused else s.paused)
    && t.admins == (if op.SetAdmins? then op.admins else s.admins)
    && t.ledger == s.ledger + (if op.Advance? then op.ledgers else 0)
    && t.timestamp == s.timestamp + (if op.Advance? then op.seconds else 0)
    && t.events == s.events + Published(s, op)
  }

  lemma OneAnnouncement(owner: Address, input: AlertInput, first: nat)
    ensures Announcements(owner, [input], first) == [Registered(first, owner, input.target)]
  {}

  lemma EnrolledRecorded(s: State, p: State, t: State, op: Op, owner: Address, inputs: seq<AlertInput>, tags: Option<seq<string>>)
    requires (op.Register? && inputs == [op.input] && op.owner == owner) || op == BatchRegister(owner, inputs)
    requires PrunedOf(s, p, owner) && Enrolled(p, t, owner, inputs, tags)
    ensures Recorded(s, t, op)
  {
    hide PrunedOf, NewRecords, NewFlags, Appended, Announcements;
    PrunedListing(s, p, owner, owner);
    if op.Register? { OneAnnouncement(owner, op.input, s.nextId); }
  }

  lemma OneBump(s: State, id: nat, ttl: nat)
    requires id in s.alerts
    ensures Bumps(Only([id], s.alerts.Keys), ttl) == [Note(Bumped(id, ttl))]
  {
    SetsOfOne(s, id);
  }

  lemma MovingRecorded(s: State, op: Op)
    requires (Removes(op) || op.UpdateTarget? || op.TransferOwnership?) && Exec(s, op).Done?
    ensures Recorded(s, Apply(s, op), op)
  {
    hide Exec, Apply, PrunedOf, Put, Dropped, Added;
    if Removes(op) {
      RemoveRow(s, op);
    } else if op.UpdateTarget? {
      RetargetRow(s, op);
    } else if op.newOwner == op.owner {
      SelfTransferRow(s, op);
    } else {
      var p := TransferRow(s, op);
      PrunedListing(s, p, op.newOwner, op.newOwner);
    }
  }

  lemma RenewingRecorded(s: State, op: Op)
    requires (op.BumpAlert? || op.BulkRenew? || op.DeactivateAll?) && Exec(s, op).Done?
    ensures Recorded(s, Apply(s, op), op)
  {
    hide Exec, Apply, Lengthened, Bumps, Only, OffRecords, OffFlags;
    if op.BumpAlert? {
      BumpRow(s, op);
      OneBump(s, op.id, Min(op.ttl, MAX_TTL));
    } else if op.BulkRenew? {
      BulkRenewProlongs(s, op.ids);
    } else {
      DeactivateAllSwitchesOff(s, op.caller);
    }
  }

  lemma OtherRecorded(s: State, op: Op)
    requires Exec(s, op).Done?
    requires Edits(op) || op.GetAlert? || op.SetLimit? || op.SetPaused? || op.SetAdmins? || op.Advance?
    ensures Recorded(s, Apply(s, op), op)
  {
    hide Exec, Apply, Put, Extend, Surviving;
    if Edits(op) { EditRow(s, op); } else { OtherRow(s, op); }
  }

  /** Every successful call. */
  lemma RecordedExactly(s: State, op: Op)
    requires Inv(s) && Exec(s, op).Done?
    ensures Recorded(s, Apply(s, op), op)
  {
    hide Inv, Exec, Apply, Recorded, Enrolled, PrunedOf;
    if op.Register? {
      var p := RegisterEnrols(s, op.owner, op.input, op.tags);
      EnrolledRecorded(s, p, Apply(s, op), op, op.owner, [op.input], op.tags);
    } else if op.BatchRegister? {
      var p := BatchEnrols(s, op.caller, op.inputs);
      EnrolledRecorded(s, p, Apply(s, op), op, op.caller, op.inputs, None);
    } else if Removes(op) || op.UpdateTarget? || op.TransferOwnership? {
      MovingRecorded(s, op);
    } else if op.BumpAlert? || op.BulkRenew? || op.DeactivateAll? {
      RenewingRecorded(s, op);
    } else {
      OtherRecorded(s, op);
    }
  }

  // ---------------------------------------------------------------- the flags

  /** Which flags are stored after a successful call. */
  predicate FlagAfter(s: State, op: Op, id: nat) {
    match op
    case SetActiveByAdmin(_, i, _) => id in s.flags || id == i
    case UpdateAlert(_, i, _, _) => id in s.flags || id == i
    case DeactivateAll(caller) =>
      id in s.flags || (id in Listing(s.owners, caller) && id in s.alerts && s.alerts[id].value.active)
    case RemoveAlert(_, gone) => id in s.flags && id != gone
    case RemoveAlertByAdmin(_, gone) => id in s.flags && id != gone
    case Advance(ledgers, _) => id in s.flags && s.flags[id].liveUntil >= s.ledger + ledgers
    case _ => id in s.flags || Fields.Registers(s, op, id)
  }

  lemma EnrolledFlags(s: State, op: Op, id: nat)
    requires Inv(s) && Exec(s, op).Done? && (op.Register? || op.BatchRegister?)
    ensures id in Apply(s, op).flags <==> FlagAfter(s, op, id)
  {
    hide Inv, Exec, Apply, PrunedOf, Announcements, NewRecords, Appended;
    if op.Register? {
      var p := RegisterEnrols(s, op.owner, op.input, op.tags);
      PrunedListing(s, p, op.owner, op.owner);
    } else {
      var p := BatchEnrols(s, op.caller, op.inputs);
      PrunedListing(s, p, op.caller, op.caller);
    }
  }

  lemma MovingFlags(s: State, op: Op, id: nat)
    requires (Removes(op) || op.UpdateTarget? || op.TransferOwnership?) && Exec(s, op).Done?
    ensures id in Apply(s, op).flags <==> FlagAfter(s, op, id)
  {
    hide Exec, Apply, PrunedOf, Put, Dropped, Added;
    if Removes(op) {
      RemoveRow(s, op);
    } else if op.UpdateTarget? {
      RetargetRow(s, op);
    } else if op.newOwner == op.owner {
      SelfTransferRow(s, op);
    } else {
      var p := TransferRow(s, op);
      PrunedListing(s, p, op.newOwner, op.newOwner);
    }
  }

  lemma OtherFlags(s: State, op: Op, id: nat)
    requires LeavesLists(op) || op.Advance?
    requires Exec(s, op).Done?
    ensures id in Apply(s, op).flags <==> FlagAfter(s, op, id)
  {
    hide Exec, Apply, Bumps, Value, NoticeOf, OffRecords, Listing, LiveOf, OwnersFor, TargetsFor;
    if Edits(op) {
      EditRow(s, op);
    } else if op.DeactivateAll? {
      DeactivateAllSwitchesOff(s, op.caller);
    } else if op.BumpAlert? {
      BumpRow(s, op);
    } else if op.BulkRenew? {
      BulkRenewProlongs(s, op.ids);
    } else {
      OtherRow(s, op);
    }
  }

  /** Every flag after every successful call; by the invariant it says what the record says. */
  lemma FlagsExactly(s: State, op: Op, id: nat)
    requires Inv(s) && Exec(s, op).Done?
    ensures id in Apply(s, op).flags <==> FlagAfter(s, op, id)
  {
    hide Inv, Exec, Apply, FlagAfter;
    if op.Register? || op.BatchRegister? {
      EnrolledFlags(s, op, id);
    } else if Removes(op) || op.UpdateTarget? || op.TransferOwnership? {
      MovingFlags(s, op, id);
    } else {
      OtherFlags(s, op, id);
    }
  }
}
