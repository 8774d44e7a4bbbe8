/** How long entries live: for every call and every entry the exact ledger through which it stays
    readable afterwards. */
module Lifetimes {
  import opened Host
  import opened Seqs
  import opened AlertModel
  import opened AlertInvariant
  import opened Enrolment
  import opened Rows
  import opened Loops
  import EntryPoints
  import Fields

  // ---------------------------------------------------------------- the two renewals

  /** `bump_alert` gives the record, its flag and both of its lists exactly the clamped lifetime, or leaves
      them the longer one they had; every other entry, and everything stored, is as before. */
  lemma BumpExtends(s: State, id: nat, ttl: nat)
    requires Exec(s, BumpAlert(id, ttl)).Done?
    ensures id in s.alerts
    ensures var t, c, until := Apply(s, BumpAlert(id, ttl)), s.alerts[id].value, s.ledger + Min(ttl, MAX_TTL);
            && Lengthened(s.alerts, t.alerts, {id}, until)
            && Lengthened(s.flags, t.flags, {id}, until)
            && Lengthened(s.owners, t.owners, {c.owner}, until)
            && Lengthened(s.targets, t.targets, {c.target}, until)
            && t == s.(alerts := t.alerts, flags := t.flags, owners := t.owners, targets := t.targets,
                       events := s.events + [Note(Bumped(id, Min(ttl, MAX_TTL)))])
  {
    hide Exec, Apply, Lengthened, LiveOf, OwnersFor, TargetsFor, Only;
    BumpRow(s, BumpAlert(id, ttl));
    SetsOfOne(s, id);
    assert Bumps([id], Min(ttl, MAX_TTL)) == [Note(Bumped(id, Min(ttl, MAX_TTL)))];
  }

  /** `bulk_renew_ttl` does the same with the default lifetime for every live alert among `ids`. */
  lemma BulkRenewExtends(s: State, ids: seq<nat>)
    requires Exec(s, BulkRenew(ids)).Done?
    ensures var t, until := Apply(s, BulkRenew(ids)), s.ledger + DEFAULT_TTL;
            && Lengthened(s.alerts, t.alerts, (set id | id in ids && id in s.alerts), until)
            && Lengthened(s.flags, t.flags, (set id | id in ids && id in s.alerts), until)
            && Lengthened(s.owners, t.owners, (set id | id in ids && id in s.alerts :: s.alerts[id].value.owner), until)
            && Lengthened(s.targets, t.targets, (set id | id in ids && id in s.alerts :: s.alerts[id].value.target), until)
            && t == s.(alerts := t.alerts, flags := t.flags, owners := t.owners, targets := t.targets, events := t.events)
  {
    hide Exec, Apply, Lengthened;
    BulkRenewProlongs(s, ids);
  }

  /** The entries readable at ledger `now` that are still there at ledger `later`. */
  ghost predicate LastsIn<K, V>(before: map<K, Entry<V>>, after: map<K, Entry<V>>, now: nat, later: nat) {
    && (forall k :: k in after ==> k in before && after[k] == before[k])
    && (forall k :: k in before && before[k].liveUntil >= now ==> (k in after <==> before[k].liveUntil >= later))
  }

  lemma LastsOn<K, V>(before: map<K, Entry<V>>, after: map<K, Entry<V>>, now: nat, later: nat, last: nat)
    requires LastsIn(before, after, now, later) && now <= later <= last
    ensures LastsIn(before, Surviving(after, last), now, last)
  {}

  /** Every entry of `t` was in `s`, and of those readable in `s` exactly the ones whose last ledger has
      not passed are in `t`. */
  ghost predicate Outlasts(s: State, t: State) {
    && t.ledger >= s.ledger
    && LastsIn(s.alerts, t.alerts, s.ledger, t.ledger)
    && LastsIn(s.flags, t.flags, s.ledger, t.ledger)
    && LastsIn(s.owners, t.owners, s.ledger, t.ledger)
    && LastsIn(s.targets, t.targets, s.ledger, t.ledger)
  }

  lemma WaitOutlasts(s: State, t: State, ledgers: nat, seconds: nat)
    requires Outlasts(s, t)
    ensures Outlasts(s, DoWait(t, ledgers, seconds))
  {
    hide LastsIn, Surviving;
    var last := t.ledger + ledgers;
    LastsOn(s.alerts, t.alerts, s.ledger, t.ledger, last);
    LastsOn(s.flags, t.flags, s.ledger, t.ledger, last);
    LastsOn(s.owners, t.owners, s.ledger, t.ledger, last);
    LastsOn(s.targets, t.targets, s.ledger, t.ledger, last);
  }

  /** While nothing but time passes, an entry stays readable exactly through its last ledger. */
  lemma {:induction false} OnlyTimePasses(s: State, ops: seq<Op>)
    requires forall i :: 0 <= i < |ops| ==> ops[i].Advance?
    ensures Outlasts(s, Run(s, ops))
    decreases |ops|
  {
    if ops != [] {
      hide Apply, Outlasts, DoWait;
      var front, op := ops[..|ops| - 1], ops[|ops| - 1];
      OnlyTimePasses(s, front);
      AdvanceIsWait(Run(s, front), op);
      WaitOutlasts(s, Run(s, front), op.ledgers, op.seconds);
    }
  }

  /** So a bumped alert that nobody touches again is readable exactly through the ledger it was bumped to,
      or the later one it had; and its flag and its two lists likewise. */
  lemma BumpedUntil(s: State, id: nat, ttl: nat, ops: seq<Op>)
    requires Exec(s, BumpAlert(id, ttl)).Done? && forall i :: 0 <= i < |ops| ==> ops[i].Advance?
    ensures var t, until := Run(Apply(s, BumpAlert(id, ttl)), ops), s.ledger + Min(ttl, MAX_TTL);
            && id in s.alerts && id in s.flags
            && (id in t.alerts <==> t.ledger <= Max(s.alerts[id].liveUntil, until))
            && (id in t.flags <==> t.ledger <= Max(s.flags[id].liveUntil, until))
            && var c := s.alerts[id].value;
            && c.owner in s.owners && c.target in s.targets
            && (c.owner in t.owners <==> t.ledger <= Max(s.owners[c.owner].liveUntil, until))
            && (c.target in t.targets <==> t.ledger <= Max(s.targets[c.target].liveUntil, until))
  {
    BumpFinds(s, id, ttl);
    hide Exec, Apply, Run;
    BumpExtends(s, id, ttl);
    OnlyTimePasses(Apply(s, BumpAlert(id, ttl)), ops);
  }

  lemma BumpFinds(s: State, id: nat, ttl: nat)
    requires Exec(s, BumpAlert(id, ttl)).Done?
    ensures id in s.alerts && id in s.flags
    ensures s.alerts[id].value.owner in s.owners && s.alerts[id].value.target in s.targets
  {
    hide Exec, DoTouch, Extend;
    EntryPoints.BumpAlert(s, id, ttl);
    RenewWrites(s, id, Min(ttl, MAX_TTL));
  }

  // ---------------------------------------------------------------- every call, every entry

  function Longer(until: nat, now: nat, ttl: Option<nat>): nat {
    if ttl.Some? then Max(until, now + ttl.value) else until
  }

  predicate Renewed(s: State, op: Op, id: nat) {
    || Fields.Registers(s, op, id)
    || (op.BulkRenew? && id in op.ids)
    || (op.DeactivateAll? && id in Listing(s.owners, op.caller) && id in s.alerts && s.alerts[id].value.active)
  }

  /** The lifetime that a successful call gives the record of `id`, if any. */
  function RecordTtl(s: State, op: Op, id: nat): Option<nat> {
    if op.BumpAlert? && op.id == id then Some(Min(op.ttl, MAX_TTL))
    else if Renewed(s, op, id)
         || (Edits(op) && op.id == id)
         || (op.GetAlert? && op.id == id)
         || (op.UpdateTarget? && op.id == id)
         || (op.TransferOwnership? && op.id == id && op.newOwner != op.owner) then Some(DEFAULT_TTL)
    else None
  }

  /** The lifetime that it gives the flag. */
  function FlagTtl(s: State, op: Op, id: nat): Option<nat> {
    if op.BumpAlert? && op.id == id then Some(Min(op.ttl, MAX_TTL))
    else if Renewed(s, op, id) || (op.SetActiveByAdmin? && op.id == id) || (op.UpdateAlert? && op.id == id)
      then Some(DEFAULT_TTL)
    else None
  }

  /** Where a live alert is listed. */
  function Home(s: State, side: Side, id: nat): Address
    requires id in s.alerts
  {
    if side.ByOwner? then s.alerts[id].value.owner else s.alerts[id].value.target
  }

  predicate ListsUnder(s: State, op: Op, side: Side, a: Address, id: nat) {
    id in s.alerts && Home(s, side, id) == a
  }

  /** Whether pruning rewrites the list of `a`, and whether nothing is left of it. */
  predicate Prunes(s: State, a: Address) {
    s.limit > 0 && Only(Listing(s.owners, a), s.alerts.Keys) != Listing(s.owners, a)
  }

  predicate PrunedAway(s: State, a: Address) {
    Prunes(s, a) && Only(Listing(s.owners, a), s.alerts.Keys) == []
  }

  /** The lifetime that a successful call gives the list of `a`, if any. */
  ghost function ListTtl(s: State, op: Op, side: Side, a: Address): Option<nat> {
    if op.BumpAlert? && ListsUnder(s, op, side, a, op.id) then Some(Min(op.ttl, MAX_TTL))
    else if
      || ((ExtendsLists(op) || Removes(op)) && ListsUnder(s, op, side, a, op.id))
      || (op.BulkRenew? && exists id :: id in op.ids && ListsUnder(s, op, side, a, id))
      || (op.Register? && a == if side.ByOwner? then op.owner else op.input.target)
      || (op.BatchRegister? && side.ByOwner? && a == op.caller && (op.inputs != [] || Prunes(s, a)))
      || (op.BatchRegister? && side.ByTarget? && exists i :: 0 <= i < |op.inputs| && op.inputs[i].target == a)
      || (op.UpdateTarget? && side.ByTarget? && (a == op.target || ListsUnder(s, op, side, a, op.id)))
      || (op.TransferOwnership? && side.ByOwner? && op.newOwner != op.owner && (a == op.owner || a == op.newOwner))
    then Some(DEFAULT_TTL)
    else None
  }

  /** Whether the call deletes the list of `a` before it writes it anew, so that it starts afresh. */
  predicate StartsAfresh(s: State, op: Op, side: Side, a: Address) {
    || (op.Register? && side.ByOwner? && a == op.owner && PrunedAway(s, a))
    || (op.BatchRegister? && side.ByOwner? && a == op.caller && PrunedAway(s, a))
    || (op.TransferOwnership? && side.ByOwner? && a == op.newOwner && op.newOwner != op.owner && PrunedAway(s, a))
    || (op.UpdateTarget? && side.ByTarget? && a == op.target && ListsUnder(s, op, side, a, op.id)
        && Without(Listing(s.targets, a), op.id) == [])
  }

  ghost predicate RecordLasts(s: State, t: State, op: Op, id: nat) {
    id in t.alerts ==> t.alerts[id].liveUntil == Longer(Until(s.alerts, id), s.ledger, RecordTtl(s, op, id))
  }

  ghost predicate FlagLasts(s: State, t: State, op: Op, id: nat) {
    id in t.flags ==> t.flags[id].liveUntil == Longer(Until(s.flags, id), s.ledger, FlagTtl(s, op, id))
  }

  ghost predicate ListLasts(s: State, t: State, op: Op, side: Side, a: Address) {
    a in IndexOf(t, side) ==>
      IndexOf(t, side)[a].liveUntil ==
      Longer(if StartsAfresh(s, op, side, a) then 0 else Until(IndexOf(s, side), a), s.ledger, ListTtl(s, op, side, a))
  }

  ghost predicate Lasts(s: State, t: State, op: Op, id: nat, side: Side, a: Address) {
    RecordLasts(s, t, op, id) && FlagLasts(s, t, op, id) && ListLasts(s, t, op, side, a)
  }

  // ---------------------------------------------------------------- proofs, group by group

  lemma EditedEntries(s: State, t: State, op: Op, id: nat)
    requires Edits(op) && Edited(s, t, op)
    ensures RecordLasts(s, t, op, id) && FlagLasts(s, t, op, id)
  {
    hide Value, NoticeOf, Listing;
  }

  lemma EditedLists(s: State, t: State, op: Op, side: Side, a: Address)
    requires Edits(op) && Edited(s, t, op)
    ensures ListLasts(s, t, op, side, a)
  {
    hide Value, NoticeOf, Prunes, PrunedAway, Put, Without, Listing;
  }

  lemma StoredLasts(m: Index, b: Address, ids: seq<nat>, now: nat, a: Address)
    requires a in Store(m, b, ids, now)
    ensures Store(m, b, ids, now)[a].liveUntil == if a == b then Max(Until(m, a), now + DEFAULT_TTL) else Until(m, a)
    ensures a == b ==> ids != []
  {}

  lemma RemovedLasts(s: State, op: Op, id: nat, side: Side, a: Address)
    requires Removes(op) && Exec(s, op).Done?
    ensures Lasts(s, Apply(s, op), op, id, side, a)
  {
    hide Exec, Apply, Store, Only, Without, Listing;
    RemoveRow(s, op);
    var c, t := s.alerts[op.id].value, Apply(s, op);
    if a in t.owners { StoredLasts(s.owners, c.owner, Without(Listing(s.owners, c.owner), op.id), s.ledger, a); }
    if a in t.targets { StoredLasts(s.targets, c.target, Without(Listing(s.targets, c.target), op.id), s.ledger, a); }
  }

  /** A list that loses an id and another, or the same, that gains it. */
  lemma MovedList(m: Index, b: Address, id: nat, to: Address, now: nat, a: Address)
    ensures var r := Added(Dropped(m, b, id, now), to, id, now);
            a in r ==> (r[a].liveUntil ==
              if a == to && a == b && Without(Listing(m, b), id) == [] then now + DEFAULT_TTL
              else if a == to || a == b then Max(Until(m, a), now + DEFAULT_TTL)
              else Until(m, a))
  {
    hide Without, Listing;
  }

  lemma RetargetLasts(s: State, op: Op, id: nat, side: Side, a: Address)
    requires op.UpdateTarget? && Exec(s, op).Done?
    ensures Lasts(s, Apply(s, op), op, id, side, a)
  {
    hide Exec, Apply, Dropped, Added, Only, Without, Listing;
    RetargetRow(s, op);
    MovedList(s.targets, s.alerts[op.id].value.target, op.id, op.target, s.ledger, a);
  }

  lemma PrunedUntil(s: State, p: State, owner: Address, a: Address)
    requires PrunedOf(s, p, owner)
    ensures Until(p.owners, a) == if a == owner && PrunedAway(s, a) then 0
                                  else if a == owner && Prunes(s, a) then Max(Until(s.owners, a), s.ledger + DEFAULT_TTL)
                                  else Until(s.owners, a)
    ensures a == owner && PrunedAway(s, a) ==> a !in p.owners
  {
    hide Only;
  }

  lemma TransferLasts(s: State, op: Op, id: nat, side: Side, a: Address)
    requires op.TransferOwnership? && Exec(s, op).Done?
    ensures Lasts(s, Apply(s, op), op, id, side, a)
  {
    hide Exec, Apply, Dropped, Added, PrunedOf, PrunedAway, Prunes, Without, Listing;
    if op.newOwner == op.owner {
      SelfTransferRow(s, op);
    } else {
      var p := TransferRow(s, op);
      PrunedKeeps(s, p, op.newOwner);
      PrunedUntil(s, p, op.newOwner, a);
      MovedList(p.owners, op.owner, op.id, op.newOwner, s.ledger, a);
    }
  }

  lemma PrunedKeeps(s: State, p: State, owner: Address)
    requires PrunedOf(s, p, owner)
    ensures p == s.(owners := p.owners)
  {}

  lemma AppendedLasts(m: Index, r: Index, a: Address, ids: seq<nat>, now: nat)
    requires Appended(m, r, a, ids, now) && a in r
    ensures r[a].liveUntil == if ids == [] then Until(m, a) else Max(Until(m, a), now + DEFAULT_TTL)
    ensures ids == [] ==> a in m
  {}

  lemma {:induction false} IdsForSome(inputs: seq<AlertInput>, first: nat, a: Address)
    ensures IdsFor(inputs, first, a) != [] <==> exists i :: 0 <= i < |inputs| && inputs[i].target == a
  {
    if inputs != [] {
      var front := inputs[..|inputs| - 1];
      IdsForSome(front, first, a);
      assert forall i :: 0 <= i < |front| ==> inputs[i] == front[i];
      if inputs[|inputs| - 1].target != a && exists i :: 0 <= i < |inputs| && inputs[i].target == a {
        var i :| 0 <= i < |inputs| && inputs[i].target == a;
        assert front[i].target == a;
      }
    }
  }

  lemma EnrolledRecords(s: State, p: State, alerts: Records, op: Op, owner: Address, inputs: seq<AlertInput>, tags: Option<seq<string>>, id: nat)
    requires (|inputs| == 1 && op == Register(owner, inputs[0], tags)) || op == BatchRegister(owner, inputs)
    requires p == s.(owners := p.owners) && NewRecords(p, alerts, owner, inputs, tags)
    requires forall i :: i in s.alerts ==> i < s.nextId
    ensures id in alerts ==> alerts[id].liveUntil == Longer(Until(s.alerts, id), s.ledger, RecordTtl(s, op, id))
  {
    hide Listing;
    if Fields.Registers(s, op, id) {
      var i := id - s.nextId;
      var input := inputs[i];
      assert Stores(alerts[p.nextId + i], owner, input, tags, p);
    }
  }

  lemma EnrolledFlags(s: State, p: State, flags: map<nat, Entry<bool>>, op: Op, owner: Address, inputs: seq<AlertInput>, tags: Option<seq<string>>, id: nat)
    requires (|inputs| == 1 && op == Register(owner, inputs[0], tags)) || op == BatchRegister(owner, inputs)
    requires p == s.(owners := p.owners) && NewFlags(p, flags, |inputs|)
    requires forall i :: i in s.flags ==> i < s.nextId
    ensures id in flags ==> flags[id].liveUntil == Longer(Until(s.flags, id), s.ledger, FlagTtl(s, op, id))
  {
    hide Listing;
  }

  lemma EnrolledEntries(s: State, p: State, t: State, op: Op, owner: Address, inputs: seq<AlertInput>, tags: Option<seq<string>>, id: nat)
    requires (|inputs| == 1 && op == Register(owner, inputs[0], tags)) || op == BatchRegister(owner, inputs)
    requires PrunedOf(s, p, owner) && Enrolled(p, t, owner, inputs, tags)
    requires forall i :: i in s.alerts || i in s.flags ==> i < s.nextId
    ensures RecordLasts(s, t, op, id) && FlagLasts(s, t, op, id)
  {
    hide PrunedOf, Appended, Announcements, IdsFor, NewRecords, NewFlags, RecordTtl, FlagTtl;
    PrunedKeeps(s, p, owner);
    EnrolledRecords(s, p, t.alerts, op, owner, inputs, tags, id);
    EnrolledFlags(s, p, t.flags, op, owner, inputs, tags, id);
  }

  lemma EnrolledLists(s: State, p: State, t: State, op: Op, owner: Address, inputs: seq<AlertInput>, tags: Option<seq<string>>, side: Side, a: Address)
    requires (|inputs| == 1 && op == Register(owner, inputs[0], tags)) || op == BatchRegister(owner, inputs)
    requires PrunedOf(s, p, owner) && Enrolled(p, t, owner, inputs, tags)
    ensures ListLasts(s, t, op, side, a)
  {
    hide PrunedOf, Appended, NewRecords, NewFlags, Announcements, Prunes, PrunedAway, IdsFor;
    PrunedKeeps(s, p, owner);
    if side.ByOwner? {
      PrunedUntil(s, p, owner, a);
      if a in t.owners { AppendedLasts(p.owners, t.owners, a, OwnIds(owner, p.nextId, |inputs|, a), s.ledger); }
      AwayIsPruned(s, a);
      assert |OwnIds(owner, p.nextId, |inputs|, a)| == if a == owner then |inputs| else 0;
    } else {
      IdsForSome(inputs, s.nextId, a);
      if a in t.targets { AppendedLasts(p.targets, t.targets, a, IdsFor(inputs, p.nextId, a), s.ledger); }
      assert op.Register? ==> ((exists i :: 0 <= i < |inputs| && inputs[i].target == a) <==> a == inputs[0].target);
    }
  }

  lemma AwayIsPruned(s: State, a: Address)
    ensures PrunedAway(s, a) ==> Prunes(s, a)
  {}

  lemma SwitchedLasts(s: State, op: Op, id: nat, side: Side, a: Address)
    requires op.DeactivateAll? && Exec(s, op).Done?
    ensures Lasts(s, Apply(s, op), op, id, side, a)
  {
    hide Exec, Apply, Listing, Prunes, PrunedAway, Without;
    DeactivateAllSwitchesOff(s, op.caller);
  }

  lemma AmongRenewed(s: State, op: Op, side: Side, a: Address)
    requires op.BulkRenew?
    ensures (if side.ByOwner? then a in OwnersFor(s, op.ids) else a in TargetsFor(s, op.ids)) <==>
            exists id :: id in op.ids && ListsUnder(s, op, side, a, id)
  {}

  lemma BumpedLasts(s: State, op: Op, id: nat, side: Side, a: Address)
    requires op.BumpAlert? && Exec(s, op).Done?
    ensures Lasts(s, Apply(s, op), op, id, side, a)
  {
    hide Exec, Apply, Bumps, Prunes, PrunedAway, Without, Listing, Only, OwnersFor, TargetsFor, LiveOf;
    BumpRow(s, op);
    SetsOfOne(s, op.id);
  }

  lemma BulkLasts(s: State, op: Op, id: nat, side: Side, a: Address)
    requires op.BulkRenew? && Exec(s, op).Done? && forall i :: i in s.flags ==> i in s.alerts
    ensures Lasts(s, Apply(s, op), op, id, side, a)
  {
    hide Exec, Apply, Bumps, Prunes, PrunedAway, Without, Listing, Only, OwnersFor, TargetsFor;
    BulkRenewProlongs(s, op.ids);
    AmongRenewed(s, op, side, a);
  }

  lemma ExtendWrites(s: State, id: nat)
    requires id in s.alerts
    ensures var m := Extend(s.alerts, id, s.ledger, DEFAULT_TTL);
            && m.Keys == s.alerts.Keys && m[id].liveUntil == Max(s.alerts[id].liveUntil, s.ledger + DEFAULT_TTL)
            && forall i :: i in m && i != id ==> m[i] == s.alerts[i]
  {}

  lemma OtherLasts(s: State, op: Op, id: nat, side: Side, a: Address)
    requires op.GetAlert? || op.SetLimit? || op.SetPaused? || op.SetAdmins? || op.Advance?
    requires Exec(s, op).Done?
    ensures Lasts(s, Apply(s, op), op, id, side, a)
  {
    hide Exec, Apply, Prunes, PrunedAway, Without, Listing, Extend;
    if op.GetAlert? && op.id in s.alerts { ExtendWrites(s, op.id); }
    OtherRow(s, op);
  }

  /** After every successful call every entry is readable through exactly the ledger that the tables above
      say: a call extends what it extends by exactly its lifetime, never shortens anything, and extends
      nothing else. */
  lemma LifetimesExactly(s: State, op: Op, id: nat, side: Side, a: Address)
    requires Inv(s) && Exec(s, op).Done?
    ensures Lasts(s, Apply(s, op), op, id, side, a)
  {
    FreshId(s);
    hide Inv, Exec, Apply, RecordLasts, FlagLasts, ListLasts, Edited, Enrolled, PrunedOf;
    if op.Register? {
      var p := RegisterEnrols(s, op.owner, op.input, op.tags);
      EnrolledEntries(s, p, Apply(s, op), op, op.owner, [op.input], op.tags, id);
      EnrolledLists(s, p, Apply(s, op), op, op.owner, [op.input], op.tags, side, a);
    } else if op.BatchRegister? {
      var p := BatchEnrols(s, op.caller, op.inputs);
      EnrolledEntries(s, p, Apply(s, op), op, op.caller, op.inputs, None, id);
      EnrolledLists(s, p, Apply(s, op), op, op.caller, op.inputs, None, side, a);
    } else if Edits(op) {
      EditRow(s, op);
      EditedEntries(s, Apply(s, op), op, id);
      EditedLists(s, Apply(s, op), op, side, a);
    } else if Removes(op) {
      RemovedLasts(s, op, id, side, a);
    } else if op.UpdateTarget? {
      RetargetLasts(s, op, id, side, a);
    } else if op.TransferOwnership? {
      TransferLasts(s, op, id, side, a);
    } else if op.DeactivateAll? {
      SwitchedLasts(s, op, id, side, a);
    } else if op.BumpAlert? {
      BumpedLasts(s, op, id, side, a);
    } else if op.BulkRenew? {
      BulkLasts(s, op, id, side, a);
    } else {
      OtherLasts(s, op, id, side, a);
    }
  }
}
