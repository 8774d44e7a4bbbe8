/** Counting: conservation between the indexes and the records, the balance of the id counter, and
    the ownership map rebuilt from events. */
module Accounting {
  import opened Host
  import opened Seqs
  import opened AlertModel
  import opened IndexLists
  import opened AlertInvariant
  import opened Refinement
  import opened Effects

  lemma SubsetSize<T>(a: set<T>, b: set<T>)
    requires a <= b
    ensures |a| <= |b|
  {
    assert b == a + (b - a);
  }

  // ---------------------------------------------------------------- conservation

  /** The number of live ids in the lists stored under `keys`. */
  ghost function SumLive(m: Index, live: set<nat>, keys: set<Address>): nat {
    if keys == {} then 0 else
      var a :| a in keys;
      |Only(Listing(m, a), live)| + SumLive(m, live, keys - {a})
  }

  /** The live ids that `a` lists, all of which belong there. */
  ghost function At(m: Index, place: map<nat, Address>, a: Address): set<nat> {
    set id | id in place && place[id] == a && Lists(m, a, id)
  }

  lemma LiveAt(m: Index, place: map<nat, Address>, bound: nat, a: Address)
    requires Faithful(m, place, bound)
    ensures |Only(Listing(m, a), place.Keys)| == |At(m, place, a)|
  {
    hide Only;
    var listed := Only(Listing(m, a), place.Keys);
    forall id: nat ensures id in listed <==> id in At(m, place, a) {
      if id in Listing(m, a) { assert Lists(m, a, id); }
    }
    NoDupSize(listed, At(m, place, a));
  }

  /** The live ids that one of `keys` lists. */
  ghost function Within(m: Index, place: map<nat, Address>, keys: set<Address>): set<nat> {
    set id | id in place && place[id] in keys && Lists(m, place[id], id)
  }

  lemma WithinSplit(m: Index, place: map<nat, Address>, keys: set<Address>, a: Address)
    requires a in keys
    ensures |Within(m, place, keys)| == |At(m, place, a)| + |Within(m, place, keys - {a})|
  {
    assert Within(m, place, keys) == At(m, place, a) + Within(m, place, keys - {a});
    assert At(m, place, a) !! Within(m, place, keys - {a});
  }

  lemma NothingWithin(m: Index, place: map<nat, Address>)
    ensures Within(m, place, {}) == {}
  {}

  lemma {:induction false} SumIsCount(m: Index, place: map<nat, Address>, bound: nat, keys: set<Address>)
    requires Faithful(m, place, bound)
    ensures SumLive(m, place.Keys, keys) == |Within(m, place, keys)|
    decreases |keys|
  {
    hide Faithful, Only, Within, At;
    if keys == {} {
      NothingWithin(m, place);
    } else {
      var a :| a in keys && SumLive(m, place.Keys, keys) ==
                            |Only(Listing(m, a), place.Keys)| + SumLive(m, place.Keys, keys - {a});
      LiveAt(m, place, bound, a);
      SumIsCount(m, place, bound, keys - {a});
      WithinSplit(m, place, keys, a);
    }
  }

  /** A subset that is as large as the whole is the whole. */
  lemma SameSize<T>(a: set<T>, b: set<T>)
    requires a <= b
    ensures |a| == |b| <==> a == b
  {
    assert b == a + (b - a);
  }

  /** Summing live ids over all lists of an index never counts too many, and counts every live record
      exactly once if and only if every address lists its ids. */
  lemma Conservation(s: State, side: Side)
    requires Inv(s)
    ensures SumLive(IndexOf(s, side), s.alerts.Keys, IndexOf(s, side).Keys) <= |s.alerts.Keys|
    ensures SumLive(IndexOf(s, side), s.alerts.Keys, IndexOf(s, side).Keys) == |s.alerts.Keys| <==>
            forall a :: Listed(s, side, a)
  {
    hide FlagsAgree, Dated, Logged;
    var m, place := IndexOf(s, side), PlaceOf(s.alerts, side);
    assert place.Keys == s.alerts.Keys;
    SumIsCount(m, place, s.nextId, m.Keys);
    hide Faithful;
    SubsetSize(Within(m, place, m.Keys), place.Keys);
    SameSize(Within(m, place, m.Keys), place.Keys);
    WithinAll(m, place);
    assert forall a :: Listed(s, side, a) <==> Complete(m, place, a);
  }

  lemma WithinAll(m: Index, place: map<nat, Address>)
    ensures Within(m, place, m.Keys) == place.Keys <==> forall a :: Complete(m, place, a)
  {
    if Within(m, place, m.Keys) == place.Keys {
      forall a ensures Complete(m, place, a) {
        forall id | id in place && place[id] == a ensures Lists(m, a, id) {
          assert id in Within(m, place, m.Keys);
        }
      }
    }
    if forall a :: Complete(m, place, a) {
      forall id | id in place ensures id in Within(m, place, m.Keys) {
        assert Complete(m, place, place[id]);
      }
    }
  }

  ghost predicate Conserves(s: State, side: Side) {
    SumLive(IndexOf(s, side), s.alerts.Keys, IndexOf(s, side).Keys) == |s.alerts.Keys|
  }

  /** The sum over an index equals the number of live records in every state of a history if and only
      if every list outlives the records it is for. */
  lemma EveryRunConserves(ledger: nat, timestamp: nat, ops: seq<Op>, k: nat, side: Side)
    requires k <= |ops|
    ensures (forall i :: 0 <= i <= k ==> Conserves(Run(Init(ledger, timestamp), ops[..i]), side)) <==>
            forall a :: ListOutlives(Init(ledger, timestamp), ops, 0, k, side, a)
  {
    var s0 := Init(ledger, timestamp);
    InitInv(ledger, timestamp);
    hide Inv, Listed, Run, ListOutlives, Conserves;
    forall i | 0 <= i <= k
      ensures Conserves(Run(s0, ops[..i]), side) <==> forall a :: Listed(Run(s0, ops[..i]), side, a)
    {
      RunKeepsInv(s0, ops[..i]);
      ConservesExactly(Run(s0, ops[..i]), side);
    }
    forall a
      ensures AlwaysListed(s0, ops, 0, k, side, a) <==> ListOutlives(s0, ops, 0, k, side, a)
    {
      StartsListed(ledger, timestamp, ops, side, a);
      RunKeepsListed(s0, ops, 0, k, side, a);
    }
    if forall a :: ListOutlives(s0, ops, 0, k, side, a) {
      forall i, a | 0 <= i <= k ensures Listed(Run(s0, ops[..i]), side, a) {
        assert AlwaysListed(s0, ops, 0, k, side, a);
      }
    }
    if forall i :: 0 <= i <= k ==> Conserves(Run(s0, ops[..i]), side) {
      forall a ensures AlwaysListed(s0, ops, 0, k, side, a) {
        forall i | 0 <= i <= k ensures Listed(Run(s0, ops[..i]), side, a) {
          assert Conserves(Run(s0, ops[..i]), side);
        }
      }
    }
  }

  lemma ConservesExactly(s: State, side: Side)
    requires Inv(s)
    ensures Conserves(s, side) <==> forall a :: Listed(s, side, a)
  {
    hide Inv, Listed;
    Conservation(s, side);
  }

  /** `get_active_alert_count` counts live records of that owner and nothing else, and counts them all if
      and only if the owner's list is complete. */
  lemma CountIsOwned(s: State, owner: Address)
    requires Inv(s)
    ensures |Only(Listing(s.owners, owner), s.alerts.Keys)| <= |OwnedIds(s, owner)|
    ensures |Only(Listing(s.owners, owner), s.alerts.Keys)| == |OwnedIds(s, owner)| <==> Listed(s, ByOwner, owner)
  {
    hide FlagsAgree, Dated, Logged, Only;
    var place := OwnerOf(s.alerts);
    assert place.Keys == s.alerts.Keys;
    LiveAt(s.owners, place, s.nextId, owner);
    hide Faithful;
    var at, owned := At(s.owners, place, owner), OwnedIds(s, owner);
    SubsetSize(at, owned);
    SameSize(at, owned);
    if at == owned {
      forall id | id in place && place[id] == owner ensures Lists(s.owners, owner, id) {
        assert id in owned;
      }
    }
  }

  /** `get_active_alert_count` is the number of alerts whose `active` field is set if and only if all the
      owner's alerts have it set. */
  lemma CountIsActiveExactly(s: State, owner: Address)
    requires Inv(s) && Listed(s, ByOwner, owner)
    ensures |Only(Listing(s.owners, owner), s.alerts.Keys)| == |OwnedIds(s, owner) * ActiveIds(s.alerts)| <==>
            forall id :: id in OwnedIds(s, owner) ==> s.alerts[id].value.active
  {
    hide Inv, Listed, Only;
    CountIsOwned(s, owner);
    SameSize(OwnedIds(s, owner) * ActiveIds(s.alerts), OwnedIds(s, owner));
    assert OwnedIds(s, owner) * ActiveIds(s.alerts) == OwnedIds(s, owner) <==>
           forall id :: id in OwnedIds(s, owner) ==> id in ActiveIds(s.alerts);
  }

  // ---------------------------------------------------------------- balance and replay

  /** Ids handed out, less the live records and the removals announced. */
  ghost function Balance(s: State): int {
    s.nextId - |s.alerts.Keys| - Removals(s.events)
  }

  /** The events know of exactly the live ids. */
  ghost predicate Mirrored(s: State) {
    Ownership(s.events).Keys == s.alerts.Keys
  }

  lemma QuietAccounts(s: State, t: State, notice: Notice)
    requires t.alerts.Keys == s.alerts.Keys && t.nextId == s.nextId
    requires t.events == s.events || t.events == s.events + [Note(notice)]
    ensures Balance(t) == Balance(s) && (Mirrored(s) ==> Mirrored(t))
  {
    LogNext(s.events, Note(notice));
  }

  lemma RegisteredAccounts(s: State, t: State, id: nat, owner: Address, target: Address)
    requires t.alerts.Keys == s.alerts.Keys + {id} && id !in s.alerts && t.nextId == s.nextId + 1
    requires t.events == s.events + [Registered(id, owner, target)]
    ensures Balance(t) == Balance(s) && (Mirrored(s) ==> Mirrored(t))
  {
    LogNext(s.events, Registered(id, owner, target));
  }

  lemma EnrollAccounts(s: State, owner: Address, input: AlertInput, tags: Option<seq<string>>)
    requires Inv(s)
    ensures var t := DoEnroll(s, owner, input, tags).state; Balance(t) == Balance(s) && (Mirrored(s) ==> Mirrored(t))
  {
    hide Inv, Balance, Mirrored;
    EnrollKeeps(s, owner, input, tags);
    InBoundsKeys(s);
    if s.nextId < U64_MAX {
      RegisteredAccounts(s, DoEnroll(s, owner, input, tags).state, s.nextId, owner, input.target);
    }
  }

  lemma InBoundsKeys(s: State)
    requires Inv(s)
    ensures s.nextId !in s.alerts && s.nextId <= U64_MAX
  {
    assert s.nextId !in OwnerOf(s.alerts);
  }

  lemma ErasedAccounts(s: State, t: State, id: nat, e: Event)
    requires id in s.alerts && t.alerts.Keys == s.alerts.Keys - {id} && t.nextId == s.nextId
    requires t.events == s.events + [e] && (e.Removed? || e.RemovedByAdmin?) && e.id == id
    ensures Balance(t) == Balance(s) && (Mirrored(s) ==> Mirrored(t))
  {
    LogNext(s.events, e);
  }

  lemma EraseAccounts(s: State, id: nat, caller: Address, asAdmin: bool)
    ensures var t := DoErase(s, id, caller, asAdmin).state; Balance(t) == Balance(s) && (Mirrored(s) ==> Mirrored(t))
  {
    hide Balance, Mirrored, Store, Without, Listing;
    if id in s.alerts {
      var owner := s.alerts[id].value.owner;
      ErasedAccounts(s, DoErase(s, id, caller, asAdmin).state, id,
                     if asAdmin then RemovedByAdmin(id, caller, owner) else Removed(id, caller));
    }
  }

  lemma TransferredAccounts(s: State, t: State, id: nat, from: Address, to: Address)
    requires id in s.alerts && t.alerts.Keys == s.alerts.Keys && t.nextId == s.nextId
    requires t.events == s.events + [Transferred(id, from, to)]
    ensures Balance(t) == Balance(s) && (Mirrored(s) ==> Mirrored(t))
  {
    LogNext(s.events, Transferred(id, from, to));
  }

  lemma ReassignAccounts(s: State, id: nat, newOwner: Address)
    ensures var t := DoReassign(s, id, newOwner).state; Balance(t) == Balance(s) && (Mirrored(s) ==> Mirrored(t))
  {
    hide Balance, Mirrored, Store, Without, Listing, Put;
    var o := DoReassign(s, id, newOwner);
    if o.Done? {
      TransferredAccounts(s, o.state, id, s.alerts[id].value.owner, newOwner);
    } else {
      QuietAccounts(s, o.state, Bumped(0, 0));
    }
  }

  /** The remaining effects publish at most a note. */
  lemma OtherAccounts(s: State, e: Effect)
    requires !e.Wait? && !e.Enroll? && !e.Erase? && !e.Reassign?
    ensures var t := Do(s, e).state; Balance(t) == Balance(s) && (Mirrored(s) ==> Mirrored(t))
  {
    hide Balance, Mirrored, Store, Without, Listing, Put, Prune, DoTouch, DoRenew, Patched;
    var t := Do(s, e).state;
    if e.Renew? {
      RenewIsQuiet(s, e.id, e.ttl);
      QuietAccounts(s, t, Bumped(e.id, e.ttl));
    } else if e.Publish? {
      QuietAccounts(s, t, e.notice);
    } else {
      if e.TouchIndexes? && e.id in s.alerts { TouchIsQuiet(s, s.alerts[e.id].value, DEFAULT_TTL); }
      QuietAccounts(s, t, Bumped(0, 0));
    }
  }

  lemma EffectAccounts(s: State, e: Effect)
    requires Inv(s) && !e.Wait?
    ensures var t := Do(s, e).state; Balance(t) == Balance(s) && (Mirrored(s) ==> Mirrored(t))
  {
    hide Balance, Mirrored, Inv, DoEnroll, DoErase, DoReassign;
    if e.Enroll? {
      EnrollAccounts(s, e.owner, e.input, e.tags);
    } else if e.Erase? {
      EraseAccounts(s, e.id, e.caller, e.asAdmin);
    } else if e.Reassign? {
      ReassignAccounts(s, e.id, e.newOwner);
    } else {
      OtherAccounts(s, e);
    }
  }

  lemma {:induction false} PlanAccounts(s: State, es: seq<Effect>)
    requires Inv(s) && forall e :: e in es ==> !e.Wait?
    ensures var t := DoAll(s, es).state; Balance(t) == Balance(s) && (Mirrored(s) ==> Mirrored(t))
    decreases |es|
  {
    hide Balance, Mirrored, Inv, Do;
    if es != [] {
      var front := es[..|es| - 1];
      PlanAccounts(s, front);
      PlanKeepsInv(s, front);
      assert es[|es| - 1] in es;
      EffectAccounts(DoAll(s, front).state, es[|es| - 1]);
    }
  }

  /** How many records an environment step makes unreadable. */
  ghost function Lapsed(s: State, op: Op): nat {
    if op.Advance? then |s.alerts.Keys - Apply(s, op).alerts.Keys| else 0
  }

  ghost function Expired(s: State, ops: seq<Op>): nat {
    if ops == [] then 0 else
      var front := ops[..|ops| - 1];
      Expired(s, front) + Lapsed(Run(s, front), ops[|ops| - 1])
  }

  lemma WaitAccounts(s: State, t: State, ledgers: nat, seconds: nat)
    requires t == DoWait(s, ledgers, seconds)
    ensures Balance(t) == Balance(s) + |s.alerts.Keys - t.alerts.Keys|
    ensures Mirrored(s) && |s.alerts.Keys - t.alerts.Keys| == 0 ==> Mirrored(t)
  {
    assert s.alerts.Keys == t.alerts.Keys + (s.alerts.Keys - t.alerts.Keys);
  }

  lemma ApplyAccounts(s: State, op: Op)
    requires Inv(s)
    ensures Balance(Apply(s, op)) == Balance(s) + Lapsed(s, op)
    ensures Mirrored(s) && Lapsed(s, op) == 0 ==> Mirrored(Apply(s, op))
  {
    hide Inv, DoAll, Balance, Mirrored, Plan, DoWait;
    if op.Advance? {
      AdvanceIsWait(s, op);
      WaitAccounts(s, Apply(s, op), op.ledgers, op.seconds);
    } else if Plan(s, op).Ok? {
      OnlyAdvanceWaits(s, op);
      PlanAccounts(s, Plan(s, op).value);
    }
  }

  /** Every id ever handed out is live, was removed, or expired. */
  lemma {:induction false} EveryIdAccountedFor(ledger: nat, timestamp: nat, ops: seq<Op>)
    ensures var s := Run(Init(ledger, timestamp), ops);
            s.nextId == |s.alerts.Keys| + Removals(s.events) + Expired(Init(ledger, timestamp), ops)
    decreases |ops|
  {
    var s0 := Init(ledger, timestamp);
    if ops != [] {
      hide Inv, Apply, Exec;
      var front := ops[..|ops| - 1];
      EveryIdAccountedFor(ledger, timestamp, front);
      InitInv(ledger, timestamp);
      RunKeepsInv(s0, front);
      ApplyAccounts(Run(s0, front), ops[|ops| - 1]);
    }
  }

  /** If no record expires on the way, folding the events rebuilds the id-to-owner map exactly;
      in any case it agrees on every live id. */
  lemma {:induction false} OwnershipReplay(ledger: nat, timestamp: nat, ops: seq<Op>)
    ensures var s := Run(Init(ledger, timestamp), ops);
            && (forall id :: id in s.alerts ==>
                  id in Ownership(s.events) && Ownership(s.events)[id] == s.alerts[id].value.owner)
            && (Expired(Init(ledger, timestamp), ops) == 0 ==> Ownership(s.events) == OwnerOf(s.alerts))
    decreases |ops|
  {
    var s0 := Init(ledger, timestamp);
    InitInv(ledger, timestamp);
    RunKeepsInv(s0, ops);
    var s := Run(s0, ops);
    assert OwnerOf(s.alerts).Keys == s.alerts.Keys;
    if Expired(s0, ops) == 0 { NoExpiryMirrors(ledger, timestamp, ops); }
  }

  lemma {:induction false} NoExpiryMirrors(ledger: nat, timestamp: nat, ops: seq<Op>)
    requires Expired(Init(ledger, timestamp), ops) == 0
    ensures Mirrored(Run(Init(ledger, timestamp), ops))
    decreases |ops|
  {
    var s0 := Init(ledger, timestamp);
    if ops != [] {
      hide Inv, Mirrored, Apply, Exec;
      var front := ops[..|ops| - 1];
      NoExpiryMirrors(ledger, timestamp, front);
      InitInv(ledger, timestamp);
      RunKeepsInv(s0, front);
      ApplyAccounts(Run(s0, front), ops[|ops| - 1]);
    }
  }

  /** Successive registrations announce 0, 1, 2, ..., whatever was removed or expired in between. */
  lemma FreshIds(ledger: nat, timestamp: nat, ops: seq<Op>)
    ensures var s := Run(Init(ledger, timestamp), ops);
            && Registrations(s.events) == Iota(s.nextId)
            && (forall id :: id in s.alerts || id in s.flags ==> id < s.nextId)
            && (forall a, id :: id in Listing(s.owners, a) || id in Listing(s.targets, a) ==> id < s.nextId)
  {
    InitInv(ledger, timestamp);
    RunKeepsInv(Init(ledger, timestamp), ops);
    var s := Run(Init(ledger, timestamp), ops);
    assert forall id :: id in s.alerts ==> id in OwnerOf(s.alerts);
    assert forall a, id: nat :: id in Listing(s.owners, a) ==> Lists(s.owners, a, id);
    assert forall a, id: nat :: id in Listing(s.targets, a) ==> Lists(s.targets, a, id);
  }
}
