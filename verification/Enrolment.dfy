/** What a registration stores, field by field and list by list, alone and in a batch. */
module Enrolment {
  import opened Host
  import opened Seqs
  import opened AlertModel
  import opened AlertInvariant
  import opened Loops
  import Batch
  import EntryPoints

  // ---------------------------------------------------------------- the new entries

  /** The record of one registration. */
  predicate Stores(e: Entry<AlertConfig>, owner: Address, input: AlertInput, tags: Option<seq<string>>, s: State) {
    && e.liveUntil == s.ledger + DEFAULT_TTL
    && e.value.owner == owner
    && e.value.name == input.name
    && e.value.webhookHash == input.webhookHash
    && e.value.rules == input.rules
    && e.value.target == input.target
    && e.value.tags == tags
    && e.value.createdAt == s.timestamp
    && e.value.updatedAt == s.timestamp
    && e.value.active
    && e.value.pending == None
  }

  function Range(first: nat, n: nat): seq<nat> {
    seq(n, i requires 0 <= i < n => first + i)
  }

  /** The ids that `a` owns, if `n` new ones of `owner` start at `first`. */
  function OwnIds(owner: Address, first: nat, n: nat, a: Address): seq<nat> {
    if a == owner then Range(first, n) else []
  }

  /** The ids that watch `a`, if the inputs get the ids from `first` on. */
  function IdsFor(inputs: seq<AlertInput>, first: nat, a: Address): seq<nat> {
    if inputs == [] then [] else
      var front := inputs[..|inputs| - 1];
      IdsFor(front, first, a) + if inputs[|inputs| - 1].target == a then [first + |front|] else []
  }

  function Announcements(owner: Address, inputs: seq<AlertInput>, first: nat): seq<Event> {
    seq(|inputs|, i requires 0 <= i < |inputs| => Registered(first + i, owner, inputs[i].target))
  }

  ghost predicate NewRecords(s: State, alerts: Records, owner: Address, inputs: seq<AlertInput>, tags: Option<seq<string>>) {
    && (forall id :: id in alerts <==> id in s.alerts || s.nextId <= id < s.nextId + |inputs|)
    && (forall id :: id in s.alerts ==> alerts[id] == s.alerts[id])
    && (forall i :: 0 <= i < |inputs| ==> Stores(alerts[s.nextId + i], owner, inputs[i], tags, s))
  }

  ghost predicate NewFlags(s: State, flags: map<nat, Entry<bool>>, n: nat) {
    && (forall id :: id in flags <==> id in s.flags || s.nextId <= id < s.nextId + n)
    && (forall id :: id in s.flags ==> flags[id] == s.flags[id])
    && (forall id :: s.nextId <= id < s.nextId + n ==> flags[id] == Entry(true, s.ledger + DEFAULT_TTL))
  }

  /** The list of `a` with `ids` appended, and a default lifetime to go; unchanged if there are none. */
  ghost predicate Appended(m: Index, r: Index, a: Address, ids: seq<nat>, now: nat) {
    if ids == [] then (a in r <==> a in m) && (a in m ==> r[a] == m[a])
    else a in r && r[a] == Entry(Listing(m, a) + ids, Max(Until(m, a), now + DEFAULT_TTL))
  }

  /** The inputs got the ids from the counter on: their records, flags, places in both indexes and
      events are there, and nothing else changed. */
  ghost predicate Enrolled(s: State, t: State, owner: Address, inputs: seq<AlertInput>, tags: Option<seq<string>>) {
    && t == s.(alerts := t.alerts, flags := t.flags, owners := t.owners, targets := t.targets,
               nextId := s.nextId + |inputs|, events := s.events + Announcements(owner, inputs, s.nextId))
    && NewRecords(s, t.alerts, owner, inputs, tags)
    && NewFlags(s, t.flags, |inputs|)
    && (forall a :: Appended(s.owners, t.owners, a, OwnIds(owner, s.nextId, |inputs|, a), s.ledger))
    && (forall a :: Appended(s.targets, t.targets, a, IdsFor(inputs, s.nextId, a), s.ledger))
  }

  // ---------------------------------------------------------------- one input

  lemma EnrollWrites(s: State, owner: Address, input: AlertInput, tags: Option<seq<string>>)
    requires DoEnroll(s, owner, input, tags).Done?
    ensures DoEnroll(s, owner, input, tags).state ==
            s.(alerts := Put(s.alerts, s.nextId, NewConfig(owner, input, tags, s.timestamp), s.ledger, DEFAULT_TTL),
               flags := Put(s.flags, s.nextId, true, s.ledger, DEFAULT_TTL),
               owners := Store(s.owners, owner, Listing(s.owners, owner) + [s.nextId], s.ledger),
               targets := Store(s.targets, input.target, Listing(s.targets, input.target) + [s.nextId], s.ledger),
               nextId := s.nextId + 1,
               events := s.events + [Registered(s.nextId, owner, input.target)])
  {
    hide Put, Store, Listing;
  }

  lemma StoreAppends(m: Index, a: Address, ids: seq<nat>, now: nat)
    requires ids != []
    ensures var r := Store(m, a, Listing(m, a) + ids, now);
            Appended(m, r, a, ids, now) && forall b :: b != a ==> Appended(m, r, b, [], now)
  {}

  lemma OneInput(input: AlertInput, owner: Address, first: nat)
    ensures Range(first, 1) == [first]
    ensures forall a :: OwnIds(owner, first, 1, a) == if a == owner then [first] else []
    ensures forall a :: IdsFor([input], first, a) == if a == input.target then [first] else []
    ensures Announcements(owner, [input], first) == [Registered(first, owner, input.target)]
  {
    assert [input][..0] == [];
  }

  lemma OneNewRecord(s: State, owner: Address, input: AlertInput, tags: Option<seq<string>>)
    requires s.nextId !in s.alerts
    ensures NewRecords(s, Put(s.alerts, s.nextId, NewConfig(owner, input, tags, s.timestamp), s.ledger, DEFAULT_TTL),
                       owner, [input], tags)
  {}

  lemma OneNewFlag(s: State)
    requires s.nextId !in s.flags
    ensures NewFlags(s, Put(s.flags, s.nextId, true, s.ledger, DEFAULT_TTL), 1)
  {}

  lemma EnrollOne(s: State, owner: Address, input: AlertInput, tags: Option<seq<string>>)
    requires DoEnroll(s, owner, input, tags).Done? && s.nextId !in s.alerts && s.nextId !in s.flags
    ensures Enrolled(s, DoEnroll(s, owner, input, tags).state, owner, [input], tags)
  {
    hide DoEnroll, Put, Store, Listing, NewConfig, NewRecords, NewFlags, Appended, Range, OwnIds, IdsFor, Announcements;
    EnrollWrites(s, owner, input, tags);
    OneInput(input, owner, s.nextId);
    OneNewRecord(s, owner, input, tags);
    OneNewFlag(s);
    StoreAppends(s.owners, owner, [s.nextId], s.ledger);
    StoreAppends(s.targets, input.target, [s.nextId], s.ledger);
  }

  // ---------------------------------------------------------------- one input more

  lemma NewRecordsTwice(s: State, t: State, u: Records, owner: Address, inputs: seq<AlertInput>, input: AlertInput, tags: Option<seq<string>>)
    requires NewRecords(s, t.alerts, owner, inputs, tags) && NewRecords(t, u, owner, [input], tags)
    requires t.nextId == s.nextId + |inputs| && t.ledger == s.ledger && t.timestamp == s.timestamp
    requires t.nextId !in s.alerts
    ensures NewRecords(s, u, owner, inputs + [input], tags)
  {
    hide Stores;
    StoresSame(s, t, owner, input, tags);
    var all := inputs + [input];
    forall i | 0 <= i < |all| ensures Stores(u[s.nextId + i], owner, all[i], tags, s) {
      if i == |inputs| {
        assert Stores(u[t.nextId + 0], owner, [input][0], tags, t);
      } else {
        assert s.nextId + i in t.alerts;
      }
    }
  }

  lemma StoresSame(s: State, t: State, owner: Address, input: AlertInput, tags: Option<seq<string>>)
    requires t.ledger == s.ledger && t.timestamp == s.timestamp
    ensures forall e :: Stores(e, owner, input, tags, t) ==> Stores(e, owner, input, tags, s)
  {}

  lemma NewFlagsTwice(s: State, t: State, u: map<nat, Entry<bool>>, n: nat)
    requires NewFlags(s, t.flags, n) && NewFlags(t, u, 1) && t.nextId == s.nextId + n && t.ledger == s.ledger
    ensures NewFlags(s, u, n + 1)
  {}

  lemma AppendedTwice(m: Index, r: Index, q: Index, a: Address, ids: seq<nat>, more: seq<nat>, now: nat)
    requires Appended(m, r, a, ids, now) && Appended(r, q, a, more, now)
    ensures Appended(m, q, a, ids + more, now)
  {
    assert (Listing(m, a) + ids) + more == Listing(m, a) + (ids + more);
    if ids == [] { assert ids + more == more; }
    if more == [] { assert ids + more == ids; }
  }

  lemma OneMoreInput(inputs: seq<AlertInput>, input: AlertInput, owner: Address, first: nat)
    ensures forall a ::
              OwnIds(owner, first, |inputs| + 1, a) == OwnIds(owner, first, |inputs|, a) + OwnIds(owner, first + |inputs|, 1, a)
    ensures forall a :: IdsFor(inputs + [input], first, a) == IdsFor(inputs, first, a) + IdsFor([input], first + |inputs|, a)
    ensures Announcements(owner, inputs + [input], first) ==
            Announcements(owner, inputs, first) + Announcements(owner, [input], first + |inputs|)
  {
    OneInput(input, owner, first + |inputs|);
    assert (inputs + [input])[..|inputs|] == inputs;
  }

  lemma EnrolledTwice(s: State, t: State, u: State, owner: Address, inputs: seq<AlertInput>, input: AlertInput, tags: Option<seq<string>>)
    requires Enrolled(s, t, owner, inputs, tags) && Enrolled(t, u, owner, [input], tags) && t.nextId !in s.alerts
    ensures Enrolled(s, u, owner, inputs + [input], tags)
  {
    hide NewRecords, NewFlags, Appended, OwnIds, IdsFor, Announcements;
    OneMoreInput(inputs, input, owner, s.nextId);
    NewRecordsTwice(s, t, u.alerts, owner, inputs, input, tags);
    NewFlagsTwice(s, t, u.flags, |inputs|);
    var n := |inputs|;
    forall a
      ensures Appended(s.owners, u.owners, a, OwnIds(owner, s.nextId, |inputs + [input]|, a), s.ledger)
      ensures Appended(s.targets, u.targets, a, IdsFor(inputs + [input], s.nextId, a), s.ledger)
    {
      AppendedTwice(s.owners, t.owners, u.owners, a, OwnIds(owner, s.nextId, n, a), OwnIds(owner, t.nextId, 1, a), s.ledger);
      AppendedTwice(s.targets, t.targets, u.targets, a, IdsFor(inputs, s.nextId, a), IdsFor([input], t.nextId, a), s.ledger);
    }
    assert s.events + (Announcements(owner, inputs, s.nextId) + Announcements(owner, [input], t.nextId)) == u.events;
  }

  lemma FreshId(s: State)
    requires Inv(s)
    ensures forall id :: id in s.alerts || id in s.flags ==> id < s.nextId
    ensures forall id :: id in s.flags ==> id in s.alerts
  {
    BelowCounter(s);
  }

  lemma NothingEnrolled(s: State, owner: Address, tags: Option<seq<string>>)
    ensures Enrolled(s, s, owner, [], tags)
  {
    assert Announcements(owner, [], s.nextId) == [] && Range(s.nextId, 0) == [];
    assert s.events + [] == s.events;
  }

  lemma {:induction false} EnrolmentsWrite(s: State, caller: Address, inputs: seq<AlertInput>, k: nat)
    requires Inv(s) && k <= |inputs| && DoAll(s, Enrolments(caller, inputs)[..k]).Done?
    ensures Enrolled(s, DoAll(s, Enrolments(caller, inputs)[..k]).state, caller, inputs[..k], None)
    decreases k
  {
    NothingEnrolled(s, caller, None);
    hide Inv, Enrolled, DoEnroll;
    if k == 0 {
      assert inputs[..0] == [];
    } else {
      var es := Enrolments(caller, inputs);
      assert es[..k] == es[..k - 1] + [es[k - 1]] && inputs[..k] == inputs[..k - 1] + [inputs[k - 1]];
      DoAllNext(s, es[..k - 1], es[k - 1]);
      hide DoAll;
      var t := DoAll(s, es[..k - 1]).state;
      EnrolmentsWrite(s, caller, inputs, k - 1);
      Batch.EnrolmentsSucceed(s, caller, inputs, k - 1);
      FreshId(s);
      FreshId(t);
      EnrollOne(t, caller, inputs[k - 1], None);
      Later(s, t, caller, inputs[..k - 1]);
      EnrolledTwice(s, t, DoEnroll(t, caller, inputs[k - 1], None).state, caller, inputs[..k - 1], inputs[k - 1], None);
    }
  }

  lemma Later(s: State, t: State, owner: Address, inputs: seq<AlertInput>)
    requires Enrolled(s, t, owner, inputs, None)
    ensures t.nextId >= s.nextId
  {}

  // ---------------------------------------------------------------- the calls

  /** The state once the owner's list has been pruned, which only happens under a limit: the ids that
      are not live are gone, and an emptied list with them. */
  ghost predicate PrunedOf(s: State, p: State, owner: Address) {
    && p == s.(owners := p.owners)
    && (forall a :: a != owner ==> (a in p.owners <==> a in s.owners) && (a in s.owners ==> p.owners[a] == s.owners[a]))
    && var ids := Listing(s.owners, owner);
    && var kept := Only(ids, s.alerts.Keys);
    && if s.limit == 0 || kept == ids then p.owners == s.owners
       else if kept == [] then owner !in p.owners
       else owner in p.owners && p.owners[owner] == Entry(kept, Max(s.owners[owner].liveUntil, s.ledger + DEFAULT_TTL))
  }

  lemma PruneWrites(s: State, owner: Address)
    ensures PrunedOf(s, Batch.Pruned(s, owner), owner)
  {}

  /** A successful `register_alert`: the state it leaves, seen through the pruned one. */
  lemma RegisterEnrols(s: State, owner: Address, input: AlertInput, tags: Option<seq<string>>) returns (p: State)
    requires Inv(s) && Exec(s, Register(owner, input, tags)).Done?
    ensures PrunedOf(s, p, owner) && Enrolled(p, Apply(s, Register(owner, input, tags)), owner, [input], tags)
  {
    hide Inv, Exec, ValidInput, ValidTags, Enrolled, PrunedOf, DoEnroll, DoAdmit;
    p := Batch.Pruned(s, owner);
    PruneWrites(s, owner);
    EntryPoints.Register(s, owner, input, tags);
    AdmitIsDo(s, owner, 1);
    Batch.AdmitIsPrune(s, owner, 1);
    Batch.PrunedInv(s, owner);
    FreshId(p);
    EnrollOne(p, owner, input, tags);
  }

  /** A successful `batch_register_alerts`, likewise. */
  lemma BatchEnrols(s: State, caller: Address, inputs: seq<AlertInput>) returns (p: State)
    requires Inv(s) && Exec(s, BatchRegister(caller, inputs)).Done?
    ensures PrunedOf(s, p, caller) && Enrolled(p, Apply(s, BatchRegister(caller, inputs)), caller, inputs, None)
  {
    hide Inv, Exec, Enrolled, PrunedOf, InputFault, Do, DoAll;
    p := Batch.Pruned(s, caller);
    PruneWrites(s, caller);
    EntryPoints.BatchRegister(s, caller, inputs);
    Batch.DoAllCons(s, Admit(caller, |inputs|), Enrolments(caller, inputs));
    Batch.AdmitIsPrune(s, caller, |inputs|);
    Batch.PrunedInv(s, caller);
    assert Enrolments(caller, inputs)[..|inputs|] == Enrolments(caller, inputs) && inputs[..|inputs|] == inputs;
    EnrolmentsWrite(p, caller, inputs, |inputs|);
  }

  /** What a successful registration leaves under the id it returns, the old counter. */
  lemma RegisterStores(s: State, owner: Address, input: AlertInput, tags: Option<seq<string>>)
    requires Inv(s) && Exec(s, Register(owner, input, tags)).Done?
    ensures var t, id := Apply(s, Register(owner, input, tags)), s.nextId;
            && t.nextId == id + 1 && id in t.alerts && id in t.flags
            && t.alerts[id].liveUntil == s.ledger + DEFAULT_TTL
            && t.flags[id] == Entry(true, s.ledger + DEFAULT_TTL)
            && var c := t.alerts[id].value;
            && c.owner == owner && c.tags == tags
            && c.name == input.name && c.webhookHash == input.webhookHash
            && c.rules == input.rules && c.target == input.target
            && c.createdAt == c.updatedAt == s.timestamp
            && c.active && c.pending == None
            && t.events == s.events + [Registered(id, owner, input.target)]
  {
    hide Inv, Exec, Apply;
    var p := RegisterEnrols(s, owner, input, tags);
    OneInput(input, owner, s.nextId);
    assert Stores(Apply(s, Register(owner, input, tags)).alerts[p.nextId + 0], owner, [input][0], tags, p);
  }

  /** Input `i` is stored under the i-th id from the old counter on, without tags. */
  ghost predicate StoresAll(s: State, t: State, caller: Address, inputs: seq<AlertInput>) {
    && t.nextId == s.nextId + |inputs|
    && t.events == s.events + Announcements(caller, inputs, s.nextId)
    && forall i :: 0 <= i < |inputs| ==>
         var id := s.nextId + i;
         && id in t.alerts && Stores(t.alerts[id], caller, inputs[i], None, s)
         && id in t.flags && t.flags[id] == Entry(true, s.ledger + DEFAULT_TTL)
  }

  lemma BatchStores(s: State, caller: Address, inputs: seq<AlertInput>)
    requires Inv(s) && Exec(s, BatchRegister(caller, inputs)).Done?
    ensures StoresAll(s, Apply(s, BatchRegister(caller, inputs)), caller, inputs)
  {
    hide Inv, Exec, Apply, Stores, Announcements;
    var p := BatchEnrols(s, caller, inputs);
    var t := Apply(s, BatchRegister(caller, inputs));
    forall i | 0 <= i < |inputs| ensures Stores(t.alerts[s.nextId + i], caller, inputs[i], None, s) {
      StoresSame(p, s, caller, inputs[i], None);
      StoresSame(s, p, caller, inputs[i], None);
      assert Stores(t.alerts[p.nextId + i], caller, inputs[i], None, p);
    }
  }
}
