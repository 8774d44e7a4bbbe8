/** Queries answer from the indexes. As long as the list that an owner's or a target's answer is read
    from outlives its records, every answer is a permutation of filtering a full scan of all ids ever
    handed out; whatever happens to other lists. */
module Refinement {
  import opened Host
  import opened Seqs
  import opened AlertModel
  import opened IndexLists
  import opened AlertInvariant

  // ---------------------------------------------------------------- listed states

  /** From call `j` to call `k`, time never outruns the list of `a` while one of its records lives on. */
  ghost predicate ListOutlives(s: State, ops: seq<Op>, j: nat, k: nat, side: Side, a: Address)
    requires j <= k <= |ops|
  {
    forall i :: j <= i < k && ops[i].Advance? ==>
      Outlives(Run(s, ops[..i]), side, a, Run(s, ops[..i]).ledger + ops[i].ledgers)
  }

  lemma OnlyAdvanceWaits(s: State, op: Op)
    requires Plan(s, op).Ok? && !op.Advance?
    ensures forall e :: e in Plan(s, op).value ==> !e.Wait?
  {}

  lemma StillListedTwice(s: State, t: State, u: State)
    requires StillListed(s, t) && StillListed(t, u)
    ensures StillListed(s, u)
  {
    hide Complete;
  }

  lemma {:induction false} PlanKeepsListing(s: State, es: seq<Effect>)
    requires Inv(s)
    requires forall e :: e in es ==> !e.Wait?
    ensures StillListed(s, DoAll(s, es).state)
    decreases |es|
  {
    hide Inv, Complete, Do;
    if es != [] {
      var front, e := es[..|es| - 1], es[|es| - 1];
      PlanKeepsListing(s, front);
      PlanKeepsInv(s, front);
      assert e in es;
      hide StillListed;
      EffectKeepsInv(DoAll(s, front).state, e);
      if DoAll(s, front).Done? {
        StillListedTwice(s, DoAll(s, front).state, Do(DoAll(s, front).state, e).state);
      }
    }
  }

  /** One call keeps every listing; the passing of time keeps exactly those whose list outlives its records. */
  lemma ApplyListing(s: State, op: Op, side: Side, a: Address)
    requires Inv(s) && Listed(s, side, a)
    ensures Listed(Apply(s, op), side, a) <==> op.Advance? ==> Outlives(s, side, a, s.ledger + op.ledgers)
  {
    hide Inv, Listed, Outlives, StillListed, DoAll, DoWait, Plan;
    if op.Advance? {
      AdvanceIsWait(s, op);
      WaitKeeps(s, op.ledgers, op.seconds);
    } else if Exec(s, op).Done? {
      OnlyAdvanceWaits(s, op);
      PlanKeepsListing(s, Plan(s, op).value);
      ListedStays(s, Apply(s, op), side, a);
    }
  }

  ghost predicate AlwaysListed(s: State, ops: seq<Op>, j: nat, k: nat, side: Side, a: Address)
    requires j <= k <= |ops|
  {
    forall i :: j <= i <= k ==> Listed(Run(s, ops[..i]), side, a)
  }

  lemma OneCallMore(s: State, ops: seq<Op>, j: nat, k: nat, side: Side, a: Address)
    requires j <= k < |ops|
    ensures AlwaysListed(s, ops, j, k + 1, side, a) <==>
            AlwaysListed(s, ops, j, k, side, a) && Listed(Run(s, ops[..k + 1]), side, a)
    ensures ListOutlives(s, ops, j, k + 1, side, a) <==>
            && ListOutlives(s, ops, j, k, side, a)
            && (ops[k].Advance? ==> Outlives(Run(s, ops[..k]), side, a, Run(s, ops[..k]).ledger + ops[k].ledgers))
    ensures AlwaysListed(s, ops, j, k, side, a) ==> Listed(Run(s, ops[..k]), side, a)
  {
    hide Listed, Outlives, Run;
  }

  /** The list of `a` stays complete from call `j` to call `k` if and only if it outlives its records. */
  lemma {:induction false} RunKeepsListed(s: State, ops: seq<Op>, j: nat, k: nat, side: Side, a: Address)
    requires Inv(s) && j <= k <= |ops| && Listed(Run(s, ops[..j]), side, a)
    ensures AlwaysListed(s, ops, j, k, side, a) <==> ListOutlives(s, ops, j, k, side, a)
    decreases k
  {
    hide Inv, Listed, Apply, Outlives, Run;
    if j < k {
      hide AlwaysListed, ListOutlives;
      RunKeepsListed(s, ops, j, k - 1, side, a);
      OneCallMore(s, ops, j, k - 1, side, a);
      RunKeepsInv(s, ops[..k - 1]);
      RunNext(s, ops, k - 1);
      if AlwaysListed(s, ops, j, k - 1, side, a) {
        ApplyListing(Run(s, ops[..k - 1]), ops[k - 1], side, a);
      }
    }
  }

  // ---------------------------------------------------------------- queries

  function Lookup(alerts: Records, ids: seq<nat>): (r: seq<AlertConfig>)
    requires forall id :: id in ids ==> id in alerts
    ensures |r| == |ids|
  {
    if ids == [] then [] else Lookup(alerts, ids[..|ids| - 1]) + [alerts[ids[|ids| - 1]].value]
  }

  /** The records of those `ids` that are live and in `keep`, in the order of `ids`. */
  function Configs(alerts: Records, ids: seq<nat>, keep: set<nat>): seq<AlertConfig> {
    Lookup(alerts, Only(ids, keep * alerts.Keys))
  }

  function ActiveIds(alerts: Records): set<nat> {
    set id | id in alerts && alerts[id].value.active
  }

  function UpdatedIds(alerts: Records, since: nat): set<nat> {
    set id | id in alerts && alerts[id].value.updatedAt >= since
  }

  /** The simple store: scan every id ever handed out and keep those that qualify. */
  function Scan(s: State, keep: set<nat>): seq<nat> {
    Only(Iota(s.nextId), keep)
  }

  function OwnedIds(s: State, owner: Address): set<nat> {
    set id | id in s.alerts && s.alerts[id].value.owner == owner
  }

  function TargetedIds(s: State, target: Address): set<nat> {
    set id | id in s.alerts && s.alerts[id].value.target == target
  }

  /** The live ids that belong to `a`. */
  function IdsOf(s: State, side: Side, a: Address): set<nat> {
    if side.ByOwner? then OwnedIds(s, a) else TargetedIds(s, a)
  }

  lemma {:induction false} LookupConcat(alerts: Records, a: seq<nat>, b: seq<nat>)
    requires forall id :: id in a + b ==> id in alerts
    requires forall id :: id in a || id in b ==> id in alerts
    ensures Lookup(alerts, a + b) == Lookup(alerts, a) + Lookup(alerts, b)
  {
    if b == [] {
      assert a + b == a;
    } else {
      LookupConcat(alerts, a, b[..|b| - 1]);
      assert (a + b)[..|a + b| - 1] == a + b[..|b| - 1];
    }
  }

  /** Taking one position out of a list of ids takes its record out of the answer. */
  lemma LookupMiddle(alerts: Records, p: seq<nat>, x: nat, q: seq<nat>)
    requires x in alerts && (forall id :: id in p || id in q ==> id in alerts)
    ensures forall id :: id in p + q || id in p + [x] + q ==> id in alerts
    ensures multiset(Lookup(alerts, p + [x] + q)) == multiset(Lookup(alerts, p + q)) + multiset{alerts[x].value}
  {
    hide Lookup;
    LookupConcat(alerts, p, q);
    LookupConcat(alerts, p + [x], q);
    LookupConcat(alerts, p, [x]);
    LookupOne(alerts, x);
    MultisetMiddle(Lookup(alerts, p), alerts[x].value, Lookup(alerts, q));
  }

  lemma LookupOne(alerts: Records, x: nat)
    requires x in alerts
    ensures Lookup(alerts, [x]) == [alerts[x].value]
  {}

  /** Permuted ids give permuted records. */
  lemma {:induction false} LookupPermutation(alerts: Records, a: seq<nat>, b: seq<nat>)
    requires multiset(a) == multiset(b)
    requires forall id :: id in a || id in b ==> id in alerts
    ensures multiset(Lookup(alerts, a)) == multiset(Lookup(alerts, b))
    decreases |a|
  {
    if a == [] {
      assert |b| == |multiset(b)| == 0;
    } else {
      hide Lookup;
      var front, x := a[..|a| - 1], a[|a| - 1];
      assert a == front + [x] && front + [x] + [] == front + [x] && front + [] == front;
      assert x in a;
      var p, q := CutMiddle(front, x, b);
      assert forall id :: id in front ==> id in a;
      assert forall id :: id in p + q ==> id in b;
      LookupPermutation(alerts, front, p + q);
      LookupMiddle(alerts, p, x, q);
      LookupMiddle(alerts, front, x, []);
    }
  }

  /** One index against the scan, for any further filter `keep` on live ids. */
  lemma IndexIsScan(alerts: Records, m: Index, place: map<nat, Address>, bound: nat, a: Address, keep: set<nat>, here: set<nat>)
    requires Faithful(m, place, bound) && Complete(m, place, a)
    requires keep <= place.Keys == alerts.Keys
    requires forall id :: id in here <==> id in keep && place[id] == a
    ensures NoDup(Listing(m, a))
    ensures multiset(Only(Listing(m, a), keep)) == multiset(Only(Iota(bound), here))
    ensures multiset(Configs(alerts, Listing(m, a), keep)) == multiset(Configs(alerts, Iota(bound), here))
  {
    forall id: nat ensures id in Only(Listing(m, a), keep) <==> id in Only(Iota(bound), here) {
      if id in keep && place[id] == a { assert id in place && Lists(m, a, id); }
      if id in Listing(m, a) { assert Lists(m, a, id); }
    }
    SameElements(Only(Listing(m, a), keep), Only(Iota(bound), here));
    assert keep * alerts.Keys == keep && here * alerts.Keys == here;
    LookupPermutation(alerts, Only(Listing(m, a), keep), Only(Iota(bound), here));
  }

  /** Every by-owner and by-contract query, whatever it filters on: `keep` is all live ids for the
      plain and ids-only queries, the active ids or the recently updated ids for the others. */
  lemma QueryIsScan(s: State, side: Side, a: Address, keep: set<nat>)
    requires Inv(s) && Listed(s, side, a) && keep <= s.alerts.Keys
    ensures multiset(Only(Listing(IndexOf(s, side), a), keep)) == multiset(Scan(s, keep * IdsOf(s, side, a)))
    ensures multiset(Configs(s.alerts, Listing(IndexOf(s, side), a), keep)) ==
            multiset(Configs(s.alerts, Iota(s.nextId), keep * IdsOf(s, side, a)))
  {
    hide Faithful, Complete, FlagsAgree, Dated, Logged, Only, Configs, Iota;
    IndexIsScan(s.alerts, IndexOf(s, side), PlaceOf(s.alerts, side), s.nextId, a, keep, keep * IdsOf(s, side, a));
  }

  /** The ids-only query of `a` answers what a scan of all ids answers. */
  ghost predicate AnswersScan(s: State, side: Side, a: Address) {
    multiset(Only(Listing(IndexOf(s, side), a), s.alerts.Keys)) == multiset(Scan(s, IdsOf(s, side, a)))
  }

  /** A complete list is not only enough but needed. */
  lemma AnswersExactly(s: State, side: Side, a: Address)
    requires Inv(s)
    ensures AnswersScan(s, side, a) <==> Listed(s, side, a)
  {
    hide FlagsAgree, Dated, Logged, Tidy;
    var m, place, ids := IndexOf(s, side), PlaceOf(s.alerts, side), IdsOf(s, side, a);
    if Listed(s, side, a) {
      QueryIsScan(s, side, a, s.alerts.Keys);
      assert s.alerts.Keys * ids == ids;
    }
    if AnswersScan(s, side, a) {
      forall id | id in place && place[id] == a ensures Lists(m, a, id) {
        assert id in ids && id < s.nextId;
        assert id in Scan(s, ids);
        assert id in multiset(Only(Listing(m, a), s.alerts.Keys));
      }
    }
  }

  /** A live id is listed exactly once under its own address, and nowhere else. */
  lemma ListedExactlyOnce(s: State, side: Side, id: nat, a: Address)
    requires Inv(s) && id in s.alerts && Listed(s, side, PlaceOf(s.alerts, side)[id])
    ensures multiset(Listing(IndexOf(s, side), a))[id] == if a == PlaceOf(s.alerts, side)[id] then 1 else 0
  {
    hide FlagsAgree, Dated, Logged;
    var m, place := IndexOf(s, side), PlaceOf(s.alerts, side);
    assert id in place && Lists(m, place[id], id);
    assert Lists(m, a, id) ==> place[id] == a;
    NoDupCount(Listing(m, a), id);
  }

  /** Every state that a deployed contract reaches, from a call `j` on at which the list of `a` is
      complete, such as the first. */
  lemma Reachable(ledger: nat, timestamp: nat, ops: seq<Op>, j: nat, k: nat, side: Side, a: Address)
    requires j <= k <= |ops| && Listed(Run(Init(ledger, timestamp), ops[..j]), side, a)
    requires ListOutlives(Init(ledger, timestamp), ops, j, k, side, a)
    ensures Inv(Run(Init(ledger, timestamp), ops[..k])) && Listed(Run(Init(ledger, timestamp), ops[..k]), side, a)
  {
    InitInv(ledger, timestamp);
    hide Inv, Listed, Run, ListOutlives;
    RunKeepsInv(Init(ledger, timestamp), ops[..k]);
    RunKeepsListed(Init(ledger, timestamp), ops, j, k, side, a);
    assert AlwaysListed(Init(ledger, timestamp), ops, j, k, side, a);
  }

  /** A freshly deployed contract lists everything, as there is nothing. */
  lemma StartsListed(ledger: nat, timestamp: nat, ops: seq<Op>, side: Side, a: Address)
    ensures Listed(Run(Init(ledger, timestamp), ops[..0]), side, a)
  {
    InitInv(ledger, timestamp);
    assert ops[..0] == [];
  }

  lemma TidyState(s: State)
    requires Inv(s)
    ensures Tidy(s.owners) && Tidy(s.targets)
  {}

  /** The central theorem, over every history from deployment on: no stored list is empty or repeats
      an id, and every query of `a` is a permutation of the filtered scan, as long as the list of `a`
      outlives the records of `a`. Other addresses may lose records and lists at any moment. */
  lemma EveryQueryIsAScan(
      ledger: nat, timestamp: nat, ops: seq<Op>, j: nat, k: nat, side: Side, a: Address, keep: set<nat>)
    requires j <= k <= |ops| && Listed(Run(Init(ledger, timestamp), ops[..j]), side, a)
    requires ListOutlives(Init(ledger, timestamp), ops, j, k, side, a)
    requires keep <= Run(Init(ledger, timestamp), ops[..k]).alerts.Keys
    ensures var s := Run(Init(ledger, timestamp), ops[..k]);
            && Tidy(s.owners) && Tidy(s.targets)
            && multiset(Only(Listing(IndexOf(s, side), a), keep)) == multiset(Scan(s, keep * IdsOf(s, side, a)))
            && multiset(Configs(s.alerts, Listing(IndexOf(s, side), a), keep)) ==
               multiset(Configs(s.alerts, Iota(s.nextId), keep * IdsOf(s, side, a)))
  {
    hide *;
    Reachable(ledger, timestamp, ops, j, k, side, a);
    TidyState(Run(Init(ledger, timestamp), ops[..k]));
    QueryIsScan(Run(Init(ledger, timestamp), ops[..k]), side, a, keep);
  }

  /** And only as long: the query of `a` answers the scan in every state of a history if and only if
      the list of `a` outlives the records of `a` throughout. */
  lemma QueriesAreScansExactly(ledger: nat, timestamp: nat, ops: seq<Op>, k: nat, side: Side, a: Address)
    requires k <= |ops|
    ensures (forall i :: 0 <= i <= k ==> AnswersScan(Run(Init(ledger, timestamp), ops[..i]), side, a)) <==>
            ListOutlives(Init(ledger, timestamp), ops, 0, k, side, a)
  {
    hide Inv, Listed, Run, ListOutlives, AnswersScan;
    var s0 := Init(ledger, timestamp);
    StartsListed(ledger, timestamp, ops, side, a);
    InitInv(ledger, timestamp);
    RunKeepsListed(s0, ops, 0, k, side, a);
    forall i | 0 <= i <= k
      ensures AnswersScan(Run(s0, ops[..i]), side, a) <==> Listed(Run(s0, ops[..i]), side, a)
    {
      RunKeepsInv(s0, ops[..i]);
      AnswersExactly(Run(s0, ops[..i]), side, a);
    }
  }

  /** In the same histories a live id is listed exactly once under its own address, and nowhere else. */
  lemma EveryLiveIdListedOnce(
      ledger: nat, timestamp: nat, ops: seq<Op>, j: nat, k: nat, side: Side, id: nat, home: Address, a: Address)
    requires j <= k <= |ops| && Listed(Run(Init(ledger, timestamp), ops[..j]), side, home)
    requires ListOutlives(Init(ledger, timestamp), ops, j, k, side, home)
    requires id in IdsOf(Run(Init(ledger, timestamp), ops[..k]), side, home)
    ensures multiset(Listing(IndexOf(Run(Init(ledger, timestamp), ops[..k]), side), a))[id] == if a == home then 1 else 0
  {
    hide Inv, Listed, Run, ListOutlives;
    Reachable(ledger, timestamp, ops, j, k, side, home);
    ListedExactlyOnce(Run(Init(ledger, timestamp), ops[..k]), side, id, a);
  }

  // ---------------------------------------------------------------- what a query answers

  lemma {:induction false} LookupMembers(alerts: Records, ids: seq<nat>, c: AlertConfig)
    requires forall id :: id in ids ==> id in alerts
    ensures c in Lookup(alerts, ids) <==> exists id :: id in ids && alerts[id].value == c
  {
    if ids != [] {
      var front, last := ids[..|ids| - 1], ids[|ids| - 1];
      assert ids == front + [last];
      LookupMembers(alerts, front, c);
    }
  }

  /** A record is answered exactly if it is that of a live id in the list that passes the filter. */
  lemma ConfigsMembers(alerts: Records, ids: seq<nat>, keep: set<nat>, c: AlertConfig)
    ensures c in Configs(alerts, ids, keep) <==> exists id :: id in ids && id in keep && id in alerts && alerts[id].value == c
  {
    var kept := Only(ids, keep * alerts.Keys);
    LookupMembers(alerts, kept, c);
    if id :| id in ids && id in keep && id in alerts && alerts[id].value == c {
      assert id in kept;
    }
  }

  /** The records that the three queries of `a` answer, as long as its list is complete: all of its live
      alerts, those of them that are active, and those updated at `since` or later. */
  lemma QueriesAnswer(s: State, side: Side, a: Address, since: nat, c: AlertConfig)
    requires Inv(s) && Listed(s, side, a)
    ensures var ids, mine := Listing(IndexOf(s, side), a), if side.ByOwner? then c.owner == a else c.target == a;
            var stored := exists id :: id in s.alerts && s.alerts[id].value == c;
            && (c in Configs(s.alerts, ids, s.alerts.Keys) <==> mine && stored)
            && (c in Configs(s.alerts, ids, ActiveIds(s.alerts)) <==> mine && stored && c.active)
            && (c in Configs(s.alerts, ids, UpdatedIds(s.alerts, since)) <==> mine && stored && c.updatedAt >= since)
  {
    hide FlagsAgree, Dated, Logged, Tidy, Configs;
    var m, place := IndexOf(s, side), PlaceOf(s.alerts, side);
    var ids := Listing(m, a);
    ConfigsMembers(s.alerts, ids, s.alerts.Keys, c);
    ConfigsMembers(s.alerts, ids, ActiveIds(s.alerts), c);
    ConfigsMembers(s.alerts, ids, UpdatedIds(s.alerts, since), c);
    forall id | id in s.alerts ensures id in ids <==> place[id] == a {
      assert id in place;
      if id in ids { assert Lists(m, a, id); }
      if place[id] == a { assert Lists(m, a, id); }
    }
  }
}
