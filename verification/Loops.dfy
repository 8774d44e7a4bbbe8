/** The three calls that loop over many alerts, each as one change of the stored entries. */
module Loops {
  import opened Host
  import opened Seqs
  import opened AlertModel
  import opened AlertInvariant
  import Batch

  /** The entries in `which` stay readable at least through ledger `until`; nothing else changes. */
  ghost predicate Lengthened<K, V>(before: map<K, Entry<V>>, after: map<K, Entry<V>>, which: set<K>, until: nat) {
    && after.Keys == before.Keys
    && forall k :: k in before ==>
         && after[k].value == before[k].value
         && after[k].liveUntil == if k in which then Max(before[k].liveUntil, until) else before[k].liveUntil
  }

  lemma LengthenedTwice<K, V>(
      a: map<K, Entry<V>>, b: map<K, Entry<V>>, c: map<K, Entry<V>>, these: set<K>, those: set<K>, until: nat)
    requires Lengthened(a, b, these, until) && Lengthened(b, c, those, until)
    ensures Lengthened(a, c, these + those, until)
  {}

  // ---------------------------------------------------------------- bulk_renew_ttl

  function LiveOf(s: State, ids: seq<nat>): set<nat> {
    set id | id in ids && id in s.alerts
  }

  function OwnersFor(s: State, ids: seq<nat>): set<Address> {
    set id | id in ids && id in s.alerts :: s.alerts[id].value.owner
  }

  function TargetsFor(s: State, ids: seq<nat>): set<Address> {
    set id | id in ids && id in s.alerts :: s.alerts[id].value.target
  }

  function Bumps(ids: seq<nat>, ttl: nat): seq<Event> {
    seq(|ids|, i requires 0 <= i < |ids| => Note(Bumped(ids[i], ttl)))
  }

  /** The live alerts among `ids`, their flags, and the lists of their owners and targets live longer;
      one event for each, in order. */
  ghost predicate Prolonged(s: State, t: State, ids: seq<nat>, ttl: nat) {
    && t == s.(alerts := t.alerts, flags := t.flags, owners := t.owners, targets := t.targets, events := t.events)
    && Lengthened(s.alerts, t.alerts, LiveOf(s, ids), s.ledger + ttl)
    && Lengthened(s.flags, t.flags, LiveOf(s, ids), s.ledger + ttl)
    && Lengthened(s.owners, t.owners, OwnersFor(s, ids), s.ledger + ttl)
    && Lengthened(s.targets, t.targets, TargetsFor(s, ids), s.ledger + ttl)
    && t.events == s.events + Bumps(Only(ids, s.alerts.Keys), ttl)
  }

  lemma ExtendLengthens<K, V>(m: map<K, Entry<V>>, k: K, now: nat, ttl: nat)
    requires k in m
    ensures Lengthened(m, Extend(m, k, now, ttl), {k}, now + ttl)
  {}

  lemma NothingLengthened<K, V>(m: map<K, Entry<V>>, until: nat)
    ensures Lengthened(m, m, {}, until)
  {}

  lemma RenewWrites(s: State, id: nat, ttl: nat)
    requires DoRenew(s, id, ttl).Done? && id in s.alerts
    ensures var c := s.alerts[id].value;
            && id in s.flags && c.owner in s.owners && c.target in s.targets
            && DoRenew(s, id, ttl).state ==
               s.(alerts := Extend(s.alerts, id, s.ledger, ttl), flags := Extend(s.flags, id, s.ledger, ttl),
                  owners := Extend(s.owners, c.owner, s.ledger, ttl), targets := Extend(s.targets, c.target, s.ledger, ttl),
                  events := s.events + [Note(Bumped(id, ttl))])
  {
    hide Extend;
  }

  lemma SetsOfOne(s: State, id: nat)
    ensures LiveOf(s, [id]) == if id in s.alerts then {id} else {}
    ensures OwnersFor(s, [id]) == if id in s.alerts then {s.alerts[id].value.owner} else {}
    ensures TargetsFor(s, [id]) == if id in s.alerts then {s.alerts[id].value.target} else {}
    ensures Only([id], s.alerts.Keys) == if id in s.alerts then [id] else []
  {
    assert [id][..0] == [];
  }

  lemma RenewOne(s: State, id: nat, ttl: nat)
    requires DoRenew(s, id, ttl).Done?
    ensures Prolonged(s, DoRenew(s, id, ttl).state, [id], ttl)
  {
    hide Lengthened, LiveOf, OwnersFor, TargetsFor, Only, Extend;
    SetsOfOne(s, id);
    if id in s.alerts {
      hide DoRenew;
      RenewWrites(s, id, ttl);
      var c := s.alerts[id].value;
      ExtendLengthens(s.alerts, id, s.ledger, ttl);
      ExtendLengthens(s.flags, id, s.ledger, ttl);
      ExtendLengthens(s.owners, c.owner, s.ledger, ttl);
      ExtendLengthens(s.targets, c.target, s.ledger, ttl);
      assert Bumps([id], ttl) == [Note(Bumped(id, ttl))];
    } else {
      NothingLengthened(s.alerts, s.ledger + ttl);
      NothingLengthened(s.flags, s.ledger + ttl);
      NothingLengthened(s.owners, s.ledger + ttl);
      NothingLengthened(s.targets, s.ledger + ttl);
      assert Bumps([], ttl) == [];
    }
  }

  lemma LengthenedValues<K, V>(a: map<K, Entry<V>>, b: map<K, Entry<V>>, which: set<K>, until: nat)
    requires Lengthened(a, b, which, until)
    ensures b.Keys == a.Keys && forall k :: k in a ==> b[k].value == a[k].value
  {}

  lemma BumpsOfBoth(p: seq<nat>, q: seq<nat>, ttl: nat)
    ensures Bumps(p + q, ttl) == Bumps(p, ttl) + Bumps(q, ttl)
  {}

  lemma ProlongedTwice(s: State, t: State, u: State, ids: seq<nat>, id: nat, ttl: nat)
    requires Prolonged(s, t, ids, ttl) && Prolonged(t, u, [id], ttl)
    ensures Prolonged(s, u, ids + [id], ttl)
  {
    hide Lengthened, LiveOf, OwnersFor, TargetsFor, Only, Bumps;
    LengthenedValues(s.alerts, t.alerts, LiveOf(s, ids), s.ledger + ttl);
    SameSets(s, t, ids, id);
    var until := s.ledger + ttl;
    LengthenedTwice(s.alerts, t.alerts, u.alerts, LiveOf(s, ids), LiveOf(s, [id]), until);
    LengthenedTwice(s.flags, t.flags, u.flags, LiveOf(s, ids), LiveOf(s, [id]), until);
    LengthenedTwice(s.owners, t.owners, u.owners, OwnersFor(s, ids), OwnersFor(s, [id]), until);
    LengthenedTwice(s.targets, t.targets, u.targets, TargetsFor(s, ids), TargetsFor(s, [id]), until);
    OnlyConcat(ids, [id], s.alerts.Keys);
    BumpsOfBoth(Only(ids, s.alerts.Keys), Only([id], s.alerts.Keys), ttl);
  }

  lemma SameSets(s: State, t: State, ids: seq<nat>, id: nat)
    requires t.alerts.Keys == s.alerts.Keys && forall i :: i in s.alerts ==> t.alerts[i].value == s.alerts[i].value
    ensures LiveOf(t, [id]) == LiveOf(s, [id]) && LiveOf(s, ids + [id]) == LiveOf(s, ids) + LiveOf(s, [id])
    ensures OwnersFor(t, [id]) == OwnersFor(s, [id]) && OwnersFor(s, ids + [id]) == OwnersFor(s, ids) + OwnersFor(s, [id])
    ensures TargetsFor(t, [id]) == TargetsFor(s, [id]) && TargetsFor(s, ids + [id]) == TargetsFor(s, ids) + TargetsFor(s, [id])
  {}

  lemma {:induction false} RenewalsProlong(s: State, ids: seq<nat>, k: nat)
    requires k <= |ids| && DoAll(s, Renewals(ids)[..k]).Done?
    ensures Prolonged(s, DoAll(s, Renewals(ids)[..k]).state, ids[..k], DEFAULT_TTL)
  {
    if k == 0 {
      assert ids[..0] == [] && s.events + [] == s.events;
    } else {
      hide DoRenew, Prolonged;
      var es := Renewals(ids);
      assert es[..k] == es[..k - 1] + [es[k - 1]] && ids[..k] == ids[..k - 1] + [ids[k - 1]];
      DoAllNext(s, es[..k - 1], es[k - 1]);
      RenewalsProlong(s, ids, k - 1);
      var t := DoAll(s, es[..k - 1]).state;
      RenewOne(t, ids[k - 1], DEFAULT_TTL);
      ProlongedTwice(s, t, DoRenew(t, ids[k - 1], DEFAULT_TTL).state, ids[..k - 1], ids[k - 1], DEFAULT_TTL);
    }
  }

  /** A successful `bulk_renew_ttl` as one change. */
  lemma BulkRenewProlongs(s: State, ids: seq<nat>)
    requires Exec(s, BulkRenew(ids)).Done?
    ensures Prolonged(s, Apply(s, BulkRenew(ids)), ids, DEFAULT_TTL)
  {
    hide DoAll, Prolonged;
    assert Renewals(ids)[..|ids|] == Renewals(ids) && ids[..|ids|] == ids;
    RenewalsProlong(s, ids, |ids|);
  }

  // ---------------------------------------------------------------- deactivate_all_alerts

  function Until<K, V>(m: map<K, Entry<V>>, k: K): nat {
    if k in m then m[k].liveUntil else 0
  }

  function ActiveOf(s: State, ids: seq<nat>): set<nat> {
    set id | id in ids && id in s.alerts && s.alerts[id].value.active
  }

  ghost predicate OffRecords(s: State, alerts: Records, off: set<nat>) {
    && alerts.Keys == s.alerts.Keys
    && forall id :: id in s.alerts ==>
         alerts[id] == if id in off then Entry(s.alerts[id].value.(active := false, updatedAt := s.timestamp),
                                               Max(s.alerts[id].liveUntil, s.ledger + DEFAULT_TTL))
                       else s.alerts[id]
  }

  ghost predicate OffFlags(s: State, flags: map<nat, Entry<bool>>, off: set<nat>) {
    && flags.Keys == s.flags.Keys + off
    && forall id :: id in flags ==>
         flags[id] == if id in off then Entry(false, Max(Until(s.flags, id), s.ledger + DEFAULT_TTL)) else s.flags[id]
  }

  /** The alerts in `off` are switched off, record and flag alike; nothing else changes. */
  ghost predicate SwitchedOff(s: State, t: State, off: set<nat>) {
    && t == s.(alerts := t.alerts, flags := t.flags)
    && OffRecords(s, t.alerts, off)
    && OffFlags(s, t.flags, off)
  }

  lemma {:induction false} DeactivationsSwitchOff(s: State, ids: seq<nat>, k: nat)
    requires k <= |ids|
    ensures DoAll(s, Deactivations(ids)[..k]).Done?
    ensures SwitchedOff(s, DoAll(s, Deactivations(ids)[..k]).state, ActiveOf(s, ids[..k]))
  {
    if k == 0 {
      assert ids[..0] == [];
    } else {
      var es := Deactivations(ids);
      assert es[..k] == es[..k - 1] + [es[k - 1]] && ids[..k] == ids[..k - 1] + [ids[k - 1]];
      DoAllNext(s, es[..k - 1], es[k - 1]);
      DeactivationsSwitchOff(s, ids, k - 1);
      hide DoAll;
      SwitchOne(s, DoAll(s, es[..k - 1]).state, ids[..k - 1], ids[k - 1]);
    }
  }

  lemma OffRecordsNext(s: State, alerts: Records, off: set<nat>, id: nat)
    requires OffRecords(s, alerts, off) && id in s.alerts && id !in off
    ensures var c := s.alerts[id].value.(active := false, updatedAt := s.timestamp);
            OffRecords(s, Put(alerts, id, c, s.ledger, DEFAULT_TTL), off + {id})
  {}

  lemma OffFlagsNext(s: State, flags: map<nat, Entry<bool>>, off: set<nat>, id: nat)
    requires OffFlags(s, flags, off) && id !in off
    ensures OffFlags(s, Put(flags, id, false, s.ledger, DEFAULT_TTL), off + {id})
  {}

  lemma DeactivateWrites(t: State, id: nat)
    ensures Do(t, Deactivate(id)) ==
            if id in t.alerts && t.alerts[id].value.active then
              Done(t.(alerts := Put(t.alerts, id, t.alerts[id].value.(active := false, updatedAt := t.timestamp),
                                    t.ledger, DEFAULT_TTL),
                      flags := Put(t.flags, id, false, t.ledger, DEFAULT_TTL)))
            else Done(t)
  {
    hide Put, DoAdmit, DoEnroll, DoEdit, DoTouch, DoRenew, DoErase, DoRetarget, DoReassign, DoWait;
  }

  lemma ActiveOfNext(s: State, ids: seq<nat>, id: nat)
    ensures ActiveOf(s, ids + [id]) == ActiveOf(s, ids) + if id in s.alerts && s.alerts[id].value.active then {id} else {}
    ensures id in ActiveOf(s, ids) ==> id in s.alerts && s.alerts[id].value.active
  {}

  lemma SwitchOne(s: State, t: State, ids: seq<nat>, id: nat)
    requires SwitchedOff(s, t, ActiveOf(s, ids))
    ensures Do(t, Deactivate(id)).Done? && SwitchedOff(s, Do(t, Deactivate(id)).state, ActiveOf(s, ids + [id]))
  {
    hide Do, Put, ActiveOf, OffFlags;
    var off := ActiveOf(s, ids);
    ActiveOfNext(s, ids, id);
    DeactivateWrites(t, id);
    if id in t.alerts && t.alerts[id].value.active {
      assert id !in off && t.alerts[id] == s.alerts[id];
      OffRecordsNext(s, t.alerts, off, id);
      OffFlagsNext(s, t.flags, off, id);
    } else {
      assert id in s.alerts && s.alerts[id].value.active ==> id in off;
      assert ActiveOf(s, ids + [id]) == off;
    }
  }

  /** `deactivate_all_alerts` as one change; once past the pause flag it cannot fail. */
  lemma DeactivateAllSwitchesOff(s: State, caller: Address)
    ensures Exec(s, DeactivateAll(caller)).Done? <==> !s.paused
    ensures !s.paused ==>
              SwitchedOff(s, Apply(s, DeactivateAll(caller)), ActiveOf(s, Listing(s.owners, caller)))
  {
    hide DoAll, SwitchedOff;
    var ids := Listing(s.owners, caller);
    assert Deactivations(ids)[..|ids|] == Deactivations(ids) && ids[..|ids|] == ids;
    DeactivationsSwitchOff(s, ids, |ids|);
  }
}
