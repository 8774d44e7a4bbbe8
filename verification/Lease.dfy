/** The keeper's lease: what a successful `bump_alert` guarantees for the ledgers it paid for. */
module Lease {
  import opened Host
  import opened Seqs
  import opened AlertModel
  import opened IndexLists
  import opened AlertInvariant
  import opened Effects
  import EntryPoints

  /** `a`'s list stays readable through ledger `until` and lists `id`. */
  predicate HoldsUntil(m: Index, a: Address, id: nat, until: nat) {
    a in m && m[a].liveUntil >= until && id in m[a].value
  }

  /** The record, its flag and both of its lists stay readable through ledger `until`. */
  predicate Leased(s: State, id: nat, until: nat) {
    && id in s.alerts && s.alerts[id].liveUntil >= until
    && id in s.flags && s.flags[id].liveUntil >= until
    && HoldsUntil(s.owners, s.alerts[id].value.owner, id, until)
    && HoldsUntil(s.targets, s.alerts[id].value.target, id, until)
  }

  /** A lease is what the queries need: the record is readable and the by-owner, by-contract and
      flag queries all answer with it. */
  lemma LeasedIsVisible(s: State, id: nat, until: nat)
    requires Inv(s) && Leased(s, id, until)
    ensures id in s.alerts && id in s.flags
    ensures id in Only(Listing(s.owners, s.alerts[id].value.owner), s.alerts.Keys)
    ensures id in Only(Listing(s.targets, s.alerts[id].value.target), s.alerts.Keys)
    ensures s.flags[id].value == s.alerts[id].value.active
  {}

  /** `bump_alert` succeeds exactly when the contract is not paused and all four entries of the
      alert are readable: an expired flag or list makes it fail although the alert is live. */
  lemma BumpSucceedsExactly(s: State, id: nat, ttl: nat)
    ensures Exec(s, BumpAlert(id, ttl)).Done? <==>
            && !s.paused
            && id in s.alerts
            && id in s.flags
            && s.alerts[id].value.owner in s.owners
            && s.alerts[id].value.target in s.targets
  {
    DoAllShort(s, Renew(id, Min(ttl, MAX_TTL)), PutPaused(false), PutPaused(false));
  }

  /** The entries `bulk_renew_ttl` extends for a live alert are all readable. */
  predicate Renewable(s: State, id: nat) {
    id in s.alerts ==>
      && id in s.flags
      && s.alerts[id].value.owner in s.owners
      && s.alerts[id].value.target in s.targets
  }

  /** The same entries are readable and say the same; they may live longer. */
  ghost predicate SameEntries(s: State, t: State) {
    && SameRecords(s.alerts, t.alerts)
    && t.flags.Keys == s.flags.Keys && t.owners.Keys == s.owners.Keys && t.targets.Keys == s.targets.Keys
  }

  lemma RenewExactly(s: State, id: nat, ttl: nat)
    ensures DoRenew(s, id, ttl).Done? <==> Renewable(s, id)
    ensures SameEntries(s, DoRenew(s, id, ttl).state)
  {
    RenewIsQuiet(s, id, ttl);
  }

  lemma {:induction false} RenewalsExactly(s: State, ids: seq<nat>, k: nat)
    requires k <= |ids|
    ensures DoAll(s, Renewals(ids)[..k]).Done? <==> forall i :: 0 <= i < k ==> Renewable(s, ids[i])
    ensures SameEntries(s, DoAll(s, Renewals(ids)[..k]).state)
  {
    hide DoRenew;
    if k != 0 {
      var es := Renewals(ids);
      RenewalsExactly(s, ids, k - 1);
      assert es[..k] == es[..k - 1] + [es[k - 1]];
      DoAllNext(s, es[..k - 1], es[k - 1]);
      RenewExactly(DoAll(s, es[..k - 1]).state, ids[k - 1], DEFAULT_TTL);
    }
  }

  /** `bulk_renew_ttl` skips ids that are not live, but a live alert whose flag or one of whose lists
      has expired makes the whole call fail. */
  lemma BulkRenewExactly(s: State, ids: seq<nat>)
    ensures Exec(s, BulkRenew(ids)).Done? <==>
            |ids| <= MAX_BATCH_SIZE && forall id :: id in ids ==> Renewable(s, id)
  {
    hide DoAll, Renewable;
    assert Renewals(ids)[..|ids|] == Renewals(ids);
    RenewalsExactly(s, ids, |ids|);
  }

  lemma BumpGrantsLease(s: State, id: nat, ttl: nat)
    requires Exec(s, BumpAlert(id, ttl)).Done?
    requires id in Listing(s.owners, s.alerts[id].value.owner)
    requires id in Listing(s.targets, s.alerts[id].value.target)
    ensures Leased(Apply(s, BumpAlert(id, ttl)), id, s.ledger + Min(ttl, MAX_TTL))
  {
    DoAllShort(s, Renew(id, Min(ttl, MAX_TTL)), PutPaused(false), PutPaused(false));
    BumpSucceedsExactly(s, id, ttl);
  }

  /** The effects that take an id out of a list it is in. */
  predicate Displaces(e: Effect, id: nat) {
    (e.Erase? && e.id == id) || (e.Retarget? && e.id == id) || (e.Reassign? && e.id == id)
  }

  /** Rewriting a list without losing `id`, or any other list, keeps the lease on it. */
  lemma StoreHolds(m: Index, b: Address, ids: seq<nat>, now: nat, a: Address, id: nat, until: nat)
    requires HoldsUntil(m, a, id, until)
    requires b == a ==> id in ids
    ensures HoldsUntil(Store(m, b, ids, now), a, id, until)
  {}

  lemma PruneHolds(m: Index, b: Address, live: set<nat>, now: nat, a: Address, id: nat, until: nat)
    requires HoldsUntil(m, a, id, until) && id in live
    ensures HoldsUntil(Prune(m, b, live, now), a, id, until)
  {
    if b == a { assert id in Only(m[a].value, live); }
    StoreHolds(m, b, if b == a then Only(m[a].value, live) else Only(Listing(m, b), live), now, a, id, until);
  }

  lemma TouchHolds(m: Index, b: Address, now: nat, ttl: nat, a: Address, id: nat, until: nat)
    requires HoldsUntil(m, a, id, until) && b in m
    ensures HoldsUntil(Touch(m, b, now, ttl), a, id, until)
  {}

  lemma MoveHolds(m: Index, b: Address, gone: nat, c: Address, now: nat, a: Address, id: nat, until: nat)
    requires HoldsUntil(m, a, id, until) && gone != id
    ensures var dropped := Store(m, b, Without(Listing(m, b), gone), now);
            && HoldsUntil(dropped, a, id, until)
            && HoldsUntil(Store(dropped, c, Listing(dropped, c) + [gone], now), a, id, until)
  {
    var dropped := Store(m, b, Without(Listing(m, b), gone), now);
    StoreHolds(m, b, Without(Listing(m, b), gone), now, a, id, until);
    StoreHolds(dropped, c, Listing(dropped, c) + [gone], now, a, id, until);
  }

  lemma TouchedLease(s: State, c: AlertConfig, ttl: nat, id: nat, until: nat)
    requires Leased(s, id, until)
    ensures Leased(DoTouch(s, c, ttl).state, id, until)
  {
    hide HoldsUntil, Touch;
    var d := s.alerts[id].value;
    if c.owner in s.owners {
      TouchHolds(s.owners, c.owner, s.ledger, ttl, d.owner, id, until);
      if c.target in s.targets { TouchHolds(s.targets, c.target, s.ledger, ttl, d.target, id, until); }
    }
  }

  lemma EnrolledLease(s: State, owner: Address, input: AlertInput, tags: Option<seq<string>>, id: nat, until: nat)
    requires Inv(s) && Leased(s, id, until)
    ensures Leased(DoEnroll(s, owner, input, tags).state, id, until)
  {
    hide Inv, HoldsUntil, Store;
    var d := s.alerts[id].value;
    assert id < s.nextId by { BelowCounter(s); }
    StoreHolds(s.owners, owner, Listing(s.owners, owner) + [s.nextId], s.ledger, d.owner, id, until) by {
      HeldIsListed(s.owners, d.owner, id, until);
    }
    StoreHolds(s.targets, input.target, Listing(s.targets, input.target) + [s.nextId], s.ledger, d.target, id, until) by {
      HeldIsListed(s.targets, d.target, id, until);
    }
  }

  lemma HeldIsListed(m: Index, a: Address, id: nat, until: nat)
    requires HoldsUntil(m, a, id, until)
    ensures id in Listing(m, a)
  {}

  lemma ErasedLease(s: State, gone: nat, caller: Address, asAdmin: bool, id: nat, until: nat)
    requires Leased(s, id, until) && gone != id
    ensures Leased(DoErase(s, gone, caller, asAdmin).state, id, until)
  {
    hide HoldsUntil, Store, Without;
    if gone in s.alerts {
      var c, d := s.alerts[gone].value, s.alerts[id].value;
      MoveHolds(s.owners, c.owner, gone, c.owner, s.ledger, d.owner, id, until);
      MoveHolds(s.targets, c.target, gone, c.target, s.ledger, d.target, id, until);
    }
  }

  lemma MovedLease(s: State, moved: nat, to: Address, id: nat, until: nat)
    requires Leased(s, id, until) && moved != id
    ensures Leased(DoRetarget(s, moved, to).state, id, until)
    ensures Leased(DoReassign(s, moved, to).state, id, until)
  {
    hide HoldsUntil, Store, Without;
    if moved in s.alerts {
      var c, d := s.alerts[moved].value, s.alerts[id].value;
      MoveHolds(s.owners, c.owner, moved, to, s.ledger, d.owner, id, until);
      MoveHolds(s.targets, c.target, moved, to, s.ledger, d.target, id, until);
    }
  }

  lemma AdmittedLease(s: State, owner: Address, additional: nat, id: nat, until: nat)
    requires Leased(s, id, until)
    ensures Leased(DoAdmit(s, owner, additional).state, id, until)
  {
    hide HoldsUntil, Prune;
    PruneHolds(s.owners, owner, s.alerts.Keys, s.ledger, s.alerts[id].value.owner, id, until);
  }

  /** Edits, reads, announcements and settings leave both lists alone. */
  lemma UpdatedLease(s: State, e: Effect, id: nat, until: nat)
    requires Leased(s, id, until)
    requires e.Edit? || e.Deactivate? || e.Keep? || e.Publish? || e.PutLimit? || e.PutPaused? || e.PutAdmins?
    ensures Leased(Do(s, e).state, id, until)
  {
    hide HoldsUntil, DoAdmit, DoEnroll, DoTouch, DoRenew, DoErase, DoRetarget, DoReassign, DoWait;
  }

  lemma EffectKeepsLease(s: State, e: Effect, id: nat, until: nat)
    requires Inv(s) && Leased(s, id, until) && !Displaces(e, id)
    requires Do(s, e).state.ledger <= until
    ensures Leased(Do(s, e).state, id, until)
  {
    hide Inv, Leased, DoAdmit, DoEnroll, DoEdit, DoTouch, DoRenew, DoErase, DoRetarget, DoReassign, Extend, PutRecord;
    match e
    case Admit(owner, additional) => AdmittedLease(s, owner, additional, id, until);
    case Enroll(owner, input, tags) => EnrolledLease(s, owner, input, tags, id, until);
    case TouchIndexes(i) => if i in s.alerts { TouchedLease(s, s.alerts[i].value, DEFAULT_TTL, id, until); }
    case Renew(i, ttl) => RenewedLease(s, i, ttl, id, until);
    case Erase(i, caller, asAdmin) => ErasedLease(s, i, caller, asAdmin, id, until);
    case Retarget(i, to) => MovedLease(s, i, to, id, until);
    case Reassign(i, to) => MovedLease(s, i, to, id, until);
    case Wait(ledgers, seconds) => WaitedLease(s, ledgers, seconds, id, until);
    case _ => UpdatedLease(s, e, id, until);
  }

  lemma RenewedLease(s: State, i: nat, ttl: nat, id: nat, until: nat)
    requires Leased(s, id, until)
    ensures Leased(DoRenew(s, i, ttl).state, id, until)
  {
    hide HoldsUntil, Touch;
    if i in s.alerts && i in s.flags {
      var s1 := s.(alerts := Extend(s.alerts, i, s.ledger, ttl), flags := Extend(s.flags, i, s.ledger, ttl));
      assert Leased(s1, id, until);
      TouchedLease(s1, s.alerts[i].value, ttl, id, until);
    }
  }

  lemma WaitedLease(s: State, ledgers: nat, seconds: nat, id: nat, until: nat)
    requires Leased(s, id, until) && s.ledger + ledgers <= until
    ensures Leased(DoWait(s, ledgers, seconds), id, until)
  {}

  lemma LedgerAdvances(s: State, e: Effect)
    ensures Do(s, e).state.ledger >= s.ledger
  {
    if Quiet(e) {
      hide Do;
      QuietEffect(s, e);
    } else if Rewrites(e) {
      hide Do;
      RewritingEffect(s, e);
    } else if e.Enroll? {
      hide DoEnroll;
      EnrollingEffect(s, e.owner, e.input, e.tags);
    } else if e.Erase? {
      hide DoErase;
      ErasingEffect(s, e.id, e.caller, e.asAdmin);
    }
  }

  lemma {:induction false} PlanKeepsLease(s: State, es: seq<Effect>, id: nat, until: nat)
    requires Inv(s) && Leased(s, id, until)
    requires forall e :: e in es ==> !Displaces(e, id)
    requires DoAll(s, es).state.ledger <= until
    ensures Leased(DoAll(s, es).state, id, until)
    decreases |es|
  {
    hide Inv, Leased, Displaces, Do;
    if es != [] {
      var front, e := es[..|es| - 1], es[|es| - 1];
      assert e in es;
      LedgerAdvances(DoAll(s, front).state, e);
      PlanKeepsLease(s, front, id, until);
      PlanKeepsInv(s, front);
      if DoAll(s, front).Done? { EffectKeepsLease(DoAll(s, front).state, e, id, until); }
    }
  }

  /** The calls that end a lease early, if they succeed. A transfer to the owner itself does nothing. */
  predicate EndsLease(op: Op, id: nat) {
    || (op.RemoveAlert? && op.id == id)
    || (op.RemoveAlertByAdmin? && op.id == id)
    || (op.UpdateTarget? && op.id == id)
    || (op.TransferOwnership? && op.id == id && op.newOwner != op.owner)
  }

  lemma PlanDisplacesNothing(s: State, op: Op, id: nat)
    requires Plan(s, op).Ok? && !EndsLease(op, id)
    ensures forall e :: e in Plan(s, op).value ==> !Displaces(e, id)
  {}

  lemma ApplyKeepsLease(s: State, op: Op, id: nat, until: nat)
    requires Inv(s) && Leased(s, id, until)
    requires EndsLease(op, id) ==> Exec(s, op).Failed?
    requires Apply(s, op).ledger <= until
    ensures Leased(Apply(s, op), id, until)
  {
    hide Inv, Leased, Displaces, Plan, DoAll, EndsLease;
    if Exec(s, op).Done? {
      PlanDisplacesNothing(s, op, id);
      PlanKeepsLease(s, Plan(s, op).value, id, until);
    }
  }

  lemma {:induction false} PlanLedger(s: State, es: seq<Effect>)
    ensures DoAll(s, es).state.ledger >= s.ledger
    decreases |es|
  {
    hide Do;
    if es != [] {
      PlanLedger(s, es[..|es| - 1]);
      LedgerAdvances(DoAll(s, es[..|es| - 1]).state, es[|es| - 1]);
    }
  }

  /** Whether no call of a history ends the lease. */
  ghost predicate LeaseRespected(s: State, ops: seq<Op>, k: nat, id: nat)
    requires k <= |ops|
  {
    forall i :: 0 <= i < k && EndsLease(ops[i], id) ==> Exec(Run(s, ops[..i]), ops[i]).Failed?
  }

  lemma {:induction false} RunKeepsLease(s: State, ops: seq<Op>, k: nat, id: nat, until: nat)
    requires Inv(s) && Leased(s, id, until) && k <= |ops|
    requires LeaseRespected(s, ops, k, id)
    requires Run(s, ops[..k]).ledger <= until
    ensures Leased(Run(s, ops[..k]), id, until)
  {
    hide Inv, Leased, EndsLease, Plan, DoAll;
    if k != 0 {
      RunNext(s, ops, k - 1);
      var t := Run(s, ops[..k - 1]);
      if Plan(t, ops[k - 1]).Ok? { PlanLedger(t, Plan(t, ops[k - 1]).value); }
      RunKeepsLease(s, ops, k - 1, id, until);
      RunKeepsInv(s, ops[..k - 1]);
      ApplyKeepsLease(t, ops[k - 1], id, until);
    }
  }

  /** After a successful `bump_alert(id, ttl)` at ledger n, while id is listed in both indexes, the
      alert stays readable and listed by both id queries, and its cheap flag stays readable, in
      every state up to ledger n + min(ttl, MAX_TTL), whatever else is called, as long as no
      call removes this alert, retargets it or transfers it to another owner. */
  lemma KeeperLease(s: State, id: nat, ttl: nat, ops: seq<Op>)
    requires Inv(s) && Exec(s, BumpAlert(id, ttl)).Done?
    requires id in Listing(s.owners, s.alerts[id].value.owner)
    requires id in Listing(s.targets, s.alerts[id].value.target)
    requires LeaseRespected(Apply(s, BumpAlert(id, ttl)), ops, |ops|, id)
    requires Run(Apply(s, BumpAlert(id, ttl)), ops).ledger <= s.ledger + Min(ttl, MAX_TTL)
    ensures var t := Run(Apply(s, BumpAlert(id, ttl)), ops);
            && id in t.alerts
            && id in Only(Listing(t.owners, t.alerts[id].value.owner), t.alerts.Keys)
            && id in Only(Listing(t.targets, t.alerts[id].value.target), t.alerts.Keys)
            && id in t.flags && t.flags[id].value == t.alerts[id].value.active
  {
    var s1, until := Apply(s, BumpAlert(id, ttl)), s.ledger + Min(ttl, MAX_TTL);
    hide Inv, Leased, Plan, DoAll, LeaseRespected, Only, Run;
    BumpGrantsLease(s, id, ttl);
    ExecKeepsInv(s, BumpAlert(id, ttl));
    assert ops[..|ops|] == ops;
    RunKeepsLease(s1, ops, |ops|, id, until);
    RunKeepsInv(s1, ops);
    LeasedIsVisible(Run(s1, ops), id, until);
  }

  // ---------------------------------------------------------------- what a read does not renew

  /** A read writes exactly when the record it finds has less than a default lifetime left. */
  lemma ReadWritesExactly(s: State, id: nat)
    ensures Apply(s, GetAlert(id)) == s <==> id in s.alerts ==> s.alerts[id].liveUntil >= s.ledger + DEFAULT_TTL
  {
    hide Exec;
    EntryPoints.GetAlert(s, id);
    if id in s.alerts && s.alerts[id].liveUntil >= s.ledger + DEFAULT_TTL {
      assert Extend(s.alerts, id, s.ledger, DEFAULT_TTL) == s.alerts;
    }
  }

  /** One registration, a long wait, a single `get_alert`, and a shorter wait. */
  function ReadOnlyLife(owner: Address, input: AlertInput): seq<Op> {
    [Register(owner, input, None), Advance(100_000, 0), GetAlert(0), Advance(30_000, 0)]
  }

  lemma FourSteps(s: State, a: Op, b: Op, c: Op, d: Op)
    ensures Run(s, [a, b, c, d]) == Apply(Apply(Apply(Apply(s, a), b), c), d)
  {
    hide Apply;
    var ops := [a, b, c, d];
    assert ops[..0] == [] && ops[..4] == ops;
    RunNext(s, ops, 0);
    RunNext(s, ops, 1);
    RunNext(s, ops, 2);
    RunNext(s, ops, 3);
  }

  lemma Registers(owner: Address, input: AlertInput)
    requires ValidInput(input).Pass?
    ensures var s := Apply(Init(0, 0), Register(owner, input, None));
            && s.alerts == map[0 := Entry(NewConfig(owner, input, None, 0), DEFAULT_TTL)]
            && s.flags == map[0 := Entry(true, DEFAULT_TTL)]
            && s.owners == map[owner := Entry([0], DEFAULT_TTL)]
            && s.targets == map[input.target := Entry([0], DEFAULT_TTL)]
            && s.ledger == 0 && !s.paused
  {
    hide Exec, ValidInput;
    EntryPoints.Register(Init(0, 0), owner, input, None);
    assert Listing(Init(0, 0).owners, owner) + [0] == [0];
    assert Listing(Init(0, 0).targets, input.target) + [0] == [0];
  }

  /** A read renews only the record: after this history the alert is still live, yet it is in neither
      index, its cheap flag is gone, and `bump_alert` can no longer renew it. */
  lemma ReadingCanOrphan(owner: Address, input: AlertInput)
    requires ValidInput(input).Pass?
    ensures var s := Run(Init(0, 0), ReadOnlyLife(owner, input));
            && 0 in s.alerts && s.alerts[0].value.owner == owner && s.alerts[0].value.target == input.target
            && Listing(s.owners, owner) == [] && Listing(s.targets, input.target) == []
            && 0 !in s.flags
            && Exec(s, BumpAlert(0, MAX_TTL)).Failed?
            && Exec(s, BulkRenew([0])).Failed?
  {
    hide Exec, Apply, Run, NewConfig, ValidInput;
    var s0 := Init(0, 0);
    FourSteps(s0, Register(owner, input, None), Advance(100_000, 0), GetAlert(0), Advance(30_000, 0));
    Registers(owner, input);
    var s1 := Apply(s0, Register(owner, input, None));
    AdvanceIsWait(s1, Advance(100_000, 0));
    var s2 := Apply(s1, Advance(100_000, 0));
    Reads(s2, 0);
    var s3 := Apply(s2, GetAlert(0));
    AdvanceIsWait(s3, Advance(30_000, 0));
    BumpSucceedsExactly(Apply(s3, Advance(30_000, 0)), 0, MAX_TTL);
    BulkRenewExactly(Apply(s3, Advance(30_000, 0)), [0]);
    assert 0 in [0];
    assert NewConfig(owner, input, None, 0).owner == owner && NewConfig(owner, input, None, 0).target == input.target by {
      NewConfigOf(owner, input);
    }
  }

  lemma NewConfigOf(owner: Address, input: AlertInput)
    ensures NewConfig(owner, input, None, 0).owner == owner && NewConfig(owner, input, None, 0).target == input.target
  {}

  lemma Reads(s: State, id: nat)
    requires id in s.alerts
    ensures Apply(s, GetAlert(id)) == s.(alerts := Extend(s.alerts, id, s.ledger, DEFAULT_TTL))
  {
    hide DoAll, Extend;
    DoAllShort(s, Keep(id), PutPaused(false), PutPaused(false));
  }
}
