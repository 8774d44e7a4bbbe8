/** When a missing flag means a missing alert. The flag copy and the record start with the same
    lifetime; `get_alert_active` answers None for a live alert only after a call has extended the
    record alone. */
module Flags {
  import opened Host
  import opened Seqs
  import opened AlertModel
  import opened AlertInvariant
  import EntryPoints

  /** The flag of a live alert is stored and readable exactly as long as the record. */
  predicate Paired(s: State, id: nat) {
    id in s.alerts ==> id in s.flags && s.flags[id].liveUntil == s.alerts[id].liveUntil
  }

  /** The calls that extend the record of `id` but not its flag. */
  predicate ExtendsAlone(op: Op, id: nat) {
    || (op.GetAlert? && op.id == id)
    || (op.UpdateWebhook? && op.id == id)
    || (op.ProposeWebhook? && op.id == id)
    || (op.ConfirmWebhook? && op.id == id)
    || (op.UpdateLabel? && op.id == id)
    || (op.UpdateTags? && op.id == id)
    || (op.UpdateTarget? && op.id == id)
    || (op.TransferOwnership? && op.id == id && op.newOwner != op.owner)
  }

  /** Such a call succeeds while the record has less than a default lifetime left. */
  predicate Parts(s: State, op: Op, id: nat) {
    ExtendsAlone(op, id) && Exec(s, op).Done? && id in s.alerts && s.alerts[id].liveUntil < s.ledger + DEFAULT_TTL
  }

  /** The effects that extend the record of `id` but not its flag. */
  predicate Alone(e: Effect, id: nat) {
    || (e.Keep? && e.id == id)
    || (e.Retarget? && e.id == id)
    || (e.Reassign? && e.id == id)
    || (e.Edit? && e.id == id && !e.patch.Rules? && !e.patch.Active?)
  }

  // ---------------------------------------------------------------- effects that keep the pair

  /** Either pair of entries of `id` is as it was, or both are gone. */
  ghost predicate PairUntouched(s: State, t: State, id: nat) {
    || id !in t.alerts
    || (&& id in s.alerts && t.alerts[id].liveUntil == s.alerts[id].liveUntil
        && (id in s.flags ==> id in t.flags && t.flags[id].liveUntil == s.flags[id].liveUntil))
  }

  lemma RenewPairs(s: State, i: nat, ttl: nat, id: nat)
    requires Paired(s, id)
    ensures Paired(DoRenew(s, i, ttl).state, id)
  {
    hide DoTouch;
    if i in s.alerts && i in s.flags {
      TouchLeavesPairs(s.(alerts := Extend(s.alerts, i, s.ledger, ttl), flags := Extend(s.flags, i, s.ledger, ttl)),
                       s.alerts[i].value, ttl);
    }
  }

  lemma TouchLeavesPairs(s: State, c: AlertConfig, ttl: nat)
    ensures DoTouch(s, c, ttl).state.alerts == s.alerts && DoTouch(s, c, ttl).state.flags == s.flags
  {
    hide Touch;
  }

  lemma EnrollPairs(s: State, owner: Address, input: AlertInput, tags: Option<seq<string>>, id: nat)
    requires Paired(s, id) && s.nextId !in s.alerts && s.nextId !in s.flags
    ensures Paired(DoEnroll(s, owner, input, tags).state, id)
  {
    hide Store, Listing;
  }

  lemma MovePairs(s: State, i: nat, to: Address, id: nat)
    requires i != id
    ensures PairUntouched(s, DoRetarget(s, i, to).state, id) && PairUntouched(s, DoReassign(s, i, to).state, id)
  {
    hide Store, Listing, Without;
  }

  lemma WritePairs(s: State, i: nat, c: AlertConfig, flagged: bool, id: nat)
    requires Paired(s, id) && i in s.alerts && (flagged || i != id)
    ensures Paired(PutRecord(s, i, c, flagged), id)
  {}

  lemma WaitPairs(s: State, ledgers: nat, seconds: nat, id: nat)
    requires Paired(s, id)
    ensures Paired(DoWait(s, ledgers, seconds), id)
  {}

  lemma PlainKeepsPair(s: State, e: Effect, id: nat)
    requires Paired(s, id) && !Alone(e, id)
    requires !e.Enroll? && !e.TouchIndexes? && !e.Renew? && !e.Edit? && !e.Deactivate?
    requires !e.Retarget? && !e.Reassign? && !e.Wait?
    ensures Paired(Do(s, e).state, id)
  {
    hide Prune, Store, Listing, Without;
  }

  lemma EffectKeepsPair(s: State, e: Effect, id: nat)
    requires Inv(s) && Paired(s, id) && !Alone(e, id)
    ensures Paired(Do(s, e).state, id)
  {
    BelowCounter(s);
    FlagsBelow(s);
    hide Inv, Patched, PutRecord, DoAdmit, DoEnroll, DoErase, DoTouch, DoRenew, DoRetarget, DoReassign, DoWait, Extend;
    match e
    case Enroll(owner, input, tags) => EnrollPairs(s, owner, input, tags, id);
    case TouchIndexes(i) => if i in s.alerts { TouchLeavesPairs(s, s.alerts[i].value, DEFAULT_TTL); }
    case Renew(i, ttl) => RenewPairs(s, i, ttl, id);
    case Edit(i, patch) =>
      if i in s.alerts {
        WritePairs(s, i, Patched(s.alerts[i].value, patch, s.timestamp), patch.Rules? || patch.Active?, id);
      }
    case Deactivate(i) =>
      if i in s.alerts { WritePairs(s, i, Patched(s.alerts[i].value, Active(false), s.timestamp), true, id); }
    case Retarget(i, to) => MovePairs(s, i, to, id);
    case Reassign(i, to) => MovePairs(s, i, to, id);
    case Wait(ledgers, seconds) => WaitPairs(s, ledgers, seconds, id);
    case _ => PlainKeepsPair(s, e, id);
  }

  lemma FlagsBelow(s: State)
    requires Inv(s)
    ensures forall id :: id in s.flags ==> id in s.alerts
  {}

  lemma {:induction false} PlanKeepsPair(s: State, es: seq<Effect>, id: nat)
    requires Inv(s) && Paired(s, id) && forall e :: e in es ==> !Alone(e, id)
    ensures Paired(DoAll(s, es).state, id)
    decreases |es|
  {
    hide Inv, Paired, Alone, Do;
    if es != [] {
      var front, e := es[..|es| - 1], es[|es| - 1];
      assert e in es;
      PlanKeepsPair(s, front, id);
      PlanKeepsInv(s, front);
      EffectKeepsPair(DoAll(s, front).state, e, id);
    }
  }

  lemma PlanAlone(s: State, op: Op, id: nat)
    requires Plan(s, op).Ok? && !ExtendsAlone(op, id)
    ensures forall e :: e in Plan(s, op).value ==> !Alone(e, id)
  {}

  // ---------------------------------------------------------------- calls that part it

  lemma TouchingStep(s: State, id: nat, patch: Patch)
    requires id in s.alerts
    ensures var c := Patched(s.alerts[id].value, patch, s.timestamp);
            var t := DoTouch(PutRecord(s, id, c, false), c, DEFAULT_TTL).state;
            && t.flags == s.flags && id in t.alerts
            && t.alerts[id].liveUntil == Max(s.alerts[id].liveUntil, s.ledger + DEFAULT_TTL)
  {
    hide DoTouch, Patched;
    var c := Patched(s.alerts[id].value, patch, s.timestamp);
    TouchLeavesPairs(PutRecord(s, id, c, false), c, DEFAULT_TTL);
  }

  /** What such a call leaves of the two lifetimes, if it also extends the lists. */
  lemma TouchingCall(s: State, op: Op, id: nat)
    requires (op.UpdateWebhook? || op.UpdateLabel?) && op.id == id && Exec(s, op).Done? && id in s.alerts
    ensures var t := Apply(s, op);
            && t.flags == s.flags && id in t.alerts
            && t.alerts[id].liveUntil == Max(s.alerts[id].liveUntil, s.ledger + DEFAULT_TTL)
  {
    hide Exec, DoAll, Patched, PutRecord, ValidLabel, DoTouch;
    match op
    case UpdateWebhook(caller, _, hash) =>
      EntryPoints.UpdateWebhook(s, caller, id, hash);
      EntryPoints.TouchingEdit(s, id, Hash(hash), WebhookChanged(id, caller));
      TouchingStep(s, id, Hash(hash));
    case UpdateLabel(caller, _, name) =>
      EntryPoints.UpdateLabel(s, caller, id, name);
      EntryPoints.TouchingEdit(s, id, Label(name), Updated(id, caller, s.alerts[id].value.active));
      TouchingStep(s, id, Label(name));
  }

  lemma EditingCall(s: State, op: Op, id: nat)
    requires (op.ProposeWebhook? || op.ConfirmWebhook? || op.UpdateTags?) && op.id == id
    requires Exec(s, op).Done? && id in s.alerts
    ensures var t := Apply(s, op);
            && t.flags == s.flags && id in t.alerts
            && t.alerts[id].liveUntil == Max(s.alerts[id].liveUntil, s.ledger + DEFAULT_TTL)
  {
    hide Exec, Patched, ValidTags;
    match op
    case ProposeWebhook(caller, _, hash) => EntryPoints.ProposeWebhook(s, caller, id, hash);
    case ConfirmWebhook(caller, _) => EntryPoints.ConfirmWebhook(s, caller, id);
    case UpdateTags(caller, _, tags) => EntryPoints.UpdateTags(s, caller, id, tags);
  }

  lemma AdmitLeavesPairs(s: State, owner: Address)
    ensures DoAdmit(s, owner, 1).state == s.(owners := DoAdmit(s, owner, 1).state.owners)
  {
    hide Prune;
  }

  /** What any such call leaves of the two lifetimes. */
  lemma AloneStep(s: State, op: Op, id: nat)
    requires ExtendsAlone(op, id) && Exec(s, op).Done? && id in s.alerts
    ensures var t := Apply(s, op);
            && t.flags == s.flags && id in t.alerts
            && t.alerts[id].liveUntil == Max(s.alerts[id].liveUntil, s.ledger + DEFAULT_TTL)
  {
    hide Exec, Store, Listing, Without, DoAdmit;
    match op
    case GetAlert(_) => EntryPoints.GetAlert(s, id);
    case UpdateWebhook(_, _, _) => TouchingCall(s, op, id);
    case UpdateLabel(_, _, _) => TouchingCall(s, op, id);
    case UpdateTarget(caller, _, target) => EntryPoints.UpdateTarget(s, caller, id, target);
    case TransferOwnership(owner, _, newOwner) =>
      EntryPoints.TransferOwnership(s, owner, id, newOwner);
      AdmitLeavesPairs(s, newOwner);
    case ProposeWebhook(_, _, _) => EditingCall(s, op, id);
    case ConfirmWebhook(_, _) => EditingCall(s, op, id);
    case UpdateTags(_, _, _) => EditingCall(s, op, id);
  }

  /** A call parts the lifetimes of flag and record exactly when it extends the record alone and has
      something to extend. */
  lemma PartedExactly(s: State, op: Op, id: nat)
    requires Inv(s) && Paired(s, id)
    ensures Paired(Apply(s, op), id) <==> !Parts(s, op, id)
  {
    hide Inv, DoAll, Plan, ExtendsAlone;
    if Exec(s, op).Done? {
      if ExtendsAlone(op, id) && id in s.alerts {
        AloneStep(s, op, id);
      } else if ExtendsAlone(op, id) {
        NothingToExtend(s, op, id);
      } else {
        hide Paired;
        PlanAlone(s, op, id);
        PlanKeepsPair(s, Plan(s, op).value, id);
      }
    }
  }

  lemma NothingToExtend(s: State, op: Op, id: nat)
    requires ExtendsAlone(op, id) && Exec(s, op).Done? && id !in s.alerts
    ensures Apply(s, op) == s
  {
    hide DoAll, ValidTags, ValidLabel;
    if op.GetAlert? {
      EntryPoints.GetAlert(s, id);
    }
  }

  // ---------------------------------------------------------------- whole histories

  ghost predicate PairedThrough(s: State, ops: seq<Op>, k: nat, id: nat)
    requires k <= |ops|
  {
    forall i :: 0 <= i <= k ==> Paired(Run(s, ops[..i]), id)
  }

  ghost predicate NeverParted(s: State, ops: seq<Op>, k: nat, id: nat)
    requires k <= |ops|
  {
    forall i :: 0 <= i < k ==> !Parts(Run(s, ops[..i]), ops[i], id)
  }

  lemma OneCallMore(s: State, ops: seq<Op>, k: nat, id: nat)
    requires k < |ops|
    ensures PairedThrough(s, ops, k + 1, id) <==> PairedThrough(s, ops, k, id) && Paired(Run(s, ops[..k + 1]), id)
    ensures PairedThrough(s, ops, k, id) ==> Paired(Run(s, ops[..k]), id)
    ensures NeverParted(s, ops, k + 1, id) <==> NeverParted(s, ops, k, id) && !Parts(Run(s, ops[..k]), ops[k], id)
  {
    hide Run, Paired, Parts;
  }

  lemma NothingParted(ledger: nat, timestamp: nat, ops: seq<Op>, id: nat)
    ensures PairedThrough(Init(ledger, timestamp), ops, 0, id)
  {
    assert ops[..0] == [];
  }

  /** Over any history, flag and record stay paired if and only if no call extends the record alone
      while it has less than a default lifetime left. */
  lemma {:induction false} PairedExactly(ledger: nat, timestamp: nat, ops: seq<Op>, k: nat, id: nat)
    requires k <= |ops|
    ensures PairedThrough(Init(ledger, timestamp), ops, k, id) <==> NeverParted(Init(ledger, timestamp), ops, k, id)
    decreases k
  {
    var s0 := Init(ledger, timestamp);
    NothingParted(ledger, timestamp, ops, id);
    hide Inv, Parts, Apply, Run, Paired;
    if k != 0 {
      hide PairedThrough, NeverParted;
      PairedExactly(ledger, timestamp, ops, k - 1, id);
      OneCallMore(s0, ops, k - 1, id);
      InitInv(ledger, timestamp);
      RunKeepsInv(s0, ops[..k - 1]);
      RunNext(s0, ops, k - 1);
      if PairedThrough(s0, ops, k - 1, id) { PartedExactly(Run(s0, ops[..k - 1]), ops[k - 1], id); }
    }
  }

  /** So in such a history `get_alert_active` answers None exactly for alerts that are gone. */
  lemma NoneMeansGone(ledger: nat, timestamp: nat, ops: seq<Op>, id: nat)
    requires NeverParted(Init(ledger, timestamp), ops, |ops|, id)
    ensures var s := Run(Init(ledger, timestamp), ops); id !in s.flags <==> id !in s.alerts
  {
    var s0 := Init(ledger, timestamp);
    InitInv(ledger, timestamp);
    hide Inv, Parts, Run;
    PairedExactly(ledger, timestamp, ops, |ops|, id);
    assert ops[..|ops|] == ops;
    RunKeepsInv(s0, ops);
    FlagsBelow(Run(s0, ops));
    assert Paired(Run(s0, ops[..|ops|]), id);
  }

  // ---------------------------------------------------------------- what parting leads to

  /** Every stored record is readable now; the host has dropped the others. */
  ghost predicate Readable(s: State) {
    forall id :: id in s.alerts ==> s.alerts[id].liveUntil >= s.ledger
  }

  lemma ListingKeepsReadable(s: State, e: Effect)
    requires Readable(s) && (e.Enroll? || e.Retarget? || e.Reassign? || e.Erase?)
    ensures Readable(Do(s, e).state)
  {
    hide Store, Listing, Without, DoAdmit, DoEdit, DoTouch, DoRenew, DoWait;
  }

  lemma RenewingKeepsReadable(s: State, e: Effect)
    requires Readable(s) && (e.Renew? || e.TouchIndexes?)
    ensures Readable(Do(s, e).state)
  {
    hide Touch, DoAdmit, DoEnroll, DoEdit, DoErase, DoRetarget, DoReassign, DoWait;
  }

  lemma EffectKeepsReadable(s: State, e: Effect)
    requires Readable(s)
    ensures Readable(Do(s, e).state)
  {
    hide Prune, Patched, DoEnroll, DoTouch, DoRenew, DoErase, DoRetarget, DoReassign;
    if e.Enroll? || e.Retarget? || e.Reassign? || e.Erase? {
      ListingKeepsReadable(s, e);
    } else if e.Renew? || e.TouchIndexes? {
      RenewingKeepsReadable(s, e);
    }
  }

  lemma {:induction false} PlanKeepsReadable(s: State, es: seq<Effect>)
    requires Readable(s)
    ensures Readable(DoAll(s, es).state)
    decreases |es|
  {
    hide Readable, Do;
    if es != [] {
      PlanKeepsReadable(s, es[..|es| - 1]);
      EffectKeepsReadable(DoAll(s, es[..|es| - 1]).state, es[|es| - 1]);
    }
  }

  lemma {:induction false} RunKeepsReadable(ledger: nat, timestamp: nat, ops: seq<Op>)
    ensures Readable(Run(Init(ledger, timestamp), ops))
    decreases |ops|
  {
    hide Plan, DoAll;
    if ops != [] {
      hide Readable;
      var s, op := Run(Init(ledger, timestamp), ops[..|ops| - 1]), ops[|ops| - 1];
      RunKeepsReadable(ledger, timestamp, ops[..|ops| - 1]);
      if Plan(s, op).Ok? { PlanKeepsReadable(s, Plan(s, op).value); }
    }
  }

  /** For an alert whose flag is parted from its record, and for no other live alert, the passing of
      time alone brings a moment at which the flag is gone and the alert is not. */
  lemma PartingShows(ledger: nat, timestamp: nat, ops: seq<Op>, id: nat)
    requires id in Run(Init(ledger, timestamp), ops).alerts
    ensures var s := Run(Init(ledger, timestamp), ops);
            !Paired(s, id) <==> exists n: nat :: Misleads(DoWait(s, n, 0), id)
  {
    var s := Run(Init(ledger, timestamp), ops);
    InitInv(ledger, timestamp);
    hide Inv, Run;
    RunKeepsInv(Init(ledger, timestamp), ops);
    RunKeepsReadable(ledger, timestamp, ops);
    FlagIsShorter(s, id);
    if !Paired(s, id) {
      assert Misleads(DoWait(s, s.alerts[id].liveUntil - s.ledger, 0), id);
    }
  }

  /** `get_alert_active` answers None for a live alert. */
  predicate Misleads(s: State, id: nat) {
    id in s.alerts && id !in s.flags
  }

  lemma FlagIsShorter(s: State, id: nat)
    requires Inv(s) && id in s.alerts
    ensures id in s.flags ==> s.flags[id].liveUntil <= s.alerts[id].liveUntil
  {}
}
