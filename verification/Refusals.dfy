/** When each call fails, and with which error: the first that applies, in the order of the source. */
module Refusals {
  import opened Host
  import opened Seqs
  import opened AlertModel
  import opened AlertInvariant
  import opened Rows
  import Batch
  import EntryPoints
  import Lease
  import Loops

  /** The error of an admin call, of an owner's call, and of a call that extends both lists of a record. */
  function AdminFault(s: State, who: Address): Option<Error> {
    if s.admins.None? then Some(NotInitialized)
    else if who !in s.admins.value then Some(Unauthorized)
    else None
  }

  function OwnerFault(s: State, id: nat, who: Address): Option<Error> {
    if id !in s.alerts then Some(AlertNotFound)
    else if s.alerts[id].value.owner != who then Some(Unauthorized)
    else None
  }

  function ListFault(s: State, id: nat): Option<Error>
    requires id in s.alerts
  {
    if s.alerts[id].value.owner !in s.owners || s.alerts[id].value.target !in s.targets then Some(MissingEntry) else None
  }

  /** The error of admitting `n` more alerts of `owner`: live listed alerts and newcomers, in u32. */
  function CapFault(s: State, owner: Address, n: nat): Option<Error> {
    if s.limit > 0 && Min(|Only(Listing(s.owners, owner), s.alerts.Keys)| + n, U32_MAX) > s.limit
    then Some(OwnerAlertLimitExceeded) else None
  }

  function InputsFault(inputs: seq<AlertInput>): Option<Error>
    ensures InputsFault(inputs).None? <==> forall i :: 0 <= i < |inputs| ==> ValidInput(inputs[i]).Pass?
  {
    if inputs == [] then None
    else if ValidInput(inputs[0]).Fail? then Some(ValidInput(inputs[0]).error)
    else
      assert forall i :: 0 < i < |inputs| ==> inputs[i] == inputs[1..][i - 1];
      assert forall i :: 0 <= i < |inputs| - 1 ==> inputs[1..][i] == inputs[i + 1];
      InputsFault(inputs[1..])
  }

  function GuardFault(g: Guard): Option<Error> {
    if g.Fail? then Some(g.error) else None
  }

  /** The first of two faults. */
  function First(a: Option<Error>, b: Option<Error>): Option<Error> {
    if a.Some? then a else b
  }

  function Check(bad: bool, error: Error): Option<Error> {
    if bad then Some(error) else None
  }

  /** The error a call fails with, if it does. */
  ghost function Fault(s: State, op: Op): Option<Error> {
    var paused := Check(s.paused, ContractPaused);
    match op
    case Register(owner, input, tags) =>
      First(paused, First(GuardFault(ValidInput(input)), First(GuardFault(ValidTags(tags)),
        First(CapFault(s, owner, 1), Check(s.nextId == U64_MAX, CounterOverflow)))))
    case BatchRegister(caller, inputs) =>
      First(paused, First(Check(|inputs| > MAX_BATCH_SIZE, BatchTooLarge), First(InputsFault(inputs),
        First(CapFault(s, caller, |inputs|), Check(s.nextId + |inputs| > U64_MAX, CounterOverflow)))))
    case SetActiveByAdmin(admin, id, _) => First(AdminFault(s, admin), Check(id !in s.alerts, AlertNotFound))
    case UpdateAlert(caller, id, rules, _) =>
      First(paused, First(OwnerFault(s, id, caller), First(GuardFault(ValidRules(rules)),
        if id in s.alerts then ListFault(s, id) else None)))
    case UpdateWebhook(caller, id, hash) =>
      First(paused, First(OwnerFault(s, id, caller), First(Check(|hash| != 64, InvalidWebhookHash),
        if id in s.alerts then ListFault(s, id) else None)))
    case ProposeWebhook(caller, id, _) => OwnerFault(s, id, caller)
    case ConfirmWebhook(caller, id) =>
      First(OwnerFault(s, id, caller), Check(id in s.alerts && s.alerts[id].value.pending == None, NoPendingWebhook))
    case UpdateLabel(caller, id, name) =>
      First(paused, First(Check(|name| > 128, LabelTooLong), First(OwnerFault(s, id, caller),
        if id in s.alerts then ListFault(s, id) else None)))
    case RemoveAlert(caller, id) => First(paused, OwnerFault(s, id, caller))
    case RemoveAlertByAdmin(admin, id) =>
      First(paused, First(AdminFault(s, admin), Check(id !in s.alerts, AlertNotFound)))
    case BumpAlert(id, _) =>
      First(paused, First(Check(id !in s.alerts, AlertNotFound), Check(!Lease.Renewable(s, id), MissingEntry)))
    case BulkRenew(ids) =>
      First(Check(|ids| > MAX_BATCH_SIZE, TooManyRules),
        Check(exists id :: id in ids && !Lease.Renewable(s, id), MissingEntry))
    case DeactivateAll(_) => paused
    case UpdateTarget(caller, id, _) => First(paused, OwnerFault(s, id, caller))
    case UpdateTags(caller, id, tags) =>
      First(paused, First(OwnerFault(s, id, caller), GuardFault(ValidTags(tags))))
    case TransferOwnership(owner, id, newOwner) =>
      First(paused, First(OwnerFault(s, id, owner), if newOwner == owner then None else CapFault(s, newOwner, 1)))
    case SetLimit(admin, _) => AdminFault(s, admin)
    case SetPaused(admin, _) => AdminFault(s, admin)
    case _ => None
  }

  ghost predicate Refuses(o: Outcome, fault: Option<Error>) {
    (o.Failed? <==> fault.Some?) && (o.Failed? ==> fault == Some(o.error))
  }

  lemma TouchFault(s: State, id: nat, d: AlertConfig, flagged: bool)
    requires id in s.alerts && d.owner == s.alerts[id].value.owner && d.target == s.alerts[id].value.target
    ensures Refuses(DoTouch(PutRecord(s, id, d, flagged), d, DEFAULT_TTL), ListFault(s, id))
  {
    hide Put;
  }

  lemma EditRefused(s: State, op: Op)
    requires op.SetActiveByAdmin? || op.ProposeWebhook? || op.ConfirmWebhook? || op.UpdateTags?
    ensures Refuses(Exec(s, op), Fault(s, op))
  {
    hide Exec, Put, ValidTags;
    match op
    case SetActiveByAdmin(admin, id, active) => EntryPoints.SetActiveByAdmin(s, admin, id, active);
    case ProposeWebhook(caller, id, hash) => EntryPoints.ProposeWebhook(s, caller, id, hash);
    case ConfirmWebhook(caller, id) => EntryPoints.ConfirmWebhook(s, caller, id);
    case UpdateTags(caller, id, tags) => EntryPoints.UpdateTags(s, caller, id, tags);
  }

  lemma ListEditRefused(s: State, op: Op)
    requires ExtendsLists(op)
    ensures Refuses(Exec(s, op), Fault(s, op))
  {
    hide Exec, PutRecord, DoAll, DoTouch, ValidRules, ListFault;
    match op
    case UpdateAlert(caller, id, rules, active) =>
      EntryPoints.UpdateAlert(s, caller, id, rules, active);
      if id in s.alerts {
        EntryPoints.TouchingEdit(s, id, Rules(rules, active), Updated(id, caller, active));
        TouchFault(s, id, Patched(s.alerts[id].value, Rules(rules, active), s.timestamp), true);
      }
    case UpdateWebhook(caller, id, hash) =>
      EntryPoints.UpdateWebhook(s, caller, id, hash);
      if id in s.alerts {
        EntryPoints.TouchingEdit(s, id, Hash(hash), WebhookChanged(id, caller));
        TouchFault(s, id, Patched(s.alerts[id].value, Hash(hash), s.timestamp), false);
      }
    case UpdateLabel(caller, id, name) =>
      EntryPoints.UpdateLabel(s, caller, id, name);
      if id in s.alerts {
        EntryPoints.TouchingEdit(s, id, Label(name), Updated(id, caller, s.alerts[id].value.active));
        TouchFault(s, id, Patched(s.alerts[id].value, Label(name), s.timestamp), false);
      }
  }

  lemma AdmitFault(s: State, owner: Address, n: nat)
    ensures Refuses(DoAdmit(s, owner, n), CapFault(s, owner, n))
  {
    hide Only;
  }

  lemma AdmitKeepsCounter(s: State, owner: Address, n: nat)
    ensures DoAdmit(s, owner, n).state == s.(owners := DoAdmit(s, owner, n).state.owners)
  {
    hide Prune;
  }

  lemma RegisterRefused(s: State, op: Op)
    requires Inv(s) && op.Register?
    ensures Refuses(Exec(s, op), Fault(s, op))
  {
    CounterBound(s);
    hide Inv, Exec, ValidInput, ValidTags, DoAdmit, DoEnroll, CapFault;
    EntryPoints.Register(s, op.owner, op.input, op.tags);
    AdmitFault(s, op.owner, 1);
    AdmitKeepsCounter(s, op.owner, 1);
    AdmitKeeps(s, op.owner, 1);
    EnrollKeeps(DoAdmit(s, op.owner, 1).state, op.owner, op.input, op.tags);
  }

  lemma CounterBound(s: State)
    requires Inv(s)
    ensures s.nextId <= U64_MAX
  {}

  lemma {:induction false} FirstFault(inputs: seq<AlertInput>, n: nat)
    requires n <= |inputs|
    ensures GuardFault(InputFault(inputs, n)) == InputsFault(inputs[..n])
  {
    hide ValidInput;
    if n != 0 {
      FirstFault(inputs, n - 1);
      LastFault(inputs[..n]);
      assert inputs[..n][..n - 1] == inputs[..n - 1];
    }
  }

  lemma {:induction false} LastFault(inputs: seq<AlertInput>)
    requires inputs != []
    ensures InputsFault(inputs) == First(InputsFault(inputs[..|inputs| - 1]), GuardFault(ValidInput(inputs[|inputs| - 1])))
  {
    hide ValidInput;
    if |inputs| > 1 {
      LastFault(inputs[1..]);
      assert inputs[..|inputs| - 1][1..] == inputs[1..][..|inputs| - 2];
    }
  }

  lemma {:induction false} EnrolmentsOverflow(s: State, caller: Address, inputs: seq<AlertInput>, k: nat)
    requires Inv(s) && k <= |inputs| && DoAll(s, Enrolments(caller, inputs)[..k]).Failed?
    ensures DoAll(s, Enrolments(caller, inputs)[..k]).error == CounterOverflow
    decreases k
  {
    hide Inv, DoEnroll;
    if k != 0 {
      var es := Enrolments(caller, inputs);
      assert es[..k] == es[..k - 1] + [es[k - 1]];
      DoAllNext(s, es[..k - 1], es[k - 1]);
      if DoAll(s, es[..k - 1]).Failed? {
        EnrolmentsOverflow(s, caller, inputs, k - 1);
      } else {
        Batch.EnrolmentsSucceed(s, caller, inputs, k - 1);
        EnrollKeeps(DoAll(s, es[..k - 1]).state, caller, inputs[k - 1], None);
      }
    }
  }

  lemma BatchRefused(s: State, op: Op)
    requires Inv(s) && op.BatchRegister?
    ensures Refuses(Exec(s, op), Fault(s, op))
  {
    var inputs, es := op.inputs, Enrolments(op.caller, op.inputs);
    CounterBound(s);
    hide Inv, Exec, InputFault, InputsFault, Do, DoAll, DoAdmit, CapFault;
    EntryPoints.BatchRegister(s, op.caller, inputs);
    FirstFault(inputs, |inputs|);
    assert inputs[..|inputs|] == inputs && es[..|inputs|] == es;
    Batch.DoAllCons(s, Admit(op.caller, |inputs|), es);
    AdmitIsDo(s, op.caller, |inputs|);
    AdmitFault(s, op.caller, |inputs|);
    AdmitKeepsCounter(s, op.caller, |inputs|);
    AdmitKeeps(s, op.caller, |inputs|);
    var t := DoAdmit(s, op.caller, |inputs|).state;
    Batch.EnrolmentsSucceed(t, op.caller, inputs, |inputs|);
    if DoAll(t, es).Failed? { EnrolmentsOverflow(t, op.caller, inputs, |inputs|); }
  }

  lemma RemovalRefused(s: State, op: Op)
    requires Removes(op) || op.UpdateTarget? || op.TransferOwnership?
    requires Inv(s)
    ensures Refuses(Exec(s, op), Fault(s, op))
  {
    hide Inv, Exec, DoRetarget, DoReassign, DoAdmit, CapFault, Store, Without, Listing;
    match op
    case RemoveAlert(caller, id) => EntryPoints.RemoveAlert(s, caller, id);
    case RemoveAlertByAdmin(admin, id) => EntryPoints.RemoveAlertByAdmin(s, admin, id);
    case UpdateTarget(caller, id, target) =>
      EntryPoints.UpdateTarget(s, caller, id, target);
      RetargetKeeps(s, id, target);
    case TransferOwnership(owner, id, newOwner) =>
      EntryPoints.TransferOwnership(s, owner, id, newOwner);
      AdmitFault(s, newOwner, 1);
      AdmitKeepsCounter(s, newOwner, 1);
      AdmitKeeps(s, newOwner, 1);
      ReassignKeeps(DoAdmit(s, newOwner, 1).state, id, newOwner);
  }

  lemma {:induction false} RenewalsMiss(s: State, ids: seq<nat>, k: nat)
    requires k <= |ids| && DoAll(s, Renewals(ids)[..k]).Failed?
    ensures DoAll(s, Renewals(ids)[..k]).error == MissingEntry
  {
    hide DoRenew;
    if k != 0 {
      var es := Renewals(ids);
      assert es[..k] == es[..k - 1] + [es[k - 1]];
      DoAllNext(s, es[..k - 1], es[k - 1]);
      if DoAll(s, es[..k - 1]).Failed? {
        RenewalsMiss(s, ids, k - 1);
      } else {
        RenewMiss(DoAll(s, es[..k - 1]).state, ids[k - 1], DEFAULT_TTL);
      }
    }
  }

  lemma RenewMiss(s: State, id: nat, ttl: nat)
    ensures DoRenew(s, id, ttl).Failed? ==> DoRenew(s, id, ttl).error == MissingEntry
  {
    hide Touch;
  }

  lemma RenewalRefused(s: State, op: Op)
    requires op.BumpAlert? || op.BulkRenew?
    ensures Refuses(Exec(s, op), Fault(s, op))
  {
    hide Exec, DoAll, DoRenew, Lease.Renewable;
    if op.BumpAlert? {
      EntryPoints.BumpAlert(s, op.id, op.ttl);
      Lease.RenewExactly(s, op.id, Min(op.ttl, MAX_TTL));
      RenewMiss(s, op.id, Min(op.ttl, MAX_TTL));
    } else {
      var es := Renewals(op.ids);
      EntryPoints.BulkRenew(s, op.ids);
      Lease.BulkRenewExactly(s, op.ids);
      assert es[..|op.ids|] == es;
      if DoAll(s, es).Failed? { RenewalsMiss(s, op.ids, |op.ids|); }
    }
  }

  lemma OtherRefused(s: State, op: Op)
    requires op.GetAlert? || op.SetLimit? || op.SetPaused? || op.SetAdmins? || op.Advance? || op.DeactivateAll?
    ensures Refuses(Exec(s, op), Fault(s, op))
  {
    hide DoAll, Extend, Surviving;
    match op
    case GetAlert(id) => EntryPoints.GetAlert(s, id);
    case SetLimit(admin, limit) => EntryPoints.SetLimit(s, admin, limit);
    case SetPaused(admin, paused) => EntryPoints.SetPaused(s, admin, paused);
    case SetAdmins(admins) => DoAllShort(s, PutAdmins(admins), PutPaused(false), PutPaused(false));
    case Advance(_, _) => DoAllShort(s, Wait(op.ledgers, op.seconds), PutPaused(false), PutPaused(false));
    case DeactivateAll(caller) => Loops.DeactivateAllSwitchesOff(s, caller); EntryPoints.DeactivateAll(s, caller);
  }

  /** Every call, in every reachable state: it fails exactly when it has a fault, and with that error. */
  lemma RefusedExactly(s: State, op: Op)
    requires Inv(s)
    ensures Refuses(Exec(s, op), Fault(s, op))
  {
    hide Inv, Exec, Fault;
    if op.Register? {
      RegisterRefused(s, op);
    } else if op.BatchRegister? {
      BatchRefused(s, op);
    } else if ExtendsLists(op) {
      ListEditRefused(s, op);
    } else if Edits(op) {
      EditRefused(s, op);
    } else if Removes(op) || op.UpdateTarget? || op.TransferOwnership? {
      RemovalRefused(s, op);
    } else if op.BumpAlert? || op.BulkRenew? {
      RenewalRefused(s, op);
    } else {
      OtherRefused(s, op);
    }
  }
}
