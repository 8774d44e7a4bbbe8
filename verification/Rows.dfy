/** Each successful call on a single alert as one change of the stored entries; the laws over all calls
    are read off these. */
module Rows {
  import opened Host
  import opened Seqs
  import opened AlertModel
  import opened AlertInvariant
  import opened Effects
  import opened Enrolment
  import EntryPoints
  import Batch
  import Loops

  /** The calls that rewrite fields of one record under its old owner and target. */
  predicate Edits(op: Op) {
    || op.SetActiveByAdmin? || op.UpdateAlert? || op.UpdateWebhook? || op.ProposeWebhook? || op.ConfirmWebhook?
    || op.UpdateLabel? || op.UpdateTags?
  }

  /** The record such a call leaves. */
  function Value(c: AlertConfig, op: Op, now: nat): AlertConfig
    requires Edits(op)
  {
    match op
    case SetActiveByAdmin(_, _, active) => c.(active := active, updatedAt := now)
    case UpdateAlert(_, _, rules, active) => c.(rules := rules, active := active, updatedAt := now)
    case UpdateWebhook(_, _, hash) => c.(webhookHash := hash, updatedAt := now)
    case ProposeWebhook(_, _, hash) => c.(pending := Some(hash), updatedAt := now)
    case ConfirmWebhook(_, _) =>
      if c.pending.Some? then c.(webhookHash := c.pending.value, pending := None, updatedAt := now) else c
    case UpdateLabel(_, _, name) => c.(name := name, updatedAt := now)
    case UpdateTags(_, _, tags) => c.(tags := tags, updatedAt := now)
  }

  function NoticeOf(c: AlertConfig, op: Op): Notice
    requires Edits(op)
  {
    match op
    case SetActiveByAdmin(admin, id, active) => Updated(id, admin, active)
    case UpdateAlert(caller, id, _, active) => Updated(id, caller, active)
    case UpdateWebhook(caller, id, _) => WebhookChanged(id, caller)
    case ProposeWebhook(caller, id, _) => WebhookProposed(id, caller)
    case ConfirmWebhook(caller, id) => WebhookChanged(id, caller)
    case UpdateLabel(caller, id, _) => Updated(id, caller, c.active)
    case UpdateTags(caller, id, _) => Tagged(id, caller)
  }

  /** Whether the call also writes the flag, and whether it also extends both lists. */
  predicate WritesFlag(op: Op) { op.SetActiveByAdmin? || op.UpdateAlert? }

  predicate ExtendsLists(op: Op) { op.UpdateAlert? || op.UpdateWebhook? || op.UpdateLabel? }

  ghost predicate Edited(s: State, t: State, op: Op)
    requires Edits(op)
  {
    && op.id in s.alerts
    && var c := s.alerts[op.id].value;
    && var d := Value(c, op, s.timestamp);
    && (ExtendsLists(op) ==> c.owner in s.owners && c.target in s.targets)
    && (op.ConfirmWebhook? ==> c.pending.Some?)
    && t == s.(alerts := Put(s.alerts, op.id, d, s.ledger, DEFAULT_TTL),
               flags := if WritesFlag(op) then Put(s.flags, op.id, d.active, s.ledger, DEFAULT_TTL) else s.flags,
               owners := if ExtendsLists(op) then Extend(s.owners, c.owner, s.ledger, DEFAULT_TTL) else s.owners,
               targets := if ExtendsLists(op) then Extend(s.targets, c.target, s.ledger, DEFAULT_TTL) else s.targets,
               events := s.events + [Note(NoticeOf(c, op))])
  }

  lemma PlainEditRow(s: State, op: Op)
    requires (op.SetActiveByAdmin? || op.ProposeWebhook? || op.ConfirmWebhook? || op.UpdateTags?) && Exec(s, op).Done?
    ensures Edited(s, Apply(s, op), op)
  {
    hide Exec, Put, ValidTags;
    match op
    case SetActiveByAdmin(admin, id, active) => EntryPoints.SetActiveByAdmin(s, admin, id, active);
    case ProposeWebhook(caller, id, hash) => EntryPoints.ProposeWebhook(s, caller, id, hash);
    case ConfirmWebhook(caller, id) => EntryPoints.ConfirmWebhook(s, caller, id);
    case UpdateTags(caller, id, tags) => EntryPoints.UpdateTags(s, caller, id, tags);
  }

  lemma TouchWrites(s: State, c: AlertConfig, ttl: nat)
    requires DoTouch(s, c, ttl).Done?
    ensures c.owner in s.owners && c.target in s.targets
    ensures DoTouch(s, c, ttl).state ==
            s.(owners := Extend(s.owners, c.owner, s.ledger, ttl), targets := Extend(s.targets, c.target, s.ledger, ttl))
  {
    hide Extend;
  }

  lemma ListEditRow(s: State, op: Op)
    requires ExtendsLists(op) && Exec(s, op).Done?
    ensures Edited(s, Apply(s, op), op)
  {
    hide Exec, Put, Extend, DoTouch, ValidLabel, ValidRules;
    match op
    case UpdateAlert(caller, id, rules, active) =>
      EntryPoints.UpdateAlert(s, caller, id, rules, active);
      EntryPoints.TouchingEdit(s, id, Rules(rules, active), Updated(id, caller, active));
      var d := Value(s.alerts[id].value, op, s.timestamp);
      TouchWrites(PutRecord(s, id, d, true), d, DEFAULT_TTL);
    case UpdateWebhook(caller, id, hash) =>
      EntryPoints.UpdateWebhook(s, caller, id, hash);
      EntryPoints.TouchingEdit(s, id, Hash(hash), WebhookChanged(id, caller));
      var d := Value(s.alerts[id].value, op, s.timestamp);
      TouchWrites(PutRecord(s, id, d, false), d, DEFAULT_TTL);
    case UpdateLabel(caller, id, name) =>
      EntryPoints.UpdateLabel(s, caller, id, name);
      EntryPoints.TouchingEdit(s, id, Label(name), Updated(id, caller, s.alerts[id].value.active));
      var d := Value(s.alerts[id].value, op, s.timestamp);
      TouchWrites(PutRecord(s, id, d, false), d, DEFAULT_TTL);
  }

  lemma EditRow(s: State, op: Op)
    requires Edits(op) && Exec(s, op).Done?
    ensures Edited(s, Apply(s, op), op)
  {
    hide Exec, Apply, Edited;
    if ExtendsLists(op) { ListEditRow(s, op); } else { PlainEditRow(s, op); }
  }

  /** An index without an id under `a`. */
  function Dropped(m: Index, a: Address, id: nat, now: nat): Index {
    Store(m, a, Without(Listing(m, a), id), now)
  }

  function Added(m: Index, a: Address, id: nat, now: nat): Index {
    Store(m, a, Listing(m, a) + [id], now)
  }

  predicate Removes(op: Op) { op.RemoveAlert? || op.RemoveAlertByAdmin? }

  lemma RemoveRow(s: State, op: Op)
    requires Removes(op) && Exec(s, op).Done?
    ensures op.id in s.alerts
    ensures var c := s.alerts[op.id].value;
            Apply(s, op) ==
            s.(alerts := s.alerts - {op.id}, flags := s.flags - {op.id},
               owners := Dropped(s.owners, c.owner, op.id, s.ledger),
               targets := Dropped(s.targets, c.target, op.id, s.ledger),
               events := s.events + [if op.RemoveAlert? then Removed(op.id, op.caller)
                                     else RemovedByAdmin(op.id, op.admin, c.owner)])
  {
    hide Exec, Store, Without, Listing;
    match op
    case RemoveAlert(caller, id) => EntryPoints.RemoveAlert(s, caller, id);
    case RemoveAlertByAdmin(admin, id) => EntryPoints.RemoveAlertByAdmin(s, admin, id);
  }

  lemma RetargetRow(s: State, op: Op)
    requires op.UpdateTarget? && Exec(s, op).Done?
    ensures op.id in s.alerts
    ensures var c := s.alerts[op.id].value;
            Apply(s, op) ==
            s.(alerts := Put(s.alerts, op.id, c.(target := op.target, updatedAt := s.timestamp), s.ledger, DEFAULT_TTL),
               targets := Added(Dropped(s.targets, c.target, op.id, s.ledger), op.target, op.id, s.ledger))
  {
    hide Exec, Store, Without, Listing, Put;
    EntryPoints.UpdateTarget(s, op.caller, op.id, op.target);
  }

  /** A transfer to another owner, seen through the state in which the new owner's list is pruned. */
  lemma TransferRow(s: State, op: Op) returns (p: State)
    requires op.TransferOwnership? && op.newOwner != op.owner && Exec(s, op).Done?
    ensures op.id in s.alerts && s.alerts[op.id].value.owner == op.owner && PrunedOf(s, p, op.newOwner)
    ensures var c := s.alerts[op.id].value;
            Apply(s, op) ==
            p.(alerts := Put(s.alerts, op.id, c.(owner := op.newOwner, updatedAt := s.timestamp), s.ledger, DEFAULT_TTL),
               owners := Added(Dropped(p.owners, op.owner, op.id, s.ledger), op.newOwner, op.id, s.ledger),
               events := s.events + [Transferred(op.id, op.owner, op.newOwner)])
  {
    hide Exec, Store, Without, Listing, Put, DoAdmit, PrunedOf, Prune;
    p := Batch.Pruned(s, op.newOwner);
    PruneWrites(s, op.newOwner);
    EntryPoints.TransferOwnership(s, op.owner, op.id, op.newOwner);
    AdmitIsDo(s, op.newOwner, 1);
    Batch.AdmitIsPrune(s, op.newOwner, 1);
  }

  lemma SelfTransferRow(s: State, op: Op)
    requires op.TransferOwnership? && op.newOwner == op.owner && Exec(s, op).Done?
    ensures Apply(s, op) == s && op.id in s.alerts && s.alerts[op.id].value.owner == op.owner
  {
    hide Exec, DoAdmit, DoReassign;
    EntryPoints.TransferOwnership(s, op.owner, op.id, op.newOwner);
  }

  /** The calls that change no entry but lifetimes, the settings and the clock. */
  lemma OtherRow(s: State, op: Op)
    requires Exec(s, op).Done?
    requires op.GetAlert? || op.SetLimit? || op.SetPaused? || op.SetAdmins? || op.Advance?
    ensures Apply(s, op) ==
            match op
            case GetAlert(id) =>
              if id in s.alerts then s.(alerts := Extend(s.alerts, id, s.ledger, DEFAULT_TTL)) else s
            case SetLimit(admin, limit) => s.(limit := limit, events := s.events + [Note(LimitSet(admin, limit))])
            case SetPaused(admin, paused) => s.(paused := paused, events := s.events + [Note(PauseSet(admin, paused))])
            case SetAdmins(admins) => s.(admins := admins)
            case _ =>
              s.(alerts := Surviving(s.alerts, s.ledger + op.ledgers), flags := Surviving(s.flags, s.ledger + op.ledgers),
                 owners := Surviving(s.owners, s.ledger + op.ledgers), targets := Surviving(s.targets, s.ledger + op.ledgers),
                 ledger := s.ledger + op.ledgers, timestamp := s.timestamp + op.seconds)
  {
    hide DoAll, Extend, Surviving;
    match op
    case GetAlert(id) => EntryPoints.GetAlert(s, id);
    case SetLimit(admin, limit) => EntryPoints.SetLimit(s, admin, limit);
    case SetPaused(admin, paused) => EntryPoints.SetPaused(s, admin, paused);
    case SetAdmins(admins) => DoAllShort(s, PutAdmins(admins), PutPaused(false), PutPaused(false));
    case Advance(_, _) => AdvanceIsWait(s, op);
  }

  lemma BumpRow(s: State, op: Op)
    requires op.BumpAlert? && Exec(s, op).Done?
    ensures op.id in s.alerts && Loops.Prolonged(s, Apply(s, op), [op.id], Min(op.ttl, MAX_TTL))
  {
    hide Exec, DoRenew, Loops.Prolonged;
    EntryPoints.BumpAlert(s, op.id, op.ttl);
    Loops.RenewOne(s, op.id, Min(op.ttl, MAX_TTL));
  }
}
