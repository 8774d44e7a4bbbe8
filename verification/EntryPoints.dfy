/** Each entry point's plan spelled out on its own: its checks in order, then its effects. The
    contract's methods are proved against these equations. */
module EntryPoints {
  import opened Host
  import opened AlertModel

  /** A check that fails ends the call before anything is written. */
  function After(g: Guard, s: State, o: Outcome): Outcome {
    if g.Fail? then Failed(s, g.error) else o
  }

  /** An event published once everything before it went through. */
  function Finish(o: Outcome, notice: Notice): Outcome {
    if o.Done? then Done(Emit(o.state, Note(notice))) else o
  }

  lemma Register(s: State, owner: Address, input: AlertInput, tags: Option<seq<string>>)
    ensures Exec(s, AlertModel.Register(owner, input, tags)) ==
            After(NotPaused(s), s, After(ValidInput(input), s, After(ValidTags(tags), s,
              if DoAdmit(s, owner, 1).Failed? then DoAdmit(s, owner, 1)
              else DoEnroll(DoAdmit(s, owner, 1).state, owner, input, tags))))
  {
    hide DoAll, DoEnroll, DoAdmit, ValidInput, ValidTags;
    DoAllShort(s, Admit(owner, 1), Enroll(owner, input, tags), PutPaused(false));
  }

  lemma BatchRegister(s: State, caller: Address, inputs: seq<AlertInput>)
    ensures Exec(s, AlertModel.BatchRegister(caller, inputs)) ==
            After(NotPaused(s), s, After(Need(|inputs| <= MAX_BATCH_SIZE, BatchTooLarge), s,
              After(InputFault(inputs, |inputs|), s,
                DoAll(s, [Admit(caller, |inputs|)] + Enrolments(caller, inputs)))))
  {
    hide DoAll, InputFault;
  }

  /** Edit and announce. */
  lemma PlainEdit(s: State, id: nat, patch: Patch, notice: Notice)
    ensures DoAll(s, [Edit(id, patch), Publish(notice)]) == Finish(DoEdit(s, id, patch), notice)
  {
    hide DoAll, DoEdit;
    DoAllShort(s, Edit(id, patch), Publish(notice), PutPaused(false));
  }

  /** Edit, extend both lists, announce. */
  lemma TouchingEdit(s: State, id: nat, patch: Patch, notice: Notice)
    requires id in s.alerts && !patch.Confirm?
    ensures var c := Patched(s.alerts[id].value, patch, s.timestamp);
            DoAll(s, [Edit(id, patch), TouchIndexes(id), Publish(notice)]) ==
            Finish(DoTouch(PutRecord(s, id, c, patch.Rules? || patch.Active?), c, DEFAULT_TTL), notice)
  {
    hide DoAll, DoTouch, Patched;
    DoAllShort(s, Edit(id, patch), TouchIndexes(id), Publish(notice));
  }

  lemma SetActiveByAdmin(s: State, admin: Address, id: nat, active: bool)
    ensures Exec(s, AlertModel.SetActiveByAdmin(admin, id, active)) ==
            After(IsAdmin(s, admin), s, After(Live(s, id), s,
              Finish(DoEdit(s, id, Active(active)), Updated(id, admin, active))))
  {
    hide DoAll, DoEdit;
    PlainEdit(s, id, Active(active), Updated(id, admin, active));
  }

  lemma UpdateAlert(s: State, caller: Address, id: nat, rules: seq<string>, active: bool)
    ensures Exec(s, AlertModel.UpdateAlert(caller, id, rules, active)) ==
            After(NotPaused(s), s, After(OwnedBy(s, id, caller), s, After(ValidRules(rules), s,
              DoAll(s, [Edit(id, Rules(rules, active)), TouchIndexes(id), Publish(Updated(id, caller, active))]))))
  {
    hide DoAll, ValidRules;
  }

  lemma UpdateWebhook(s: State, caller: Address, id: nat, hash: string)
    ensures Exec(s, AlertModel.UpdateWebhook(caller, id, hash)) ==
            After(NotPaused(s), s, After(OwnedBy(s, id, caller), s, After(Need(|hash| == 64, InvalidWebhookHash), s,
              DoAll(s, [Edit(id, Hash(hash)), TouchIndexes(id), Publish(WebhookChanged(id, caller))]))))
  {
    hide DoAll;
  }

  lemma ProposeWebhook(s: State, caller: Address, id: nat, hash: string)
    ensures Exec(s, AlertModel.ProposeWebhook(caller, id, hash)) ==
            After(OwnedBy(s, id, caller), s, Finish(DoEdit(s, id, Pending(hash)), WebhookProposed(id, caller)))
  {
    hide DoAll, DoEdit;
    PlainEdit(s, id, Pending(hash), WebhookProposed(id, caller));
  }

  lemma ConfirmWebhook(s: State, caller: Address, id: nat)
    ensures Exec(s, AlertModel.ConfirmWebhook(caller, id)) ==
            After(OwnedBy(s, id, caller), s, Finish(DoEdit(s, id, Confirm), WebhookChanged(id, caller)))
  {
    hide DoAll, DoEdit;
    PlainEdit(s, id, Confirm, WebhookChanged(id, caller));
  }

  lemma UpdateLabel(s: State, caller: Address, id: nat, name: string)
    ensures Exec(s, AlertModel.UpdateLabel(caller, id, name)) ==
            After(NotPaused(s), s, After(ValidLabel(name), s,
              if OwnedBy(s, id, caller).Fail? then Failed(s, OwnedBy(s, id, caller).error) else
                DoAll(s, [Edit(id, Label(name)), TouchIndexes(id),
                          Publish(Updated(id, caller, s.alerts[id].value.active))])))
  {
    hide DoAll;
  }

  lemma UpdateTags(s: State, caller: Address, id: nat, tags: Option<seq<string>>)
    ensures Exec(s, AlertModel.UpdateTags(caller, id, tags)) ==
            After(NotPaused(s), s, After(OwnedBy(s, id, caller), s, After(ValidTags(tags), s,
              Finish(DoEdit(s, id, Tags(tags)), Tagged(id, caller)))))
  {
    hide DoAll, DoEdit, ValidTags;
    PlainEdit(s, id, Tags(tags), Tagged(id, caller));
  }

  lemma RemoveAlert(s: State, caller: Address, id: nat)
    ensures Exec(s, AlertModel.RemoveAlert(caller, id)) ==
            After(NotPaused(s), s, After(OwnedBy(s, id, caller), s, DoErase(s, id, caller, false)))
  {
    hide DoAll, DoErase;
    DoAllShort(s, Erase(id, caller, false), PutPaused(false), PutPaused(false));
  }

  lemma RemoveAlertByAdmin(s: State, admin: Address, id: nat)
    ensures Exec(s, AlertModel.RemoveAlertByAdmin(admin, id)) ==
            After(NotPaused(s), s, After(IsAdmin(s, admin), s, After(Live(s, id), s, DoErase(s, id, admin, true))))
  {
    hide DoAll, DoErase;
    DoAllShort(s, Erase(id, admin, true), PutPaused(false), PutPaused(false));
  }

  lemma UpdateTarget(s: State, caller: Address, id: nat, target: Address)
    ensures Exec(s, AlertModel.UpdateTarget(caller, id, target)) ==
            After(NotPaused(s), s, After(OwnedBy(s, id, caller), s, DoRetarget(s, id, target)))
  {
    hide DoAll, DoRetarget;
    DoAllShort(s, Retarget(id, target), PutPaused(false), PutPaused(false));
  }

  lemma TransferOwnership(s: State, owner: Address, id: nat, newOwner: Address)
    ensures Exec(s, AlertModel.TransferOwnership(owner, id, newOwner)) ==
            After(NotPaused(s), s, After(OwnedBy(s, id, owner), s,
              if newOwner == owner then Done(s)
              else if DoAdmit(s, newOwner, 1).Failed? then DoAdmit(s, newOwner, 1)
              else DoReassign(DoAdmit(s, newOwner, 1).state, id, newOwner)))
  {
    hide DoAll, DoReassign, DoAdmit;
    DoNone(s);
    DoAllShort(s, Admit(newOwner, 1), Reassign(id, newOwner), PutPaused(false));
  }

  lemma BumpAlert(s: State, id: nat, ttl: nat)
    ensures Exec(s, AlertModel.BumpAlert(id, ttl)) ==
            After(NotPaused(s), s, After(Live(s, id), s, DoRenew(s, id, Min(ttl, MAX_TTL))))
  {
    hide DoAll, DoRenew;
    DoAllShort(s, Renew(id, Min(ttl, MAX_TTL)), PutPaused(false), PutPaused(false));
  }

  lemma BulkRenew(s: State, ids: seq<nat>)
    ensures Exec(s, AlertModel.BulkRenew(ids)) ==
            After(Need(|ids| <= MAX_BATCH_SIZE, TooManyRules), s, DoAll(s, Renewals(ids)))
  {
    hide DoAll;
  }

  lemma GetAlert(s: State, id: nat)
    ensures Exec(s, AlertModel.GetAlert(id)) ==
            Done(if id in s.alerts then s.(alerts := Extend(s.alerts, id, s.ledger, DEFAULT_TTL)) else s)
  {
    hide DoAll;
    DoAllShort(s, Keep(id), PutPaused(false), PutPaused(false));
  }

  lemma DeactivateAll(s: State, caller: Address)
    ensures Exec(s, AlertModel.DeactivateAll(caller)) ==
            After(NotPaused(s), s, DoAll(s, Deactivations(Listing(s.owners, caller))))
  {
    hide DoAll;
  }

  lemma SetLimit(s: State, admin: Address, limit: U32)
    ensures Exec(s, AlertModel.SetLimit(admin, limit)) ==
            After(IsAdmin(s, admin), s, Done(Emit(s.(limit := limit), Note(LimitSet(admin, limit)))))
  {
    hide DoAll;
    DoAllShort(s, PutLimit(limit), Publish(LimitSet(admin, limit)), PutPaused(false));
  }

  lemma SetPaused(s: State, admin: Address, paused: bool)
    ensures Exec(s, AlertModel.SetPaused(admin, paused)) ==
            After(IsAdmin(s, admin), s, Done(Emit(s.(paused := paused), Note(PauseSet(admin, paused)))))
  {
    hide DoAll;
    DoAllShort(s, PutPaused(paused), Publish(PauseSet(admin, paused)), PutPaused(false));
  }
}
