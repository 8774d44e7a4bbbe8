/** Webhook rotation as a one-slot mailbox: `propose_webhook` fills the slot, `confirm_webhook`
    empties it into the live hash, and nothing else touches either but `update_webhook`. */
module Mailbox {
  import opened Host
  import opened Seqs
  import opened AlertModel
  import opened IndexLists
  import opened AlertInvariant
  import opened Effects

  datatype Slot = Slot(hash: string, pending: Option<string>)

  function SlotOf(c: AlertConfig): Slot { Slot(c.webhookHash, c.pending) }

  /** The mailbox's own step, for a call on alert `id` that succeeded. */
  function Deliver(slot: Slot, op: Op, id: nat): Slot {
    match op
    case ProposeWebhook(_, i, hash) => if i == id then slot.(pending := Some(hash)) else slot
    case ConfirmWebhook(_, i) =>
      if i == id && slot.pending.Some? then Slot(slot.pending.value, None) else slot
    case UpdateWebhook(_, i, hash) => if i == id then slot.(hash := hash) else slot
    case _ => slot
  }

  /** The effects that change the slot of `id`. */
  predicate Stirs(e: Effect, id: nat) {
    e.Edit? && e.id == id && (e.patch.Hash? || e.patch.Pending? || e.patch.Confirm?)
  }

  /** An alert that is live after an effect had the same slot before it, or is new and has an empty one. */
  ghost predicate SlotKept(before: Records, after: Records, id: nat) {
    id in after ==> if id in before then SlotOf(after[id].value) == SlotOf(before[id].value)
                    else after[id].value.pending == None
  }

  lemma EditKeepsSlot(s: State, e: Effect, id: nat)
    requires (e.Edit? || e.Deactivate?) && !Stirs(e, id)
    ensures SlotKept(s.alerts, Do(s, e).state.alerts, id)
    ensures id in Do(s, e).state.alerts ==> id in s.alerts
  {}

  lemma EnrollKeepsSlot(s: State, e: Effect, id: nat)
    requires e.Enroll? && s.nextId !in s.alerts
    ensures SlotKept(s.alerts, Do(s, e).state.alerts, id)
    ensures id in Do(s, e).state.alerts && id !in s.alerts ==> id == s.nextId
    ensures Do(s, e).state.nextId >= s.nextId
  {
    hide DoEnroll;
    EnrollingEffect(s, e.owner, e.input, e.tags);
  }

  lemma OthersKeepSlot(s: State, e: Effect, id: nat)
    requires !e.Edit? && !e.Deactivate? && !e.Enroll?
    ensures SlotKept(s.alerts, Do(s, e).state.alerts, id)
    ensures id in Do(s, e).state.alerts ==> id in s.alerts
    ensures Do(s, e).state.nextId == s.nextId
  {
    if Quiet(e) {
      hide Do;
      QuietEffect(s, e);
    } else if Rewrites(e) {
      hide Do;
      RewritingEffect(s, e);
    } else if e.Erase? {
      hide DoErase;
      ErasingEffect(s, e.id, e.caller, e.asAdmin);
    }
  }

  lemma EffectKeepsSlot(s: State, e: Effect, id: nat)
    requires Inv(s) && !Stirs(e, id)
    ensures SlotKept(s.alerts, Do(s, e).state.alerts, id)
    ensures id in Do(s, e).state.alerts && id !in s.alerts ==> id >= s.nextId
    ensures Do(s, e).state.nextId >= s.nextId
  {
    BelowCounter(s);
    hide Inv, SlotKept, Store, Prune, Touch, Only, Without, Listing, Put, Extend;
    if e.Edit? || e.Deactivate? {
      EditKeepsSlot(s, e, id);
    } else if e.Enroll? {
      EnrollKeepsSlot(s, e, id);
    } else {
      OthersKeepSlot(s, e, id);
    }
  }

  /** Ids below the counter that are not live never come back. */
  lemma {:induction false} PlanKeepsSlot(s: State, es: seq<Effect>, id: nat)
    requires Inv(s) && forall e :: e in es ==> !Stirs(e, id)
    ensures SlotKept(s.alerts, DoAll(s, es).state.alerts, id)
    ensures id in DoAll(s, es).state.alerts && id !in s.alerts ==> id >= s.nextId
    ensures DoAll(s, es).state.nextId >= s.nextId
    decreases |es|
  {
    hide Inv, Do, Stirs;
    if es != [] {
      var front, e := es[..|es| - 1], es[|es| - 1];
      assert e in es;
      BelowCounter(s);
      PlanKeepsSlot(s, front, id);
      PlanKeepsInv(s, front);
      EffectKeepsSlot(DoAll(s, front).state, e, id);
    }
  }

  /** The calls addressed to the mailbox of `id`. */
  predicate Addressed(op: Op, id: nat) {
    || (op.ProposeWebhook? && op.id == id)
    || (op.ConfirmWebhook? && op.id == id)
    || (op.UpdateWebhook? && op.id == id)
  }

  lemma PlanStirsNothing(s: State, op: Op, id: nat)
    requires Plan(s, op).Ok? && !Addressed(op, id)
    ensures forall e :: e in Plan(s, op).value ==> !Stirs(e, id)
  {}

  lemma EditStep(s: State, id: nat, patch: Patch)
    requires Do(s, Edit(id, patch)).Done?
    ensures var t := Do(s, Edit(id, patch)).state;
            && id in s.alerts && id in t.alerts && t.nextId == s.nextId
            && (patch.Confirm? ==> s.alerts[id].value.pending.Some?)
            && SlotOf(t.alerts[id].value) ==
               match patch
               case Hash(hash) => Slot(hash, s.alerts[id].value.pending)
               case Pending(hash) => Slot(s.alerts[id].value.webhookHash, Some(hash))
               case Confirm => Slot(s.alerts[id].value.pending.value, None)
               case _ => SlotOf(s.alerts[id].value)
  {}

  lemma TouchStep(s: State, id: nat)
    ensures Do(s, TouchIndexes(id)).state.alerts == s.alerts && Do(s, TouchIndexes(id)).state.nextId == s.nextId
  {}

  lemma AddressedStep(s: State, op: Op, id: nat)
    requires Addressed(op, id) && Exec(s, op).Done?
    ensures id in s.alerts && id in Apply(s, op).alerts
    ensures SlotOf(Apply(s, op).alerts[id].value) == Deliver(SlotOf(s.alerts[id].value), op, id)
    ensures op.ConfirmWebhook? ==> s.alerts[id].value.pending.Some?
    ensures Apply(s, op).nextId == s.nextId
  {
    hide DoEdit, DoTouch, DoAll;
    match op
    case ProposeWebhook(caller, _, hash) =>
      DoAllShort(s, Edit(id, Pending(hash)), Publish(WebhookProposed(id, caller)), PutPaused(false));
      EditStep(s, id, Pending(hash));
    case ConfirmWebhook(caller, _) =>
      DoAllShort(s, Edit(id, Confirm), Publish(WebhookChanged(id, caller)), PutPaused(false));
      EditStep(s, id, Confirm);
    case UpdateWebhook(caller, _, hash) =>
      DoAllShort(s, Edit(id, Hash(hash)), TouchIndexes(id), Publish(WebhookChanged(id, caller)));
      EditStep(s, id, Hash(hash));
      TouchStep(Do(s, Edit(id, Hash(hash))).state, id);
  }

  /** One step refines the mailbox: for an alert that stays live, the stored hash and pending hash
      move exactly as `Deliver` says; a call that fails moves nothing. */
  lemma StepRefinesMailbox(s: State, op: Op, id: nat)
    requires Inv(s)
    ensures id in Apply(s, op).alerts && id in s.alerts ==>
              SlotOf(Apply(s, op).alerts[id].value) ==
              if Exec(s, op).Done? then Deliver(SlotOf(s.alerts[id].value), op, id) else SlotOf(s.alerts[id].value)
    ensures id in Apply(s, op).alerts && id !in s.alerts ==>
              id >= s.nextId && Apply(s, op).alerts[id].value.pending == None && !Addressed(op, id)
    ensures Apply(s, op).nextId >= s.nextId
  {
    hide Inv, DoAll, Stirs, Plan;
    if Exec(s, op).Done? {
      if Addressed(op, id) {
        AddressedStep(s, op, id);
      } else {
        PlanStirsNothing(s, op, id);
        PlanKeepsSlot(s, Plan(s, op).value, id);
      }
    }
  }

  /** For a live alert and its owner, confirming fails exactly when nothing is pending. */
  lemma ConfirmExactly(s: State, id: nat)
    requires id in s.alerts
    ensures var o := Exec(s, ConfirmWebhook(s.alerts[id].value.owner, id));
            && (o.Done? <==> s.alerts[id].value.pending.Some?)
            && (o.Failed? ==> o.error == NoPendingWebhook)
  {
    var owner := s.alerts[id].value.owner;
    DoAllShort(s, Edit(id, Confirm), Publish(WebhookChanged(id, owner)), PutPaused(false));
  }

  // ---------------------------------------------------------------- whole histories

  predicate Proposes(s: State, ops: seq<Op>, i: nat, id: nat)
    requires i < |ops|
  {
    ops[i].ProposeWebhook? && ops[i].id == id && Succeeds(s, ops, i)
  }

  predicate Confirms(s: State, ops: seq<Op>, i: nat, id: nat)
    requires i < |ops|
  {
    ops[i].ConfirmWebhook? && ops[i].id == id && Succeeds(s, ops, i)
  }

  /** Call `j` is the latest successful proposal for `id` before call `k`, and still unconfirmed. */
  ghost predicate LatestProposal(s: State, ops: seq<Op>, j: nat, k: nat, id: nat)
    requires k <= |ops|
  {
    && j < k
    && Proposes(s, ops, j, id)
    && forall i :: j < i < k ==> !Proposes(s, ops, i, id) && !Confirms(s, ops, i, id)
  }

  /** `pending` is the latest unconfirmed proposal before call `k`, or there is none. */
  ghost predicate IsPending(s: State, ops: seq<Op>, k: nat, id: nat, pending: Option<string>)
    requires k <= |ops|
  {
    && (pending.Some? ==> exists j: nat :: LatestProposal(s, ops, j, k, id) && pending.value == ops[j].hash)
    && (pending.None? ==> forall j: nat :: !LatestProposal(s, ops, j, k, id))
  }

  /** The slot after `k` calls holds the latest unconfirmed proposal, and is empty exactly when there
      is none: across hash updates, transfers of ownership and everything else. */
  lemma {:induction false} PendingIsLatestProposal(s: State, ops: seq<Op>, k: nat, id: nat)
    requires Inv(s) && k <= |ops|
    requires id in s.alerts ==> s.alerts[id].value.pending == None
    requires id in Run(s, ops[..k]).alerts
    ensures IsPending(s, ops, k, id, Run(s, ops[..k]).alerts[id].value.pending)
    decreases k
  {
    hide Inv, Exec, Deliver;
    if k != 0 {
      var t, op := Run(s, ops[..k - 1]), ops[k - 1];
      RunNext(s, ops, k - 1);
      RunKeepsInv(s, ops[..k - 1]);
      StepRefinesMailbox(t, op, id);
      if id in t.alerts {
        PendingIsLatestProposal(s, ops, k - 1, id);
        PendingStep(s, ops, k, id);
      } else {
        NeverProposed(s, ops, k - 1, id);
      }
    }
  }

  lemma PendingStep(s: State, ops: seq<Op>, k: nat, id: nat)
    requires Inv(s) && 1 <= k <= |ops|
    requires id in Run(s, ops[..k - 1]).alerts && id in Run(s, ops[..k]).alerts
    requires IsPending(s, ops, k - 1, id, Run(s, ops[..k - 1]).alerts[id].value.pending)
    ensures IsPending(s, ops, k, id, Run(s, ops[..k]).alerts[id].value.pending)
  {
    hide Inv, Exec;
    var t, op := Run(s, ops[..k - 1]), ops[k - 1];
    RunNext(s, ops, k - 1);
    RunKeepsInv(s, ops[..k - 1]);
    StepRefinesMailbox(t, op, id);
    forall j: nat | LatestProposal(s, ops, j, k, id) && j < k - 1 ensures LatestProposal(s, ops, j, k - 1, id) {}
    if Proposes(s, ops, k - 1, id) {
      assert LatestProposal(s, ops, k - 1, k, id);
    } else if !Confirms(s, ops, k - 1, id) && t.alerts[id].value.pending.Some? {
      var j: nat :| LatestProposal(s, ops, j, k - 1, id) && t.alerts[id].value.pending.value == ops[j].hash;
      assert LatestProposal(s, ops, j, k, id);
    }
  }

  /** No call on `id` succeeded before it existed. */
  lemma {:induction false} NeverProposed(s: State, ops: seq<Op>, k: nat, id: nat)
    requires Inv(s) && k <= |ops| && id >= Run(s, ops[..k]).nextId
    ensures forall i :: 0 <= i < k ==> !Proposes(s, ops, i, id) && !Confirms(s, ops, i, id)
    decreases k
  {
    hide Inv, Exec, Plan;
    if k != 0 {
      var t, op := Run(s, ops[..k - 1]), ops[k - 1];
      RunNext(s, ops, k - 1);
      RunKeepsInv(s, ops[..k - 1]);
      StepRefinesMailbox(t, op, id);
      NeverProposed(s, ops, k - 1, id);
      if Proposes(s, ops, k - 1, id) || Confirms(s, ops, k - 1, id) {
        AddressedStep(t, op, id);
        BelowCounter(t);
      }
    }
  }

  /** A successful confirm installs the hash of the latest proposal since the last confirm. */
  lemma ConfirmInstallsLatest(s: State, ops: seq<Op>, k: nat, id: nat)
    requires Inv(s) && k < |ops|
    requires id in s.alerts ==> s.alerts[id].value.pending == None
    requires Confirms(s, ops, k, id)
    ensures id in Run(s, ops[..k + 1]).alerts
    ensures exists j: nat :: LatestProposal(s, ops, j, k, id) &&
              Run(s, ops[..k + 1]).alerts[id].value.webhookHash == ops[j].hash
    ensures Run(s, ops[..k + 1]).alerts[id].value.pending == None
  {
    hide Inv, Exec, Plan, LatestProposal;
    AddressedStep(Run(s, ops[..k]), ops[k], id);
    RunNext(s, ops, k);
    PendingIsLatestProposal(s, ops, k, id);
  }
}
