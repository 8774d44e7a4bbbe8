/** What the pause flag stops: every entry point but a few. */
module Pause {
  import opened Host
  import opened Seqs
  import opened AlertModel
  import EntryPoints

  /** The calls that do not look at the pause flag: the admin's switch on one alert, the two steps of
      a webhook rotation, the batched renewal, the read that renews, the settings, and the environment. */
  predicate Exempt(op: Op) {
    || op.SetActiveByAdmin? || op.ProposeWebhook? || op.ConfirmWebhook? || op.BulkRenew? || op.GetAlert?
    || op.SetLimit? || op.SetPaused? || op.SetAdmins? || op.Advance?
  }

  lemma EffectNeverPaused(s: State, e: Effect)
    ensures Do(s, e).Failed? ==> Do(s, e).error != ContractPaused
  {
    hide Store, Prune, Touch, Only, Without, Patched, PutRecord, Extend, Put;
  }

  lemma {:induction false} PlanNeverPaused(s: State, es: seq<Effect>)
    ensures DoAll(s, es).Failed? ==> DoAll(s, es).error != ContractPaused
    decreases |es|
  {
    hide Do;
    if es != [] {
      PlanNeverPaused(s, es[..|es| - 1]);
      EffectNeverPaused(DoAll(s, es[..|es| - 1]).state, es[|es| - 1]);
    }
  }

  lemma {:induction false} FaultIsNotPause(inputs: seq<AlertInput>, n: nat)
    requires n <= |inputs|
    ensures InputFault(inputs, n).Fail? ==> InputFault(inputs, n).error != ContractPaused
  {
    hide RuleFault;
    if n != 0 { FaultIsNotPause(inputs, n - 1); }
  }

  /** A call is turned away as paused exactly when the flag is set and the call looks at it; nothing
      has been written then. */
  lemma PauseExactly(s: State, op: Op)
    ensures Exec(s, op) == Failed(s, ContractPaused) <==> s.paused && !Exempt(op)
    ensures Exec(s, op).Failed? && Exec(s, op).error == ContractPaused ==> Exec(s, op).state == s
  {
    hide DoAll, RuleFault, InputFault;
    if op.BatchRegister? { FaultIsNotPause(op.inputs, |op.inputs|); }
    if Plan(s, op).Ok? { PlanNeverPaused(s, Plan(s, op).value); }
  }

  /** While only such calls are made, a paused contract does not change at all. */
  lemma {:induction false} PausedRunIsStill(s: State, ops: seq<Op>)
    requires s.paused && forall i :: 0 <= i < |ops| ==> !Exempt(ops[i])
    ensures Run(s, ops) == s
    decreases |ops|
  {
    hide Exec, Exempt;
    if ops != [] {
      PausedRunIsStill(s, ops[..|ops| - 1]);
      PauseExactly(s, ops[|ops| - 1]);
    }
  }

  function Rotation(owner: Address, id: nat, hash: string): seq<Op> {
    [ProposeWebhook(owner, id, hash), ConfirmWebhook(owner, id)]
  }

  lemma TwoSteps(s: State, a: Op, b: Op)
    ensures Run(s, [a, b]) == Apply(Apply(s, a), b)
  {
    hide Apply;
    var ops := [a, b];
    assert ops[..0] == [] && ops[..2] == ops;
    RunNext(s, ops, 0);
    RunNext(s, ops, 1);
  }

  /** The owner can rotate the webhook of a live alert to any hash, of any length, also while the
      contract is paused. */
  lemma RotationIgnoresPause(s: State, id: nat, hash: string)
    requires id in s.alerts
    ensures var t := Run(s, Rotation(s.alerts[id].value.owner, id, hash));
            id in t.alerts && t.alerts[id].value.webhookHash == hash && t.paused == s.paused
  {
    hide Exec, Run, Put;
    var owner := s.alerts[id].value.owner;
    TwoSteps(s, ProposeWebhook(owner, id, hash), ConfirmWebhook(owner, id));
    EntryPoints.ProposeWebhook(s, owner, id, hash);
    var t := Apply(s, ProposeWebhook(owner, id, hash));
    PutReads(s, id, Patched(s.alerts[id].value, Pending(hash), s.timestamp));
    EntryPoints.ConfirmWebhook(t, owner, id);
    PutReads(t, id, Patched(t.alerts[id].value, Confirm, t.timestamp));
  }

  lemma PutReads(s: State, id: nat, c: AlertConfig)
    ensures Put(s.alerts, id, c, s.ledger, DEFAULT_TTL)[id].value == c
  {}
}
