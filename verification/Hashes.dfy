/** The length of webhook hashes. Registration and `update_webhook` insist on 64 characters,
    `propose_webhook` does not; so a stored hash of another length is always a confirmed proposal. */
module Hashes {
  import opened Host
  import opened Seqs
  import opened AlertModel
  import opened AlertInvariant
  import opened Effects
  import opened Mailbox
  import Batch
  import Pause

  // ---------------------------------------------------------------- new alerts

  predicate EnrollsSound(e: Effect) {
    e.Enroll? ==> |e.input.webhookHash| == 64
  }

  lemma PlanEnrollsSound(s: State, op: Op)
    requires Plan(s, op).Ok?
    ensures forall e :: e in Plan(s, op).value ==> EnrollsSound(e)
  {
    hide RuleFault, InputFault;
    if op.BatchRegister? { Batch.FaultFree(op.inputs, |op.inputs|); }
  }

  lemma NewHash(s: State, e: Effect, id: nat)
    requires Inv(s) && EnrollsSound(e) && id !in s.alerts && id in Do(s, e).state.alerts
    ensures |Do(s, e).state.alerts[id].value.webhookHash| == 64
  {
    BelowCounter(s);
    hide Inv, Do;
    if e.Enroll? {
      EnrolledHash(s, e, id);
    } else if e.Edit? || e.Deactivate? {
      EditAddsNothing(s, e, id);
    } else {
      OthersKeepSlot(s, e, id);
    }
  }

  lemma EditAddsNothing(s: State, e: Effect, id: nat)
    requires e.Edit? || e.Deactivate?
    ensures id in Do(s, e).state.alerts ==> id in s.alerts
  {
    hide Patched;
  }

  lemma EnrolledHash(s: State, e: Effect, id: nat)
    requires e.Enroll? && EnrollsSound(e) && id !in s.alerts && id in Do(s, e).state.alerts
    ensures |Do(s, e).state.alerts[id].value.webhookHash| == 64
  {
    hide DoEnroll;
    EnrollingEffect(s, e.owner, e.input, e.tags);
  }

  /** A plan leaves an alert that it creates with a hash of the right length. */
  lemma {:induction false} PlanNewHash(s: State, es: seq<Effect>, id: nat)
    requires Inv(s) && (forall e :: e in es ==> !Stirs(e, id) && EnrollsSound(e)) && id !in s.alerts
    ensures id in DoAll(s, es).state.alerts ==> |DoAll(s, es).state.alerts[id].value.webhookHash| == 64
    decreases |es|
  {
    hide Inv, Do, Stirs, EnrollsSound;
    if es != [] {
      var front, e := es[..|es| - 1], es[|es| - 1];
      var t := DoAll(s, front).state;
      assert e in es;
      PlanNewHash(s, front, id);
      PlanKeepsInv(s, front);
      if DoAll(s, front).Done? && id in Do(t, e).state.alerts {
        if id in t.alerts { EffectKeepsSlot(t, e, id); } else { NewHash(t, e, id); }
      }
    }
  }

  // ---------------------------------------------------------------- one call

  lemma InstalledLengths(s: State, op: Op, id: nat)
    requires Exec(s, op).Done? && op.UpdateWebhook? && op.id == id
    ensures |op.hash| == 64
  {
    hide DoAll;
  }

  /** What a call leaves as the stored hash of a live alert. */
  lemma StoredAfter(s: State, op: Op, id: nat)
    requires Inv(s) && id in Apply(s, op).alerts
    ensures var hash := Apply(s, op).alerts[id].value.webhookHash;
            if id !in s.alerts then |hash| == 64
            else if Exec(s, op).Done? && op.UpdateWebhook? && op.id == id then |hash| == 64
            else if Exec(s, op).Done? && op.ConfirmWebhook? && op.id == id
              then s.alerts[id].value.pending == Some(hash)
            else hash == s.alerts[id].value.webhookHash
  {
    StepRefinesMailbox(s, op, id);
    hide Inv, DoAll, Plan;
    if Exec(s, op).Done? {
      if id !in s.alerts {
        PlanStirsNothing(s, op, id);
        PlanEnrollsSound(s, op);
        PlanNewHash(s, Plan(s, op).value, id);
      } else if op.UpdateWebhook? && op.id == id {
        InstalledLengths(s, op, id);
      } else if Addressed(op, id) {
        AddressedStep(s, op, id);
      }
    }
  }

  // ---------------------------------------------------------------- where a stored hash comes from

  /** A call that installs a hash for `id`. */
  predicate Installs(s: State, ops: seq<Op>, i: nat, id: nat)
    requires i < |ops|
  {
    (ops[i].UpdateWebhook? || ops[i].ConfirmWebhook?) && ops[i].id == id && Succeeds(s, ops, i)
  }

  /** Call `i` is the last to install a hash for `id` before call `k`; it is a confirm, and the proposal
      it confirmed is not 64 characters long. */
  ghost predicate ConfirmedOdd(s: State, ops: seq<Op>, i: nat, k: nat, id: nat)
    requires k <= |ops|
  {
    && i < k && Confirms(s, ops, i, id)
    && (forall m :: i < m < k ==> !Installs(s, ops, m, id))
    && exists j: nat :: LatestProposal(s, ops, j, i, id) && |ops[j].hash| != 64
  }

  ghost predicate StoredOdd(s: State, ops: seq<Op>, k: nat, id: nat)
    requires k <= |ops|
  {
    exists i: nat :: ConfirmedOdd(s, ops, i, k, id)
  }

  lemma LatestIsUnique(s: State, ops: seq<Op>, i: nat, j: nat, k: nat, id: nat)
    requires k <= |ops| && LatestProposal(s, ops, i, k, id) && LatestProposal(s, ops, j, k, id)
    ensures i == j
  {
    hide Proposes, Confirms;
  }

  /** A successful confirm at the last call. */
  lemma ConfirmedLast(s: State, ops: seq<Op>, k: nat, id: nat)
    requires Inv(s) && k < |ops| && Confirms(s, ops, k, id)
    requires id in s.alerts ==> s.alerts[id].value.pending == None
    ensures id in Run(s, ops[..k + 1]).alerts
    ensures |Run(s, ops[..k + 1]).alerts[id].value.webhookHash| != 64 <==>
            StoredOdd(s, ops, k + 1, id)
  {
    hide Inv, Run, Succeeds;
    ConfirmInstallsLatest(s, ops, k, id);
    var j: nat :| LatestProposal(s, ops, j, k, id) && Run(s, ops[..k + 1]).alerts[id].value.webhookHash == ops[j].hash;
    if |ops[j].hash| != 64 { assert ConfirmedOdd(s, ops, k, k + 1, id); }
    if StoredOdd(s, ops, k + 1, id) {
      var i: nat :| ConfirmedOdd(s, ops, i, k + 1, id);
      assert Installs(s, ops, k, id);
      assert i == k;
      var j': nat :| LatestProposal(s, ops, j', i, id) && |ops[j'].hash| != 64;
      LatestIsUnique(s, ops, j, j', k, id);
    }
  }

  /** No installing call at the last step. */
  lemma OddStays(s: State, ops: seq<Op>, k: nat, id: nat)
    requires k < |ops| && !Installs(s, ops, k, id)
    ensures StoredOdd(s, ops, k + 1, id) <==> StoredOdd(s, ops, k, id)
  {
    hide LatestProposal, Succeeds;
    if StoredOdd(s, ops, k + 1, id) {
      var i: nat :| ConfirmedOdd(s, ops, i, k + 1, id);
      assert i != k;
      assert ConfirmedOdd(s, ops, i, k, id);
    }
    if StoredOdd(s, ops, k, id) {
      var i: nat :| ConfirmedOdd(s, ops, i, k, id);
      assert ConfirmedOdd(s, ops, i, k + 1, id);
    }
  }

  /** The stored hash of a live alert is not 64 characters long if and only if the last call that
      installed one was a confirm of a proposal of another length. */
  lemma {:induction false} OddHashExactly(s: State, ops: seq<Op>, k: nat, id: nat)
    requires Inv(s) && k <= |ops|
    requires id in s.alerts ==> s.alerts[id].value.pending == None && |s.alerts[id].value.webhookHash| == 64
    requires id in Run(s, ops[..k]).alerts
    ensures |Run(s, ops[..k]).alerts[id].value.webhookHash| != 64 <==> StoredOdd(s, ops, k, id)
    decreases k
  {
    hide Inv, Exec;
    if k == 0 {
      assert ops[..0] == [];
    } else {
      var t, op := Run(s, ops[..k - 1]), ops[k - 1];
      RunNext(s, ops, k - 1);
      RunKeepsInv(s, ops[..k - 1]);
      StoredAfter(t, op, id);
      hide Run, StoredOdd, Apply;
      if id !in t.alerts {
        StepRefinesMailbox(t, op, id);
        NeverProposed(s, ops, k - 1, id);
        NothingOdd(s, ops, k, id);
      } else {
        OddHashExactly(s, ops, k - 1, id);
        OddStep(s, ops, k - 1, id);
      }
    }
  }

  /** Nothing was confirmed for an alert that did not exist yet. */
  lemma NothingOdd(s: State, ops: seq<Op>, k: nat, id: nat)
    requires 1 <= k <= |ops| && !Addressed(ops[k - 1], id)
    requires forall i :: 0 <= i < k - 1 ==> !Proposes(s, ops, i, id) && !Confirms(s, ops, i, id)
    ensures !StoredOdd(s, ops, k, id)
  {
    hide LatestProposal, Succeeds;
  }

  lemma OddStep(s: State, ops: seq<Op>, k: nat, id: nat)
    requires Inv(s) && k < |ops|
    requires id in s.alerts ==> s.alerts[id].value.pending == None
    requires id in Run(s, ops[..k]).alerts && id in Run(s, ops[..k + 1]).alerts
    requires |Run(s, ops[..k]).alerts[id].value.webhookHash| != 64 <==> StoredOdd(s, ops, k, id)
    ensures |Run(s, ops[..k + 1]).alerts[id].value.webhookHash| != 64 <==>
            StoredOdd(s, ops, k + 1, id)
  {
    hide Inv, Exec, Run, StoredOdd;
    RunNext(s, ops, k);
    RunKeepsInv(s, ops[..k]);
    StoredAfter(Run(s, ops[..k]), ops[k], id);
    if !Installs(s, ops, k, id) {
      OddStays(s, ops, k, id);
    } else if Confirms(s, ops, k, id) {
      ConfirmedLast(s, ops, k, id);
    } else {
      UpdateClears(s, ops, k, id);
    }
  }

  lemma UpdateClears(s: State, ops: seq<Op>, k: nat, id: nat)
    requires k < |ops| && Installs(s, ops, k, id) && !Confirms(s, ops, k, id)
    ensures !StoredOdd(s, ops, k + 1, id)
  {
    hide LatestProposal, Succeeds;
  }

  // ---------------------------------------------------------------- when all hashes have the length

  /** Every stored hash and every pending one is 64 characters long. */
  ghost predicate AllSound(s: State) {
    forall id :: id in s.alerts ==>
      && |s.alerts[id].value.webhookHash| == 64
      && (s.alerts[id].value.pending.Some? ==> |s.alerts[id].value.pending.value| == 64)
  }

  /** A successful proposal of another length. */
  predicate ProposesOdd(s: State, op: Op) {
    op.ProposeWebhook? && Exec(s, op).Done? && |op.hash| != 64
  }

  lemma SoundExactly(s: State, op: Op)
    requires Inv(s) && AllSound(s)
    ensures AllSound(Apply(s, op)) <==> !ProposesOdd(s, op)
  {
    hide Inv, Exec, Apply;
    var t := Apply(s, op);
    if ProposesOdd(s, op) {
      AddressedStep(s, op, op.id);
    } else {
      forall id | id in t.alerts
        ensures |t.alerts[id].value.webhookHash| == 64
        ensures t.alerts[id].value.pending.Some? ==> |t.alerts[id].value.pending.value| == 64
      {
        StoredAfter(s, op, id);
        StepRefinesMailbox(s, op, id);
      }
    }
  }

  ghost predicate SoundThrough(s: State, ops: seq<Op>, k: nat)
    requires k <= |ops|
  {
    forall i :: 0 <= i <= k ==> AllSound(Run(s, ops[..i]))
  }

  ghost predicate NoneProposedOdd(s: State, ops: seq<Op>, k: nat)
    requires k <= |ops|
  {
    forall i :: 0 <= i < k ==> !ProposesOdd(Run(s, ops[..i]), ops[i])
  }

  lemma OneCallMore(s: State, ops: seq<Op>, k: nat)
    requires k < |ops|
    ensures SoundThrough(s, ops, k + 1) <==> SoundThrough(s, ops, k) && AllSound(Run(s, ops[..k + 1]))
    ensures SoundThrough(s, ops, k) ==> AllSound(Run(s, ops[..k]))
    ensures NoneProposedOdd(s, ops, k + 1) <==> NoneProposedOdd(s, ops, k) && !ProposesOdd(Run(s, ops[..k]), ops[k])
  {
    hide Run, AllSound, ProposesOdd;
  }

  lemma SoundAtFirst(ledger: nat, timestamp: nat, ops: seq<Op>)
    ensures SoundThrough(Init(ledger, timestamp), ops, 0)
  {
    assert ops[..0] == [];
  }

  /** Over any history, all stored and pending hashes are 64 characters long throughout if and only if
      every successful proposal was. */
  lemma {:induction false} LengthsExactly(ledger: nat, timestamp: nat, ops: seq<Op>, k: nat)
    requires k <= |ops|
    ensures SoundThrough(Init(ledger, timestamp), ops, k) <==> NoneProposedOdd(Init(ledger, timestamp), ops, k)
    decreases k
  {
    var s0 := Init(ledger, timestamp);
    SoundAtFirst(ledger, timestamp, ops);
    hide Inv, ProposesOdd, Apply, Run, AllSound;
    if k != 0 {
      hide SoundThrough, NoneProposedOdd;
      LengthsExactly(ledger, timestamp, ops, k - 1);
      OneCallMore(s0, ops, k - 1);
      InitInv(ledger, timestamp);
      RunKeepsInv(s0, ops[..k - 1]);
      RunNext(s0, ops, k - 1);
      if SoundThrough(s0, ops, k - 1) { SoundExactly(Run(s0, ops[..k - 1]), ops[k - 1]); }
    }
  }

  /** The owner of any live alert can put the empty string in the place of its hash. */
  lemma EmptyHash(s: State, id: nat)
    requires id in s.alerts
    ensures var t := Run(s, Pause.Rotation(s.alerts[id].value.owner, id, ""));
            id in t.alerts && t.alerts[id].value.webhookHash == ""
  {
    hide Run;
    Pause.RotationIgnoresPause(s, id, "");
  }
}
