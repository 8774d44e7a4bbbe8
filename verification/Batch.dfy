/** `batch_register_alerts` is the same as registering its inputs one by one in the same ledger. */
module Batch {
  import opened Host
  import opened Seqs
  import opened AlertModel
  import opened AlertInvariant

  function OneByOne(caller: Address, inputs: seq<AlertInput>): (r: seq<Op>)
    ensures |r| == |inputs|
  {
    seq(|inputs|, i requires 0 <= i < |inputs| => Register(caller, inputs[i], None))
  }

  /** Whether each of the first `k` calls of a history succeeds. */
  ghost predicate Accepted(s: State, ops: seq<Op>, k: nat)
    requires k <= |ops|
  {
    forall i :: 0 <= i < k ==> Exec(Run(s, ops[..i]), ops[i]).Done?
  }

  /** The state once the lazy pruning of `owner`'s list has happened. */
  function Pruned(s: State, owner: Address): State {
    if s.limit == 0 then s else s.(owners := Prune(s.owners, owner, s.alerts.Keys, s.ledger))
  }

  /** Room for `k` more alerts of `owner`, after pruning. */
  predicate HasRoom(s: State, owner: Address, k: nat) {
    s.limit == 0 || s.limit == U32_MAX || |Listing(s.owners, owner)| + k <= s.limit
  }

  /** Everything `owner`'s list holds is live. */
  predicate AllLive(s: State, owner: Address) {
    forall id :: id in Listing(s.owners, owner) ==> id in s.alerts
  }

  predicate AllValid(inputs: seq<AlertInput>, k: nat)
    requires k <= |inputs|
  {
    forall i :: 0 <= i < k ==> ValidInput(inputs[i]).Pass?
  }

  /** The condition, on the state before the first call, under which `k` registrations go through. */
  predicate Fits(s: State, caller: Address, inputs: seq<AlertInput>, k: nat)
    requires k <= |inputs|
  {
    !s.paused && AllValid(inputs, k) && HasRoom(Pruned(s, caller), caller, k) && s.nextId + k <= U64_MAX
  }

  // ---------------------------------------------------------------- admission

  lemma AdmitIsPrune(s: State, owner: Address, k: nat)
    ensures Do(s, Admit(owner, k)).Done? <==> HasRoom(Pruned(s, owner), owner, k)
    ensures Do(s, Admit(owner, k)).Done? ==> Do(s, Admit(owner, k)).state == Pruned(s, owner)
  {}

  lemma PrunedAllLive(s: State, owner: Address)
    ensures s.limit != 0 ==> AllLive(Pruned(s, owner), owner)
  {}

  lemma NothingToPrune(s: State, owner: Address)
    requires s.limit == 0 || AllLive(s, owner)
    ensures Pruned(s, owner) == s
  {
    OnlyAll(Listing(s.owners, owner), s.alerts.Keys);
  }

  lemma PrunedInv(s: State, owner: Address)
    requires Inv(s)
    ensures Inv(Pruned(s, owner))
  {
    hide Inv, Prune;
    AdmitKeeps(s, owner, 0);
  }

  // ---------------------------------------------------------------- a row of enrolments

  /** What a row of enrolments leaves as it was, and how the owner's list grows. */
  ghost predicate Grown(s: State, t: State, owner: Address, k: nat) {
    && t.nextId == s.nextId + k
    && t.paused == s.paused && t.limit == s.limit && t.ledger == s.ledger && t.timestamp == s.timestamp
    && |Listing(t.owners, owner)| == |Listing(s.owners, owner)| + k
    && (AllLive(s, owner) ==> AllLive(t, owner))
  }

  lemma EnrollGrows(s: State, owner: Address, input: AlertInput)
    requires DoEnroll(s, owner, input, None).Done?
    ensures Grown(s, DoEnroll(s, owner, input, None).state, owner, 1)
  {
    hide Store;
  }

  lemma GrownTwice(s: State, t: State, u: State, owner: Address, k: nat)
    requires Grown(s, t, owner, k) && Grown(t, u, owner, 1)
    ensures Grown(s, u, owner, k + 1)
  {}

  /** Once writing has begun, only the exhaustion of the id counter could stop a batch. */
  lemma {:induction false} EnrolmentsSucceed(s: State, caller: Address, inputs: seq<AlertInput>, k: nat)
    requires Inv(s) && k <= |inputs|
    ensures DoAll(s, Enrolments(caller, inputs)[..k]).Done? <==> k == 0 || s.nextId + k <= U64_MAX
    ensures DoAll(s, Enrolments(caller, inputs)[..k]).Done? ==>
              var t := DoAll(s, Enrolments(caller, inputs)[..k]).state; Inv(t) && Grown(s, t, caller, k)
    decreases k
  {
    hide Inv, DoEnroll, AllLive;
    if k != 0 {
      var es := Enrolments(caller, inputs);
      EnrolmentsSucceed(s, caller, inputs, k - 1);
      assert es[..k][..k - 1] == es[..k - 1];
      var o := DoAll(s, es[..k - 1]);
      if o.Done? {
        EnrollKeeps(o.state, caller, inputs[k - 1], None);
        if o.state.nextId < U64_MAX {
          EnrollGrows(o.state, caller, inputs[k - 1]);
          GrownTwice(s, o.state, DoEnroll(o.state, caller, inputs[k - 1], None).state, caller, k - 1);
        }
      }
    }
  }

  // ---------------------------------------------------------------- one by one

  /** A single registration from a state that is paused or not, pruned or not. */
  lemma RegisterOnce(s: State, owner: Address, input: AlertInput)
    requires Inv(s)
    ensures var op := Register(owner, input, None);
            && (Exec(s, op).Done? <==> && !s.paused && ValidInput(input).Pass?
                                       && HasRoom(Pruned(s, owner), owner, 1) && s.nextId < U64_MAX)
            && (Exec(s, op).Done? ==> DoEnroll(Pruned(s, owner), owner, input, None) == Exec(s, op))
  {
    hide Inv, Prune, Pruned, HasRoom, DoEnroll;
    DoAllShort(s, Admit(owner, 1), Enroll(owner, input, None), Enroll(owner, input, None));
    AdmitIsPrune(s, owner, 1);
    PrunedInv(s, owner);
    PrunedCounter(s, owner);
    EnrollKeeps(Pruned(s, owner), owner, input, None);
  }

  lemma PrunedCounter(s: State, owner: Address)
    ensures Pruned(s, owner).nextId == s.nextId && Pruned(s, owner).paused == s.paused
    ensures Pruned(s, owner).limit == s.limit
  {}

  lemma NoneYet(s: State, ops: seq<Op>)
    ensures Accepted(s, ops, 0)
  {}

  lemma AcceptedNext(s: State, ops: seq<Op>, k: nat)
    requires k < |ops|
    ensures Accepted(s, ops, k + 1) <==> Accepted(s, ops, k) && Exec(Run(s, ops[..k]), ops[k]).Done?
  {}

  lemma FitsNext(s: State, caller: Address, inputs: seq<AlertInput>, k: nat)
    requires k < |inputs|
    ensures Fits(s, caller, inputs, k + 1) <==>
            && (k > 0 ==> Fits(s, caller, inputs, k))
            && !s.paused && ValidInput(inputs[k]).Pass?
            && HasRoom(Pruned(s, caller), caller, k + 1) && s.nextId + k + 1 <= U64_MAX
  {
    hide Pruned, ValidInput;
  }

  /** The first `k` registrations go through exactly when they fit, and leave what the first `k`
      enrolments of the batch leave. */
  lemma {:induction false} Sequence(s: State, caller: Address, inputs: seq<AlertInput>, k: nat)
    requires Inv(s) && 1 <= k <= |inputs|
    ensures Accepted(s, OneByOne(caller, inputs), k) <==> Fits(s, caller, inputs, k)
    ensures Fits(s, caller, inputs, k) ==>
              && DoAll(Pruned(s, caller), Enrolments(caller, inputs)[..k]) ==
                 Done(Run(s, OneByOne(caller, inputs)[..k]))
    decreases k
  {
    hide Inv, Prune, Pruned, DoEnroll, Exec, Listing, ValidInput, Accepted, Fits, AllLive;
    var ops, es, t := OneByOne(caller, inputs), Enrolments(caller, inputs), Pruned(s, caller);
    var input := inputs[k - 1];
    PrunedInv(s, caller);
    PrunedCounter(s, caller);
    RunNext(s, ops, k - 1);
    assert es[..k] == es[..k - 1] + [es[k - 1]];
    DoAllNext(t, es[..k - 1], es[k - 1]);
    AcceptedNext(s, ops, k - 1);
    FitsNext(s, caller, inputs, k - 1);
    if k == 1 {
      RegisterOnce(s, caller, input);
      assert ops[..0] == [] && es[..0] == [];
      NoneYet(s, ops);
    } else {
      Sequence(s, caller, inputs, k - 1);
      if Fits(s, caller, inputs, k - 1) {
        var u := Run(s, ops[..k - 1]);
        EnrolmentsSucceed(t, caller, inputs, k - 1);
        PrunedAllLive(s, caller);
        NothingToPrune(u, caller);
        RegisterOnce(u, caller, input);
      }
    }
  }

  lemma {:induction false} FaultFree(inputs: seq<AlertInput>, k: nat)
    requires k <= |inputs|
    ensures InputFault(inputs, k).Pass? <==> AllValid(inputs, k)
  {
    hide ValidInput;
    if k != 0 { FaultFree(inputs, k - 1); }
  }

  lemma {:induction false} DoAllCons(s: State, e: Effect, rest: seq<Effect>)
    ensures DoAll(s, [e] + rest) == if Do(s, e).Done? then DoAll(Do(s, e).state, rest) else Do(s, e)
    decreases |rest|
  {
    hide Do;
    if rest == [] {
      assert [e] + rest == [e];
      DoAllNext(s, [], e);
      assert [] + [e] == [e];
    } else {
      assert ([e] + rest)[..|[e] + rest| - 1] == [e] + rest[..|rest| - 1];
      DoAllCons(s, e, rest[..|rest| - 1]);
    }
  }

  lemma BatchExactly(s: State, caller: Address, inputs: seq<AlertInput>)
    requires Inv(s) && 0 < |inputs| <= MAX_BATCH_SIZE
    ensures Exec(s, BatchRegister(caller, inputs)).Done? <==> Fits(s, caller, inputs, |inputs|)
    ensures Exec(s, BatchRegister(caller, inputs)).Done? ==>
              Exec(s, BatchRegister(caller, inputs)) == DoAll(Pruned(s, caller), Enrolments(caller, inputs))
  {
    hide Inv, Prune, Pruned, HasRoom, Do, DoAll, AllValid, InputFault;
    var n, es := |inputs|, Enrolments(caller, inputs);
    FaultFree(inputs, n);
    DoAllCons(s, Admit(caller, n), es);
    AdmitIsPrune(s, caller, n);
    PrunedInv(s, caller);
    PrunedCounter(s, caller);
    assert es[..n] == es;
    EnrolmentsSucceed(Pruned(s, caller), caller, inputs, n);
  }

  /** A non-empty batch of at most 50 goes through exactly when its inputs go through one by one, and
      both leave the same records, flags, lists, counter and events. */
  lemma BatchEqualsSequence(s: State, caller: Address, inputs: seq<AlertInput>)
    requires Inv(s) && 0 < |inputs| <= MAX_BATCH_SIZE
    ensures Exec(s, BatchRegister(caller, inputs)).Done? <==>
            Accepted(s, OneByOne(caller, inputs), |inputs|)
    ensures Exec(s, BatchRegister(caller, inputs)).Done? ==>
            Apply(s, BatchRegister(caller, inputs)) == Run(s, OneByOne(caller, inputs))
  {
    hide Inv, Accepted, Fits, DoAll, Plan, Run;
    var n := |inputs|;
    BatchExactly(s, caller, inputs);
    Sequence(s, caller, inputs, n);
    assert OneByOne(caller, inputs)[..n] == OneByOne(caller, inputs);
    assert Enrolments(caller, inputs)[..n] == Enrolments(caller, inputs);
  }

  /** Once a batch has passed its checks it cannot fail midway, unless the counter runs out of u64. */
  lemma NoFailureMidway(s: State, caller: Address, inputs: seq<AlertInput>)
    requires Inv(s) && Do(s, Admit(caller, |inputs|)).Done? && s.nextId + |inputs| <= U64_MAX
    ensures DoAll(Do(s, Admit(caller, |inputs|)).state, Enrolments(caller, inputs)).Done?
  {
    hide Inv, Prune, Pruned, HasRoom, DoAll, Do;
    AdmitIsPrune(s, caller, |inputs|);
    PrunedInv(s, caller);
    PrunedCounter(s, caller);
    EnrolmentsSucceed(Pruned(s, caller), caller, inputs, |inputs|);
    assert Enrolments(caller, inputs)[..|inputs|] == Enrolments(caller, inputs);
  }
}
