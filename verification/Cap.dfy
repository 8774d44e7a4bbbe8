/** The per-owner cap over whole histories: registration, batches and incoming transfers never lift
    an owner's live alerts above the limit. */
module Cap {
  import opened Host
  import opened Seqs
  import opened AlertModel
  import opened AlertInvariant
  import opened Refinement
  import opened Accounting
  import opened Effects

  /** The admission check, against the plain count of live records, for an owner whose list is complete. A limit of 0 is "no limit"; a
      limit of `u32::MAX` never rejects either, because the sum saturates there. */
  lemma AdmitsExactly(s: State, owner: Address, additional: nat)
    requires Inv(s) && Listed(s, ByOwner, owner)
    ensures DoAdmit(s, owner, additional).Done? <==>
            s.limit == 0 || s.limit == U32_MAX || |OwnedIds(s, owner)| + additional <= s.limit
  {
    hide Inv, Listed, Only, OwnedIds;
    CountIsOwned(s, owner);
  }

  /** An owner who holds as many alerts as the limit allows is refused one more if and only if their list
      is complete: live alerts that the list has lost are not counted. */
  lemma AtTheCapExactly(s: State, owner: Address)
    requires Inv(s) && 0 < s.limit < U32_MAX && |OwnedIds(s, owner)| == s.limit
    ensures DoAdmit(s, owner, 1).Failed? <==> Listed(s, ByOwner, owner)
  {
    hide Inv, Listed, Only, OwnedIds;
    CountIsOwned(s, owner);
  }

  /** How many more live records of `owner` an effect may leave behind. */
  function Demand(e: Effect, owner: Address): nat {
    if (e.Enroll? && e.owner == owner) || (e.Reassign? && e.newOwner == owner) then 1 else 0
  }

  function TotalDemand(es: seq<Effect>, owner: Address): nat {
    if es == [] then 0 else TotalDemand(es[..|es| - 1], owner) + Demand(es[|es| - 1], owner)
  }

  lemma GrowsByOne<T>(a: set<T>, b: set<T>, x: T)
    requires a <= b + {x}
    ensures |a| <= |b| + 1
  {
    SubsetSize(a, b + {x});
  }

  /** The id an effect may give to a new owner. */
  function Given(s: State, e: Effect): nat {
    if e.Reassign? then e.id else s.nextId
  }

  lemma NoNewOwned(s: State, t: State, owner: Address)
    requires forall id :: id in t.alerts ==> id in s.alerts && t.alerts[id].value.owner == s.alerts[id].value.owner
    ensures OwnedIds(t, owner) <= OwnedIds(s, owner)
  {}

  lemma OneNewOwned(s: State, t: State, id: nat, owner: Address)
    requires forall i :: i in t.alerts && i != id ==> i in s.alerts && t.alerts[i].value.owner == s.alerts[i].value.owner
    ensures OwnedIds(t, owner) <= OwnedIds(s, owner) + {id}
    ensures id in t.alerts && t.alerts[id].value.owner != owner ==> OwnedIds(t, owner) <= OwnedIds(s, owner)
  {}

  /** No effect but enrolment and transfer brings in an id or changes an owner. */
  lemma OwnersStay(s: State, e: Effect)
    requires !e.Enroll? && !e.Reassign?
    ensures var t := Do(s, e).state;
            forall id :: id in t.alerts ==> id in s.alerts && t.alerts[id].value.owner == s.alerts[id].value.owner
  {
    if Quiet(e) {
      hide Do;
      QuietEffect(s, e);
    } else if Rewrites(e) {
      hide Do;
      RewritingEffect(s, e);
    } else if e.Erase? {
      hide DoErase;
      ErasingEffect(s, e.id, e.caller, e.asAdmin);
    }
  }

  lemma OthersStay(s: State, e: Effect)
    requires e.Enroll? || e.Reassign?
    ensures var t := Do(s, e).state;
            && (forall i :: i in t.alerts && i != Given(s, e) ==>
                  i in s.alerts && t.alerts[i].value.owner == s.alerts[i].value.owner)
            && (SameRecords(s.alerts, t.alerts) || (Given(s, e) in t.alerts &&
                t.alerts[Given(s, e)].value.owner == if e.Enroll? then e.owner else e.newOwner))
  {
    hide DoEnroll, DoReassign;
    match e
    case Enroll(owner, input, tags) => EnrollingEffect(s, owner, input, tags);
    case Reassign(_, _) => RewritingEffect(s, e);
  }

  lemma OwnedAfter(s: State, e: Effect, owner: Address)
    ensures OwnedIds(Do(s, e).state, owner) <= OwnedIds(s, owner) + {Given(s, e)}
    ensures Demand(e, owner) == 0 ==> OwnedIds(Do(s, e).state, owner) <= OwnedIds(s, owner)
  {
    hide OwnedIds, Do;
    var t := Do(s, e).state;
    if e.Enroll? || e.Reassign? {
      OthersStay(s, e);
      if SameRecords(s.alerts, t.alerts) { NoNewOwned(s, t, owner); } else { OneNewOwned(s, t, Given(s, e), owner); }
    } else {
      OwnersStay(s, e);
      NoNewOwned(s, t, owner);
    }
  }

  lemma {:induction false} PlanDemand(s: State, es: seq<Effect>, owner: Address)
    ensures |OwnedIds(DoAll(s, es).state, owner)| <= |OwnedIds(s, owner)| + TotalDemand(es, owner)
    decreases |es|
  {
    hide OwnedIds, Do;
    if es != [] {
      var front, e := es[..|es| - 1], es[|es| - 1];
      var t := DoAll(s, front).state;
      PlanDemand(s, front, owner);
      OwnedAfter(t, e, owner);
      GrowsByOne(OwnedIds(Do(t, e).state, owner), OwnedIds(t, owner), Given(t, e));
      if Demand(e, owner) == 0 { SubsetSize(OwnedIds(Do(t, e).state, owner), OwnedIds(t, owner)); }
    }
  }

  lemma {:induction false} FirstDone(s: State, e: Effect, rest: seq<Effect>)
    requires DoAll(s, [e] + rest).Done?
    ensures Do(s, e).Done?
    decreases |rest|
  {
    if rest == [] {
      assert [e] + rest == [e];
      DoAllShort(s, e, e, e);
    } else {
      assert ([e] + rest)[..|[e] + rest| - 1] == [e] + rest[..|rest| - 1];
      FirstDone(s, e, rest[..|rest| - 1]);
    }
  }

  lemma {:induction false} DemandConcat(a: seq<Effect>, b: seq<Effect>, owner: Address)
    ensures TotalDemand(a + b, owner) == TotalDemand(a, owner) + TotalDemand(b, owner)
    decreases |b|
  {
    if b == [] {
      assert a + b == a;
    } else {
      assert (a + b)[..|a + b| - 1] == a + b[..|b| - 1];
      DemandConcat(a, b[..|b| - 1], owner);
    }
  }

  lemma {:induction false} DemandBound(es: seq<Effect>, owner: Address)
    ensures TotalDemand(es, owner) <= |es|
    ensures (forall e :: e in es ==> Demand(e, owner) == 0) ==> TotalDemand(es, owner) == 0
  {
    if es != [] {
      DemandBound(es[..|es| - 1], owner);
      assert es[|es| - 1] in es;
    }
  }

  /** A plan that admits `n` newcomers for `who` first, and then adds at most `n`, all for `who`. */
  lemma AdmittedPlan(s: State, who: Address, n: nat, rest: seq<Effect>, owner: Address)
    requires Inv(s) && Listed(s, ByOwner, owner) && 0 < s.limit < U32_MAX
    requires |rest| == n && forall e :: e in rest ==> owner != who ==> Demand(e, owner) == 0
    requires DoAll(s, [Admit(who, n)] + rest).Done?
    ensures |OwnedIds(DoAll(s, [Admit(who, n)] + rest).state, owner)| <= Max(s.limit, |OwnedIds(s, owner)|)
  {
    hide Inv, Listed, OwnedIds, Do, DoAll;
    FirstDone(s, Admit(who, n), rest);
    assert Do(s, Admit(who, n)).Done? ==> DoAdmit(s, who, n).Done? by { AdmitIsDo(s, who, n); }
    if who == owner { AdmitsExactly(s, who, n); }
    PlanDemand(s, [Admit(who, n)] + rest, owner);
    DemandConcat([Admit(who, n)], rest, owner);
    DemandBound(rest, owner);
    assert TotalDemand([Admit(who, n)], owner) == 0;
  }

  /** The plans that bring nobody new in have no demand. */
  lemma OtherPlansDemandNothing(s: State, op: Op, owner: Address)
    requires Plan(s, op).Ok? && !op.Register? && !op.BatchRegister? && !op.TransferOwnership?
    ensures forall e :: e in Plan(s, op).value ==> Demand(e, owner) == 0
  {}

  /** The plans that bring somebody new in admit them first. */
  lemma AdmittingPlans(s: State, op: Op) returns (who: Address, rest: seq<Effect>)
    requires Plan(s, op).Ok? && Plan(s, op).value != []
    requires op.Register? || op.BatchRegister? || op.TransferOwnership?
    ensures Plan(s, op).value == [Admit(who, |rest|)] + rest
    ensures forall e, owner :: e in rest && owner != who ==> Demand(e, owner) == 0
  {
    match op
    case Register(w, input, tags) => who, rest := w, [Enroll(w, input, tags)];
    case BatchRegister(w, inputs) => who, rest := w, Enrolments(w, inputs);
    case TransferOwnership(_, id, w) => who, rest := w, [Reassign(id, w)];
  }

  lemma ApplyCap(s: State, op: Op, owner: Address)
    requires Inv(s) && Listed(s, ByOwner, owner) && 0 < s.limit < U32_MAX
    ensures |OwnedIds(Apply(s, op), owner)| <= Max(s.limit, |OwnedIds(s, owner)|)
  {
    hide Inv, Listed, OwnedIds, Do, DoAll, Plan, Demand;
    if Exec(s, op).Done? {
      var es := Plan(s, op).value;
      if es == [] {
        DoNone(s);
      } else if op.Register? || op.BatchRegister? || op.TransferOwnership? {
        var who, rest := AdmittingPlans(s, op);
        AdmittedPlan(s, who, |rest|, rest, owner);
      } else {
        OtherPlansDemandNothing(s, op, owner);
        PlanDemand(s, es, owner);
        DemandBound(es, owner);
      }
    }
  }

  lemma {:induction false} CapBelowMax(ledger: nat, timestamp: nat, ops: seq<Op>, j: nat, k: nat, owner: Address)
    requires j <= k <= |ops| && Listed(Run(Init(ledger, timestamp), ops[..j]), ByOwner, owner)
    requires ListOutlives(Init(ledger, timestamp), ops, j, k, ByOwner, owner)
    requires 0 < Run(Init(ledger, timestamp), ops[..j]).limit < U32_MAX
    requires forall i :: j <= i <= k ==>
               Run(Init(ledger, timestamp), ops[..i]).limit == Run(Init(ledger, timestamp), ops[..j]).limit
    ensures var s := Run(Init(ledger, timestamp), ops[..j]);
            |OwnedIds(Run(Init(ledger, timestamp), ops[..k]), owner)| <= Max(s.limit, |OwnedIds(s, owner)|)
    decreases k
  {
    var s0 := Init(ledger, timestamp);
    hide Inv, Listed, OwnedIds, Apply, Exec, ListOutlives, Outlives;
    if j < k {
      OneCallMore(s0, ops, j, k - 1, ByOwner, owner);
      CapBelowMax(ledger, timestamp, ops, j, k - 1, owner);
      Reachable(ledger, timestamp, ops, j, k - 1, ByOwner, owner);
      RunNext(s0, ops, k - 1);
      ApplyCap(Run(s0, ops[..k - 1]), ops[k - 1], owner);
    }
  }

  /** A list no longer than a u32 can say names at most `u32::MAX` live alerts. */
  lemma ListBoundsOwned(s: State, owner: Address)
    requires Inv(s) && Listed(s, ByOwner, owner)
    ensures |OwnedIds(s, owner)| <= |Listing(s.owners, owner)|
  {
    hide Inv, Listed, OwnedIds;
    CountIsOwned(s, owner);
  }

  /** From any state `j` of a history on, while the limit stays put, no owner ever holds more live
      alerts than the limit or than they held at `j`, whichever is larger, as long as their own list is
      complete at `j` and outlives their records. In particular an owner
      at or below the limit stays there. The limit `u32::MAX` never rejects, so there the bound is
      the length that a stored list can have. */
  lemma CapSafety(ledger: nat, timestamp: nat, ops: seq<Op>, j: nat, k: nat, owner: Address)
    requires j <= k <= |ops| && Listed(Run(Init(ledger, timestamp), ops[..j]), ByOwner, owner)
    requires ListOutlives(Init(ledger, timestamp), ops, j, k, ByOwner, owner)
    requires 0 < Run(Init(ledger, timestamp), ops[..j]).limit
    requires |Listing(Run(Init(ledger, timestamp), ops[..k]).owners, owner)| <= U32_MAX
    requires forall i :: j <= i <= k ==>
               Run(Init(ledger, timestamp), ops[..i]).limit == Run(Init(ledger, timestamp), ops[..j]).limit
    ensures var s := Run(Init(ledger, timestamp), ops[..j]);
            |OwnedIds(Run(Init(ledger, timestamp), ops[..k]), owner)| <= Max(s.limit, |OwnedIds(s, owner)|)
  {
    var s0 := Init(ledger, timestamp);
    hide Inv, Listed, OwnedIds, Run, ListOutlives, Listing;
    if Run(s0, ops[..j]).limit == U32_MAX {
      Reachable(ledger, timestamp, ops, j, k, ByOwner, owner);
      ListBoundsOwned(Run(s0, ops[..k]), owner);
    } else {
      CapBelowMax(ledger, timestamp, ops, j, k, owner);
    }
  }
}
