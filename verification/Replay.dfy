/** What the event log tells about targets and `active` fields, beyond who owns what. Retargeting and
    `deactivate_all_alerts` publish nothing, and they alone make the log wrong. */
module Replay {
  import opened Host
  import opened Seqs
  import opened AlertModel
  import opened AlertInvariant
  import opened Effects
  import EntryPoints

  /** What an indexer can know of an alert. */
  datatype Fact = Fact(target: Address, active: bool)

  function Heard(facts: map<nat, Fact>, e: Event): map<nat, Fact> {
    match e
    case Registered(id, _, target) => facts[id := Fact(target, true)]
    case Removed(_, _) => facts - {e.id}
    case RemovedByAdmin(_, _, _) => facts - {e.id}
    case Transferred(_, _, _) => facts
    case Note(notice) =>
      if notice.Updated? && notice.id in facts
      then facts[notice.id := facts[notice.id].(active := notice.active)]
      else facts
  }

  function Known(events: seq<Event>): map<nat, Fact> {
    if events == [] then map[] else Heard(Known(events[..|events| - 1]), events[|events| - 1])
  }

  lemma KnownNext(events: seq<Event>, e: Event)
    ensures Known(events + [e]) == Heard(Known(events), e)
  {
    assert (events + [e])[..|events|] == events;
  }

  function FactOf(c: AlertConfig): Fact { Fact(c.target, c.active) }

  // ---------------------------------------------------------------- effects

  ghost predicate SameFact(before: map<nat, Fact>, after: map<nat, Fact>, id: nat) {
    (id in before <==> id in after) && (id in before ==> before[id] == after[id])
  }

  /** An alert live after an effect is as before and so is what is known of it, or it is new and known.
      With `dim` nothing is new, and it may have been switched off. */
  ghost predicate FactKept(s: State, t: State, id: nat, dim: bool) {
    && t.nextId >= s.nextId
    && (id in t.alerts ==>
          if id in s.alerts then
            var c, d := FactOf(s.alerts[id].value), FactOf(t.alerts[id].value);
            && SameFact(Known(s.events), Known(t.events), id)
            && (d == c || (dim && d == c.(active := false)))
          else
            && !dim && id >= s.nextId && id in Known(t.events)
            && Known(t.events)[id] == FactOf(t.alerts[id].value))
  }

  /** The effects that change the fact or the log of `id`. */
  predicate Tells(e: Effect, id: nat) {
    || (e.Edit? && e.id == id && (e.patch.Rules? || e.patch.Active?))
    || (e.Retarget? && e.id == id)
    || (e.Publish? && e.notice.Updated? && e.notice.id == id)
  }

  lemma EditFact(s: State, i: nat, patch: Patch, id: nat, dim: bool)
    requires i == id ==> !patch.Rules? && (patch.Active? ==> dim && !patch.active)
    ensures FactKept(s, DoEdit(s, i, patch).state, id, dim)
  {
    hide Known;
  }

  lemma EnrollFact(s: State, owner: Address, input: AlertInput, tags: Option<seq<string>>, id: nat)
    requires s.nextId !in s.alerts && (s.nextId < U64_MAX ==> DoEnroll(s, owner, input, tags).Done?)
    ensures FactKept(s, DoEnroll(s, owner, input, tags).state, id, false)
  {
    hide Known, Store, Listing;
    KnownNext(s.events, Registered(s.nextId, owner, input.target));
  }

  lemma EraseFact(s: State, i: nat, caller: Address, asAdmin: bool, id: nat, dim: bool)
    ensures FactKept(s, DoErase(s, i, caller, asAdmin).state, id, dim)
  {
    hide Known, Store, Listing, Without;
    if i in s.alerts {
      KnownNext(s.events, if asAdmin then RemovedByAdmin(i, caller, s.alerts[i].value.owner) else Removed(i, caller));
    }
  }

  lemma ReassignFact(s: State, i: nat, newOwner: Address, id: nat, dim: bool)
    ensures FactKept(s, DoReassign(s, i, newOwner).state, id, dim)
  {
    hide Known, Store, Listing, Without;
    if i in s.alerts { KnownNext(s.events, Transferred(i, s.alerts[i].value.owner, newOwner)); }
  }

  lemma RetargetFact(s: State, i: nat, target: Address, id: nat, dim: bool)
    requires i != id
    ensures FactKept(s, DoRetarget(s, i, target).state, id, dim)
  {
    hide Known, Store, Listing, Without;
  }

  lemma RenewFact(s: State, i: nat, ttl: nat, id: nat, dim: bool)
    ensures FactKept(s, DoRenew(s, i, ttl).state, id, dim)
  {
    hide Known, DoRenew;
    RenewIsQuiet(s, i, ttl);
    KnownNext(s.events, Note(Bumped(i, ttl)));
  }

  lemma QuietFact(s: State, t: State, id: nat, dim: bool)
    requires forall i :: i in t.alerts ==> i in s.alerts && t.alerts[i].value == s.alerts[i].value
    requires t.nextId == s.nextId && t.events == s.events
    ensures FactKept(s, t, id, dim)
  {
    hide Known;
  }

  lemma PublishFact(s: State, notice: Notice, id: nat, dim: bool)
    requires !(notice.Updated? && notice.id == id)
    ensures FactKept(s, Emit(s, Note(notice)), id, dim)
  {
    hide Known;
    KnownNext(s.events, Note(notice));
  }

  lemma SilentEffect(s: State, e: Effect)
    requires e.Admit? || e.TouchIndexes? || e.Keep? || e.PutLimit? || e.PutPaused? || e.PutAdmins? || e.Wait?
    ensures var t := Do(s, e).state;
            && (forall i :: i in t.alerts ==> i in s.alerts && t.alerts[i].value == s.alerts[i].value)
            && t.nextId == s.nextId && t.events == s.events
  {
    hide Prune, DoEdit, DoEnroll, DoErase, DoRetarget, DoReassign, DoTouch, DoRenew, PutRecord;
    if e.TouchIndexes? && e.id in s.alerts { TouchIsQuiet(s, s.alerts[e.id].value, DEFAULT_TTL); }
  }

  lemma EffectKeepsFact(s: State, e: Effect, id: nat, dim: bool)
    requires Inv(s) && !Tells(e, id) && (e.Deactivate? ==> dim) && (e.Enroll? ==> !dim)
    ensures FactKept(s, Do(s, e).state, id, dim)
  {
    BelowCounter(s);
    hide Inv, FactKept, DoAdmit, DoEdit, DoEnroll, DoErase, DoRetarget, DoReassign, DoTouch, DoRenew, DoWait, PutRecord;
    match e
    case Enroll(owner, input, tags) =>
      EnrollKeeps(s, owner, input, tags);
      EnrollFact(s, owner, input, tags, id);
    case Edit(i, patch) => EditFact(s, i, patch, id, dim);
    case Deactivate(i) => DeactivateFact(s, i, id);
    case Erase(i, caller, asAdmin) => EraseFact(s, i, caller, asAdmin, id, dim);
    case Retarget(i, to) => RetargetFact(s, i, to, id, dim);
    case Reassign(i, to) => ReassignFact(s, i, to, id, dim);
    case Renew(i, ttl) => RenewFact(s, i, ttl, id, dim);
    case Publish(notice) => PublishFact(s, notice, id, dim);
    case _ =>
      hide Do;
      SilentEffect(s, e);
      QuietFact(s, Do(s, e).state, id, dim);
  }

  lemma DeactivateFact(s: State, i: nat, id: nat)
    ensures FactKept(s, Do(s, Deactivate(i)).state, id, true)
  {
    hide FactKept;
    if i in s.alerts && s.alerts[i].value.active {
      EditFact(s, i, Active(false), id, true);
    } else {
      QuietFact(s, s, id, true);
    }
  }

  lemma FactKeptTwice(s: State, t: State, u: State, id: nat, dim: bool)
    requires FactKept(s, t, id, dim) && FactKept(t, u, id, dim)
    requires id in s.alerts ==> id < s.nextId
    ensures FactKept(s, u, id, dim)
  {
    hide Known;
  }

  lemma {:induction false} PlanKeepsFact(s: State, es: seq<Effect>, id: nat, dim: bool)
    requires Inv(s) && forall e :: e in es ==> !Tells(e, id) && (e.Deactivate? ==> dim) && (e.Enroll? ==> !dim)
    ensures FactKept(s, DoAll(s, es).state, id, dim)
    decreases |es|
  {
    BelowCounter(s);
    QuietFact(s, s, id, dim);
    hide Inv, Do, Tells, FactKept;
    if es != [] {
      var front, e := es[..|es| - 1], es[|es| - 1];
      assert e in es;
      PlanKeepsFact(s, front, id, dim);
      PlanKeepsInv(s, front);
      if DoAll(s, front).Done? {
        EffectKeepsFact(DoAll(s, front).state, e, id, dim);
        FactKeptTwice(s, DoAll(s, front).state, Do(DoAll(s, front).state, e).state, id, dim);
      }
    }
  }

  // ---------------------------------------------------------------- calls

  /** The calls that publish the `active` field of `id`. */
  predicate Announces(op: Op, id: nat) {
    || (op.SetActiveByAdmin? && op.id == id)
    || (op.UpdateAlert? && op.id == id)
    || (op.UpdateLabel? && op.id == id)
  }

  predicate Moves(op: Op, id: nat) { op.UpdateTarget? && op.id == id }

  lemma PlanTellsNothing(s: State, op: Op, id: nat)
    requires Plan(s, op).Ok? && !Announces(op, id) && !Moves(op, id)
    ensures forall e :: e in Plan(s, op).value ==>
              !Tells(e, id) && (e.Deactivate? ==> op.DeactivateAll?) && (e.Enroll? ==> !op.DeactivateAll?)
  {}

  /** An edit of `id`, then the announcement of its `active` field. */
  lemma AnnouncedEdit(s: State, id: nat, patch: Patch, caller: Address)
    requires id in s.alerts && id in Known(s.events) && !patch.Confirm?
    ensures var c := Patched(s.alerts[id].value, patch, s.timestamp);
            var t := Emit(DoEdit(s, id, patch).state, Note(Updated(id, caller, c.active)));
            && id in Known(t.events) && Known(t.events)[id] == Fact(Known(s.events)[id].target, c.active)
  {
    hide Known;
    KnownNext(s.events, Note(Updated(id, caller, Patched(s.alerts[id].value, patch, s.timestamp).active)));
  }

  lemma AnnouncingPlan(s: State, op: Op, id: nat)
    requires Announces(op, id) && Exec(s, op).Done? && id in s.alerts
    ensures var patch := match op
                         case SetActiveByAdmin(_, _, active) => Active(active)
                         case UpdateAlert(_, _, rules, active) => Rules(rules, active)
                         case _ => Label(op.name);
            var caller := if op.SetActiveByAdmin? then op.admin else op.caller;
            var c := Patched(s.alerts[id].value, patch, s.timestamp);
            && Apply(s, op).events == Emit(DoEdit(s, id, patch).state, Note(Updated(id, caller, c.active))).events
            && Apply(s, op).alerts == DoEdit(s, id, patch).state.alerts
            && Apply(s, op).nextId == s.nextId
  {
    hide Exec, DoAll, DoTouch, Put, ValidLabel, RuleFault;
    match op
    case SetActiveByAdmin(admin, _, active) => EntryPoints.SetActiveByAdmin(s, admin, id, active);
    case UpdateAlert(caller, _, rules, active) =>
      EntryPoints.UpdateAlert(s, caller, id, rules, active);
      EntryPoints.TouchingEdit(s, id, Rules(rules, active), Updated(id, caller, active));
      TouchIsQuiet(DoEdit(s, id, Rules(rules, active)).state, Patched(s.alerts[id].value, Rules(rules, active), s.timestamp), DEFAULT_TTL);
    case UpdateLabel(caller, _, name) =>
      EntryPoints.UpdateLabel(s, caller, id, name);
      EntryPoints.TouchingEdit(s, id, Label(name), Updated(id, caller, s.alerts[id].value.active));
      TouchIsQuiet(DoEdit(s, id, Label(name)).state, Patched(s.alerts[id].value, Label(name), s.timestamp), DEFAULT_TTL);
  }

  /** After a successful call that announces it, the log has the `active` field right. */
  lemma AnnouncedStep(s: State, op: Op, id: nat)
    requires Announces(op, id) && Exec(s, op).Done? && id in s.alerts && id in Known(s.events)
    ensures var t := Apply(s, op);
            && t.nextId == s.nextId && id in t.alerts && id in Known(t.events)
            && t.alerts[id].value.target == s.alerts[id].value.target
            && Known(t.events)[id] == Fact(Known(s.events)[id].target, t.alerts[id].value.active)
  {
    hide Exec, Known, Apply;
    AnnouncingPlan(s, op, id);
    match op
    case SetActiveByAdmin(admin, _, active) => AnnouncedEdit(s, id, Active(active), admin);
    case UpdateAlert(caller, _, rules, active) => AnnouncedEdit(s, id, Rules(rules, active), caller);
    case UpdateLabel(caller, _, name) => AnnouncedEdit(s, id, Label(name), caller);
  }

  /** A successful retargeting of `id` is not in the log. */
  lemma MovedStep(s: State, op: Op, id: nat)
    requires Moves(op, id) && Exec(s, op).Done?
    ensures var t := Apply(s, op);
            && t.nextId == s.nextId && id in s.alerts && id in t.alerts && t.events == s.events
            && FactOf(t.alerts[id].value) == FactOf(s.alerts[id].value).(target := op.target)
  {
    hide Exec, Store, Listing, Without;
    EntryPoints.UpdateTarget(s, op.caller, id, op.target);
  }

  /** One call, whatever it is, seen from an alert that is live afterwards. */
  ghost predicate Stepped(s: State, t: State, op: Op, id: nat) {
    && t.nextId >= s.nextId
    && (id in t.alerts ==> id in Known(t.events))
    && (id in t.alerts && id !in s.alerts ==>
          id >= s.nextId && !Moves(op, id) && Known(t.events)[id] == FactOf(t.alerts[id].value))
    && (id in t.alerts && id in s.alerts && id in Known(s.events) ==>
          var k, l := Known(s.events)[id], Known(t.events)[id];
          var c, d := FactOf(s.alerts[id].value), FactOf(t.alerts[id].value);
          && l.target == k.target
          && d.target == (if Moves(op, id) && Exec(s, op).Done? then op.target else c.target)
          && (if Announces(op, id) && Exec(s, op).Done? then l.active == d.active
              else l.active == k.active && (d.active == c.active || (op.DeactivateAll? && c.active))))
  }

  lemma OtherStep(s: State, op: Op, id: nat)
    requires Inv(s) && Exec(s, op).Done? && !Announces(op, id) && !Moves(op, id)
    ensures FactKept(s, Apply(s, op), id, op.DeactivateAll?)
  {
    hide Inv, DoAll, Plan, Known, Tells, Announces, Moves, FactKept;
    PlanTellsNothing(s, op, id);
    PlanKeepsFact(s, Plan(s, op).value, id, op.DeactivateAll?);
  }

  lemma CallStep(s: State, op: Op, id: nat)
    requires Inv(s) && (id in s.alerts ==> id in Known(s.events))
    ensures Stepped(s, Apply(s, op), op, id)
  {
    hide Inv, Exec, Known;
    if Exec(s, op).Done? {
      if Announces(op, id) {
        OwnIdIsLive(s, op, id);
        AnnouncedStep(s, op, id);
      } else if Moves(op, id) {
        MovedStep(s, op, id);
      } else {
        OtherStep(s, op, id);
      }
    }
  }

  lemma OwnIdIsLive(s: State, op: Op, id: nat)
    requires Announces(op, id) && Exec(s, op).Done?
    ensures id in s.alerts
  {
    hide DoAll, RuleFault;
  }

  // ---------------------------------------------------------------- whole histories

  /** The last successful retargeting of `id` before call `k` took it away from what the log says. */
  ghost predicate MovedAway(s: State, ops: seq<Op>, i: nat, k: nat, id: nat, told: Address)
    requires k <= |ops|
  {
    && i < k && Moves(ops[i], id) && Succeeds(s, ops, i) && ops[i].target != told
    && forall m :: i < m < k ==> !(Moves(ops[m], id) && Succeeds(s, ops, m))
  }

  /** Call `i` switched `id` off without an event, and no call before `k` has announced it since. */
  ghost predicate Silenced(s: State, ops: seq<Op>, i: nat, k: nat, id: nat)
    requires k <= |ops|
  {
    && i < k && ops[i].DeactivateAll? && Switches(Run(s, ops[..i]), ops[i], id)
    && forall m :: i < m < k ==> !(Announces(ops[m], id) && Succeeds(s, ops, m))
  }

  predicate Switches(s: State, op: Op, id: nat) {
    id in s.alerts && s.alerts[id].value.active && id in Apply(s, op).alerts && !Apply(s, op).alerts[id].value.active
  }

  ghost predicate TargetOff(s: State, ops: seq<Op>, k: nat, id: nat, told: Address)
    requires k <= |ops|
  {
    exists i: nat :: MovedAway(s, ops, i, k, id, told)
  }

  ghost predicate ActiveOff(s: State, ops: seq<Op>, k: nat, id: nat)
    requires k <= |ops|
  {
    exists i: nat :: Silenced(s, ops, i, k, id)
  }

  lemma TargetOffNext(s: State, ops: seq<Op>, k: nat, id: nat, told: Address)
    requires k < |ops|
    ensures TargetOff(s, ops, k + 1, id, told) <==>
            if Moves(ops[k], id) && Succeeds(s, ops, k) then ops[k].target != told else TargetOff(s, ops, k, id, told)
  {
    hide Succeeds;
    if Moves(ops[k], id) && Succeeds(s, ops, k) {
      if ops[k].target != told { assert MovedAway(s, ops, k, k + 1, id, told); }
    } else {
      if TargetOff(s, ops, k, id, told) {
        var i: nat :| MovedAway(s, ops, i, k, id, told);
        assert MovedAway(s, ops, i, k + 1, id, told);
      }
      if TargetOff(s, ops, k + 1, id, told) {
        var i: nat :| MovedAway(s, ops, i, k + 1, id, told);
        assert MovedAway(s, ops, i, k, id, told);
      }
    }
  }

  lemma ActiveOffNext(s: State, ops: seq<Op>, k: nat, id: nat)
    requires k < |ops|
    ensures ActiveOff(s, ops, k + 1, id) <==>
            || (ops[k].DeactivateAll? && Switches(Run(s, ops[..k]), ops[k], id))
            || (!(Announces(ops[k], id) && Succeeds(s, ops, k)) && ActiveOff(s, ops, k, id))
  {
    hide Succeeds, Switches, Run;
    if ops[k].DeactivateAll? && Switches(Run(s, ops[..k]), ops[k], id) {
      assert Silenced(s, ops, k, k + 1, id);
    }
    if !(Announces(ops[k], id) && Succeeds(s, ops, k)) && ActiveOff(s, ops, k, id) {
      var i: nat :| Silenced(s, ops, i, k, id);
      assert Silenced(s, ops, i, k + 1, id);
    }
    if ActiveOff(s, ops, k + 1, id) {
      var i: nat :| Silenced(s, ops, i, k + 1, id);
      assert i == k || Silenced(s, ops, i, k, id);
    }
  }

  lemma NotYet(s: State, op: Op, id: nat)
    requires Inv(s) && id >= s.nextId
    ensures Moves(op, id) ==> Exec(s, op).Failed?
    ensures !Switches(s, op, id)
  {
    BelowCounter(s);
    hide Inv, Exec;
    if Moves(op, id) && Exec(s, op).Done? { MovedStep(s, op, id); }
  }

  /** Nothing was moved or switched off before it existed. */
  lemma {:induction false} NothingOff(s: State, ops: seq<Op>, k: nat, id: nat)
    requires Inv(s) && k <= |ops| && id >= Run(s, ops[..k]).nextId && (id in s.alerts ==> id in Known(s.events))
    ensures forall i :: 0 <= i < k && Moves(ops[i], id) ==> !Succeeds(s, ops, i)
    ensures forall i :: 0 <= i < k ==> !Switches(Run(s, ops[..i]), ops[i], id)
    decreases k
  {
    hide Inv, Known, Exec, Run, Switches, Apply;
    if k != 0 {
      KnownThrough(s, ops, k - 1, id);
      RunNext(s, ops, k - 1);
      RunKeepsInv(s, ops[..k - 1]);
      CallStep(Run(s, ops[..k - 1]), ops[k - 1], id);
      NothingOff(s, ops, k - 1, id);
      NotYet(Run(s, ops[..k - 1]), ops[k - 1], id);
    }
  }

  /** The log knows every live alert. */
  lemma {:induction false} KnownThrough(s: State, ops: seq<Op>, k: nat, id: nat)
    requires Inv(s) && k <= |ops| && (id in s.alerts ==> id in Known(s.events))
    ensures id in Run(s, ops[..k]).alerts ==> id in Known(Run(s, ops[..k]).events)
    decreases k
  {
    hide Inv, Apply, Known;
    if k == 0 {
      assert ops[..0] == [];
    } else {
      RunNext(s, ops, k - 1);
      RunKeepsInv(s, ops[..k - 1]);
      KnownThrough(s, ops, k - 1, id);
      CallStep(Run(s, ops[..k - 1]), ops[k - 1], id);
    }
  }

  /** What the log tells of a live alert: the target it was registered with, which is its present one
      unless the last retargeting took it elsewhere; and its `active` field, unless it was switched off
      by `deactivate_all_alerts` and has not been announced since. Each "unless" is exact. */
  ghost predicate ToldExactly(s0: State, ops: seq<Op>, k: nat, id: nat)
    requires k <= |ops|
  {
    var s := Run(s0, ops[..k]);
    && id in s.alerts && id in Known(s.events)
    && var fact := Known(s.events)[id];
    && (fact.target != s.alerts[id].value.target <==> TargetOff(s0, ops, k, id, fact.target))
    && (fact.active != s.alerts[id].value.active <==> ActiveOff(s0, ops, k, id))
    && (s.alerts[id].value.active ==> fact.active)
  }

  lemma ToldNext(s0: State, ops: seq<Op>, k: nat, id: nat)
    requires Inv(s0) && k < |ops| && ToldExactly(s0, ops, k, id) && id in Run(s0, ops[..k + 1]).alerts
    ensures ToldExactly(s0, ops, k + 1, id)
  {
    hide Inv, Known, Apply, Run, TargetOff, ActiveOff;
    var s, op := Run(s0, ops[..k]), ops[k];
    RunKeepsInv(s0, ops[..k]);
    RunNext(s0, ops, k);
    CallStep(s, op, id);
    TargetOffNext(s0, ops, k, id, Known(s.events)[id].target);
    ActiveOffNext(s0, ops, k, id);
  }

  lemma ToldAnew(s0: State, ops: seq<Op>, k: nat, id: nat)
    requires Inv(s0) && k < |ops| && (id in s0.alerts ==> id in Known(s0.events))
    requires id !in Run(s0, ops[..k]).alerts && id in Run(s0, ops[..k + 1]).alerts
    ensures ToldExactly(s0, ops, k + 1, id)
  {
    hide Inv, Known, Apply, Run, TargetOff, ActiveOff;
    var s, op := Run(s0, ops[..k]), ops[k];
    RunKeepsInv(s0, ops[..k]);
    RunNext(s0, ops, k);
    CallStep(s, op, id);
    var told := Known(Run(s0, ops[..k + 1]).events)[id].target;
    TargetOffNext(s0, ops, k, id, told);
    ActiveOffNext(s0, ops, k, id);
    NothingOff(s0, ops, k, id);
    NeverOff(s0, ops, k, id, told);
  }

  lemma {:induction false} FactReplay(ledger: nat, timestamp: nat, ops: seq<Op>, k: nat, id: nat)
    requires k <= |ops| && id in Run(Init(ledger, timestamp), ops[..k]).alerts
    ensures ToldExactly(Init(ledger, timestamp), ops, k, id)
    decreases k
  {
    var s0 := Init(ledger, timestamp);
    InitInv(ledger, timestamp);
    assert ops[..0] == [];
    if k != 0 {
      hide Inv, Known, Exec, Run, ToldExactly;
      if id in Run(s0, ops[..k - 1]).alerts {
        FactReplay(ledger, timestamp, ops, k - 1, id);
        ToldNext(s0, ops, k - 1, id);
      } else {
        ToldAnew(s0, ops, k - 1, id);
      }
    }
  }

  lemma NeverOff(s: State, ops: seq<Op>, k: nat, id: nat, told: Address)
    requires k <= |ops|
    requires forall i :: 0 <= i < k && Moves(ops[i], id) ==> !Succeeds(s, ops, i)
    requires forall i :: 0 <= i < k ==> !Switches(Run(s, ops[..i]), ops[i], id)
    ensures !TargetOff(s, ops, k, id, told) && !ActiveOff(s, ops, k, id)
  {
    hide Succeeds, Switches, Moves, Run;
  }
}
