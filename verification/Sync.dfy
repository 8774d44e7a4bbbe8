/** Incremental sync: `get_alerts_modified_since(t)` returns everything that changed since a poll at
    timestamp t, so a client can bring an old snapshot up to date. */
module Sync {
  import opened Seqs
  import opened AlertModel
  import opened IndexLists
  import opened AlertInvariant
  import opened Refinement
  import opened Effects

  /** What a client keeps: the record of every live id. */
  function Picture(s: State): map<nat, AlertConfig> {
    map id | id in s.alerts :: s.alerts[id].value
  }

  ghost predicate Ascending(ids: seq<nat>) {
    forall i, j :: 0 <= i < j < |ids| ==> ids[i] < ids[j]
  }

  /** An old picture brought up to date: reported records replace or join the old ones, and ids that
      are no longer live are dropped. */
  function Merge(known: map<nat, AlertConfig>, reported: map<nat, AlertConfig>, live: set<nat>): map<nat, AlertConfig> {
    map id | id in live && (id in reported || id in known) :: if id in reported then reported[id] else known[id]
  }

  /** `get_alerts_modified_since(since)`: the ids it answers for, in id order. */
  function ModifiedIds(s: State, since: nat): seq<nat> {
    Scan(s, UpdatedIds(s.alerts, since))
  }

  /** Every record is either as in `base` or dated `since` or later. */
  ghost predicate Explained(base: Records, since: nat, alerts: Records) {
    forall id :: id in alerts ==>
      || (id in base && base[id].value == alerts[id].value)
      || alerts[id].value.updatedAt >= since
  }

  /** A write stamps the current time; everything else leaves the record as it was. */
  ghost predicate Stamped(s: State, alerts: Records) {
    forall id :: id in alerts ==>
      || (id in s.alerts && s.alerts[id].value == alerts[id].value)
      || alerts[id].value.updatedAt == s.timestamp
  }

  lemma EffectStamps(s: State, e: Effect)
    ensures Stamped(s, Do(s, e).state.alerts)
    ensures Do(s, e).state.timestamp >= s.timestamp
  {
    hide DoAdmit, DoEdit, DoTouch, DoRenew, DoRetarget, DoReassign, PutRecord;
    if Quiet(e) {
      hide Do;
      QuietEffect(s, e);
    } else if Rewrites(e) {
      hide Do;
      RewritingEffect(s, e);
    } else if e.Enroll? {
      hide DoEnroll;
      EnrollingEffect(s, e.owner, e.input, e.tags);
    } else if e.Erase? {
      hide DoErase;
      ErasingEffect(s, e.id, e.caller, e.asAdmin);
    }
  }

  lemma EffectExplained(s: State, e: Effect, base: Records, since: nat)
    requires Explained(base, since, s.alerts) && since <= s.timestamp
    ensures Explained(base, since, Do(s, e).state.alerts) && since <= Do(s, e).state.timestamp
  {
    hide Do;
    EffectStamps(s, e);
  }

  lemma {:induction false} PlanExplained(s: State, es: seq<Effect>, base: Records, since: nat)
    requires Explained(base, since, s.alerts) && since <= s.timestamp
    ensures Explained(base, since, DoAll(s, es).state.alerts) && since <= DoAll(s, es).state.timestamp
    decreases |es|
  {
    hide Do, Explained;
    if es != [] {
      PlanExplained(s, es[..|es| - 1], base, since);
      EffectExplained(DoAll(s, es[..|es| - 1]).state, es[|es| - 1], base, since);
    }
  }

  lemma {:induction false} RunExplained(s: State, ops: seq<Op>, base: Records, since: nat)
    requires Explained(base, since, s.alerts) && since <= s.timestamp
    ensures Explained(base, since, Run(s, ops).alerts) && since <= Run(s, ops).timestamp
    decreases |ops|
  {
    hide Explained, Plan, DoAll;
    if ops != [] {
      var t, op := Run(s, ops[..|ops| - 1]), ops[|ops| - 1];
      RunExplained(s, ops[..|ops| - 1], base, since);
      if Plan(t, op).Ok? { PlanExplained(t, Plan(t, op).value, base, since); }
    }
  }

  /** After any history from `s1` to `s2`, the ids reported since the time of `s1` are ascending, and
      patching their records over the still-live part of the `s1` picture gives the `s2` picture. */
  lemma SyncIsComplete(s1: State, ops: seq<Op>)
    requires Inv(s1)
    ensures var s2 := Run(s1, ops);
            var reported := ModifiedIds(s2, s1.timestamp);
            && Ascending(reported)
            && (forall id :: id in reported ==> id in s2.alerts)
            && Merge(Picture(s1), map id | id in reported :: s2.alerts[id].value, s2.alerts.Keys) == Picture(s2)
  {
    var s2, since := Run(s1, ops), s1.timestamp;
    assert Explained(s1.alerts, since, s1.alerts);
    hide Run, Inv, Only, Iota, Merge, Picture, Explained, ModifiedIds;
    RunExplained(s1, ops, s1.alerts, since);
    RunKeepsInv(s1, ops);
    ReportedIds(s2, since);
    MergeExplained(s1, s2, ModifiedIds(s2, since), since);
  }

  lemma MergeExplained(s1: State, s2: State, ids: seq<nat>, since: nat)
    requires Explained(s1.alerts, since, s2.alerts)
    requires forall id: nat :: id in ids <==> id in s2.alerts && s2.alerts[id].value.updatedAt >= since
    ensures Merge(Picture(s1), map id | id in ids :: s2.alerts[id].value, s2.alerts.Keys) == Picture(s2)
  {}

  /** The scan reports exactly the live ids dated `since` or later. */
  lemma ReportedIds(s: State, since: nat)
    requires Inv(s)
    ensures Ascending(ModifiedIds(s, since))
    ensures forall id: nat :: id in ModifiedIds(s, since) <==> id in s.alerts && s.alerts[id].value.updatedAt >= since
  {
    OnlyAscends(Iota(s.nextId), UpdatedIds(s.alerts, since));
    forall id | id in s.alerts ensures id in Iota(s.nextId) {
      assert id in OwnerOf(s.alerts);
    }
  }

  /** Filtering keeps ids in ascending order. */
  lemma {:induction false} OnlyAscends(s: seq<nat>, keep: set<nat>)
    requires Ascending(s)
    ensures Ascending(Only(s, keep))
  {
    if s != [] {
      var front, last := s[..|s| - 1], s[|s| - 1];
      OnlyAscends(front, keep);
      LastIsGreatest(s, Only(front, keep));
    }
  }

  lemma LastIsGreatest(s: seq<nat>, r: seq<nat>)
    requires s != [] && Ascending(s) && Ascending(r) && forall x :: x in r ==> x in s[..|s| - 1]
    ensures Ascending(r + [s[|s| - 1]])
  {
    forall i | 0 <= i < |r| ensures r[i] < s[|s| - 1] {
      assert r[i] in r;
      assert r[i] in s[..|s| - 1];
    }
  }

  /** In every reachable state a record was created no later than it was last updated, and updated
      no later than now. */
  lemma DatesInOrder(ledger: nat, timestamp: nat, ops: seq<Op>, id: nat)
    requires id in Run(Init(ledger, timestamp), ops).alerts
    ensures var s := Run(Init(ledger, timestamp), ops);
            s.alerts[id].value.createdAt <= s.alerts[id].value.updatedAt <= s.timestamp
  {
    InitInv(ledger, timestamp);
    RunKeepsInv(Init(ledger, timestamp), ops);
  }

  /** `get_alert_active` never contradicts the full record, in any reachable state. */
  lemma FlagNeverLies(ledger: nat, timestamp: nat, ops: seq<Op>, id: nat)
    requires id in Run(Init(ledger, timestamp), ops).flags
    ensures var s := Run(Init(ledger, timestamp), ops);
            && id in s.alerts
            && s.flags[id].value == s.alerts[id].value.active
            && s.flags[id].liveUntil <= s.alerts[id].liveUntil
  {
    InitInv(ledger, timestamp);
    RunKeepsInv(Init(ledger, timestamp), ops);
  }
}
