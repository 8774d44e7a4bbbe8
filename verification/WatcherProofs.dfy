/** Consistency of the watcher registry, the membership rebuilt from its events, and the permanence
    of a lapsed authorization. */
module WatcherProofs {
  import opened Host
  import opened Seqs
  import opened WatcherModel

  // ---------------------------------------------------------------- replaying the event log

  /** How one event changes an indexer's picture of the membership. */
  function Told(members: set<Address>, e: Event): set<Address> {
    match e
    case Registered(watcher) => members + {watcher}
    case Removed(watcher) => members - {watcher}
    case Replaced(_, added) => members + {added}
    case _ => members
  }

  function Members(events: seq<Event>): set<Address> {
    if events == [] then {} else Told(Members(events[..|events| - 1]), events[|events| - 1])
  }

  lemma MembersNext(events: seq<Event>, e: Event)
    ensures Members(events + [e]) == Told(Members(events), e)
  {
    assert (events + [e])[..|events|] == events;
  }

  /** The events rebuild exactly the list, as a set. */
  ghost predicate Mirrors(events: seq<Event>, watchers: seq<Address>) {
    forall w :: w in Members(events) <==> w in watchers
  }

  lemma {:induction false} AnnounceMirrors(events: seq<Event>, stored: seq<Address>, added: seq<Address>)
    requires Mirrors(events, stored)
    ensures Mirrors(events + Announce(added), stored + added)
    decreases |added|
  {
    if added == [] {
      assert events + Announce(added) == events && stored + added == stored;
    } else {
      var front, w := added[..|added| - 1], added[|added| - 1];
      AnnounceMirrors(events, stored, front);
      assert Announce(added) == Announce(front) + [Registered(w)];
      assert events + Announce(added) == (events + Announce(front)) + [Registered(w)];
      MembersNext(events + Announce(front), Registered(w));
      assert stored + added == (stored + front) + [w];
    }
  }

  /** Announcing the removal of every member leaves nobody. */
  lemma {:induction false} DismissEmpties(events: seq<Event>, watchers: seq<Address>)
    ensures forall w :: w in Members(events + Dismiss(watchers)) <==> w in Members(events) && w !in watchers
    decreases |watchers|
  {
    if watchers == [] {
      assert events + Dismiss(watchers) == events;
    } else {
      var front, w := watchers[..|watchers| - 1], watchers[|watchers| - 1];
      DismissEmpties(events, front);
      assert watchers == front + [w];
      assert Dismiss(watchers) == Dismiss(front) + [Removed(w)];
      assert events + Dismiss(watchers) == (events + Dismiss(front)) + [Removed(w)];
      MembersNext(events + Dismiss(front), Removed(w));
    }
  }

  lemma ReplaceMirrors(s: State, gone: Address, added: Address)
    requires Mirrors(s.events, s.watchers)
    ensures Mirrors(DoReplace(s, gone, added).events, DoReplace(s, gone, added).watchers)
  {
    MembersNext(s.events, Removed(gone));
    MembersNext(s.events + [Removed(gone)], Replaced(gone, added));
    assert s.events + [Removed(gone), Replaced(gone, added)] == (s.events + [Removed(gone)]) + [Replaced(gone, added)];
  }

  lemma FarewellMirrors(events: seq<Event>, caller: Address, admin: Address)
    ensures Members(events + Farewell(caller, admin)) == Members(events)
  {
    MembersNext(events, AdminRemoved(caller, admin));
    MembersNext(events + [AdminRemoved(caller, admin)], AdminSelfRemoved(caller));
    assert events + Farewell(caller, admin) ==
           (events + [AdminRemoved(caller, admin)]) + if caller == admin then [AdminSelfRemoved(caller)] else [];
  }

  lemma PerformMirrors(s: State, op: Op)
    requires s.admins.Some? && !op.Initialize? && !op.Advance? && Mirrors(s.events, s.watchers)
    requires Perform(s, op).Done?
    ensures Mirrors(Perform(s, op).state.events, Perform(s, op).state.watchers)
  {
    hide Members, DoReplace, Fresh, Announce, Dismiss, Without, Farewell;
    match op
    case AddAdmin(caller, admin) => MembersNext(s.events, AdminAdded(caller, admin));
    case RemoveAdmin(caller, admin) => FarewellMirrors(s.events, caller, admin);
    case TransferAdmin(caller, admin) => MembersNext(s.events, AdminTransferred(caller, admin));
    case Register(_, watcher, _) => MembersNext(s.events, Registered(watcher));
    case Remove(_, watcher) => MembersNext(s.events, Removed(watcher));
    case Replace(_, gone, added) => ReplaceMirrors(s, gone, added);
    case BatchRegister(_, batch) => AnnounceMirrors(s.events, s.watchers, Fresh(s.watchers, batch));
    case Renew(_, watcher, expiry) => MembersNext(s.events, Renewed(watcher, expiry));
    case SetPaused(caller, paused) => MembersNext(s.events, PauseSet(caller, paused));
    case Clear(_) => DismissEmpties(s.events, s.watchers);
  }

  // ---------------------------------------------------------------- consistency

  ghost predicate Consistent(s: State) {
    && NoDup(s.watchers)
    && |s.watchers| <= MAX_WATCHERS
    && s.count == |s.watchers|
    && (forall w :: w in s.expiries ==> w in s.watchers)
    && (s.admins.Some? ==> s.admins.value != [] && NoDup(s.admins.value))
  }

  ghost predicate Inv(s: State) {
    Consistent(s) && Mirrors(s.events, s.watchers)
  }

  lemma PerformConsistent(s: State, op: Op)
    requires s.admins.Some? && !op.Initialize? && !op.Advance? && Consistent(s)
    requires Perform(s, op).Done?
    ensures Consistent(Perform(s, op).state)
  {
    hide Fresh, Announce, Dismiss, Without;
    match op
    case Replace(_, gone, added) => ReplaceConsistent(s, gone, added);
    case _ =>
  }

  lemma ReplaceConsistent(s: State, gone: Address, added: Address)
    requires Consistent(s) && gone in s.watchers
    ensures Consistent(DoReplace(s, gone, added))
    ensures |DoReplace(s, gone, added).watchers| ==
            |s.watchers| - if added in s.watchers && added != gone then 1 else 0
  {
    hide Without;
  }

  lemma ApplyKeepsInv(s: State, op: Op)
    requires Inv(s)
    ensures Inv(Apply(s, op))
  {
    hide Consistent, Perform;
    if Exec(s, op).Done? {
      if op.Initialize? || op.Advance? {
        SettingsKeepInv(s, op);
      } else {
        PerformMirrors(s, op);
        PerformConsistent(s, op);
      }
    }
  }

  lemma SettingsKeepInv(s: State, op: Op)
    requires Inv(s) && (op.Initialize? || op.Advance?)
    ensures Inv(Apply(s, op))
  {
    hide Perform, Members;
    if op.Initialize? { MembersNext(s.events, AdminInitialized(op.admin)); }
  }

  /** In every reachable state the list is duplicate-free and within its maximum, the cached count is
      its length, only listed watchers have an expiry, an initialized registry has at least one admin
      and none twice, and folding the events gives exactly the membership. */
  lemma {:induction false} EveryRunIsConsistent(timestamp: nat, ops: seq<Op>)
    ensures Inv(Run(Init(timestamp), ops))
    decreases |ops|
  {
    if ops != [] {
      hide Inv, Apply;
      EveryRunIsConsistent(timestamp, ops[..|ops| - 1]);
      ApplyKeepsInv(Run(Init(timestamp), ops[..|ops| - 1]), ops[|ops| - 1]);
    }
  }

  // ---------------------------------------------------------------- lapsed authorizations

  /** Whether an expiry still lies ahead. */
  predicate Ahead(s: State, expiry: Option<nat>) {
    expiry.Some? ==> s.timestamp <= expiry.value
  }

  /** The only calls that authorize someone who is not: for a watcher still listed, a renewal into the
      future or without expiry, or replacing the watcher by itself; for anybody else, being listed.
      Registering a lapsed watcher again, alone or in a batch, or replacing another watcher by it,
      does not. */
  predicate Readmits(s: State, op: Op, w: Address) {
    && Exec(s, op).Done?
    && if w in s.watchers
       then (op.Renew? && op.watcher == w && Ahead(s, op.expiry)) || (op.Replace? && op.gone == op.added == w)
       else || (op.Register? && op.watcher == w && Ahead(s, op.expiry))
            || (op.BatchRegister? && w in op.batch)
            || (op.Replace? && op.added == w)
  }

  lemma ReadmittedExactly(s: State, op: Op, w: Address)
    requires Inv(s) && !Authorized(s, w)
    ensures Authorized(Apply(s, op), w) <==> Readmits(s, op, w)
  {
    hide Fresh, Announce, Dismiss, Without, Farewell;
  }

  /** Once past its expiry a watcher stays unauthorized, whatever is called and however much time
      passes, until one of those calls succeeds. */
  lemma {:induction false} LapseIsPermanent(s: State, ops: seq<Op>, k: nat, w: Address)
    requires Inv(s) && !Authorized(s, w) && k <= |ops|
    requires forall i :: 0 <= i < k ==> !Readmits(Run(s, ops[..i]), ops[i], w)
    ensures Inv(Run(s, ops[..k])) && !Authorized(Run(s, ops[..k]), w)
  {
    hide Inv, Readmits, Apply, Authorized;
    if k != 0 {
      LapseIsPermanent(s, ops, k - 1, w);
      RunNext(s, ops, k - 1);
      ApplyKeepsInv(Run(s, ops[..k - 1]), ops[k - 1]);
      ReadmittedExactly(Run(s, ops[..k - 1]), ops[k - 1], w);
    } else {
      assert ops[..0] == [];
      NothingRun(s);
    }
  }

  lemma NothingRun(s: State)
    ensures Run(s, []) == s
  {}
}
