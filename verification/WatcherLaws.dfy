/** What each call of the watcher registry does to the membership, to every expiry, to the admins and to the
    log, and when it fails. */
module WatcherLaws {
  import opened Host
  import opened Seqs
  import opened WatcherModel
  import opened WatcherProofs

  // ---------------------------------------------------------------- members and expiries

  /** Who is listed after a successful call. */
  predicate ListedAfter(s: State, op: Op, w: Address) {
    match op
    case Register(_, watcher, _) => w in s.watchers || w == watcher
    case Remove(_, watcher) => w in s.watchers && w != watcher
    case Replace(_, gone, added) => (w in s.watchers && w != gone) || w == added
    case BatchRegister(_, batch) => w in s.watchers || w in batch
    case Clear(_) => false
    case _ => w in s.watchers
  }

  function ExpiryOf(s: State, w: Address): Option<nat> {
    if w in s.expiries then Some(s.expiries[w]) else None
  }

  /** The expiry of each address after a successful call. */
  function ExpiryAfter(s: State, op: Op, w: Address): Option<nat> {
    match op
    case Register(_, watcher, expiry) => if w == watcher && w !in s.watchers then expiry else ExpiryOf(s, w)
    case Remove(_, watcher) => if w == watcher then None else ExpiryOf(s, w)
    case Replace(_, gone, _) => if w == gone then None else ExpiryOf(s, w)
    case Renew(_, watcher, expiry) => if w == watcher then expiry else ExpiryOf(s, w)
    case Clear(_) => None
    case _ => ExpiryOf(s, w)
  }

  lemma MembersExactly(s: State, op: Op, w: Address)
    requires Exec(s, op).Done?
    ensures w in Apply(s, op).watchers <==> ListedAfter(s, op, w)
  {
    hide Announce, Dismiss, Farewell, Fresh, Without;
    if op.BatchRegister? { assert w in s.watchers + Fresh(s.watchers, op.batch) <==> w in s.watchers || w in op.batch; }
  }

  lemma ExpiriesExactly(s: State, op: Op, w: Address)
    requires Exec(s, op).Done?
    ensures ExpiryOf(Apply(s, op), w) == ExpiryAfter(s, op, w)
  {
    hide Announce, Dismiss, Farewell, Fresh, Without;
  }

  /** The order of the list: newcomers go to the end, and the others keep their order. */
  lemma OrderExactly(s: State, op: Op)
    requires Exec(s, op).Done?
    ensures var t := Apply(s, op);
            match op
            case Register(_, watcher, _) =>
              t.watchers == if watcher in s.watchers then s.watchers else s.watchers + [watcher]
            case Remove(_, watcher) => t.watchers == Without(s.watchers, watcher)
            case Replace(_, gone, added) =>
              var rest := Without(s.watchers, gone);
              t.watchers == if added in rest then rest else rest + [added]
            case BatchRegister(_, _) => s.watchers <= t.watchers
            case Clear(_) => t.watchers == []
            case _ => t.watchers == s.watchers
  {
    hide Announce, Dismiss, Farewell, Fresh, Without;
  }

  // ---------------------------------------------------------------- authorization, lost and gained

  /** The calls, or the time, that take the authorization of `w` away. */
  predicate Revokes(s: State, op: Op, w: Address) {
    && Exec(s, op).Done?
    && (|| (op.Remove? && op.watcher == w)
        || (op.Replace? && op.gone == w && op.added != w)
        || op.Clear?
        || (op.Renew? && op.watcher == w && op.expiry.Some? && op.expiry.value < s.timestamp)
        || (op.Advance? && w in s.expiries && s.expiries[w] < s.timestamp + op.seconds))
  }

  /** An authorized watcher loses its authorization exactly by being removed, replaced by another, cleared
      with all others, renewed to a past expiry, or outlasting its expiry. */
  lemma RevokedExactly(s: State, op: Op, w: Address)
    requires Authorized(s, w)
    ensures !Authorized(Apply(s, op), w) <==> Revokes(s, op, w)
  {
    hide Exec, Apply;
    if Exec(s, op).Done? {
      MembersExactly(s, op, w);
      ExpiriesExactly(s, op, w);
      ClockExactly(s, op);
    } else {
      RefusedChangesNothing(s, op);
    }
  }

  lemma ClockExactly(s: State, op: Op)
    requires Exec(s, op).Done?
    ensures Apply(s, op).timestamp == s.timestamp + if op.Advance? then op.seconds else 0
  {
    hide Announce, Dismiss, Farewell, Fresh, Without;
  }

  lemma RefusedChangesNothing(s: State, op: Op)
    requires Exec(s, op).Failed?
    ensures Apply(s, op) == s
  {
    hide Exec;
  }

  ghost predicate AuthorizedThrough(s: State, ops: seq<Op>, k: nat, w: Address)
    requires k <= |ops|
  {
    forall i :: 0 <= i <= k ==> Authorized(Run(s, ops[..i]), w)
  }

  lemma OneCallMore(s: State, ops: seq<Op>, k: nat, w: Address)
    requires k < |ops|
    ensures AuthorizedThrough(s, ops, k + 1, w) <==> AuthorizedThrough(s, ops, k, w) && Authorized(Run(s, ops[..k + 1]), w)
    ensures AuthorizedThrough(s, ops, k, w) ==> Authorized(Run(s, ops[..k]), w)
  {
    hide Run, Authorized;
  }

  /** Over any history an authorized watcher stays authorized throughout if and only if nothing of that
      kind happens. */
  lemma {:induction false} AuthorizationHolds(s: State, ops: seq<Op>, k: nat, w: Address)
    requires Authorized(s, w) && k <= |ops|
    ensures AuthorizedThrough(s, ops, k, w) <==> forall i :: 0 <= i < k ==> !Revokes(Run(s, ops[..i]), ops[i], w)
  {
    if k == 0 {
      assert ops[..0] == [];
    } else {
      hide Revokes, Apply, Authorized, AuthorizedThrough, Run;
      AuthorizationHolds(s, ops, k - 1, w);
      OneCallMore(s, ops, k - 1, w);
      RunNext(s, ops, k - 1);
      if AuthorizedThrough(s, ops, k - 1, w) { RevokedExactly(Run(s, ops[..k - 1]), ops[k - 1], w); }
    }
  }

  // ---------------------------------------------------------------- settings, count and log

  /** The events of a successful call. */
  ghost predicate Publishes(s: State, t: State, op: Op) {
    match op
    case Initialize(admin) => t.events == s.events + [AdminInitialized(admin)]
    case AddAdmin(caller, admin) =>
      t.events == s.events + if s.admins.Some? && admin in s.admins.value then [] else [AdminAdded(caller, admin)]
    case RemoveAdmin(caller, admin) =>
      t.events == s.events + [AdminRemoved(caller, admin)] + if caller == admin then [AdminSelfRemoved(caller)] else []
    case TransferAdmin(caller, admin) => t.events == s.events + [AdminTransferred(caller, admin)]
    case Register(_, watcher, _) => t.events == s.events + if watcher in s.watchers then [] else [Registered(watcher)]
    case Remove(_, watcher) => t.events == s.events + [Removed(watcher)]
    case Replace(_, gone, added) => t.events == s.events + [Removed(gone), Replaced(gone, added)]
    case BatchRegister(_, _) =>
      && s.events <= t.events && s.watchers <= t.watchers
      && var added, news := t.watchers[|s.watchers|..], t.events[|s.events|..];
      && |news| == |added| && forall i :: 0 <= i < |news| ==> news[i] == Registered(added[i])
    case Renew(_, watcher, expiry) => t.events == s.events + [Renewed(watcher, expiry)]
    case SetPaused(caller, paused) => t.events == s.events + [PauseSet(caller, paused)]
    case Clear(_) =>
      && s.events <= t.events
      && var news := t.events[|s.events|..];
      && |news| == |s.watchers| && forall i :: 0 <= i < |news| ==> news[i] == Removed(s.watchers[i])
    case Advance(_) => t.events == s.events
  }

  /** The admins, the pause flag, the clock and the log after a successful call. */
  lemma SettingsExactly(s: State, op: Op)
    requires Exec(s, op).Done?
    ensures var t := Apply(s, op);
            && t.paused == (if op.SetPaused? then op.paused else s.paused)
            && t.timestamp == s.timestamp + (if op.Advance? then op.seconds else 0)
            && t.admins == match op
                           case Initialize(admin) => Some([admin])
                           case AddAdmin(_, admin) =>
                             Some(if admin in s.admins.value then s.admins.value else s.admins.value + [admin])
                           case RemoveAdmin(_, admin) => Some(Without(s.admins.value, admin))
                           case TransferAdmin(_, admin) => Some([admin])
                           case _ => s.admins
  {
    hide Announce, Dismiss, Farewell, Fresh, Without;
  }

  lemma PublishedExactly(s: State, op: Op)
    requires Exec(s, op).Done?
    ensures Publishes(s, Apply(s, op), op)
  {
    hide Fresh, Without;
  }

  // ---------------------------------------------------------------- refusals

  /** The error a call fails with, if it does: the first that applies. */
  function Fault(s: State, op: Op): Option<Error> {
    if op.Advance? then None
    else if op.Initialize? then if s.admins.Some? then Some(AlreadyInitialized) else None
    else if s.admins.None? then Some(NotInitialized)
    else if Caller(op) !in s.admins.value then Some(Unauthorized)
    else if s.paused && !op.SetPaused? then Some(ContractPaused)
    else match op
      case RemoveAdmin(_, _) => if |s.admins.value| <= 1 then Some(LastAdmin) else None
      case TransferAdmin(_, _) => if |s.admins.value| > 1 then Some(MultipleAdminsExist) else None
      case Register(_, watcher, _) =>
        if watcher !in s.watchers && |s.watchers| >= MAX_WATCHERS then Some(WatcherLimitExceeded) else None
      case Remove(_, watcher) => if watcher !in s.watchers then Some(WatcherNotFound) else None
      case Replace(_, gone, _) => if gone !in s.watchers then Some(WatcherNotFound) else None
      case Renew(_, watcher, _) => if watcher !in s.watchers then Some(WatcherNotFound) else None
      case BatchRegister(_, batch) =>
        if |batch| > MAX_BATCH_SIZE then Some(BatchTooLarge)
        else if |Union(s, batch)| > MAX_WATCHERS then Some(WatcherLimitExceeded)
        else None
      case _ => None
  }

  function Union(s: State, batch: seq<Address>): set<Address> {
    (set w | w in s.watchers) + (set w | w in batch)
  }

  /** Every call, in every reachable state. */
  lemma RefusedExactly(s: State, op: Op)
    requires Inv(s)
    ensures Exec(s, op).Failed? <==> Fault(s, op).Some?
    ensures Exec(s, op).Failed? ==> Fault(s, op) == Some(Exec(s, op).error)
  {
    hide Announce, Dismiss, Farewell, Fresh, Without, Members;
    if op.BatchRegister? {
      NoDupSize(s.watchers + Fresh(s.watchers, op.batch), Union(s, op.batch));
    }
  }

  // ---------------------------------------------------------------- a batch, one by one

  function OneByOne(caller: Address, batch: seq<Address>): (r: seq<Op>)
    ensures |r| == |batch|
  {
    seq(|batch|, i requires 0 <= i < |batch| => Register(caller, batch[i], None))
  }

  /** The registry with some more watchers, counted and announced. */
  function With(s: State, added: seq<Address>): State {
    s.(watchers := s.watchers + added, count := s.count + |added|, events := s.events + Announce(added))
  }

  lemma FreshNext(stored: seq<Address>, batch: seq<Address>, k: nat)
    requires k < |batch|
    ensures Fresh(stored, batch[..k + 1]) ==
            var r := Fresh(stored, batch[..k]); if batch[k] in stored + r then r else r + [batch[k]]
  {
    assert batch[..k + 1][..k] == batch[..k];
  }

  lemma {:induction false} FreshGrows(stored: seq<Address>, batch: seq<Address>, k: nat)
    requires k <= |batch|
    ensures |Fresh(stored, batch[..k])| <= |Fresh(stored, batch)|
    decreases |batch| - k
  {
    hide Fresh;
    if k == |batch| {
      assert batch[..k] == batch;
    } else {
      FreshNext(stored, batch, k);
      FreshGrows(stored, batch, k + 1);
    }
  }

  lemma WithOneMore(s: State, caller: Address, added: seq<Address>, w: Address)
    requires Inv(s) && s.admins.Some? && caller in s.admins.value && !s.paused
    requires w in s.watchers + added || |s.watchers + added| < MAX_WATCHERS
    ensures Exec(With(s, added), Register(caller, w, None)).Done?
    ensures Apply(With(s, added), Register(caller, w, None)) ==
            With(s, if w in s.watchers + added then added else added + [w])
  {
    hide Members;
    if w !in s.watchers + added {
      assert s.watchers + (added + [w]) == (s.watchers + added) + [w];
      assert Announce(added + [w]) == Announce(added) + [Registered(w)];
      assert s.events + (Announce(added) + [Registered(w)]) == (s.events + Announce(added)) + [Registered(w)];
      assert SetExpiry(s.expiries, w, None) == s.expiries;
    }
  }

  lemma BatchFits(s: State, caller: Address, batch: seq<Address>, k: nat)
    requires Exec(s, BatchRegister(caller, batch)).Done? && k <= |batch|
    ensures s.admins.Some? && caller in s.admins.value && !s.paused
    ensures |s.watchers + Fresh(s.watchers, batch[..k])| <= MAX_WATCHERS
  {
    hide Fresh;
    FreshGrows(s.watchers, batch, k);
  }

  lemma NoneAdded(s: State, caller: Address, batch: seq<Address>)
    ensures Run(s, OneByOne(caller, batch)[..0]) == With(s, Fresh(s.watchers, batch[..0]))
  {
    assert OneByOne(caller, batch)[..0] == [] && batch[..0] == [] && Announce([]) == [];
    assert s.watchers + [] == s.watchers && s.events + [] == s.events;
  }

  lemma OneMoreOfBatch(s: State, caller: Address, batch: seq<Address>, k: nat)
    requires Inv(s) && Exec(s, BatchRegister(caller, batch)).Done? && k < |batch|
    ensures Apply(With(s, Fresh(s.watchers, batch[..k])), Register(caller, batch[k], None)) ==
            With(s, Fresh(s.watchers, batch[..k + 1]))
  {
    hide Inv, Exec, Apply, With, Fresh;
    FreshNext(s.watchers, batch, k);
    BatchFits(s, caller, batch, k + 1);
    WithOneMore(s, caller, Fresh(s.watchers, batch[..k]), batch[k]);
  }

  lemma {:induction false} SequenceOfBatch(s: State, caller: Address, batch: seq<Address>, k: nat)
    requires Inv(s) && Exec(s, BatchRegister(caller, batch)).Done? && k <= |batch|
    ensures Run(s, OneByOne(caller, batch)[..k]) == With(s, Fresh(s.watchers, batch[..k]))
    decreases k
  {
    hide Inv, Exec, Apply, Run, With, Fresh;
    if k == 0 {
      NoneAdded(s, caller, batch);
    } else {
      SequenceOfBatch(s, caller, batch, k - 1);
      RunNext(s, OneByOne(caller, batch), k - 1);
      OneMoreOfBatch(s, caller, batch, k - 1);
    }
  }

  /** A successful batch leaves exactly what registering its members one by one, in order and without
      expiry, leaves. */
  lemma BatchIsSequence(s: State, caller: Address, batch: seq<Address>)
    requires Inv(s) && Exec(s, BatchRegister(caller, batch)).Done?
    ensures Apply(s, BatchRegister(caller, batch)) == Run(s, OneByOne(caller, batch))
  {
    hide Inv, Run, Fresh, Announce;
    SequenceOfBatch(s, caller, batch, |batch|);
    assert OneByOne(caller, batch)[..|batch|] == OneByOne(caller, batch) && batch[..|batch|] == batch;
  }
}
