/** The WatcherRegistry contract as a state machine. No entry point writes anything before its last
    check, so a failed call is just an error. */
module WatcherModel {
  import opened Host
  import opened Seqs

  const MAX_BATCH_SIZE: nat := 20
  const MAX_WATCHERS: nat := 1_000

  datatype Error =
    | AlreadyInitialized | Unauthorized | NotInitialized | LastAdmin | WatcherNotFound
    | ContractPaused | BatchTooLarge | WatcherLimitExceeded | MultipleAdminsExist

  datatype Event =
    | Registered(watcher: Address)
    | Removed(watcher: Address)
    | Replaced(gone: Address, added: Address)
    | Renewed(watcher: Address, expiry: Option<nat>)
    | AdminInitialized(admin: Address)
    | AdminAdded(caller: Address, admin: Address)
    | AdminRemoved(caller: Address, admin: Address)
    | AdminSelfRemoved(caller: Address)
    | AdminTransferred(caller: Address, admin: Address)
    | PauseSet(admin: Address, paused: bool)

  datatype State = State(
    admins: Option<seq<Address>>, watchers: seq<Address>, count: nat, expiries: map<Address, nat>,
    paused: bool, timestamp: nat, events: seq<Event>)

  function Init(timestamp: nat): State {
    State(None, [], 0, map[], false, timestamp, [])
  }

  datatype Outcome = Done(state: State) | Failed(error: Error)

  datatype Op =
    | Initialize(admin: Address)
    | AddAdmin(caller: Address, admin: Address)
    | RemoveAdmin(caller: Address, admin: Address)
    | TransferAdmin(caller: Address, admin: Address)
    | Register(caller: Address, watcher: Address, expiry: Option<nat>)
    | Remove(caller: Address, watcher: Address)
    | Replace(caller: Address, gone: Address, added: Address)
    | BatchRegister(caller: Address, batch: seq<Address>)
    | Renew(caller: Address, watcher: Address, expiry: Option<nat>)
    | SetPaused(caller: Address, paused: bool)
    | Clear(caller: Address)
    // The environment.
    | Advance(seconds: nat)

  function SetExpiry(m: map<Address, nat>, watcher: Address, expiry: Option<nat>): map<Address, nat> {
    if expiry.Some? then m[watcher := expiry.value] else m - {watcher}
  }

  /** The members of `batch` that are neither in `stored` nor repeated, in order. */
  function Fresh(stored: seq<Address>, batch: seq<Address>): (r: seq<Address>)
    ensures NoDup(stored) ==> NoDup(stored + r)
    ensures forall w :: w in stored + r <==> w in stored || w in batch
    ensures |r| <= |batch|
  {
    if batch == [] then [] else
      var r, w := Fresh(stored, batch[..|batch| - 1]), batch[|batch| - 1];
      assert batch == batch[..|batch| - 1] + [w];
      if w in stored + r then r else
        assert stored + (r + [w]) == (stored + r) + [w];
        r + [w]
  }

  function Announce(watchers: seq<Address>): seq<Event> {
    seq(|watchers|, i requires 0 <= i < |watchers| => Registered(watchers[i]))
  }

  function Dismiss(watchers: seq<Address>): seq<Event> {
    seq(|watchers|, i requires 0 <= i < |watchers| => Removed(watchers[i]))
  }

  /** An admin who leaves by their own call is announced twice. */
  function Farewell(caller: Address, admin: Address): seq<Event> {
    [AdminRemoved(caller, admin)] + if caller == admin then [AdminSelfRemoved(caller)] else []
  }

  function DoReplace(s: State, gone: Address, added: Address): State {
    var rest := Without(s.watchers, gone);
    var events := s.events + [Removed(gone), Replaced(gone, added)];
    if added in rest
    then s.(watchers := rest, count := SaturatingSub(s.count, 1), expiries := s.expiries - {gone}, events := events)
    else s.(watchers := rest + [added], expiries := s.expiries - {gone}, events := events)
  }

  /** What an admin's call does once the caller and the pause flag have been checked. */
  function Perform(s: State, op: Op): Outcome
    requires s.admins.Some? && !op.Initialize? && !op.Advance?
  {
    match op
    case AddAdmin(caller, admin) =>
      Done(if admin in s.admins.value then s
           else s.(admins := Some(s.admins.value + [admin]), events := s.events + [AdminAdded(caller, admin)]))
    case RemoveAdmin(caller, admin) =>
      if |s.admins.value| <= 1 then Failed(LastAdmin)
      else Done(s.(admins := Some(Without(s.admins.value, admin)), events := s.events + Farewell(caller, admin)))
    case TransferAdmin(caller, admin) =>
      if |s.admins.value| > 1 then Failed(MultipleAdminsExist)
      else Done(s.(admins := Some([admin]), events := s.events + [AdminTransferred(caller, admin)]))
    case Register(_, watcher, expiry) =>
      if watcher in s.watchers then Done(s)
      else if |s.watchers| >= MAX_WATCHERS then Failed(WatcherLimitExceeded)
      else Done(s.(watchers := s.watchers + [watcher], count := s.count + 1,
                   expiries := SetExpiry(s.expiries, watcher, expiry), events := s.events + [Registered(watcher)]))
    case Remove(_, watcher) =>
      if watcher !in s.watchers then Failed(WatcherNotFound)
      else Done(s.(watchers := Without(s.watchers, watcher), count := SaturatingSub(s.count, 1),
                   expiries := s.expiries - {watcher}, events := s.events + [Removed(watcher)]))
    case Replace(_, gone, added) =>
      if gone !in s.watchers then Failed(WatcherNotFound) else Done(DoReplace(s, gone, added))
    case BatchRegister(_, batch) =>
      var added := Fresh(s.watchers, batch);
      if |batch| > MAX_BATCH_SIZE then Failed(BatchTooLarge)
      else if |s.watchers + added| > MAX_WATCHERS then Failed(WatcherLimitExceeded)
      else Done(s.(watchers := s.watchers + added, count := s.count + |added|, events := s.events + Announce(added)))
    case Renew(_, watcher, expiry) =>
      if watcher !in s.watchers then Failed(WatcherNotFound)
      else Done(s.(expiries := SetExpiry(s.expiries, watcher, expiry), events := s.events + [Renewed(watcher, expiry)]))
    case SetPaused(caller, paused) =>
      Done(s.(paused := paused, events := s.events + [PauseSet(caller, paused)]))
    case Clear(_) =>
      Done(s.(watchers := [], count := 0, expiries := map[], events := s.events + Dismiss(s.watchers)))
  }

  function Caller(op: Op): Address
    requires !op.Initialize? && !op.Advance?
  {
    op.caller
  }

  function Exec(s: State, op: Op): Outcome {
    if op.Advance? then Done(s.(timestamp := s.timestamp + op.seconds))
    else if op.Initialize? then
      if s.admins.Some? then Failed(AlreadyInitialized)
      else Done(s.(admins := Some([op.admin]), events := s.events + [AdminInitialized(op.admin)]))
    else if s.admins.None? then Failed(NotInitialized)
    else if Caller(op) !in s.admins.value then Failed(Unauthorized)
    else if s.paused && !op.SetPaused? then Failed(ContractPaused)
    else Perform(s, op)
  }

  function Apply(s: State, op: Op): State {
    if Exec(s, op).Done? then Exec(s, op).state else s
  }

  function Run(s: State, ops: seq<Op>): State
    decreases |ops|
  {
    if ops == [] then s else Apply(Run(s, ops[..|ops| - 1]), ops[|ops| - 1])
  }

  /** `is_watcher_authorized` */
  predicate Authorized(s: State, watcher: Address) {
    watcher in s.watchers && (watcher in s.expiries ==> s.timestamp <= s.expiries[watcher])
  }

  lemma RunNext(s: State, ops: seq<Op>, k: nat)
    requires k < |ops|
    ensures Run(s, ops[..k + 1]) == Apply(Run(s, ops[..k]), ops[k])
  {
    assert ops[..k + 1][..k] == ops[..k];
  }
}
