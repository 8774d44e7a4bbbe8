/** The WatcherRegistry contract itself: instance entries as fields, entry points as methods that
    rewrite them in place, each proved against `Exec`. */
module WatcherRegistryContract {
  import opened Host
  import opened Seqs
  import opened WatcherModel
  import opened WatcherProofs

  datatype Result<+T> = Ok(value: T) | Err(error: Error)

  /** What a call returned and left behind is what the model says; a failed call left nothing behind. */
  ghost predicate Matches<T>(o: Outcome, before: State, now: State, r: Result<T>) {
    match o
    case Done(state) => r.Ok? && now == state
    case Failed(error) => r == Err(error) && now == before
  }

  class WatcherRegistry {
    var admins: Option<seq<Address>>
    var watchers: seq<Address>
    var count: nat
    var expiries: map<Address, nat>
    var paused: bool
    var timestamp: nat
    var events: seq<Event>

    ghost function Snapshot(): State
      reads this
    {
      State(admins, watchers, count, expiries, paused, timestamp, events)
    }

    ghost predicate Valid()
      reads this
    {
      Inv(Snapshot())
    }

    constructor (timestamp: nat)
      ensures Snapshot() == Init(timestamp) && Valid()
    {
      admins, watchers, count, expiries := None, [], 0, map[];
      paused, this.timestamp, events := false, timestamp, [];
      new;
      EveryRunIsConsistent(timestamp, []);
    }

    // -------------------------------------------------------------- helpers

    method Contains(list: seq<Address>, x: Address) returns (present: bool)
      ensures present <==> x in list
    {
      for i := 0 to |list|
        invariant x !in list[..i]
      {
        if list[i] == x { return true; }
      }
      assert list[..|list|] == list;
      return false;
    }

    /** The checks shared by every admin entry point; `pausable` is false only for `SetPaused`. */
    method AssertAdmin(caller: Address, pausable: bool) returns (r: Result<()>)
      ensures r == if admins.None? then Err(NotInitialized)
                   else if caller !in admins.value then Err(Unauthorized)
                   else if pausable && paused then Err(ContractPaused)
                   else Ok(())
    {
      if admins.None? { return Err(NotInitialized); }
      var known := Contains(admins.value, caller);
      if !known { return Err(Unauthorized); }
      if pausable && paused { return Err(ContractPaused); }
      return Ok(());
    }

    method UpdateExpiry(watcher: Address, expiry: Option<nat>)
      modifies this`expiries
      ensures expiries == SetExpiry(old(expiries), watcher, expiry)
    {
      if expiry.Some? {
        expiries := expiries[watcher := expiry.value];
      } else {
        expiries := expiries - {watcher};
      }
    }

    method DecrementWatcherCount()
      modifies this`count
      ensures count == SaturatingSub(old(count), 1)
    {
      if count > 0 { count := count - 1; }
    }

    /** Every element but `gone`, and whether `gone` was there. */
    method Drop(list: seq<Address>, gone: Address) returns (updated: seq<Address>, found: bool)
      ensures updated == Without(list, gone) && (found <==> gone in list)
    {
      updated, found := [], false;
      for i := 0 to |list|
        invariant updated == Without(list[..i], gone) && (found <==> gone in list[..i])
      {
        WithoutNext(list, i, gone);
        if list[i] == gone { found := true; } else { updated := updated + [list[i]]; }
      }
      assert list[..|list|] == list;
    }

    // -------------------------------------------------------------- admins

    method Initialize(admin: Address) returns (r: Result<()>)
      requires Valid()
      modifies this
      ensures Valid() && Matches(Exec(old(Snapshot()), WatcherModel.Initialize(admin)), old(Snapshot()), Snapshot(), r)
    {
      hide Inv, Perform;
      ApplyKeepsInv(Snapshot(), WatcherModel.Initialize(admin));
      if admins.Some? { return Err(AlreadyInitialized); }
      admins := Some([admin]);
      events := events + [AdminInitialized(admin)];
      return Ok(());
    }

    method AddAdmin(caller: Address, admin: Address) returns (r: Result<()>)
      requires Valid()
      modifies this
      ensures Valid() && Matches(Exec(old(Snapshot()), WatcherModel.AddAdmin(caller, admin)), old(Snapshot()), Snapshot(), r)
    {
      hide Inv;
      ApplyKeepsInv(Snapshot(), WatcherModel.AddAdmin(caller, admin));
      r := AssertAdmin(caller, true);
      if r.Err? { return; }
      var already := Contains(admins.value, admin);
      if already { return Ok(()); }
      admins := Some(admins.value + [admin]);
      events := events + [AdminAdded(caller, admin)];
    }

    method RemoveAdmin(caller: Address, admin: Address) returns (r: Result<()>)
      requires Valid()
      modifies this
      ensures Valid() && Matches(Exec(old(Snapshot()), WatcherModel.RemoveAdmin(caller, admin)), old(Snapshot()), Snapshot(), r)
    {
      hide Inv;
      ApplyKeepsInv(Snapshot(), WatcherModel.RemoveAdmin(caller, admin));
      r := AssertAdmin(caller, true);
      if r.Err? { return; }
      if |admins.value| <= 1 { return Err(LastAdmin); }
      var updated, _ := Drop(admins.value, admin);
      admins := Some(updated);
      events := events + [AdminRemoved(caller, admin)];
      if caller == admin { events := events + [AdminSelfRemoved(caller)]; }
      assert events == old(events) + Farewell(caller, admin);
    }

    method TransferAdmin(caller: Address, admin: Address) returns (r: Result<()>)
      requires Valid()
      modifies this
      ensures Valid() && Matches(Exec(old(Snapshot()), WatcherModel.TransferAdmin(caller, admin)), old(Snapshot()), Snapshot(), r)
    {
      hide Inv;
      ApplyKeepsInv(Snapshot(), WatcherModel.TransferAdmin(caller, admin));
      r := AssertAdmin(caller, true);
      if r.Err? { return; }
      if |admins.value| > 1 { return Err(MultipleAdminsExist); }
      admins := Some([admin]);
      events := events + [AdminTransferred(caller, admin)];
    }

    method SetPaused(caller: Address, newPaused: bool) returns (r: Result<()>)
      requires Valid()
      modifies this
      ensures Valid() && Matches(Exec(old(Snapshot()), WatcherModel.SetPaused(caller, newPaused)), old(Snapshot()), Snapshot(), r)
    {
      hide Inv;
      ApplyKeepsInv(Snapshot(), WatcherModel.SetPaused(caller, newPaused));
      r := AssertAdmin(caller, false);
      if r.Err? { return; }
      paused := newPaused;
      events := events + [PauseSet(caller, newPaused)];
    }

    // -------------------------------------------------------------- watchers

    method RegisterWatcher(caller: Address, watcher: Address, expiry: Option<nat>) returns (r: Result<()>)
      requires Valid()
      modifies this
      ensures Valid() && Matches(Exec(old(Snapshot()), Register(caller, watcher, expiry)), old(Snapshot()), Snapshot(), r)
    {
      hide Inv;
      ApplyKeepsInv(Snapshot(), Register(caller, watcher, expiry));
      r := AssertAdmin(caller, true);
      if r.Err? { return; }
      if watcher in watchers { return Ok(()); }
      if |watchers| >= MAX_WATCHERS { return Err(WatcherLimitExceeded); }
      UpdateExpiry(watcher, expiry);
      watchers := watchers + [watcher];
      count := count + 1;
      events := events + [Registered(watcher)];
    }

    method RemoveWatcher(caller: Address, watcher: Address) returns (r: Result<()>)
      requires Valid()
      modifies this
      ensures Valid() && Matches(Exec(old(Snapshot()), Remove(caller, watcher)), old(Snapshot()), Snapshot(), r)
    {
      hide Inv;
      ApplyKeepsInv(Snapshot(), Remove(caller, watcher));
      r := AssertAdmin(caller, true);
      if r.Err? { return; }
      var updated, removed := Drop(watchers, watcher);
      if !removed { return Err(WatcherNotFound); }
      watchers := updated;
      UpdateExpiry(watcher, None);
      DecrementWatcherCount();
      events := events + [Removed(watcher)];
    }

    method ReplaceWatcher(caller: Address, gone: Address, added: Address) returns (r: Result<()>)
      requires Valid()
      modifies this
      ensures Valid() && Matches(Exec(old(Snapshot()), Replace(caller, gone, added)), old(Snapshot()), Snapshot(), r)
    {
      hide Inv, Without;
      ghost var s := Snapshot();
      ApplyKeepsInv(s, Replace(caller, gone, added));
      r := AssertAdmin(caller, true);
      if r.Err? { return; }
      var updated, found := Drop(watchers, gone);
      if !found { return Err(WatcherNotFound); }
      UpdateExpiry(gone, None);
      var alreadyPresent := Contains(updated, added);
      if !alreadyPresent {
        updated := updated + [added];
      } else {
        DecrementWatcherCount();
      }
      watchers := updated;
      events := events + [Removed(gone)];
      events := events + [Replaced(gone, added)];
      assert events == s.events + [Removed(gone), Replaced(gone, added)];
      assert Snapshot() == DoReplace(s, gone, added);
    }

    /** The list with the new members of a batch appended, and those members. */
    method Extend(batch: seq<Address>) returns (stored: seq<Address>, added: seq<Address>)
      ensures added == Fresh(watchers, batch) && stored == watchers + added
    {
      stored, added := watchers, [];
      for i := 0 to |batch|
        invariant added == Fresh(watchers, batch[..i]) && stored == watchers + added
      {
        assert batch[..i + 1][..i] == batch[..i];
        if batch[i] !in stored {
          stored := stored + [batch[i]];
          added := added + [batch[i]];
        }
      }
      assert batch[..|batch|] == batch;
    }

    /** Counts and announces each new member. */
    method CountAndAnnounce(added: seq<Address>)
      modifies this`count, this`events
      ensures count == old(count) + |added| && events == old(events) + Announce(added)
    {
      assert events + Announce([]) == events;
      for i := 0 to |added|
        invariant count == old(count) + i && events == old(events) + Announce(added[..i])
      {
        count := count + 1;
        assert Announce(added[..i + 1]) == Announce(added[..i]) + [Registered(added[i])];
        events := events + [Registered(added[i])];
      }
      assert added[..|added|] == added;
    }

    method BatchRegisterWatchers(caller: Address, batch: seq<Address>) returns (r: Result<nat>)
      requires Valid()
      modifies this
      ensures Valid() && Matches(Exec(old(Snapshot()), BatchRegister(caller, batch)), old(Snapshot()), Snapshot(), r)
      ensures r.Ok? ==> r.value == |watchers| - |old(watchers)|
    {
      hide Inv, Fresh, Announce;
      ApplyKeepsInv(Snapshot(), BatchRegister(caller, batch));
      var g := AssertAdmin(caller, true);
      if g.Err? { return Err(g.error); }
      if |batch| > MAX_BATCH_SIZE { return Err(BatchTooLarge); }
      var stored, added := Extend(batch);
      if |stored| > MAX_WATCHERS { return Err(WatcherLimitExceeded); }
      watchers := stored;
      CountAndAnnounce(added);
      return Ok(|added|);
    }

    method RenewWatcher(caller: Address, watcher: Address, expiry: Option<nat>) returns (r: Result<()>)
      requires Valid()
      modifies this
      ensures Valid() && Matches(Exec(old(Snapshot()), Renew(caller, watcher, expiry)), old(Snapshot()), Snapshot(), r)
    {
      hide Inv;
      ApplyKeepsInv(Snapshot(), Renew(caller, watcher, expiry));
      r := AssertAdmin(caller, true);
      if r.Err? { return; }
      if watcher !in watchers { return Err(WatcherNotFound); }
      UpdateExpiry(watcher, expiry);
      events := events + [Renewed(watcher, expiry)];
    }

    method ClearAllWatchers(caller: Address) returns (r: Result<()>)
      requires Valid()
      modifies this
      ensures Valid() && Matches(Exec(old(Snapshot()), Clear(caller)), old(Snapshot()), Snapshot(), r)
    {
      hide Inv;
      ApplyKeepsInv(Snapshot(), Clear(caller));
      r := AssertAdmin(caller, true);
      if r.Err? { return; }
      for i := 0 to |watchers|
        invariant watchers == old(watchers)
        invariant Snapshot() == old(Snapshot()).(events := old(events) + Dismiss(watchers[..i]))
      {
        assert Dismiss(watchers[..i + 1]) == Dismiss(watchers[..i]) + [Removed(watchers[i])];
        events := events + [Removed(watchers[i])];
      }
      assert watchers[..|watchers|] == watchers;
      watchers := [];
      expiries := map[];
      count := 0;
    }

    // -------------------------------------------------------------- queries

    method IsWatcherAuthorized(watcher: Address) returns (r: bool)
      ensures r == Authorized(Snapshot(), watcher)
    {
      if watcher !in watchers { return false; }
      if watcher in expiries { return timestamp <= expiries[watcher]; }
      return true;
    }

    /** The cached count is the number of members the event log knows of. */
    method GetWatcherCount() returns (n: nat)
      requires Valid()
      ensures n == |watchers| == |Members(events)|
    {
      n := count;
      NoDupSize(watchers, Members(events));
    }
  }
}
