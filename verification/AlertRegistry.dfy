/** The AlertRegistry contract itself: its stored entries as fields, its entry points as methods that
    write them in place, each proved against `Exec`. A method shows the writes as they stand when it
    returns; the host's rollback after an error is `Apply`'s business. */
module AlertRegistryContract {
  import opened Host
  import opened Seqs
  import opened AlertModel
  import opened AlertInvariant
  import opened Refinement
  import opened Paging
  import opened Batch
  import opened Accounting
  import opened Sync
  import EntryPoints

  /** Later effects of a plan do not run once one has failed. */
  lemma {:induction false} DoAllStops(s: State, es: seq<Effect>, k: nat)
    requires k <= |es| && DoAll(s, es[..k]).Failed?
    ensures DoAll(s, es) == DoAll(s, es[..k])
    decreases |es|
  {
    if k == |es| {
      assert es[..k] == es;
    } else {
      assert es[..|es| - 1][..k] == es[..k];
      DoAllStops(s, es[..|es| - 1], k);
    }
  }

  lemma PlanPrefix(s: State, es: seq<Effect>, k: nat)
    requires k < |es|
    ensures DoAll(s, es[..k + 1]) ==
            if DoAll(s, es[..k]).Done? then Do(DoAll(s, es[..k]).state, es[k]) else DoAll(s, es[..k])
  {
    assert es[..k + 1] == es[..k] + [es[k]];
    DoAllNext(s, es[..k], es[k]);
  }

  /** What a call returned and left behind is what the model says. */
  ghost predicate Matches<T>(o: Outcome, now: State, r: Result<T>) {
    o.state == now && (r.Ok? <==> o.Done?) && (r.Err? ==> o.error == r.error)
  }

  class AlertRegistry {
    var alerts: Records
    var flags: map<nat, Entry<bool>>
    var owners: Index
    var targets: Index
    var nextId: nat
    var limit: U32
    var paused: bool
    var admins: Option<seq<Address>>
    var ledger: nat
    var timestamp: nat
    var events: seq<Event>

    ghost function Snapshot(): State
      reads this
    {
      State(alerts, flags, owners, targets, nextId, limit, paused, admins, ledger, timestamp, events)
    }

    ghost predicate Valid()
      reads this
    {
      Inv(Snapshot())
    }

    constructor (ledger: nat, timestamp: nat)
      ensures Snapshot() == Init(ledger, timestamp) && Valid()
    {
      alerts, flags, owners, targets := map[], map[], map[], map[];
      nextId, limit, paused, admins := 0, 0, false, None;
      this.ledger, this.timestamp, events := ledger, timestamp, [];
      new;
      InitInv(ledger, timestamp);
    }

    // -------------------------------------------------------------- validation

    method ValidateRules(rules: seq<string>) returns (g: Guard)
      ensures g == ValidRules(rules)
    {
      if rules == [] { return Fail(EmptyRules); }
      if |rules| > 50 { return Fail(TooManyRules); }
      var seen: seq<string> := [];
      for i := 0 to |rules|
        invariant seen == rules[..i] && RuleFault(rules, i) == Pass
      {
        var rule := rules[i];
        if rule !in RULES {
          FaultStays(rules, i + 1, |rules|);
          return Fail(InvalidRuleDescriptor);
        }
        for j := 0 to |seen|
          invariant rule !in seen[..j]
        {
          if seen[j] == rule {
            FaultStays(rules, i + 1, |rules|);
            return Fail(DuplicateRule);
          }
        }
        assert seen[..|seen|] == seen;
        seen := seen + [rule];
      }
      return Pass;
    }

    method ValidateTags(tags: Option<seq<string>>) returns (g: Guard)
      ensures g == ValidTags(tags)
    {
      if tags.None? { return Pass; }
      var t := tags.value;
      if |t| > MAX_TAGS { return Fail(TooManyTags); }
      for i := 0 to |t|
        invariant forall j :: 0 <= j < i ==> |t[j]| <= MAX_TAG_BYTES
      {
        if |t[i]| > MAX_TAG_BYTES { return Fail(TagTooLong); }
      }
      return Pass;
    }

    method ValidateInput(input: AlertInput) returns (g: Guard)
      ensures g == ValidInput(input)
    {
      if |input.webhookHash| != 64 { return Fail(InvalidWebhookHash); }
      if |input.name| > 128 { return Fail(LabelTooLong); }
      g := ValidateRules(input.rules);
    }

    // -------------------------------------------------------------- index helpers

    method AssertPerOwnerLimitFor(owner: Address, additional: nat) returns (g: Guard)
      modifies this`owners
      ensures var o := DoAdmit(old(Snapshot()), owner, additional);
              Snapshot() == o.state && g == if o.Done? then Pass else Fail(o.error)
    {
      hide Only, Store, Listing;
      if limit == 0 { return Pass; }
      var ids := Listing(owners, owner);
      OnlyNone(alerts.Keys);
      assert ids[..0] == [];
      var liveIds: seq<nat> := [];
      for i := 0 to |ids|
        invariant Snapshot() == old(Snapshot()) && liveIds == Only(ids[..i], alerts.Keys)
      {
        OnlyNext(ids, i, alerts.Keys);
        if ids[i] in alerts { liveIds := liveIds + [ids[i]]; }
      }
      assert ids[..|ids|] == ids;
      assert liveIds == Only(ids, alerts.Keys);
      if |liveIds| != |ids| {
        owners := Store(owners, owner, liveIds, ledger);
      }
      if SaturatingAdd(|liveIds|, additional) > limit { return Fail(OwnerAlertLimitExceeded); }
      return Pass;
    }

    method NextId() returns (r: Result<nat>)
      modifies this`nextId
      ensures old(nextId) < U64_MAX ==> r == Ok(old(nextId)) && nextId == old(nextId) + 1
      ensures old(nextId) >= U64_MAX ==> r == Err(CounterOverflow) && nextId == old(nextId)
    {
      if nextId >= U64_MAX { return Err(CounterOverflow); }
      r := Ok(nextId);
      nextId := nextId + 1;
    }

    method PushOwnerIndex(owner: Address, id: nat) returns (g: Guard)
      modifies this`owners
      ensures g == Need(id !in Listing(old(owners), owner), DuplicateAlertId)
      ensures owners == if g.Fail? then old(owners)
                        else Store(old(owners), owner, Listing(old(owners), owner) + [id], ledger)
    {
      var ids := Listing(owners, owner);
      for i := 0 to |ids|
        invariant owners == old(owners) && id !in ids[..i]
      {
        if ids[i] == id { return Fail(DuplicateAlertId); }
      }
      assert ids[..|ids|] == ids;
      owners := Store(owners, owner, ids + [id], ledger);
      return Pass;
    }

    method PushContractIndex(target: Address, id: nat) returns (g: Guard)
      modifies this`targets
      ensures g == Need(id !in Listing(old(targets), target), DuplicateAlertId)
      ensures targets == if g.Fail? then old(targets)
                         else Store(old(targets), target, Listing(old(targets), target) + [id], ledger)
    {
      var ids := Listing(targets, target);
      for i := 0 to |ids|
        invariant targets == old(targets) && id !in ids[..i]
      {
        if ids[i] == id { return Fail(DuplicateAlertId); }
      }
      assert ids[..|ids|] == ids;
      targets := Store(targets, target, ids + [id], ledger);
      return Pass;
    }

    method RemoveFromOwnerIndex(owner: Address, id: nat)
      modifies this`owners
      ensures owners == Store(old(owners), owner, Without(Listing(old(owners), owner), id), ledger)
    {
      var ids := Listing(owners, owner);
      var updated: seq<nat> := [];
      for i := 0 to |ids|
        invariant owners == old(owners) && updated == Without(ids[..i], id)
      {
        WithoutNext(ids, i, id);
        if ids[i] != id { updated := updated + [ids[i]]; }
      }
      assert ids[..|ids|] == ids;
      if updated == [] {
        owners := owners - {owner};
      } else {
        owners := Put(owners, owner, updated, ledger, DEFAULT_TTL);
      }
    }

    method RemoveFromContractIndex(target: Address, id: nat)
      modifies this`targets
      ensures targets == Store(old(targets), target, Without(Listing(old(targets), target), id), ledger)
    {
      var ids := Listing(targets, target);
      var updated: seq<nat> := [];
      for i := 0 to |ids|
        invariant targets == old(targets) && updated == Without(ids[..i], id)
      {
        WithoutNext(ids, i, id);
        if ids[i] != id { updated := updated + [ids[i]]; }
      }
      assert ids[..|ids|] == ids;
      if updated == [] {
        targets := targets - {target};
      } else {
        targets := Put(targets, target, updated, ledger, DEFAULT_TTL);
      }
    }

    // -------------------------------------------------------------- registration

    /** Lists a freshly written record in both indexes and publishes its register event. */
    method ListAndAnnounce(id: nat, owner: Address, target: Address) returns (r: Result<nat>)
      modifies this
      ensures Matches(DoList(old(Snapshot()), id, owner, target), Snapshot(), r)
      ensures r.Ok? ==> r.value == id
    {
      hide Put, Store, Listing;
      var g := PushOwnerIndex(owner, id);
      if g.Fail? { return Err(g.error); }
      g := PushContractIndex(target, id);
      if g.Fail? { return Err(g.error); }
      events := events + [Registered(id, owner, target)];
      return Ok(id);
    }

    /** The writes of one registration, as `register_alert` and each round of a batch perform them. */
    method Write(owner: Address, input: AlertInput, tags: Option<seq<string>>) returns (r: Result<nat>)
      modifies this
      ensures Matches(DoEnroll(old(Snapshot()), owner, input, tags), Snapshot(), r)
      ensures r.Ok? ==> r.value == old(nextId)
    {
      hide Put, DoList;
      var next := NextId();
      if next.Err? { return Err(next.error); }
      var id := next.value;
      alerts := Put(alerts, id, NewConfig(owner, input, tags, timestamp), ledger, DEFAULT_TTL);
      flags := Put(flags, id, true, ledger, DEFAULT_TTL);
      r := ListAndAnnounce(id, owner, input.target);
    }

    method RegisterAlert(owner: Address, input: AlertInput, tags: Option<seq<string>>) returns (r: Result<nat>)
      requires Valid()
      modifies this
      ensures Valid() && Matches(Exec(old(Snapshot()), Register(owner, input, tags)), Snapshot(), r)
      ensures r.Ok? ==> r.value == old(nextId)
    {
      hide Inv, Exec, Plan, Do, DoAll, ValidInput, ValidTags, DoAdmit, DoEnroll;
      ghost var s := Snapshot();
      ExecKeepsInv(s, AlertModel.Register(owner, input, tags));
      EntryPoints.Register(s, owner, input, tags);
      if paused { return Err(ContractPaused); }
      var g := ValidateInput(input);
      if g.Fail? { return Err(g.error); }
      g := ValidateTags(tags);
      if g.Fail? { return Err(g.error); }
      g := AssertPerOwnerLimitFor(owner, 1);
      if g.Fail? { return Err(g.error); }
      r := Write(owner, input, tags);
    }

    method ValidateInputs(inputs: seq<AlertInput>) returns (g: Guard)
      ensures g == InputFault(inputs, |inputs|)
    {
      hide ValidInput;
      for i := 0 to |inputs|
        invariant InputFault(inputs, i) == Pass
      {
        g := ValidateInput(inputs[i]);
        if g.Fail? {
          InputFaultStays(inputs, i + 1, |inputs|);
          return;
        }
      }
      return Pass;
    }

    method WriteAll(caller: Address, inputs: seq<AlertInput>) returns (r: Result<seq<nat>>)
      modifies this
      ensures Matches(DoAll(old(Snapshot()), Enrolments(caller, inputs)), Snapshot(), r)
      ensures r.Ok? ==> |r.value| == |inputs| && forall i :: 0 <= i < |inputs| ==> r.value[i] == old(nextId) + i
    {
      hide DoAll, DoEnroll, Do;
      ghost var s, es := Snapshot(), Enrolments(caller, inputs);
      var ids: seq<nat> := [];
      DoNone(s);
      assert es[..0] == [];
      for i := 0 to |inputs|
        invariant DoAll(s, es[..i]) == Done(Snapshot())
        invariant nextId == s.nextId + i && |ids| == i
        invariant forall j :: 0 <= j < i ==> ids[j] == s.nextId + j
      {
        EnrollPrefix(s, caller, inputs, i);
        EnrollCounts(Snapshot(), caller, inputs[i]);
        var w := Write(caller, inputs[i], None);
        if w.Err? {
          DoAllStops(s, es, i + 1);
          return Err(w.error);
        }
        ids := ids + [w.value];
      }
      assert es[..|inputs|] == es;
      return Ok(ids);
    }

    method BatchRegisterAlerts(caller: Address, inputs: seq<AlertInput>) returns (r: Result<seq<nat>>)
      requires Valid()
      modifies this
      ensures Valid() && Matches(Exec(old(Snapshot()), BatchRegister(caller, inputs)), Snapshot(), r)
      ensures r.Ok? ==> |r.value| == |inputs| && forall i :: 0 <= i < |inputs| ==> r.value[i] == old(nextId) + i
    {
      hide Inv, Exec, Plan, Do, DoAll, InputFault, DoAdmit;
      ghost var s := Snapshot();
      ExecKeepsInv(s, BatchRegister(caller, inputs));
      EntryPoints.BatchRegister(s, caller, inputs);
      if paused { return Err(ContractPaused); }
      if |inputs| > MAX_BATCH_SIZE { return Err(BatchTooLarge); }
      var g := ValidateInputs(inputs);
      if g.Fail? { return Err(g.error); }
      DoAllCons(s, Admit(caller, |inputs|), Enrolments(caller, inputs));
      AdmitIsDo(s, caller, |inputs|);
      g := AssertPerOwnerLimitFor(caller, |inputs|);
      if g.Fail? { return Err(g.error); }
      r := WriteAll(caller, inputs);
    }

    // -------------------------------------------------------------- updates

    /** Writes a record and its separately stored `active` flag. */
    method WriteBoth(id: nat, config: AlertConfig)
      modifies this`alerts, this`flags
      ensures Snapshot() == PutRecord(old(Snapshot()), id, config, true)
    {
      hide Put;
      alerts := Put(alerts, id, config, ledger, DEFAULT_TTL);
      flags := Put(flags, id, config.active, ledger, DEFAULT_TTL);
    }

    method SetAlertActiveByAdmin(admin: Address, id: nat, active: bool) returns (r: Result<()>)
      requires Valid()
      modifies this
      ensures Valid() && Matches(Exec(old(Snapshot()), SetActiveByAdmin(admin, id, active)), Snapshot(), r)
    {
      hide Inv, Exec, Plan, Do, DoAll, Put;
      ghost var s := Snapshot();
      ExecKeepsInv(s, AlertModel.SetActiveByAdmin(admin, id, active));
      EntryPoints.SetActiveByAdmin(s, admin, id, active);
      if admins.None? { return Err(NotInitialized); }
      if admin !in admins.value { return Err(Unauthorized); }
      if id !in alerts { return Err(AlertNotFound); }
      var config := alerts[id].value.(active := active, updatedAt := timestamp);
      WriteBoth(id, config);
      events := events + [Note(Updated(id, admin, active))];
      return Ok(());
    }

    /** `extend_ttl` on both index lists of a record; an absent list traps. */
    method ExtendIndexes(config: AlertConfig, ttl: nat) returns (r: Result<()>)
      modifies this`owners, this`targets
      ensures Matches(DoTouch(old(Snapshot()), config, ttl), Snapshot(), r)
    {
      if config.owner !in owners { return Err(MissingEntry); }
      owners := Touch(owners, config.owner, ledger, ttl);
      if config.target !in targets { return Err(MissingEntry); }
      targets := Touch(targets, config.target, ledger, ttl);
      return Ok(());
    }

    method UpdateAlert(caller: Address, id: nat, rules: seq<string>, active: bool) returns (r: Result<()>)
      requires Valid()
      modifies this
      ensures Valid() && Matches(Exec(old(Snapshot()), AlertModel.UpdateAlert(caller, id, rules, active)), Snapshot(), r)
    {
      hide Inv, Exec, Plan, Do, DoAll, Put, PutRecord, DoTouch, ValidRules;
      ghost var s := Snapshot();
      ExecKeepsInv(s, AlertModel.UpdateAlert(caller, id, rules, active));
      EntryPoints.UpdateAlert(s, caller, id, rules, active);
      if paused { return Err(ContractPaused); }
      if id !in alerts { return Err(AlertNotFound); }
      var config := alerts[id].value;
      if config.owner != caller { return Err(Unauthorized); }
      var g := ValidateRules(rules);
      if g.Fail? { return Err(g.error); }
      EntryPoints.TouchingEdit(s, id, Rules(rules, active), Updated(id, caller, active));
      config := config.(rules := rules, active := active, updatedAt := timestamp);
      WriteBoth(id, config);
      var x := ExtendIndexes(config, DEFAULT_TTL);
      if x.Err? { return Err(x.error); }
      events := events + [Note(Updated(id, caller, active))];
      return Ok(());
    }

    method UpdateWebhook(caller: Address, id: nat, hash: string) returns (r: Result<()>)
      requires Valid()
      modifies this
      ensures Valid() && Matches(Exec(old(Snapshot()), AlertModel.UpdateWebhook(caller, id, hash)), Snapshot(), r)
    {
      hide Inv, Exec, Plan, Do, DoAll, Put, DoTouch;
      ghost var s := Snapshot();
      ExecKeepsInv(s, AlertModel.UpdateWebhook(caller, id, hash));
      EntryPoints.UpdateWebhook(s, caller, id, hash);
      if paused { return Err(ContractPaused); }
      if id !in alerts { return Err(AlertNotFound); }
      var config := alerts[id].value;
      if config.owner != caller { return Err(Unauthorized); }
      if |hash| != 64 { return Err(InvalidWebhookHash); }
      EntryPoints.TouchingEdit(s, id, Hash(hash), WebhookChanged(id, caller));
      config := config.(webhookHash := hash, updatedAt := timestamp);
      alerts := Put(alerts, id, config, ledger, DEFAULT_TTL);
      var x := ExtendIndexes(config, DEFAULT_TTL);
      if x.Err? { return Err(x.error); }
      events := events + [Note(WebhookChanged(id, caller))];
      return Ok(());
    }

    method ProposeWebhook(caller: Address, id: nat, hash: string) returns (r: Result<()>)
      requires Valid()
      modifies this
      ensures Valid() && Matches(Exec(old(Snapshot()), AlertModel.ProposeWebhook(caller, id, hash)), Snapshot(), r)
    {
      hide Inv, Exec, Plan, Do, DoAll, Put;
      ghost var s := Snapshot();
      ExecKeepsInv(s, AlertModel.ProposeWebhook(caller, id, hash));
      EntryPoints.ProposeWebhook(s, caller, id, hash);
      if id !in alerts { return Err(AlertNotFound); }
      var config := alerts[id].value;
      if config.owner != caller { return Err(Unauthorized); }
      config := config.(pending := Some(hash), updatedAt := timestamp);
      alerts := Put(alerts, id, config, ledger, DEFAULT_TTL);
      events := events + [Note(WebhookProposed(id, caller))];
      return Ok(());
    }

    method ConfirmWebhook(caller: Address, id: nat) returns (r: Result<()>)
      requires Valid()
      modifies this
      ensures Valid() && Matches(Exec(old(Snapshot()), AlertModel.ConfirmWebhook(caller, id)), Snapshot(), r)
    {
      hide Inv, Exec, Plan, Do, DoAll, Put;
      ghost var s := Snapshot();
      ExecKeepsInv(s, AlertModel.ConfirmWebhook(caller, id));
      EntryPoints.ConfirmWebhook(s, caller, id);
      if id !in alerts { return Err(AlertNotFound); }
      var config := alerts[id].value;
      if config.owner != caller { return Err(Unauthorized); }
      if config.pending.None? { return Err(NoPendingWebhook); }
      config := config.(webhookHash := config.pending.value, pending := None, updatedAt := timestamp);
      alerts := Put(alerts, id, config, ledger, DEFAULT_TTL);
      events := events + [Note(WebhookChanged(id, caller))];
      return Ok(());
    }

    method UpdateLabel(caller: Address, id: nat, name: string) returns (r: Result<()>)
      requires Valid()
      modifies this
      ensures Valid() && Matches(Exec(old(Snapshot()), AlertModel.UpdateLabel(caller, id, name)), Snapshot(), r)
    {
      hide Inv, Exec, Plan, Do, DoAll, Put, DoTouch;
      ghost var s := Snapshot();
      ExecKeepsInv(s, AlertModel.UpdateLabel(caller, id, name));
      EntryPoints.UpdateLabel(s, caller, id, name);
      if paused { return Err(ContractPaused); }
      if |name| > 128 { return Err(LabelTooLong); }
      if id !in alerts { return Err(AlertNotFound); }
      var config := alerts[id].value;
      if config.owner != caller { return Err(Unauthorized); }
      EntryPoints.TouchingEdit(s, id, Label(name), Updated(id, caller, config.active));
      config := config.(name := name, updatedAt := timestamp);
      alerts := Put(alerts, id, config, ledger, DEFAULT_TTL);
      var x := ExtendIndexes(config, DEFAULT_TTL);
      if x.Err? { return Err(x.error); }
      events := events + [Note(Updated(id, caller, config.active))];
      return Ok(());
    }

    method UpdateTags(caller: Address, id: nat, tags: Option<seq<string>>) returns (r: Result<()>)
      requires Valid()
      modifies this
      ensures Valid() && Matches(Exec(old(Snapshot()), AlertModel.UpdateTags(caller, id, tags)), Snapshot(), r)
    {
      hide Inv, Exec, Plan, Do, DoAll, Put, ValidTags;
      ghost var s := Snapshot();
      ExecKeepsInv(s, AlertModel.UpdateTags(caller, id, tags));
      EntryPoints.UpdateTags(s, caller, id, tags);
      if paused { return Err(ContractPaused); }
      if id !in alerts { return Err(AlertNotFound); }
      var config := alerts[id].value;
      if config.owner != caller { return Err(Unauthorized); }
      var g := ValidateTags(tags);
      if g.Fail? { return Err(g.error); }
      config := config.(tags := tags, updatedAt := timestamp);
      alerts := Put(alerts, id, config, ledger, DEFAULT_TTL);
      events := events + [Note(Tagged(id, caller))];
      return Ok(());
    }

    // -------------------------------------------------------------- removal, retargeting, transfer

    /** Takes an id out of both lists of its record. */
    method Unlist(config: AlertConfig, id: nat)
      modifies this`owners, this`targets
      ensures owners == Store(old(owners), config.owner, Without(Listing(old(owners), config.owner), id), ledger)
      ensures targets == Store(old(targets), config.target, Without(Listing(old(targets), config.target), id), ledger)
    {
      hide Store, Without, Listing;
      RemoveFromOwnerIndex(config.owner, id);
      RemoveFromContractIndex(config.target, id);
    }

    method RemoveAlertRecord(config: AlertConfig, id: nat, caller: Address, asAdmin: bool)
      requires id in alerts && alerts[id].value == config
      modifies this
      ensures DoErase(old(Snapshot()), id, caller, asAdmin) == Done(Snapshot())
    {
      hide Store, Without, Listing;
      alerts := alerts - {id};
      flags := flags - {id};
      Unlist(config, id);
      events := events + [if asAdmin then RemovedByAdmin(id, caller, config.owner) else Removed(id, caller)];
    }

    method RemoveAlert(caller: Address, id: nat) returns (r: Result<()>)
      requires Valid()
      modifies this
      ensures Valid() && Matches(Exec(old(Snapshot()), AlertModel.RemoveAlert(caller, id)), Snapshot(), r)
    {
      hide Inv, Exec, Plan, Do, DoAll, DoErase;
      ghost var s := Snapshot();
      ExecKeepsInv(s, AlertModel.RemoveAlert(caller, id));
      EntryPoints.RemoveAlert(s, caller, id);
      if paused { return Err(ContractPaused); }
      if id !in alerts { return Err(AlertNotFound); }
      var config := alerts[id].value;
      if config.owner != caller { return Err(Unauthorized); }
      RemoveAlertRecord(config, id, caller, false);
      return Ok(());
    }

    method RemoveAlertByAdmin(admin: Address, id: nat) returns (r: Result<()>)
      requires Valid()
      modifies this
      ensures Valid() && Matches(Exec(old(Snapshot()), AlertModel.RemoveAlertByAdmin(admin, id)), Snapshot(), r)
    {
      hide Inv, Exec, Plan, Do, DoAll, DoErase;
      ghost var s := Snapshot();
      ExecKeepsInv(s, AlertModel.RemoveAlertByAdmin(admin, id));
      EntryPoints.RemoveAlertByAdmin(s, admin, id);
      if paused { return Err(ContractPaused); }
      if admins.None? { return Err(NotInitialized); }
      if admin !in admins.value { return Err(Unauthorized); }
      if id !in alerts { return Err(AlertNotFound); }
      RemoveAlertRecord(alerts[id].value, id, admin, true);
      return Ok(());
    }

    method UpdateTargetContract(caller: Address, id: nat, target: Address) returns (r: Result<()>)
      requires Valid()
      modifies this
      ensures Valid() && Matches(Exec(old(Snapshot()), UpdateTarget(caller, id, target)), Snapshot(), r)
    {
      hide Inv, Exec, Plan, Do, DoAll, Put, Store, Without, Listing;
      ghost var s := Snapshot();
      ExecKeepsInv(s, AlertModel.UpdateTarget(caller, id, target));
      EntryPoints.UpdateTarget(s, caller, id, target);
      if paused { return Err(ContractPaused); }
      if id !in alerts { return Err(AlertNotFound); }
      var config := alerts[id].value;
      if config.owner != caller { return Err(Unauthorized); }
      var oldTarget := config.target;
      config := config.(target := target, updatedAt := timestamp);
      alerts := Put(alerts, id, config, ledger, DEFAULT_TTL);
      RemoveFromContractIndex(oldTarget, id);
      var g := PushContractIndex(target, id);
      if g.Fail? { return Err(g.error); }
      return Ok(());
    }

    /** Moves an id to its new owner's list, rewrites the record and announces the transfer. */
    method MoveOwnership(config: AlertConfig, id: nat, newOwner: Address) returns (r: Result<()>)
      requires id in alerts && alerts[id].value == config
      modifies this
      ensures Matches(DoReassign(old(Snapshot()), id, newOwner), Snapshot(), r)
    {
      hide Put, Store, Without, Listing;
      RemoveFromOwnerIndex(config.owner, id);
      var g := PushOwnerIndex(newOwner, id);
      if g.Fail? { return Err(g.error); }
      alerts := Put(alerts, id, config.(owner := newOwner, updatedAt := timestamp), ledger, DEFAULT_TTL);
      events := events + [Transferred(id, config.owner, newOwner)];
      return Ok(());
    }

    method TransferAlertOwnership(owner: Address, id: nat, newOwner: Address) returns (r: Result<()>)
      requires Valid()
      modifies this
      ensures Valid() && Matches(Exec(old(Snapshot()), TransferOwnership(owner, id, newOwner)), Snapshot(), r)
    {
      hide Inv, Exec, Plan, Do, DoAll, DoAdmit, DoReassign;
      ghost var s := Snapshot();
      ExecKeepsInv(s, AlertModel.TransferOwnership(owner, id, newOwner));
      EntryPoints.TransferOwnership(s, owner, id, newOwner);
      if paused { return Err(ContractPaused); }
      if id !in alerts { return Err(AlertNotFound); }
      var config := alerts[id].value;
      if config.owner != owner { return Err(Unauthorized); }
      if newOwner == owner { return Ok(()); }
      var g := AssertPerOwnerLimitFor(newOwner, 1);
      if g.Fail? { return Err(g.error); }
      r := MoveOwnership(config, id, newOwner);
    }

    // -------------------------------------------------------------- lifetimes

    /** Extends the four entries of a live alert and publishes a bump event. */
    method RenewEntries(config: AlertConfig, id: nat, ttl: nat) returns (r: Result<()>)
      requires id in alerts && alerts[id].value == config
      modifies this
      ensures Matches(DoRenew(old(Snapshot()), id, ttl), Snapshot(), r)
    {
      hide DoTouch, Extend;
      alerts := Extend(alerts, id, ledger, ttl);
      if id !in flags { return Err(MissingEntry); }
      flags := Extend(flags, id, ledger, ttl);
      r := ExtendIndexes(config, ttl);
      if r.Err? { return Err(r.error); }
      events := events + [Note(Bumped(id, ttl))];
      return Ok(());
    }

    method BumpAlert(id: nat, ttl: nat) returns (r: Result<()>)
      requires Valid()
      modifies this
      ensures Valid() && Matches(Exec(old(Snapshot()), AlertModel.BumpAlert(id, ttl)), Snapshot(), r)
    {
      hide Inv, Exec, Plan, Do, DoAll, DoRenew;
      ghost var s := Snapshot();
      ExecKeepsInv(s, AlertModel.BumpAlert(id, ttl));
      EntryPoints.BumpAlert(s, id, ttl);
      if paused { return Err(ContractPaused); }
      var effectiveTtl := Min(ttl, MAX_TTL);
      if id !in alerts { return Err(AlertNotFound); }
      r := RenewEntries(alerts[id].value, id, effectiveTtl);
    }

    method BulkRenewTtl(ids: seq<nat>) returns (r: Result<nat>)
      requires Valid()
      modifies this
      ensures Valid() && Matches(Exec(old(Snapshot()), BulkRenew(ids)), Snapshot(), r)
      ensures r.Ok? ==> r.value == |Only(ids, old(alerts).Keys)|
    {
      hide Inv, Exec, Plan, Do, DoAll, DoTouch, DoRenew, Only;
      ghost var s, es := Snapshot(), Renewals(ids);
      ExecKeepsInv(s, BulkRenew(ids));
      EntryPoints.BulkRenew(s, ids);
      if |ids| > MAX_BATCH_SIZE { return Err(TooManyRules); }
      var renewed: nat := 0;
      DoNone(s);
      OnlyNone(s.alerts.Keys);
      assert es[..0] == [] && ids[..0] == [];
      for i := 0 to |ids|
        invariant DoAll(s, es[..i]) == Done(Snapshot())
        invariant alerts.Keys == s.alerts.Keys && renewed == |Only(ids[..i], s.alerts.Keys)|
      {
        RenewPrefix(s, ids, i);
        OnlyNext(ids, i, s.alerts.Keys);
        RenewKeepsKeys(Snapshot(), ids[i], DEFAULT_TTL);
        if ids[i] in alerts {
          var x := RenewEntries(alerts[ids[i]].value, ids[i], DEFAULT_TTL);
          if x.Err? {
            DoAllStops(s, es, i + 1);
            return Err(x.error);
          }
          renewed := renewed + 1;
        }
      }
      assert es[..|ids|] == es && ids[..|ids|] == ids;
      return Ok(renewed);
    }

    method GetAlert(id: nat) returns (r: Option<AlertConfig>)
      requires Valid()
      modifies this
      ensures Valid() && Exec(old(Snapshot()), AlertModel.GetAlert(id)) == Done(Snapshot())
      ensures r == if id in old(alerts) then Some(old(alerts)[id].value) else None
    {
      hide Inv, Exec, Plan, Do, DoAll, Extend;
      ghost var s := Snapshot();
      ExecKeepsInv(s, AlertModel.GetAlert(id));
      EntryPoints.GetAlert(s, id);
      if id !in alerts { return None; }
      r := Some(alerts[id].value);
      alerts := Extend(alerts, id, ledger, DEFAULT_TTL);
    }

    method GetAlertActive(id: nat) returns (r: Option<bool>)
      requires Valid()
      ensures r.Some? ==> id in alerts && r.value == alerts[id].value.active
      ensures r.None? <==> id !in flags
    {
      if id !in flags { return None; }
      return Some(flags[id].value);
    }

    method DeactivateAllAlerts(caller: Address) returns (r: Result<nat>)
      requires Valid()
      modifies this
      ensures Valid() && Matches(Exec(old(Snapshot()), DeactivateAll(caller)), Snapshot(), r)
      ensures r.Ok? ==> r.value == |Only(Listing(old(owners), caller), ActiveIds(old(alerts)))|
    {
      hide Inv, Exec, Plan, Do, DoAll, Only, ActiveIds, Listing, Untouched, Put;
      ghost var s := Snapshot();
      var ids := Listing(owners, caller);
      ghost var es, active := Deactivations(ids), ActiveIds(alerts);
      ExecKeepsInv(s, DeactivateAll(caller));
      EntryPoints.DeactivateAll(s, caller);
      ListingNoDup(s, caller);
      if paused { return Err(ContractPaused); }
      var count: nat := 0;
      DoNone(s);
      OnlyNone(active);
      UntouchedNone(s.alerts, ids);
      assert es[..0] == [] && ids[..0] == [];
      for i := 0 to |ids|
        invariant DoAll(s, es[..i]) == Done(Snapshot())
        invariant Untouched(s.alerts, alerts, ids, i)
        invariant count == |Only(ids[..i], active)|
      {
        DeactivatePrefix(s, ids, i);
        OnlyNext(ids, i, active);
        UntouchedNext(s.alerts, alerts, ids, i);
        var id := ids[i];
        if id in alerts && alerts[id].value.active {
          var config := alerts[id].value.(active := false, updatedAt := timestamp);
          UntouchedWrite(s.alerts, alerts, ids, i, config, ledger);
          WriteBoth(id, config);
          count := count + 1;
        }
      }
      assert es[..|ids|] == es && ids[..|ids|] == ids;
      return Ok(count);
    }

    // -------------------------------------------------------------- settings

    method SetPerOwnerAlertLimit(admin: Address, newLimit: U32) returns (r: Result<()>)
      requires Valid()
      modifies this
      ensures Valid() && Matches(Exec(old(Snapshot()), SetLimit(admin, newLimit)), Snapshot(), r)
    {
      hide Inv, Exec, Plan, Do, DoAll;
      ghost var s := Snapshot();
      ExecKeepsInv(s, AlertModel.SetLimit(admin, newLimit));
      EntryPoints.SetLimit(s, admin, newLimit);
      if admins.None? { return Err(NotInitialized); }
      if admin !in admins.value { return Err(Unauthorized); }
      limit := newLimit;
      events := events + [Note(LimitSet(admin, newLimit))];
      return Ok(());
    }

    method SetPaused(admin: Address, newPaused: bool) returns (r: Result<()>)
      requires Valid()
      modifies this
      ensures Valid() && Matches(Exec(old(Snapshot()), AlertModel.SetPaused(admin, newPaused)), Snapshot(), r)
    {
      hide Inv, Exec, Plan, Do, DoAll;
      ghost var s := Snapshot();
      ExecKeepsInv(s, AlertModel.SetPaused(admin, newPaused));
      EntryPoints.SetPaused(s, admin, newPaused);
      if admins.None? { return Err(NotInitialized); }
      if admin !in admins.value { return Err(Unauthorized); }
      paused := newPaused;
      events := events + [Note(PauseSet(admin, newPaused))];
      return Ok(());
    }

    // -------------------------------------------------------------- queries

    method LiveIds(ids: seq<nat>) returns (out: seq<nat>)
      ensures out == Only(ids, alerts.Keys)
    {
      hide Only;
      OnlyNone(alerts.Keys);
      assert ids[..0] == [];
      out := [];
      for i := 0 to |ids|
        invariant out == Only(ids[..i], alerts.Keys)
      {
        OnlyNext(ids, i, alerts.Keys);
        if ids[i] in alerts { out := out + [ids[i]]; }
      }
      assert ids[..|ids|] == ids;
    }

    method ConfigsForIds(ids: seq<nat>) returns (out: seq<AlertConfig>)
      ensures out == Configs(alerts, ids, alerts.Keys)
    {
      hide Configs;
      out := [];
      assert ids[..0] == [];
      ConfigsNone(alerts, alerts.Keys);
      for i := 0 to |ids|
        invariant out == Configs(alerts, ids[..i], alerts.Keys)
      {
        ConfigsAppend(alerts, ids[..i], ids[i], alerts.Keys);
        assert ids[..i + 1] == ids[..i] + [ids[i]];
        if ids[i] in alerts { out := out + [alerts[ids[i]].value]; }
      }
      assert ids[..|ids|] == ids;
    }

    method ActiveConfigsForIds(ids: seq<nat>) returns (out: seq<AlertConfig>)
      ensures out == Configs(alerts, ids, ActiveIds(alerts))
    {
      hide Configs;
      out := [];
      assert ids[..0] == [];
      ConfigsNone(alerts, ActiveIds(alerts));
      for i := 0 to |ids|
        invariant out == Configs(alerts, ids[..i], ActiveIds(alerts))
      {
        ConfigsAppend(alerts, ids[..i], ids[i], ActiveIds(alerts));
        assert ids[..i + 1] == ids[..i] + [ids[i]];
        if ids[i] in alerts && alerts[ids[i]].value.active { out := out + [alerts[ids[i]].value]; }
      }
      assert ids[..|ids|] == ids;
    }

    method ConfigsPaginated(ids: seq<nat>, offset: U32, limit: U32) returns (out: seq<AlertConfig>)
      ensures out == Configs(alerts, Page(ids, offset, limit), alerts.Keys)
    {
      hide Configs;
      var effectiveLimit := Min(limit, MAX_BATCH_SIZE);
      var start := Min(offset, |ids|);
      var end := Min(SaturatingAdd(offset, effectiveLimit), |ids|);
      out := [];
      assert ids[start..start] == [];
      ConfigsNone(alerts, alerts.Keys);
      for i := start to end
        invariant out == Configs(alerts, ids[start..i], alerts.Keys)
      {
        ConfigsAppend(alerts, ids[start..i], ids[i], alerts.Keys);
        assert ids[start..i + 1] == ids[start..i] + [ids[i]];
        if ids[i] in alerts { out := out + [alerts[ids[i]].value]; }
      }
    }

    /** Every id-only or record query on an owner or a target answers a permutation of the scan. */
    method GetAlertsByOwner(owner: Address) returns (out: seq<AlertConfig>)
      requires Valid()
      ensures out == Configs(alerts, Listing(owners, owner), alerts.Keys)
      ensures Listed(Snapshot(), ByOwner, owner) ==>
                multiset(out) == multiset(Configs(alerts, Iota(nextId), OwnedIds(Snapshot(), owner)))
    {
      out := ConfigsForIds(Listing(owners, owner));
      if Listed(Snapshot(), ByOwner, owner) {
        QueryIsScan(Snapshot(), ByOwner, owner, alerts.Keys);
        assert alerts.Keys * OwnedIds(Snapshot(), owner) == OwnedIds(Snapshot(), owner);
      }
    }

    method GetAlertsForContract(target: Address) returns (out: seq<AlertConfig>)
      requires Valid()
      ensures out == Configs(alerts, Listing(targets, target), alerts.Keys)
      ensures Listed(Snapshot(), ByTarget, target) ==>
                multiset(out) == multiset(Configs(alerts, Iota(nextId), TargetedIds(Snapshot(), target)))
    {
      out := ConfigsForIds(Listing(targets, target));
      if Listed(Snapshot(), ByTarget, target) {
        QueryIsScan(Snapshot(), ByTarget, target, alerts.Keys);
        assert alerts.Keys * TargetedIds(Snapshot(), target) == TargetedIds(Snapshot(), target);
      }
    }

    method GetActiveAlertsPaginated(target: Address, offset: U32, limit: U32) returns (out: seq<AlertConfig>)
      ensures out == Page(Configs(alerts, Listing(targets, target), ActiveIds(alerts)), offset, limit)
    {
      var active := ActiveConfigsForIds(Listing(targets, target));
      var effectiveLimit := Min(limit, MAX_BATCH_SIZE);
      var start := Min(offset, |active|);
      var end := Min(SaturatingAdd(offset, effectiveLimit), |active|);
      out := [];
      for i := start to end
        invariant out == active[start..i]
      {
        out := out + [active[i]];
      }
    }

    method GetAlertsModifiedSince(since: nat) returns (out: seq<AlertConfig>)
      ensures out == Configs(alerts, Iota(nextId), UpdatedIds(alerts, since))
      ensures out == Lookup(alerts, ModifiedIds(Snapshot(), since))
    {
      out := [];
      ConfigsNone(alerts, UpdatedIds(alerts, since));
      hide Configs;
      for id := 0 to nextId
        invariant out == Configs(alerts, Iota(id), UpdatedIds(alerts, since))
      {
        ConfigsAppend(alerts, Iota(id), id, UpdatedIds(alerts, since));
        if id in alerts && alerts[id].value.updatedAt >= since { out := out + [alerts[id].value]; }
      }
      ModifiedConfigs(Snapshot(), since);
    }

    /** The scan stops as soon as `limit` records are out, and still answers exactly the records
        `offset` to `offset + limit` of the filtered list. */
    method GetAlertsUpdatedSince(target: Address, since: nat, offset: U32, limit: U32) returns (out: seq<AlertConfig>)
      ensures out == UpdatedPage(alerts, Listing(targets, target), since, offset, limit)
    {
      hide Configs, Window;
      var ids := Listing(targets, target);
      ghost var keep, found := UpdatedIds(alerts, since), [];
      out := [];
      var skipped: U32 := 0;
      var i := 0;
      assert ids[..0] == [];
      ConfigsNone(alerts, keep);
      WindowNone<AlertConfig>(offset, limit);
      while i < |ids| && |out| < limit
        invariant i <= |ids| && |out| <= limit
        invariant found == Configs(alerts, ids[..i], keep)
        invariant skipped == Min(offset, |found|)
        invariant out == Window(found, offset, limit)
      {
        var id := ids[i];
        ConfigsAppend(alerts, ids[..i], id, keep);
        assert ids[..i + 1] == ids[..i] + [id];
        if id in alerts && alerts[id].value.updatedAt >= since {
          WindowAppend(found, alerts[id].value, offset, limit);
          found := found + [alerts[id].value];
          if skipped < offset {
            skipped := skipped + 1;
          } else {
            out := out + [alerts[id].value];
          }
        }
        i := i + 1;
      }
      assert ids == ids[..i] + ids[i..];
      ConfigsConcat(alerts, ids[..i], ids[i..], keep);
      if i == |ids| {
        assert ids[..i] == ids;
      } else {
        WindowFull(found, Configs(alerts, ids[i..], keep), offset, limit);
      }
    }

    method GetActiveAlertCount(owner: Address) returns (count: nat)
      requires Valid()
      ensures count == |Only(Listing(owners, owner), alerts.Keys)|
      ensures count <= |OwnedIds(Snapshot(), owner)|
      ensures count == |OwnedIds(Snapshot(), owner)| <==> Listed(Snapshot(), ByOwner, owner)
    {
      var ids := Listing(owners, owner);
      count := 0;
      for i := 0 to |ids|
        invariant count == |Only(ids[..i], alerts.Keys)|
      {
        OnlyNext(ids, i, alerts.Keys);
        if ids[i] in alerts { count := count + 1; }
      }
      assert ids[..|ids|] == ids;
      CountIsOwned(Snapshot(), owner);
    }
  }

  lemma ModifiedConfigs(s: State, since: nat)
    ensures Configs(s.alerts, Iota(s.nextId), UpdatedIds(s.alerts, since)) == Lookup(s.alerts, ModifiedIds(s, since))
  {
    assert UpdatedIds(s.alerts, since) * s.alerts.Keys == UpdatedIds(s.alerts, since);
  }

  lemma OnlyNone(keep: set<nat>)
    ensures Only([], keep) == []
  {}

  lemma WindowNone<T>(offset: nat, width: nat)
    ensures Window<T>([], offset, width) == []
  {}

  lemma EnrollPrefix(s: State, caller: Address, inputs: seq<AlertInput>, k: nat)
    requires k < |inputs|
    ensures var es := Enrolments(caller, inputs);
            DoAll(s, es[..k + 1]) == if DoAll(s, es[..k]).Failed? then DoAll(s, es[..k])
                                     else DoEnroll(DoAll(s, es[..k]).state, caller, inputs[k], None)
  {
    hide DoAll, DoEnroll;
    PlanPrefix(s, Enrolments(caller, inputs), k);
  }

  lemma EnrollCounts(s: State, caller: Address, input: AlertInput)
    ensures var o := DoEnroll(s, caller, input, None); o.Done? ==> o.state.nextId == s.nextId + 1
  {
    hide Store, Put;
  }

  lemma RenewPrefix(s: State, ids: seq<nat>, k: nat)
    requires k < |ids|
    ensures var es := Renewals(ids);
            DoAll(s, es[..k + 1]) == if DoAll(s, es[..k]).Failed? then DoAll(s, es[..k])
                                     else DoRenew(DoAll(s, es[..k]).state, ids[k], DEFAULT_TTL)
  {
    hide DoAll, DoRenew;
    PlanPrefix(s, Renewals(ids), k);
  }

  lemma RenewKeepsKeys(s: State, id: nat, ttl: nat)
    ensures DoRenew(s, id, ttl).state.alerts.Keys == s.alerts.Keys
    ensures id !in s.alerts ==> DoRenew(s, id, ttl) == Done(s)
  {
    hide Touch;
  }

  lemma DeactivatePrefix(s: State, ids: seq<nat>, k: nat)
    requires k < |ids| && DoAll(s, Deactivations(ids)[..k]).Done?
    ensures var es := Deactivations(ids);
            var t := DoAll(s, es[..k]).state;
            DoAll(s, es[..k + 1]) ==
            Done(if ids[k] in t.alerts && t.alerts[ids[k]].value.active
                 then PutRecord(t, ids[k], t.alerts[ids[k]].value.(active := false, updatedAt := t.timestamp), true)
                 else t)
  {
    hide DoAll, PutRecord;
    PlanPrefix(s, Deactivations(ids), k);
  }

  /** Records of ids that are not among the first `k` are as they were. */
  ghost predicate Untouched(before: Records, after: Records, ids: seq<nat>, k: nat)
    requires k <= |ids|
  {
    && (forall id :: id in before && id !in ids[..k] ==> id in after && after[id] == before[id])
    && (forall id :: id in after && id !in ids[..k] ==> id in before)
  }

  lemma UntouchedNone(before: Records, ids: seq<nat>)
    ensures Untouched(before, before, ids, 0)
  {}

  lemma UntouchedNext(before: Records, after: Records, ids: seq<nat>, k: nat)
    requires k < |ids| && Untouched(before, after, ids, k) && NoDup(ids)
    ensures ids[k] in after && after[ids[k]].value.active <==> ids[k] in ActiveIds(before)
    ensures Untouched(before, after, ids, k + 1)
  {
    assert ids[..k + 1] == ids[..k] + [ids[k]];
    assert ids[k] !in ids[..k];
  }

  lemma UntouchedWrite(before: Records, after: Records, ids: seq<nat>, k: nat, c: AlertConfig, now: nat)
    requires k < |ids| && Untouched(before, after, ids, k + 1) && ids[k] in after
    ensures Untouched(before, Put(after, ids[k], c, now, DEFAULT_TTL), ids, k + 1)
  {
    assert ids[k] in ids[..k + 1];
  }

  lemma ListingNoDup(s: State, a: Address)
    requires Inv(s)
    ensures NoDup(Listing(s.owners, a)) && NoDup(Listing(s.targets, a))
  {}

  lemma {:induction false} InputFaultStays(inputs: seq<AlertInput>, n: nat, m: nat)
    requires n <= m <= |inputs| && InputFault(inputs, n).Fail?
    ensures InputFault(inputs, m) == InputFault(inputs, n)
  {
    if n < m { InputFaultStays(inputs, n, m - 1); }
  }

  lemma {:induction false} FaultStays(rules: seq<string>, n: nat, m: nat)
    requires n <= m <= |rules| && RuleFault(rules, n).Fail?
    ensures RuleFault(rules, m) == RuleFault(rules, n)
  {
    if n < m { FaultStays(rules, n, m - 1); }
  }
}
