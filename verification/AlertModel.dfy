/** The AlertRegistry contract as a state machine.

    `Plan` makes an entry point's decision: which error it returns, or which storage effects it
    performs, in order. `Do` gives each effect its meaning on the stored entries. `Exec` runs the
    plan and shows the writes as they stand when the entry point returns; `Apply` adds the host's
    rollback of a call that returned an error. */
module AlertModel {
  import opened Host
  import opened Seqs

  const DEFAULT_TTL: nat := 120_960
  const MAX_TTL: nat := 535_680
  const MAX_BATCH_SIZE: nat := 50
  const MAX_TAGS: nat := 10
  const MAX_TAG_BYTES: nat := 32
  const RULES: set<string> := {"rule:transfer", "rule:mint", "rule:invoke", "rule:all"}

  // ---------------------------------------------------------------- data

  datatype AlertConfig = AlertConfig(
    name: string, webhookHash: string, rules: seq<string>, owner: Address, target: Address,
    createdAt: nat, updatedAt: nat, active: bool, pending: Option<string>, tags: Option<seq<string>>)

  datatype AlertInput = AlertInput(target: Address, name: string, webhookHash: string, rules: seq<string>)

  /** `MissingEntry` is the host's trap on `extend_ttl` of an absent key; the others are the
      contract's own error codes. */
  datatype Error =
    | Unauthorized | AlertNotFound | NotInitialized | InvalidWebhookHash | LabelTooLong
    | TooManyRules | InvalidRuleDescriptor | OwnerAlertLimitExceeded | DuplicateAlertId
    | NoPendingWebhook | ContractPaused | BatchTooLarge | EmptyRules | DuplicateRule
    | CounterOverflow | TooManyTags | TagTooLong | MissingEntry

  /** Published events; `Note` groups those that say nothing about which alerts exist or who owns them. */
  datatype Event =
    | Registered(id: nat, owner: Address, target: Address)
    | Removed(id: nat, caller: Address)
    | RemovedByAdmin(id: nat, admin: Address, owner: Address)
    | Transferred(id: nat, owner: Address, newOwner: Address)
    | Note(notice: Notice)

  datatype Notice =
    | Updated(id: nat, caller: Address, active: bool)
    | WebhookChanged(id: nat, caller: Address)
    | WebhookProposed(id: nat, caller: Address)
    | Bumped(id: nat, ttl: nat)
    | Tagged(id: nat, caller: Address)
    | LimitSet(admin: Address, limit: U32)
    | PauseSet(admin: Address, paused: bool)

  type Records = map<nat, Entry<AlertConfig>>
  type Index = map<Address, Entry<seq<nat>>>

  datatype State = State(
    alerts: Records, flags: map<nat, Entry<bool>>, owners: Index, targets: Index,
    nextId: nat, limit: U32, paused: bool, admins: Option<seq<Address>>,
    ledger: nat, timestamp: nat, events: seq<Event>)

  function Init(ledger: nat, timestamp: nat): State {
    State(map[], map[], map[], map[], 0, 0, false, None, ledger, timestamp, [])
  }

  // ---------------------------------------------------------------- results

  datatype Result<+T> = Ok(value: T) | Err(error: Error) {
    predicate IsFailure() { Err? }
    function PropagateFailure<U>(): Result<U> requires Err? { Err(error) }
    function Extract(): T requires Ok? { value }
  }

  datatype Guard = Pass | Fail(error: Error) {
    predicate IsFailure() { Fail? }
    function PropagateFailure<U>(): Result<U> requires Fail? { Err(error) }
  }

  function Need(condition: bool, error: Error): Guard {
    if condition then Pass else Fail(error)
  }

  // ---------------------------------------------------------------- index lists

  /** The stored list, or the empty list for an absent key. */
  function Listing(m: Index, a: Address): seq<nat> {
    if a in m then m[a].value else []
  }

  /** Stores `ids` under `a`; an empty list deletes the key. */
  function Store(m: Index, a: Address, ids: seq<nat>, now: nat): (r: Index)
    ensures forall b :: Listing(r, b) == if b == a then ids else Listing(m, b)
    ensures forall b :: b in m && b in r ==> r[b].liveUntil >= m[b].liveUntil
    ensures Tidy(m) && NoDup(ids) ==> Tidy(r)
  {
    if ids == [] then m - {a} else Put(m, a, ids, now, DEFAULT_TTL)
  }

  /** Deletes the ids that are no longer live from a list, writing only if there are any. */
  function Prune(m: Index, a: Address, live: set<nat>, now: nat): (r: Index)
    ensures forall b :: Listing(r, b) == if b == a then Only(Listing(m, a), live) else Listing(m, b)
    ensures forall b :: b in m && b in r ==> r[b].liveUntil >= m[b].liveUntil
    ensures Tidy(m) ==> Tidy(r)
  {
    var kept := Only(Listing(m, a), live);
    if |kept| == |Listing(m, a)| then m else Store(m, a, kept, now)
  }

  /** Extends the lifetime of a stored list. */
  function Touch(m: Index, a: Address, now: nat, ttl: nat): (r: Index)
    requires a in m
    ensures r.Keys == m.Keys && r[a].liveUntil >= now + ttl
    ensures forall b :: Listing(r, b) == Listing(m, b)
    ensures forall b :: b in m ==> r[b].liveUntil >= m[b].liveUntil
    ensures Tidy(m) ==> Tidy(r)
  {
    Extend(m, a, now, ttl)
  }

  /** No stored list is empty or lists an id twice. */
  ghost predicate Tidy(m: Index) {
    forall a :: a in m ==> m[a].value != [] && NoDup(m[a].value)
  }

  // ---------------------------------------------------------------- effects

  datatype Patch =
    | Rules(rules: seq<string>, active: bool)
    | Active(active: bool)
    | Hash(hash: string)
    | Pending(hash: string)
    | Confirm
    | Label(name: string)
    | Tags(tags: Option<seq<string>>)

  datatype Effect =
    | Admit(owner: Address, additional: nat)
    | Enroll(owner: Address, input: AlertInput, tags: Option<seq<string>>)
    | Edit(id: nat, patch: Patch)
    | TouchIndexes(id: nat)
    | Renew(id: nat, ttl: nat)
    | Keep(id: nat)
    | Deactivate(id: nat)
    | Erase(id: nat, caller: Address, asAdmin: bool)
    | Retarget(id: nat, target: Address)
    | Reassign(id: nat, newOwner: Address)
    | Publish(notice: Notice)
    | PutLimit(limit: U32)
    | PutPaused(paused: bool)
    | PutAdmins(admins: Option<seq<Address>>)
    | Wait(ledgers: nat, seconds: nat)

  datatype Outcome = Done(state: State) | Failed(state: State, error: Error)

  function Emit(s: State, e: Event): State { s.(events := s.events + [e]) }

  function NewConfig(owner: Address, input: AlertInput, tags: Option<seq<string>>, now: nat): AlertConfig {
    AlertConfig(input.name, input.webhookHash, input.rules, owner, input.target, now, now, true, None, tags)
  }

  function Patched(c: AlertConfig, p: Patch, now: nat): AlertConfig {
    var d := match p
      case Rules(rules, active) => c.(rules := rules, active := active)
      case Active(active) => c.(active := active)
      case Hash(hash) => c.(webhookHash := hash)
      case Pending(hash) => c.(pending := Some(hash))
      case Confirm => if c.pending.Some? then c.(webhookHash := c.pending.value, pending := None) else c
      case Label(name) => c.(name := name)
      case Tags(tags) => c.(tags := tags);
    d.(updatedAt := now)
  }

  /** Writes a record and, with `flagged`, the separately stored copy of its `active` field. */
  function PutRecord(s: State, id: nat, c: AlertConfig, flagged: bool): State {
    s.(alerts := Put(s.alerts, id, c, s.ledger, DEFAULT_TTL),
       flags := if flagged then Put(s.flags, id, c.active, s.ledger, DEFAULT_TTL) else s.flags)
  }

  function DoAdmit(s: State, owner: Address, additional: nat): Outcome {
    if s.limit == 0 then Done(s) else
      var pruned := s.(owners := Prune(s.owners, owner, s.alerts.Keys, s.ledger));
      if SaturatingAdd(|Listing(pruned.owners, owner)|, additional) > s.limit
      then Failed(pruned, OwnerAlertLimitExceeded)
      else Done(pruned)
  }

  /** Lists a freshly written record in both indexes and announces it. */
  function DoList(s: State, id: nat, owner: Address, target: Address): Outcome {
    if id in Listing(s.owners, owner) then Failed(s, DuplicateAlertId) else
      var s1 := s.(owners := Store(s.owners, owner, Listing(s.owners, owner) + [id], s.ledger));
      if id in Listing(s1.targets, target) then Failed(s1, DuplicateAlertId) else
        var s2 := s1.(targets := Store(s1.targets, target, Listing(s1.targets, target) + [id], s.ledger));
        Done(Emit(s2, Registered(id, owner, target)))
  }

  function DoEnroll(s: State, owner: Address, input: AlertInput, tags: Option<seq<string>>): Outcome {
    var id := s.nextId;
    if id >= U64_MAX then Failed(s, CounterOverflow) else
      var c := NewConfig(owner, input, tags, s.timestamp);
      DoList(PutRecord(s.(nextId := id + 1), id, c, true), id, owner, input.target)
  }

  function DoEdit(s: State, id: nat, patch: Patch): Outcome {
    if id !in s.alerts then Failed(s, AlertNotFound)
    else if patch.Confirm? && s.alerts[id].value.pending.None? then Failed(s, NoPendingWebhook)
    else Done(PutRecord(s, id, Patched(s.alerts[id].value, patch, s.timestamp), patch.Rules? || patch.Active?))
  }

  /** Extends both index lists of a record. */
  function DoTouch(s: State, c: AlertConfig, ttl: nat): Outcome {
    if c.owner !in s.owners then Failed(s, MissingEntry) else
      var s1 := s.(owners := Touch(s.owners, c.owner, s.ledger, ttl));
      if c.target !in s1.targets then Failed(s1, MissingEntry)
      else Done(s1.(targets := Touch(s1.targets, c.target, s.ledger, ttl)))
  }

  /** Extends all four entries of a live alert; an absent alert is skipped. */
  function DoRenew(s: State, id: nat, ttl: nat): Outcome {
    if id !in s.alerts then Done(s) else
      var s1 := s.(alerts := Extend(s.alerts, id, s.ledger, ttl));
      if id !in s1.flags then Failed(s1, MissingEntry) else
        var o := DoTouch(s1.(flags := Extend(s1.flags, id, s.ledger, ttl)), s.alerts[id].value, ttl);
        if o.Failed? then o else Done(Emit(o.state, Note(Bumped(id, ttl))))
  }

  function DoErase(s: State, id: nat, caller: Address, asAdmin: bool): Outcome {
    if id !in s.alerts then Failed(s, AlertNotFound) else
      var c := s.alerts[id].value;
      var s1 := s.(
        alerts := s.alerts - {id},
        flags := s.flags - {id},
        owners := Store(s.owners, c.owner, Without(Listing(s.owners, c.owner), id), s.ledger),
        targets := Store(s.targets, c.target, Without(Listing(s.targets, c.target), id), s.ledger));
      Done(Emit(s1, if asAdmin then RemovedByAdmin(id, caller, c.owner) else Removed(id, caller)))
  }

  function DoRetarget(s: State, id: nat, target: Address): Outcome {
    if id !in s.alerts then Failed(s, AlertNotFound) else
      var c := s.alerts[id].value;
      var s1 := PutRecord(s, id, c.(target := target, updatedAt := s.timestamp), false);
      var s2 := s1.(targets := Store(s1.targets, c.target, Without(Listing(s1.targets, c.target), id), s.ledger));
      if id in Listing(s2.targets, target) then Failed(s2, DuplicateAlertId)
      else Done(s2.(targets := Store(s2.targets, target, Listing(s2.targets, target) + [id], s.ledger)))
  }

  function DoReassign(s: State, id: nat, newOwner: Address): Outcome {
    if id !in s.alerts then Failed(s, AlertNotFound) else
      var c := s.alerts[id].value;
      var s1 := s.(owners := Store(s.owners, c.owner, Without(Listing(s.owners, c.owner), id), s.ledger));
      if id in Listing(s1.owners, newOwner) then Failed(s1, DuplicateAlertId) else
        var s2 := s1.(owners := Store(s1.owners, newOwner, Listing(s1.owners, newOwner) + [id], s.ledger));
        var s3 := PutRecord(s2, id, c.(owner := newOwner, updatedAt := s.timestamp), false);
        Done(Emit(s3, Transferred(id, c.owner, newOwner)))
  }

  /** Time passes: entries whose lifetime has run out become unreadable for good. */
  function DoWait(s: State, ledgers: nat, seconds: nat): State {
    var now := s.ledger + ledgers;
    s.(alerts := Surviving(s.alerts, now), flags := Surviving(s.flags, now),
       owners := Surviving(s.owners, now), targets := Surviving(s.targets, now),
       ledger := now, timestamp := s.timestamp + seconds)
  }

  function Do(s: State, e: Effect): Outcome {
    match e
    case Admit(owner, additional) => DoAdmit(s, owner, additional)
    case Enroll(owner, input, tags) => DoEnroll(s, owner, input, tags)
    case Edit(id, patch) => DoEdit(s, id, patch)
    case TouchIndexes(id) =>
      if id in s.alerts then DoTouch(s, s.alerts[id].value, DEFAULT_TTL) else Failed(s, AlertNotFound)
    case Renew(id, ttl) => DoRenew(s, id, ttl)
    case Keep(id) =>
      Done(if id in s.alerts then s.(alerts := Extend(s.alerts, id, s.ledger, DEFAULT_TTL)) else s)
    case Deactivate(id) =>
      Done(if id in s.alerts && s.alerts[id].value.active
           then PutRecord(s, id, Patched(s.alerts[id].value, Active(false), s.timestamp), true) else s)
    case Erase(id, caller, asAdmin) => DoErase(s, id, caller, asAdmin)
    case Retarget(id, target) => DoRetarget(s, id, target)
    case Reassign(id, newOwner) => DoReassign(s, id, newOwner)
    case Publish(notice) => Done(Emit(s, Note(notice)))
    case PutLimit(limit) => Done(s.(limit := limit))
    case PutPaused(paused) => Done(s.(paused := paused))
    case PutAdmins(admins) => Done(s.(admins := admins))
    case Wait(ledgers, seconds) => Done(DoWait(s, ledgers, seconds))
  }

  /** Runs effects in order and stops at the first that fails. */
  function DoAll(s: State, es: seq<Effect>): Outcome
    decreases |es|
  {
    if es == [] then Done(s) else
      match DoAll(s, es[..|es| - 1])
      case Failed(t, error) => Failed(t, error)
      case Done(t) => Do(t, es[|es| - 1])
  }

  // ---------------------------------------------------------------- validation

  /** The first fault among the first `n` rules. */
  function RuleFault(rules: seq<string>, n: nat): (g: Guard)
    requires n <= |rules|
    ensures g.Fail? ==> g.error in {InvalidRuleDescriptor, DuplicateRule}
  {
    if n == 0 then Pass
    else if RuleFault(rules, n - 1).Fail? then RuleFault(rules, n - 1)
    else if rules[n - 1] !in RULES then Fail(InvalidRuleDescriptor)
    else Need(rules[n - 1] !in rules[..n - 1], DuplicateRule)
  }

  function ValidRules(rules: seq<string>): Guard {
    if rules == [] then Fail(EmptyRules)
    else if |rules| > 50 then Fail(TooManyRules)
    else RuleFault(rules, |rules|)
  }

  function ValidLabel(name: string): Guard { Need(|name| <= 128, LabelTooLong) }

  function ValidTags(tags: Option<seq<string>>): Guard {
    match tags
    case None => Pass
    case Some(t) =>
      if |t| > MAX_TAGS then Fail(TooManyTags)
      else Need(forall i :: 0 <= i < |t| ==> |t[i]| <= MAX_TAG_BYTES, TagTooLong)
  }

  function ValidInput(input: AlertInput): Guard {
    if |input.webhookHash| != 64 then Fail(InvalidWebhookHash)
    else if ValidLabel(input.name).Fail? then ValidLabel(input.name)
    else ValidRules(input.rules)
  }

  /** The first fault among the first `n` inputs. */
  function InputFault(inputs: seq<AlertInput>, n: nat): (g: Guard)
    requires n <= |inputs|
    ensures g.Fail? ==> exists i :: 0 <= i < n && ValidInput(inputs[i]) == g
  {
    if n == 0 then Pass
    else if InputFault(inputs, n - 1).Fail? then InputFault(inputs, n - 1)
    else ValidInput(inputs[n - 1])
  }

  function NotPaused(s: State): Guard { Need(!s.paused, ContractPaused) }

  function IsAdmin(s: State, who: Address): Guard {
    if s.admins.None? then Fail(NotInitialized) else Need(who in s.admins.value, Unauthorized)
  }

  function Live(s: State, id: nat): Guard { Need(id in s.alerts, AlertNotFound) }

  function OwnedBy(s: State, id: nat, caller: Address): Guard {
    if id !in s.alerts then Fail(AlertNotFound) else Need(s.alerts[id].value.owner == caller, Unauthorized)
  }

  // ---------------------------------------------------------------- entry points

  datatype Op =
    | Register(owner: Address, input: AlertInput, tags: Option<seq<string>>)
    | BatchRegister(caller: Address, inputs: seq<AlertInput>)
    | SetActiveByAdmin(admin: Address, id: nat, active: bool)
    | UpdateAlert(caller: Address, id: nat, rules: seq<string>, active: bool)
    | UpdateWebhook(caller: Address, id: nat, hash: string)
    | ProposeWebhook(caller: Address, id: nat, hash: string)
    | ConfirmWebhook(caller: Address, id: nat)
    | UpdateLabel(caller: Address, id: nat, name: string)
    | RemoveAlert(caller: Address, id: nat)
    | RemoveAlertByAdmin(admin: Address, id: nat)
    | BumpAlert(id: nat, ttl: nat)
    | BulkRenew(ids: seq<nat>)
    | GetAlert(id: nat)
    | DeactivateAll(caller: Address)
    | UpdateTarget(caller: Address, id: nat, target: Address)
    | UpdateTags(caller: Address, id: nat, tags: Option<seq<string>>)
    | TransferOwnership(owner: Address, id: nat, newOwner: Address)
    | SetLimit(admin: Address, limit: U32)
    | SetPaused(admin: Address, paused: bool)
    // The environment: any change of the admin set, and the passing of time.
    | SetAdmins(admins: Option<seq<Address>>)
    | Advance(ledgers: nat, seconds: nat)

  function Enrolments(caller: Address, inputs: seq<AlertInput>): (r: seq<Effect>)
    ensures |r| == |inputs|
  {
    seq(|inputs|, i requires 0 <= i < |inputs| => Enroll(caller, inputs[i], None))
  }

  function Renewals(ids: seq<nat>): seq<Effect> {
    seq(|ids|, i requires 0 <= i < |ids| => Renew(ids[i], DEFAULT_TTL))
  }

  function Deactivations(ids: seq<nat>): seq<Effect> {
    seq(|ids|, i requires 0 <= i < |ids| => Deactivate(ids[i]))
  }

  function Plan(s: State, op: Op): Result<seq<Effect>> {
    match op
    case Register(owner, input, tags) =>
      :- NotPaused(s);
      :- ValidInput(input);
      :- ValidTags(tags);
      Ok([Admit(owner, 1), Enroll(owner, input, tags)])
    case BatchRegister(caller, inputs) =>
      :- NotPaused(s);
      :- Need(|inputs| <= MAX_BATCH_SIZE, BatchTooLarge);
      :- InputFault(inputs, |inputs|);
      Ok([Admit(caller, |inputs|)] + Enrolments(caller, inputs))
    case SetActiveByAdmin(admin, id, active) =>
      :- IsAdmin(s, admin);
      :- Live(s, id);
      Ok([Edit(id, Active(active)), Publish(Updated(id, admin, active))])
    case UpdateAlert(caller, id, rules, active) =>
      :- NotPaused(s);
      :- OwnedBy(s, id, caller);
      :- ValidRules(rules);
      Ok([Edit(id, Rules(rules, active)), TouchIndexes(id), Publish(Updated(id, caller, active))])
    case UpdateWebhook(caller, id, hash) =>
      :- NotPaused(s);
      :- OwnedBy(s, id, caller);
      :- Need(|hash| == 64, InvalidWebhookHash);
      Ok([Edit(id, Hash(hash)), TouchIndexes(id), Publish(WebhookChanged(id, caller))])
    case ProposeWebhook(caller, id, hash) =>
      :- OwnedBy(s, id, caller);
      Ok([Edit(id, Pending(hash)), Publish(WebhookProposed(id, caller))])
    case ConfirmWebhook(caller, id) =>
      :- OwnedBy(s, id, caller);
      Ok([Edit(id, Confirm), Publish(WebhookChanged(id, caller))])
    case UpdateLabel(caller, id, name) =>
      :- NotPaused(s);
      :- ValidLabel(name);
      :- OwnedBy(s, id, caller);
      Ok([Edit(id, Label(name)), TouchIndexes(id), Publish(Updated(id, caller, s.alerts[id].value.active))])
    case RemoveAlert(caller, id) =>
      :- NotPaused(s);
      :- OwnedBy(s, id, caller);
      Ok([Erase(id, caller, false)])
    case RemoveAlertByAdmin(admin, id) =>
      :- NotPaused(s);
      :- IsAdmin(s, admin);
      :- Live(s, id);
      Ok([Erase(id, admin, true)])
    case BumpAlert(id, ttl) =>
      :- NotPaused(s);
      :- Live(s, id);
      Ok([Renew(id, Min(ttl, MAX_TTL))])
    case BulkRenew(ids) =>
      :- Need(|ids| <= MAX_BATCH_SIZE, TooManyRules);
      Ok(Renewals(ids))
    case GetAlert(id) => Ok([Keep(id)])
    case DeactivateAll(caller) =>
      :- NotPaused(s);
      Ok(Deactivations(Listing(s.owners, caller)))
    case UpdateTarget(caller, id, target) =>
      :- NotPaused(s);
      :- OwnedBy(s, id, caller);
      Ok([Retarget(id, target)])
    case UpdateTags(caller, id, tags) =>
      :- NotPaused(s);
      :- OwnedBy(s, id, caller);
      :- ValidTags(tags);
      Ok([Edit(id, Tags(tags)), Publish(Tagged(id, caller))])
    case TransferOwnership(owner, id, newOwner) =>
      :- NotPaused(s);
      :- OwnedBy(s, id, owner);
      Ok(if newOwner == owner then [] else [Admit(newOwner, 1), Reassign(id, newOwner)])
    case SetLimit(admin, limit) =>
      :- IsAdmin(s, admin);
      Ok([PutLimit(limit), Publish(LimitSet(admin, limit))])
    case SetPaused(admin, paused) =>
      :- IsAdmin(s, admin);
      Ok([PutPaused(paused), Publish(PauseSet(admin, paused))])
    case SetAdmins(admins) => Ok([PutAdmins(admins)])
    case Advance(ledgers, seconds) => Ok([Wait(ledgers, seconds)])
  }

  /** The stored entries as an entry point leaves them, before any rollback. */
  function Exec(s: State, op: Op): Outcome {
    match Plan(s, op)
    case Err(error) => Failed(s, error)
    case Ok(es) => DoAll(s, es)
  }

  /** One call as the ledger sees it: an error rolls every write back. */
  function Apply(s: State, op: Op): State {
    if Exec(s, op).Done? then Exec(s, op).state else s
  }

  /** A whole history of calls and environment steps. */
  function Run(s: State, ops: seq<Op>): State
    decreases |ops|
  {
    if ops == [] then s else Apply(Run(s, ops[..|ops| - 1]), ops[|ops| - 1])
  }

  /** Call `i` of a history goes through. */
  predicate Succeeds(s: State, ops: seq<Op>, i: nat)
    requires i < |ops|
  {
    Exec(Run(s, ops[..i]), ops[i]).Done?
  }

  // ---------------------------------------------------------------- unfolding

  lemma RunNext(s: State, ops: seq<Op>, k: nat)
    requires k < |ops|
    ensures Run(s, ops[..k + 1]) == Apply(Run(s, ops[..k]), ops[k])
  {
    assert ops[..k + 1][..k] == ops[..k];
  }

  lemma DoNone(s: State)
    ensures DoAll(s, []) == Done(s)
  {}

  lemma AdmitIsDo(s: State, owner: Address, additional: nat)
    ensures Do(s, Admit(owner, additional)) == DoAdmit(s, owner, additional)
  {}

  lemma DoAllNext(s: State, es: seq<Effect>, e: Effect)
    ensures DoAll(s, es + [e]) == if DoAll(s, es).Done? then Do(DoAll(s, es).state, e) else DoAll(s, es)
  {
    assert (es + [e])[..|es|] == es;
  }

  /** A plan of at most three effects, one effect at a time. */
  lemma DoAllShort(s: State, a: Effect, b: Effect, c: Effect)
    ensures DoAll(s, [a]) == Do(s, a)
    ensures DoAll(s, [a, b]) == if Do(s, a).Done? then Do(Do(s, a).state, b) else Do(s, a)
    ensures DoAll(s, [a, b, c]) == if DoAll(s, [a, b]).Done? then Do(DoAll(s, [a, b]).state, c) else DoAll(s, [a, b])
  {
    DoAllNext(s, [], a);
    DoAllNext(s, [a], b);
    DoAllNext(s, [a, b], c);
    assert [] + [a] == [a] && [a] + [b] == [a, b] && [a, b] + [c] == [a, b, c];
  }

  lemma AdvanceIsWait(s: State, op: Op)
    requires op.Advance?
    ensures Apply(s, op) == DoWait(s, op.ledgers, op.seconds)
  {
    hide DoAll, DoWait;
    DoAllShort(s, Wait(op.ledgers, op.seconds), PutPaused(false), PutPaused(false));
  }
}
