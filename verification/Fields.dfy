/** Which call may change which field of a record, and to what; and so where each field of a live alert
    comes from. */
module Fields {
  import opened Host
  import opened Seqs
  import opened AlertModel
  import opened AlertInvariant
  import opened Enrolment
  import opened Rows
  import opened Loops

  // ---------------------------------------------------------------- one call

  /** Field by field, what a successful call makes of a record that is live before and after it. */
  ghost predicate FieldsAfter(s: State, op: Op, id: nat, c: AlertConfig, d: AlertConfig) {
    && d.name == (if op.UpdateLabel? && op.id == id then op.name else c.name)
    && d.rules == (if op.UpdateAlert? && op.id == id then op.rules else c.rules)
    && d.tags == (if op.UpdateTags? && op.id == id then op.tags else c.tags)
    && d.owner == (if op.TransferOwnership? && op.id == id then op.newOwner else c.owner)
    && d.target == (if op.UpdateTarget? && op.id == id then op.target else c.target)
    && d.webhookHash == (if op.UpdateWebhook? && op.id == id then op.hash
                         else if op.ConfirmWebhook? && op.id == id && c.pending.Some? then c.pending.value
                         else c.webhookHash)
    && d.pending == (if op.ProposeWebhook? && op.id == id then Some(op.hash)
                     else if op.ConfirmWebhook? && op.id == id then None
                     else c.pending)
    && d.active == (if op.UpdateAlert? && op.id == id then op.active
                    else if op.SetActiveByAdmin? && op.id == id then op.active
                    else if op.DeactivateAll? && id in Listing(s.owners, op.caller) then false
                    else c.active)
    && d.createdAt == c.createdAt
    && d.updatedAt == (if Stamps(s, op, id, c) then s.timestamp else c.updatedAt)
  }

  /** The calls that count as an update of `id`. */
  predicate Stamps(s: State, op: Op, id: nat, c: AlertConfig) {
    || (Edits(op) && op.id == id)
    || (op.UpdateTarget? && op.id == id)
    || (op.TransferOwnership? && op.id == id && op.newOwner != op.owner)
    || (op.DeactivateAll? && id in Listing(s.owners, op.caller) && c.active)
  }

  /** Which ids a successful call leaves live. */
  predicate LiveAfter(s: State, op: Op, id: nat) {
    match op
    case Register(_, _, _) => id in s.alerts || id == s.nextId
    case BatchRegister(_, inputs) => id in s.alerts || s.nextId <= id < s.nextId + |inputs|
    case RemoveAlert(_, gone) => id in s.alerts && id != gone
    case RemoveAlertByAdmin(_, gone) => id in s.alerts && id != gone
    case Advance(ledgers, _) => id in s.alerts && s.alerts[id].liveUntil >= s.ledger + ledgers
    case _ => id in s.alerts
  }

  /** The two laws together, for one call and one id. */
  ghost predicate Lawful(s: State, t: State, op: Op, id: nat) {
    && (id in t.alerts <==> LiveAfter(s, op, id))
    && (id in s.alerts && id in t.alerts ==> FieldsAfter(s, op, id, s.alerts[id].value, t.alerts[id].value))
  }

  lemma EnrolledLawful(s: State, p: State, t: State, op: Op, owner: Address, inputs: seq<AlertInput>, tags: Option<seq<string>>, id: nat)
    requires (|inputs| == 1 && op == Register(owner, inputs[0], tags)) || op == BatchRegister(owner, inputs)
    requires PrunedOf(s, p, owner) && Enrolled(p, t, owner, inputs, tags)
    ensures Lawful(s, t, op, id)
  {
    hide Stores, Appended, Announcements, Only;
  }

  lemma EditedLawful(s: State, t: State, op: Op, id: nat)
    requires Edits(op) && Edited(s, t, op)
    ensures Lawful(s, t, op, id)
  {}

  lemma RemovedLawful(s: State, op: Op, id: nat)
    requires Removes(op) && Exec(s, op).Done?
    ensures Lawful(s, Apply(s, op), op, id)
  {
    hide Exec, Apply, Dropped;
    RemoveRow(s, op);
  }

  lemma MovedLawful(s: State, op: Op, id: nat)
    requires (op.UpdateTarget? || op.TransferOwnership?) && Exec(s, op).Done?
    ensures Lawful(s, Apply(s, op), op, id)
  {
    hide Exec, Apply, Dropped, Added, PrunedOf;
    if op.UpdateTarget? {
      RetargetRow(s, op);
    } else if op.newOwner == op.owner {
      SelfTransferRow(s, op);
    } else {
      var p := TransferRow(s, op);
    }
  }

  lemma SwitchedLawful(s: State, op: Op, id: nat)
    requires op.DeactivateAll? && Exec(s, op).Done?
    ensures Lawful(s, Apply(s, op), op, id)
  {
    hide Exec, Apply, Listing;
    DeactivateAllSwitchesOff(s, op.caller);
  }

  /** The calls that leave the contents of every record alone. */
  predicate KeepsContents(op: Op) {
    op.GetAlert? || op.SetLimit? || op.SetPaused? || op.SetAdmins? || op.BumpAlert? || op.BulkRenew?
  }

  lemma SameContents(s: State, op: Op)
    requires KeepsContents(op) && Exec(s, op).Done?
    ensures var t := Apply(s, op);
            t.alerts.Keys == s.alerts.Keys && forall id :: id in s.alerts ==> t.alerts[id].value == s.alerts[id].value
  {
    hide Exec, Apply, Bumps, LiveOf, OwnersFor, TargetsFor;
    if op.BumpAlert? {
      BumpRow(s, op);
    } else if op.BulkRenew? {
      BulkRenewProlongs(s, op.ids);
    } else {
      OtherRow(s, op);
    }
  }

  lemma SameContentsLawful(s: State, t: State, op: Op, id: nat)
    requires KeepsContents(op)
    requires t.alerts.Keys == s.alerts.Keys && (id in s.alerts ==> t.alerts[id].value == s.alerts[id].value)
    ensures Lawful(s, t, op, id)
  {}

  lemma AdvanceLawful(s: State, op: Op, id: nat)
    requires op.Advance?
    ensures Lawful(s, Apply(s, op), op, id)
  {
    hide Exec, Apply;
    AdvanceIsWait(s, op);
  }

  /** Every successful call, every id. */
  lemma CallIsLawful(s: State, op: Op, id: nat)
    requires Inv(s) && Exec(s, op).Done?
    ensures Lawful(s, Apply(s, op), op, id)
  {
    hide Inv, Exec, Apply, Lawful, Edited, Enrolled, PrunedOf;
    if op.Register? {
      var p := RegisterEnrols(s, op.owner, op.input, op.tags);
      EnrolledLawful(s, p, Apply(s, op), op, op.owner, [op.input], op.tags, id);
    } else if op.BatchRegister? {
      var p := BatchEnrols(s, op.caller, op.inputs);
      EnrolledLawful(s, p, Apply(s, op), op, op.caller, op.inputs, None, id);
    } else if Edits(op) {
      EditRow(s, op);
      EditedLawful(s, Apply(s, op), op, id);
    } else if Removes(op) {
      RemovedLawful(s, op, id);
    } else if op.UpdateTarget? || op.TransferOwnership? {
      MovedLawful(s, op, id);
    } else if op.DeactivateAll? {
      SwitchedLawful(s, op, id);
    } else if op.Advance? {
      AdvanceLawful(s, op, id);
    } else {
      SameContents(s, op);
      SameContentsLawful(s, Apply(s, op), op, id);
    }
  }

  // ---------------------------------------------------------------- whole histories

  datatype Field = Name | Rules | Tags | Owner | Target | Active | Created | Updated

  datatype Content =
    | Text(text: string) | Texts(texts: seq<string>) | Optional(maybe: Option<seq<string>>)
    | Flag(flag: bool) | Time(time: nat)

  function Read(c: AlertConfig, f: Field): Content {
    match f
    case Name => Text(c.name)
    case Rules => Texts(c.rules)
    case Tags => Optional(c.tags)
    case Owner => Text(c.owner)
    case Target => Text(c.target)
    case Active => Flag(c.active)
    case Created => Time(c.createdAt)
    case Updated => Time(c.updatedAt)
  }

  predicate Registers(s: State, op: Op, id: nat) {
    || (op.Register? && id == s.nextId)
    || (op.BatchRegister? && s.nextId <= id < s.nextId + |op.inputs|)
  }

  /** What a successful call gives field `f` of `id`, if it gives it anything. */
  function Given(s: State, op: Op, id: nat, f: Field): Option<Content> {
    if Registers(s, op, id) then
      var input := if op.Register? then op.input else op.inputs[id - s.nextId];
      Some(match f
           case Name => Text(input.name)
           case Rules => Texts(input.rules)
           case Tags => Optional(if op.Register? then op.tags else None)
           case Owner => Text(if op.Register? then op.owner else op.caller)
           case Target => Text(input.target)
           case Active => Flag(true)
           case Created => Time(s.timestamp)
           case Updated => Time(s.timestamp))
    else
      match f
      case Name => if op.UpdateLabel? && op.id == id then Some(Text(op.name)) else None
      case Rules => if op.UpdateAlert? && op.id == id then Some(Texts(op.rules)) else None
      case Tags => if op.UpdateTags? && op.id == id then Some(Optional(op.tags)) else None
      case Owner => if op.TransferOwnership? && op.id == id then Some(Text(op.newOwner)) else None
      case Target => if op.UpdateTarget? && op.id == id then Some(Text(op.target)) else None
      case Active =>
        if (op.UpdateAlert? || op.SetActiveByAdmin?) && op.id == id then Some(Flag(op.active))
        else if op.DeactivateAll? && id in Listing(s.owners, op.caller) then Some(Flag(false))
        else None
      case Created => None
      case Updated =>
        if id in s.alerts && Stamps(s, op, id, s.alerts[id].value) then Some(Time(s.timestamp)) else None
  }

  lemma RegisteredRead(s: State, op: Op, id: nat, f: Field)
    requires Inv(s) && Exec(s, op).Done? && Registers(s, op, id)
    ensures id in Apply(s, op).alerts && Given(s, op, id, f) == Some(Read(Apply(s, op).alerts[id].value, f))
  {
    hide Inv, Exec, Apply, Announcements;
    if op.Register? {
      RegisterStores(s, op.owner, op.input, op.tags);
    } else {
      BatchStores(s, op.caller, op.inputs);
      var i := id - s.nextId;
      var input := op.inputs[i];
      assert Stores(Apply(s, op).alerts[id], op.caller, input, None, s);
    }
  }

  lemma FieldStep(s: State, op: Op, id: nat, f: Field, d: AlertConfig)
    requires id in s.alerts && !Registers(s, op, id) && FieldsAfter(s, op, id, s.alerts[id].value, d)
    ensures Read(d, f) == if Given(s, op, id, f).Some? then Given(s, op, id, f).value else Read(s.alerts[id].value, f)
  {
    hide Listing;
  }

  lemma NewIsRegistered(s: State, op: Op, id: nat)
    requires id !in s.alerts && LiveAfter(s, op, id)
    ensures Registers(s, op, id)
  {}

  /** One successful call: a field given something has it, any other is as before. */
  lemma GivenStep(s: State, op: Op, id: nat, f: Field)
    requires Inv(s) && Exec(s, op).Done? && id in Apply(s, op).alerts
    ensures Given(s, op, id, f).Some? ==> Given(s, op, id, f).value == Read(Apply(s, op).alerts[id].value, f)
    ensures Given(s, op, id, f).None? ==>
              id in s.alerts && Read(Apply(s, op).alerts[id].value, f) == Read(s.alerts[id].value, f)
  {
    BelowCounter(s);
    hide Inv, Exec, Apply, Given, Read, FieldsAfter, LiveAfter, Registers;
    CallIsLawful(s, op, id);
    if Registers(s, op, id) {
      RegisteredRead(s, op, id, f);
    } else {
      if id !in s.alerts { NewIsRegistered(s, op, id); }
      FieldStep(s, op, id, f, Apply(s, op).alerts[id].value);
    }
  }

  /** Call `j` is the last before call `k` that gave the field anything, and it gave it this. */
  ghost predicate GaveLast(s: State, ops: seq<Op>, j: nat, k: nat, id: nat, f: Field, content: Content)
    requires k <= |ops|
  {
    && j < k && Succeeds(s, ops, j)
    && Given(Run(s, ops[..j]), ops[j], id, f) == Some(content)
    && forall m :: j < m < k && Succeeds(s, ops, m) ==> Given(Run(s, ops[..m]), ops[m], id, f).None?
  }

  lemma GaveNow(s: State, ops: seq<Op>, k: nat, id: nat, f: Field, content: Content)
    requires k < |ops| && Succeeds(s, ops, k) && Given(Run(s, ops[..k]), ops[k], id, f) == Some(content)
    ensures GaveLast(s, ops, k, k + 1, id, f, content)
  {}

  lemma GaveBefore(s: State, ops: seq<Op>, j: nat, k: nat, id: nat, f: Field, content: Content)
    requires k < |ops| && GaveLast(s, ops, j, k, id, f, content)
    requires Succeeds(s, ops, k) ==> Given(Run(s, ops[..k]), ops[k], id, f).None?
    ensures GaveLast(s, ops, j, k + 1, id, f, content)
  {
    hide Given, Succeeds, Run;
  }

  /** Over any history each of these fields of a live alert holds what the last call to give it
      something gave: its own update call, or else the registration of the alert. */
  lemma {:induction false} LastGivenHolds(ledger: nat, timestamp: nat, ops: seq<Op>, k: nat, id: nat, f: Field)
      returns (j: nat)
    requires k <= |ops| && id in Run(Init(ledger, timestamp), ops[..k]).alerts
    ensures GaveLast(Init(ledger, timestamp), ops, j, k, id, f, Read(Run(Init(ledger, timestamp), ops[..k]).alerts[id].value, f))
    decreases k
  {
    var s0 := Init(ledger, timestamp);
    hide Inv, Exec, Given, Read, GaveLast;
    InitInv(ledger, timestamp);
    assert ops[..0] == [];
    j := 0;
    if k != 0 {
      var s, op := Run(s0, ops[..k - 1]), ops[k - 1];
      hide Run;
      RunKeepsInv(s0, ops[..k - 1]);
      RunNext(s0, ops, k - 1);
      if Exec(s, op).Done? {
        GivenStep(s, op, id, f);
        if Given(s, op, id, f).Some? {
          j := k - 1;
          GaveNow(s0, ops, k - 1, id, f, Given(s, op, id, f).value);
          return;
        }
      }
      j := LastGivenHolds(ledger, timestamp, ops, k - 1, id, f);
      GaveBefore(s0, ops, j, k - 1, id, f, Read(s.alerts[id].value, f));
    }
  }
}
