/** What the storage effects leave alone, in a form the later arguments share. */
module Effects {
  import opened Host
  import opened Seqs
  import opened AlertModel

  /** Effects that change no record: lifetimes, lists, events and settings only. */
  predicate Quiet(e: Effect) {
    || e.Admit? || e.TouchIndexes? || e.Renew? || e.Keep?
    || e.Publish? || e.PutLimit? || e.PutPaused? || e.PutAdmins?
  }

  /** Effects that rewrite the record of one id. */
  predicate Rewrites(e: Effect) {
    e.Edit? || e.Deactivate? || e.Retarget? || e.Reassign?
  }

  /** Same live ids with the same contents; lifetimes may differ. */
  ghost predicate SameRecords(a: Records, b: Records) {
    a.Keys == b.Keys && forall id :: id in a ==> a[id].value == b[id].value
  }

  ghost predicate SameClock(s: State, t: State) {
    t.ledger == s.ledger && t.timestamp == s.timestamp
  }

  lemma TouchIsQuiet(s: State, c: AlertConfig, ttl: nat)
    ensures var t := DoTouch(s, c, ttl).state;
            t.alerts == s.alerts && t.nextId == s.nextId && SameClock(s, t) && t.events == s.events
  {
    hide Touch;
  }

  lemma RenewIsQuiet(s: State, id: nat, ttl: nat)
    ensures var t := DoRenew(s, id, ttl).state;
            && SameRecords(s.alerts, t.alerts) && t.nextId == s.nextId && SameClock(s, t)
            && (t.events == s.events || t.events == s.events + [Note(Bumped(id, ttl))])
  {
    hide DoTouch;
    if id in s.alerts && id in s.flags {
      var s1 := s.(alerts := Extend(s.alerts, id, s.ledger, ttl), flags := Extend(s.flags, id, s.ledger, ttl));
      TouchIsQuiet(s1, s.alerts[id].value, ttl);
    }
  }

  lemma QuietEffect(s: State, e: Effect)
    requires Quiet(e)
    ensures var t := Do(s, e).state; SameRecords(s.alerts, t.alerts) && t.nextId == s.nextId && SameClock(s, t)
  {
    hide DoTouch, DoRenew, Prune, DoEnroll, DoErase, DoEdit, DoRetarget, DoReassign, DoWait, PutRecord, Patched;
    match e
    case TouchIndexes(id) => if id in s.alerts { TouchIsQuiet(s, s.alerts[id].value, DEFAULT_TTL); }
    case Renew(id, ttl) => RenewIsQuiet(s, id, ttl);
    case _ =>
  }

  /** One record rewritten: under its old owner unless it is reassigned, for its old target unless it
      is retargeted, with its old webhook slot unless it is edited, and stamped with the time. */
  ghost predicate Rewritten(s: State, t: State, id: nat, e: Effect) {
    && t.alerts.Keys == s.alerts.Keys && t.nextId == s.nextId && SameClock(s, t)
    && (forall i :: i in s.alerts && i != id ==> t.alerts[i] == s.alerts[i])
    && (id in s.alerts ==>
          var c, d := s.alerts[id].value, t.alerts[id].value;
          || d == c
          || (&& d.updatedAt == s.timestamp && d.createdAt == c.createdAt
              && d.owner == (if e.Reassign? then e.newOwner else c.owner)
              && d.target == (if e.Retarget? then e.target else c.target)
              && (!e.Edit? ==> d.webhookHash == c.webhookHash && d.pending == c.pending)))
  }

  lemma PutIsRewrite(s: State, id: nat, c: AlertConfig, flagged: bool, e: Effect)
    requires id in s.alerts
    requires var b := s.alerts[id].value;
            && c.updatedAt == s.timestamp && c.createdAt == b.createdAt
            && c.owner == (if e.Reassign? then e.newOwner else b.owner)
            && c.target == (if e.Retarget? then e.target else b.target)
            && (!e.Edit? ==> c.webhookHash == b.webhookHash && c.pending == b.pending)
    ensures Rewritten(s, PutRecord(s, id, c, flagged), id, e)
  {}

  lemma RewritingEffect(s: State, e: Effect)
    requires Rewrites(e)
    ensures Rewritten(s, Do(s, e).state, e.id, e)
  {
    if e.id in s.alerts {
      var c := s.alerts[e.id].value;
      match e
      case Edit(id, patch) =>
        PutIsRewrite(s, id, Patched(c, patch, s.timestamp), patch.Rules? || patch.Active?, e);
      case Deactivate(id) => PutIsRewrite(s, id, Patched(c, Active(false), s.timestamp), true, e);
      case Retarget(id, target) =>
        hide Store, Without;
        PutIsRewrite(s, id, c.(target := target, updatedAt := s.timestamp), false, e);
      case Reassign(id, newOwner) =>
        hide Store, Without;
        PutIsRewrite(s, id, c.(owner := newOwner, updatedAt := s.timestamp), false, e);
    }
  }

  /** Enrolment adds one fresh record and moves the counter past it, unless the counter is spent. */
  lemma EnrollingEffect(s: State, owner: Address, input: AlertInput, tags: Option<seq<string>>)
    ensures var t := DoEnroll(s, owner, input, tags).state;
            && SameClock(s, t)
            && (t == s || (&& t.nextId == s.nextId + 1
                           && t.alerts.Keys == s.alerts.Keys + {s.nextId}
                           && t.alerts[s.nextId].value == NewConfig(owner, input, tags, s.timestamp)
                           && forall i :: i in s.alerts && i != s.nextId ==> t.alerts[i] == s.alerts[i]))
  {
    hide Store;
  }

  lemma ErasingEffect(s: State, id: nat, caller: Address, asAdmin: bool)
    ensures var t := DoErase(s, id, caller, asAdmin).state;
            t.alerts == s.alerts - {id} && t.nextId == s.nextId && SameClock(s, t)
  {
    hide Store, Without;
  }
}
