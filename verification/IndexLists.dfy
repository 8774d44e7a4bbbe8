/** The inverted indexes, each judged against the map `place` that says under which address every
    live id belongs: its owner for one index, its target contract for the other. */
module IndexLists {
  import opened Host
  import opened Seqs
  import opened AlertModel

  function OwnerOf(alerts: Records): map<nat, Address> {
    map id | id in alerts :: alerts[id].value.owner
  }

  function TargetOf(alerts: Records): map<nat, Address> {
    map id | id in alerts :: alerts[id].value.target
  }

  lemma PutPlaces(alerts: Records, id: nat, c: AlertConfig, now: nat, ttl: nat)
    ensures OwnerOf(Put(alerts, id, c, now, ttl)) == OwnerOf(alerts)[id := c.owner]
    ensures TargetOf(Put(alerts, id, c, now, ttl)) == TargetOf(alerts)[id := c.target]
  {}

  /** Rewriting a record under its old owner, or for its old target, moves no place. */
  lemma PutSamePlaces(alerts: Records, id: nat, c: AlertConfig, now: nat, ttl: nat)
    requires id in alerts
    ensures c.owner == alerts[id].value.owner ==> OwnerOf(Put(alerts, id, c, now, ttl)) == OwnerOf(alerts)
    ensures c.target == alerts[id].value.target ==> TargetOf(Put(alerts, id, c, now, ttl)) == TargetOf(alerts)
  {}

  lemma SamePlaces(alerts: Records, other: Records)
    requires alerts.Keys == other.Keys
    requires forall id :: id in alerts ==>
               alerts[id].value.owner == other[id].value.owner && alerts[id].value.target == other[id].value.target
    ensures OwnerOf(alerts) == OwnerOf(other) && TargetOf(alerts) == TargetOf(other)
  {}

  ghost predicate Lists(m: Index, a: Address, id: nat) { id in Listing(m, a) }

  /** Lists are non-empty and duplicate-free, hold only ids that were handed out, and list a live id
      nowhere but where it belongs. */
  ghost predicate Faithful(m: Index, place: map<nat, Address>, bound: nat) {
    && Tidy(m)
    && (forall id :: id in place ==> id < bound)
    && forall a, id: nat {:trigger Lists(m, a, id)} :: Lists(m, a, id) ==> id < bound && (id in place ==> place[id] == a)
  }

  /** Every live id that belongs under `a` is listed there. */
  ghost predicate Complete(m: Index, place: map<nat, Address>, a: Address) {
    forall id {:trigger id in place} :: id in place && place[id] == a ==> Lists(m, a, id)
  }

  /** No address that lists all its ids before fails to do so afterwards. */
  ghost predicate NoneLost(m: Index, place: map<nat, Address>, r: Index, rest: map<nat, Address>) {
    forall a :: Complete(m, place, a) ==> Complete(r, rest, a)
  }

  lemma NoneLostTwice(m: Index, place: map<nat, Address>, r: Index, rest: map<nat, Address>, q: Index, last: map<nat, Address>)
    requires NoneLost(m, place, r, rest) && NoneLost(r, rest, q, last)
    ensures NoneLost(m, place, q, last)
  {
    hide Complete;
  }

  ghost predicate Unlisted(m: Index, id: nat) {
    forall a :: !Lists(m, a, id)
  }

  /** What one rewritten list does to membership. */
  lemma StoreLists(m: Index, a: Address, ids: seq<nat>, now: nat)
    ensures forall b, i: nat :: Lists(Store(m, a, ids, now), b, i) <==> if b == a then i in ids else Lists(m, b, i)
  {}

  lemma DropKeeps(m: Index, place: map<nat, Address>, bound: nat, id: nat, now: nat)
    requires Faithful(m, place, bound) && id in place
    ensures var r := Store(m, place[id], Without(Listing(m, place[id]), id), now);
            && Faithful(r, place - {id}, bound)
            && Unlisted(r, id)
            && NoneLost(m, place, r, place - {id})
  {
    var a := place[id];
    var ids := Without(Listing(m, a), id);
    StoreLists(m, a, ids, now);
    assert forall i: nat :: i in ids ==> Lists(m, a, i) && i != id;
    assert forall i: nat :: Lists(m, a, i) && i != id ==> i in ids;
  }

  lemma AppendLists(m: Index, a: Address, id: nat, now: nat)
    requires Tidy(m) && !Lists(m, a, id)
    ensures var r := Store(m, a, Listing(m, a) + [id], now);
            && Tidy(r)
            && forall b, i: nat {:trigger Lists(r, b, i)} :: Lists(r, b, i) <==> Lists(m, b, i) || (b == a && i == id)
  {
    hide Store;
    var ids := Listing(m, a) + [id];
    StoreLists(m, a, ids, now);
    assert NoDup(ids);
  }

  lemma AppendKeeps(m: Index, place: map<nat, Address>, bound: nat, a: Address, id: nat, now: nat)
    requires Faithful(m, place, bound) && Unlisted(m, id) && id !in place && id < bound
    ensures var r := Store(m, a, Listing(m, a) + [id], now);
            && Faithful(r, place[id := a], bound)
            && NoneLost(m, place, r, place[id := a])
  {
    hide Store, Listing, Tidy;
    AppendLists(m, a, id, now);
  }

  lemma PruneKeeps(m: Index, place: map<nat, Address>, bound: nat, a: Address, now: nat)
    requires Faithful(m, place, bound)
    ensures Faithful(Prune(m, a, place.Keys, now), place, bound)
    ensures NoneLost(m, place, Prune(m, a, place.Keys, now), place)
  {
    var r := Prune(m, a, place.Keys, now);
    assert forall b, i: nat :: Lists(r, b, i) ==> Lists(m, b, i);
    assert forall b, i: nat :: Lists(m, b, i) && i in place ==> Lists(r, b, i);
  }

  lemma TouchKeeps(m: Index, place: map<nat, Address>, bound: nat, a: Address, now: nat, ttl: nat)
    requires Faithful(m, place, bound) && a in m
    ensures Faithful(Touch(m, a, now, ttl), place, bound)
    ensures NoneLost(m, place, Touch(m, a, now, ttl), place)
  {
    assert forall b, i: nat :: Lists(Touch(m, a, now, ttl), b, i) <==> Lists(m, b, i);
  }

  /** Whether the list of `a` is still readable at ledger `now`, unless nothing in `rest` needs it. */
  ghost predicate Needed(m: Index, rest: map<nat, Address>, a: Address, now: nat) {
    forall id {:trigger id in rest} :: id in rest && rest[id] == a ==> a in m && m[a].liveUntil >= now
  }

  /** Records and lists may both expire. No id is ever listed in the wrong place, and an address keeps
      listing all its ids exactly when its list outlives them; other addresses do not matter. */
  lemma SurvivorsKeep(m: Index, place: map<nat, Address>, bound: nat, now: nat, rest: map<nat, Address>)
    requires Faithful(m, place, bound)
    requires rest.Keys <= place.Keys && forall id :: id in rest ==> rest[id] == place[id]
    ensures Faithful(Surviving(m, now), rest, bound)
    ensures forall a :: Complete(m, place, a) ==> (Complete(Surviving(m, now), rest, a) <==> Needed(m, rest, a, now))
  {
    var r := Surviving(m, now);
    assert forall b, i: nat :: Lists(r, b, i) ==> Lists(m, b, i);
    forall a | Complete(m, place, a) ensures Complete(r, rest, a) <==> Needed(m, rest, a, now) {
      if Needed(m, rest, a, now) {
        forall id | id in rest && rest[id] == a ensures Lists(r, a, id) {
          assert id in place && Lists(m, a, id);
        }
      }
      if Complete(r, rest, a) {
        forall id | id in rest && rest[id] == a ensures a in m && m[a].liveUntil >= now {
          assert Lists(r, a, id);
        }
      }
    }
  }

  lemma FreshIsUnlisted(m: Index, place: map<nat, Address>, bound: nat, id: nat)
    requires Faithful(m, place, bound) && bound <= id
    ensures Unlisted(m, id) && id !in place && Faithful(m, place, id + 1)
  {}
}
