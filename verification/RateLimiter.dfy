/** The per-owner registration rate limiter: a fixed window that restarts with the first accepted
    call after it has run out. */
module RateLimiterContract {
  import opened Host

  const RATE_LIMIT_COUNT: nat := 10
  const RATE_LIMIT_WINDOW: nat := 100
  const DEFAULT_TTL: nat := 120_960

  datatype Verdict = Accepted | Paused | RateLimitExceeded

  /** The stored pair: the ledger the window started in, and the calls accepted in it. */
  datatype Window = Window(start: nat, count: nat)

  datatype Call = Call(owner: Address, ledger: nat, paused: bool)

  // ---------------------------------------------------------------- one owner, no expiry

  /** What one call does to its owner's pair. An absent pair reads as a window starting now. */
  function Judge(w: Option<Window>, now: nat, paused: bool): (Option<Window>, Verdict) {
    if paused then (w, Paused) else
      var Window(start, count) := if w.Some? then w.value else Window(now, 0);
      if SaturatingSub(now, start) >= RATE_LIMIT_WINDOW then (Some(Window(now, 1)), Accepted)
      else if count >= RATE_LIMIT_COUNT then (w, RateLimitExceeded)
      else (Some(Window(start, count + 1)), Accepted)
  }

  type Windows = map<Address, Window>

  function Lookup(ws: Windows, owner: Address): Option<Window> {
    if owner in ws then Some(ws[owner]) else None
  }

  function Step(ws: Windows, c: Call): Windows {
    var w := Judge(Lookup(ws, c.owner), c.ledger, c.paused).0;
    if w.Some? then ws[c.owner := w.value] else ws
  }

  /** The limiter whose entries never expire, after a history of calls. */
  function Run(calls: seq<Call>): Windows {
    if calls == [] then map[] else Step(Run(calls[..|calls| - 1]), calls[|calls| - 1])
  }

  predicate Accepts(calls: seq<Call>, k: nat)
    requires k < |calls|
  {
    Judge(Lookup(Run(calls[..k]), calls[k].owner), calls[k].ledger, calls[k].paused).1 == Accepted
  }

  ghost predicate Nondecreasing(calls: seq<Call>) {
    forall i, j :: 0 <= i < j < |calls| ==> calls[i].ledger <= calls[j].ledger
  }

  /** The calls of `owner` accepted at ledgers `from` to `from + RATE_LIMIT_WINDOW - 1`. */
  function AcceptedIn(calls: seq<Call>, k: nat, owner: Address, from: nat): nat
    requires k <= |calls|
  {
    if k == 0 then 0 else
      AcceptedIn(calls, k - 1, owner, from) +
      if calls[k - 1].owner == owner && from <= calls[k - 1].ledger < from + RATE_LIMIT_WINDOW
         && Accepts(calls, k - 1) then 1 else 0
  }

  // ---------------------------------------------------------------- the sliding-window bound

  /** How the pair stored for an owner bounds what any one span of ledgers has seen. */
  ghost predicate Bounded(w: Option<Window>, seen: nat, from: nat, now: nat) {
    && (now < from || w.None? ==> seen == 0)
    && seen <= 2 * RATE_LIMIT_COUNT - 1
    && (w.Some? ==>
          && w.value.start <= now
          && 1 <= w.value.count <= RATE_LIMIT_COUNT
          && (w.value.start < from ==> seen <= w.value.count - 1)
          && (from <= w.value.start < from + RATE_LIMIT_WINDOW ==> seen <= RATE_LIMIT_COUNT - 1 + w.value.count))
  }

  lemma RunNext(calls: seq<Call>, k: nat)
    requires k < |calls|
    ensures Run(calls[..k + 1]) == Step(Run(calls[..k]), calls[k])
  {
    assert calls[..k + 1][..k] == calls[..k];
  }

  lemma JudgeKeepsBound(w: Option<Window>, seen: nat, from: nat, last: nat, now: nat, paused: bool)
    requires Bounded(w, seen, from, last) && last <= now
    ensures var (w', verdict) := Judge(w, now, paused);
            var hit := verdict == Accepted && from <= now < from + RATE_LIMIT_WINDOW;
            Bounded(w', seen + if hit then 1 else 0, from, now)
  {}

  lemma {:induction false} RunKeepsBound(calls: seq<Call>, k: nat, owner: Address, from: nat)
    requires Nondecreasing(calls) && k <= |calls|
    ensures Bounded(Lookup(Run(calls[..k]), owner), AcceptedIn(calls, k, owner, from), from,
                    if k == 0 then 0 else calls[k - 1].ledger)
  {
    hide Bounded, Judge;
    if k == 0 {
      assert calls[..0] == [];
      FreshIsBounded(from);
    } else {
      RunKeepsBound(calls, k - 1, owner, from);
      RunNext(calls, k - 1);
      var c, last := calls[k - 1], if k == 1 then 0 else calls[k - 2].ledger;
      var w, seen := Lookup(Run(calls[..k - 1]), owner), AcceptedIn(calls, k - 1, owner, from);
      if c.owner == owner {
        JudgeKeepsBound(w, seen, from, last, c.ledger, c.paused);
        JudgeKeepsPair(w, c.ledger, c.paused);
      } else {
        LaterIsBounded(w, seen, from, last, c.ledger);
      }
    }
  }

  lemma FreshIsBounded(from: nat)
    ensures Bounded(None, 0, from, 0)
  {}

  lemma JudgeKeepsPair(w: Option<Window>, now: nat, paused: bool)
    ensures w.Some? ==> Judge(w, now, paused).0.Some?
  {}

  /** Time passing without a call of this owner only matters to what is still out of reach. */
  lemma LaterIsBounded(w: Option<Window>, seen: nat, from: nat, last: nat, now: nat)
    requires Bounded(w, seen, from, last) && last <= now
    ensures Bounded(w, seen, from, now)
  {}

  /** Any `RATE_LIMIT_WINDOW` consecutive ledgers see at most 2 * RATE_LIMIT_COUNT - 1 accepted calls
      of one owner, whatever the pattern of calls, pauses and other owners. */
  lemma SlidingWindow(calls: seq<Call>, owner: Address, from: nat)
    requires Nondecreasing(calls)
    ensures AcceptedIn(calls, |calls|, owner, from) <= 2 * RATE_LIMIT_COUNT - 1
  {
    RunKeepsBound(calls, |calls|, owner, from);
  }

  // ---------------------------------------------------------------- one window

  /** Call `k` is accepted and starts a new window of its owner. */
  predicate Opens(calls: seq<Call>, k: nat)
    requires k < |calls|
  {
    var w := Lookup(Run(calls[..k]), calls[k].owner);
    Accepts(calls, k) && StartsWindow(w, calls[k].ledger)
  }

  predicate StartsWindow(w: Option<Window>, now: nat) {
    w.None? || SaturatingSub(now, w.value.start) >= RATE_LIMIT_WINDOW
  }

  /** None of the first `k` calls opens a window of `owner` strictly inside the span that begins at `from`. */
  ghost predicate Undivided(calls: seq<Call>, k: nat, owner: Address, from: nat)
    requires k <= |calls|
  {
    forall i :: 0 <= i < k && calls[i].owner == owner && Opens(calls, i) ==>
      !(from < calls[i].ledger < from + RATE_LIMIT_WINDOW)
  }

  /** How the stored pair bounds what an undivided span has seen. */
  ghost predicate OneWindow(w: Option<Window>, seen: nat, from: nat, now: nat) {
    && (now < from || w.None? ==> seen == 0)
    && seen <= RATE_LIMIT_COUNT
    && (w.Some? ==>
          && w.value.start <= now
          && 1 <= w.value.count <= RATE_LIMIT_COUNT
          && !(from < w.value.start < from + RATE_LIMIT_WINDOW)
          && (w.value.start <= from ==> seen <= w.value.count)
          && (w.value.start <= from && seen > 0 ==> from < w.value.start + RATE_LIMIT_WINDOW))
  }

  lemma JudgeKeepsOneWindow(w: Option<Window>, seen: nat, from: nat, last: nat, now: nat, paused: bool)
    requires OneWindow(w, seen, from, last) && last <= now
    requires var (_, verdict) := Judge(w, now, paused);
             verdict == Accepted && StartsWindow(w, now) ==> !(from < now < from + RATE_LIMIT_WINDOW)
    ensures var (w', verdict) := Judge(w, now, paused);
            var hit := verdict == Accepted && from <= now < from + RATE_LIMIT_WINDOW;
            OneWindow(w', seen + if hit then 1 else 0, from, now)
  {}

  lemma LaterIsOneWindow(w: Option<Window>, seen: nat, from: nat, last: nat, now: nat)
    requires OneWindow(w, seen, from, last) && last <= now
    ensures OneWindow(w, seen, from, now)
  {}

  lemma {:induction false} RunKeepsOneWindow(calls: seq<Call>, k: nat, owner: Address, from: nat)
    requires Nondecreasing(calls) && k <= |calls| && Undivided(calls, k, owner, from)
    ensures OneWindow(Lookup(Run(calls[..k]), owner), AcceptedIn(calls, k, owner, from), from,
                      if k == 0 then 0 else calls[k - 1].ledger)
  {
    hide Judge, StartsWindow, Run;
    if k == 0 {
      assert calls[..0] == [];
      NothingRun();
    } else {
      hide OneWindow;
      RunKeepsOneWindow(calls, k - 1, owner, from);
      RunNext(calls, k - 1);
      var c, last := calls[k - 1], if k == 1 then 0 else calls[k - 2].ledger;
      var w, seen := Lookup(Run(calls[..k - 1]), owner), AcceptedIn(calls, k - 1, owner, from);
      if c.owner == owner {
        JudgeKeepsOneWindow(w, seen, from, last, c.ledger, c.paused);
        JudgeKeepsPair(w, c.ledger, c.paused);
      } else {
        LaterIsOneWindow(w, seen, from, last, c.ledger);
      }
    }
  }

  /** A span of `RATE_LIMIT_WINDOW` ledgers that no new window of the owner divides keeps to the limit. */
  lemma UndividedSpan(calls: seq<Call>, owner: Address, from: nat)
    requires Nondecreasing(calls) && Undivided(calls, |calls|, owner, from)
    ensures AcceptedIn(calls, |calls|, owner, from) <= RATE_LIMIT_COUNT
  {
    RunKeepsOneWindow(calls, |calls|, owner, from);
  }

  /** Once a window is open, later pairs of that owner start no earlier. */
  lemma {:induction false} StartsAfter(calls: seq<Call>, i: nat, m: nat)
    requires Nondecreasing(calls) && i < m <= |calls| && Opens(calls, i)
    ensures var w := Lookup(Run(calls[..m]), calls[i].owner); w.Some? && w.value.start >= calls[i].ledger
    decreases m
  {
    RunNext(calls, m - 1);
    if i < m - 1 {
      hide Opens;
      StartsAfter(calls, i, m - 1);
    }
  }

  lemma OpeningsApart(calls: seq<Call>, i: nat, m: nat)
    requires Nondecreasing(calls) && i < m < |calls| && calls[i].owner == calls[m].owner
    requires Opens(calls, i) && Opens(calls, m)
    ensures calls[m].ledger >= calls[i].ledger + RATE_LIMIT_WINDOW
  {
    StartsAfter(calls, i, m);
  }

  /** The documented limit: in the `RATE_LIMIT_WINDOW` ledgers from the opening of a window on, no more than
      `RATE_LIMIT_COUNT` calls of its owner are accepted. */
  lemma WindowHolds(calls: seq<Call>, i: nat)
    requires Nondecreasing(calls) && i < |calls| && Opens(calls, i)
    ensures AcceptedIn(calls, |calls|, calls[i].owner, calls[i].ledger) <= RATE_LIMIT_COUNT
  {
    hide Opens, AcceptedIn;
    forall m: nat | m < |calls| && calls[m].owner == calls[i].owner && Opens(calls, m)
      ensures !(calls[i].ledger < calls[m].ledger < calls[i].ledger + RATE_LIMIT_WINDOW)
    {
      if m < i { OpeningsApart(calls, m, i); } else if i < m { OpeningsApart(calls, i, m); }
    }
    UndividedSpan(calls, calls[i].owner, calls[i].ledger);
  }

  // ---------------------------------------------------------------- which calls are accepted

  /** Call `k - 1` is an accepted call of `owner`. */
  predicate Takes(calls: seq<Call>, k: nat, owner: Address)
    requires 1 <= k <= |calls|
  {
    calls[k - 1].owner == owner && Accepts(calls, k - 1)
  }

  /** The ledger of the latest opening of a window of `owner` among the first `k` calls: an accepted call opens
      a window if it is the first, or `RATE_LIMIT_WINDOW` ledgers or more after the previous opening. */
  function Opening(calls: seq<Call>, k: nat, owner: Address): Option<nat>
    requires k <= |calls|
  {
    if k == 0 then None else
      var before := Opening(calls, k - 1, owner);
      if Takes(calls, k, owner) && (before.None? || calls[k - 1].ledger >= before.value + RATE_LIMIT_WINDOW)
      then Some(calls[k - 1].ledger)
      else before
  }

  /** The accepted calls of `owner` from that opening on. */
  function TakenSince(calls: seq<Call>, k: nat, owner: Address): nat
    requires k <= |calls|
  {
    if k == 0 || !Takes(calls, k, owner) then if k == 0 then 0 else TakenSince(calls, k - 1, owner)
    else
      var before := Opening(calls, k - 1, owner);
      if before.None? || calls[k - 1].ledger >= before.value + RATE_LIMIT_WINDOW then 1
      else TakenSince(calls, k - 1, owner) + 1
  }

  /** What is stored for an owner is that opening and that number. */
  lemma {:induction false} StoredIsTaken(calls: seq<Call>, k: nat, owner: Address)
    requires Nondecreasing(calls) && k <= |calls|
    ensures Lookup(Run(calls[..k]), owner) ==
            var opening := Opening(calls, k, owner);
            if opening.None? then None else Some(Window(opening.value, TakenSince(calls, k, owner)))
    ensures Opening(calls, k, owner).Some? && k > 0 ==> Opening(calls, k, owner).value <= calls[k - 1].ledger
    ensures Opening(calls, k, owner).Some? ==> 1 <= TakenSince(calls, k, owner) <= RATE_LIMIT_COUNT
  {
    hide Run;
    if k == 0 {
      assert calls[..0] == [];
      NothingRun();
    } else {
      StoredIsTaken(calls, k - 1, owner);
      RunNext(calls, k - 1);
    }
  }

  /** The exact rule, in terms of the calls accepted before: an unpaused call is accepted if and only if no
      window of its owner opened in the last `RATE_LIMIT_WINDOW` ledgers, or fewer than `RATE_LIMIT_COUNT` of
      its owner's calls have been accepted since the latest one did. */
  lemma AcceptedExactly(calls: seq<Call>, k: nat)
    requires Nondecreasing(calls) && k < |calls|
    ensures var c, opening := calls[k], Opening(calls, k, calls[k].owner);
            Accepts(calls, k) <==>
              && !c.paused
              && (|| opening.None?
                  || c.ledger >= opening.value + RATE_LIMIT_WINDOW
                  || TakenSince(calls, k, c.owner) < RATE_LIMIT_COUNT)
  {
    hide Run;
    StoredIsTaken(calls, k, calls[k].owner);
  }

  // ---------------------------------------------------------------- the bound is met

  /** One call at ledger 0, nine at ledger 99, ten at ledger 100. */
  function BurstCall(owner: Address, i: nat): Call {
    Call(owner, if i == 0 then 0 else if i < 10 then 99 else 100, false)
  }

  function Burst(owner: Address): (calls: seq<Call>)
    ensures |calls| == 20
  {
    seq(20, i requires 0 <= i < 20 => BurstCall(owner, i))
  }

  /** The bound is met: of that burst, ledgers 1 to 100 see 19 accepted calls, almost twice
      `RATE_LIMIT_COUNT`, because the window is fixed and does not slide. */
  lemma BoundIsMet(owner: Address)
    ensures Nondecreasing(Burst(owner))
    ensures AcceptedIn(Burst(owner), 20, owner, 1) == 2 * RATE_LIMIT_COUNT - 1
  {
    BurstCount(owner, 20);
  }

  /** The pair stored after `k` calls of the burst. */
  function BurstWindow(k: nat): Window
    requires 1 <= k <= 20
  {
    if k <= 10 then Window(0, k) else Window(100, k - 10)
  }

  lemma {:induction false} BurstRun(owner: Address, k: nat)
    requires 1 <= k <= 20
    ensures Run(Burst(owner)[..k]) == map[owner := BurstWindow(k)]
  {
    var calls := Burst(owner);
    assert calls[k - 1] == BurstCall(owner, k - 1);
    hide Judge, BurstWindow, Run, Burst;
    RunNext(calls, k - 1);
    BurstStep(k);
    if k == 1 {
      assert calls[..0] == [];
      NothingRun();
    } else {
      BurstRun(owner, k - 1);
    }
  }

  lemma {:induction false} BurstCount(owner: Address, k: nat)
    requires 1 <= k <= 20
    ensures AcceptedIn(Burst(owner), k, owner, 1) == k - 1
  {
    var calls := Burst(owner);
    assert calls[k - 1] == BurstCall(owner, k - 1);
    hide Judge, BurstWindow, Run, Burst;
    BurstStep(k);
    if k > 1 {
      BurstRun(owner, k - 1);
      BurstCount(owner, k - 1);
    }
  }

  lemma NothingRun()
    ensures Run([]) == map[]
  {}

  lemma BurstStep(k: nat)
    requires 1 <= k <= 20
    ensures Judge(if k == 1 then None else Some(BurstWindow(k - 1)), if k == 1 then 0 else if k <= 10 then 99 else 100, false) ==
            (Some(BurstWindow(k)), Accepted)
  {}

  // ---------------------------------------------------------------- expiry is invisible

  type Entries = map<Address, Entry<Window>>

  /** The limiter as stored: entries may be unreadable by the time of the call. */
  function StepExpiring(es: Entries, c: Call): Entries {
    var live := Surviving(es, c.ledger);
    var w := if c.owner in live then Some(live[c.owner].value) else None;
    var (w', verdict) := Judge(w, c.ledger, c.paused);
    if verdict == Accepted && w'.Some? then Put(live, c.owner, w'.value, c.ledger, DEFAULT_TTL) else live
  }

  function RunExpiring(calls: seq<Call>): Entries {
    if calls == [] then map[] else StepExpiring(RunExpiring(calls[..|calls| - 1]), calls[|calls| - 1])
  }

  predicate AcceptsExpiring(calls: seq<Call>, k: nat)
    requires k < |calls|
  {
    var live := Surviving(RunExpiring(calls[..k]), calls[k].ledger);
    var w := if calls[k].owner in live then Some(live[calls[k].owner].value) else None;
    Judge(w, calls[k].ledger, calls[k].paused).1 == Accepted
  }

  /** A readable entry holds the same pair; an unreadable one is older than a window. */
  ghost predicate Shadows(es: Entries, ws: Windows, now: nat) {
    && (forall a :: a in es ==> a in ws && es[a].value == ws[a])
    && (forall a :: a in ws ==> ws[a].start <= now)
    && (forall a :: a in ws && a !in es ==> now >= ws[a].start + DEFAULT_TTL)
    && (forall a :: a in es ==> es[a].liveUntil >= ws[a].start + DEFAULT_TTL)
  }

  lemma ShadowStep(es: Entries, ws: Windows, last: nat, c: Call)
    requires Shadows(es, ws, last) && last <= c.ledger
    ensures Shadows(StepExpiring(es, c), Step(ws, c), c.ledger)
    ensures var live := Surviving(es, c.ledger);
            var w := if c.owner in live then Some(live[c.owner].value) else None;
            && Judge(w, c.ledger, c.paused).1 == Judge(Lookup(ws, c.owner), c.ledger, c.paused).1
            && (Judge(w, c.ledger, c.paused).1 == Accepted ==>
                  Judge(w, c.ledger, c.paused) == Judge(Lookup(ws, c.owner), c.ledger, c.paused))
  {}

  lemma {:induction false} ShadowRun(calls: seq<Call>, k: nat)
    requires Nondecreasing(calls) && k <= |calls|
    ensures Shadows(RunExpiring(calls[..k]), Run(calls[..k]), if k == 0 then 0 else calls[k - 1].ledger)
  {
    if k == 0 {
      assert calls[..0] == [];
    } else {
      hide Shadows, StepExpiring, Step;
      ShadowRun(calls, k - 1);
      assert calls[..k][..k - 1] == calls[..k - 1];
      ShadowStep(RunExpiring(calls[..k - 1]), Run(calls[..k - 1]), if k == 1 then 0 else calls[k - 2].ledger, calls[k - 1]);
    }
  }

  /** Because entries outlive the window, the limiter whose entries expire gives the same verdict on
      every call, and after each accepted call stores the same pair. */
  lemma ExpiryIsInvisible(calls: seq<Call>, k: nat)
    requires Nondecreasing(calls) && k < |calls|
    ensures AcceptsExpiring(calls, k) <==> Accepts(calls, k)
    ensures Accepts(calls, k) ==>
              && calls[k].owner in RunExpiring(calls[..k + 1]) && calls[k].owner in Run(calls[..k + 1])
              && RunExpiring(calls[..k + 1])[calls[k].owner].value == Run(calls[..k + 1])[calls[k].owner]
  {
    ShadowRun(calls, k);
    ShadowStep(RunExpiring(calls[..k]), Run(calls[..k]), if k == 0 then 0 else calls[k - 1].ledger, calls[k]);
    assert calls[..k + 1][..k] == calls[..k];
  }

  // ---------------------------------------------------------------- the contract's helper

  lemma RunExpiringNext(past: seq<Call>, c: Call)
    ensures RunExpiring(past + [c]) == StepExpiring(RunExpiring(past), c)
  {
    hide StepExpiring;
    assert (past + [c])[..|past|] == past;
  }

  /** What the last call of a history is told, from what is stored when it is made. */
  lemma LastVerdict(past: seq<Call>, c: Call)
    requires Nondecreasing(past + [c])
    ensures Accepts(past + [c], |past|) <==>
            var live := Surviving(RunExpiring(past), c.ledger);
            Judge(if c.owner in live then Some(live[c.owner].value) else None, c.ledger, c.paused).1 == Accepted
  {
    hide Judge, Surviving, StepExpiring, RunExpiring, Run, Accepts;
    var calls := past + [c];
    assert calls[..|past|] == past;
    ExpiryIsInvisible(calls, |past|);
  }

  /** What is stored after the last call of a history, if it is accepted. */
  lemma LastStored(past: seq<Call>, c: Call)
    requires Nondecreasing(past + [c]) && Accepts(past + [c], |past|)
    ensures var calls, es := past + [c], RunExpiring(past + [c]);
            && c.owner in es && Opening(calls, |calls|, c.owner).Some?
            && es[c.owner].value == Window(Opening(calls, |calls|, c.owner).value, TakenSince(calls, |calls|, c.owner))
  {
    hide Accepts, RunExpiring, Run, Opening, TakenSince;
    var calls := past + [c];
    assert calls[..|calls|] == calls;
    ExpiryIsInvisible(calls, |past|);
    StoredIsTaken(calls, |calls|, c.owner);
  }

  lemma StepIsReadable(es: Entries, c: Call)
    ensures Surviving(StepExpiring(es, c), c.ledger) == StepExpiring(es, c)
  {
    hide Judge;
  }

  lemma SurvivingTwice(es: Entries, a: nat, b: nat)
    requires a <= b
    ensures Surviving(Surviving(es, a), b) == Surviving(es, b)
  {}

  class RateLimiter {
    var entries: Entries
    var ledger: nat
    var paused: bool
    ghost var calls: seq<Call>

    /** The stored entries are those that the calls made so far have written and that are still
        readable. */
    ghost predicate Valid()
      reads this
    {
      && entries == Surviving(RunExpiring(calls), ledger)
      && Nondecreasing(calls)
      && (forall i :: 0 <= i < |calls| ==> calls[i].ledger <= ledger)
    }

    constructor (ledger: nat)
      ensures Valid() && calls == [] && this.ledger == ledger && !paused
    {
      entries, this.ledger, paused, calls := map[], ledger, false, [];
    }

    /** Time passes on the host, and entries whose lifetime has run out become unreadable. */
    method Advance(ledgers: nat)
      requires Valid()
      modifies this`entries, this`ledger
      ensures Valid() && ledger == old(ledger) + ledgers
    {
      SurvivingTwice(RunExpiring(calls), ledger, ledger + ledgers);
      ledger := ledger + ledgers;
      entries := Surviving(entries, ledger);
    }

    /** A call is accepted exactly when the limiter without expiry accepts it, and with it every
        window of `RATE_LIMIT_WINDOW` ledgers has seen at most 2 * RATE_LIMIT_COUNT - 1 calls of its
        owner accepted. */
    method CheckRateLimit(owner: Address) returns (v: Verdict)
      requires Valid()
      modifies this`entries, this`calls
      ensures Valid() && calls == old(calls) + [Call(owner, ledger, paused)]
      ensures v == Accepted <==> Accepts(calls, |old(calls)|)
      ensures v == Paused <==> paused
      ensures v == Accepted <==>
                && !paused
                && var opening := Opening(calls, |old(calls)|, owner);
                || opening.None?
                || ledger >= opening.value + RATE_LIMIT_WINDOW
                || TakenSince(calls, |old(calls)|, owner) < RATE_LIMIT_COUNT
      ensures v != Accepted ==> entries == old(entries)
      ensures v == Accepted ==>
                && entries.Keys == old(entries).Keys + {owner}
                && entries[owner].liveUntil ==
                   Max(if owner in old(entries) then old(entries)[owner].liveUntil else 0, ledger + DEFAULT_TTL)
                && entries[owner].value.start == Opening(calls, |calls|, owner).value
                && entries[owner].value.count == TakenSince(calls, |calls|, owner)
                && forall a :: a in old(entries) && a != owner ==> entries[a] == old(entries)[a]
      ensures forall from :: AcceptedIn(calls, |calls|, owner, from) <= 2 * RATE_LIMIT_COUNT - 1
    {
      hide Accepts, Surviving, RunExpiring, Opening, TakenSince, AcceptedIn;
      ghost var past, c := calls, Call(owner, ledger, paused);
      LastVerdict(past, c);
      AcceptedExactly(past + [c], |past|);
      if Accepts(past + [c], |past|) { LastStored(past, c); }
      RunExpiringNext(past, c);
      StepIsReadable(RunExpiring(past), c);
      calls := calls + [c];
      forall from ensures AcceptedIn(calls, |calls|, owner, from) <= 2 * RATE_LIMIT_COUNT - 1 {
        SlidingWindow(calls, owner, from);
      }
      if paused { return Paused; }
      var now := ledger;
      var Window(windowStart, count) := if owner in entries then entries[owner].value else Window(now, 0);
      if SaturatingSub(now, windowStart) >= RATE_LIMIT_WINDOW {
        entries := Put(entries, owner, Window(now, 1), now, DEFAULT_TTL);
        return Accepted;
      }
      if count >= RATE_LIMIT_COUNT { return RateLimitExceeded; }
      entries := Put(entries, owner, Window(windowStart, count + 1), now, DEFAULT_TTL);
      return Accepted;
    }
  }
}
