/** The AI enrichment queue (`server/services/enrichmentQueue.ts`): a priority
    queue of auction ids that is drained in batches of at most three, retrying
    a failed item up to two more times. */
module EnrichmentQueue {
  import opened FirearmsSchema
  import opened Sequences

  const MaxConcurrent: nat := 3
  const MaxRetries: nat := 2

  datatype Priority = High | Normal | Low

  /** The comparator's `priorityOrder` table. */
  function Rank(p: Priority): nat {
    match p
    case High => 0
    case Normal => 1
    case Low => 2
  }

  datatype QueueItem = QueueItem(auctionId: nat, priority: Priority, addedAt: int, retries: nat)

  datatype ErrorEntry = ErrorEntry(id: nat, error: string)

  datatype ProcessingStats = ProcessingStats(
    total: nat,
    processed: nat,
    successful: nat,
    failed: nat,
    startTime: int,
    endTime: Option<int>,
    errors: seq<ErrorEntry>)

  /** What one enrichment attempt did: finished, or threw an error with a message. */
  datatype Outcome = Enriched | Threw(message: string)

  function Ids(q: seq<QueueItem>): (r: seq<nat>)
    ensures |r| == |q| && forall i :: 0 <= i < |q| ==> r[i] == q[i].auctionId
  {
    seq(|q|, i requires 0 <= i < |q| => q[i].auctionId)
  }

  function ErrorIds(errors: seq<ErrorEntry>): (r: seq<nat>)
    ensures |r| == |errors| && forall i :: 0 <= i < |errors| ==> r[i] == errors[i].id
  {
    seq(|errors|, i requires 0 <= i < |errors| => errors[i].id)
  }

  // ---------------------------------------------------------------------------
  // Ordering

  /** Ascending by priority rank: high before normal before low. */
  predicate PrioritySorted(q: seq<QueueItem>) {
    forall i, j :: 0 <= i < j < |q| ==> Rank(q[i].priority) <= Rank(q[j].priority)
  }

  /** The items of one priority, in queue order (`q.filter(x => x.priority == p)`). */
  function Tier(q: seq<QueueItem>, p: Priority): (r: seq<QueueItem>)
    ensures |r| <= |q|
    ensures forall i :: 0 <= i < |r| ==> r[i].priority == p
  {
    if q == [] then [] else (if q[0].priority == p then [q[0]] else []) + Tier(q[1..], p)
  }

  lemma {:induction false} TierAppend(a: seq<QueueItem>, b: seq<QueueItem>, p: Priority)
    ensures Tier(a + b, p) == Tier(a, p) + Tier(b, p)
  {
    if a == [] {
      assert a + b == b;
    } else {
      assert (a + b)[1..] == a[1..] + b;
      TierAppend(a[1..], b, p);
    }
  }

  lemma TierCons(h: QueueItem, t: seq<QueueItem>, p: Priority)
    ensures Tier([h] + t, p) == (if h.priority == p then [h] else []) + Tier(t, p)
  {
    assert ([h] + t)[1..] == t;
  }

  lemma {:induction false} TierNone(q: seq<QueueItem>, p: Priority)
    requires forall i :: 0 <= i < |q| ==> q[i].priority != p
    ensures Tier(q, p) == []
  {
    if q != [] {
      TierNone(q[1..], p);
    }
  }

  lemma {:induction false} TierAll(q: seq<QueueItem>, p: Priority)
    requires forall i :: 0 <= i < |q| ==> q[i].priority == p
    ensures Tier(q, p) == q
  {
    if q != [] {
      TierAll(q[1..], p);
      assert q == [q[0]] + q[1..];
    }
  }

  /** The array sort with the priority comparator. The sort is stable, so it
      is the three tiers one after the other, each in its original order. */
  function SortByPriority(q: seq<QueueItem>): seq<QueueItem> {
    Tier(q, High) + Tier(q, Normal) + Tier(q, Low)
  }

  lemma {:induction false} SortByPriorityIsSorted(q: seq<QueueItem>)
    ensures PrioritySorted(SortByPriority(q))
  {
    var a, b, c := Tier(q, High), Tier(q, Normal), Tier(q, Low);
    var r := a + b + c;
    forall i | 0 <= i < |r| ensures Rank(r[i].priority) == if i < |a| then 0 else if i < |a| + |b| then 1 else 2 {
      if i < |a| {
        assert r[i] == a[i];
      } else if i < |a| + |b| {
        assert r[i] == b[i - |a|];
      } else {
        assert r[i] == c[i - |a| - |b|];
      }
    }
  }

  lemma {:induction false} SortByPriorityPermutes(q: seq<QueueItem>)
    ensures multiset(SortByPriority(q)) == multiset(q)
  {
    if q != [] {
      SortByPriorityPermutes(q[1..]);
      assert q == [q[0]] + q[1..];
    }
  }

  /** Stability: within each priority the sorted queue keeps the input order. */
  lemma {:induction false} SortByPriorityKeepsTiers(q: seq<QueueItem>, p: Priority)
    ensures Tier(SortByPriority(q), p) == Tier(q, p)
  {
    var a, b, c := Tier(q, High), Tier(q, Normal), Tier(q, Low);
    TierAppend(a + b, c, p);
    TierAppend(a, b, p);
    TierOfTier(q, High, p);
    TierOfTier(q, Normal, p);
    TierOfTier(q, Low, p);
  }

  lemma TierOfTier(q: seq<QueueItem>, t: Priority, p: Priority)
    ensures Tier(Tier(q, t), p) == if t == p then Tier(q, p) else []
  {
    if t == p {
      TierAll(Tier(q, t), p);
    } else {
      TierNone(Tier(q, t), p);
    }
  }

  /** The tail of a sorted queue is sorted, and its head ranks first. */
  lemma SortedTail(q: seq<QueueItem>)
    requires PrioritySorted(q) && q != []
    ensures PrioritySorted(q[1..])
    ensures forall i :: 0 <= i < |q[1..]| ==> Rank(q[0].priority) <= Rank(q[1..][i].priority)
  {
    var t := q[1..];
    forall i, j | 0 <= i < j < |t| ensures Rank(t[i].priority) <= Rank(t[j].priority) {
      assert t[i] == q[i + 1] && t[j] == q[j + 1];
    }
    forall i | 0 <= i < |t| ensures Rank(q[0].priority) <= Rank(t[i].priority) {
      assert t[i] == q[i + 1];
    }
  }

  /** A queue that is already in priority order is left as it is. */
  lemma {:induction false} SortOfSorted(q: seq<QueueItem>)
    requires PrioritySorted(q)
    ensures SortByPriority(q) == q
  {
    if q != [] {
      var h, t := q[0], q[1..];
      assert q == [h] + t;
      SortedTail(q);
      SortOfSorted(t);
      SortCons(h, t);
    }
  }

  /** A head that ranks no lower than any item after it stays in front. */
  lemma SortCons(h: QueueItem, t: seq<QueueItem>)
    requires forall i :: 0 <= i < |t| ==> Rank(h.priority) <= Rank(t[i].priority)
    ensures SortByPriority([h] + t) == [h] + SortByPriority(t)
  {
    match h.priority
    case High => SortConsHigh(h, t);
    case Normal => SortConsNormal(h, t);
    case Low => SortConsLow(h, t);
  }

  lemma SortConsHigh(h: QueueItem, t: seq<QueueItem>)
    requires h.priority == High
    ensures SortByPriority([h] + t) == [h] + SortByPriority(t)
  {
    TierCons(h, t, High);
    TierCons(h, t, Normal);
    TierCons(h, t, Low);
    ConsFront(h, Tier(t, High), Tier(t, Normal), Tier(t, Low));
  }

  lemma SortConsNormal(h: QueueItem, t: seq<QueueItem>)
    requires h.priority == Normal
    requires forall i :: 0 <= i < |t| ==> Rank(h.priority) <= Rank(t[i].priority)
    ensures SortByPriority([h] + t) == [h] + SortByPriority(t)
  {
    TierCons(h, t, High);
    TierCons(h, t, Normal);
    TierCons(h, t, Low);
    TierNone(t, High);
    var b, c := Tier(t, Normal), Tier(t, Low);
    assert [] + ([h] + b) + c == [h] + ([] + b + c);
  }

  lemma SortConsLow(h: QueueItem, t: seq<QueueItem>)
    requires h.priority == Low
    requires forall i :: 0 <= i < |t| ==> Rank(h.priority) <= Rank(t[i].priority)
    ensures SortByPriority([h] + t) == [h] + SortByPriority(t)
  {
    TierCons(h, t, High);
    TierCons(h, t, Normal);
    TierCons(h, t, Low);
    TierNone(t, High);
    TierNone(t, Normal);
    var c := Tier(t, Low);
    assert [] + [] + ([h] + c) == [h] + ([] + [] + c);
  }

  lemma ConsFront(h: QueueItem, a: seq<QueueItem>, b: seq<QueueItem>, c: seq<QueueItem>)
    ensures [h] + a + b + c == [h] + (a + b + c)
  {
  }

  /** Where the stable sort puts an item appended to a sorted queue: after
      every item of the same or a higher priority. */
  function InsertPos(q: seq<QueueItem>, item: QueueItem): (k: nat)
    requires PrioritySorted(q)
    ensures k <= |q|
    ensures forall i :: 0 <= i < k ==> Rank(q[i].priority) <= Rank(item.priority)
    ensures forall i :: k <= i < |q| ==> Rank(item.priority) < Rank(q[i].priority)
  {
    if q == [] || Rank(item.priority) < Rank(q[0].priority) then 0
    else 1 + InsertPos(q[1..], item)
  }

  /** Appending to a sorted queue and sorting again inserts the new item at
      `InsertPos`. */
  lemma {:induction false} SortAfterAppend(q: seq<QueueItem>, item: QueueItem)
    requires PrioritySorted(q)
    ensures SortByPriority(q + [item]) == q[..InsertPos(q, item)] + [item] + q[InsertPos(q, item)..]
  {
    var k := InsertPos(q, item);
    var r := q[..k] + [item] + q[k..];
    InsertedIsSorted(q, item);
    SortOfSorted(r);
    InsertedHasSameTier(q, item, High);
    InsertedHasSameTier(q, item, Normal);
    InsertedHasSameTier(q, item, Low);
  }

  lemma InsertedIsSorted(q: seq<QueueItem>, item: QueueItem)
    requires PrioritySorted(q)
    ensures PrioritySorted(q[..InsertPos(q, item)] + [item] + q[InsertPos(q, item)..])
  {
    var k := InsertPos(q, item);
    var r := q[..k] + [item] + q[k..];
    forall i, j | 0 <= i < j < |r| ensures Rank(r[i].priority) <= Rank(r[j].priority) {
      if j < k {
        assert r[i] == q[i] && r[j] == q[j];
      } else if j == k {
        assert r[i] == q[i] && r[j] == item;
      } else if i < k {
        assert r[i] == q[i] && r[j] == q[j - 1];
      } else if i == k {
        assert r[i] == item && r[j] == q[j - 1];
      } else {
        assert r[i] == q[i - 1] && r[j] == q[j - 1];
      }
    }
  }

  lemma InsertedHasSameTier(q: seq<QueueItem>, item: QueueItem, p: Priority)
    requires PrioritySorted(q)
    ensures Tier(q + [item], p) == Tier(q[..InsertPos(q, item)] + [item] + q[InsertPos(q, item)..], p)
  {
    var k := InsertPos(q, item);
    var a, b := q[..k], q[k..];
    assert q + [item] == a + b + [item];
    if Rank(p) <= Rank(item.priority) {
      forall i | 0 <= i < |b| ensures b[i].priority != p {
        assert b[i] == q[k + i];
      }
      TierNone(b, p);
    } else {
      TierNone([item], p);
    }
    TierSwap(a, b, [item], p);
  }

  /** Two parts of which one holds no item of tier `p` can trade places
      without changing that tier. */
  lemma TierSwap(a: seq<QueueItem>, b: seq<QueueItem>, c: seq<QueueItem>, p: Priority)
    requires Tier(b, p) == [] || Tier(c, p) == []
    ensures Tier(a + b + c, p) == Tier(a + c + b, p)
  {
    TierAppend(a + b, c, p);
    TierAppend(a, b, p);
    TierAppend(a + c, b, p);
    TierAppend(a, c, p);
  }

  // ---------------------------------------------------------------------------
  // Adding

  /** The queue between runs: no auction twice, in priority order, and no item
      retried yet. */
  ghost predicate WellFormed(q: seq<QueueItem>) {
    Distinct(Ids(q)) && PrioritySorted(q) && forall i :: 0 <= i < |q| ==> q[i].retries == 0
  }

  /** `add`: an auction already queued is ignored; otherwise a fresh item is
      appended and the queue sorted again. */
  function Enqueued(q: seq<QueueItem>, auctionId: nat, priority: Priority, now: int): seq<QueueItem> {
    if auctionId in Ids(q) then q
    else SortByPriority(q + [QueueItem(auctionId, priority, now, 0)])
  }

  /** `add` keeps the queue well formed, queues the auction exactly once, and
      places a new item after every queued item of the same or higher
      priority and before every lower one. */
  lemma {:induction false} EnqueuedProperties(q: seq<QueueItem>, auctionId: nat, priority: Priority, now: int)
    requires WellFormed(q)
    ensures WellFormed(Enqueued(q, auctionId, priority, now))
    ensures auctionId in Ids(Enqueued(q, auctionId, priority, now))
    ensures auctionId in Ids(q) ==> Enqueued(q, auctionId, priority, now) == q
    ensures auctionId !in Ids(q) ==>
      var item := QueueItem(auctionId, priority, now, 0);
      var k := InsertPos(q, item);
      Enqueued(q, auctionId, priority, now) == q[..k] + [item] + q[k..]
  {
    if auctionId !in Ids(q) {
      var item := QueueItem(auctionId, priority, now, 0);
      SortAfterAppend(q, item);
      InsertedIsSorted(q, item);
      InsertedIsWellFormed(q, item);
    }
  }

  lemma InsertedIsWellFormed(q: seq<QueueItem>, item: QueueItem)
    requires WellFormed(q) && item.retries == 0 && item.auctionId !in Ids(q)
    ensures var k := InsertPos(q, item);
      var r := q[..k] + [item] + q[k..];
      Distinct(Ids(r)) && (forall i :: 0 <= i < |r| ==> r[i].retries == 0) && item.auctionId in Ids(r)
  {
    var k := InsertPos(q, item);
    var a, b := q[..k], q[k..];
    assert q == a + b;
    IdsAppend(a, b);
    IdsAppend(a + [item], b);
    IdsAppend(a, [item]);
    assert Ids([item]) == [item.auctionId];
    DistinctInsert(Ids(a), Ids(b), item.auctionId);
    var r := a + [item] + b;
    assert Ids(r) == Ids(a) + [item.auctionId] + Ids(b);
    assert Ids(r)[k] == item.auctionId;
    forall i | 0 <= i < |r| ensures r[i].retries == 0 {
      if i < k {
        assert r[i] == q[i];
      } else if i > k {
        assert r[i] == q[i - 1];
      }
    }
  }

  lemma IdsAppend(a: seq<QueueItem>, b: seq<QueueItem>)
    ensures Ids(a + b) == Ids(a) + Ids(b)
  {
  }

  /** A stable sort keeps the order of equal-priority items: among new items,
      first come, first served. */
  lemma {:induction false} EnqueuedKeepsTierOrder(q: seq<QueueItem>, auctionId: nat, priority: Priority, now: int, p: Priority)
    requires auctionId !in Ids(q)
    ensures Tier(Enqueued(q, auctionId, priority, now), p)
         == Tier(q, p) + (if p == priority then [QueueItem(auctionId, priority, now, 0)] else [])
  {
    var item := QueueItem(auctionId, priority, now, 0);
    SortByPriorityKeepsTiers(q + [item], p);
    TierAppend(q, [item], p);
    assert [item][1..] == [];
  }

  /** `addBatch`: `add` for each id in turn. */
  function EnqueuedAll(q: seq<QueueItem>, auctionIds: seq<nat>, priority: Priority, now: int): seq<QueueItem>
    decreases |auctionIds|
  {
    if auctionIds == [] then q
    else EnqueuedAll(Enqueued(q, auctionIds[0], priority, now), auctionIds[1..], priority, now)
  }

  lemma EnqueuedAllNext(q: seq<QueueItem>, auctionIds: seq<nat>, i: nat, priority: Priority, now: int)
    requires i < |auctionIds|
    ensures EnqueuedAll(q, auctionIds[i..], priority, now)
         == EnqueuedAll(Enqueued(q, auctionIds[i], priority, now), auctionIds[i + 1..], priority, now)
  {
    assert auctionIds[i..][1..] == auctionIds[i + 1..];
  }

  /** After `addBatch` every given id is queued exactly once, nothing was
      dropped, and no other id was queued. */
  lemma {:induction false} EnqueuedAllProperties(q: seq<QueueItem>, auctionIds: seq<nat>, priority: Priority, now: int)
    requires WellFormed(q)
    ensures WellFormed(EnqueuedAll(q, auctionIds, priority, now))
    ensures forall id :: id in auctionIds || id in Ids(q) ==> id in Ids(EnqueuedAll(q, auctionIds, priority, now))
    ensures forall id :: id in Ids(EnqueuedAll(q, auctionIds, priority, now)) ==> id in auctionIds || id in Ids(q)
    decreases |auctionIds|
  {
    if auctionIds != [] {
      var q' := Enqueued(q, auctionIds[0], priority, now);
      EnqueuedProperties(q, auctionIds[0], priority, now);
      EnqueuedKeepsIds(q, auctionIds[0], priority, now);
      EnqueuedAllProperties(q', auctionIds[1..], priority, now);
      forall id | id in auctionIds ensures id == auctionIds[0] || id in auctionIds[1..] {
        assert auctionIds == [auctionIds[0]] + auctionIds[1..];
      }
    }
  }

  /** `add` never removes an auction, and adds no other than its own. */
  lemma {:induction false} EnqueuedKeepsIds(q: seq<QueueItem>, auctionId: nat, priority: Priority, now: int)
    ensures forall id :: id in Ids(q) ==> id in Ids(Enqueued(q, auctionId, priority, now))
    ensures forall id :: id in Ids(Enqueued(q, auctionId, priority, now)) ==> id in Ids(q) || id == auctionId
  {
    if auctionId !in Ids(q) {
      var s := q + [QueueItem(auctionId, priority, now, 0)];
      SortByPriorityPermutes(s);
      PermutedIds(s, SortByPriority(s));
      PermutedIds(SortByPriority(s), s);
      assert Ids(s) == Ids(q) + [auctionId];
    }
  }

  /** Rearranged items carry the same auctions. */
  lemma PermutedIds(a: seq<QueueItem>, b: seq<QueueItem>)
    requires multiset(a) == multiset(b)
    ensures forall id :: id in Ids(b) ==> id in Ids(a)
  {
    forall id | id in Ids(b) ensures id in Ids(a) {
      var j :| 0 <= j < |b| && Ids(b)[j] == id;
      assert b[j] in multiset(a);
      var i :| 0 <= i < |a| && a[i] == b[j];
      assert Ids(a)[i] == id;
    }
  }

  // ---------------------------------------------------------------------------
  // Processing

  /** How an item ends up once processing reaches it: it succeeds on some
      attempt, or its last allowed attempt throws and it gives up with that
      attempt's message. */
  datatype Fate = Succeeds(attempts: nat) | GivesUp(error: string)

  /** `error.message || 'Unknown error'`. */
  function ErrorText(message: string): (r: string)
    ensures r != []
    ensures message != [] ==> r == message
  {
    if message == "" then "Unknown error" else message
  }

  /** The fate of an item that has already been retried `retries` times, when
      attempt number `retries` of auction `id` has outcome `attempt(id, retries)`. */
  function FateFrom(attempt: (nat, nat) -> Outcome, id: nat, retries: nat): (f: Fate)
    requires retries <= MaxRetries
    ensures f.Succeeds? ==> retries < f.attempts <= MaxRetries + 1 && attempt(id, f.attempts - 1) == Enriched
    ensures f.GivesUp? ==> attempt(id, MaxRetries).Threw? && f.error == ErrorText(attempt(id, MaxRetries).message)
    decreases MaxRetries - retries
  {
    match attempt(id, retries)
    case Enriched => Succeeds(retries + 1)
    case Threw(message) =>
      if retries < MaxRetries then FateFrom(attempt, id, retries + 1) else GivesUp(ErrorText(message))
  }

  /** Attempts processing spends on an item with this fate. */
  function Attempts(f: Fate): nat {
    if f.Succeeds? then f.attempts else MaxRetries + 1
  }

  /** An item gives up exactly when every one of its `maxRetries + 1`
      attempts throws; otherwise it succeeds on its first attempt that does not. */
  lemma {:induction false} GivesUpIffAllAttemptsThrow(attempt: (nat, nat) -> Outcome, id: nat, retries: nat)
    requires retries <= MaxRetries
    ensures FateFrom(attempt, id, retries).GivesUp? <==> forall r :: retries <= r <= MaxRetries ==> attempt(id, r).Threw?
    ensures FateFrom(attempt, id, retries).Succeeds? ==>
      forall r :: retries <= r < FateFrom(attempt, id, retries).attempts - 1 ==> attempt(id, r).Threw?
    decreases MaxRetries - retries
  {
    if attempt(id, retries).Threw? && retries < MaxRetries {
      GivesUpIffAllAttemptsThrow(attempt, id, retries + 1);
    }
  }

  /** The attempts an item with `retries` earlier attempts may still take. */
  function Budget(q: seq<QueueItem>): nat {
    if q == [] then 0
    else (if q[0].retries <= MaxRetries then MaxRetries + 1 - q[0].retries else 0) + Budget(q[1..])
  }

  lemma {:induction false} BudgetAppend(a: seq<QueueItem>, b: seq<QueueItem>)
    ensures Budget(a + b) == Budget(a) + Budget(b)
  {
    if a == [] {
      assert a + b == b;
    } else {
      assert (a + b)[1..] == a[1..] + b;
      BudgetAppend(a[1..], b);
    }
  }

  lemma {:induction false} BudgetOfFresh(q: seq<QueueItem>)
    requires forall i :: 0 <= i < |q| ==> q[i].retries == 0
    ensures Budget(q) == (MaxRetries + 1) * |q|
  {
    if q != [] {
      BudgetOfFresh(q[1..]);
    }
  }

  /** Every initial id is pending, succeeded or in the error list, exactly once
      overall. */
  ghost predicate Conserved(init: seq<QueueItem>, pending: seq<QueueItem>, succeeded: seq<nat>, errors: seq<ErrorEntry>) {
    multiset(Ids(pending)) + multiset(succeeded) + multiset(ErrorIds(errors)) == multiset(Ids(init))
  }

  /** A pending item was attempted as often as its retry counter says, and its
      fate is still the fate the initial item had. */
  ghost predicate PendingTracked(attempt: (nat, nat) -> Outcome, pending: seq<QueueItem>, log: seq<nat>) {
    forall x | x in pending ::
      x.retries <= MaxRetries && multiset(log)[x.auctionId] == x.retries
      && FateFrom(attempt, x.auctionId, x.retries) == FateFrom(attempt, x.auctionId, 0)
  }

  /** A succeeded id succeeded after as many attempts as its fate says. */
  ghost predicate SucceededTracked(attempt: (nat, nat) -> Outcome, succeeded: seq<nat>, log: seq<nat>) {
    forall id | id in succeeded :: FateFrom(attempt, id, 0) == Succeeds(multiset(log)[id])
  }

  /** A failed id gave up, with its last attempt's message, after all its
      attempts. */
  ghost predicate ErrorsTracked(attempt: (nat, nat) -> Outcome, errors: seq<ErrorEntry>, log: seq<nat>) {
    forall e | e in errors :: FateFrom(attempt, e.id, 0) == GivesUp(e.error) && multiset(log)[e.id] == MaxRetries + 1
  }

  /** The first pass attempts the initial items in queue order. */
  ghost predicate FirstPass(init: seq<QueueItem>, pending: seq<QueueItem>, log: seq<nat>) {
    && (|log| < |init| ==>
          |init| - |log| <= |pending| && log == Ids(init)[..|log|]
          && Ids(pending)[..|init| - |log|] == Ids(init)[|log|..])
    && (|log| >= |init| ==> log[..|init|] == Ids(init))
  }

  /** The bookkeeping of a run in progress, for the items `init` taken at the
      start, with `pending` still to attempt, `log` the auction ids attempted
      so far and `succeeded` the ids that succeeded. The attempts spent plus
      the attempts still possible never exceed the initial budget. */
  ghost predicate Accounted(attempt: (nat, nat) -> Outcome, init: seq<QueueItem>, pending: seq<QueueItem>,
                            log: seq<nat>, succeeded: seq<nat>, errors: seq<ErrorEntry>)
  {
    && Distinct(Ids(init))
    && |log| + Budget(pending) <= Budget(init)
    && Conserved(init, pending, succeeded, errors)
    && PendingTracked(attempt, pending, log)
    && SucceededTracked(attempt, succeeded, log)
    && ErrorsTracked(attempt, errors, log)
    && FirstPass(init, pending, log)
  }

  lemma AccountedAtStart(attempt: (nat, nat) -> Outcome, init: seq<QueueItem>)
    requires WellFormed(init)
    ensures Accounted(attempt, init, init, [], [], [])
  {
    assert Ids(init)[..|init|] == Ids(init);
    assert ErrorIds([]) == [];
  }

  lemma {:induction false} DistinctCount(s: seq<nat>, x: nat)
    requires Distinct(s)
    ensures multiset(s)[x] <= 1
  {
    if s != [] {
      assert s == [s[0]] + s[1..];
      DistinctCount(s[1..], x);
      if s[0] == x {
        assert x !in s[1..];
      }
    }
  }

  lemma InIds(q: seq<QueueItem>, x: QueueItem)
    requires x in q
    ensures x.auctionId in Ids(q)
  {
    var i :| 0 <= i < |q| && q[i] == x;
    assert Ids(q)[i] == x.auctionId;
  }

  lemma InErrorIds(errors: seq<ErrorEntry>, e: ErrorEntry)
    requires e in errors
    ensures e.id in ErrorIds(errors)
  {
    var i :| 0 <= i < |errors| && errors[i] == e;
    assert ErrorIds(errors)[i] == e.id;
  }

  /** The item at the front of the pending list is the only trace of its auction. */
  lemma Isolated(init: seq<QueueItem>, item: QueueItem, rest: seq<QueueItem>, succeeded: seq<nat>, errors: seq<ErrorEntry>)
    requires Distinct(Ids(init)) && Conserved(init, [item] + rest, succeeded, errors)
    ensures forall x | x in rest :: x.auctionId != item.auctionId
    ensures item.auctionId !in succeeded
    ensures forall e | e in errors :: e.id != item.auctionId
  {
    var id := item.auctionId;
    DistinctCount(Ids(init), id);
    IdsAppend([item], rest);
    assert Ids([item]) == [id];
    assert multiset(Ids(rest))[id] == 0;
    forall x | x in rest ensures x.auctionId != id {
      InIds(rest, x);
    }
    forall e | e in errors ensures e.id != id {
      InErrorIds(errors, e);
    }
  }

  /** The first-pass order across one attempt. */
  lemma FirstPassStep(init: seq<QueueItem>, item: QueueItem, rest: seq<QueueItem>, rest': seq<QueueItem>, log: seq<nat>)
    requires FirstPass(init, [item] + rest, log)
    requires |rest| <= |rest'| && rest'[..|rest|] == rest
    ensures FirstPass(init, rest', log + [item.auctionId])
  {
    var log' := log + [item.auctionId];
    if |log| < |init| {
      var n := |init| - |log|;
      assert Ids([item] + rest)[0] == item.auctionId == Ids(init)[|log|];
      assert log' == Ids(init)[..|log'|];
      if |log'| < |init| {
        forall i | 0 <= i < n - 1 ensures Ids(rest')[i] == Ids(init)[|log'|..][i] {
          assert rest'[i] == rest[i] == ([item] + rest)[i + 1];
          assert Ids([item] + rest)[..n][i + 1] == Ids(init)[|log|..][i + 1];
        }
      }
    } else {
      assert log'[..|init|] == log[..|init|];
    }
  }

  /** Attempting the front item spends one attempt of the budget or more. */
  lemma BudgetStep(item: QueueItem, rest: seq<QueueItem>, retried: seq<QueueItem>)
    requires item.retries <= MaxRetries
    requires retried == [] || (retried == [item.(retries := item.retries + 1)] && item.retries < MaxRetries)
    ensures Budget(rest + retried) + 1 <= Budget([item] + rest)
  {
    BudgetAppend([item], rest);
    BudgetAppend(rest, retried);
    assert [item][1..] == [];
    if retried != [] {
      assert retried[1..] == [];
    }
  }

  lemma CountAppend(log: seq<nat>, id: nat, y: nat)
    ensures multiset(log + [id])[y] == multiset(log)[y] + (if y == id then 1 else 0)
  {
  }

  /** The front item's tracking facts, and the tracking of the rest. */
  lemma PendingTail(attempt: (nat, nat) -> Outcome, item: QueueItem, rest: seq<QueueItem>, log: seq<nat>)
    requires PendingTracked(attempt, [item] + rest, log)
    ensures PendingTracked(attempt, rest, log)
    ensures item.retries <= MaxRetries && multiset(log)[item.auctionId] == item.retries
    ensures FateFrom(attempt, item.auctionId, item.retries) == FateFrom(attempt, item.auctionId, 0)
  {
    assert item in [item] + rest;
    forall x | x in rest
      ensures x.retries <= MaxRetries && multiset(log)[x.auctionId] == x.retries
      ensures FateFrom(attempt, x.auctionId, x.retries) == FateFrom(attempt, x.auctionId, 0)
    {
      assert x in [item] + rest;
    }
  }

  /** Logging an attempt of `id` leaves the tracking of every other id as it was. */
  lemma LogOther(attempt: (nat, nat) -> Outcome, rest: seq<QueueItem>, log: seq<nat>, succeeded: seq<nat>,
                 errors: seq<ErrorEntry>, id: nat)
    requires PendingTracked(attempt, rest, log) && SucceededTracked(attempt, succeeded, log)
    requires ErrorsTracked(attempt, errors, log)
    requires forall x | x in rest :: x.auctionId != id
    requires id !in succeeded
    requires forall e | e in errors :: e.id != id
    ensures PendingTracked(attempt, rest, log + [id]) && SucceededTracked(attempt, succeeded, log + [id])
    ensures ErrorsTracked(attempt, errors, log + [id])
  {
    forall x | x in rest ensures multiset(log + [id])[x.auctionId] == multiset(log)[x.auctionId] {
      CountAppend(log, id, x.auctionId);
    }
    forall s | s in succeeded ensures multiset(log + [id])[s] == multiset(log)[s] {
      CountAppend(log, id, s);
    }
    forall e | e in errors ensures multiset(log + [id])[e.id] == multiset(log)[e.id] {
      CountAppend(log, id, e.id);
    }
  }

  lemma SucceededAppend(attempt: (nat, nat) -> Outcome, succeeded: seq<nat>, log: seq<nat>, id: nat)
    requires SucceededTracked(attempt, succeeded, log)
    requires FateFrom(attempt, id, 0) == Succeeds(multiset(log)[id])
    ensures SucceededTracked(attempt, succeeded + [id], log)
  {
  }

  lemma ErrorsAppend(attempt: (nat, nat) -> Outcome, errors: seq<ErrorEntry>, log: seq<nat>, e: ErrorEntry)
    requires ErrorsTracked(attempt, errors, log)
    requires FateFrom(attempt, e.id, 0) == GivesUp(e.error) && multiset(log)[e.id] == MaxRetries + 1
    ensures ErrorsTracked(attempt, errors + [e], log)
  {
  }

  lemma ConservedSuccess(init: seq<QueueItem>, item: QueueItem, rest: seq<QueueItem>, succeeded: seq<nat>,
                         errors: seq<ErrorEntry>)
    requires Conserved(init, [item] + rest, succeeded, errors)
    ensures Conserved(init, rest, succeeded + [item.auctionId], errors)
  {
    IdsAppend([item], rest);
    assert Ids([item]) == [item.auctionId];
  }

  lemma ConservedRetry(init: seq<QueueItem>, item: QueueItem, rest: seq<QueueItem>, succeeded: seq<nat>,
                       errors: seq<ErrorEntry>)
    requires Conserved(init, [item] + rest, succeeded, errors)
    ensures Conserved(init, rest + [item.(retries := item.retries + 1)], succeeded, errors)
  {
    IdsAppend([item], rest);
    IdsAppend(rest, [item.(retries := item.retries + 1)]);
    assert Ids([item]) == [item.auctionId] == Ids([item.(retries := item.retries + 1)]);
  }

  lemma ConservedGiveUp(init: seq<QueueItem>, item: QueueItem, rest: seq<QueueItem>, succeeded: seq<nat>,
                        errors: seq<ErrorEntry>, e: ErrorEntry)
    requires Conserved(init, [item] + rest, succeeded, errors) && e.id == item.auctionId
    ensures Conserved(init, rest, succeeded, errors + [e])
  {
    IdsAppend([item], rest);
    assert Ids([item]) == [item.auctionId];
    assert ErrorIds(errors + [e]) == ErrorIds(errors) + [e.id];
  }

  lemma SuccessStep(attempt: (nat, nat) -> Outcome, init: seq<QueueItem>, item: QueueItem, rest: seq<QueueItem>,
                    log: seq<nat>, succeeded: seq<nat>, errors: seq<ErrorEntry>)
    requires Accounted(attempt, init, [item] + rest, log, succeeded, errors)
    requires attempt(item.auctionId, item.retries) == Enriched
    ensures Accounted(attempt, init, rest, log + [item.auctionId], succeeded + [item.auctionId], errors)
    ensures Budget(rest) < Budget([item] + rest)
  {
    var id := item.auctionId;
    Isolated(init, item, rest, succeeded, errors);
    PendingTail(attempt, item, rest, log);
    BudgetStep(item, rest, []);
    assert rest + [] == rest;
    FirstPassStep(init, item, rest, rest, log);
    ConservedSuccess(init, item, rest, succeeded, errors);
    LogOther(attempt, rest, log, succeeded, errors, id);
    CountAppend(log, id, id);
    SucceededAppend(attempt, succeeded, log + [id], id);
  }

  lemma RetryStep(attempt: (nat, nat) -> Outcome, init: seq<QueueItem>, item: QueueItem, rest: seq<QueueItem>,
                  log: seq<nat>, succeeded: seq<nat>, errors: seq<ErrorEntry>)
    requires Accounted(attempt, init, [item] + rest, log, succeeded, errors)
    requires attempt(item.auctionId, item.retries).Threw? && item.retries < MaxRetries
    ensures Accounted(attempt, init, rest + [item.(retries := item.retries + 1)], log + [item.auctionId], succeeded, errors)
    ensures Budget(rest + [item.(retries := item.retries + 1)]) < Budget([item] + rest)
  {
    var id := item.auctionId;
    var item' := item.(retries := item.retries + 1);
    var pending' := rest + [item'];
    Isolated(init, item, rest, succeeded, errors);
    PendingTail(attempt, item, rest, log);
    BudgetStep(item, rest, [item']);
    assert pending'[..|rest|] == rest;
    FirstPassStep(init, item, rest, pending', log);
    ConservedRetry(init, item, rest, succeeded, errors);
    LogOther(attempt, rest, log, succeeded, errors, id);
    CountAppend(log, id, id);
    PendingAppend(attempt, rest, log + [id], item');
  }

  lemma PendingAppend(attempt: (nat, nat) -> Outcome, pending: seq<QueueItem>, log: seq<nat>, x: QueueItem)
    requires PendingTracked(attempt, pending, log)
    requires x.retries <= MaxRetries && multiset(log)[x.auctionId] == x.retries
    requires FateFrom(attempt, x.auctionId, x.retries) == FateFrom(attempt, x.auctionId, 0)
    ensures PendingTracked(attempt, pending + [x], log)
  {
  }

  lemma GiveUpStep(attempt: (nat, nat) -> Outcome, init: seq<QueueItem>, item: QueueItem, rest: seq<QueueItem>,
                   log: seq<nat>, succeeded: seq<nat>, errors: seq<ErrorEntry>)
    requires Accounted(attempt, init, [item] + rest, log, succeeded, errors)
    requires attempt(item.auctionId, item.retries).Threw? && item.retries >= MaxRetries
    ensures Accounted(attempt, init, rest, log + [item.auctionId], succeeded,
                      errors + [ErrorEntry(item.auctionId, ErrorText(attempt(item.auctionId, item.retries).message))])
    ensures Budget(rest) < Budget([item] + rest)
  {
    var id := item.auctionId;
    var e := ErrorEntry(id, ErrorText(attempt(id, item.retries).message));
    Isolated(init, item, rest, succeeded, errors);
    PendingTail(attempt, item, rest, log);
    BudgetStep(item, rest, []);
    assert rest + [] == rest;
    FirstPassStep(init, item, rest, rest, log);
    ConservedGiveUp(init, item, rest, succeeded, errors, e);
    LogOther(attempt, rest, log, succeeded, errors, id);
    CountAppend(log, id, id);
    ErrorsAppend(attempt, errors, log + [id], e);
  }

  /** The `try`/`catch`/`finally` around one attempt of a batch item: the run
      statistics after it, and the item to append to the queue again (empty
      when the item succeeded or has used up its retries). */
  function Attempted(attempt: (nat, nat) -> Outcome, item: QueueItem, run: ProcessingStats): (ProcessingStats, seq<QueueItem>) {
    match attempt(item.auctionId, item.retries)
    case Enriched =>
      (run.(successful := run.successful + 1, processed := run.processed + 1), [])
    case Threw(message) =>
      if item.retries < MaxRetries then
        (run.(processed := run.processed + 1), [item.(retries := item.retries + 1)])
      else
        (run.(failed := run.failed + 1, processed := run.processed + 1,
              errors := run.errors + [ErrorEntry(item.auctionId, ErrorText(message))]), [])
  }

  /** The counters of a run agree with the attempt log and the succeeded ids. */
  ghost predicate Tallied(run: ProcessingStats, log: seq<nat>, succeeded: seq<nat>) {
    run.processed == |log| && run.successful == |succeeded| && run.failed == |run.errors|
  }

  ghost function SucceededAfter(attempt: (nat, nat) -> Outcome, item: QueueItem, succeeded: seq<nat>): seq<nat> {
    if attempt(item.auctionId, item.retries) == Enriched then succeeded + [item.auctionId] else succeeded
  }

  /** One attempt keeps the bookkeeping and spends budget. */
  lemma AttemptStep(attempt: (nat, nat) -> Outcome, init: seq<QueueItem>, item: QueueItem, rest: seq<QueueItem>,
                    log: seq<nat>, succeeded: seq<nat>, run: ProcessingStats)
    requires Accounted(attempt, init, [item] + rest, log, succeeded, run.errors) && Tallied(run, log, succeeded)
    ensures Accounted(attempt, init, rest + Attempted(attempt, item, run).1, log + [item.auctionId],
                      SucceededAfter(attempt, item, succeeded), Attempted(attempt, item, run).0.errors)
    ensures Tallied(Attempted(attempt, item, run).0, log + [item.auctionId], SucceededAfter(attempt, item, succeeded))
    ensures Attempted(attempt, item, run).0.total == run.total
    ensures Attempted(attempt, item, run).0.startTime == run.startTime
    ensures Attempted(attempt, item, run).0.endTime == run.endTime
    ensures Budget(rest + Attempted(attempt, item, run).1) < Budget([item] + rest)
  {
    var step := Attempted(attempt, item, run);
    match attempt(item.auctionId, item.retries)
    case Enriched =>
      assert step.1 == [] && step.0.errors == run.errors;
      assert rest + step.1 == rest;
      SuccessStep(attempt, init, item, rest, log, succeeded, run.errors);
    case Threw(message) =>
      if item.retries < MaxRetries {
        assert step.1 == [item.(retries := item.retries + 1)] && step.0.errors == run.errors;
        RetryStep(attempt, init, item, rest, log, succeeded, run.errors);
      } else {
        assert step.1 == [] && step.0.errors == run.errors + [ErrorEntry(item.auctionId, ErrorText(message))];
        assert rest + step.1 == rest;
        GiveUpStep(attempt, init, item, rest, log, succeeded, run.errors);
      }
  }

  /** One turn of the inner loop of `processQueue`, in the loop's own terms. */
  lemma InnerStep(attempt: (nat, nat) -> Outcome, init: seq<QueueItem>, batch: seq<QueueItem>, j: nat,
                  queue: seq<QueueItem>, log: seq<nat>, succeeded: seq<nat>, run: ProcessingStats, head: seq<QueueItem>)
    requires j < |batch|
    requires Accounted(attempt, init, batch[j..] + queue, log, succeeded, run.errors) && Tallied(run, log, succeeded)
    requires j + Budget(batch[j..] + queue) <= Budget(head)
    ensures Accounted(attempt, init, batch[j + 1..] + (queue + Attempted(attempt, batch[j], run).1),
                      log + [batch[j].auctionId], SucceededAfter(attempt, batch[j], succeeded),
                      Attempted(attempt, batch[j], run).0.errors)
    ensures Tallied(Attempted(attempt, batch[j], run).0, log + [batch[j].auctionId], SucceededAfter(attempt, batch[j], succeeded))
    ensures Attempted(attempt, batch[j], run).0.total == run.total
    ensures Attempted(attempt, batch[j], run).0.startTime == run.startTime
    ensures Attempted(attempt, batch[j], run).0.endTime == run.endTime
    ensures j + 1 + Budget(batch[j + 1..] + (queue + Attempted(attempt, batch[j], run).1)) <= Budget(head)
  {
    SplitFront(batch, j, queue);
    AttemptStep(attempt, init, batch[j], batch[j + 1..] + queue, log, succeeded, run);
    AppendAssoc(batch[j + 1..], queue, Attempted(attempt, batch[j], run).1);
  }

  lemma SplitFront(s: seq<QueueItem>, j: nat, q: seq<QueueItem>)
    requires j < |s|
    ensures s[j..] + q == [s[j]] + (s[j + 1..] + q)
  {
    assert s[j..] == [s[j]] + s[j + 1..];
  }

  lemma AppendAssoc(a: seq<QueueItem>, b: seq<QueueItem>, c: seq<QueueItem>)
    ensures a + b + c == a + (b + c)
  {
  }

  lemma SplitAt(s: seq<QueueItem>, n: nat)
    requires n <= |s|
    ensures s[..n] + s[n..] == s
  {
  }

  lemma AppendEmpty(a: seq<QueueItem>, b: seq<QueueItem>)
    requires a == []
    ensures a + b == b
  {
  }

  class EnrichmentQueue {
    var queue: seq<QueueItem>
    var isProcessing: bool
    var stats: Option<ProcessingStats>

    ghost predicate Valid()
      reads this
    {
      && Distinct(Ids(queue)) && PrioritySorted(queue)
      && (forall i :: 0 <= i < |queue| ==> queue[i].retries <= MaxRetries)
      && (!isProcessing ==> WellFormed(queue))
      && (isProcessing ==> stats.Some?)
    }

    constructor()
      ensures Valid() && queue == [] && !isProcessing && stats == None
    {
      queue := [];
      isProcessing := false;
      stats := None;
    }

    /** `add(auctionId, priority)` at time `now`. */
    method Add(auctionId: nat, priority: Priority, now: int)
      requires Valid() && !isProcessing
      modifies this
      ensures Valid()
      ensures queue == Enqueued(old(queue), auctionId, priority, now)
      ensures isProcessing == old(isProcessing) && stats == old(stats)
    {
      EnqueuedProperties(queue, auctionId, priority, now);
      if auctionId in Ids(queue) {
        return;
      }
      queue := queue + [QueueItem(auctionId, priority, now, 0)];
      queue := SortByPriority(queue);
    }

    /** `addBatch(auctionIds, priority)`. */
    method AddBatch(auctionIds: seq<nat>, priority: Priority, now: int)
      requires Valid() && !isProcessing
      modifies this
      ensures Valid()
      ensures queue == EnqueuedAll(old(queue), auctionIds, priority, now)
      ensures isProcessing == old(isProcessing) && stats == old(stats)
    {
      var i := 0;
      while i < |auctionIds|
        invariant 0 <= i <= |auctionIds|
        invariant Valid() && !isProcessing && stats == old(stats)
        invariant EnqueuedAll(old(queue), auctionIds, priority, now)
               == EnqueuedAll(queue, auctionIds[i..], priority, now)
      {
        EnqueuedAllNext(queue, auctionIds, i, priority, now);
        Add(auctionIds[i], priority, now);
        i := i + 1;
      }
    }

    /** `getStatus()`: the queue length, the processing flag and the last
        run's statistics. */
    function Status(): (r: (int, bool, Option<ProcessingStats>))
      reads this
      ensures r.0 == |queue| && r.1 == isProcessing && r.2 == stats
    {
      (|queue|, isProcessing, stats)
    }

    /** `getQueue()`: a copy of the queued items. */
    method GetQueue() returns (items: seq<QueueItem>)
      ensures items == queue
    {
      items := queue;
    }

    /** `clear()`. */
    method Clear()
      requires Valid()
      modifies this
      ensures Valid()
      ensures queue == [] && isProcessing == old(isProcessing) && stats == old(stats)
    {
      queue := [];
    }

    /** One batch of `processQueue`, taken off the front of the queue: its
        items are attempted in order, and an item to be retried goes to the
        back of the queue. */
    method RunBatch(batch: seq<QueueItem>, attempt: (nat, nat) -> Outcome, run0: ProcessingStats,
                    ghost init: seq<QueueItem>, ghost head: seq<QueueItem>, ghost log0: seq<nat>, ghost succeeded0: seq<nat>)
      returns (run: ProcessingStats, ghost log: seq<nat>, ghost succeeded: seq<nat>)
      requires isProcessing && stats == Some(run0)
      requires Accounted(attempt, init, batch + queue, log0, succeeded0, run0.errors) && Tallied(run0, log0, succeeded0)
      requires Budget(batch + queue) <= Budget(head)
      modifies this
      ensures isProcessing && stats == Some(run)
      ensures run.total == run0.total && run.startTime == run0.startTime && run.endTime == run0.endTime
      ensures Accounted(attempt, init, queue, log, succeeded, run.errors) && Tallied(run, log, succeeded)
      ensures |batch| + Budget(queue) <= Budget(head)
    {
      run, log, succeeded := run0, log0, succeeded0;
      assert batch[0..] == batch;
      var j := 0;
      while j < |batch|
        invariant 0 <= j <= |batch|
        invariant isProcessing && stats == Some(run)
        invariant run.total == run0.total && run.startTime == run0.startTime && run.endTime == run0.endTime
        invariant Accounted(attempt, init, batch[j..] + queue, log, succeeded, run.errors)
        invariant Tallied(run, log, succeeded)
        invariant j + Budget(batch[j..] + queue) <= Budget(head)
      {
        var item := batch[j];
        InnerStep(attempt, init, batch, j, queue, log, succeeded, run, head);
        var step := Attempted(attempt, item, run);
        queue := queue + step.1;
        run := step.0;
        stats := Some(run);
        log := log + [item.auctionId];
        succeeded := SucceededAfter(attempt, item, succeeded);
        j := j + 1;
      }
      AppendEmpty(batch[|batch|..], queue);
    }

    /** `processQueue()` at time `now`, where `attempt(id, k)` is the outcome of
        enriching auction `id` on its attempt number `k` (from 0). Batches of
        `MaxConcurrent` items are taken from the front; a failed item is
        appended again until it has been retried `MaxRetries` times. The ghost
        results are the sequence of attempted ids and the ids that succeeded. */
    method ProcessQueue(now: int, attempt: (nat, nat) -> Outcome)
      returns (result: ProcessingStats, ghost log: seq<nat>, ghost succeeded: seq<nat>)
      requires Valid()
      modifies this
      ensures Valid()
      ensures old(isProcessing) ==>
        result == old(stats).value && queue == old(queue) && isProcessing && stats == old(stats)
      ensures !old(isProcessing) && old(queue) == [] ==>
        result == ProcessingStats(0, 0, 0, 0, now, Some(now), [])
        && queue == [] && !isProcessing && stats == old(stats)
      ensures !old(isProcessing) && old(queue) != [] ==>
        && queue == [] && !isProcessing && stats == Some(result)
        && result.total == |old(queue)| && result.startTime == now && result.endTime == Some(now)
        && result.successful == |succeeded| && result.failed == |result.errors|
        && result.successful + result.failed == result.total
        && result.total <= result.processed <= (MaxRetries + 1) * result.total
        // every queued auction either succeeded or is in the error list, once
        && multiset(succeeded) + multiset(ErrorIds(result.errors)) == multiset(Ids(old(queue)))
        // and which one is decided by its attempts' outcomes
        && (forall id | id in succeeded :: FateFrom(attempt, id, 0).Succeeds?)
        && (forall e | e in result.errors :: FateFrom(attempt, e.id, 0) == GivesUp(e.error))
        // each auction is attempted as often as its fate says: at most MaxRetries + 1 times
        && |log| == result.processed
        && (forall id | id in Ids(old(queue)) :: multiset(log)[id] == Attempts(FateFrom(attempt, id, 0)))
        // the first pass attempts the queue in its (priority) order
        && log[..result.total] == Ids(old(queue))
    {
      log, succeeded := [], [];
      if isProcessing {
        result := stats.value;
        return;
      }
      if queue == [] {
        result := ProcessingStats(0, 0, 0, 0, now, Some(now), []);
        return;
      }
      ghost var init := queue;
      isProcessing := true;
      var run := ProcessingStats(|queue|, 0, 0, 0, now, None, []);
      stats := Some(run);
      AccountedAtStart(attempt, init);
      while queue != []
        invariant isProcessing && stats == Some(run)
        invariant run.total == |init| && run.startTime == now && run.endTime == None
        invariant Accounted(attempt, init, queue, log, succeeded, run.errors) && Tallied(run, log, succeeded)
        decreases Budget(queue)
      {
        var n := if |queue| < MaxConcurrent then |queue| else MaxConcurrent;
        var batch := queue[..n];
        ghost var head := queue;
        queue := queue[n..];
        SplitAt(head, n);
        run, log, succeeded := RunBatch(batch, attempt, run, init, head, log, succeeded);
      }
      Finished(attempt, init, log, succeeded, run.errors);
      result := run.(endTime := Some(now));
      stats := Some(result);
      isProcessing := false;
    }

    /** `startProcessing()`: run the queue unless a run is already going on.
        An empty queue leaves the statistics as they were; otherwise the run
        leaves its own: every queued auction counted once, as a success or as
        an error, and an auction in the error list exactly when its attempts
        all fail. */
    method StartProcessing(now: int, attempt: (nat, nat) -> Outcome)
      requires Valid()
      modifies this
      ensures Valid()
      ensures old(isProcessing) ==> queue == old(queue) && stats == old(stats) && isProcessing
      ensures !old(isProcessing) ==> queue == [] && !isProcessing
      ensures !old(isProcessing) && old(queue) == [] ==> stats == old(stats)
      ensures !old(isProcessing) && old(queue) != [] ==>
        && stats.Some? && stats.value.total == |old(queue)|
        && stats.value.startTime == now && stats.value.endTime == Some(now)
        && stats.value.successful + stats.value.failed == stats.value.total
        && stats.value.failed == |stats.value.errors|
        && stats.value.total <= stats.value.processed <= (MaxRetries + 1) * stats.value.total
        && multiset(ErrorIds(stats.value.errors)) <= multiset(Ids(old(queue)))
        && (forall e | e in stats.value.errors :: FateFrom(attempt, e.id, 0) == GivesUp(e.error))
        && (forall id | id in Ids(old(queue)) :: FateFrom(attempt, id, 0).GivesUp? <==> id in ErrorIds(stats.value.errors))
    {
      if isProcessing {
        return;
      }
      ghost var init := queue;
      var result;
      ghost var log, succeeded;
      result, log, succeeded := ProcessQueue(now, attempt);
      if init != [] {
        ErrorsAreGiveUps(attempt, Ids(init), succeeded, result.errors);
      }
    }
  }

  /** With every queued auction a success or an error, and every success's
      attempts succeeding and every error's giving up, an auction is an error
      exactly when its attempts give up. */
  lemma ErrorsAreGiveUps(attempt: (nat, nat) -> Outcome, ids: seq<nat>, succeeded: seq<nat>, errors: seq<ErrorEntry>)
    requires multiset(succeeded) + multiset(ErrorIds(errors)) == multiset(ids)
    requires forall id | id in succeeded :: FateFrom(attempt, id, 0).Succeeds?
    requires forall e | e in errors :: FateFrom(attempt, e.id, 0) == GivesUp(e.error)
    ensures forall id | id in ids :: FateFrom(attempt, id, 0).GivesUp? <==> id in ErrorIds(errors)
  {
    forall id | id in ids ensures FateFrom(attempt, id, 0).GivesUp? <==> id in ErrorIds(errors) {
      assert id in multiset(ids);
      if id in ErrorIds(errors) {
        var i :| 0 <= i < |errors| && ErrorIds(errors)[i] == id;
        assert errors[i] in errors;
      } else {
        assert id in multiset(succeeded);
      }
    }
  }

  /** What the bookkeeping says once nothing is pending. */
  lemma {:induction false} Finished(attempt: (nat, nat) -> Outcome, init: seq<QueueItem>, log: seq<nat>, succeeded: seq<nat>, errors: seq<ErrorEntry>)
    requires WellFormed(init) && |init| > 0
    requires Accounted(attempt, init, [], log, succeeded, errors)
    ensures |succeeded| + |errors| == |init|
    ensures |init| <= |log| <= (MaxRetries + 1) * |init|
    ensures multiset(succeeded) + multiset(ErrorIds(errors)) == multiset(Ids(init))
    ensures forall id | id in succeeded :: FateFrom(attempt, id, 0).Succeeds?
    ensures forall id | id in Ids(init) :: multiset(log)[id] == Attempts(FateFrom(attempt, id, 0))
    ensures log[..|init|] == Ids(init)
  {
    assert Ids([]) == [];
    BudgetOfFresh(init);
    assert |multiset(succeeded) + multiset(ErrorIds(errors))| == |multiset(Ids(init))|;
    forall id | id in Ids(init) ensures multiset(log)[id] == Attempts(FateFrom(attempt, id, 0)) {
      assert id in multiset(succeeded) + multiset(ErrorIds(errors));
      if id !in succeeded {
        assert id in ErrorIds(errors);
        var i :| 0 <= i < |errors| && ErrorIds(errors)[i] == id;
        assert errors[i] in errors;
      }
    }
  }
}
