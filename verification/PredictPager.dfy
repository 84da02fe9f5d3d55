/** The predictive pager, updating its static tables in place. One call goes through these
    phases:

    - finished page operations are forgotten;
    - the least recently used pages are evicted until the reserve of free frames is restored;
    - each slot that has moved to another page records the transition, and on a decay tick all
      counts fade;
    - once per window the working sets are counted and their missing pages requested;
    - each active slot's current page is noted as referenced and requested, and if the request
      is refused the slot's own least recently used page is evicted;
    - the pages predicted to come next are fetched ahead. */
module PredictPager {
  import opened Modular
  import opened Paging
  import opened References
  import opened Reserve
  import opened Shadow
  import opened Transitions
  import opened Victims
  import S = Simulator

  datatype ProcType = Unknown | Linear | Loop

  datatype WorkSet = WorkSet(procType: ProcType, size: int)

  /** Each timestamp is the tick of the last reference in the trace. */
  predicate Times(p: Params, timestamps: seq<seq<int>>, trace: Refs) {
    && |timestamps| == p.slots
    && forall i: nat :: i < p.slots ==> RowTimes(timestamps[i], trace, i, p.npages)
  }

  predicate RowTimes(row: seq<int>, trace: Refs, i: nat, n: nat) {
    |row| == n && forall g: nat :: g < n ==> row[g] == LastRef(trace, i, g)
  }

  function PageOf(p: Params, pc: int): int
    requires p.psize >= 1
  {
    pc / p.psize
  }

  /** The page each slot is on, -1 for an idle slot. */
  function CurOf(p: Params, q: seq<Entry>): (cur: seq<int>)
    requires p.psize >= 1
    ensures PcsFit(p, q) ==> CurOk(cur, p.npages)
  {
    seq(|q|, i requires 0 <= i < |q| => if q[i].active then PageOf(p, q[i].pc) else -1)
  }

  predicate PcsFit(p: Params, q: seq<Entry>)
    requires p.psize >= 1
  {
    forall i :: 0 <= i < |q| && q[i].active ==> 0 <= PageOf(p, q[i].pc) < p.npages
  }

  lemma CurInRange(p: Params, q: seq<Entry>, s: State)
    requires ParamsOk(p) && Inv(p, s) && StillSeen(p, q, s)
    ensures PcsFit(p, q)
    ensures forall i: nat :: i < p.slots && q[i].active ==>
      s.slots[i].Some? && CurOf(p, q)[i] == CurrentPage(p, s.queue[s.slots[i].value])
  {
    forall i: nat | i < p.slots && q[i].active
      ensures s.slots[i].Some? && CurOf(p, q)[i] == CurrentPage(p, s.queue[s.slots[i].value])
    {
      assert EntrySeen(p, q[i], s, i);
    }
  }

  lemma MultipleIsLarge(t: nat, m: nat)
    requires t >= 1 && m >= 1
    ensures t % m == 0 ==> t >= m
  {
    if t < m {
      ModSmall(t, m);
    }
  }

  /** How many of the first n pages of slot i were referenced in the window. */
  function WindowCount(trace: Refs, window: nat, i: nat, n: nat): nat {
    if n == 0 then 0 else WindowCount(trace, window, i, n - 1) + if InWindow(trace, window, i, n - 1) then 1 else 0
  }

  /** The requests for those of them that are not in memory, and for those of k slots. */
  function RowRequests(shown: seq<bool>, trace: Refs, window: nat, i: nat, n: nat): seq<Op>
    requires n <= |shown|
  {
    if n == 0 then []
    else
      RowRequests(shown, trace, window, i, n - 1)
      + if InWindow(trace, window, i, n - 1) && !shown[n - 1] then [In(i, n - 1)] else []
  }

  ghost function WindowPages(trace: Refs, window: nat, i: nat, n: nat): set<nat> {
    set g: nat | g < n && InWindow(trace, window, i, g)
  }

  /** The count is the size of the set, and the requests are for its pages not shown. */
  lemma {:induction false} WindowCountIsSize(trace: Refs, window: nat, i: nat, n: nat)
    ensures WindowCount(trace, window, i, n) == |WindowPages(trace, window, i, n)|
  {
    if n > 0 {
      WindowCountIsSize(trace, window, i, n - 1);
      var before := WindowPages(trace, window, i, n - 1);
      assert WindowPages(trace, window, i, n) == if InWindow(trace, window, i, n - 1) then before + {n - 1} else before;
    }
  }

  lemma {:induction false} RowRequestsAre(shown: seq<bool>, trace: Refs, window: nat, i: nat, n: nat, op: Op)
    requires n <= |shown|
    ensures op in RowRequests(shown, trace, window, i, n) <==>
      op.In? && op.slot == i && 0 <= op.page < n && InWindow(trace, window, i, op.page) && !shown[op.page]
  {
    hide InWindow;
    if n > 0 {
      RowRequestsAre(shown, trace, window, i, n - 1, op);
    }
  }

  lemma {:induction false} WindowRequestsAre(p: Params, q: seq<Entry>, trace: Refs, window: nat, k: nat, op: Op)
    requires ViewShape(p, q) && k <= p.slots
    ensures op in WindowRequests(p, q, trace, window, k) <==>
      && op.In? && 0 <= op.slot < k && 0 <= op.page < p.npages
      && InWindow(trace, window, op.slot, op.page) && !q[op.slot].pages[op.page]
  {
    hide InWindow;
    if k > 0 {
      WindowRequestsAre(p, q, trace, window, k - 1, op);
      RowRequestsAre(q[k - 1].pages, trace, window, k - 1, p.npages, op);
    }
  }

  function WindowRequests(p: Params, q: seq<Entry>, trace: Refs, window: nat, k: nat): seq<Op>
    requires ViewShape(p, q) && k <= p.slots
  {
    if k == 0 then []
    else WindowRequests(p, q, trace, window, k - 1) + RowRequests(q[k - 1].pages, trace, window, k - 1, p.npages)
  }

  /** The references of one call that looks at the first n slots. */
  function SeenUpTo(p: Params, q: seq<Entry>, n: nat): set<(nat, nat)>
    requires p.psize >= 1 && PcsFit(p, q) && n <= |q|
  {
    set i: nat | i < n && q[i].active :: (i, PageOf(p, q[i].pc))
  }

  /** What a call adds to the trace, whatever it did before: at this tick each of the first n
      slots that was shown active has referenced the page its pc is on, and nothing else was
      referenced; earlier ticks are as they were. */
  ghost predicate RefsNoted(p: Params, q: seq<Entry>, n: nat, tick: int, trace: Refs, trace': Refs)
    requires p.psize >= 1
  {
    && |trace| + 1 == |trace'| == tick && trace'[..|trace|] == trace
    && forall i: nat, g: nat ::
         RefAt(trace', tick, i, g) <==> i < n && i < |q| && q[i].active && g == q[i].pc / p.psize
  }

  lemma SeenIsNoted(p: Params, q: seq<Entry>, n: nat, trace: Refs)
    requires p.psize >= 1 && PcsFit(p, q) && n <= |q|
    ensures RefsNoted(p, q, n, |trace| + 1, trace, trace + [SeenUpTo(p, q, n)])
  {
  }

  predicate NeedsPage(p: Params, q: seq<Entry>, i: nat)
    requires ParamsOk(p) && PcsFit(p, q) && ViewShape(p, q) && i < p.slots
  {
    q[i].active && !q[i].pages[PageOf(p, q[i].pc)]
  }

  function SlotRequest(p: Params, q: seq<Entry>, i: nat): seq<Op>
    requires ParamsOk(p) && PcsFit(p, q) && ViewShape(p, q) && i < p.slots
  {
    if NeedsPage(p, q, i) then [In(i, PageOf(p, q[i].pc))] else []
  }

  function Eviction(evicted: bool, i: nat, g: nat): seq<Op> {
    if evicted then [Out(i, g)] else []
  }

  /** The requests for current pages that such a call makes. */
  function CurrentRequests(p: Params, q: seq<Entry>, n: nat): seq<Op>
    requires ParamsOk(p) && PcsFit(p, q) && ViewShape(p, q) && n <= p.slots
  {
    if n == 0 then []
    else CurrentRequests(p, q, n - 1) + SlotRequest(p, q, n - 1)
  }

  /** Exactly the current pages of the first n slots that are not in memory are asked for. */
  ghost predicate FetchesCurrent(p: Params, q: seq<Entry>, n: nat, reqs: seq<Op>)
    requires p.psize >= 1 && ViewShape(p, q)
  {
    forall op :: op in reqs <==>
      && op.In? && 0 <= op.slot < n && op.slot < |q| && q[op.slot].active
      && op.page == q[op.slot].pc / p.psize && 0 <= op.page < p.npages && !q[op.slot].pages[op.page]
  }

  lemma {:induction false} CurrentRequestsAre(p: Params, q: seq<Entry>, n: nat)
    requires ParamsOk(p) && PcsFit(p, q) && ViewShape(p, q) && n <= p.slots
    ensures FetchesCurrent(p, q, n, CurrentRequests(p, q, n))
  {
    if n > 0 {
      CurrentRequestsAre(p, q, n - 1);
    }
  }

  /** A slot that needs its page awaits it now, or has no page that could make room for it. */
  ghost predicate Served(p: Params, q: seq<Entry>, w: Tracker, tick: int, i: nat)
    requires ParamsOk(p) && PcsFit(p, q) && ViewShape(p, q) && TrackerShape(p, w) && i < p.slots
  {
    NeedsPage(p, q, i) ==>
      || w[i][PageOf(p, q[i].pc)] == Armed(p, tick, 1)
      || forall g: nat :: !Evictable(p, q, w, i, g)
  }

  /** The last two requests: slot i's page was refused in state x, and the least recently used
      page g of the slot was evicted. */
  ghost predicate LocalEviction(p: Params, q: seq<Entry>, x: Joint, trace: Refs, i: nat, g: nat)
    requires JointOk(p, x) && PcsFit(p, q) && ViewShape(p, q) && i < p.slots
  {
    NeedsPage(p, q, i) && !PageIn(p, x.s, i, PageOf(p, q[i].pc)).1 && LruOfSlot(p, q, x.w, trace, i, g)
  }

  /** What serving slot i does: x and x' are the states before and after. */
  ghost predicate SlotDone(p: Params, q: seq<Entry>, trace: Refs, tick: int, x: Joint, x': Joint,
                           i: nat, evicted: bool, victim: nat)
    requires JointOk(p, x) && JointOk(p, x') && PcsFit(p, q) && ViewShape(p, q) && i < p.slots
  {
    && (forall k :: 0 <= k < p.slots && k != i ==> x'.w[k] == x.w[k])
    && if evicted then LocalEviction(p, q, x, trace, i, victim) else Served(p, q, x'.w, tick, i)
  }

  lemma DoneWhenAccepted(p: Params, q: seq<Entry>, trace: Refs, tick: int, x: Joint, x': Joint, i: nat)
    requires JointOk(p, x) && JointOk(p, x') && PcsFit(p, q) && ViewShape(p, q) && i < p.slots && q[i].active
    requires x'.w == x.w[i := x.w[i][PageOf(p, q[i].pc) := Armed(p, tick, 1)]] || (x' == x && !NeedsPage(p, q, i))
    ensures SlotDone(p, q, trace, tick, x, x', i, false, 0)
  {
  }

  lemma DoneWhenRefused(p: Params, q: seq<Entry>, trace: Refs, tick: int, x: Joint, x': Joint,
                        i: nat, evicted: bool, victim: nat)
    requires JointOk(p, x) && JointOk(p, x') && PcsFit(p, q) && ViewShape(p, q) && i < p.slots && NeedsPage(p, q, i)
    requires forall k :: 0 <= k < p.slots && k != i ==> x'.w[k] == x.w[k]
    requires !PageIn(p, x.s, i, PageOf(p, q[i].pc)).1
    requires if evicted then LruOfSlot(p, q, x.w, trace, i, victim) else forall g: nat :: !Evictable(p, q, x'.w, i, g)
    ensures SlotDone(p, q, trace, tick, x, x', i, evicted, victim)
  {
  }

  lemma NothingSeenYet(p: Params, q: seq<Entry>, timestamps: seq<seq<int>>, trace: Refs)
    requires ParamsOk(p) && PcsFit(p, q) && Times(p, timestamps, trace)
    ensures Times(p, timestamps, trace + [SeenUpTo(p, q, 0)])
  {
    forall i: nat | i < p.slots ensures RowTimes(timestamps[i], trace + [SeenUpTo(p, q, 0)], i, p.npages) {
      assert RowTimes(timestamps[i], trace, i, p.npages);
      forall g: nat | g < p.npages ensures timestamps[i][g] == LastRef(trace + [SeenUpTo(p, q, 0)], i, g) {
        LastRefNext(trace, SeenUpTo(p, q, 0), i, g);
      }
    }
  }

  lemma IdleSlot(p: Params, q: seq<Entry>, w: Tracker, tick: int, i: nat)
    requires ParamsOk(p) && PcsFit(p, q) && ViewShape(p, q) && TrackerShape(p, w) && i < p.slots && !q[i].active
    ensures Served(p, q, w, tick, i) && SlotRequest(p, q, i) == []
    ensures SeenUpTo(p, q, i + 1) == SeenUpTo(p, q, i)
  {
  }

  /** What serving slot i leaves for the slots served before it. */
  lemma ServedStays(p: Params, q: seq<Entry>, trace: Refs, tick: int, x: Joint, x': Joint,
                    i: nat, evicted: bool, victim: nat)
    requires JointOk(p, x) && JointOk(p, x') && PcsFit(p, q) && ViewShape(p, q) && i < p.slots
    requires SlotDone(p, q, trace, tick, x, x', i, evicted, victim)
    requires forall k: nat :: k < i ==> Served(p, q, x.w, tick, k)
    ensures forall k: nat :: k < i ==> Served(p, q, x'.w, tick, k)
    ensures !evicted ==> Served(p, q, x'.w, tick, i)
    ensures evicted ==> LocalEviction(p, q, x, trace, i, victim)
  {
    forall k: nat | k < i ensures Served(p, q, x'.w, tick, k) {
      assert Served(p, q, x.w, tick, k) && x'.w[k] == x.w[k];
      forall g: nat ensures Evictable(p, q, x'.w, k, g) <==> Evictable(p, q, x.w, k, g) {}
    }
  }

  /** Requests for pages from..to-1 of slot i. */
  function RangeRequests(i: nat, from: int, to: int): seq<Op>
    decreases to - from
  {
    if to <= from then [] else RangeRequests(i, from, to - 1) + [In(i, to - 1)]
  }

  lemma {:induction false} RangeRequestsAre(i: nat, from: int, to: int, op: Op)
    ensures op in RangeRequests(i, from, to) <==> op.In? && op.slot == i && from <= op.page < to
    ensures |RangeRequests(i, from, to)| == if from < to then to - from else 0
    decreases if from < to then to - from else 0
  {
    if from < to {
      RangeRequestsAre(i, from, to - 1, op);
    }
  }

  /** What a prediction for slot i on page cur asks for, and what it makes of the process. No
      known successor: nothing. A most frequent successor above cur: it and a most frequent
      successor of its own. One below cur: all pages from it up to cur. */
  ghost predicate Predicts(m: Matrix, n: nat, i: nat, cur: nat, reqs: seq<Op>, before: ProcType, after: ProcType)
    requires MatrixOk(m, n) && cur < n
  {
    if forall b :: 0 <= b < n ==> m[cur][b].freq == 0 then reqs == [] && after == before
    else
      exists next: nat :: next < n && next != cur && MostFrequent(m[cur], next)
        && if next > cur
           then
             && after == Linear
             && exists second :: MostFrequent(m[next], second) && reqs == [In(i, next), In(i, second)]
           else
             && after == Loop && reqs == RangeRequests(i, next, cur)
             && forall op :: op in reqs <==> op.In? && op.slot == i && next <= op.page < cur
  }

  function ZeroMatrix(n: nat): (m: Matrix)
    ensures MatrixOk(m, n)
  {
    var m := seq(n, from => seq(n, to => PageData(to, 0)));
    assert forall a :: 0 <= a < n ==> RowOk(m[a], n, a);
    m
  }

  lemma ZeroMatrixCounts(n: nat)
    ensures Counts(ZeroMatrix(n), n, []) && Counts(ZeroMatrix(n), n, [0])
  {
  }

  function Flat(reqs: seq<seq<Op>>): seq<Op> {
    if reqs == [] then [] else Flat(reqs[..|reqs| - 1]) + reqs[|reqs| - 1]
  }

  /** One call of the pager: the evictions for the reserve; how many slots were then served,
      and whether the last of them evicted a page of its own, and which; and each slot's
      predictions. */
  datatype Call = Call(evictions: seq<Op>, reached: nat, evicted: bool, victim: nat, predicted: seq<seq<Op>>)

  /** The evictions for the reserve: as many as the count of pages in memory calls for, fewer
      only if there is nothing to evict; each of the least recently used page; and then the
      reserve is there, or there is nothing to evict. */
  ghost predicate Restored(p: Params, freebuf: nat, q: seq<Entry>, start: Joint, evictions: seq<Op>,
                           tick: int, trace: Refs)
  {
    && JointOk(p, start) && ViewShape(p, q)
    && var need, x := freebuf - (p.frames - InMem(p, q, start.w, p.slots)), TrackedAll(p, start, evictions, tick);
       && LruEvictions(p, q, start, evictions, tick, trace)
       && (if need <= 0 then evictions == []
           else |evictions| <= need && (|evictions| < need ==> NoneEvictable(p, q, x.w)))
       && (x.s.avail + Leaving(p, x.s) >= freebuf || NoneEvictable(p, q, x.w))
  }

  lemma RequestsSoFar(p: Params, q: seq<Entry>, before: seq<Op>, n: nat)
    requires ParamsOk(p) && PcsFit(p, q) && ViewShape(p, q) && n <= p.slots
    ensures before + CurrentRequests(p, q, 0) == before
    ensures n < p.slots ==>
      before + CurrentRequests(p, q, n) + SlotRequest(p, q, n) == before + CurrentRequests(p, q, n + 1)
  {
  }

  lemma NoEviction(i: nat, g: nat, ops: seq<Op>)
    ensures ops + Eviction(false, i, g) == ops
  {
  }

  /** Exactly the pages of the working sets that are not in memory are asked for. */
  ghost predicate FetchesWindow(p: Params, window: nat, q: seq<Entry>, trace: Refs, reqs: seq<Op>)
    requires ViewShape(p, q)
  {
    forall op :: op in reqs <==>
      && op.In? && 0 <= op.slot < p.slots && 0 <= op.page < p.npages
      && InWindow(trace, window, op.slot, op.page) && !q[op.slot].pages[op.page]
  }

  lemma WindowIsFetched(p: Params, window: nat, q: seq<Entry>, tick: int, trace: Refs)
    requires ViewShape(p, q) && window >= 1
    ensures if tick % window == 0 then FetchesWindow(p, window, q, trace, WindowPhase(p, window, q, tick, trace))
            else WindowPhase(p, window, q, tick, trace) == []
  {
    hide InWindow;
    forall op ensures op in WindowRequests(p, q, trace, window, p.slots) <==>
      && op.In? && 0 <= op.slot < p.slots && 0 <= op.page < p.npages
      && InWindow(trace, window, op.slot, op.page) && !q[op.slot].pages[op.page]
    {
      WindowRequestsAre(p, q, trace, window, p.slots, op);
    }
  }

  function WindowPhase(p: Params, window: nat, q: seq<Entry>, tick: int, trace: Refs): seq<Op>
    requires ViewShape(p, q) && window >= 1
  {
    if tick % window == 0 then WindowRequests(p, q, trace, window, p.slots) else []
  }

  /** The requests for current pages: the slots in turn, up to the one that evicts a page. */
  ghost predicate CurrentPhase(p: Params, q: seq<Entry>, start: Joint, before: seq<Op>, ops: seq<Op>,
                               tick: int, trace: Refs, reached: nat, evicted: bool, victim: nat)
  {
    && JointOk(p, start) && ViewShape(p, q) && PcsFit(p, q)
    && reached <= p.slots && FetchesCurrent(p, q, reached, CurrentRequests(p, q, reached))
    && (if !evicted
        then reached == p.slots && ops == before + CurrentRequests(p, q, reached)
        else
          && reached > 0
          && LocalEviction(p, q, TrackedAll(p, start, before + CurrentRequests(p, q, reached - 1), tick),
                           trace, reached - 1, victim)
          && ops == before + CurrentRequests(p, q, reached) + [Out(reached - 1, victim)])
    && forall i: nat :: i < (if evicted then reached - 1 else reached) ==>
         Served(p, q, TrackedAll(p, start, ops, tick).w, tick, i)
  }

  lemma PhaseCompleted(p: Params, q: seq<Entry>, start: Joint, before: seq<Op>, ops: seq<Op>, tick: int, trace: Refs,
                       x: Joint, victim: nat)
    requires JointOk(p, start) && ViewShape(p, q) && PcsFit(p, q) && x == TrackedAll(p, start, ops, tick)
    requires ops == before + CurrentRequests(p, q, p.slots)
    requires forall i: nat :: i < p.slots ==> Served(p, q, x.w, tick, i)
    ensures CurrentPhase(p, q, start, before, ops, tick, trace, p.slots, false, victim)
  {
    hide Inv, LocalEviction, CurrentRequests, TrackedAll, PcsFit, Served, FetchesCurrent;
    CurrentRequestsAre(p, q, p.slots);
  }

  lemma PhaseCutShort(p: Params, q: seq<Entry>, start: Joint, before: seq<Op>, ops: seq<Op>, tick: int, trace: Refs,
                      x: Joint, x': Joint, i: nat, victim: nat)
    requires JointOk(p, start) && JointOk(p, x) && JointOk(p, x') && ViewShape(p, q) && PcsFit(p, q) && i < p.slots
    requires x == TrackedAll(p, start, before + CurrentRequests(p, q, i), tick) && x' == TrackedAll(p, start, ops, tick)
    requires LocalEviction(p, q, x, trace, i, victim)
    requires ops == before + CurrentRequests(p, q, i + 1) + Eviction(true, i, victim)
    requires forall k: nat :: k < i ==> Served(p, q, x'.w, tick, k)
    ensures CurrentPhase(p, q, start, before, ops, tick, trace, i + 1, true, victim)
  {
    hide Inv, LocalEviction, CurrentRequests, TrackedAll, PcsFit, Served, FetchesCurrent;
    CurrentRequestsAre(p, q, i + 1);
  }

  /** A whole call: from x, shown q, it makes the requests `ops`, all legal, and simulator and
      shadow end as x'. */
  ghost predicate CallOk(p: Params, freebuf: nat, window: nat, q: seq<Entry>, x: Joint, x': Joint,
                         ops: seq<Op>, tick: int, trace: Refs, trace': Refs, c: Call)
  {
    && JointOk(p, x) && JointOk(p, x') && ViewShape(p, q) && PcsFit(p, q) && window >= 1
    && var start := Joint(x.s, Expire(p, x.w, tick));
       && LegalAll(p, start, ops, tick) && x' == TrackedAll(p, start, ops, tick) && Agrees(p, x', tick)
       && EvictsOnce(ops)
       && Restored(p, freebuf, q, start, c.evictions, tick, trace)
       && (if tick % window == 0 then FetchesWindow(p, window, q, trace, WindowPhase(p, window, q, tick, trace))
           else WindowPhase(p, window, q, tick, trace) == [])
       && c.reached <= p.slots && RefsNoted(p, q, c.reached, tick, trace, trace')
       && exists current ::
            && CurrentPhase(p, q, start, c.evictions + WindowPhase(p, window, q, tick, trace), current,
                           tick, trace', c.reached, c.evicted, c.victim)
            && ops == current + Flat(c.predicted)
  }

  /** The records kept of the slots: the window's sizes, and what the predictions make of them. */
  ghost predicate SetsOk(p: Params, window: nat, q: seq<Entry>, trans: seq<Matrix>, tick: int, trace: Refs,
                         c: Call, sets: seq<WorkSet>, sets': seq<WorkSet>)
  {
    && ParamsOk(p) && window >= 1 && ViewShape(p, q) && PcsFit(p, q)
    && |trans| == |sets| == |sets'| == |c.predicted| == p.slots
    && forall i: nat :: i < p.slots ==>
         && MatrixOk(trans[i], p.npages)
         && sets'[i].size == (if tick % window == 0 then |WindowPages(trace, window, i, p.npages)| else sets[i].size)
         && (!q[i].active ==> c.predicted[i] == [] && sets'[i].procType == sets[i].procType)
         && (q[i].active ==>
              Predicts(trans[i], p.npages, i, PageOf(p, q[i].pc), c.predicted[i], sets[i].procType, sets'[i].procType))
  }

  lemma CallAssembled(p: Params, freebuf: nat, window: nat, q: seq<Entry>, x: Joint, x': Joint, start: Joint,
                      ops: seq<Op>, current: seq<Op>, tick: int, trace: Refs, trace': Refs, c: Call)
    requires JointOk(p, x) && ViewShape(p, q) && PcsFit(p, q) && window >= 1
    requires start == Joint(x.s, Expire(p, x.w, tick)) && Serving(p, q, start, ops, x', tick)
    requires Restored(p, freebuf, q, start, c.evictions, tick, trace)
    requires c.reached <= p.slots && |trace| + 1 == tick && trace' == trace + [SeenUpTo(p, q, c.reached)]
    requires CurrentPhase(p, q, start, c.evictions + WindowPhase(p, window, q, tick, trace), current,
                          tick, trace', c.reached, c.evicted, c.victim)
    requires ops == current + Flat(c.predicted)
    ensures CallOk(p, freebuf, window, q, x, x', ops, tick, trace, trace', c)
  {
    hide Serving, Restored, CurrentPhase, WindowPhase, SeenUpTo, Flat, Inv, LegalAll, TrackedAll, Agrees, Expire,
         EvictsOnce, RefsNoted, FetchesWindow;
    WindowIsFetched(p, window, q, tick, trace);
    SeenIsNoted(p, q, c.reached, trace);
    ServingEnds(p, q, start, ops, x', tick);
    VictimsAreDistinct(p, start, ops, tick);
  }

  ghost predicate SizesOk(p: Params, window: nat, tick: int, trace: Refs, sets: seq<WorkSet>, sets': seq<WorkSet>) {
    && window >= 1 && |sets| == |sets'| == p.slots
    && forall i: nat :: i < p.slots ==>
         && sets'[i].procType == sets[i].procType
         && sets'[i].size == if tick % window == 0 then |WindowPages(trace, window, i, p.npages)| else sets[i].size
  }

  lemma SizesThenPredictions(p: Params, window: nat, q: seq<Entry>, trans: seq<Matrix>, tick: int, trace: Refs, c: Call,
                             sets: seq<WorkSet>, sets1: seq<WorkSet>, sets': seq<WorkSet>)
    requires ParamsOk(p) && ViewShape(p, q) && PcsFit(p, q)
    requires |trans| == |sets'| == |c.predicted| == p.slots
    requires SizesOk(p, window, tick, trace, sets, sets1)
    requires forall i: nat :: i < p.slots ==> MatrixOk(trans[i], p.npages) && sets'[i].size == sets1[i].size
    requires forall i: nat :: i < p.slots && !q[i].active ==> c.predicted[i] == [] && sets'[i] == sets1[i]
    requires forall i: nat :: i < p.slots && q[i].active ==>
      Predicts(trans[i], p.npages, i, PageOf(p, q[i].pc), c.predicted[i], sets1[i].procType, sets'[i].procType)
    ensures SetsOk(p, window, q, trans, tick, trace, c, sets, sets')
  {
    hide Predicts, MatrixOk, WindowPages, PageOf;
  }

  /** What a call does to the transition tables: each active slot but slot 0 is now last seen on
      the page its pc is on; if that is another page than before, the entry of the two grows by
      one, and it is added to the slot's path. No other entry changes, unless counts decay: then
      each slot that has moved fades all of them once. */
  ghost predicate TablesFollow(p: Params, q: seq<Entry>, tb: Table, tb': Table,
                               paths: seq<seq<int>>, paths': seq<seq<int>>, decays: bool, d: int -> int)
  {
    && p.psize >= 1 && |q| == |tb.last| == |tb'.last| == |tb.trans| == |tb'.trans| == |paths| == |paths'|
    && (forall i: nat :: i < |q| ==>
         tb'.last[i] == if i > 0 && q[i].active then q[i].pc / p.psize else tb.last[i])
    && (forall i: nat :: 0 < i < |q| ==>
         && paths[i] != []
         && paths'[i] == if q[i].active && q[i].pc / p.psize != paths[i][|paths[i]| - 1]
                         then paths[i] + [q[i].pc / p.psize] else paths[i])
    && (forall i: nat, a: nat, b: nat :: i < |q| && a < p.npages && b < p.npages ==>
         EntryFollows(p, q, tb, tb', decays, d, i, a, b))
  }

  ghost predicate EntryFollows(p: Params, q: seq<Entry>, tb: Table, tb': Table, decays: bool, d: int -> int,
                               i: nat, a: nat, b: nat)
    requires p.psize >= 1 && i < |q| == |tb.last| == |tb.trans| == |tb'.trans|
  {
    && MatrixOk(tb.trans[i], p.npages) && MatrixOk(tb'.trans[i], p.npages) && a < p.npages && b < p.npages
    && var f, f' := tb.trans[i][a][b].freq, tb'.trans[i][a][b].freq;
       && (!decays ==>
            f' == f + One(i > 0 && q[i].active && a == tb.last[i] && b == q[i].pc / p.psize && a != b))
       && f' == EntryAfter(tb.last, CurOf(p, q), |q|, decays, d, i, a, b, f)
  }

  lemma SlotFollows(p: Params, q: seq<Entry>, tb: Table, paths: seq<seq<int>>, decays: bool, d: int -> int,
                    exact: bool, i: nat)
    requires ParamsOk(p) && PcsFit(p, q) && |q| == |paths| == |tb.last| && Ready(tb, p.npages, |q|) && Decays(d)
    requires TableOk(tb, paths, p.npages, exact) && i < |q|
    ensures var tb' := Transit(tb, CurOf(p, q), |q|, p.npages, decays, d);
      && |tb'.last| == |tb'.trans| == |q|
      && tb'.last[i] == if i > 0 && q[i].active then q[i].pc / p.psize else tb.last[i]
    ensures i > 0 ==>
      && paths[i] != []
      && PathsAfter(paths, tb.last, CurOf(p, q), |q|)[i]
         == if q[i].active && q[i].pc / p.psize != paths[i][|paths[i]| - 1]
            then paths[i] + [q[i].pc / p.psize] else paths[i]
    ensures Elsewhere(tb.last, CurOf(p, q), i) <==> i > 0 && q[i].active && tb.last[i] != q[i].pc / p.psize
  {
    hide Transit, Counts, MatrixOk;
    TransitLast(tb, CurOf(p, q), |q|, p.npages, decays, d, i);
    assert SlotTable(tb.trans[i], tb.last[i], paths[i], i, p.npages, exact);
  }

  lemma EntryFollowsMoves(p: Params, q: seq<Entry>, tb: Table, paths: seq<seq<int>>, decays: bool, d: int -> int,
                          exact: bool, i: nat, a: nat, b: nat)
    requires ParamsOk(p) && PcsFit(p, q) && |q| == |paths| == |tb.last| && Ready(tb, p.npages, |q|) && Decays(d)
    requires TableOk(tb, paths, p.npages, exact) && i < |q| && a < p.npages && b < p.npages
    ensures var tb' := Transit(tb, CurOf(p, q), |q|, p.npages, decays, d);
      |tb'.trans| == |q| && EntryFollows(p, q, tb, tb', decays, d, i, a, b)
  {
    hide Transit, TableOk;
    SlotFollows(p, q, tb, paths, decays, d, exact, i);
    TransitEntry(tb, CurOf(p, q), |q|, p.npages, decays, d, i, a, b);
  }

  lemma TablesFollowMoves(p: Params, q: seq<Entry>, tb: Table, tb': Table,
                          paths: seq<seq<int>>, paths': seq<seq<int>>, decays: bool, d: int -> int, exact: bool)
    requires ParamsOk(p) && PcsFit(p, q) && |q| == |paths| == |tb.last| && Ready(tb, p.npages, |q|) && Decays(d)
    requires TableOk(tb, paths, p.npages, exact) && |q| > 0
    requires tb' == Transit(tb, CurOf(p, q), |q|, p.npages, decays, d)
    requires paths' == PathsAfter(paths, tb.last, CurOf(p, q), |q|)
    ensures TablesMoved(p, q, tb, tb', paths, paths', decays, d)
  {
    hide Transit, TableOk, EntryFollows, PathsAfter, Ready;
    SlotFollows(p, q, tb, paths, decays, d, exact, 0);
    PathsLength(paths, tb.last, CurOf(p, q), |q|);
    forall i: nat | i < |q|
      ensures tb'.last[i] == if i > 0 && q[i].active then q[i].pc / p.psize else tb.last[i]
      ensures i > 0 ==>
        && paths[i] != []
        && paths'[i] == if q[i].active && q[i].pc / p.psize != paths[i][|paths[i]| - 1]
                        then paths[i] + [q[i].pc / p.psize] else paths[i]
    {
      SlotFollows(p, q, tb, paths, decays, d, exact, i);
    }
    forall i: nat, a: nat, b: nat | i < |q| && a < p.npages && b < p.npages
      ensures |tb.trans| == |tb'.trans| == |q| && EntryFollows(p, q, tb, tb', decays, d, i, a, b)
    {
      EntryFollowsMoves(p, q, tb, paths, decays, d, exact, i, a, b);
    }
  }

  lemma PathsLength(paths: seq<seq<int>>, last: seq<int>, cur: seq<int>, k: nat)
    requires k <= |paths| == |last| == |cur|
    ensures |PathsAfter(paths, last, cur, k)| == |paths|
  {
  }

  /** What the call does to the transition tables and to the paths they stand for. */
  ghost predicate TablesMoved(p: Params, q: seq<Entry>, tb: Table, tb': Table,
                              paths: seq<seq<int>>, paths': seq<seq<int>>, decays: bool, d: int -> int)
  {
    && ParamsOk(p) && |q| == |paths| == |tb.last| && PcsFit(p, q) && Ready(tb, p.npages, |q|) && Decays(d)
    && tb' == Transit(tb, CurOf(p, q), |q|, p.npages, decays, d)
    && paths' == PathsAfter(paths, tb.last, CurOf(p, q), |q|)
    && TablesFollow(p, q, tb, tb', paths, paths', decays, d)
  }

  /** What the pager keeps from call to call: the references it has noted, its transition tables
      with the paths they stand for, and its working-set records. */
  datatype Memory = Memory(trace: Refs, table: Table, paths: seq<seq<int>>, sets: seq<WorkSet>)

  /** Before the first call: nothing noted, all counts zero, every slot but slot 0 on page 0. */
  function FirstMemory(p: Params): Memory {
    Memory([], Table(seq(p.slots, i => ZeroMatrix(p.npages)), seq(p.slots, i => if i == 0 then -1 else 0)),
           seq(p.slots, i => [0]), seq(p.slots, i => WorkSet(Unknown, -1)))
  }

  class Pager {
    const p: Params
    const freebuf: nat
    const window: nat
    const interval: nat
    const decay: int -> int

    var tick: nat
    const timestamps: array<seq<int>>
    const transitions: array<Matrix>
    const pgLast: array<int>
    const procWait: array<seq<Track>>
    const workset: array<WorkSet>

    // the references seen so far, and the pages each slot has moved through
    ghost var trace: Refs
    ghost var paths: seq<seq<int>>

    // during a call: where it started and what it has requested
    ghost var start: Joint
    ghost var ops: seq<Op>

    ghost predicate Configured() {
      ParamsOk(p) && window >= 1 && interval >= 1 && Decays(decay)
    }

    ghost predicate TimesOk()
      reads this`trace, timestamps
    {
      Times(p, timestamps[..], trace)
    }

    ghost predicate TablesOk()
      reads this`tick, this`trace, this`paths, timestamps, transitions, pgLast, workset
    {
      && Configured() && TimesOk()
      && |paths| == p.slots && TableOk(Table(transitions[..], pgLast[..]), paths, p.npages, tick <= interval)
      && workset.Length == p.slots
    }

    /** Between calls the trace covers all ticks so far. */
    ghost predicate Valid()
      reads this`tick, this`trace, this`paths, timestamps, transitions, pgLast, workset, procWait
    {
      TablesOk() && TrackerShape(p, procWait[..]) && tick >= 1 && |trace| == tick - 1
    }

    ghost function Remembered(): Memory
      reads this`trace, this`paths, transitions, pgLast, workset
    {
      Memory(trace, Table(transitions[..], pgLast[..]), paths, workset[..])
    }

    ghost function Now(sim: S.Simulator): Joint
      reads this, procWait, sim, sim.queue, sim.processes
    {
      Joint(sim.Abs(), procWait[..])
    }

    /** In the middle of a call. */
    ghost predicate Serves(sim: S.Simulator, q: seq<Entry>)
      reads this, procWait, sim, sim.queue, sim.processes
    {
      sim.p == p && Serving(p, q, start, ops, Now(sim), tick)
    }

    /** The tables before the first call. Only slot 0 starts without a last page. */
    constructor (p: Params, freebuf: nat, window: nat, interval: nat, decay: int -> int)
      requires ParamsOk(p) && window >= 1 && interval >= 1 && Decays(decay)
      ensures this.p == p && this.freebuf == freebuf && this.window == window
      ensures this.interval == interval && this.decay == decay
      ensures Valid() && tick == 1 && procWait[..] == InitTracker(p) && Remembered() == FirstMemory(p)
      ensures fresh(timestamps) && fresh(transitions) && fresh(pgLast) && fresh(procWait) && fresh(workset)
    {
      this.p, this.freebuf, this.window, this.interval, this.decay := p, freebuf, window, interval, decay;
      tick := 1;
      timestamps := new seq<int>[p.slots](i => seq(p.npages, g => 0));
      transitions := new Matrix[p.slots](i => ZeroMatrix(p.npages));
      pgLast := new int[p.slots](i => if i == 0 then -1 else 0);
      procWait := new seq<Track>[p.slots](i => seq(p.npages, g => IDLE));
      workset := new WorkSet[p.slots](i => WorkSet(Unknown, -1));
      trace, ops := [], [];
      paths := seq(p.slots, i => [0]);
      new;
      assert procWait[..] == InitTracker(p);
      assert Remembered() == FirstMemory(p);
      forall i: nat | i < p.slots ensures RowTimes(timestamps[i], trace, i, p.npages) {}
      forall i: nat | i < p.slots ensures SlotTable(transitions[i], pgLast[i], paths[i], i, p.npages, true) {
        ZeroMatrixCounts(p.npages);
      }
    }

    /** Operations that are over are forgotten. */
    method ExpireWaits()
      requires TrackerShape(p, procWait[..])
      modifies procWait
      ensures procWait[..] == Expire(p, old(procWait[..]), tick)
    {
      ghost var was := procWait[..];
      for i := 0 to p.slots
        invariant forall k :: 0 <= k < i ==> procWait[k] == Expire(p, was, tick)[k]
        invariant forall k :: i <= k < p.slots ==> procWait[k] == was[k]
      {
        for g := 0 to p.npages
          invariant forall k :: 0 <= k < p.slots && k != i ==>
            procWait[k] == if k < i then Expire(p, was, tick)[k] else was[k]
          invariant |procWait[i]| == p.npages
          invariant forall h :: 0 <= h < p.npages ==>
            procWait[i][h] == if h < g then ExpireOne(was[i][h], tick) else was[i][h]
        {
          var e := procWait[i][g];
          if e.end > 0 && e.end <= tick {
            procWait[i] := procWait[i][g := IDLE];
          }
        }
        assert procWait[i] == Expire(p, was, tick)[i];
      }
    }

    /** The pages the pager takes to be in memory. */
    method CountInMem(q: seq<Entry>) returns (count: nat)
      requires ViewShape(p, q) && TrackerShape(p, procWait[..])
      ensures count == InMem(p, q, procWait[..], p.slots) == |PagesIn(p, q, procWait[..])|
    {
      CountIsSize(p, q, procWait[..]);
      count := 0;
      for i := 0 to p.slots
        invariant count == InMem(p, q, procWait[..], i)
      {
        for g := 0 to p.npages
          invariant count == InMem(p, q, procWait[..], i) + InMemRow(q[i].pages, procWait[..][i], g)
        {
          if q[i].pages[g] {
            count := count + 1;
          } else if procWait[i][g].waiting && procWait[i][g].pagein != 0 {
            count := count + 1;
          }
        }
      }
    }

    /** The victim among all pages, if there is one. */
    method FindLruGlobal(q: seq<Entry>) returns (res: bool, lruProc: int, lruPage: int)
      requires ViewShape(p, q) && TrackerShape(p, procWait[..]) && TimesOk()
      requires |trace| < INT_MAX
      ensures !res <==> NoneEvictable(p, q, procWait[..])
      ensures res ==> lruProc >= 0 && lruPage >= 0 && Lru(p, q, procWait[..], trace, lruProc, lruPage)
    {
      res, lruProc, lruPage := false, -1, -1;
      var lruTime := INT_MAX;
      ghost var w := procWait[..];
      for proc := 0 to p.slots
        invariant Searched(p, q, w, trace, proc, 0, res, lruProc, lruPage, lruTime)
      {
        for vic := 0 to p.npages
          invariant Searched(p, q, w, trace, proc, vic, res, lruProc, lruPage, lruTime)
        {
          assert RowTimes(timestamps[..][proc], trace, proc, p.npages);
          assert timestamps[proc][vic] == LastRef(trace, proc, vic);
          if q[proc].pages[vic] && !procWait[proc][vic].waiting && timestamps[proc][vic] < lruTime {
            res := true;
            lruTime := timestamps[proc][vic];
            lruProc := proc;
            lruPage := vic;
          }
        }
      }
      if res {
        assert Evictable(p, q, w, lruProc, lruPage);
      }
    }

    /** The victim among the pages of one slot. */
    method FindLruLocal(q: seq<Entry>, proc: nat) returns (res: bool, lruPage: int)
      requires ViewShape(p, q) && TrackerShape(p, procWait[..]) && TimesOk()
      requires |trace| < INT_MAX && proc < p.slots
      ensures !res <==> forall g: nat :: !Evictable(p, q, procWait[..], proc, g)
      ensures res ==> lruPage >= 0 && LruOfSlot(p, q, procWait[..], trace, proc, lruPage)
    {
      res, lruPage := false, -1;
      var lruTime := INT_MAX;
      ghost var w := procWait[..];
      for vic := 0 to p.npages
        invariant !res ==> lruTime == INT_MAX
        invariant res ==> 0 <= lruPage < vic
        invariant res ==> Evictable(p, q, w, proc, lruPage) && lruTime == LastRef(trace, proc, lruPage)
        invariant forall h: nat :: Evictable(p, q, w, proc, h) && h < vic ==>
          res && lruTime <= LastRef(trace, proc, h) && (lruTime == LastRef(trace, proc, h) ==> lruPage <= h)
      {
        assert RowTimes(timestamps[..][proc], trace, proc, p.npages);
        assert timestamps[proc][vic] == LastRef(trace, proc, vic);
        if q[proc].pages[vic] && !procWait[proc][vic].waiting && timestamps[proc][vic] < lruTime {
          lruTime := timestamps[proc][vic];
          lruPage := vic;
          res := true;
        }
      }
      if res {
        assert Evictable(p, q, w, proc, lruPage);
      }
    }

    /** A page-in request, noted down if it is accepted. */
    method TryPageIn(sim: S.Simulator, q: seq<Entry>, i: nat, g: nat) returns (ok: bool)
      requires sim.Valid() && Serves(sim, q) && i < p.slots && g < p.npages
      modifies procWait, this`ops, sim`pagesavail, sim.queue
      ensures sim.Valid() && Serves(sim, q) && ops == old(ops) + [In(i, g)]
      ensures ok == PageIn(p, old(sim.Abs()), i, g).1
      ensures procWait[..]
           == if ok then old(procWait[..])[i := old(procWait[i])[g := Armed(p, tick, 1)]] else old(procWait[..])
    {
      ghost var x := Now(sim);
      assert JointOk(p, x) && Serving(p, q, start, ops, x, tick);
      hide Serving, Inv, Agrees, StillSeen;
      ServeOne(p, q, start, ops, x, In(i, g), tick);
      ok := sim.PageIn(i, g);
      if ok {
        procWait[i] := procWait[i][g := Armed(p, tick, 1)];
      }
      ops := ops + [In(i, g)];
      assert Now(sim) == Tracked(p, x, In(i, g), tick);
    }

    /** The eviction of a victim: it is always accepted. */
    method TryPageOut(sim: S.Simulator, q: seq<Entry>, i: nat, g: nat) returns (ok: bool)
      requires sim.Valid() && Serves(sim, q) && Evictable(p, q, procWait[..], i, g)
      modifies procWait, this`ops, sim.queue
      ensures sim.Valid() && Serves(sim, q) && ops == old(ops) + [Out(i, g)]
      ensures ok && Leaving(p, sim.Abs()) == old(Leaving(p, sim.Abs())) + 1
      ensures procWait[..] == old(procWait[..])[i := old(procWait[i])[g := Armed(p, tick, 0)]]
    {
      ghost var x := Now(sim);
      assert JointOk(p, x) && Serving(p, q, start, ops, x, tick);
      EvictableIsLegal(p, q, x, tick, i, g);
      EvictionAddsOne(p, x, Out(i, g), tick);
      hide Serving, Inv, Agrees, StillSeen, Legal, Evictable;
      ServeOne(p, q, start, ops, x, Out(i, g), tick);
      ok := sim.PageOut(i, g);
      if ok {
        procWait[i] := procWait[i][g := Armed(p, tick, 0)];
      }
      ops := ops + [Out(i, g)];
      assert Now(sim) == Tracked(p, x, Out(i, g), tick);
    }

    /** At most `need` evictions, each of the least recently used page; fewer only if no page
        is left to evict. */
    method Evict(sim: S.Simulator, q: seq<Entry>, need: nat)
      requires sim.Valid() && Serves(sim, q) && TimesOk() && |trace| < INT_MAX && ops == []
      modifies procWait, this`ops, sim.queue
      ensures sim.Valid() && Serves(sim, q) && LruEvictions(p, q, start, ops, tick, trace)
      ensures |ops| <= need && (|ops| < need ==> NoneEvictable(p, q, procWait[..]))
      ensures Leaving(p, sim.Abs()) == old(Leaving(p, sim.Abs())) + |ops|
    {
      hide Serving, JointOk, Inv, LruEvictions, Lru;
      ServingFits(p, q, start, ops, Now(sim), tick);
      NoEvictions(p, q, start, tick, trace);
      for i := 0 to need
        invariant sim.Valid() && Serves(sim, q) && |ops| == i
        invariant LruEvictions(p, q, start, ops, tick, trace)
        invariant Leaving(p, sim.Abs()) == old(Leaving(p, sim.Abs())) + i
      {
        ServingFits(p, q, start, ops, Now(sim), tick);
        var found, proc, page := FindLruGlobal(q);
        if !found {
          break;
        }
        OneMoreEviction(p, q, start, ops, Now(sim), tick, trace, proc, page);
        LruIsEvictable(p, q, procWait[..], trace, proc, page);
        var ok := TryPageOut(sim, q, proc, page);
        if !ok {
          break;
        }
      }
    }

    /** Pages are evicted until the reserve of free frames is restored, or no page is left to
        evict: always the least recently used one. */
    method FreeFrames(sim: S.Simulator, q: seq<Entry>)
      requires sim.Valid() && Serves(sim, q) && TimesOk() && |trace| < INT_MAX
      requires start == Now(sim) && ops == [] && q == View(p, sim.Abs())
      modifies procWait, this`ops, sim.queue
      ensures sim.Valid() && Serves(sim, q) && Restored(p, freebuf, q, start, ops, tick, trace)
    {
      CountIsSafe(p, start, tick);
      var inMem := CountInMem(q);
      if p.frames - inMem < freebuf {
        Evict(sim, q, freebuf - (p.frames - inMem));
      }
    }

    /** One row of one matrix fades, entry by entry. */
    method DecayRow(i: nat, from: nat)
      requires i < transitions.Length && from < |transitions[i]|
      modifies transitions
      ensures transitions[..] == old(transitions[..])[i :=
        old(transitions[i])[from := FadedRow(old(transitions[i][from]), decay)]]
    {
      ghost var was, m := transitions[..], transitions[i];
      var n := |transitions[i][from]|;
      for to := 0 to n
        invariant transitions[..] == was[i := transitions[i]]
        invariant |transitions[i]| == |m| && transitions[i] == m[from := transitions[i][from]]
        invariant |transitions[i][from]| == n
        invariant forall b :: 0 <= b < n ==>
          transitions[i][from][b] == if b < to then FadedRow(m[from], decay)[b] else m[from][b]
      {
        var e := transitions[i][from][to];
        transitions[i] := transitions[i][from := transitions[i][from][to := PageData(e.page, decay(e.freq))]];
      }
      assert transitions[i][from] == FadedRow(m[from], decay);
    }

    method DecayMatrix(i: nat)
      requires i < transitions.Length && MatrixOk(transitions[i], p.npages)
      modifies transitions
      ensures transitions[..] == old(transitions[..])[i := Faded(old(transitions[i]), p.npages, decay)]
    {
      ghost var was, m := transitions[..], transitions[i];
      for from := 0 to p.npages
        invariant transitions[..] == was[i := transitions[i]] && |transitions[i]| == p.npages
        invariant forall a :: 0 <= a < p.npages ==>
          transitions[i][a] == if a < from then FadedRow(m[a], decay) else m[a]
      {
        DecayRow(i, from);
      }
      assert transitions[i] == Faded(m, p.npages, decay);
    }

    /** All counts of all slots fade. */
    method ApplyDecay()
      requires forall i :: 0 <= i < transitions.Length ==> MatrixOk(transitions[i], p.npages)
      modifies transitions
      ensures transitions[..] == FadedAll(old(transitions[..]), p.npages, decay)
      ensures forall i, a, b :: 0 <= i < transitions.Length && 0 <= a < p.npages && 0 <= b < p.npages ==>
        && |transitions[i]| == |transitions[i][a]| == p.npages
        && transitions[i][a][b] == PageData(old(transitions[i][a][b]).page, decay(old(transitions[i][a][b]).freq))
    {
      ghost var was := transitions[..];
      for i := 0 to transitions.Length
        invariant forall k :: 0 <= k < transitions.Length ==>
          transitions[k] == if k < i then Faded(was[k], p.npages, decay) else was[k]
      {
        DecayMatrix(i);
      }
      assert transitions[..] == FadedAll(was, p.npages, decay);
    }

    /** A slot that has moved to another page records it, and on a decay tick its move fades
        the counts of all slots. */
    method UpdateTransition(q: seq<Entry>, proc: nat)
      requires Configured() && proc < |q| && PcsFit(p, q)
      requires Ready(Table(transitions[..], pgLast[..]), p.npages, |q|)
      modifies transitions, pgLast
      ensures Table(transitions[..], pgLast[..])
           == TransitOne(old(Table(transitions[..], pgLast[..])), proc, CurOf(p, q)[proc], p.npages,
                         tick % interval == 0, decay)
    {
      ghost var was, cur := Table(transitions[..], pgLast[..]), CurOf(p, q)[proc];
      if !q[proc].active {
        return;
      }
      var last := pgLast[proc];
      if last == -1 {
        return;
      }
      var page := PageOf(p, q[proc].pc);
      assert RowOk(transitions[proc][last], p.npages, last);
      if last == page {
        return;
      }
      pgLast[proc] := page;
      var freq := transitions[proc][last][page].freq;
      transitions[proc] := transitions[proc][last := transitions[proc][last][page := PageData(page, freq + 1)]];
      assert transitions[..] == was.trans[proc := Recorded(was.trans[proc], p.npages, last, page)];
      if tick % interval == 0 {
        ApplyDecay();
      }
    }

    method UpdateTransitions(q: seq<Entry>)
      requires TablesOk() && tick >= 1 && |q| == p.slots && PcsFit(p, q)
      modifies transitions, pgLast, this`paths
      ensures TablesMoved(p, q, old(Table(transitions[..], pgLast[..])), Table(transitions[..], pgLast[..]),
                          old(paths), paths, tick % interval == 0, decay)
      ensures |paths| == p.slots && TableOk(Table(transitions[..], pgLast[..]), paths, p.npages, tick < interval)
    {
      hide TransitOne, SlotTable, MatrixOk, TablesMoved;
      ghost var was, cur, d := Table(transitions[..], pgLast[..]), CurOf(p, q), tick % interval == 0;
      TableReady(was, paths, p.npages, tick <= interval, tick < interval);
      for proc := 0 to p.slots
        invariant Table(transitions[..], pgLast[..]) == Transit(was, cur, proc, p.npages, d, decay)
        invariant paths == old(paths)
      {
        UpdateTransition(q, proc);
      }
      MultipleIsLarge(tick, interval);
      TransitOk(was, paths, cur, p.slots, p.npages, d, decay, tick < interval);
      paths := PathsAfter(paths, was.last, cur, p.slots);
      TablesFollowMoves(p, q, was, Table(transitions[..], pgLast[..]), old(paths), paths, d, decay, tick < interval);
    }

    /** One slot's share of the working set: its pages referenced in the window are counted,
        and requested if they are not in memory. */
    method UpdateRow(sim: S.Simulator, q: seq<Entry>, i: nat) returns (count: nat)
      requires sim.Valid() && Serves(sim, q) && TimesOk() && i < p.slots && window <= tick == |trace| + 1
      modifies procWait, this`ops, sim`pagesavail, sim.queue
      ensures sim.Valid() && Serves(sim, q)
      ensures ops == old(ops) + RowRequests(q[i].pages, trace, window, i, p.npages)
      ensures count == WindowCount(trace, window, i, p.npages)
    {
      hide Inv, Agrees, StillSeen, LegalAll, TrackedAll, InWindow, LastRef;
      count := 0;
      for page := 0 to p.npages
        invariant sim.Valid() && Serves(sim, q) && ViewShape(p, q)
        invariant ops == old(ops) + RowRequests(q[i].pages, trace, window, i, page)
        invariant count == WindowCount(trace, window, i, page)
      {
        assert RowTimes(timestamps[..][i], trace, i, p.npages);
        TimestampDecidesWindow(trace, window, i, page);
        if tick - timestamps[i][page] < window {
          if !q[i].pages[page] {
            var ok := TryPageIn(sim, q, i, page);
          }
          count := count + 1;
        }
      }
    }

    method UpdateSizes(sim: S.Simulator, q: seq<Entry>)
      requires sim.Valid() && Serves(sim, q) && TimesOk() && window <= tick == |trace| + 1
      requires workset.Length == p.slots
      modifies procWait, workset, this`ops, sim`pagesavail, sim.queue
      ensures sim.Valid() && Serves(sim, q)
      ensures ops == old(ops) + WindowRequests(p, q, trace, window, p.slots)
      ensures forall i :: 0 <= i < p.slots ==>
        workset[i] == WorkSet(old(workset[i].procType), WindowCount(trace, window, i, p.npages))
    {
      hide Inv, Agrees, StillSeen, LegalAll, TrackedAll, RowRequests, WindowCount;
      for proc := 0 to p.slots
        invariant sim.Valid() && Serves(sim, q) && ViewShape(p, q)
        invariant ops == old(ops) + WindowRequests(p, q, trace, window, proc)
        invariant forall i :: 0 <= i < p.slots ==>
          workset[i] == if i < proc then WorkSet(old(workset[i].procType), WindowCount(trace, window, i, p.npages))
                        else old(workset[i])
      {
        var count := UpdateRow(sim, q, proc);
        workset[proc] := WorkSet(workset[proc].procType, count);
      }
    }

    /** Once per window: the size of each slot's working set, and requests for the pages of it
        that are not in memory. */
    method UpdateWorkingSet(sim: S.Simulator, q: seq<Entry>)
      requires sim.Valid() && Serves(sim, q) && TimesOk() && 1 <= tick == |trace| + 1
      requires window >= 1 && workset.Length == p.slots
      modifies procWait, workset, this`ops, sim`pagesavail, sim.queue
      ensures sim.Valid() && Serves(sim, q)
      ensures tick % window != 0 ==> ops == old(ops) && workset[..] == old(workset[..])
      ensures tick % window == 0 ==>
        && ops == old(ops) + WindowRequests(p, q, trace, window, p.slots)
        && forall i: nat :: i < p.slots ==>
             workset[i] == WorkSet(old(workset[i].procType), |WindowPages(trace, window, i, p.npages)|)
    {
      hide Serving, Inv, WindowCount, WindowPages, WindowRequests;
      if tick % window != 0 {
        return;
      }
      MultipleIsLarge(tick, window);
      UpdateSizes(sim, q);
      forall i: nat | i < p.slots
        ensures WindowCount(trace, window, i, p.npages) == |WindowPages(trace, window, i, p.npages)|
      {
        WindowCountIsSize(trace, window, i, p.npages);
      }
    }

    /** The current page of an active slot is noted as referenced. */
    method NoteReference(q: seq<Entry>, proc: nat)
      requires Configured() && TimesOk() && |trace| == tick && tick >= 1 && PcsFit(p, q)
      requires proc < |q| == p.slots && q[proc].active && trace[tick - 1] == SeenUpTo(p, q, proc)
      modifies timestamps, this`trace
      ensures TimesOk() && trace == old(trace)[tick - 1 := SeenUpTo(p, q, proc + 1)]
      ensures timestamps[..] == old(timestamps[..])[proc := timestamps[proc]]
      ensures var page := q[proc].pc / p.psize;
        0 <= page < |old(timestamps[proc])| && timestamps[proc] == old(timestamps[proc])[page := tick]
    {
      var page := PageOf(p, q[proc].pc);
      timestamps[proc] := timestamps[proc][page := tick];
      ghost var before := trace[..tick - 1];
      assert trace == before + [SeenUpTo(p, q, proc)];
      trace := trace[tick - 1 := SeenUpTo(p, q, proc + 1)];
      assert trace == before + [SeenUpTo(p, q, proc + 1)];
      forall i: nat | i < p.slots ensures RowTimes(timestamps[i], trace, i, p.npages) {
        assert RowTimes(old(timestamps[..])[i], old(trace), i, p.npages);
        forall g: nat | g < p.npages ensures timestamps[i][g] == LastRef(trace, i, g) {
          LastRefNext(before, SeenUpTo(p, q, proc), i, g);
          LastRefNext(before, SeenUpTo(p, q, proc + 1), i, g);
        }
      }
    }

    /** The least recently used page of one slot is evicted, if it has one to evict. */
    method EvictLocal(sim: S.Simulator, q: seq<Entry>, proc: nat) returns (evicted: bool, ghost victim: nat)
      requires sim.Valid() && Serves(sim, q) && TimesOk() && |trace| < INT_MAX && proc < p.slots
      modifies procWait, this`ops, sim.queue
      ensures sim.Valid() && Serves(sim, q)
      ensures !evicted ==> Now(sim) == old(Now(sim)) && ops == old(ops)
      ensures !evicted ==> forall g: nat :: !Evictable(p, q, procWait[..], proc, g)
      ensures evicted ==> LruOfSlot(p, q, old(procWait[..]), trace, proc, victim)
      ensures evicted ==> ops == old(ops) + [Out(proc, victim)]
      ensures forall k :: 0 <= k < p.slots && k != proc ==> procWait[k] == old(procWait[k])
    {
      hide Serving, JointOk, Inv, LruOfSlot, Evictable, Times;
      ServingFits(p, q, start, ops, Now(sim), tick);
      victim := 0;
      var found, lruPage := FindLruLocal(q, proc);
      evicted := false;
      if found {
        LruOfSlotIsEvictable(p, q, procWait[..], trace, proc, lruPage);
        evicted := TryPageOut(sim, q, proc, lruPage);
        victim := lruPage;
      }
    }

    /** The current page of one slot is requested if it is not in memory; if the request is
        refused, the slot's least recently used page is evicted, if it has one. */
    method ServeSlot(sim: S.Simulator, q: seq<Entry>, proc: nat) returns (evicted: bool, ghost victim: nat)
      requires sim.Valid() && Serves(sim, q) && TimesOk() && |trace| < INT_MAX
      requires PcsFit(p, q) && proc < p.slots && q[proc].active
      modifies procWait, this`ops, sim`pagesavail, sim.queue
      ensures sim.Valid() && Serves(sim, q)
      ensures SlotDone(p, q, trace, tick, old(Now(sim)), Now(sim), proc, evicted, victim)
      ensures ops == old(ops) + SlotRequest(p, q, proc) + Eviction(evicted, proc, victim)
    {
      hide Serving, JointOk, Inv, SlotDone, Evictable, LruOfSlot, PageIn;
      evicted, victim := false, 0;
      ghost var x := Now(sim);
      ServingFits(p, q, start, ops, x, tick);
      var page := PageOf(p, q[proc].pc);
      if q[proc].pages[page] {
        DoneWhenAccepted(p, q, trace, tick, x, x, proc);
      } else {
        var ok := TryPageIn(sim, q, proc, page);
        assert ops == old(ops) + SlotRequest(p, q, proc);
        ServingFits(p, q, start, ops, Now(sim), tick);
        if ok {
          DoneWhenAccepted(p, q, trace, tick, x, Now(sim), proc);
        } else {
          evicted, victim := EvictLocal(sim, q, proc);
          ServingFits(p, q, start, ops, Now(sim), tick);
          DoneWhenRefused(p, q, trace, tick, x, Now(sim), proc, evicted, victim);
        }
      }
    }

    /** One slot's turn: its page is noted as referenced, and it is served. */
    method CurrentPage(sim: S.Simulator, q: seq<Entry>, proc: nat, ghost before: Refs)
      returns (evicted: bool, ghost victim: nat)
      requires sim.Valid() && Serves(sim, q) && Configured() && TimesOk() && TrackerShape(p, procWait[..])
      requires ViewShape(p, q) && PcsFit(p, q) && 1 <= tick < INT_MAX && |before| == tick - 1 && proc < p.slots
      requires trace == before + [SeenUpTo(p, q, proc)]
      requires forall k: nat :: k < proc ==> Served(p, q, procWait[..], tick, k)
      modifies procWait, timestamps, this`trace, this`ops, sim`pagesavail, sim.queue
      ensures sim.Valid() && Serves(sim, q) && TimesOk() && TrackerShape(p, procWait[..])
      ensures trace == before + [SeenUpTo(p, q, proc + 1)]
      ensures forall k: nat :: k < proc ==> Served(p, q, procWait[..], tick, k)
      ensures !evicted ==> Served(p, q, procWait[..], tick, proc)
      ensures evicted ==> JointOk(p, old(Now(sim))) && LocalEviction(p, q, old(Now(sim)), trace, proc, victim)
      ensures ops == old(ops) + SlotRequest(p, q, proc) + Eviction(evicted, proc, victim)
    {
      hide Serving, Inv, SlotDone, Served, LocalEviction, PcsFit, Times, SlotRequest;
      ghost var x := Now(sim);
      ServingFits(p, q, start, ops, x, tick);
      if q[proc].active {
        NoteReference(q, proc);
        assert trace == before + [SeenUpTo(p, q, proc + 1)];
        evicted, victim := ServeSlot(sim, q, proc);
        ServingFits(p, q, start, ops, Now(sim), tick);
        ServedStays(p, q, trace, tick, x, Now(sim), proc, evicted, victim);
      } else {
        IdleSlot(p, q, procWait[..], tick, proc);
        evicted, victim := false, 0;
      }
    }

    /** The active slots are served in turn, until one of them has had to evict a page of its
        own: the slots after it are neither served nor noted as referencing their pages. */
    method CurrentPages(sim: S.Simulator, q: seq<Entry>)
      returns (ghost reached: nat, ghost evicted: bool, ghost victim: nat)
      requires sim.Valid() && Serves(sim, q) && Configured() && TimesOk()
      requires PcsFit(p, q) && 1 <= tick < INT_MAX && |trace| == tick - 1
      modifies procWait, timestamps, this`trace, this`ops, sim`pagesavail, sim.queue
      ensures sim.Valid() && Serves(sim, q) && TimesOk()
      ensures reached <= p.slots && trace == old(trace) + [SeenUpTo(p, q, reached)]
      ensures CurrentPhase(p, q, start, old(ops), ops, tick, trace, reached, evicted, victim)
    {
      hide Serving, JointOk, Inv, Served, LocalEviction, PcsFit, Times, SlotRequest, Eviction, SeenUpTo, TrackedAll,
           CurrentPhase, CurrentRequests;
      ghost var before, ops0 := trace, ops;
      reached, evicted, victim := 0, false, 0;
      ServingFits(p, q, start, ops, Now(sim), tick);
      NothingSeenYet(p, q, timestamps[..], before);
      trace := trace + [SeenUpTo(p, q, 0)];
      RequestsSoFar(p, q, ops0, 0);
      for proc := 0 to p.slots
        invariant sim.Valid() && Serves(sim, q) && TimesOk() && TrackerShape(p, procWait[..])
        invariant reached == proc && !evicted && trace == before + [SeenUpTo(p, q, proc)]
        invariant ops == ops0 + CurrentRequests(p, q, proc)
        invariant forall i: nat :: i < proc ==> Served(p, q, procWait[..], tick, i)
      {
        reached := proc + 1;
        ghost var x := Now(sim);
        ServingReached(p, q, start, ops, x, tick);
        var out;
        out, victim := CurrentPage(sim, q, proc, before);
        ServingReached(p, q, start, ops, Now(sim), tick);
        RequestsSoFar(p, q, ops0, proc);
        if out {
          evicted := true;
          PhaseCutShort(p, q, start, ops0, ops, tick, trace, x, Now(sim), proc, victim);
          return;
        }
        NoEviction(proc, victim, ops0 + CurrentRequests(p, q, proc + 1));
      }
      ServingReached(p, q, start, ops, Now(sim), tick);
      PhaseCompleted(p, q, start, ops0, ops, tick, trace, Now(sim), victim);
    }

    /** Between any two calls before the first decay, a slot other than 0 has recorded as many
        departures from each page as arrivals, but for the page it started on and the one it
        is on; slot 0 has recorded nothing; and no slot ever a page following itself. */
    lemma TransitionsBalance(i: nat, a: nat)
      requires Valid() && i < p.slots && a < p.npages
      ensures i < transitions.Length && i < pgLast.Length && MatrixOk(transitions[i], p.npages)
      ensures transitions[i][a][a].freq == 0 && forall b :: 0 <= b < p.npages ==> transitions[i][a][b].page == b
      ensures i == 0 ==> pgLast[i] == -1 && forall b :: 0 <= b < p.npages ==> transitions[i][a][b].freq == 0
      ensures i > 0 && tick <= interval ==>
        RowSum(transitions[i], a, p.npages) - ColumnSum(transitions[i], a, p.npages)
        == One(a == 0) - One(a == pgLast[i])
    {
      assert SlotTable(transitions[..][i], pgLast[..][i], paths[i], i, p.npages, tick <= interval);
      assert RowOk(transitions[i][a], p.npages, a);
      if i > 0 && tick <= interval {
        MatrixBalance(transitions[i], p.npages, paths[i], a);
      }
    }

    /** The next page is requested, and the page most likely after it. */
    method PrefetchTwo(sim: S.Simulator, q: seq<Entry>, i: nat, next: nat, second: nat)
      requires sim.Valid() && Serves(sim, q) && i < p.slots && next < p.npages && second < p.npages
      modifies procWait, this`ops, sim`pagesavail, sim.queue
      ensures sim.Valid() && Serves(sim, q) && ops == old(ops) + [In(i, next), In(i, second)]
    {
      hide Serving, Inv;
      var ok := TryPageIn(sim, q, i, next);
      assert ops == old(ops) + [In(i, next)];
      ok := TryPageIn(sim, q, i, second);
    }

    /** The pages of a loop's body are requested. */
    method PrefetchLoop(sim: S.Simulator, q: seq<Entry>, i: nat, from: nat, to: nat)
      requires sim.Valid() && Serves(sim, q) && i < p.slots && from <= to < p.npages
      modifies procWait, this`ops, sim`pagesavail, sim.queue
      ensures sim.Valid() && Serves(sim, q) && ops == old(ops) + RangeRequests(i, from, to)
      ensures forall op :: op in ops[|old(ops)|..] <==> op.In? && op.slot == i && from <= op.page < to
    {
      hide Serving, Inv;
      for page := from to to
        invariant sim.Valid() && Serves(sim, q) && ops == old(ops) + RangeRequests(i, from, page)
      {
        var ok := TryPageIn(sim, q, i, page);
        assert ops == old(ops) + RangeRequests(i, from, page + 1);
      }
      forall op ensures op in RangeRequests(i, from, to) <==> op.In? && op.slot == i && from <= op.page < to {
        RangeRequestsAre(i, from, to, op);
      }
    }

    /** Slot i's next page is predicted from its transitions, and fetched ahead. */
    method PredictSlot(sim: S.Simulator, q: seq<Entry>, i: nat) returns (ghost reqs: seq<Op>)
      requires sim.Valid() && Serves(sim, q) && Configured() && PcsFit(p, q) && i < p.slots == |q| && q[i].active
      requires transitions.Length == workset.Length == p.slots && MatrixOk(transitions[i], p.npages)
      modifies procWait, workset, this`ops, sim`pagesavail, sim.queue
      ensures sim.Valid() && Serves(sim, q) && ops == old(ops) + reqs
      ensures forall k :: 0 <= k < p.slots && k != i ==> workset[k] == old(workset[k])
      ensures workset[i].size == old(workset[i].size)
      ensures Predicts(transitions[i], p.npages, i, PageOf(p, q[i].pc), reqs,
                       old(workset[i].procType), workset[i].procType)
    {
      hide Serving, Inv, PageOf, SortedFrom, RangeRequests;
      var page := PageOf(p, q[i].pc);
      assert RowOk(transitions[i][page], p.npages, page);
      var first := Sort(transitions[i][page]);
      PredictionIsAnother(transitions[i][page], first, p.npages, page);
      if first[0].freq == 0 {
        reqs := [];
        return;
      }
      var next := first[0].page;
      assert RowOk(transitions[i][next], p.npages, next);
      var second := Sort(transitions[i][next]);
      FirstIsMostFrequent(transitions[i][next], second, p.npages, next);
      if next > page {
        workset[i] := WorkSet(Linear, workset[i].size);
        PrefetchTwo(sim, q, i, next, second[0].page);
        reqs := [In(i, next), In(i, second[0].page)];
      } else if next < page {
        workset[i] := WorkSet(Loop, workset[i].size);
        PrefetchLoop(sim, q, i, next, page);
        reqs := RangeRequests(i, next, page);
      } else {
        // the source's third case, a branch: it cannot arise
        assert false;
      }
    }

    /** All active slots' predictions. */
    method Predict(sim: S.Simulator, q: seq<Entry>) returns (ghost reqs: seq<seq<Op>>)
      requires sim.Valid() && Serves(sim, q) && Configured() && PcsFit(p, q) && |q| == p.slots
      requires transitions.Length == workset.Length == p.slots
      requires forall i :: 0 <= i < p.slots ==> MatrixOk(transitions[i], p.npages)
      modifies procWait, workset, this`ops, sim`pagesavail, sim.queue
      ensures sim.Valid() && Serves(sim, q) && |reqs| == p.slots && ops == old(ops) + Flat(reqs)
      ensures forall i :: 0 <= i < p.slots ==> workset[i].size == old(workset[i].size)
      ensures forall i: nat :: i < p.slots && !q[i].active ==> reqs[i] == [] && workset[i] == old(workset[i])
      ensures forall i: nat :: i < p.slots && q[i].active ==>
        Predicts(transitions[i], p.npages, i, PageOf(p, q[i].pc), reqs[i],
                 old(workset[i].procType), workset[i].procType)
    {
      hide Serving, Inv, PageOf, Predicts, MatrixOk;
      reqs := [];
      for i := 0 to p.slots
        invariant sim.Valid() && Serves(sim, q) && |reqs| == i && ops == old(ops) + Flat(reqs)
        invariant forall k :: i <= k < p.slots ==> workset[k] == old(workset[k])
        invariant forall k :: 0 <= k < i ==> workset[k].size == old(workset[k].size)
        invariant forall k: nat :: k < i && !q[k].active ==> reqs[k] == [] && workset[k] == old(workset[k])
        invariant forall k: nat :: k < i && q[k].active ==>
          Predicts(transitions[k], p.npages, k, PageOf(p, q[k].pc), reqs[k],
                   old(workset[k].procType), workset[k].procType)
      {
        ghost var more := [];
        if q[i].active {
          more := PredictSlot(sim, q, i);
        }
        assert (reqs + [more])[..i] == reqs;
        reqs := reqs + [more];
        assert ops == old(ops) + Flat(reqs);
      }
    }

    /** Finished operations are forgotten and the reserve is restored. */
    method StartCall(sim: S.Simulator, q: seq<Entry>)
      requires TrackerShape(p, procWait[..]) && TimesOk() && |trace| < INT_MAX
      requires sim.p == p && sim.Valid() && q == View(p, sim.Abs()) && JointOk(p, Now(sim)) && Agrees(p, Now(sim), tick)
      modifies this`start, this`ops, procWait, sim.queue
      ensures sim.Valid() && Serves(sim, q) && start == Joint(old(sim.Abs()), Expire(p, old(procWait[..]), tick))
      ensures Restored(p, freebuf, q, start, ops, tick, trace)
    {
      hide Serving, Inv, Agrees, Restored, Times;
      ghost var x := Now(sim);
      ServeStart(p, q, x, tick);
      start, ops := Joint(x.s, Expire(p, x.w, tick)), [];
      ExpireWaits();
      assert Now(sim) == start;
      FreeFrames(sim, q);
    }

    /** The first half of a call: finished operations are forgotten, the reserve is restored,
        transitions are recorded and the working set is updated. */
    method Prepare(sim: S.Simulator, q: seq<Entry>) returns (ghost evictions: seq<Op>)
      requires Valid() && tick < INT_MAX && sim.p == p && sim.Valid() && q == View(p, sim.Abs())
      requires JointOk(p, Now(sim)) && Agrees(p, Now(sim), tick)
      modifies this`start, this`ops, this`paths, transitions, pgLast, procWait, workset, sim`pagesavail, sim.queue
      ensures sim.Valid() && Serves(sim, q) && ViewShape(p, q) && PcsFit(p, q)
      ensures start == Joint(old(sim.Abs()), Expire(p, old(procWait[..]), tick))
      ensures Restored(p, freebuf, q, start, evictions, tick, trace)
      ensures ops == evictions + WindowPhase(p, window, q, tick, trace)
      ensures TablesMoved(p, q, old(Table(transitions[..], pgLast[..])), Table(transitions[..], pgLast[..]),
                          old(paths), paths, tick % interval == 0, decay)
      ensures |paths| == p.slots && TableOk(Table(transitions[..], pgLast[..]), paths, p.npages, tick < interval)
      ensures SizesOk(p, window, tick, trace, old(workset[..]), workset[..])
    {
      hide Serving, JointOk, Inv, Agrees, StillSeen, Restored, TablesMoved, TableOk, Times,
           WindowRequests, WindowPages, PageOf;
      StartCall(sim, q);
      evictions := ops;
      ServingFits(p, q, start, ops, Now(sim), tick);
      CurInRange(p, q, sim.Abs());
      UpdateTransitions(q);
      UpdateWorkingSet(sim, q);
    }

    /** One call of the pager. */
    method PageIt(q: seq<Entry>, sim: S.Simulator) returns (ghost c: Call)
      requires Valid() && tick < INT_MAX && sim.p == p && sim.Valid() && q == View(p, sim.Abs())
      requires JointOk(p, Now(sim)) && Agrees(p, Now(sim), tick)
      modifies this, timestamps, transitions, pgLast, procWait, workset, sim`pagesavail, sim.queue
      ensures Valid() && sim.Valid() && tick == old(tick) + 1
      ensures CallOk(p, freebuf, window, q, old(Now(sim)), Now(sim), ops, old(tick), old(trace), trace, c)
      ensures SetsOk(p, window, q, transitions[..], old(tick), old(trace), c, old(workset[..]), workset[..])
      ensures TablesMoved(p, q, old(Table(transitions[..], pgLast[..])), Table(transitions[..], pgLast[..]),
                          old(paths), paths, old(tick) % interval == 0, decay)
    {
      hide Serving, JointOk, Inv, Agrees, StillSeen, Restored, CurrentPhase, TablesMoved, TableOk, Times,
           LegalAll, TrackedAll, WindowPhase, WindowPages, Predicts, PageOf, SetsOk, SizesOk, MatrixOk,
           CallOk, SeenUpTo, Expire;
      ghost var x, t, trace0, sets0 := Now(sim), tick, trace, workset[..];
      ghost var evictions := Prepare(sim, q);
      ghost var sets1 := workset[..];
      ghost var reached, evicted, victim := CurrentPages(sim, q);
      ghost var current := ops;
      TableReady(Table(transitions[..], pgLast[..]), paths, p.npages, tick < interval, tick < interval);
      ghost var predicted := Predict(sim, q);
      c := Call(evictions, reached, evicted, victim, predicted);
      SizesThenPredictions(p, window, q, transitions[..], tick, trace0, c, sets0, sets1, workset[..]);
      ServingFits(p, q, start, ops, Now(sim), t);
      CallAssembled(p, freebuf, window, q, x, Now(sim), start, ops, current, t, trace0, trace, c);
      tick := tick + 1;
    }
  }
}
