/** What the predictive pager remembers, said of the run itself. */
module PagerHistory {
  // Its timestamps, its transition tables and its choice of victims are tied to the states the
  // simulator went through: to the pages the jobs in the slots were on at each call.

  import opened Independence
  import opened PagerRuns
  import opened Paging
  import opened PredictPager
  import opened References
  import opened Reserve
  import opened RoundEffects
  import opened Shadow
  import opened Transitions
  import opened Victims

  /** The page slot i is on, -1 if it has no job. */
  function OnPage(p: Params, s: State, i: nat): int
    requires ParamsOk(p) && Inv(p, s) && i < p.slots
  {
    match s.slots[i]
    case None => -1
    case Some(j) => CurrentPage(p, s.queue[j])
  }

  lemma ShownIsOn(p: Params, s: State, i: nat)
    requires ParamsOk(p) && Inv(p, s) && i < p.slots
    ensures var e := View(p, s)[i];
      OnPage(p, s, i) == if e.active then e.pc / p.psize else -1
  {
    assert View(p, s)[i] == EntryOf(p, s, i);
    if s.slots[i].Some? {
      assert JobOk(p, s, s.slots[i].value) && InSlot(s, s.slots[i].value);
    }
  }

  /** The state shown to the pager at its t-th call. */
  function ShownAt(p: Params, x0: Joint, opss: seq<seq<Op>>, t: nat): (s: State)
    requires JointOk(p, x0) && 1 <= t <= |opss|
    ensures Inv(p, s)
  {
    Ticked(p, JointRun(p, x0, opss[..t - 1])).s
  }

  // ---- references

  /** At its t-th call the pager looked at slot i, and the job there was on page g. */
  predicate Referenced(p: Params, x0: Joint, opss: seq<seq<Op>>, recs: seq<Records>, t: int, i: nat, g: nat)
    requires JointOk(p, x0) && |recs| == |opss| && i < p.slots
  {
    1 <= t <= |opss| && i < recs[t - 1].call.reached && OnPage(p, ShownAt(p, x0, opss, t), i) == g
  }

  lemma ReferencedBefore(p: Params, x0: Joint, opss: seq<seq<Op>>, recs: seq<Records>, t: int, i: nat, g: nat)
    requires JointOk(p, x0) && |recs| == |opss| && i < p.slots && opss != [] && t < |opss|
    ensures var n := |opss| - 1;
      Referenced(p, x0, opss[..n], recs[..n], t, i, g) <==> Referenced(p, x0, opss, recs, t, i, g)
  {
    hide SlotsOk, JobsOk, FramesOk, JointRun, Ticked, OnPage;
    if 1 <= t {
      assert opss[..|opss| - 1][..t - 1] == opss[..t - 1];
    }
  }

  lemma ReferencedLast(p: Params, x0: Joint, opss: seq<seq<Op>>, recs: seq<Records>, t: int, i: nat, g: nat)
    requires JointOk(p, x0) && |recs| == |opss| && i < p.slots && opss != [] && t >= |opss|
    ensures var n := |opss| - 1;
      Referenced(p, x0, opss, recs, t, i, g)
      <==> t == |opss| && i < recs[n].call.reached && OnPage(p, Ticked(p, JointRun(p, x0, opss[..n])).s, i) == g
  {
    hide SlotsOk, JobsOk, FramesOk, JointRun, Ticked, OnPage;
  }

  lemma NothingReferenced(p: Params, x0: Joint, t: int, i: nat, g: nat)
    requires JointOk(p, x0) && i < p.slots
    ensures !RefAt([], t, i, g) && !Referenced(p, x0, [], [], t, i, g)
  {
  }

  lemma RefAtBefore(refs: Refs, refs': Refs, t: int, i: nat, g: nat)
    requires t <= |refs| <= |refs'| && refs'[..|refs|] == refs
    ensures RefAt(refs', t, i, g) <==> RefAt(refs, t, i, g)
  {
  }

  lemma RefAtLast(refs: Refs, t: int, i: nat, g: nat)
    ensures t > |refs| ==> !RefAt(refs, t, i, g)
  {
  }

  /** The part of a call about the trace. */
  lemma CallNotes(p: Params, knobs: Knobs, x: Joint, ops: seq<Op>, tick: int, c: Records, i: nat, g: nat)
    requires JointOk(p, x) && RoundMade(p, knobs, x, ops, tick, c) && i < p.slots
    ensures |c.before.trace| + 1 == |c.after.trace| == tick && c.after.trace[..tick - 1] == c.before.trace
    ensures RefAt(c.after.trace, tick, i, g) <==> i < c.call.reached && OnPage(p, Ticked(p, x).s, i) == g
  {
    hide SlotsOk, JobsOk, FramesOk, JointRound, Tick, LegalAll, TrackedAll, Agrees, Restored, CurrentPhase, SetsOk,
         TablesMoved, FetchesWindow, WindowPhase, EvictsOnce, View, Expire, RefAt;
    ShownIsOn(p, Ticked(p, x).s, i);
  }

  /** The trace is the run's: at tick t it holds exactly the pages that the jobs in the slots
      served at the t-th call were on. */
  lemma {:induction false} TraceIsRun(p: Params, knobs: Knobs, x0: Joint, opss: seq<seq<Op>>, recs: seq<Records>,
                                      t: int, i: nat, g: nat)
    requires JointOk(p, x0) && PagerRun(p, knobs, x0, opss, recs) && i < p.slots
    ensures |Remembers(p, recs).trace| == |opss|
    ensures RefAt(Remembers(p, recs).trace, t, i, g) <==> Referenced(p, x0, opss, recs, t, i, g)
    decreases |opss|
  {
    hide Inv, RoundMade, JointRun, OnPage, Ticked, Referenced, RefAt;
    if opss == [] {
      NothingReferenced(p, x0, t, i, g);
    } else {
      var n := |opss| - 1;
      TraceIsRun(p, knobs, x0, opss[..n], recs[..n], t, i, g);
      CallNotes(p, knobs, JointRun(p, x0, opss[..n]), opss[n], n + 1, recs[n], i, g);
      if t < n + 1 {
        ReferencedBefore(p, x0, opss, recs, t, i, g);
        RefAtBefore(recs[n].before.trace, recs[n].after.trace, t, i, g);
      } else {
        ReferencedLast(p, x0, opss, recs, t, i, g);
        RefAtLast(recs[n].after.trace, t, i, g);
      }
    }
  }

  // ---- transitions

  /** The pages that slot i was on at the calls, from page 0 on; an idle slot is on none. */
  function PagesOn(p: Params, x0: Joint, opss: seq<seq<Op>>, i: nat): (pages: seq<int>)
    requires JointOk(p, x0) && i < p.slots
    ensures pages != []
  {
    if opss == [] then [0]
    else
      var g := OnPage(p, ShownAt(p, x0, opss, |opss|), i);
      PagesOn(p, x0, opss[..|opss| - 1], i) + if g >= 0 then [g] else []
  }

  /** The part of a call about the tables. */
  lemma CallMoves(p: Params, knobs: Knobs, x: Joint, ops: seq<Op>, tick: int, c: Records)
    requires JointOk(p, x) && RoundMade(p, knobs, x, ops, tick, c) && tick >= 1
    requires TableOk(c.before.table, c.before.paths, p.npages, tick - 1 < knobs.interval)
    ensures TableOk(c.after.table, c.after.paths, p.npages, tick < knobs.interval)
    ensures |c.after.paths| == |c.before.paths| == p.slots
  {
    hide SlotsOk, JobsOk, FramesOk, JointRound, Tick, CallOk, SetsOk, TablesFollow, SlotTable, Ready, Transit,
         PathsAfter;
    var cur, tb, paths := CurOf(p, View(p, Ticked(p, x).s)), c.before.table, c.before.paths;
    TableReady(tb, paths, p.npages, tick - 1 < knobs.interval, tick < knobs.interval);
    MultipleIsLarge(tick, knobs.interval);
    TransitOk(tb, paths, cur, |cur|, p.npages, tick % knobs.interval == 0, knobs.decay, tick < knobs.interval);
  }

  lemma CallExtendsPath(p: Params, knobs: Knobs, x: Joint, ops: seq<Op>, tick: int, c: Records, i: nat)
    requires JointOk(p, x) && RoundMade(p, knobs, x, ops, tick, c) && 0 < i < p.slots
    ensures |c.before.paths| == |c.after.paths| == p.slots && c.before.paths[i] != []
    ensures var g, path := OnPage(p, Ticked(p, x).s, i), c.before.paths[i];
      c.after.paths[i] == if g >= 0 && g != path[|path| - 1] then path + [g] else path
  {
    hide SlotsOk, JobsOk, FramesOk, JointRound, Tick, CallOk, SetsOk, EntryFollows, Ready, Transit, PathsAfter, View;
    ShownIsOn(p, Ticked(p, x).s, i);
  }

  lemma StartsWithTables(p: Params)
    requires p.npages >= 1
    ensures TableOk(FirstMemory(p).table, FirstMemory(p).paths, p.npages, true)
  {
    var m := FirstMemory(p);
    forall i: nat | i < p.slots ensures SlotTable(m.table.trans[i], m.table.last[i], m.paths[i], i, p.npages, true) {
      ZeroMatrixCounts(p.npages);
    }
  }

  lemma {:induction false} PathsAreRun(p: Params, knobs: Knobs, x0: Joint, opss: seq<seq<Op>>, recs: seq<Records>,
                                       i: nat)
    requires JointOk(p, x0) && PagerRun(p, knobs, x0, opss, recs) && 0 < i < p.slots
    ensures |Remembers(p, recs).paths| == p.slots
    ensures Remembers(p, recs).paths[i] == NoRepeats(PagesOn(p, x0, opss, i))
    decreases |opss|
  {
    hide Inv, RoundMade, JointRun, Tick, OnPage, NoRepeats;
    if opss == [] {
      OnlyPageZero();
    } else {
      var n := |opss| - 1;
      PathsAreRun(p, knobs, x0, opss[..n], recs[..n], i);
      CallExtendsPath(p, knobs, JointRun(p, x0, opss[..n]), opss[n], n + 1, recs[n], i);
      NoRepeatsNext(PagesOn(p, x0, opss[..n], i), OnPage(p, ShownAt(p, x0, opss, n + 1), i));
    }
  }

  lemma OnlyPageZero()
    ensures NoRepeats([0]) == [0]
  {
  }

  lemma NoRepeatsNext(pages: seq<int>, g: int)
    requires pages != []
    ensures NoRepeats(pages) != []
    ensures NoRepeats(pages + [g])
         == if g != NoRepeats(pages)[|NoRepeats(pages)| - 1] then NoRepeats(pages) + [g] else NoRepeats(pages)
    ensures NoRepeats(pages + []) == NoRepeats(pages)
  {
    NoRepeatsEnds(pages);
    assert (pages + [g])[..|pages|] == pages;
    assert pages + [] == pages;
  }

  lemma {:induction false} TablesStayOk(p: Params, knobs: Knobs, x0: Joint, opss: seq<seq<Op>>, recs: seq<Records>)
    requires JointOk(p, x0) && PagerRun(p, knobs, x0, opss, recs) && knobs.interval >= 1
    ensures TableOk(Remembers(p, recs).table, Remembers(p, recs).paths, p.npages, |opss| < knobs.interval)
    decreases |opss|
  {
    hide Inv, RoundMade, JointRun, TableOk;
    if opss == [] {
      StartsWithTables(p);
    } else {
      var n := |opss| - 1;
      TablesStayOk(p, knobs, x0, opss[..n], recs[..n]);
      CallMoves(p, knobs, JointRun(p, x0, opss[..n]), opss[n], n + 1, recs[n]);
    }
  }

  /** The tables are the run's. Every slot but slot 0 was last seen on the last page it was on,
      and until the first decay its matrix counts how often each page followed each other page on
      its way, standing still left out; slot 0 has recorded nothing. */
  lemma TablesAreRun(p: Params, knobs: Knobs, x0: Joint, opss: seq<seq<Op>>, recs: seq<Records>, i: nat, a: nat, b: nat)
    requires JointOk(p, x0) && PagerRun(p, knobs, x0, opss, recs) && knobs.interval >= 1
    requires i < p.slots && a < p.npages && b < p.npages
    ensures var tb := Remembers(p, recs).table;
      && |tb.last| == |tb.trans| == p.slots && MatrixOk(tb.trans[i], p.npages)
      && (i == 0 ==> tb.last[i] == -1 && tb.trans[i][a][b].freq == 0)
      && (i > 0 ==> tb.last[i] == PagesOn(p, x0, opss, i)[|PagesOn(p, x0, opss, i)| - 1])
      && (i > 0 && |opss| < knobs.interval ==>
           tb.trans[i][a][b].freq == Steps(NoRepeats(PagesOn(p, x0, opss, i)), a, b))
  {
    hide JointOk, Inv, PagerRun, PagesOn, NoRepeats, PathOk, Remembers;
    var m := Remembers(p, recs);
    TablesStayOk(p, knobs, x0, opss, recs);
    if i > 0 {
      PathsAreRun(p, knobs, x0, opss, recs, i);
      NoRepeatsEnds(PagesOn(p, x0, opss, i));
    } else {
      MemoryLength(p, knobs, x0, opss, recs);
    }
    assert SlotTable(m.table.trans[i], m.table.last[i], m.paths[i], i, p.npages, |opss| < knobs.interval);
  }

  lemma {:induction false} MemoryLength(p: Params, knobs: Knobs, x0: Joint, opss: seq<seq<Op>>, recs: seq<Records>)
    requires JointOk(p, x0) && PagerRun(p, knobs, x0, opss, recs)
    ensures |Remembers(p, recs).paths| == p.slots
  {
    hide SlotsOk, JobsOk, FramesOk, JointRound, JointRun, Tick, CallOk, EntryFollows, Ready, Transit, PathsAfter;
  }

  // ---- victims

  /** In state y page g of slot i is in memory and not awaited, and every reference to it, of
      those seen by the end of run `opss`, is followed by one to every other such page: of any
      slot, or of slot i alone. */
  ghost predicate LeastRecent(p: Params, x0: Joint, opss: seq<seq<Op>>, recs: seq<Records>, y: Joint,
                              i: nat, g: nat, any: bool)
    requires JointOk(p, x0) && JointOk(p, y) && |recs| == |opss|
  {
    && InMemory(p, y, i, g)
    && forall k: nat, h: nat, t :: InMemory(p, y, k, h) && (any || k == i) && Referenced(p, x0, opss, recs, t, i, g) ==>
         exists u :: u >= t && Referenced(p, x0, opss, recs, u, k, h)
  }

  predicate InMemory(p: Params, y: Joint, i: nat, g: nat)
    requires JointOk(p, y)
  {
    i < p.slots && g < p.npages && Resident(p, y.s, i, g) && !y.w[i][g].waiting
  }

  lemma {:induction false} LegalAt(p: Params, x: Joint, ops: seq<Op>, tick: int, m: nat)
    requires JointOk(p, x) && LegalAll(p, x, ops, tick) && m < |ops|
    ensures Legal(p, TrackedAll(p, x, ops[..m], tick), ops[m])
    decreases |ops|
  {
    hide Inv, Legal, TrackedAll;
    if m < |ops| - 1 {
      var before := ops[..|ops| - 1];
      LegalAt(p, x, before, tick, m);
      assert before[..m] == ops[..m] && before[m] == ops[m];
    }
  }

  lemma {:induction false} LruAt(p: Params, q: seq<Entry>, start: Joint, ops: seq<Op>, tick: int, trace: Refs, m: nat)
    requires JointOk(p, start) && ViewShape(p, q) && LruEvictions(p, q, start, ops, tick, trace) && m < |ops|
    ensures ops[m].Out? && ops[m].slot >= 0 && ops[m].page >= 0
    ensures Lru(p, q, TrackedAll(p, start, ops[..m], tick).w, trace, ops[m].slot, ops[m].page)
    decreases |ops|
  {
    hide Inv, Lru, TrackedAll;
    if m < |ops| - 1 {
      var before := ops[..|ops| - 1];
      LruAt(p, q, start, before, tick, trace, m);
      assert before[..m] == ops[..m] && before[m] == ops[m];
    }
  }

  /** What is in memory and not awaited during a call can be evicted in it. */
  lemma InMemoryIsEvictable(p: Params, start: Joint, ops: seq<Op>, tick: int, k: nat, h: nat)
    requires JointOk(p, start) && ViewShape(p, View(p, start.s)) && InMemory(p, TrackedAll(p, start, ops, tick), k, h)
    ensures Evictable(p, View(p, start.s), TrackedAll(p, start, ops, tick).w, k, h)
  {
    hide SlotsOk, JobsOk, FramesOk, TrackedAll;
    if !Resident(p, start.s, k, h) {
      RequestsBringNothingIn(p, start, ops, tick, k, h);
    }
    assert View(p, start.s)[k] == EntryOf(p, start.s, k);
  }

  lemma LegalIsInMemory(p: Params, y: Joint, i: nat, g: nat)
    requires JointOk(p, y) && Legal(p, y, Out(i, g))
    ensures InMemory(p, y, i, g)
  {
  }

  /** Recency in the trace is recency in the run. */
  lemma RecencyIsRun(p: Params, knobs: Knobs, x0: Joint, opss: seq<seq<Op>>, recs: seq<Records>,
                     i: nat, g: nat, k: nat, h: nat, t: int)
    requires JointOk(p, x0) && PagerRun(p, knobs, x0, opss, recs) && i < p.slots && k < p.slots
    requires LastRef(Remembers(p, recs).trace, i, g) <= LastRef(Remembers(p, recs).trace, k, h)
    requires Referenced(p, x0, opss, recs, t, i, g)
    ensures exists u :: u >= t && Referenced(p, x0, opss, recs, u, k, h)
  {
    hide JointOk, Inv, PagerRun, Remembers, Referenced, LastRef;
    var trace := Remembers(p, recs).trace;
    TraceIsRun(p, knobs, x0, opss, recs, t, i, g);
    OlderMeansLessRecent(trace, i, g, k, h);
    var u :| t <= u <= |trace| && RefAt(trace, u, k, h);
    TraceIsRun(p, knobs, x0, opss, recs, u, k, h);
  }

  /** An eviction of the least recently used page, by the trace, is one by the run. */
  lemma LruIsLeastRecent(p: Params, knobs: Knobs, x0: Joint, opss: seq<seq<Op>>, recs: seq<Records>,
                         start: Joint, ops: seq<Op>, tick: int, i: nat, g: nat, any: bool)
    requires JointOk(p, x0) && PagerRun(p, knobs, x0, opss, recs)
    requires JointOk(p, start) && ViewShape(p, View(p, start.s)) && InMemory(p, TrackedAll(p, start, ops, tick), i, g)
    requires var q, w, trace := View(p, start.s), TrackedAll(p, start, ops, tick).w, Remembers(p, recs).trace;
      if any then Lru(p, q, w, trace, i, g) else LruOfSlot(p, q, w, trace, i, g)
    ensures LeastRecent(p, x0, opss, recs, TrackedAll(p, start, ops, tick), i, g, any)
  {
    hide SlotsOk, JobsOk, FramesOk, RoundMade, Remembers, Referenced, TrackedAll, View, Evictable, Resident;
    var y := TrackedAll(p, start, ops, tick);
    forall k: nat, h: nat, t
      | InMemory(p, y, k, h) && (any || k == i) && Referenced(p, x0, opss, recs, t, i, g)
      ensures exists u :: u >= t && Referenced(p, x0, opss, recs, u, k, h)
    {
      InMemoryIsEvictable(p, start, ops, tick, k, h);
      RecencyIsRun(p, knobs, x0, opss, recs, i, g, k, h, t);
    }
  }

  /** Where the evictions of a call stand among its requests: first those for the reserve, then,
      after the request that was refused, at most one more. */
  lemma CallEvicts(p: Params, knobs: Knobs, x: Joint, x': Joint, ops: seq<Op>, tick: int, c: Records, m: nat)
    returns (start: Joint)
    requires JointOk(p, x) && CallMade(p, knobs, x, x', ops, tick, c) && m < |ops| && ops[m].Out?
    ensures start == Joint(x.s, Expire(p, x.w, tick)) && JointOk(p, start) && LegalAll(p, start, ops, tick)
    ensures ViewShape(p, View(p, start.s)) && PcsFit(p, View(p, start.s))
    ensures var q, ev := View(p, start.s), c.call.evictions;
      if m < |ev|
      then ops[..m] == ev[..m] && ops[m] == ev[m] && Restored(p, knobs.freebuf, q, start, ev, tick, c.before.trace)
      else m > 0 && EvictsLocally(p, q, start, ops, tick, c, m)
  {
    hide SlotsOk, JobsOk, FramesOk, TrackedAll, LegalAll, Agrees, Restored, CurrentPhase, TablesMoved, SetsOk,
         WindowPhase, View, Expire, RefsNoted, FetchesWindow, EvictsOnce, Flat, PcsFit, OnlyIns;
    var q, ev := View(p, x.s), c.call.evictions;
    start := CallBegins(p, knobs.freebuf, knobs.window, q, x, x', ops, tick, c.before.trace, c.after.trace, c.call);
    var window := WindowPhase(p, knobs.window, q, tick, c.before.trace);
    var current :|
      && CurrentPhase(p, q, start, ev + window, current, tick, c.after.trace, c.call.reached, c.call.evicted,
                      c.call.victim)
      && ops == current + Flat(c.call.predicted);
    PhaseIsIns(p, knobs.window, q, tick, c.before.trace);
    PredictionsAreIns(p, knobs.window, q, c.after.table.trans, tick, c.before.trace, c.call,
                      c.before.sets, c.after.sets);
    if m >= |ev| {
      OutInPhase(p, q, start, ev, window, current, Flat(c.call.predicted), tick, c, m);
    } else {
      PhaseBegins(p, q, start, ev + window, current, tick, c);
    }
  }

  lemma PhaseBegins(p: Params, q: seq<Entry>, start: Joint, before: seq<Op>, current: seq<Op>, tick: int, c: Records)
    requires CurrentPhase(p, q, start, before, current, tick, c.after.trace, c.call.reached, c.call.evicted,
                          c.call.victim)
    ensures before <= current
  {
    hide JointOk, PcsFit, CurrentRequests, LocalEviction, Served, TrackedAll;
  }

  /** After the evictions for the reserve, only the local one is left. */
  lemma OutInPhase(p: Params, q: seq<Entry>, start: Joint, ev: seq<Op>, window: seq<Op>, current: seq<Op>,
                   predicted: seq<Op>, tick: int, c: Records, m: nat)
    requires JointOk(p, start) && ViewShape(p, q) && PcsFit(p, q) && OnlyIns(window) && OnlyIns(predicted)
    requires CurrentPhase(p, q, start, ev + window, current, tick, c.after.trace,
                          c.call.reached, c.call.evicted, c.call.victim)
    requires |ev| <= m < |current + predicted| && (current + predicted)[m].Out?
    ensures m > 0 && EvictsLocally(p, q, start, current + predicted, tick, c, m)
  {
    hide SlotsOk, JobsOk, FramesOk, PcsFit, PageOf, CurrentRequests, Served, TrackedAll, PageIn, LruOfSlot;
    var r, ops := c.call.reached, current + predicted;
    CurrentIsIns(p, q, r);
    var asked := CurrentRequests(p, q, r);
    assert forall k :: |ev| <= k < |ev + window| ==> ops[k] == window[k - |ev|];
    assert forall k :: |ev + window| <= k < |ev + window + asked| ==> ops[k] == asked[k - |ev + window|];
    assert forall k :: |current| <= k < |ops| ==> ops[k] == predicted[k - |current|];
    assert c.call.evicted && m == |ev + window + asked|;
    LastRequest(p, q, r);
    assert ops[..m - 1] == ev + window + CurrentRequests(p, q, r - 1);
  }

  lemma LastRequest(p: Params, q: seq<Entry>, n: nat)
    requires ParamsOk(p) && PcsFit(p, q) && ViewShape(p, q) && 0 < n <= p.slots && NeedsPage(p, q, n - 1)
    ensures CurrentRequests(p, q, n) == CurrentRequests(p, q, n - 1) + [In(n - 1, PageOf(p, q[n - 1].pc))]
  {
  }

  ghost predicate EvictsLocally(p: Params, q: seq<Entry>, start: Joint, ops: seq<Op>, tick: int, c: Records, m: nat)
    requires JointOk(p, start) && ViewShape(p, q) && PcsFit(p, q) && 0 < m < |ops|
  {
    && 0 < c.call.reached <= p.slots && ops[m] == Out(c.call.reached - 1, c.call.victim)
    && ops[m - 1] == In(c.call.reached - 1, PageOf(p, q[c.call.reached - 1].pc))
    && LocalEviction(p, q, TrackedAll(p, start, ops[..m - 1], tick), c.after.trace, c.call.reached - 1, c.call.victim)
  }

  /** A request that was refused has changed nothing. */
  lemma RefusedChangesNothing(p: Params, start: Joint, ops: seq<Op>, tick: int, m: nat)
    requires JointOk(p, start) && 0 < m <= |ops| && ops[m - 1].In?
    requires !PageIn(p, TrackedAll(p, start, ops[..m - 1], tick).s, ops[m - 1].slot, ops[m - 1].page).1
    ensures TrackedAll(p, start, ops[..m], tick) == TrackedAll(p, start, ops[..m - 1], tick)
  {
    assert ops[..m][..m - 1] == ops[..m - 1];
    RefusedMeans(p, TrackedAll(p, start, ops[..m - 1], tick).s, ops[m - 1].slot, ops[m - 1].page);
  }

  lemma RefusedMeans(p: Params, s: State, i: int, g: int)
    requires ParamsOk(p) && Inv(p, s) && !PageIn(p, s, i, g).1
    ensures PageIn(p, s, i, g).0 == s
  {
  }

  /** The state in which the last call of a run makes its requests, and its request number m. */
  function AtCall(p: Params, x0: Joint, opss: seq<seq<Op>>): (y: Joint)
    requires JointOk(p, x0) && opss != []
    ensures JointOk(p, y)
  {
    Noted(p, JointRun(p, x0, opss[..|opss| - 1]), |opss|)
  }

  function AtRequest(p: Params, x0: Joint, opss: seq<seq<Op>>, m: nat): (y: Joint)
    requires JointOk(p, x0) && opss != [] && m <= |opss[|opss| - 1]|
    ensures JointOk(p, y)
  {
    TrackedAll(p, AtCall(p, x0, opss), opss[|opss| - 1][..m], |opss|)
  }

  /** That request evicts, of all pages in memory, one that was not used more recently than any
      other, by the references seen at the calls before. */
  ghost predicate EvictsForReserve(p: Params, x0: Joint, opss: seq<seq<Op>>, recs: seq<Records>, m: nat)
    requires JointOk(p, x0) && |recs| == |opss| > 0 && m < |opss[|opss| - 1]|
  {
    var n, op := |opss| - 1, opss[|opss| - 1][m];
    && op.Out? && op.slot >= 0 && op.page >= 0
    && LeastRecent(p, x0, opss[..n], recs[..n], AtRequest(p, x0, opss, m), op.slot, op.page, true)
  }

  /** The request before was for the slot's current page and was refused; this one evicts, of the
      pages the slot has in memory, one that was not used more recently than any other, by the
      references seen up to now. */
  ghost predicate EvictsForSlot(p: Params, x0: Joint, opss: seq<seq<Op>>, recs: seq<Records>, m: nat)
    requires JointOk(p, x0) && |recs| == |opss| > 0 && m < |opss[|opss| - 1]|
  {
    var op, y := opss[|opss| - 1][m], AtRequest(p, x0, opss, m);
    && op.Out? && 0 <= op.slot < p.slots && op.page >= 0
    && m > 0 && opss[|opss| - 1][m - 1] == In(op.slot, OnPage(p, y.s, op.slot))
    && !PageIn(p, y.s, op.slot, OnPage(p, y.s, op.slot)).1
    && LeastRecent(p, x0, opss, recs, y, op.slot, op.page, false)
  }

  /** Every eviction of every run is of the one or of the other kind. */
  lemma EvictionsAreLeastRecent(p: Params, knobs: Knobs, x0: Joint, opss: seq<seq<Op>>, recs: seq<Records>, m: nat)
    requires JointOk(p, x0) && PagerRun(p, knobs, x0, opss, recs) && opss != []
    requires m < |opss[|opss| - 1]| && opss[|opss| - 1][m].Out?
    ensures if m < |recs[|opss| - 1].call.evictions| then EvictsForReserve(p, x0, opss, recs, m)
            else EvictsForSlot(p, x0, opss, recs, m)
  {
    hide SlotsOk, JobsOk, FramesOk, CallMade, JointRound, JointRun, Tick, TrackedAll, Expire, View, LegalAll, Legal,
         LeastRecent, EvictsLocally, Restored;
    var n := |opss| - 1;
    var x, ops, c := JointRun(p, x0, opss[..n]), opss[n], recs[n];
    var start := CallEvicts(p, knobs, Ticked(p, x), JointRound(p, x, ops, n + 1), ops, n + 1, c, m);
    assert start == Noted(p, x, n + 1);
    LegalAt(p, start, ops, n + 1, m);
    if m < |c.call.evictions| {
      ReserveVictim(p, knobs, x0, opss[..n], recs[..n], start, ops, c, m);
    } else {
      LocalVictim(p, knobs, x0, opss, recs, start, ops, c, m);
    }
  }

  lemma ReserveVictim(p: Params, knobs: Knobs, x0: Joint, opss: seq<seq<Op>>, recs: seq<Records>,
                      start: Joint, ops: seq<Op>, c: Records, m: nat)
    requires JointOk(p, x0) && PagerRun(p, knobs, x0, opss, recs) && c.before == Remembers(p, recs)
    requires JointOk(p, start) && m < |ops| && m < |c.call.evictions|
    requires ops[..m] == c.call.evictions[..m] && ops[m] == c.call.evictions[m]
    requires Legal(p, TrackedAll(p, start, ops[..m], |opss| + 1), ops[m])
    requires Restored(p, knobs.freebuf, View(p, start.s), start, c.call.evictions, |opss| + 1, c.before.trace)
    ensures ops[m].Out? && ops[m].slot >= 0 && ops[m].page >= 0
    ensures LeastRecent(p, x0, opss, recs, TrackedAll(p, start, ops[..m], |opss| + 1), ops[m].slot, ops[m].page, true)
  {
    hide SlotsOk, JobsOk, FramesOk, PagerRun, Remembers, TrackedAll, View, Lru, LruEvictions, NoneEvictable,
         LeastRecent, InMemory, Leaving, Legal;
    LruAt(p, View(p, start.s), start, c.call.evictions, |opss| + 1, c.before.trace, m);
    LegalIsInMemory(p, TrackedAll(p, start, ops[..m], |opss| + 1), ops[m].slot, ops[m].page);
    LruIsLeastRecent(p, knobs, x0, opss, recs, start, ops[..m], |opss| + 1, ops[m].slot, ops[m].page, true);
  }

  lemma LocalVictim(p: Params, knobs: Knobs, x0: Joint, opss: seq<seq<Op>>, recs: seq<Records>,
                    start: Joint, ops: seq<Op>, c: Records, m: nat)
    requires JointOk(p, x0) && PagerRun(p, knobs, x0, opss, recs) && opss != []
    requires ops == opss[|opss| - 1] && c == recs[|opss| - 1] && 0 < m < |ops|
    requires JointOk(p, start) && ViewShape(p, View(p, start.s)) && PcsFit(p, View(p, start.s))
    requires start == Noted(p, JointRun(p, x0, opss[..|opss| - 1]), |opss|)
    requires Legal(p, TrackedAll(p, start, ops[..m], |opss|), ops[m])
    requires EvictsLocally(p, View(p, start.s), start, ops, |opss|, c, m)
    ensures EvictsForSlot(p, x0, opss, recs, m)
  {
    hide SlotsOk, JobsOk, FramesOk, PagerRun, TrackedAll, View, LruOfSlot, LeastRecent, InMemory, PageIn, JointRun,
         Tick, Expire, Legal, PcsFit, PageOf, OnPage, Remembers;
    var i := c.call.reached - 1;
    RefusedChangesNothing(p, start, ops, |opss|, m);
    LastMemory(p, knobs, x0, opss, recs);
    LocalIsLeastRecent(p, knobs, x0, opss, recs, start, ops, m, i);
    SamePage(p, start, ops[..m], |opss|, i);
  }

  lemma LastMemory(p: Params, knobs: Knobs, x0: Joint, opss: seq<seq<Op>>, recs: seq<Records>)
    requires JointOk(p, x0) && PagerRun(p, knobs, x0, opss, recs) && opss != []
    ensures |recs| == |opss| && Remembers(p, recs) == recs[|opss| - 1].after
  {
    hide JointOk, Inv, RoundMade;
  }

  lemma LocalIsLeastRecent(p: Params, knobs: Knobs, x0: Joint, opss: seq<seq<Op>>, recs: seq<Records>,
                           start: Joint, ops: seq<Op>, m: nat, i: nat)
    requires JointOk(p, x0) && PagerRun(p, knobs, x0, opss, recs)
    requires JointOk(p, start) && ViewShape(p, View(p, start.s)) && m < |ops|
    requires ops[m].Out? && ops[m].slot == i && ops[m].page >= 0
    requires var y := TrackedAll(p, start, ops[..m], |opss|);
      Legal(p, y, ops[m]) && LruOfSlot(p, View(p, start.s), y.w, Remembers(p, recs).trace, i, ops[m].page)
    ensures LeastRecent(p, x0, opss, recs, TrackedAll(p, start, ops[..m], |opss|), i, ops[m].page, false)
  {
    hide SlotsOk, JobsOk, FramesOk, PagerRun, TrackedAll, View, LruOfSlot, LeastRecent, InMemory, Legal, Remembers;
    LegalIsInMemory(p, TrackedAll(p, start, ops[..m], |opss|), i, ops[m].page);
    LruIsLeastRecent(p, knobs, x0, opss, recs, start, ops[..m], |opss|, i, ops[m].page, false);
  }

  /** Requests do not move a job to another page. */
  lemma SamePage(p: Params, start: Joint, ops: seq<Op>, tick: int, i: nat)
    requires JointOk(p, start) && i < p.slots && PcsFit(p, View(p, start.s)) && View(p, start.s)[i].active
    ensures OnPage(p, TrackedAll(p, start, ops, tick).s, i) == PageOf(p, View(p, start.s)[i].pc)
  {
    hide SlotsOk, JobsOk, FramesOk, TrackedAll;
    assert View(p, start.s)[i] == EntryOf(p, start.s, i);
    ApplyAllProgress(p, start.s, ops);
  }
}
