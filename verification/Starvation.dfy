/** The main loop need not end under the predictive pager. */
module Starvation {
  // If paging takes a single tick and the reserve is the whole memory, every page is evicted in
  // the call that first sees it in memory, before its job has computed with it.

  import opened Independence
  import opened JobEffects
  import opened PagerRuns
  import opened Paging
  import opened PredictPager
  import opened References
  import opened Reserve
  import opened RoundEffects
  import opened Shadow
  import opened Sums
  import opened Victims

  predicate NoneResident(p: Params, s: State)
    requires Shape(p, s)
  {
    forall i: nat, g: nat :: i < p.slots && g < p.npages ==> !Resident(p, s, i, g)
  }

  /** No operation is awaited for longer than one that has just begun. */
  predicate AwaitedSoon(p: Params, w: Tracker, tick: int)
    requires TrackerShape(p, w)
  {
    forall i: nat, g: nat :: i < p.slots && g < p.npages && w[i][g].waiting ==> 0 < w[i][g].end <= tick + p.wait
  }

  predicate NothingComputed(s: State) {
    forall j: nat :: j < |s.queue| ==> s.queue[j].compute == 0
  }

  /** After a call: some job is loaded, no page of a loaded job is in memory, and no job has
      computed. */
  predicate Starved(p: Params, x: Joint, tick: int)
    requires JointOk(p, x)
  {
    x.s.slots[0].Some? && NoneResident(p, x.s) && NothingComputed(x.s) && AwaitedSoon(p, x.w, tick)
  }

  predicate NothingAwaited(p: Params, w: Tracker)
    requires TrackerShape(p, w)
  {
    forall i: nat, g: nat :: i < p.slots && g < p.npages ==> !w[i][g].waiting
  }

  /** With no page in memory a tick moves no job: the loaded ones stay where they are. */
  lemma TickOfStarved(p: Params, s: State)
    requires ParamsOk(p) && Inv(p, s) && NoneResident(p, s) && NothingComputed(s) && s.slots[0].Some?
    ensures Tick(p, s).slots[0].Some? && NothingComputed(Tick(p, s))
  {
    hide JobsOk, FramesOk, Tick;
    assert !Resident(p, s, 0, CurrentPage(p, s.queue[s.slots[0].value]));
    TickAt(p, s, 0);
    SlotIsActive(p, s, 0);
    forall j: nat | j < |s.queue| ensures Tick(p, s).queue[j].compute == 0 {
      TickOfStarvedJob(p, s, j);
    }
  }

  lemma TickOfStarvedJob(p: Params, s: State, j: nat)
    requires ParamsOk(p) && Inv(p, s) && NoneResident(p, s) && j < |s.queue|
    ensures Tick(p, s).queue[j].compute == s.queue[j].compute
  {
    hide JobsOk, FramesOk, Tick;
    InFirstIsInSlot(p, s, j);
    if InFirst(s, p.procs, j) {
      var i: nat :| i < p.procs && s.slots[i] == Some(j);
      assert !Resident(p, s, i, CurrentPage(p, s.queue[j]));
      TickOfJobInSlot(p, s, j);
    } else {
      TickOfOtherJob(p, s, j);
    }
  }

  lemma SlotIsActive(p: Params, s: State, i: nat)
    requires ParamsOk(p) && Inv(p, s) && i < p.procs && (s.slots[i].Some? ==> s.slots[i].value < |s.queue|)
    ensures s.slots[i].Some? ==> s.queue[s.slots[i].value].active
  {
    if s.slots[i].Some? {
      assert JobOk(p, s, s.slots[i].value) && InSlot(s, s.slots[i].value);
    }
  }

  /** If paging takes one tick, nothing that was awaited after the last call still is. */
  lemma AllExpires(p: Params, w: Tracker, tick: int)
    requires TrackerShape(p, w) && AwaitedSoon(p, w, tick - 1) && p.wait == 1
    ensures NothingAwaited(p, Expire(p, w, tick))
  {
  }

  // ---- requests

  /** What is noted at this tick is awaited for `wait` ticks. */
  lemma {:induction false} RequestsKeepAwaited(p: Params, x: Joint, ops: seq<Op>, tick: int)
    requires JointOk(p, x) && AwaitedSoon(p, x.w, tick) && tick >= 1
    ensures AwaitedSoon(p, TrackedAll(p, x, ops, tick).w, tick)
    ensures TrackedAll(p, x, ops, tick).s.slots == x.s.slots
  {
    hide Inv;
    if ops != [] {
      RequestsKeepAwaited(p, x, ops[..|ops| - 1], tick);
    }
  }

  // ---- the evictions

  /** What is awaited is not in memory. */
  predicate AwaitedIsOut(p: Params, x: Joint)
    requires JointOk(p, x)
  {
    forall i: nat, g: nat :: i < p.slots && g < p.npages && x.w[i][g].waiting ==> !Resident(p, x.s, i, g)
  }

  lemma EvictionKeepsOut(p: Params, x: Joint, op: Op, tick: int)
    requires JointOk(p, x) && AwaitedIsOut(p, x) && op.Out?
    ensures AwaitedIsOut(p, Tracked(p, x, op, tick))
  {
    var r := Tracked(p, x, op, tick);
    forall i: nat, g: nat | i < p.slots && g < p.npages && r.w[i][g].waiting ensures !Resident(p, r.s, i, g) {
      if i == op.slot && g == op.page {
        EvictedIsOut(p, x, op, tick);
      } else {
        RequestBringsNothingIn(p, x, op, tick, i, g);
      }
    }
  }

  lemma EvictedIsOut(p: Params, x: Joint, op: Op, tick: int)
    requires JointOk(p, x) && AwaitedIsOut(p, x) && op.Out? && 0 <= op.slot < p.slots && 0 <= op.page < p.npages
    requires Tracked(p, x, op, tick).w[op.slot][op.page].waiting
    ensures !Resident(p, Tracked(p, x, op, tick).s, op.slot, op.page)
  {
    hide JobsOk, FramesOk, SlotsOk;
  }

  lemma {:induction false} EvictionsKeepOut(p: Params, q: seq<Entry>, x: Joint, ops: seq<Op>, tick: int, trace: Refs)
    requires JointOk(p, x) && ViewShape(p, q) && AwaitedIsOut(p, x) && LruEvictions(p, q, x, ops, tick, trace)
    ensures AwaitedIsOut(p, TrackedAll(p, x, ops, tick))
  {
    hide Inv, AwaitedIsOut, Lru, Tracked;
    if ops != [] {
      EvictionsKeepOut(p, q, x, ops[..|ops| - 1], tick, trace);
      EvictionKeepsOut(p, TrackedAll(p, x, ops[..|ops| - 1], tick), ops[|ops| - 1], tick);
    }
  }

  /** All frames free or leaving: no page is in memory. */
  lemma NoneStays(p: Params, s: State)
    requires ParamsOk(p) && Inv(p, s) && s.avail + Leaving(p, s) >= p.frames
    ensures NoneResident(p, s)
  {
    UsedSplits(p, s.queue);
    forall j: nat | j < |s.queue| ensures StayingBy(s.queue[j]) >= 0 {
      SumOfNonNegative(s.queue[j].pages, Stays);
    }
    SumOfNonNegative(s.queue, StayingBy);
    SumOfZero(s.queue, StayingBy);
    forall i: nat, g: nat | i < p.slots && g < p.npages ensures !Resident(p, s, i, g) {
      if s.slots[i].Some? {
        var pages := s.queue[s.slots[i].value].pages;
        SumOfZero(pages, Stays);
        assert StayingBy(s.queue[s.slots[i].value]) == 0 && Stays(pages[g]) == 0;
      }
    }
  }

  /** Where nothing is left to evict, whatever was in memory has been asked to leave. */
  lemma NothingLeft(p: Params, q: seq<Entry>, start: Joint, x: Joint, i: nat, g: nat)
    requires JointOk(p, start) && JointOk(p, x) && q == View(p, start.s) && ViewShape(p, q)
    requires AwaitedIsOut(p, x) && NoneEvictable(p, q, x.w) && i < p.slots && g < p.npages
    requires Resident(p, start.s, i, g)
    ensures !Resident(p, x.s, i, g)
  {
    hide SlotsOk, JobsOk, FramesOk;
    assert !Evictable(p, q, x.w, i, g);
    assert q[i] == EntryOf(p, start.s, i);
  }

  /** With a reserve as large as memory nothing stays after the evictions. */
  lemma AllIsEvicted(p: Params, freebuf: nat, q: seq<Entry>, start: Joint, evictions: seq<Op>, tick: int, trace: Refs)
    requires Restored(p, freebuf, q, start, evictions, tick, trace) && freebuf >= p.frames
    requires q == View(p, start.s) && NothingAwaited(p, start.w)
    ensures NoneResident(p, TrackedAll(p, start, evictions, tick).s)
  {
    hide SlotsOk, JobsOk, FramesOk, View, Resident, NoneEvictable, LruEvictions, TrackedAll, Leaving, InMem;
    var x := TrackedAll(p, start, evictions, tick);
    if x.s.avail + Leaving(p, x.s) >= freebuf {
      NoneStays(p, x.s);
    } else {
      EvictionsKeepOut(p, q, start, evictions, tick, trace);
      forall i: nat, g: nat | i < p.slots && g < p.npages ensures !Resident(p, x.s, i, g) {
        if Resident(p, start.s, i, g) {
          NothingLeft(p, q, start, x, i, g);
        } else {
          RequestsBringNothingIn(p, start, evictions, tick, i, g);
        }
      }
    }
  }

  // ---- calls and runs

  lemma {:induction false} TrackedOn(p: Params, x: Joint, a: seq<Op>, b: seq<Op>, tick: int)
    requires JointOk(p, x)
    ensures TrackedAll(p, x, a + b, tick) == TrackedAll(p, TrackedAll(p, x, a, tick), b, tick)
    decreases |b|
  {
    hide Inv, Tracked;
    if b == [] {
      assert a + b == a;
    } else {
      assert (a + b)[..|a + b| - 1] == a + b[..|b| - 1];
      TrackedOn(p, x, a, b[..|b| - 1], tick);
    }
  }

  lemma StillAwaitedSoon(p: Params, w: Tracker, tick: int)
    requires TrackerShape(p, w) && NothingAwaited(p, w)
    ensures AwaitedSoon(p, w, tick)
  {
  }

  /** A call leaves no page in memory behind. */
  lemma CallStarves(p: Params, knobs: Knobs, x: Joint, x': Joint, ops: seq<Op>, tick: int, c: Records)
    requires JointOk(p, x) && CallMade(p, knobs, x, x', ops, tick, c)
    requires p.wait == 1 && knobs.freebuf >= p.frames && tick >= 1
    requires x.s.slots[0].Some? && NothingComputed(x.s) && AwaitedSoon(p, x.w, tick - 1)
    ensures JointOk(p, x') && Starved(p, x', tick)
  {
    hide SlotsOk, JobsOk, FramesOk, CallOk, SetsOk, TablesMoved, Restored, Resident, AwaitedSoon, NothingAwaited,
         TrackedAll, Expire, View;
    var q := View(p, x.s);
    var start := CallBegins(p, knobs.freebuf, knobs.window, q, x, x', ops, tick, c.before.trace, c.after.trace, c.call);
    AllExpires(p, x.w, tick);
    AllIsEvicted(p, knobs.freebuf, q, start, c.call.evictions, tick, c.before.trace);
    var rest := EvictionsFirst(p, knobs.freebuf, knobs.window, q, x, x', ops, tick, c.before.trace, c.after.trace,
                               c.call);
    TrackedOn(p, start, c.call.evictions, rest, tick);
    StillAwaitedSoon(p, start.w, tick);
    RequestsKeepAwaited(p, start, ops, tick);
    ApplyAllProgress(p, start.s, ops);
    forall i: nat, g: nat | i < p.slots && g < p.npages ensures !Resident(p, x'.s, i, g) {
      RequestsBringNothingIn(p, TrackedAll(p, start, c.call.evictions, tick), rest, tick, i, g);
    }
  }

  lemma RoundStarves(p: Params, knobs: Knobs, x: Joint, ops: seq<Op>, tick: int, c: Records)
    requires JointOk(p, x) && RoundMade(p, knobs, x, ops, tick, c)
    requires p.wait == 1 && knobs.freebuf >= p.frames && tick >= 1 && Starved(p, x, tick - 1)
    ensures Starved(p, JointRound(p, x, ops, tick), tick)
  {
    hide SlotsOk, JobsOk, FramesOk, CallMade, NoneResident, NothingComputed, AwaitedSoon, JointRound, Tick;
    var x' := JointRound(p, x, ops, tick);
    TickOfStarved(p, x.s);
    CallStarves(p, knobs, Ticked(p, x), x', ops, tick, c);
  }

  lemma {:induction false} RunStarves(p: Params, knobs: Knobs, x0: Joint, opss: seq<seq<Op>>, recs: seq<Records>)
    requires JointOk(p, x0) && PagerRun(p, knobs, x0, opss, recs)
    requires p.wait == 1 && knobs.freebuf >= p.frames && Starved(p, x0, 0)
    ensures Starved(p, JointRun(p, x0, opss), |opss|)
    decreases |opss|
  {
    hide JointOk, Inv, RoundMade, Starved, JointRound;
    if opss != [] {
      var n := |opss| - 1;
      RunStarves(p, knobs, x0, opss[..n], recs[..n]);
      RoundStarves(p, knobs, JointRun(p, x0, opss[..n]), opss[n], n + 1, recs[n]);
    }
  }

  /** If paging takes one tick and the reserve is all of memory, the main loop with the
      predictive pager never ends: however long it runs, no job has computed once. */
  lemma NeverDone(p: Params, knobs: Knobs, jobs: seq<Process>, opss: seq<seq<Op>>, recs: seq<Records>)
    requires ParamsOk(p) && jobs != [] && forall j :: 0 <= j < |jobs| ==> FreshJob(p, jobs[j])
    requires p.wait == 1 && knobs.freebuf >= p.frames && PagerRun(p, knobs, JointInit(p, jobs), opss, recs)
    ensures var s := JointRun(p, JointInit(p, jobs), opss).s;
      !AllDone(p, s) && forall j :: 0 <= j < |s.queue| ==> s.queue[j].compute == 0
  {
    hide SlotsOk, JobsOk, FramesOk, PagerRun, JointRun;
    var x0 := JointInit(p, jobs);
    forall i: nat, g: nat | i < p.slots && g < p.npages ensures !Resident(p, x0.s, i, g) {
      if x0.s.slots[i].Some? {
        assert FreshJob(p, jobs[x0.s.slots[i].value]);
      }
    }
    RunStarves(p, knobs, x0, opss, recs);
    SlotIsActive(p, JointRun(p, x0, opss).s, 0);
  }
}
