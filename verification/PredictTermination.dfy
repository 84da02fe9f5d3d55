/** The main loop ends under the predictive pager if memory has room for all loaded jobs. */
module PredictTermination {
  // With a frame for every page of every slot in use, and the reserve besides, the pager never
  // evicts; then every request for a current page is granted, and every round brings every
  // loaded job nearer to its exit.

  import opened BasicTermination
  import opened Independence
  import opened JobEffects
  import opened PagerBasic
  import opened PagerRuns
  import opened Paging
  import opened PredictPager
  import Programs
  import opened References
  import opened Reserve
  import opened RoundEffects
  import opened Shadow
  import opened Sums
  import opened Victims

  predicate Roomy(p: Params, freebuf: nat) { p.frames >= Room(p, p.procs) + freebuf }

  /** The pages of the first k slots, of which only `procs` are ever used. */
  function Room(p: Params, k: nat): nat { Programs.Times(if k <= p.procs then k else p.procs, p.npages) }

  /** No page is on its way out, and nothing is awaited for an unused slot. */
  predicate Quiet(p: Params, x: Joint)
    requires JointOk(p, x)
  {
    NoneLeaving(p, x.s) && UnusedIdle(p, x.w)
  }

  predicate UnusedIdle(p: Params, w: Tracker)
    requires TrackerShape(p, w)
  {
    forall i: nat, g: nat :: p.procs <= i < p.slots && g < p.npages ==> !w[i][g].waiting
  }

  lemma TickKeepsQuiet(p: Params, x: Joint)
    requires JointOk(p, x) && Quiet(p, x)
    ensures Quiet(p, Ticked(p, x))
  {
    hide SlotsOk, JobsOk, FramesOk, Tick;
    var r := Tick(p, x.s);
    forall i: nat, g: nat | i < p.slots && r.slots[i].Some? && g < p.npages
      ensures r.queue[r.slots[i].value].pages[g] >= 0 || r.queue[r.slots[i].value].pages[g] == -p.wait - 1
    {
      TickKeepsNoneLeaving(p, x.s, i);
    }
  }

  lemma ExpireKeepsQuiet(p: Params, x: Joint, tick: int)
    requires JointOk(p, x) && Quiet(p, x)
    ensures Quiet(p, Joint(x.s, Expire(p, x.w, tick)))
  {
    hide SlotsOk, JobsOk, FramesOk;
  }

  // ---- frames in use by quiet states

  lemma HeldFull(p: Params, q: Process, g: nat)
    requires |q.pages| == p.npages && g < p.npages
    ensures Held(p.wait, q.pages) <= p.npages && (q.pages[g] < -p.wait ==> Held(p.wait, q.pages) < p.npages)
  {
    SumOfFlags(q.pages, HeldFlag(p.wait));
  }

  lemma RoomNext(p: Params, k: nat)
    requires k > 0
    ensures Room(p, k) == Room(p, k - 1) + if k <= p.procs then p.npages else 0
  {
  }

  /** The slots hold no more than their room, and less if page g of slot i is out. */
  lemma {:induction false} SlotsHold(p: Params, s: State, k: nat, i: nat, g: nat)
    requires ParamsOk(p) && Inv(p, s) && k <= p.slots && i < p.slots && g < p.npages && s.slots[i].Some?
    ensures SlotTotal(s, HeldBy(p.wait), k) <= Room(p, k)
    ensures i < k && s.queue[s.slots[i].value].pages[g] < -p.wait ==> SlotTotal(s, HeldBy(p.wait), k) < Room(p, k)
  {
    hide JobsOk, FramesOk, Room;
    if k > 0 {
      SlotsHold(p, s, k - 1, i, g);
      RoomNext(p, k);
      if s.slots[k - 1].Some? {
        HeldFull(p, s.queue[s.slots[k - 1].value], g);
      }
    }
  }

  /** A request for a slot's current page is granted. */
  lemma CurrentIsGranted(p: Params, s: State, i: nat)
    requires ParamsOk(p) && Inv(p, s) && NoneLeaving(p, s) && Roomy(p, 0) && i < p.procs && s.slots[i].Some?
    ensures s.queue[s.slots[i].value].active
    ensures PageIn(p, s, i, CurrentPage(p, s.queue[s.slots[i].value])).1
  {
    hide Roomy;
    var q := s.queue[s.slots[i].value];
    var g := CurrentPage(p, q);
    assert JobOk(p, s, s.slots[i].value) && InSlot(s, s.slots[i].value);
    if q.pages[g] < 0 {
      SomeFrameFree(p, s, i, g);
    }
  }

  lemma SomeFrameFree(p: Params, s: State, i: nat, g: nat)
    requires ParamsOk(p) && Inv(p, s) && Roomy(p, 0) && i < p.procs && s.slots[i].Some? && g < p.npages
    requires s.queue[s.slots[i].value].pages[g] < -p.wait
    ensures s.avail > 0
  {
    hide SlotsOk, JobsOk;
    forall j: nat | j < |s.queue| && AllOut(p, s.queue[j]) ensures HeldBy(p.wait)(s.queue[j]) == 0 {
      AllOutHoldsNothing(p, s.queue[j]);
    }
    SlotsCoverJobs(p, s, HeldBy(p.wait));
    SlotsHold(p, s, p.slots, i, g);
  }

  lemma {:induction false} RowAtMost(shown: seq<bool>, w: seq<Track>, n: nat)
    requires n <= |shown| && n <= |w|
    ensures InMemRow(shown, w, n) <= n
    ensures (forall g :: 0 <= g < n ==> !shown[g] && !w[g].waiting) ==> InMemRow(shown, w, n) == 0
  {
    if n > 0 {
      RowAtMost(shown, w, n - 1);
    }
  }

  /** The count of pages in memory is at most the room of the used slots. */
  lemma {:induction false} CountAtMost(p: Params, s: State, w: Tracker, k: nat)
    requires ParamsOk(p) && Inv(p, s) && TrackerShape(p, w) && UnusedIdle(p, w) && k <= p.slots
    requires ViewShape(p, View(p, s))
    ensures InMem(p, View(p, s), w, k) <= Room(p, k)
  {
    hide JobsOk, FramesOk, Room;
    if k > 0 {
      CountAtMost(p, s, w, k - 1);
      RoomNext(p, k);
      assert View(p, s)[k - 1] == EntryOf(p, s, k - 1);
      RowAtMost(View(p, s)[k - 1].pages, w[k - 1], p.npages);
    }
  }

  /** Nothing is evicted for the reserve. */
  lemma NoneForReserve(p: Params, freebuf: nat, x: Joint, evictions: seq<Op>, tick: int, trace: Refs)
    requires JointOk(p, x) && Quiet(p, x) && Roomy(p, freebuf)
    requires Restored(p, freebuf, View(p, x.s), x, evictions, tick, trace)
    ensures evictions == []
  {
    hide SlotsOk, JobsOk, FramesOk, View, UnusedIdle, NoneEvictable, LruEvictions, TrackedAll, Leaving, InMem;
    CountAtMost(p, x.s, x.w, p.slots);
  }

  // ---- what such requests keep

  lemma InKeepsQuiet(p: Params, x: Joint, op: Op, tick: int)
    requires JointOk(p, x) && Quiet(p, x) && op.In?
    ensures Quiet(p, Tracked(p, x, op, tick))
  {
    hide JobsOk, FramesOk;
  }

  /** Only pages change, and of these only those that are not in memory or coming. */
  predicate Kept(q: Process, q': Process) {
    && |q'.pages| == |q.pages| && q' == q.(pages := q'.pages)
    && forall g :: 0 <= g < |q.pages| && q.pages[g] >= 0 ==> q'.pages[g] == q.pages[g]
  }

  lemma InKeepsJob(p: Params, s: State, op: Op, j: nat)
    requires ParamsOk(p) && Inv(p, s) && op.In? && j < |s.queue|
    ensures Kept(s.queue[j], Apply(p, s, op).queue[j])
  {
    hide SlotsOk, JobsOk, FramesOk;
  }

  lemma {:induction false} InsKeepQuiet(p: Params, x: Joint, ops: seq<Op>, tick: int)
    requires JointOk(p, x) && Quiet(p, x) && OnlyIns(ops)
    ensures Quiet(p, TrackedAll(p, x, ops, tick))
  {
    hide SlotsOk, JobsOk, FramesOk, Quiet, Tracked;
    if ops != [] {
      InsKeepQuiet(p, x, ops[..|ops| - 1], tick);
      InKeepsQuiet(p, TrackedAll(p, x, ops[..|ops| - 1], tick), ops[|ops| - 1], tick);
    }
  }

  lemma {:induction false} InsKeepJob(p: Params, x: Joint, ops: seq<Op>, tick: int, j: nat)
    requires JointOk(p, x) && OnlyIns(ops) && j < |x.s.queue|
    ensures Kept(x.s.queue[j], TrackedAll(p, x, ops, tick).s.queue[j])
  {
    hide SlotsOk, JobsOk, FramesOk, Tracked;
    if ops != [] {
      InsKeepJob(p, x, ops[..|ops| - 1], tick, j);
      InKeepsJob(p, TrackedAll(p, x, ops[..|ops| - 1], tick).s, ops[|ops| - 1], j);
    }
  }

  // ---- calls with enough room

  lemma ShownPage(p: Params, s: State, i: nat)
    requires ParamsOk(p) && Inv(p, s) && i < p.slots && View(p, s)[i].active
    ensures i < p.procs && s.slots[i].Some?
    ensures var q, g := s.queue[s.slots[i].value], CurrentPage(p, s.queue[s.slots[i].value]);
      && |View(p, s)[i].pages| == p.npages
      && PageOf(p, View(p, s)[i].pc) == g && View(p, s)[i].pages[g] == (q.pages[g] == 0)
  {
    assert View(p, s)[i] == EntryOf(p, s, i);
  }

  /** A request for the current page of slot i is granted after whatever was fetched before. */
  lemma NeededIsGranted(p: Params, x: Joint, ops: seq<Op>, tick: int, i: nat)
    requires JointOk(p, x) && Quiet(p, x) && Roomy(p, 0) && OnlyIns(ops) && i < p.procs && x.s.slots[i].Some?
    ensures PageIn(p, TrackedAll(p, x, ops, tick).s, i, CurrentPage(p, x.s.queue[x.s.slots[i].value])).1
  {
    hide JobsOk, FramesOk, SlotsOk, UnusedIdle, NoneLeaving, Roomy, PageIn, TrackedAll;
    InsKeepQuiet(p, x, ops, tick);
    InsKeepJob(p, x, ops, tick, x.s.slots[i].value);
    CurrentIsGranted(p, TrackedAll(p, x, ops, tick).s, i);
  }

  /** No slot has to make room for its own page. */
  lemma NoLocalEviction(p: Params, start: Joint, before: seq<Op>, ops: seq<Op>, tick: int, trace: Refs,
                        reached: nat, evicted: bool, victim: nat)
    requires JointOk(p, start) && Quiet(p, start) && Roomy(p, 0) && OnlyIns(before)
    requires CurrentPhase(p, View(p, start.s), start, before, ops, tick, trace, reached, evicted, victim)
    ensures !evicted
  {
    hide JobsOk, FramesOk, SlotsOk, Quiet, Roomy, PageIn, TrackedAll, View, Served, LruOfSlot, PageOf, CurrentRequests;
    if evicted {
      var i := reached - 1;
      CurrentIsIns(p, View(p, start.s), i);
      ShownPage(p, start.s, i);
      NeededIsGranted(p, start, before + CurrentRequests(p, View(p, start.s), i), tick, i);
    }
  }

  /** A call only fetches, and fetches all current pages that are not in memory. */
  lemma CallOnlyFetches(p: Params, knobs: Knobs, x: Joint, x': Joint, ops: seq<Op>, tick: int, c: Records)
    returns (start: Joint)
    requires JointOk(p, x) && CallMade(p, knobs, x, x', ops, tick, c)
    requires Quiet(p, x) && Roomy(p, knobs.freebuf)
    ensures start == Joint(x.s, Expire(p, x.w, tick)) && JointOk(p, start) && Quiet(p, start)
    ensures OnlyIns(ops) && x' == TrackedAll(p, start, ops, tick)
    ensures ViewShape(p, View(p, x.s)) && PcsFit(p, View(p, x.s))
    ensures forall i: nat :: i < p.slots && NeedsPage(p, View(p, x.s), i) ==>
      In(i, PageOf(p, View(p, x.s)[i].pc)) in ops
  {
    hide JobsOk, FramesOk, SlotsOk, Quiet, TrackedAll, View, Restored, CurrentPhase, LegalAll, Agrees, EvictsOnce,
         WindowPhase, SeenUpTo, Expire, Flat, SetsOk, PageOf, PcsFit, NeedsPage, Room;
    var q, k := View(p, x.s), c.call;
    start := CallBegins(p, knobs.freebuf, knobs.window, q, x, x', ops, tick, c.before.trace, c.after.trace, k);
    ExpireKeepsQuiet(p, x, tick);
    NoneForReserve(p, knobs.freebuf, start, k.evictions, tick, c.before.trace);
    var current :|
      && CurrentPhase(p, q, start, k.evictions + WindowPhase(p, knobs.window, q, tick, c.before.trace), current,
                      tick, c.after.trace, k.reached, k.evicted, k.victim)
      && ops == current + Flat(k.predicted);
    PhaseIsIns(p, knobs.window, q, tick, c.before.trace);
    var wanted := WindowPhase(p, knobs.window, q, tick, c.before.trace);
    assert k.evictions + wanted == wanted;
    NoLocalEviction(p, start, wanted, current, tick, c.after.trace, k.reached, k.evicted, k.victim);
    PhaseComplete(p, q, start, wanted, current, tick, c.after.trace, k.reached, k.victim);
    PredictionsAreIns(p, knobs.window, q, c.after.table.trans, tick, c.before.trace, k, c.before.sets, c.after.sets);
  }

  lemma PhaseComplete(p: Params, q: seq<Entry>, start: Joint, before: seq<Op>, ops: seq<Op>, tick: int, trace: Refs,
                      reached: nat, victim: nat)
    requires ParamsOk(p) && CurrentPhase(p, q, start, before, ops, tick, trace, reached, false, victim)
    requires OnlyIns(before)
    ensures OnlyIns(ops)
    ensures forall i: nat :: i < p.slots && NeedsPage(p, q, i) ==> In(i, PageOf(p, q[i].pc)) in ops
  {
    hide Inv, TrackedAll, Served, PageOf, PcsFit, NeedsPage, CurrentRequests;
    CurrentIsIns(p, q, p.slots);
  }

  /** What is asked for and granted is in memory or coming from then on. */
  lemma {:induction false} InsBringIn(p: Params, x: Joint, ops: seq<Op>, tick: int, i: nat)
    requires JointOk(p, x) && Quiet(p, x) && Roomy(p, 0) && OnlyIns(ops) && i < p.procs && x.s.slots[i].Some?
    requires var q, g := x.s.queue[x.s.slots[i].value], CurrentPage(p, x.s.queue[x.s.slots[i].value]);
      q.pages[g] >= 0 || In(i, g) in ops
    ensures var q := x.s.queue[x.s.slots[i].value];
      TrackedAll(p, x, ops, tick).s.queue[x.s.slots[i].value].pages[CurrentPage(p, q)] >= 0
  {
    hide JobsOk, FramesOk, SlotsOk, Quiet, Roomy, Tracked;
    if ops != [] {
      var j, before, op := x.s.slots[i].value, ops[..|ops| - 1], ops[|ops| - 1];
      var g, y := CurrentPage(p, x.s.queue[j]), TrackedAll(p, x, before, tick);
      InsKeepJob(p, x, before, tick, j);
      InKeepsJob(p, y.s, op, j);
      if x.s.queue[j].pages[g] >= 0 || In(i, g) in before {
        InsBringIn(p, x, before, tick, i);
      } else {
        NeededIsGranted(p, x, before, tick, i);
        assert op == In(i, g);
        GrantedIsIn(p, y.s, i, j);
      }
    }
  }

  lemma GrantedIsIn(p: Params, s: State, i: nat, j: nat)
    requires ParamsOk(p) && Inv(p, s) && i < p.procs && s.slots[i] == Some(j)
    requires PageIn(p, s, i, CurrentPage(p, s.queue[j])).1
    ensures PageIn(p, s, i, CurrentPage(p, s.queue[j])).0.queue[j].pages[CurrentPage(p, s.queue[j])] >= 0
  {
  }

  /** After a call the current page of every slot is in memory or coming, and no job was
      changed otherwise. */
  lemma CallServesAll(p: Params, knobs: Knobs, x: Joint, x': Joint, ops: seq<Op>, tick: int, c: Records,
                      j: nat)
    requires JointOk(p, x) && CallMade(p, knobs, x, x', ops, tick, c) && j < |x.s.queue|
    requires Quiet(p, x) && Roomy(p, knobs.freebuf)
    ensures JointOk(p, x') && |x'.s.queue| == |x.s.queue| && Kept(x.s.queue[j], x'.s.queue[j])
    ensures InFirst(x.s, p.procs, j) ==> x'.s.queue[j].pages[CurrentPage(p, x.s.queue[j])] >= 0
  {
    hide JobsOk, FramesOk, SlotsOk, CallMade, Quiet, Roomy, TrackedAll, OnlyIns, View, Expire, PcsFit, PageOf;
    var start := CallOnlyFetches(p, knobs, x, x', ops, tick, c);
    InsKeepJob(p, start, ops, tick, j);
    if InFirst(x.s, p.procs, j) {
      var i: nat :| i < p.procs && x.s.slots[i] == Some(j);
      InSlotIsShown(p, x.s, i);
      ShownPage(p, x.s, i);
      LessRoom(p, knobs.freebuf);
      InsBringIn(p, start, ops, tick, i);
    }
  }

  lemma InSlotIsShown(p: Params, s: State, i: nat)
    requires ParamsOk(p) && Inv(p, s) && i < p.procs && s.slots[i].Some?
    ensures View(p, s)[i].active
  {
    assert JobOk(p, s, s.slots[i].value) && InSlot(s, s.slots[i].value);
  }

  lemma LessRoom(p: Params, freebuf: nat)
    requires Roomy(p, freebuf)
    ensures Roomy(p, 0)
  {
  }

  // ---- rounds

  /** A call never raises a job's rank, and lowers it if the current page comes to be asked for. */
  lemma KeptRank(p: Params, q: Process, q': Process, left: nat)
    requires ParamsOk(p) && ProcessOk(p, q) && ProcessOk(p, q') && Kept(q, q') && Halts(q, left)
    ensures Halts(q', left) && JobRank(p, q', left) <= JobRank(p, q, left)
    ensures q.active && Delay(p, q) > p.wait && q'.pages[CurrentPage(p, q)] >= 0 ==>
      JobRank(p, q', left) < JobRank(p, q, left)
  {
  }

  /** A job whose current page has not been asked for is still in its slot after a tick. */
  lemma WaitingStays(p: Params, s: State, j: nat)
    requires ParamsOk(p) && Inv(p, s) && NoneLeaving(p, s) && j < |s.queue| && InFirst(s, p.procs, j)
    requires Delay(p, s.queue[j]) > p.wait
    ensures InFirst(Tick(p, s), p.procs, j) && Tick(p, s).queue[j].active && Delay(p, Tick(p, s).queue[j]) > p.wait
  {
    hide JobsOk, FramesOk, Tick;
    var i: nat :| i < p.procs && s.slots[i] == Some(j);
    InFirstIsInSlot(p, s, j);
    TickAt(p, s, i);
    assert Tick(p, s).slots[i] == Some(j);
  }

  lemma RoundKeepsQuiet(p: Params, knobs: Knobs, x: Joint, ops: seq<Op>, tick: int, c: Records)
    requires JointOk(p, x) && RoundMade(p, knobs, x, ops, tick, c) && Quiet(p, x) && Roomy(p, knobs.freebuf)
    ensures Quiet(p, JointRound(p, x, ops, tick))
  {
    hide JobsOk, FramesOk, SlotsOk, CallMade, Roomy, Tick, JointRound, Quiet, OnlyIns, View, Expire, PcsFit, TrackedAll;
    var x' := JointRound(p, x, ops, tick);
    TickKeepsQuiet(p, x);
    var start := CallOnlyFetches(p, knobs, Ticked(p, x), x', ops, tick, c);
    InsKeepQuiet(p, start, ops, tick);
  }

  /** A round lowers the rank of every job that was in a slot. */
  lemma RoundUsesJobRank(p: Params, knobs: Knobs, x: Joint, ops: seq<Op>, tick: int, c: Records, lefts: seq<nat>,
                         j: nat)
    requires JointOk(p, x) && RoundMade(p, knobs, x, ops, tick, c) && Quiet(p, x) && Roomy(p, knobs.freebuf)
    requires AllHalt(p, x.s, lefts) && j < |x.s.queue|
    ensures var q, q', left' := x.s.queue[j], JointRound(p, x, ops, tick).s.queue[j], LeftsAfter(p, x.s, lefts)[j];
      && Halts(q', left') && JobRank(p, q', left') <= JobRank(p, q, lefts[j])
      && (InFirst(x.s, p.procs, j) ==> JobRank(p, q', left') < JobRank(p, q, lefts[j]))
  {
    hide JobsOk, FramesOk, SlotsOk, CallMade, Roomy, Tick, JointRound, JobRank, Delay, NoneLeaving, UnusedIdle, Halts,
         LeftsAfter, Kept;
    var x1, x', left' := Ticked(p, x), JointRound(p, x, ops, tick), LeftsAfter(p, x.s, lefts)[j];
    TickUsesJobRank(p, x.s, lefts, j);
    TickKeepsQuiet(p, x);
    CallServesAll(p, knobs, x1, x', ops, tick, c, j);
    KeptRank(p, x1.s.queue[j], x'.s.queue[j], left');
    if InFirst(x.s, p.procs, j) && Delay(p, x.s.queue[j]) > p.wait {
      WaitingStays(p, x.s, j);
    }
  }

  /** As long as a slot has a job, a round lowers the rank of the state. */
  lemma RoundUsesRank(p: Params, knobs: Knobs, x: Joint, ops: seq<Op>, tick: int, c: Records, lefts: seq<nat>)
    requires JointOk(p, x) && RoundMade(p, knobs, x, ops, tick, c) && Quiet(p, x) && Roomy(p, knobs.freebuf)
    requires AllHalt(p, x.s, lefts)
    ensures var x', lefts' := JointRound(p, x, ops, tick), LeftsAfter(p, x.s, lefts);
      && Quiet(p, x') && AllHalt(p, x'.s, lefts')
      && Rank(p, x'.s, lefts') <= Rank(p, x.s, lefts)
      && (!AllDone(p, x.s) ==> Rank(p, x'.s, lefts') < Rank(p, x.s, lefts))
  {
    hide JobsOk, FramesOk, SlotsOk, RoundMade, Roomy, JointRound, JobRank, Quiet, Halts, LeftsAfter;
    var x', lefts' := JointRound(p, x, ops, tick), LeftsAfter(p, x.s, lefts);
    RoundKeepsQuiet(p, knobs, x, ops, tick, c);
    var ranks, ranks' := Ranks(p, x.s, lefts), Ranks(p, x'.s, lefts');
    forall j: nat | j < |x.s.queue|
      ensures Halts(x'.s.queue[j], lefts'[j]) && Same(ranks'[j]) <= Same(ranks[j])
    {
      RoundUsesJobRank(p, knobs, x, ops, tick, c, lefts, j);
    }
    if i: nat :| i < p.procs && x.s.slots[i].Some? {
      var j := x.s.slots[i].value;
      assert InFirst(x.s, p.procs, j);
      RoundUsesJobRank(p, knobs, x, ops, tick, c, lefts, j);
      assert Same(ranks'[j]) < Same(ranks[j]);
    }
    SumOfLe(ranks', Same, ranks, Same);
  }

  lemma RankZero(p: Params, s: State, lefts: seq<nat>)
    requires ParamsOk(p) && Inv(p, s) && AllHalt(p, s, lefts)
    ensures Rank(p, s, lefts) == 0 <==> AllDone(p, s)
  {
    hide JobsOk, FramesOk, SlotsOk, Halts;
    SumOfZero(Ranks(p, s, lefts), Same);
    if Rank(p, s, lefts) == 0 {
      forall i: nat | i < p.procs && s.slots[i].Some? ensures !s.queue[s.slots[i].value].active {
        assert Ranks(p, s, lefts)[s.slots[i].value] == 0;
      }
    }
    if AllDone(p, s) {
      EndOfRun(p, s);
    }
  }

  /** Every round of a run lowers the rank by one at least, until all jobs are done. */
  lemma {:induction false} RunUsesRank(p: Params, knobs: Knobs, x0: Joint, opss: seq<seq<Op>>,
                                         recs: seq<Records>, times: seq<nat>)
    returns (lefts: seq<nat>)
    requires JointOk(p, x0) && PagerRun(p, knobs, x0, opss, recs) && Quiet(p, x0) && Roomy(p, knobs.freebuf)
    requires AllHalt(p, x0.s, times)
    ensures var x := JointRun(p, x0, opss);
      Quiet(p, x) && AllHalt(p, x.s, lefts) && Rank(p, x.s, lefts) <= Diff(Rank(p, x0.s, times), |opss|)
  {
    hide SlotsOk, JobsOk, FramesOk, RoundMade, Roomy, Quiet, Halts, Rank, JointRound, LeftsAfter, AllDone;
    if opss == [] {
      lefts := times;
    } else {
      var before, n := opss[..|opss| - 1], |opss|;
      lefts := RunUsesRank(p, knobs, x0, before, recs[..n - 1], times);
      var x := JointRun(p, x0, before);
      RoundUsesRank(p, knobs, x, opss[n - 1], n, recs[n - 1], lefts);
      RankZero(p, x.s, lefts);
      lefts := LeftsAfter(p, x.s, lefts);
    }
  }

  function Diff(a: int, b: int): int { if a <= b then 0 else a - b }

  /** With room for the pages of all processors' jobs, and the reserve besides, the main loop
      with the predictive pager ends: after wait + 2 rounds for every compute tick the jobs need
      when they run alone, whatever the pager fetched ahead, all are done. */
  lemma EndsWithRoom(p: Params, knobs: Knobs, jobs: seq<Process>, opss: seq<seq<Op>>, recs: seq<Records>,
                     times: seq<nat>)
    requires ParamsOk(p) && forall j :: 0 <= j < |jobs| ==> FreshJob(p, jobs[j])
    requires p.frames >= p.procs * p.npages + knobs.freebuf
    requires |times| == |jobs| && forall j :: 0 <= j < |jobs| ==> HaltsAlone(p, jobs[j], times[j])
    requires PagerRun(p, knobs, JointInit(p, jobs), opss, recs)
    ensures |opss| >= Bound(p, times) ==> AllDone(p, JointRun(p, JointInit(p, jobs), opss).s)
  {
    hide SlotsOk, JobsOk, FramesOk, PagerRun, JointRun, Rank, Bound, AllDone, Roomy;
    StartsQuiet(p, jobs);
    InitialRank(p, jobs, times, p.wait + 2);
    RoomIsProduct(p, knobs.freebuf);
    var lefts := RunUsesRank(p, knobs, JointInit(p, jobs), opss, recs, times);
    RankZero(p, JointRun(p, JointInit(p, jobs), opss).s, lefts);
  }

  lemma RoomIsProduct(p: Params, freebuf: nat)
    requires p.frames >= p.procs * p.npages + freebuf
    ensures Roomy(p, freebuf)
  {
    Programs.TimesIsProduct(p.procs, p.npages);
  }

  lemma StartsQuiet(p: Params, jobs: seq<Process>)
    requires ParamsOk(p) && forall j :: 0 <= j < |jobs| ==> FreshJob(p, jobs[j])
    ensures Quiet(p, JointInit(p, jobs))
  {
    hide SlotsOk, JobsOk, FramesOk;
  }
}
