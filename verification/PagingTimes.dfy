/** How long paging takes, and that the predictive pager awaits exactly what is under way. */
module PagingTimes {
  import opened Paging
  import opened RoundEffects
  import opened Shadow
  import opened Sums

  /** The job in slot i has page g, coming in or going out. */
  predicate UnderWay(p: Params, v: int) { v != 0 && v >= -p.wait }

  /** Ticks until page state v is final. */
  function TicksLeft(p: Params, v: int): int { if v > 0 then v else p.wait + 1 + v }

  // ---- one round

  /** A job that is in slot i after a tick, and was loaded before it, was there before it. */
  lemma TickOfKeptSlot(p: Params, s: State, i: nat)
    requires ParamsOk(p) && Inv(p, s) && i < p.slots && Tick(p, s).slots[i].Some?
    requires Tick(p, s).slots[i].value < s.next
    ensures s.slots[i] == Tick(p, s).slots[i]
    ensures var j := s.slots[i].value; forall g: nat :: g < p.npages ==>
      Tick(p, s).queue[j].pages[g] == AgePage(p.wait, s.queue[j].pages[g])
  {
    hide JobsOk, FramesOk, Tick, AgePage;
    if i < p.procs {
      TickAt(p, s, i);
    }
  }

  /** Requests do not touch a page that is under way. */
  lemma RequestLeavesPage(p: Params, s: State, op: Op, j: nat, g: nat)
    requires ParamsOk(p) && Inv(p, s) && j < |s.queue| && g < p.npages && UnderWay(p, s.queue[j].pages[g])
    ensures Apply(p, s, op).queue[j].pages[g] == s.queue[j].pages[g]
  {
    hide SlotsOk, JobsOk, FramesOk;
  }

  lemma {:induction false} RequestsLeavePage(p: Params, s: State, ops: seq<Op>, j: nat, g: nat)
    requires ParamsOk(p) && Inv(p, s) && j < |s.queue| && g < p.npages && UnderWay(p, s.queue[j].pages[g])
    ensures ApplyAll(p, s, ops).queue[j].pages[g] == s.queue[j].pages[g]
  {
    hide SlotsOk, JobsOk, FramesOk, Apply, UnderWay;
    if ops != [] {
      RequestsLeavePage(p, s, ops[..|ops| - 1], j, g);
      RequestLeavesPage(p, ApplyAll(p, s, ops[..|ops| - 1]), ops[|ops| - 1], j, g);
    }
  }

  // ---- runs

  /** The job in slot i at the start is there after each round. */
  predicate KeepsSlot(p: Params, s: State, opss: seq<seq<Op>>, i: nat)
    requires ParamsOk(p) && Inv(p, s) && i < p.slots
  {
    && Run(p, s, opss).slots[i] == s.slots[i]
    && (opss == [] || KeepsSlot(p, s, opss[..|opss| - 1], i))
  }

  lemma JobWasLoaded(p: Params, s: State, i: nat)
    requires ParamsOk(p) && Inv(p, s) && i < p.slots && s.slots[i].Some?
    ensures s.slots[i].value < s.next
  {
  }

  /** What one round does to a page under way, whatever is requested in it. */
  lemma RoundOfPage(p: Params, s: State, ops: seq<Op>, i: nat, g: nat)
    requires ParamsOk(p) && Inv(p, s) && i < p.slots && g < p.npages && s.slots[i].Some?
    requires Round(p, s, ops).slots[i] == s.slots[i]
    requires UnderWay(p, s.queue[s.slots[i].value].pages[g])
    requires TicksLeft(p, s.queue[s.slots[i].value].pages[g]) > 1
    ensures var j := s.slots[i].value;
      Round(p, s, ops).queue[j].pages[g] == s.queue[j].pages[g] - 1
  {
    hide SlotsOk, JobsOk, FramesOk, AllStep, AllAge, ApplyAll;
    JobWasLoaded(p, s, i);
    TickOfKeptSlot(p, s, i);
    RequestsLeavePage(p, Tick(p, s), ops, s.slots[i].value, g);
  }

  /** The state of page g of the job that was in slot i at the start: after the rounds, and
      after the tick that comes next. */
  function PageAfter(p: Params, s: State, opss: seq<seq<Op>>, i: nat, g: nat): int
    requires ParamsOk(p) && Inv(p, s) && i < p.slots && g < p.npages && s.slots[i].Some?
  {
    Run(p, s, opss).queue[s.slots[i].value].pages[g]
  }

  function PageNext(p: Params, s: State, opss: seq<seq<Op>>, i: nat, g: nat): int
    requires ParamsOk(p) && Inv(p, s) && i < p.slots && g < p.npages && s.slots[i].Some?
  {
    Tick(p, Run(p, s, opss)).queue[s.slots[i].value].pages[g]
  }

  predicate StaysNext(p: Params, s: State, opss: seq<seq<Op>>, i: nat)
    requires ParamsOk(p) && Inv(p, s) && i < p.slots
  {
    Tick(p, Run(p, s, opss)).slots[i] == s.slots[i]
  }

  lemma {:induction false} StillUnderWay(p: Params, s: State, opss: seq<seq<Op>>, i: nat, g: nat)
    requires ParamsOk(p) && Inv(p, s) && i < p.slots && g < p.npages && s.slots[i].Some? && KeepsSlot(p, s, opss, i)
    requires UnderWay(p, PageAfter(p, s, [], i, g)) && |opss| < TicksLeft(p, PageAfter(p, s, [], i, g))
    ensures PageAfter(p, s, opss, i, g) == PageAfter(p, s, [], i, g) - |opss|
  {
    hide SlotsOk, JobsOk, FramesOk, Round;
    if opss != [] {
      StillUnderWay(p, s, opss[..|opss| - 1], i, g);
      RoundOfPage(p, Run(p, s, opss[..|opss| - 1]), opss[|opss| - 1], i, g);
    }
  }

  /** Leaving takes wait ticks, whatever any pager asks for meanwhile: n < wait ticks after its
      eviction a page is in state -1 - n and its frame is in use, and the next tick after
      wait - 1 of them puts it out and frees the frame. */
  lemma LeavingTakesWait(p: Params, s: State, opss: seq<seq<Op>>, i: nat, g: nat)
    requires ParamsOk(p) && Inv(p, s) && i < p.slots && g < p.npages && s.slots[i].Some? && KeepsSlot(p, s, opss, i)
    requires s.queue[s.slots[i].value].pages[g] == -1 && |opss| < p.wait
    ensures PageAfter(p, s, opss, i, g) == -1 - |opss| && HeldFlag(p.wait)(PageAfter(p, s, opss, i, g)) == 1
    ensures |opss| == p.wait - 1 && StaysNext(p, s, opss, i) ==>
      PageNext(p, s, opss, i, g) == -p.wait - 1 && HeldFlag(p.wait)(PageNext(p, s, opss, i, g)) == 0
  {
    hide SlotsOk, JobsOk, FramesOk, KeepsSlot;
    StillUnderWay(p, s, opss, i, g);
    LastTick(p, s, opss, i, g);
  }

  /** So does coming in. */
  lemma ComingTakesWait(p: Params, s: State, opss: seq<seq<Op>>, i: nat, g: nat)
    requires ParamsOk(p) && Inv(p, s) && i < p.slots && g < p.npages && s.slots[i].Some? && KeepsSlot(p, s, opss, i)
    requires s.queue[s.slots[i].value].pages[g] == p.wait && |opss| < p.wait
    ensures PageAfter(p, s, opss, i, g) == p.wait - |opss| > 0
    ensures |opss| == p.wait - 1 && StaysNext(p, s, opss, i) ==> PageNext(p, s, opss, i, g) == 0
  {
    hide SlotsOk, JobsOk, FramesOk, KeepsSlot;
    StillUnderWay(p, s, opss, i, g);
    LastTick(p, s, opss, i, g);
  }

  lemma LastTick(p: Params, s: State, opss: seq<seq<Op>>, i: nat, g: nat)
    requires ParamsOk(p) && Inv(p, s) && i < p.slots && g < p.npages && s.slots[i].Some? && KeepsSlot(p, s, opss, i)
    ensures StaysNext(p, s, opss, i) ==>
      PageNext(p, s, opss, i, g) == AgePage(p.wait, PageAfter(p, s, opss, i, g))
  {
    hide SlotsOk, JobsOk, FramesOk, Run, Tick, AgePage;
    JobWasLoaded(p, Run(p, s, opss), i);
    if StaysNext(p, s, opss, i) {
      TickOfKeptSlot(p, Run(p, s, opss), i);
    }
  }

  // ---- what the predictive pager awaits

  /** The state of page g of the job in slot i. */
  function SlotPage(p: Params, s: State, i: nat, g: nat): int
    requires Shape(p, s) && i < p.slots && g < p.npages
  {
    match s.slots[i]
    case None => 0
    case Some(j) => s.queue[j].pages[g]
  }

  /** The tracker's entry against the page it is about. `since[t]` is the job that was in the
      slot after round t, `here` the one there now. While a page-out noted for this job is
      awaited, the page is going out and will be out exactly when it says; while a page-in is,
      the page is in or coming; and what is under way is awaited for this job. */
  predicate EntryTracks(p: Params, here: Option<nat>, v: int, e: Track, tick: int, since: seq<Option<nat>>) {
    && (e.waiting ==>
         && 0 <= e.start < |since| && e.start <= tick < e.end == e.start + p.wait
         && (here.Some? && since[e.start] == here ==>
              if e.pagein == 0 then v == e.end - tick - p.wait - 1 else 0 <= v <= e.end - tick))
    && (here.Some? && UnderWay(p, v) ==>
         e.waiting && e.start < |since| && since[e.start] == here && (e.pagein == 0 <==> v < 0))
  }

  predicate Tracks(p: Params, x: Joint, tick: nat, since: seq<Option<nat>>, i: nat, g: nat)
    requires JointOk(p, x) && i < p.slots && g < p.npages
  {
    && |since| == tick + 1 && since[tick] == x.s.slots[i]
    && (forall t :: 0 <= t < |since| && since[t].Some? ==> since[t].value < x.s.next)
    && EntryTracks(p, x.s.slots[i], SlotPage(p, x.s, i, g), x.w[i][g], tick, since)
  }

  lemma TickKeepsLoaded(p: Params, s: State)
    requires ParamsOk(p) && Inv(p, s)
    ensures s.next <= Tick(p, s).next
  {
  }

  lemma VacatedPage(p: Params, s: State, i: nat, g: nat)
    requires ParamsOk(p) && Inv(p, s) && i < p.slots && g < p.npages && Tick(p, s).slots[i].Some?
    ensures Tick(p, s).slots[i].value < s.next || SlotPage(p, Tick(p, s), i, g) == -p.wait - 1
  {
    hide JobsOk, FramesOk, Tick;
    if i < p.procs {
      TickAt(p, s, i);
    }
  }

  lemma TickTracks(p: Params, x: Joint, tick: nat, since: seq<Option<nat>>, i: nat, g: nat)
    requires JointOk(p, x) && i < p.slots && g < p.npages && Tracks(p, x, tick, since, i, g)
    ensures var y := Noted(p, x, tick + 1); Tracks(p, y, tick + 1, since + [y.s.slots[i]], i, g)
  {
    hide JobsOk, FramesOk, Tick;
    var y := Noted(p, x, tick + 1);
    TickKeepsLoaded(p, x.s);
    if y.s.slots[i].Some? {
      if y.s.slots[i].value < x.s.next {
        TickOfKeptSlot(p, x.s, i);
      } else {
        VacatedPage(p, x.s, i, g);
      }
    }
  }

  lemma RequestTracks(p: Params, x: Joint, op: Op, tick: nat, since: seq<Option<nat>>, i: nat, g: nat)
    requires JointOk(p, x) && Legal(p, x, op) && i < p.slots && g < p.npages && Tracks(p, x, tick, since, i, g)
    ensures Tracks(p, Tracked(p, x, op, tick), tick, since, i, g)
  {
    hide JobsOk, FramesOk;
    if i != op.slot {
      RequestIsLocal(p, x, op, tick, i);
    }
  }

  lemma {:induction false} RequestsTrack(p: Params, x: Joint, ops: seq<Op>, tick: nat, since: seq<Option<nat>>,
                                         i: nat, g: nat)
    requires JointOk(p, x) && LegalAll(p, x, ops, tick) && i < p.slots && g < p.npages
    requires Tracks(p, x, tick, since, i, g)
    ensures Tracks(p, TrackedAll(p, x, ops, tick), tick, since, i, g)
  {
    hide Inv, Tracks, Tracked, Legal;
    if ops != [] {
      RequestsTrack(p, x, ops[..|ops| - 1], tick, since, i, g);
      RequestTracks(p, TrackedAll(p, x, ops[..|ops| - 1], tick), ops[|ops| - 1], tick, since, i, g);
    }
  }

  /** The jobs in slot i at the start and after each round. */
  function Since(p: Params, x: Joint, opss: seq<seq<Op>>, i: nat): (since: seq<Option<nat>>)
    requires JointOk(p, x) && i < p.slots
    ensures |since| == |opss| + 1
  {
    (if opss == [] then [] else Since(p, x, opss[..|opss| - 1], i)) + [JointRun(p, x, opss).s.slots[i]]
  }

  lemma {:induction false} RunTracks(p: Params, x: Joint, opss: seq<seq<Op>>, i: nat, g: nat)
    requires JointOk(p, x) && LegalRun(p, x, opss) && i < p.slots && g < p.npages
    requires Tracks(p, x, 0, [x.s.slots[i]], i, g)
    ensures Tracks(p, JointRun(p, x, opss), |opss|, Since(p, x, opss, i), i, g)
  {
    hide SlotsOk, JobsOk, FramesOk, Tracks, LegalAll, TrackedAll, Noted;
    if opss == [] {
      assert Since(p, x, opss, i) == [x.s.slots[i]];
    } else {
      var before, n := opss[..|opss| - 1], |opss|;
      var y := JointRun(p, x, before);
      RunTracks(p, x, before, i, g);
      TickTracks(p, y, n - 1, Since(p, x, before, i), i, g);
      RequestsTrack(p, Noted(p, y, n), opss[n - 1], n, Since(p, x, before, i) + [Noted(p, y, n).s.slots[i]], i, g);
    }
  }

  /** The shadow is exact for the job an operation was noted for: after every call of every run,
      a page-out noted at tick e.start for the job still in the slot is awaited for exactly as
      long as the page is going out, and a page-in while the page is in or coming; and whatever
      is under way is awaited for the job in the slot. */
  lemma AwaitedIsUnderWay(p: Params, jobs: seq<Process>, opss: seq<seq<Op>>, i: nat, g: nat)
    requires ParamsOk(p) && forall j :: 0 <= j < |jobs| ==> FreshJob(p, jobs[j])
    requires LegalRun(p, JointInit(p, jobs), opss) && i < p.slots && g < p.npages
    ensures var x, since := JointRun(p, JointInit(p, jobs), opss), Since(p, JointInit(p, jobs), opss, i);
      EntryTracks(p, x.s.slots[i], SlotPage(p, x.s, i, g), x.w[i][g], |opss|, since)
  {
    hide SlotsOk, JobsOk, FramesOk, JointRun, LegalRun, Since;
    StartTracks(p, jobs, i, g);
    RunTracks(p, JointInit(p, jobs), opss, i, g);
  }

  lemma StartTracks(p: Params, jobs: seq<Process>, i: nat, g: nat)
    requires ParamsOk(p) && forall j :: 0 <= j < |jobs| ==> FreshJob(p, jobs[j])
    requires i < p.slots && g < p.npages
    ensures Tracks(p, JointInit(p, jobs), 0, [JointInit(p, jobs).s.slots[i]], i, g)
  {
  }
}
