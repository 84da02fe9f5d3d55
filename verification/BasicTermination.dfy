/** The main loop ends under the basic pager. */
module BasicTermination {
  // If each job's program reaches an exit when it runs alone, all jobs are done after a number
  // of rounds known before the run starts.

  import opened Independence
  import opened JobEffects
  import opened PagerBasic
  import opened Paging
  import opened Programs
  import opened RoundEffects
  import opened Sums
  import S = Simulator

  // ---- the rank of a job

  /** Ticks until the current page is in, if it is requested at the next opportunity. */
  function Delay(p: Params, q: Process): (d: int)
    requires ParamsOk(p) && ProcessOk(p, q)
    ensures 0 <= d <= p.wait + 1
  {
    var v := q.pages[CurrentPage(p, q)];
    if v >= 0 then v else p.wait + 1
  }

  /** `left` compute ticks remain until the job finds its exit. */
  predicate Halts(q: Process, left: nat)
    requires ProgramOk(q.program) && CoreOk(q.program, q.core)
  {
    q.active ==> ExitsAt(q.program, q.core, left)
  }

  /** Rounds the job may still need: for each remaining compute tick a fault at worst. */
  function JobRank(p: Params, q: Process, left: nat): (r: nat)
    requires ParamsOk(p) && ProcessOk(p, q)
    ensures q.active ==> r >= 1
  {
    if !q.active then 0 else Times(if left == 0 then 0 else left - 1, p.wait + 2) + Delay(p, q) + 1
  }

  function LeftAfter(p: Params, q: Process, left: nat): nat
    requires ParamsOk(p) && ProcessOk(p, q)
  {
    if q.active && q.pages[CurrentPage(p, q)] == 0 && left > 0 then left - 1 else left
  }

  /** A step and a tick of aging use up a round, unless the current page has not been asked
      for yet. */
  lemma TickUsesRank(p: Params, q: Process, left: nat)
    requires ParamsOk(p) && ProcessOk(p, q) && Halts(q, left)
    ensures var q', left' := AgeProcess(p, Stepped(p, q)), LeftAfter(p, q, left);
      && Halts(q', left')
      && JobRank(p, q', left') <= JobRank(p, q, left)
      && (q.active && Delay(p, q) <= p.wait ==> JobRank(p, q', left') < JobRank(p, q, left))
  {
    var q', left' := AgeProcess(p, Stepped(p, q)), LeftAfter(p, q, left);
    if q.active && q.pages[CurrentPage(p, q)] == 0 && q'.active {
      assert left >= 2;
      assert Times(left - 1, p.wait + 2) == p.wait + 2 + Times(left - 2, p.wait + 2);
    }
  }

  /** A job that has not begun, or is done, is not changed by aging. */
  lemma AgingKeepsRank(p: Params, q: Process, left: nat)
    requires ParamsOk(p) && ProcessOk(p, q) && Halts(q, left) && (q.active ==> AllOut(p, q))
    ensures Halts(AgeProcess(p, q), left) && JobRank(p, AgeProcess(p, q), left) == JobRank(p, q, left)
  {
  }

  // ---- the rank of a state

  predicate AllHalt(p: Params, s: State, lefts: seq<nat>)
    requires ParamsOk(p) && Inv(p, s)
  {
    |lefts| == |s.queue| && forall j :: 0 <= j < |s.queue| ==> Halts(s.queue[j], lefts[j])
  }

  function Ranks(p: Params, s: State, lefts: seq<nat>): (ranks: seq<int>)
    requires ParamsOk(p) && Inv(p, s) && |lefts| == |s.queue|
    ensures |ranks| == |s.queue|
  {
    seq(|s.queue|, j requires 0 <= j < |s.queue| => JobRank(p, s.queue[j], lefts[j]))
  }

  function Rank(p: Params, s: State, lefts: seq<nat>): (r: int)
    requires ParamsOk(p) && Inv(p, s) && |lefts| == |s.queue|
    ensures r >= 0
  {
    SumOfNonNegative(Ranks(p, s, lefts), Same);
    SumOf(Ranks(p, s, lefts), Same)
  }

  function LeftsAfter(p: Params, s: State, lefts: seq<nat>): (r: seq<nat>)
    requires ParamsOk(p) && Inv(p, s) && |lefts| == |s.queue|
    ensures |r| == |lefts|
  {
    seq(|lefts|, j requires 0 <= j < |lefts| =>
      if InFirst(s, p.procs, j) then LeftAfter(p, s.queue[j], lefts[j]) else lefts[j])
  }

  /** A tick never raises a job's rank, and lowers that of a job in a slot whose current page
      has been asked for. */
  lemma TickUsesJobRank(p: Params, s: State, lefts: seq<nat>, j: nat)
    requires ParamsOk(p) && Inv(p, s) && AllHalt(p, s, lefts) && j < |s.queue|
    ensures var q, q', left' := s.queue[j], Tick(p, s).queue[j], LeftsAfter(p, s, lefts)[j];
      && Halts(q', left') && JobRank(p, q', left') <= JobRank(p, q, lefts[j])
      && (InFirst(s, p.procs, j) && Delay(p, q) <= p.wait ==> JobRank(p, q', left') < JobRank(p, q, lefts[j]))
  {
    hide JobsOk, FramesOk, Tick;
    assert Halts(s.queue[j], lefts[j]);
    if InFirst(s, p.procs, j) {
      TickOfJobInSlot(p, s, j);
      TickUsesRank(p, s.queue[j], lefts[j]);
      InFirstIsInSlot(p, s, j);
    } else {
      TickOfOtherJob(p, s, j);
      AgingKeepsRank(p, s.queue[j], lefts[j]);
    }
  }

  /** The pager's request lowers the rank of the first job if its page was not yet asked for,
      and leaves everything else as it is. */
  lemma ServeUsesJobRank(p: Params, s: State, l: nat, j: nat, left: nat)
    requires BasicInv(p, s) && Lowest(p, s, l) && p.frames >= p.npages && j < |s.queue| && Halts(s.queue[j], left)
    ensures var q, q' := s.queue[j], Serve(p, s, l).queue[j];
      && Halts(q', left) && JobRank(p, q', left) <= JobRank(p, q, left)
      && (s.slots[l] == Some(j) && Delay(p, q) > p.wait ==> JobRank(p, q', left) < JobRank(p, q, left))
  {
    hide JobsOk, FramesOk, SlotsOk;
    LowestIsServed(p, s, l);
    LowestHoldsAll(p, s, l);
  }

  lemma ScanUsesJobRank(p: Params, s: State, j: nat, left: nat)
    requires BasicInv(p, s) && p.frames >= p.npages && j < |s.queue| && Halts(s.queue[j], left)
    ensures var q, q' := s.queue[j], Scan(p, s, 0).queue[j];
      && Halts(q', left) && JobRank(p, q', left) <= JobRank(p, q, left)
      && (forall l: nat :: Lowest(p, s, l) && s.slots[l] == Some(j) && Delay(p, q) > p.wait ==>
           JobRank(p, q', left) < JobRank(p, q, left))
  {
    hide JobsOk, FramesOk, SlotsOk, OnlyLowestHolds, NoneLeaving, JobRank;
    var l := FindLowest(p, s);
    if l < p.slots {
      ScanServesLowest(p, s, l);
      ServeUsesJobRank(p, s, l, j, left);
    } else {
      ScanSkips(p, s, 0, l);
    }
  }

  /** A job in the first slot whose page has not been asked for is there after the tick. */
  lemma WaitingJobStays(p: Params, s: State, l: nat, j: nat)
    requires BasicInv(p, s) && Lowest(p, s, l) && s.slots[l] == Some(j) && Delay(p, s.queue[j]) > p.wait
    ensures Lowest(p, Tick(p, s), l) && Tick(p, s).slots[l] == Some(j) && Delay(p, Tick(p, s).queue[j]) > p.wait
  {
    hide JobsOk, FramesOk, Tick;
    TickAt(p, s, l);
    LowestHoldsAll(p, s, l);
    forall i: nat | i < l ensures Tick(p, s).slots[i].None? {
      TickAt(p, s, i);
    }
  }

  lemma RoundUsesJobRank(p: Params, s: State, lefts: seq<nat>, j: nat)
    requires BasicInv(p, s) && AllHalt(p, s, lefts) && p.frames >= p.npages && j < |s.queue|
    ensures var q, q', left' := s.queue[j], BasicRound(p, s).queue[j], LeftsAfter(p, s, lefts)[j];
      && Halts(q', left') && JobRank(p, q', left') <= JobRank(p, q, lefts[j])
      && (forall l: nat :: Lowest(p, s, l) && s.slots[l] == Some(j) ==>
           JobRank(p, q', left') < JobRank(p, q, lefts[j]))
  {
    hide JobsOk, FramesOk, OnlyLowestHolds, NoneLeaving, Tick, Scan, Halts, JobRank, Delay;
    TickUsesJobRank(p, s, lefts, j);
    TickKeepsBasicInv(p, s);
    ScanUsesJobRank(p, Tick(p, s), j, LeftsAfter(p, s, lefts)[j]);
    forall l: nat | Lowest(p, s, l) && s.slots[l] == Some(j)
      ensures JobRank(p, BasicRound(p, s).queue[j], LeftsAfter(p, s, lefts)[j]) < JobRank(p, s.queue[j], lefts[j])
    {
      assert InFirst(s, p.procs, j);
      if Delay(p, s.queue[j]) > p.wait {
        WaitingJobStays(p, s, l, j);
      }
    }
  }

  /** As long as a slot has a job, a round lowers the rank. */
  lemma RoundUsesRank(p: Params, s: State, lefts: seq<nat>)
    requires BasicInv(p, s) && AllHalt(p, s, lefts) && p.frames >= p.npages
    ensures AllHalt(p, BasicRound(p, s), LeftsAfter(p, s, lefts))
    ensures !AllDone(p, s) ==> Rank(p, BasicRound(p, s), LeftsAfter(p, s, lefts)) < Rank(p, s, lefts)
  {
    hide JobsOk, FramesOk, OnlyLowestHolds, NoneLeaving, BasicRound, JobRank, LeftsAfter;
    var r, lefts' := BasicRound(p, s), LeftsAfter(p, s, lefts);
    forall j: nat | j < |s.queue|
      ensures Halts(r.queue[j], lefts'[j]) && Ranks(p, r, lefts')[j] <= Ranks(p, s, lefts)[j]
    {
      RoundUsesJobRank(p, s, lefts, j);
    }
    if !AllDone(p, s) {
      var l := FindLowest(p, s);
      var j := s.slots[l].value;
      RoundUsesJobRank(p, s, lefts, j);
      assert Same(Ranks(p, r, lefts')[j]) < Same(Ranks(p, s, lefts)[j]);
      SumOfLe(Ranks(p, r, lefts'), Same, Ranks(p, s, lefts), Same);
    }
  }

  /** From any reachable state the run is over after at most `Rank` further rounds. */
  lemma {:induction false} RunIsOver(p: Params, s: State, lefts: seq<nat>, n: nat) returns (m: nat)
    requires BasicInv(p, s) && AllHalt(p, s, lefts) && p.frames >= p.npages && n == Rank(p, s, lefts)
    ensures m <= n && AllDone(p, BasicRun(p, s, m))
    decreases n
  {
    hide SlotsOk, JobsOk, FramesOk, ProcessesOk, OnlyLowestHolds, NoneLeaving, BasicRound, Rank, LeftsAfter, AllDone;
    if AllDone(p, s) {
      m := 0;
    } else {
      RoundUsesRank(p, s, lefts);
      RoundKeepsBasicInv(p, s);
      m := RunIsOver(p, BasicRound(p, s), LeftsAfter(p, s, lefts), Rank(p, BasicRound(p, s), LeftsAfter(p, s, lefts)));
      RunFromNext(p, s, m);
      m := m + 1;
    }
  }

  lemma {:induction false} RunFromNext(p: Params, s: State, m: nat)
    requires ParamsOk(p) && Inv(p, s)
    ensures BasicRun(p, s, m + 1) == BasicRun(p, BasicRound(p, s), m)
  {
    hide Inv, BasicRound;
    if m > 0 {
      RunFromNext(p, s, m - 1);
    }
  }

  lemma RankAtStart(p: Params, q: Process, time: nat)
    requires ParamsOk(p) && HaltsAlone(p, q, time)
    ensures JobRank(p, q, time) == Times(time, p.wait + 2)
  {
  }

  /** wait + 2 rounds for every compute tick. */
  function Bound(p: Params, times: seq<int>): int { (p.wait + 2) * SumOf(times, Same) }

  /** The basic pager's main loop ends: within wait + 2 rounds for every compute tick the jobs
      need when they run alone, whatever the number of slots and frames. */
  lemma EndsUnderBasicPager(p: Params, jobs: seq<Process>, times: seq<nat>) returns (rounds: nat)
    requires ParamsOk(p) && p.frames >= p.npages
    requires |times| == |jobs| && forall j :: 0 <= j < |jobs| ==> HaltsAlone(p, jobs[j], times[j])
    ensures Inv(p, Init(p, jobs)) && rounds <= Bound(p, times)
    ensures AllDone(p, BasicRun(p, Init(p, jobs), rounds))
  {
    hide Bound, JobsOk, SlotsOk, FramesOk, AllDone, Rank, BasicRun;
    InitialRank(p, jobs, times, p.wait + 2);
    StartsBasic(p, jobs);
    rounds := RunIsOver(p, Init(p, jobs), times, Rank(p, Init(p, jobs), times));
  }

  lemma InitialRank(p: Params, jobs: seq<Process>, times: seq<nat>, c: nat)
    requires ParamsOk(p) && c == p.wait + 2
    requires |times| == |jobs| && forall j :: 0 <= j < |jobs| ==> HaltsAlone(p, jobs[j], times[j])
    ensures Inv(p, Init(p, jobs)) && AllHalt(p, Init(p, jobs), times)
    ensures Rank(p, Init(p, jobs), times) == Bound(p, times)
  {
    hide SlotsOk, JobsOk, FramesOk, JobRank;
    InitOk(p, jobs);
    var ranks := Ranks(p, Init(p, jobs), times);
    forall j: nat | j < |jobs| ensures ranks[j] == Times(times[j], c) {
      RankAtStart(p, jobs[j], times[j]);
    }
    SumOfScaled(ranks, times, c);
  }

  lemma {:induction false} SumOfScaled(ranks: seq<int>, times: seq<int>, c: nat)
    requires |ranks| == |times|
    requires forall j :: 0 <= j < |ranks| ==> times[j] >= 0 && ranks[j] == Times(times[j], c)
    ensures SumOf(ranks, Same) == c * SumOf(times, Same)
  {
    if ranks != [] {
      SumOfScaled(ranks[1..], times[1..], c);
      TimesIsProduct(times[0], c);
      Distribute(c, times[0], SumOf(times[1..], Same));
    }
  }

  lemma Distribute(c: int, a: int, b: int)
    ensures c * (a + b) == a * c + c * b
  {
  }

  /** The main loop with the basic pager. It terminates, because every round lowers the rank;
      and when it does, all jobs have reached an exit and all frames are free. */
  method Simulate(sim: S.Simulator, ghost times: seq<nat>) returns (rounds: nat)
    requires sim.Valid() && BasicInv(sim.p, sim.Abs()) && sim.p.frames >= sim.p.npages
    requires AllHalt(sim.p, sim.Abs(), times)
    modifies sim, sim.queue, sim.processes
    ensures sim.Valid() && sim.Abs() == BasicRun(sim.p, old(sim.Abs()), rounds)
    ensures rounds <= old(Rank(sim.p, sim.Abs(), times))
    ensures AllDone(sim.p, sim.Abs()) && sim.queueend == sim.queue.Length && sim.pagesavail == sim.p.frames
    ensures forall j :: 0 <= j < sim.queue.Length ==>
      !sim.queue[j].active && sim.queue[j].core.pc in sim.queue[j].program.exits
  {
    hide SlotsOk, JobsOk, FramesOk, ProcessesOk, OnlyLowestHolds, NoneLeaving, AllStep, AllAge, Scan, Rank,
         LeftsAfter, AllDone, Halts;
    ghost var p, s0, lefts := sim.p, sim.Abs(), times;
    rounds := 0;
    var done := sim.AllDone();
    while !done
      invariant sim.Valid() && sim.Abs() == BasicRun(p, s0, rounds) && done == AllDone(p, sim.Abs())
      invariant BasicInv(p, sim.Abs()) && AllHalt(p, sim.Abs(), lefts)
      invariant rounds + Rank(p, sim.Abs(), lefts) <= Rank(p, s0, times)
      decreases Rank(p, sim.Abs(), lefts)
    {
      ghost var s := sim.Abs();
      RoundUsesRank(p, s, lefts);
      RoundKeepsBasicInv(p, s);
      sim.AllStep();
      sim.AllAge();
      var q := sim.View();
      PageIt(q, sim);
      lefts := LeftsAfter(p, s, lefts);
      rounds := rounds + 1;
      assert sim.Abs() == BasicRound(p, s);
      done := sim.AllDone();
    }
    EndOfRun(p, sim.Abs());
  }

  /** The program with the basic pager, for jobs that exit when run alone after `times` compute
      ticks: it ends within the bound and reports the sum of these times as compute cycles; the
      rest of the ticks that slots had a job are the blocked ones. */
  method Experiment(p: Params, jobs: seq<Process>, ghost times: seq<nat>)
    returns (rounds: nat, block: int, compute: int, ghost opss: seq<seq<Op>>)
    requires ParamsOk(p) && p.frames >= p.npages
    requires |times| == |jobs| && forall j :: 0 <= j < |jobs| ==> HaltsAlone(p, jobs[j], times[j])
    ensures rounds <= Bound(p, times) && compute == SumOf<int>(times, Same)
    ensures Inv(p, Init(p, jobs)) && |opss| == rounds
    ensures BasicRun(p, Init(p, jobs), rounds) == Run(p, Init(p, jobs), opss)
    ensures block == SlotTicks(p, Init(p, jobs), opss) - compute
  {
    hide SlotsOk, JobsOk, FramesOk, ProcessesOk, OnlyLowestHolds, NoneLeaving, Rank, AllDone, Bound, HaltsAlone, Halts;
    Alike(p, jobs, times);
    var sim := new S.Simulator(p, jobs);
    InitialRank(p, jobs, times, p.wait + 2);
    StartsBasic(p, jobs);
    rounds := Simulate(sim, times);
    block, compute := sim.AllScore();
    opss := BasicRunIsRun(p, Init(p, jobs), rounds);
    ScoreIsSlotTicks(p, Init(p, jobs), opss);
    ScoreIsSum(p, jobs, times, opss);
  }

  lemma Alike(p: Params, jobs: seq<Process>, times: seq<nat>)
    requires |times| == |jobs| && forall j :: 0 <= j < |jobs| ==> HaltsAlone(p, jobs[j], times[j])
    ensures forall j :: 0 <= j < |jobs| ==> FreshJob(p, jobs[j])
  {
  }
}
