/** The simulator's main loop with the predictive pager, in place. */
module MainLoop {
  // Every round steps the slots, ages the pages, and calls the pager on what it may see.

  import opened BasicTermination
  import opened Independence
  import opened JobEffects
  import opened PagerRuns
  import opened Paging
  import opened PredictPager
  import opened PredictTermination
  import opened RoundEffects
  import opened Shadow
  import opened Starvation
  import opened Sums
  import opened Transitions
  import opened Victims
  import S = Simulator

  /** A tick of the simulator. */
  method Advance(sim: S.Simulator) returns (q: seq<Entry>)
    requires sim.Valid()
    modifies sim, sim.queue, sim.processes
    ensures sim.Valid() && sim.Abs() == Tick(sim.p, old(sim.Abs())) && q == View(sim.p, sim.Abs())
  {
    sim.AllStep();
    sim.AllAge();
    q := sim.View();
  }

  function KnobsOf(pager: Pager): Knobs {
    Knobs(pager.freebuf, pager.window, pager.interval, pager.decay)
  }

  /** A round is a tick and a call of the pager: it is one of the joint state machine, with
      requests that the pager may make, and shadow and simulator agree after it. */
  method Round(sim: S.Simulator, pager: Pager) returns (ghost c: Records)
    requires sim.Valid() && pager.Valid() && pager.p == sim.p && pager.tick < INT_MAX
    requires JointOk(sim.p, pager.Now(sim)) && Agrees(sim.p, pager.Now(sim), pager.tick - 1)
    modifies sim, sim.queue, sim.processes
    modifies pager, pager.timestamps, pager.transitions, pager.pgLast, pager.procWait, pager.workset
    ensures sim.Valid() && pager.Valid() && pager.tick == old(pager.tick) + 1
    ensures JointOk(sim.p, pager.Now(sim)) && Agrees(sim.p, pager.Now(sim), old(pager.tick))
    ensures JointOk(sim.p, old(pager.Now(sim)))
    ensures pager.Now(sim) == JointRound(sim.p, old(pager.Now(sim)), pager.ops, old(pager.tick))
    ensures RoundMade(sim.p, KnobsOf(pager), old(pager.Now(sim)), pager.ops, old(pager.tick), c)
    ensures c.before == old(pager.Remembered()) && c.after == pager.Remembered()
  {
    hide Inv, Agrees, LegalAll, TrackedAll, Tick, CallOk, SetsOk, TablesMoved, RoundMade, JointRound;
    ghost var x, tick, before := pager.Now(sim), pager.tick, pager.Remembered();
    TickKeepsAgreement(sim.p, x, tick - 1);
    var q := Advance(sim);
    ghost var call := pager.PageIt(q, sim);
    c := Records(before, pager.Remembered(), call);
    CallIsRound(sim.p, KnobsOf(pager), x, pager.Now(sim), pager.ops, tick, c);
  }

  /** The pager has made this run, and the loop has stopped after it: at the limit or because all
      jobs are done, which they were not before the last round. */
  ghost predicate Stopped(p: Params, knobs: Knobs, x0: Joint, opss: seq<seq<Op>>, recs: seq<Records>, limit: nat)
    requires JointOk(p, x0)
  {
    && PagerRun(p, knobs, x0, opss, recs) && |opss| <= limit
    && (|opss| == limit || AllDone(p, JointRun(p, x0, opss).s))
    && (opss != [] ==> !AllDone(p, JointRun(p, x0, opss[..|opss| - 1]).s))
  }

  /** The loop, for at most `limit` rounds. Whatever the jobs do, it makes a run of the pager,
      so its shadow agrees with the simulator after every call (Shadow.ShadowAgrees) and no
      frame is ever lost (Paging.FramesConserved). It goes on exactly until all jobs are done. */
  method Simulate(sim: S.Simulator, pager: Pager, limit: nat)
    returns (rounds: nat, ghost opss: seq<seq<Op>>, ghost recs: seq<Records>)
    requires sim.Valid() && pager.Valid() && pager.p == sim.p && pager.tick == 1 && limit < INT_MAX
    requires pager.Remembered() == FirstMemory(sim.p)
    requires JointOk(sim.p, pager.Now(sim)) && Agrees(sim.p, pager.Now(sim), 0)
    modifies sim, sim.queue, sim.processes
    modifies pager, pager.timestamps, pager.transitions, pager.pgLast, pager.procWait, pager.workset
    ensures sim.Valid() && pager.Valid() && rounds == |opss| <= limit && pager.tick == rounds + 1
    ensures JointOk(sim.p, old(pager.Now(sim)))
    ensures pager.Now(sim) == JointRun(sim.p, old(pager.Now(sim)), opss)
    ensures Stopped(sim.p, KnobsOf(pager), old(pager.Now(sim)), opss, recs, limit)
    ensures pager.Remembered() == Remembers(sim.p, recs)
  {
    hide SlotsOk, JobsOk, FramesOk, Agrees, Tick, PagerRun, JointRun, JointRound, RoundMade, AllDone;
    ghost var p, x0 := sim.p, pager.Now(sim);
    rounds, opss, recs := 0, [], [];
    EmptyRun(p, KnobsOf(pager), x0);
    while rounds < limit
      invariant sim.Valid() && pager.Valid() && rounds == |opss| <= limit && pager.tick == rounds + 1
      invariant JointOk(p, pager.Now(sim)) && Agrees(p, pager.Now(sim), rounds)
      invariant pager.Now(sim) == JointRun(p, x0, opss)
      invariant Stopped(p, KnobsOf(pager), x0, opss, recs, rounds)
      invariant pager.Remembered() == Remembers(p, recs)
    {
      var done := sim.AllDone();
      if done {
        return;
      }
      ghost var c := Round(sim, pager);
      OneMoreRound(p, KnobsOf(pager), x0, opss, recs, pager.ops, c);
      assert (opss + [pager.ops])[..rounds] == opss;
      opss, recs := opss + [pager.ops], recs + [c];
      rounds := rounds + 1;
    }
  }

  /** The program: jobs are queued, slots filled, the tables initialised; rounds are run until
      all jobs are done, `limit` at most; and the score is added up. The run it makes is one
      of the joint state machine, so everything proved of those holds of it. If the jobs exit
      when run alone after `times` compute ticks, and all are done, their sum is the score; that
      is sure to happen if memory has room for all loaded jobs and the reserve. If paging takes
      one tick and the reserve is all of memory, only the limit ends the loop. */
  method Experiment(p: Params, jobs: seq<Process>, freebuf: nat, window: nat, interval: nat, decay: int -> int,
                    limit: nat, ghost times: seq<nat>)
    returns (rounds: nat, block: int, compute: int, ghost opss: seq<seq<Op>>, ghost recs: seq<Records>)
    requires ParamsOk(p) && forall j :: 0 <= j < |jobs| ==> FreshJob(p, jobs[j])
    requires window >= 1 && interval >= 1 && Decays(decay) && limit < INT_MAX
    ensures rounds == |opss| <= limit && LegalRun(p, JointInit(p, jobs), opss)
    ensures PagerRun(p, Knobs(freebuf, window, interval, decay), JointInit(p, jobs), opss, recs)
    ensures var x := JointRun(p, JointInit(p, jobs), opss);
      && x.s == Run(p, Init(p, jobs), opss) && Agrees(p, x, rounds)
      && (rounds == limit || AllDone(p, x.s))
      && compute == SumOf(x.s.queue, ComputeOf) && block + compute == SlotTicks(p, Init(p, jobs), opss)
    ensures AllHaltAlone(p, jobs, times) ==> rounds == limit || compute == SumOf<int>(times, Same)
    ensures AllHaltAlone(p, jobs, times) && p.frames >= p.procs * p.npages + freebuf ==>
      rounds <= Bound(p, times) && (limit >= Bound(p, times) ==> compute == SumOf<int>(times, Same))
    ensures jobs != [] && p.wait == 1 && freebuf >= p.frames ==> rounds == limit && compute == 0
  {
    hide SlotsOk, JobsOk, FramesOk, Agrees, LegalRun, PagerRun, JointRun, Tick, AllDone, Bound, HaltsAlone;
    var sim := new S.Simulator(p, jobs);
    var pager := new Pager(p, freebuf, window, interval, decay);
    ghost var x0 := JointInit(p, jobs);
    assert pager.Now(sim) == x0;
    ghost var knobs := Knobs(freebuf, window, interval, decay);
    rounds, opss, recs := Simulate(sim, pager, limit);
    PagerRunIsLegal(p, knobs, x0, opss, recs);
    ScoreIsSlotTicks(p, Init(p, jobs), opss);
    RunKeepsAgreement(p, x0, opss);
    block, compute := sim.AllScore();
    Outcome(p, knobs, jobs, opss, recs, limit, times);
  }

  /** How long the loop that makes this run goes on, and what it computes. */
  lemma Outcome(p: Params, knobs: Knobs, jobs: seq<Process>, opss: seq<seq<Op>>, recs: seq<Records>, limit: nat,
                times: seq<nat>)
    requires ParamsOk(p) && forall j :: 0 <= j < |jobs| ==> FreshJob(p, jobs[j])
    requires Stopped(p, knobs, JointInit(p, jobs), opss, recs, limit)
    ensures var compute := SumOf(JointRun(p, JointInit(p, jobs), opss).s.queue, ComputeOf);
      && (AllHaltAlone(p, jobs, times) ==> |opss| == limit || compute == SumOf<int>(times, Same))
      && (AllHaltAlone(p, jobs, times) && p.frames >= p.procs * p.npages + knobs.freebuf ==>
           |opss| <= Bound(p, times) && (limit >= Bound(p, times) ==> compute == SumOf<int>(times, Same)))
      && (jobs != [] && p.wait == 1 && knobs.freebuf >= p.frames ==> |opss| == limit && compute == 0)
  {
    hide SlotsOk, JobsOk, FramesOk, PagerRun, JointRun, AllDone, Bound, HaltsAlone;
    var x0 := JointInit(p, jobs);
    if AllHaltAlone(p, jobs, times) {
      if AllDone(p, JointRun(p, x0, opss).s) {
        ScoreIsSum(p, jobs, times, opss);
      }
      if p.frames >= p.procs * p.npages + knobs.freebuf {
        EndsWithRoom(p, knobs, jobs, opss, recs, times);
        BoundNotNegative(p, times);
        if opss != [] {
          RunBefore(p, knobs, x0, opss, recs);
          EndsWithRoom(p, knobs, jobs, opss[..|opss| - 1], recs[..|opss| - 1], times);
        }
      }
    }
    if jobs != [] && p.wait == 1 && knobs.freebuf >= p.frames {
      NeverDone(p, knobs, jobs, opss, recs);
      SumOfConst(JointRun(p, x0, opss).s.queue, ComputeOf, 0);
    }
  }

  lemma RunBefore(p: Params, knobs: Knobs, x0: Joint, opss: seq<seq<Op>>, recs: seq<Records>)
    requires JointOk(p, x0) && PagerRun(p, knobs, x0, opss, recs) && opss != []
    ensures |recs| == |opss| && PagerRun(p, knobs, x0, opss[..|opss| - 1], recs[..|opss| - 1])
  {
    hide JointOk, Inv, RoundMade;
  }

  lemma BoundNotNegative(p: Params, times: seq<nat>)
    requires ParamsOk(p)
    ensures Bound(p, times) >= 0
  {
    SumOfNonNegative<int>(times, Same);
  }

  predicate AllHaltAlone(p: Params, jobs: seq<Process>, times: seq<nat>) {
    |times| == |jobs| && forall j :: 0 <= j < |jobs| ==> HaltsAlone(p, jobs[j], times[j])
  }
}
