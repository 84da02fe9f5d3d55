/** A program computes the same whatever the pager does: a two-run property. */
module Independence {
  // The pager, the frame pool and the other jobs decide only when a job may compute, never
  // what it computes.

  import opened Paging
  import opened Programs
  import opened Sums

  predicate SameProgress(q: Process, q': Process) {
    q'.program == q.program && q'.core == q.core && q'.compute == q.compute && q'.active == q.active
  }

  /** One compute tick. */
  predicate ComputeTick(q: Process, q': Process)
    requires ProgramOk(q.program) && CoreOk(q.program, q.core)
  {
    && q.active && q'.program == q.program && q'.compute == q.compute + 1
    && match Advance(q.program, q.core)
       case None => q'.core == q.core && !q'.active
       case Some(core) => q'.core == core && q'.active
  }

  predicate AtMostOneTick(p: Params, q: Process, q': Process)
    requires ProcessOk(p, q)
  {
    SameProgress(q, q') || ComputeTick(q, q')
  }

  predicate TicksOk(p: Params, queue: seq<Process>, queue': seq<Process>)
    requires ProcessesOk(p, queue) && |queue'| == |queue|
  {
    forall j: nat :: j < |queue| ==> AtMostOneTick(p, queue[j], queue'[j])
  }

  /** The slots from n on, and their jobs, are as they were. */
  predicate Untouched(p: Params, s: State, r: State, n: nat)
    requires Shape(p, s) && Shape(p, r) && |r.queue| == |s.queue|
  {
    forall i :: n <= i < p.slots ==>
      r.slots[i] == s.slots[i]
      && (s.slots[i].Some? ==> r.queue[s.slots[i].value] == s.queue[s.slots[i].value])
  }

  /** Through the first n slots of allstep: the other slots and their jobs are as before, and
      no job has computed more than once. */
  lemma {:induction false} AllStepTicks(p: Params, s: State, n: nat)
    requires ParamsOk(p) && Inv(p, s) && n <= p.procs
    ensures Untouched(p, s, AllStep(p, s, n), n)
    ensures TicksOk(p, s.queue, AllStep(p, s, n).queue)
  {
    hide SlotsOk, JobsOk, FramesOk, StepSlot;
    if n > 0 {
      var r := AllStep(p, s, n - 1);
      AllStepTicks(p, s, n - 1);
      StepSlotTicks(p, s, r, n - 1);
      var r' := StepSlot(p, r, n - 1);
      assert AllStep(p, s, n) == r';
      assert Untouched(p, s, r', n);
      assert TicksOk(p, s.queue, r'.queue);
    }
  }

  lemma StepSlotTicks(p: Params, s: State, r: State, i: nat)
    requires ParamsOk(p) && Inv(p, s) && Inv(p, r) && |r.queue| == |s.queue| && i < p.procs
    requires Untouched(p, s, r, i) && TicksOk(p, s.queue, r.queue)
    ensures Untouched(p, s, StepSlot(p, r, i), i + 1)
    ensures TicksOk(p, s.queue, StepSlot(p, r, i).queue)
  {
    var r' := StepSlot(p, r, i);
    StepSlotIsLocal(p, r, i);
    if r.slots[i].Some? {
      var j := r.slots[i].value;
      assert r.queue[j] == s.queue[j];
      forall k: nat | k < |s.queue| ensures AtMostOneTick(p, s.queue[k], r'.queue[k]) {
        assert AtMostOneTick(p, s.queue[k], r.queue[k]);
      }
    }
  }

  lemma StepSlotIsLocal(p: Params, r: State, i: nat)
    requires ParamsOk(p) && Inv(p, r) && i < p.procs
    ensures var r' := StepSlot(p, r, i);
      && (forall k :: 0 <= k < p.slots && k != i ==> r'.slots[k] == r.slots[k])
      && (forall j: nat :: j < |r.queue| && r.slots[i] != Some(j) ==> r'.queue[j] == r.queue[j])
      && (r.slots[i].Some? ==> AtMostOneTick(p, r.queue[r.slots[i].value], r'.queue[r.slots[i].value]))
  {
    hide FramesOk, ProcessStep, Unloaded, AtMostOneTick;
    if r.slots[i].Some? {
      var j := r.slots[i].value;
      assert JobOk(p, r, j) && InSlot(r, j);
      StepTicks(p, r.queue[j]);
    }
  }

  lemma StepTicks(p: Params, q: Process)
    requires ParamsOk(p) && ProcessOk(p, q) && q.active
    ensures var (q', goesOn) := ProcessStep(p, q);
      AtMostOneTick(p, q, if goesOn then q' else Unloaded(p, q'))
  {
  }

  lemma {:induction false} AllAgeProgress(p: Params, s: State, n: nat)
    requires ParamsOk(p) && Inv(p, s) && n <= p.procs
    ensures forall j: nat :: j < |s.queue| ==> SameProgress(s.queue[j], AllAge(p, s, n).queue[j])
  {
    hide SlotsOk, JobsOk, FramesOk;
    if n > 0 {
      AllAgeProgress(p, s, n - 1);
    }
  }

  lemma {:induction false} ApplyAllProgress(p: Params, s: State, ops: seq<Op>)
    requires ParamsOk(p) && Inv(p, s)
    ensures forall j: nat :: j < |s.queue| ==> SameProgress(s.queue[j], ApplyAll(p, s, ops).queue[j])
  {
    hide SlotsOk, JobsOk, FramesOk;
    if ops != [] {
      ApplyAllProgress(p, s, ops[..|ops| - 1]);
    }
  }

  lemma RoundTicks(p: Params, s: State, ops: seq<Op>, j: nat)
    requires ParamsOk(p) && Inv(p, s) && j < |s.queue|
    ensures AtMostOneTick(p, s.queue[j], Round(p, s, ops).queue[j])
  {
    var s1 := AllStep(p, s, p.procs);
    var s2 := AllAge(p, s1, p.procs);
    AllStepTicks(p, s, p.procs);
    AllAgeProgress(p, s1, p.procs);
    ApplyAllProgress(p, s2, ops);
    assert SameProgress(s1.queue[j], s2.queue[j]);
    assert SameProgress(s2.queue[j], ApplyAll(p, s2, ops).queue[j]);
  }

  /** The pcs at which job j computed, in order, in a run. */
  function PcLog(p: Params, s: State, opss: seq<seq<Op>>, j: nat): seq<int>
    requires ParamsOk(p) && Inv(p, s) && j < |s.queue|
    decreases |opss|
  {
    if opss == [] then []
    else
      var before := Run(p, s, opss[..|opss| - 1]).queue[j];
      var after := Run(p, s, opss).queue[j];
      PcLog(p, s, opss[..|opss| - 1], j)
      + if after.compute > before.compute then [before.core.pc] else []
  }

  /** The first n pcs of a program running alone with all its pages in memory. */
  function SoloPcs(program: Program, core: Core, n: nat): seq<int>
    requires ProgramOk(program) && CoreOk(program, core)
  {
    if n == 0 then [] else SoloPcs(program, core, n - 1) + [Computed(program, core, n - 1).pc]
  }

  /** What a job has done is what its program does alone: its log, its core, and when it
      stopped, are those of its first `compute` ticks. */
  ghost predicate Alone(q0: Process, q: Process, log: seq<int>)
    requires ProgramOk(q0.program) && CoreOk(q0.program, q0.core)
  {
    && q.program == q0.program
    && log == SoloPcs(q0.program, q0.core, q.compute)
    && q.core == Computed(q0.program, q0.core, q.compute)
    && (forall k :: 0 <= k < q.compute - (if q.active then 0 else 1) ==>
         Computed(q0.program, q0.core, k).pc !in q0.program.exits)
    && (!q.active ==> q.compute >= 1 && Computed(q0.program, q0.core, q.compute - 1).pc in q0.program.exits)
  }

  lemma TickKeepsAlone(p: Params, q0: Process, q: Process, q': Process, log: seq<int>)
    requires ProgramOk(q0.program) && CoreOk(q0.program, q0.core) && ProcessOk(p, q)
    requires Alone(q0, q, log) && AtMostOneTick(p, q, q')
    ensures Alone(q0, q', log + if q'.compute > q.compute then [q.core.pc] else [])
  {
    if q'.compute > q.compute {
      assert Computed(q0.program, q0.core, q.compute) == q.core;
    } else {
      assert log + [] == log;
    }
  }

  lemma {:induction false} RunsAlone(p: Params, s: State, opss: seq<seq<Op>>, j: nat)
    requires ParamsOk(p) && Inv(p, s) && j < |s.queue|
    requires s.queue[j].active && s.queue[j].compute == 0
    ensures Alone(s.queue[j], Run(p, s, opss).queue[j], PcLog(p, s, opss, j))
    decreases |opss|
  {
    if opss != [] {
      var before := Run(p, s, opss[..|opss| - 1]);
      RunsAlone(p, s, opss[..|opss| - 1], j);
      RoundTicks(p, before, opss[|opss| - 1], j);
      TickKeepsAlone(p, s.queue[j], before.queue[j], Run(p, s, opss).queue[j],
                     PcLog(p, s, opss[..|opss| - 1], j));
    }
  }

  lemma {:induction false} SoloPcsPrefix(program: Program, core: Core, m: nat, n: nat)
    requires ProgramOk(program) && CoreOk(program, core) && m <= n
    ensures |SoloPcs(program, core, n)| == n
    ensures SoloPcs(program, core, m) == SoloPcs(program, core, n)[..m]
    decreases n
  {
    if m < n {
      SoloPcsPrefix(program, core, m, n - 1);
    } else if n > 0 {
      SoloPcsPrefix(program, core, n - 1, n - 1);
    }
  }

  lemma AloneTwice(q0: Process, q1: Process, log1: seq<int>, q2: Process, log2: seq<int>)
    requires ProgramOk(q0.program) && CoreOk(q0.program, q0.core)
    requires Alone(q0, q1, log1) && Alone(q0, q2, log2) && q1.compute <= q2.compute
    ensures log1 <= log2
    ensures !q1.active ==> q1.compute == q2.compute
  {
    SoloPcsPrefix(q0.program, q0.core, q1.compute, q2.compute);
  }

  /** Only the program and the core a job starts with matter. */
  lemma SameStartAlone(q0: Process, q0': Process, q: Process, log: seq<int>)
    requires ProgramOk(q0.program) && CoreOk(q0.program, q0.core) && Alone(q0, q, log)
    requires q0'.program == q0.program && q0'.core == q0.core
    ensures Alone(q0', q, log)
  {
  }

  /** Pager independence. Take any two runs, with different pagers, pools, processors and
      other jobs, and a fresh job in each with the same program and branch tables. Of the
      two sequences of pcs at which it computes, one is a prefix of the other; and if it
      finishes in both, it has computed equally long. */
  lemma PagerIndependence(p1: Params, s1: State, opss1: seq<seq<Op>>, j1: nat,
                          p2: Params, s2: State, opss2: seq<seq<Op>>, j2: nat)
    requires ParamsOk(p1) && Inv(p1, s1) && j1 < |s1.queue| && ParamsOk(p2) && Inv(p2, s2) && j2 < |s2.queue|
    requires s1.queue[j1].active && s1.queue[j1].compute == 0
    requires s2.queue[j2].active && s2.queue[j2].compute == 0
    requires s1.queue[j1].program == s2.queue[j2].program && s1.queue[j1].core == s2.queue[j2].core
    ensures PcLog(p1, s1, opss1, j1) <= PcLog(p2, s2, opss2, j2)
         || PcLog(p2, s2, opss2, j2) <= PcLog(p1, s1, opss1, j1)
    ensures var q1, q2 := Run(p1, s1, opss1).queue[j1], Run(p2, s2, opss2).queue[j2];
      && (!q1.active ==> q2.compute <= q1.compute)
      && (!q1.active && !q2.active ==> q1.compute == q2.compute)
  {
    hide SlotsOk, JobsOk, FramesOk, Run, PcLog, Alone;
    RunsAlone(p1, s1, opss1, j1);
    RunsAlone(p2, s2, opss2, j2);
    var q1, log1 := Run(p1, s1, opss1).queue[j1], PcLog(p1, s1, opss1, j1);
    var q2, log2 := Run(p2, s2, opss2).queue[j2], PcLog(p2, s2, opss2, j2);
    SameStartAlone(s2.queue[j2], s1.queue[j1], q2, log2);
    if q1.compute <= q2.compute {
      AloneTwice(s1.queue[j1], q1, log1, q2, log2);
    } else {
      AloneTwice(s1.queue[j1], q2, log2, q1, log1);
    }
  }

  // ---- how long a finished job has computed

  lemma {:induction false} ComputedFromNext(program: Program, c: Core, k: nat)
    requires ProgramOk(program) && CoreOk(program, c) && Advance(program, c).Some?
    ensures Computed(program, c, k + 1) == Computed(program, Advance(program, c).value, k)
  {
    if k > 0 {
      ComputedFromNext(program, c, k - 1);
    }
  }

  /** The tick that finds the exit is the first at which the program stands at one. */
  lemma {:induction false} ExitsAtFirst(program: Program, c: Core, n: nat)
    requires ProgramOk(program) && CoreOk(program, c) && ExitsAt(program, c, n)
    ensures n >= 1 && Computed(program, c, n - 1).pc in program.exits
    ensures forall k: nat :: k < n - 1 ==> Computed(program, c, k).pc !in program.exits
    decreases n
  {
    if n > 1 {
      var d := Advance(program, c).value;
      ExitsAtFirst(program, d, n - 1);
      ComputedFromNext(program, c, n - 2);
      forall k: nat | k < n - 1 ensures Computed(program, c, k).pc !in program.exits {
        if k > 0 {
          ComputedFromNext(program, c, k - 1);
        }
      }
    }
  }

  predicate HaltsAlone(p: Params, q: Process, time: nat) {
    FreshJob(p, q) && ExitsAt(q.program, q.core, time)
  }

  /** A job that is done has computed exactly as long as it needs alone, one that is not has
      computed less. */
  lemma FinishedAfter(p: Params, s: State, opss: seq<seq<Op>>, j: nat, time: nat)
    requires ParamsOk(p) && Inv(p, s) && j < |s.queue| && HaltsAlone(p, s.queue[j], time)
    ensures var q := Run(p, s, opss).queue[j];
      if q.active then q.compute < time else q.compute == time
  {
    RunsAlone(p, s, opss, j);
    ExitsAtFirst(s.queue[j].program, s.queue[j].core, time);
    FirstExit(s.queue[j], Run(p, s, opss).queue[j], PcLog(p, s, opss, j), time);
  }

  lemma FirstExit(q0: Process, q: Process, log: seq<int>, time: nat)
    requires ProgramOk(q0.program) && CoreOk(q0.program, q0.core) && Alone(q0, q, log)
    requires time >= 1 && Computed(q0.program, q0.core, time - 1).pc in q0.program.exits
    requires forall k: nat :: k < time - 1 ==> Computed(q0.program, q0.core, k).pc !in q0.program.exits
    ensures if q.active then q.compute < time else q.compute == time
  {
    hide Computed, SoloPcs;
  }

  // ---- the score of a whole experiment

  /** A complete run reports as compute cycles the sum of what the jobs need alone. */
  lemma ScoreIsSum(p: Params, jobs: seq<Process>, times: seq<int>, opss: seq<seq<Op>>)
    requires ParamsOk(p) && |times| == |jobs|
    requires forall j :: 0 <= j < |jobs| ==> times[j] >= 0 && HaltsAlone(p, jobs[j], times[j])
    ensures Inv(p, Init(p, jobs))
    ensures AllDone(p, Run(p, Init(p, jobs), opss)) ==>
      SumOf(Run(p, Init(p, jobs), opss).queue, ComputeOf) == SumOf(times, Same)
  {
    hide SlotsOk, JobsOk, FramesOk, AllDone;
    InitOk(p, jobs);
    var r := Run(p, Init(p, jobs), opss);
    if AllDone(p, r) {
      EndOfRun(p, r);
      forall j: nat | j < |jobs| ensures r.queue[j].compute == times[j] {
        FinishedAfter(p, Init(p, jobs), opss, j, times[j]);
      }
      SumOfLe(r.queue, ComputeOf, times, Same);
      SumOfLe(times, Same, r.queue, ComputeOf);
    }
  }

  predicate SameJobs(jobs1: seq<Process>, jobs2: seq<Process>) {
    |jobs1| == |jobs2|
    && forall j :: 0 <= j < |jobs1| ==> jobs1[j].program == jobs2[j].program && jobs1[j].core == jobs2[j].core
  }

  /** The simulator's reported compute cycles do not depend on the pager: two runs of the same
      jobs, to the end, score the same total, whatever the pagers, slots and frames. */
  lemma ScoreIsIndependent(p1: Params, jobs1: seq<Process>, opss1: seq<seq<Op>>,
                           p2: Params, jobs2: seq<Process>, opss2: seq<seq<Op>>)
    requires ParamsOk(p1) && forall j :: 0 <= j < |jobs1| ==> FreshJob(p1, jobs1[j])
    requires ParamsOk(p2) && forall j :: 0 <= j < |jobs2| ==> FreshJob(p2, jobs2[j])
    requires SameJobs(jobs1, jobs2)
    ensures Inv(p1, Init(p1, jobs1)) && Inv(p2, Init(p2, jobs2))
    ensures var r1, r2 := Run(p1, Init(p1, jobs1), opss1), Run(p2, Init(p2, jobs2), opss2);
      AllDone(p1, r1) && AllDone(p2, r2) ==> SumOf(r1.queue, ComputeOf) == SumOf(r2.queue, ComputeOf)
  {
    hide SlotsOk, JobsOk, FramesOk, AllDone;
    InitOk(p1, jobs1);
    InitOk(p2, jobs2);
    var s1, s2 := Init(p1, jobs1), Init(p2, jobs2);
    var r1, r2 := Run(p1, s1, opss1), Run(p2, s2, opss2);
    if AllDone(p1, r1) && AllDone(p2, r2) {
      EndOfRun(p1, r1);
      EndOfRun(p2, r2);
      forall j: nat | j < |jobs1| ensures r1.queue[j].compute == r2.queue[j].compute {
        PagerIndependence(p1, s1, opss1, j, p2, s2, opss2, j);
      }
      SumOfLe(r1.queue, ComputeOf, r2.queue, ComputeOf);
      SumOfLe(r2.queue, ComputeOf, r1.queue, ComputeOf);
    }
  }
}
