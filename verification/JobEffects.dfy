/** What one tick does to each job, in a slot or not, and what the cycles of all jobs add up to.

    RoundEffects looks at a tick slot by slot; here it is followed job by job, through the
    finishing of jobs and the loading of new ones. */
module JobEffects {
  import opened Independence
  import opened Paging
  import opened Reserve
  import opened RoundEffects
  import opened Sums

  /** A job after its slot's step. */
  function Stepped(p: Params, q: Process): (r: Process)
    requires ParamsOk(p) && ProcessOk(p, q)
    ensures ProcessOk(p, r)
  {
    var (q', goesOn) := ProcessStep(p, q);
    if goesOn then q' else Unloaded(p, q')
  }

  lemma StepSlotQueue(p: Params, s: State, i: nat)
    requires ParamsOk(p) && Inv(p, s) && i < p.procs
    ensures StepSlot(p, s, i).queue
         == match s.slots[i] case None => s.queue case Some(j) => s.queue[j := Stepped(p, s.queue[j])]
  {
  }

  lemma NotEarlier(p: Params, s: State, n: nat, j: nat)
    requires SlotsOk(p, s) && n < |s.slots| && s.slots[n] == Some(j)
    ensures !InFirst(s, n, j) && InFirst(s, n + 1, j)
  {
  }

  /** What allstep has done to job j after the first n slots: if it is in one of them, a step. */
  lemma {:induction false} AllStepJob(p: Params, s: State, n: nat, j: nat)
    requires ParamsOk(p) && Inv(p, s) && n <= p.procs && j < |s.queue|
    ensures AllStep(p, s, n).queue[j] == if InFirst(s, n, j) then Stepped(p, s.queue[j]) else s.queue[j]
  {
    hide ProcessesOk, SlotsOk, JobsOk, FramesOk, StepSlot, Stepped, TicksOk;
    if n > 0 {
      var r := AllStep(p, s, n - 1);
      AllStepJob(p, s, n - 1, j);
      AllStepTicks(p, s, n - 1);
      assert r.slots[n - 1] == s.slots[n - 1];
      StepSlotQueue(p, r, n - 1);
      var r' := StepSlot(p, r, n - 1);
      assert AllStep(p, s, n) == r';
      if s.slots[n - 1] == Some(j) {
        NotEarlier(p, s, n - 1, j);
      }
    }
  }

  lemma AgeSlotQueue(p: Params, s: State, i: nat)
    requires ParamsOk(p) && Inv(p, s) && i < p.procs
    ensures AgeSlot(p, s, i).queue
         == match s.slots[i] case None => s.queue case Some(j) => s.queue[j := AgeProcess(p, s.queue[j])]
  {
    if s.slots[i].Some? {
      assert JobOk(p, s, s.slots[i].value) && InSlot(s, s.slots[i].value);
    }
  }

  lemma {:induction false} AllAgeJob(p: Params, s: State, n: nat, j: nat)
    requires ParamsOk(p) && Inv(p, s) && n <= p.procs && j < |s.queue|
    ensures AllAge(p, s, n).queue[j] == if InFirst(s, n, j) then AgeProcess(p, s.queue[j]) else s.queue[j]
  {
    hide ProcessesOk, SlotsOk, JobsOk, FramesOk, AgeSlot, AgeProcess;
    if n > 0 {
      var r := AllAge(p, s, n - 1);
      AllAgeJob(p, s, n - 1, j);
      AgeSlotQueue(p, r, n - 1);
      var r' := AgeSlot(p, r, n - 1);
      assert AllAge(p, s, n) == r';
      if s.slots[n - 1] == Some(j) {
        NotEarlier(p, s, n - 1, j);
      }
    }
  }

  lemma InFirstIsInSlot(p: Params, s: State, j: nat)
    requires ParamsOk(p) && Inv(p, s) && j < |s.queue|
    ensures InFirst(s, p.procs, j) <==> InSlot(s, j)
    ensures !InSlot(s, j) && s.queue[j].active ==> AllOut(p, s.queue[j])
    ensures InSlot(s, j) ==> s.queue[j].active
  {
    assert JobOk(p, s, j);
  }

  lemma TickOfJobInSlot(p: Params, s: State, j: nat)
    requires ParamsOk(p) && Inv(p, s) && j < |s.queue| && InFirst(s, p.procs, j)
    ensures var q := Stepped(p, s.queue[j]);
      Tick(p, s).queue[j] == if q.active then AgeProcess(p, q) else q
  {
    hide JobsOk, FramesOk, StepSlot, AgeProcess;
    var r := AllStep(p, s, p.procs);
    AllStepJob(p, s, p.procs, j);
    AllAgeJob(p, r, p.procs, j);
    InFirstIsInSlot(p, s, j);
    InFirstIsInSlot(p, r, j);
    if Stepped(p, s.queue[j]).active {
      var i: nat :| i < p.procs && s.slots[i] == Some(j);
      AllStepAt(p, s, p.procs, i);
      assert InFirst(r, p.procs, j);
    }
  }

  lemma TickOfOtherJob(p: Params, s: State, j: nat)
    requires ParamsOk(p) && Inv(p, s) && j < |s.queue| && !InFirst(s, p.procs, j)
    ensures s.queue[j].active ==> AllOut(p, s.queue[j])
    ensures Tick(p, s).queue[j] == s.queue[j] || Tick(p, s).queue[j] == AgeProcess(p, s.queue[j])
  {
    hide ProcessesOk, JobsOk, FramesOk, StepSlot, Stepped, AgeProcess;
    var r := AllStep(p, s, p.procs);
    AllStepJob(p, s, p.procs, j);
    AllAgeJob(p, r, p.procs, j);
    InFirstIsInSlot(p, s, j);
  }

  /** Every tick is accounted for: a job in a slot gains one compute or one blocked cycle,
      every other job none. */
  lemma CyclesAddUp(p: Params, s: State, j: nat)
    requires ParamsOk(p) && Inv(p, s) && j < |s.queue|
    ensures var q, q' := s.queue[j], Tick(p, s).queue[j];
      q'.compute + q'.block == q.compute + q.block + if InSlot(s, j) then 1 else 0
  {
    hide JobsOk, FramesOk, SlotsOk, Tick;
    InFirstIsInSlot(p, s, j);
    if InFirst(s, p.procs, j) {
      TickOfJobInSlot(p, s, j);
    } else {
      TickOfOtherJob(p, s, j);
    }
  }

  // ---- all cycles of a run

  function CyclesOf(q: Process): int { q.block + q.compute }

  lemma {:induction false} RequestsKeepCycles(p: Params, s: State, ops: seq<Op>, j: nat)
    requires ParamsOk(p) && Inv(p, s) && j < |s.queue|
    ensures CyclesOf(ApplyAll(p, s, ops).queue[j]) == CyclesOf(s.queue[j])
  {
    hide SlotsOk, JobsOk, FramesOk;
    if ops != [] {
      RequestsKeepCycles(p, s, ops[..|ops| - 1], j);
    }
  }

  /** How many of the first k slots have a job. */
  function Occupied(s: State, k: nat): nat
    requires k <= |s.slots|
  {
    if k == 0 then 0 else Occupied(s, k - 1) + if s.slots[k - 1].Some? then 1 else 0
  }

  /** The slot ticks of a run: for every round, the slots that had a job when it began. */
  function SlotTicks(p: Params, s: State, opss: seq<seq<Op>>): nat
    requires ParamsOk(p) && Inv(p, s)
  {
    if opss == [] then 0
    else SlotTicks(p, s, opss[..|opss| - 1]) + Occupied(Run(p, s, opss[..|opss| - 1]), p.slots)
  }

  lemma {:induction false} OccupiedIsTotal(s: State, k: nat)
    requires k <= |s.slots|
    requires forall i :: 0 <= i < |s.slots| && s.slots[i].Some? ==> s.slots[i].value < |s.queue|
    ensures SlotTotal(s, Single, k) == Occupied(s, k)
  {
    if k > 0 {
      OccupiedIsTotal(s, k - 1);
    }
  }

  lemma RoundOfJob(p: Params, s: State, ops: seq<Op>, j: nat)
    requires ParamsOk(p) && Inv(p, s) && j < |s.queue|
    ensures CyclesOf(Round(p, s, ops).queue[j]) == CyclesOf(s.queue[j]) + if InFirst(s, |s.slots|, j) then 1 else 0
  {
    hide JobsOk, FramesOk, SlotsOk, ProcessesOk, AllStep, AllAge, ApplyAll;
    CyclesAddUp(p, s, j);
    RequestsKeepCycles(p, Tick(p, s), ops, j);
  }

  lemma RoundCycles(p: Params, s: State, ops: seq<Op>)
    requires ParamsOk(p) && Inv(p, s)
    ensures SumOf(Round(p, s, ops).queue, CyclesOf) == SumOf(s.queue, CyclesOf) + Occupied(s, p.slots)
  {
    hide JobsOk, FramesOk, ProcessesOk, Round;
    var r := Round(p, s, ops);
    forall j: nat | j < |s.queue| ensures CyclesOf(r.queue[j]) == CyclesOf(s.queue[j]) + Masked(s, Single, p.slots)[j] {
      RoundOfJob(p, s, ops, j);
      assert Masked(s, Single, p.slots)[j] == if InFirst(s, p.slots, j) then Single(s.queue[j]) else 0;
    }
    SumsAddUp(r.queue, CyclesOf, s.queue, CyclesOf, Masked(s, Single, p.slots));
    MaskedTotal(p, s, Single, p.slots);
    OccupiedIsTotal(s, p.slots);
  }

  function Single(q: Process): int { 1 }

  lemma {:induction false} SumsAddUp<T, U>(r: seq<T>, f: T -> int, s: seq<U>, g: U -> int, d: seq<int>)
    requires |r| == |s| == |d| && forall j :: 0 <= j < |r| ==> f(r[j]) == g(s[j]) + d[j]
    ensures SumOf(r, f) == SumOf(s, g) + SumOf(d, Same)
  {
    if r != [] {
      SumsAddUp(r[1..], f, s[1..], g, d[1..]);
    }
  }

  lemma {:induction false} SumSplits(queue: seq<Process>)
    ensures SumOf(queue, CyclesOf) == SumOf(queue, BlockOf) + SumOf(queue, ComputeOf)
  {
    if queue != [] {
      SumSplits(queue[1..]);
    }
  }

  /** The score of a run of fresh jobs: blocked and compute cycles together are its slot ticks. */
  lemma {:induction false} ScoreIsSlotTicks(p: Params, s: State, opss: seq<seq<Op>>)
    requires ParamsOk(p) && Inv(p, s)
    requires forall j :: 0 <= j < |s.queue| ==> s.queue[j].compute == 0 && s.queue[j].block == 0
    ensures SumOf(Run(p, s, opss).queue, BlockOf) + SumOf(Run(p, s, opss).queue, ComputeOf) == SlotTicks(p, s, opss)
  {
    hide SlotsOk, JobsOk, FramesOk, Occupied, Round;
    SumSplits(Run(p, s, opss).queue);
    if opss == [] {
      SumOfConst(s.queue, CyclesOf, 0);
    } else {
      var before := Run(p, s, opss[..|opss| - 1]);
      ScoreIsSlotTicks(p, s, opss[..|opss| - 1]);
      SumSplits(before.queue);
      RoundCycles(p, before, opss[|opss| - 1]);
    }
  }
}
