/** The demand-paging simulator as a state machine on values. */
module Paging {
  // Jobs, processor slots, the frame pool, and the two requests a pager can make. The state of
  // a page is a countdown: wait..1 while it comes in, 0 when it is resident, -1..-wait while it
  // goes out, -wait-1 when it is out. A page in any but the last state occupies a frame.

  import opened Programs
  import opened Sums

  /** `guarded` is the test that refuses to bring in a page other than the current one. */
  datatype Params = Params(
    slots: nat, procs: nat, npages: nat, wait: int, frames: nat, psize: nat, guarded: bool)

  predicate ParamsOk(p: Params) {
    1 <= p.procs <= p.slots && p.npages >= 1 && p.wait >= 1 && p.psize >= 1
  }

  datatype Process = Process(
    program: Program, core: Core, pages: seq<int>, active: bool, compute: nat, block: nat)

  /** `slots` are the processors' pointers into the job queue; jobs from `next` on have not
      been loaded yet. */
  datatype State = State(avail: int, queue: seq<Process>, slots: seq<Option<nat>>, next: nat)

  predicate ProcessOk(p: Params, q: Process) {
    && ProgramOk(q.program) && CoreOk(q.program, q.core)
    && q.program.size < p.npages * p.psize
    && |q.pages| == p.npages
    && PagesOk(p, q.pages)
  }

  predicate PagesOk(p: Params, pages: seq<int>) {
    forall g :: 0 <= g < |pages| ==> -p.wait - 1 <= pages[g] <= p.wait
  }

  predicate Shape(p: Params, s: State) {
    && |s.slots| == p.slots
    && (forall i :: 0 <= i < |s.slots| && s.slots[i].Some? ==> s.slots[i].value < |s.queue|)
    && ProcessesOk(p, s.queue)
  }

  predicate ProcessesOk(p: Params, queue: seq<Process>) {
    forall j :: 0 <= j < |queue| ==> ProcessOk(p, queue[j])
  }

  function CurrentPage(p: Params, q: Process): (g: nat)
    requires ParamsOk(p) && ProcessOk(p, q)
    ensures g < |q.pages|
  {
    PageOfPc(q.core.pc, p.npages, p.psize);
    q.core.pc / p.psize
  }

  // ---- frames in use

  function HeldFlag(wait: int): int -> int { v => if v >= -wait then 1 else 0 }

  function Held(wait: int, pages: seq<int>): int { SumOf(pages, HeldFlag(wait)) }

  function HeldBy(wait: int): Process -> int { (q: Process) => Held(wait, q.pages) }

  function Used(p: Params, queue: seq<Process>): int { SumOf(queue, HeldBy(p.wait)) }

  predicate AllOut(p: Params, q: Process) {
    forall g :: 0 <= g < |q.pages| ==> q.pages[g] == -p.wait - 1
  }

  lemma AllOutHoldsNothing(p: Params, q: Process)
    requires AllOut(p, q)
    ensures Held(p.wait, q.pages) == 0
  {
    SumOfConst(q.pages, HeldFlag(p.wait), 0);
  }

  lemma HeldBounds(p: Params, q: Process)
    ensures 0 <= Held(p.wait, q.pages) <= |q.pages|
  {
    SumOfFlags(q.pages, HeldFlag(p.wait));
  }

  // ---- one tick of the simulator

  /** process_step: the process afterwards, and whether it goes on. */
  function ProcessStep(p: Params, q: Process): (r: (Process, bool))
    requires ParamsOk(p) && ProcessOk(p, q)
    ensures ProcessOk(p, r.0) && r.0.pages == q.pages && r.0.active == q.active
  {
    if !q.active then (q, false)
    else if q.pages[CurrentPage(p, q)] != 0 then (q.(block := q.block + 1), true)
    else
      match Advance(q.program, q.core)
      case None => (q.(compute := q.compute + 1), false)
      case Some(core) => (q.(compute := q.compute + 1, core := core), true)
  }

  /** process_unload: every frame goes back, the process is done. */
  function Unloaded(p: Params, q: Process): (r: Process)
    requires ParamsOk(p) && ProcessOk(p, q)
    ensures ProcessOk(p, r) && AllOut(p, r) && !r.active
  {
    var r := q.(pages := seq(|q.pages|, g => -p.wait - 1), active := false);
    assert forall g :: 0 <= g < |r.pages| ==> r.pages[g] == -p.wait - 1;
    r
  }

  /** The next job from the queue, if there is one. */
  function Refill(s: State, i: nat): State
    requires i < |s.slots|
  {
    if s.next < |s.queue|
    then s.(slots := s.slots[i := Some(s.next)], next := s.next + 1)
    else s.(slots := s.slots[i := None])
  }

  function StepSlot(p: Params, s: State, i: nat): (r: State)
    requires ParamsOk(p) && Inv(p, s) && i < p.procs
    ensures Inv(p, r) && |r.queue| == |s.queue| && s.next <= r.next <= |r.queue|
  {
    match s.slots[i]
    case None =>
      RefillKeepsInv(p, s, i);
      Refill(s, i)
    case Some(j) =>
      var (q, goesOn) := ProcessStep(p, s.queue[j]);
      if goesOn then
        GoingOnKeepsInv(p, s, i, j);
        s.(queue := s.queue[j := q])
      else
        // a process in a slot is active, so it is always unloaded here
        FinishingKeepsInv(p, s, i, j);
        Refill(s.(avail := s.avail + Held(p.wait, q.pages), queue := s.queue[j := Unloaded(p, q)]), i)
  }

  function AllStep(p: Params, s: State, n: nat): (r: State)
    requires ParamsOk(p) && Inv(p, s) && n <= p.procs
    ensures Inv(p, r) && |r.queue| == |s.queue| && s.next <= r.next <= |r.queue|
  {
    if n == 0 then s else StepSlot(p, AllStep(p, s, n - 1), n - 1)
  }

  function AgePage(wait: int, v: int): int {
    if v == 0 || v < -wait then v else v - 1
  }

  function AgeProcess(p: Params, q: Process): (r: Process)
    requires ProcessOk(p, q)
    ensures ProcessOk(p, r) && |r.pages| == |q.pages|
    ensures forall g :: 0 <= g < |q.pages| ==> r.pages[g] == AgePage(p.wait, q.pages[g])
  {
    q.(pages := seq(|q.pages|, g requires 0 <= g < |q.pages| => AgePage(p.wait, q.pages[g])))
  }

  /** allage for one slot: each page that leaves gives its frame back. */
  function AgeSlot(p: Params, s: State, i: nat): (r: State)
    requires ParamsOk(p) && Inv(p, s) && i < p.procs
    ensures Inv(p, r) && |r.queue| == |s.queue| && r.slots == s.slots && r.next == s.next
  {
    match s.slots[i]
    case None => s
    case Some(j) =>
      if !s.queue[j].active then s
      else
        AgingKeepsInv(p, s, i, j);
        var q, q' := s.queue[j], AgeProcess(p, s.queue[j]);
        s.(avail := s.avail + Held(p.wait, q.pages) - Held(p.wait, q'.pages),
           queue := s.queue[j := q'])
  }

  function AllAge(p: Params, s: State, n: nat): (r: State)
    requires ParamsOk(p) && Inv(p, s) && n <= p.procs
    ensures Inv(p, r) && |r.queue| == |s.queue| && r.slots == s.slots && r.next == s.next
  {
    if n == 0 then s else AgeSlot(p, AllAge(p, s, n - 1), n - 1)
  }

  // ---- what a pager can ask for

  /** The process a request may name. */
  predicate Runs(p: Params, s: State, i: int)
    requires Shape(p, s) && p.procs <= p.slots
  {
    0 <= i < p.procs && s.slots[i].Some? && s.queue[s.slots[i].value].active
  }

  function SetPage(s: State, j: nat, g: nat, v: int): State
    requires j < |s.queue| && g < |s.queue[j].pages|
  {
    s.(queue := s.queue[j := s.queue[j].(pages := s.queue[j].pages[g := v])])
  }

  function PageOut(p: Params, s: State, i: int, g: int): (r: (State, bool))
    requires ParamsOk(p) && Inv(p, s)
    ensures Inv(p, r.0) && |r.0.queue| == |s.queue| && r.0.slots == s.slots && r.0.next == s.next
  {
    if !Runs(p, s, i) || g < 0 || g >= p.npages then (s, false)
    else
      var j := s.slots[i].value;
      var v := s.queue[j].pages[g];
      if v < 0 then (s, true)
      else if v > 0 then (s, false)
      else
        SetPageKeepsInv(p, s, j, g, -1);
        (SetPage(s, j, g, -1), true)
  }

  function PageIn(p: Params, s: State, i: int, g: int): (r: (State, bool))
    requires ParamsOk(p) && Inv(p, s)
    ensures Inv(p, r.0) && |r.0.queue| == |s.queue| && r.0.slots == s.slots && r.0.next == s.next
  {
    if !Runs(p, s, i) || g < 0 || g >= p.npages then (s, false)
    else
      var j := s.slots[i].value;
      var q := s.queue[j];
      if p.guarded && CurrentPage(p, q) != g then (s, false)
      else if q.pages[g] >= 0 then (s, true)
      else if s.avail == 0 then (s, false)
      else if q.pages[g] >= -p.wait then (s, false)
      else
        SetPageKeepsInv(p, s, j, g, p.wait);
        (SetPage(s, j, g, p.wait).(avail := s.avail - 1), true)
  }

  /** The state of a page of the process in slot i. */
  function PageState(p: Params, s: State, i: nat, g: nat): int
    requires ParamsOk(p) && Inv(p, s) && Runs(p, s, i) && g < p.npages
  {
    s.queue[s.slots[i].value].pages[g]
  }

  /** What the answer of pagein tells the pager: unless the guard refuses it, the answer is
      yes exactly if the page is now resident or coming; no changes nothing, and means that no
      frame is free or the page is still going out; only a page that was out takes a frame. */
  lemma PageInMeans(p: Params, s: State, i: nat, g: nat)
    requires ParamsOk(p) && Inv(p, s) && Runs(p, s, i) && g < p.npages
    ensures var (r, ok) := PageIn(p, s, i, g);
      && Runs(p, r, i)
      && (if p.guarded && CurrentPage(p, s.queue[s.slots[i].value]) != g then !ok
          else ok <==> PageState(p, r, i, g) >= 0)
      && (!ok ==> r == s)
      && (!ok && !p.guarded ==> s.avail == 0 || -p.wait <= PageState(p, s, i, g) < 0)
      && (s.avail - r.avail == if ok && PageState(p, s, i, g) < 0 then 1 else 0)
      && (r.avail < s.avail ==> PageState(p, s, i, g) == -p.wait - 1 && PageState(p, r, i, g) == p.wait)
  {
  }

  /** The answer of pageout is yes exactly if the page is now out or on its way out, and its
      frame stays in use until it is. */
  lemma PageOutMeans(p: Params, s: State, i: nat, g: nat)
    requires ParamsOk(p) && Inv(p, s) && Runs(p, s, i) && g < p.npages
    ensures var (r, ok) := PageOut(p, s, i, g);
      && Runs(p, r, i) && (ok <==> PageState(p, r, i, g) < 0) && r.avail == s.avail
      && (r != s <==> PageState(p, s, i, g) == 0)
      && (PageState(p, s, i, g) == 0 ==> PageState(p, r, i, g) == -1)
  {
    if PageState(p, s, i, g) == 0 {
      assert PageOut(p, s, i, g).0.queue[s.slots[i].value] != s.queue[s.slots[i].value];
    }
  }

  datatype Op = In(slot: int, page: int) | Out(slot: int, page: int)

  function Apply(p: Params, s: State, op: Op): (r: State)
    requires ParamsOk(p) && Inv(p, s)
    ensures Inv(p, r) && |r.queue| == |s.queue| && r.slots == s.slots && r.next == s.next
  {
    match op
    case In(i, g) => PageIn(p, s, i, g).0
    case Out(i, g) => PageOut(p, s, i, g).0
  }

  function ApplyAll(p: Params, s: State, ops: seq<Op>): (r: State)
    requires ParamsOk(p) && Inv(p, s)
    ensures Inv(p, r) && |r.queue| == |s.queue| && r.slots == s.slots && r.next == s.next
  {
    if ops == [] then s else Apply(p, ApplyAll(p, s, ops[..|ops| - 1]), ops[|ops| - 1])
  }

  /** One round of the main loop with a pager that makes these requests. */
  function Round(p: Params, s: State, ops: seq<Op>): (r: State)
    requires ParamsOk(p) && Inv(p, s)
    ensures Inv(p, r) && |r.queue| == |s.queue|
  {
    ApplyAll(p, AllAge(p, AllStep(p, s, p.procs), p.procs), ops)
  }

  /** Any number of rounds, each with the requests of its pager call. */
  function Run(p: Params, s: State, opss: seq<seq<Op>>): (r: State)
    requires ParamsOk(p) && Inv(p, s)
    ensures Inv(p, r) && |r.queue| == |s.queue|
  {
    if opss == [] then s else Round(p, Run(p, s, opss[..|opss| - 1]), opss[|opss| - 1])
  }

  /** What a pager is shown of a slot. */
  datatype Entry = Entry(active: bool, pc: int, pages: seq<bool>)

  function EntryOf(p: Params, s: State, i: nat): Entry
    requires Shape(p, s) && i < |s.slots|
  {
    match s.slots[i]
    case None => Entry(false, 0, seq(p.npages, g => false))
    case Some(j) =>
      var q := s.queue[j];
      Entry(q.active, q.core.pc, seq(|q.pages|, g requires 0 <= g < |q.pages| => q.pages[g] == 0))
  }

  function View(p: Params, s: State): (v: seq<Entry>)
    requires Shape(p, s)
    ensures |v| == p.slots
  {
    seq(|s.slots|, i requires 0 <= i < |s.slots| => EntryOf(p, s, i))
  }

  // ---- the invariant of all runs

  predicate SlotsOk(p: Params, s: State) {
    && |s.slots| == p.slots && s.next <= |s.queue|
    && (forall i :: 0 <= i < |s.slots| && s.slots[i].Some? ==> i < p.procs && s.slots[i].value < s.next)
    && (forall i, k :: 0 <= i < k < |s.slots| && s.slots[i].Some? ==> s.slots[i] != s.slots[k])
    && (s.next < |s.queue| ==> forall i :: 0 <= i < p.procs && i < |s.slots| ==> s.slots[i].Some?)
  }

  predicate InSlot(s: State, j: nat) {
    exists i :: 0 <= i < |s.slots| && s.slots[i] == Some(j)
  }

  /** A job is waiting, or in a slot, or has reached an exit and holds nothing. */
  predicate JobOk(p: Params, s: State, j: nat)
    requires j < |s.queue|
  {
    var q := s.queue[j];
    && (j >= s.next ==> q.active && AllOut(p, q))
    && (j < s.next ==> (q.active <==> InSlot(s, j)))
    && (!q.active ==> AllOut(p, q) && q.core.pc in q.program.exits)
  }

  predicate FramesOk(p: Params, s: State) {
    s.avail >= 0 && s.avail + Used(p, s.queue) == p.frames
  }

  predicate Inv(p: Params, s: State) {
    && Shape(p, s)
    && SlotsOk(p, s)
    && FramesOk(p, s)
    && JobsOk(p, s)
  }

  predicate JobsOk(p: Params, s: State) {
    forall j: nat :: j < |s.queue| ==> JobOk(p, s, j)
  }

  lemma UpdateJob(p: Params, s: State, j: nat, q: Process)
    requires j < |s.queue|
    ensures Used(p, s.queue[j := q]) == Used(p, s.queue) - Held(p.wait, s.queue[j].pages) + Held(p.wait, q.pages)
  {
    SumOfUpdate(s.queue, j, q, HeldBy(p.wait));
  }

  lemma SetPageKeepsInv(p: Params, s: State, j: nat, g: nat, v: int)
    requires ParamsOk(p) && Inv(p, s) && InSlot(s, j) && j < s.next && s.queue[j].active
    requires g < p.npages && -p.wait - 1 <= v <= p.wait
    requires HeldFlag(p.wait)(v) - HeldFlag(p.wait)(s.queue[j].pages[g]) <= s.avail
    ensures Inv(p, SetPage(s, j, g, v).(
      avail := s.avail - HeldFlag(p.wait)(v) + HeldFlag(p.wait)(s.queue[j].pages[g])))
  {
    var q' := SetPage(s, j, g, v).queue[j];
    UpdateJob(p, s, j, q');
    SumOfUpdate(s.queue[j].pages, g, v, HeldFlag(p.wait));
    var s' := SetPage(s, j, g, v).(
      avail := s.avail - HeldFlag(p.wait)(v) + HeldFlag(p.wait)(s.queue[j].pages[g]));
    forall k: nat | k < |s'.queue| ensures JobOk(p, s', k) {
      assert JobOk(p, s, k);
      assert InSlot(s', k) <==> InSlot(s, k);
    }
  }

  /** Slot i was just emptied of a job that is finished. */
  lemma RefillKeepsInv(p: Params, s: State, i: nat)
    requires ParamsOk(p) && i < p.procs && Shape(p, s) && SlotsOk(p, s) && FramesOk(p, s)
    requires forall j: nat :: j < |s.queue| && s.slots[i] != Some(j) ==> JobOk(p, s, j)
    requires s.slots[i].Some? ==>
      var q := s.queue[s.slots[i].value];
      !q.active && AllOut(p, q) && q.core.pc in q.program.exits
    ensures Inv(p, Refill(s, i))
  {
    var s' := Refill(s, i);
    forall j: nat | j < |s'.queue| ensures JobOk(p, s', j) {
      if s.slots[i] == Some(j) {
        assert !InSlot(s', j);
      } else {
        assert JobOk(p, s, j);
        if j == s.next {
          assert s'.slots[i] == Some(j);
        } else {
          InSlotElsewhere(s, s', i, j);
        }
      }
    }
  }

  /** Changing slot i does not matter to a job that is not there before or after. */
  lemma InSlotElsewhere(s: State, s': State, i: nat, j: nat)
    requires i < |s.slots| == |s'.slots| && s'.slots == s.slots[i := s'.slots[i]]
    requires s.slots[i] != Some(j) && s'.slots[i] != Some(j)
    ensures InSlot(s', j) <==> InSlot(s, j)
  {
    if InSlot(s, j) {
      var k :| 0 <= k < |s.slots| && s.slots[k] == Some(j);
      assert s'.slots[k] == Some(j);
    }
  }

  /** A change to one job that keeps its place and accounts for its frames. */
  lemma ChangeJob(p: Params, s: State, j: nat, q: Process)
    requires Inv(p, s) && j < |s.queue| && ProcessOk(p, q)
    requires Held(p.wait, q.pages) <= Held(p.wait, s.queue[j].pages)
    ensures var s' := s.(avail := s.avail + Held(p.wait, s.queue[j].pages) - Held(p.wait, q.pages),
                         queue := s.queue[j := q]);
      && Shape(p, s') && SlotsOk(p, s') && FramesOk(p, s')
      && (forall k: nat :: k < |s'.queue| && k != j ==> JobOk(p, s', k))
  {
    var s' := s.(avail := s.avail + Held(p.wait, s.queue[j].pages) - Held(p.wait, q.pages),
                 queue := s.queue[j := q]);
    UpdateJob(p, s, j, q);
    forall k: nat | k < |s'.queue| && k != j ensures JobOk(p, s', k) {
      assert JobOk(p, s, k);
      assert InSlot(s', k) <==> InSlot(s, k);
    }
  }

  lemma GoingOnKeepsInv(p: Params, s: State, i: nat, j: nat)
    requires ParamsOk(p) && Inv(p, s) && i < p.procs && s.slots[i] == Some(j)
    requires ProcessStep(p, s.queue[j]).1
    ensures Inv(p, s.(queue := s.queue[j := ProcessStep(p, s.queue[j]).0]))
  {
    var q := ProcessStep(p, s.queue[j]).0;
    var s' := s.(queue := s.queue[j := q]);
    assert JobOk(p, s, j);
    ChangeJob(p, s, j, q);
    assert s'.slots[i] == Some(j);
  }

  lemma FinishedProcess(p: Params, q: Process)
    requires ParamsOk(p) && ProcessOk(p, q) && q.active && !ProcessStep(p, q).1
    ensures var r, u := ProcessStep(p, q).0, Unloaded(p, ProcessStep(p, q).0);
      && r.active && Held(p.wait, r.pages) == Held(p.wait, q.pages) >= 0
      && !u.active && AllOut(p, u) && Held(p.wait, u.pages) == 0 && u.core.pc in u.program.exits
  {
    HeldBounds(p, q);
    AllOutHoldsNothing(p, Unloaded(p, ProcessStep(p, q).0));
  }

  lemma FinishingKeepsInv(p: Params, s: State, i: nat, j: nat)
    requires ParamsOk(p) && Inv(p, s) && i < p.procs && s.slots[i] == Some(j)
    requires !ProcessStep(p, s.queue[j]).1
    ensures ProcessStep(p, s.queue[j]).0.active
    ensures var q := ProcessStep(p, s.queue[j]).0;
      Inv(p, Refill(s.(avail := s.avail + Held(p.wait, q.pages), queue := s.queue[j := Unloaded(p, q)]), i))
  {
    hide ProcessStep, Unloaded, AllOut, FramesOk;
    var q := ProcessStep(p, s.queue[j]).0;
    assert JobOk(p, s, j) && InSlot(s, j);
    FinishedProcess(p, s.queue[j]);
    ChangeJob(p, s, j, Unloaded(p, q));
    RefillKeepsInv(p, s.(avail := s.avail + Held(p.wait, q.pages), queue := s.queue[j := Unloaded(p, q)]), i);
  }

  lemma AgeHeld(p: Params, q: Process)
    requires ProcessOk(p, q)
    ensures Held(p.wait, AgeProcess(p, q).pages) <= Held(p.wait, q.pages)
  {
    SumOfLe(AgeProcess(p, q).pages, HeldFlag(p.wait), q.pages, HeldFlag(p.wait));
  }

  lemma AgingKeepsInv(p: Params, s: State, i: nat, j: nat)
    requires ParamsOk(p) && Inv(p, s) && i < p.procs && s.slots[i] == Some(j)
    ensures var q, q' := s.queue[j], AgeProcess(p, s.queue[j]);
      Inv(p, s.(avail := s.avail + Held(p.wait, q.pages) - Held(p.wait, q'.pages),
                queue := s.queue[j := q']))
  {
    assert JobOk(p, s, j) && InSlot(s, j);
    AgeHeld(p, s.queue[j]);
    ChangeJob(p, s, j, AgeProcess(p, s.queue[j]));
  }

  function BlockOf(q: Process): int { q.block }

  function ComputeOf(q: Process): int { q.compute }

  // ---- start and end

  predicate FreshJob(p: Params, q: Process) {
    ProcessOk(p, q) && q.active && AllOut(p, q) && q.compute == 0 && q.block == 0
  }

  /** allinit: the first jobs go to the first slots, all frames are free. */
  function Init(p: Params, jobs: seq<Process>): State {
    var loaded := if |jobs| < p.procs then |jobs| else p.procs;
    State(p.frames, jobs, seq(p.slots, i => if 0 <= i < loaded then Some(i) else None), loaded)
  }

  lemma InitOk(p: Params, jobs: seq<Process>)
    requires ParamsOk(p) && forall j :: 0 <= j < |jobs| ==> FreshJob(p, jobs[j])
    ensures Inv(p, Init(p, jobs))
  {
    var s := Init(p, jobs);
    forall j: nat | j < |jobs| ensures JobOk(p, s, j) && Held(p.wait, jobs[j].pages) == 0 {
      AllOutHoldsNothing(p, jobs[j]);
      if j < s.next {
        assert s.slots[j] == Some(j);
      }
    }
    SumOfConst(jobs, HeldBy(p.wait), 0);
  }

  /** Frames are conserved on every run, whatever the pager asks for: the free ones and
      those occupied by pages of any job always add up to the total, the pool is never
      overdrawn, every countdown stays in range, and no two slots share a job. */
  lemma FramesConserved(p: Params, jobs: seq<Process>, opss: seq<seq<Op>>)
    requires ParamsOk(p) && forall j :: 0 <= j < |jobs| ==> FreshJob(p, jobs[j])
    ensures Inv(p, Init(p, jobs))
    ensures var s := Run(p, Init(p, jobs), opss);
      && |s.queue| == |jobs|
      && s.avail + Used(p, s.queue) == p.frames && s.avail >= 0
      && (forall j :: 0 <= j < |s.queue| ==> |s.queue[j].pages| == p.npages)
      && (forall j, g :: 0 <= j < |s.queue| && 0 <= g < p.npages ==>
           -p.wait - 1 <= s.queue[j].pages[g] <= p.wait)
      && (forall i, k :: 0 <= i < k < |s.slots| && s.slots[i].Some? ==> s.slots[i] != s.slots[k])
  {
    InitOk(p, jobs);
  }

  /** alldone: the main loop's test. */
  predicate AllDone(p: Params, s: State)
    requires ParamsOk(p) && Shape(p, s)
  {
    forall i: nat :: i < p.procs ==> s.slots[i].None? || !s.queue[s.slots[i].value].active
  }

  /** When the main loop ends, every job has been loaded and has reached an exit, and all
      frames are free. */
  lemma EndOfRun(p: Params, s: State)
    requires ParamsOk(p) && Inv(p, s) && AllDone(p, s)
    ensures s.next == |s.queue| && s.avail == p.frames
    ensures forall j :: 0 <= j < |s.queue| ==>
      !s.queue[j].active && s.queue[j].core.pc in s.queue[j].program.exits
  {
    forall i: nat | i < p.procs ensures s.slots[i].None? {
      if s.slots[i].Some? {
        assert JobOk(p, s, s.slots[i].value) && InSlot(s, s.slots[i].value);
      }
    }
    assert s.slots[0].None?;
    forall j: nat | j < |s.queue|
      ensures !s.queue[j].active && s.queue[j].core.pc in s.queue[j].program.exits
      ensures Held(p.wait, s.queue[j].pages) == 0
    {
      assert JobOk(p, s, j);
      assert !InSlot(s, j);
      AllOutHoldsNothing(p, s.queue[j]);
    }
    SumOfConst(s.queue, HeldBy(p.wait), 0);
  }
}
