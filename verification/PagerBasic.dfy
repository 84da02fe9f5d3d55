/** The basic pager composed with the simulator: it serves the first active slot it can,
    one page at a time, and never takes a page away. */
module PagerBasic {
  import opened Paging
  import opened RoundEffects
  import opened Sums
  import S = Simulator

  /** The pager's scan from slot i on: past idle slots, and past slots whose request is
      refused, to the first slot that is served or needs nothing. */
  function Scan(p: Params, s: State, i: nat): (r: State)
    requires ParamsOk(p) && Inv(p, s) && i <= p.slots
    ensures Inv(p, r) && |r.queue| == |s.queue| && r.slots == s.slots && r.next == s.next
    decreases p.slots - i
  {
    if i == p.slots then s
    else if !EntryOf(p, s, i).active then Scan(p, s, i + 1)
    else
      var j := s.slots[i].value;
      var page := CurrentPage(p, s.queue[j]);
      if s.queue[j].pages[page] == 0 then s
      else
        var (r, ok) := PageIn(p, s, i, page);
        if ok then r else Scan(p, s, i + 1)
  }

  /** One call of the pager. Its victim loop does nothing: it tests whether the incoming page
      is in memory, and it got there only because it is not. So no page ever goes out. */
  method PageIt(q: seq<Entry>, sim: S.Simulator)
    requires sim.Valid() && q == View(sim.p, sim.Abs())
    modifies sim`pagesavail, sim.queue
    ensures sim.Valid() && sim.Abs() == Scan(sim.p, old(sim.Abs()), 0)
  {
    var proc := 0;
    while proc < sim.p.slots
      invariant 0 <= proc <= sim.p.slots
      invariant sim.Valid() && sim.Abs() == old(sim.Abs())
      invariant Scan(sim.p, old(sim.Abs()), 0) == Scan(sim.p, old(sim.Abs()), proc)
    {
      ghost var s := sim.Abs();
      assert q[proc] == EntryOf(sim.p, s, proc);
      if q[proc].active {
        var page := q[proc].pc / sim.p.psize;
        assert page == CurrentPage(sim.p, s.queue[s.slots[proc].value]);
        if q[proc].pages[page] {
          return;
        }
        var ok := sim.PageIn(proc, page);
        if ok {
          return;
        }
        for vic := 1 to sim.p.npages + 1 {
          if q[proc].pages[page] {
            assert false;
          }
        }
      }
      proc := proc + 1;
    }
  }

  /** Slot l is the first slot with a job. */
  predicate Lowest(p: Params, s: State, l: nat)
    requires Shape(p, s)
  {
    l < p.slots && s.slots[l].Some? && forall i :: 0 <= i < l ==> s.slots[i].None?
  }

  /** Only the first job holds frames. */
  predicate OnlyLowestHolds(p: Params, s: State)
    requires Shape(p, s)
  {
    forall i: nat, k: nat :: i < k < p.slots && s.slots[i].Some? ==> SlotHoldsNothing(p, s, k)
  }

  predicate NoneLeaving(p: Params, s: State)
    requires Shape(p, s)
  {
    forall i: nat, g: nat :: i < p.slots && s.slots[i].Some? && g < p.npages ==>
      s.queue[s.slots[i].value].pages[g] >= 0 || s.queue[s.slots[i].value].pages[g] == -p.wait - 1
  }

  predicate BasicInv(p: Params, s: State) {
    ParamsOk(p) && Inv(p, s) && OnlyLowestHolds(p, s) && NoneLeaving(p, s)
  }

  lemma TickKeepsLowest(p: Params, s: State, i: nat, k: nat)
    requires BasicInv(p, s) && i < k < p.slots && Tick(p, s).slots[i].Some?
    ensures SlotHoldsNothing(p, Tick(p, s), k)
  {
    hide JobsOk, FramesOk, Tick;
    if k < p.procs {
      TickAt(p, s, i);
      TickAt(p, s, k);
      if s.slots[i].Some? {
        assert SlotHoldsNothing(p, s, k);
      }
    }
  }

  lemma TickKeepsNoneLeaving(p: Params, s: State, i: nat)
    requires ParamsOk(p) && Inv(p, s) && NoneLeaving(p, s) && i < p.slots && Tick(p, s).slots[i].Some?
    ensures forall g: nat :: g < p.npages ==>
      var v := Tick(p, s).queue[Tick(p, s).slots[i].value].pages[g]; v >= 0 || v == -p.wait - 1
  {
    hide JobsOk, FramesOk, Tick;
    if i < p.procs {
      TickAt(p, s, i);
    }
  }

  lemma TickKeepsBasicInv(p: Params, s: State)
    requires BasicInv(p, s)
    ensures BasicInv(p, Tick(p, s))
  {
    var r := Tick(p, s);
    forall i: nat, k: nat | i < k < p.slots && r.slots[i].Some? ensures SlotHoldsNothing(p, r, k) {
      TickKeepsLowest(p, s, i, k);
    }
    forall i: nat, g: nat | i < p.slots && r.slots[i].Some? && g < p.npages
      ensures r.queue[r.slots[i].value].pages[g] >= 0 || r.queue[r.slots[i].value].pages[g] == -p.wait - 1
    {
      TickKeepsNoneLeaving(p, s, i);
    }
  }

  /** All frames in use are those of the first job. */
  lemma LowestHoldsAll(p: Params, s: State, l: nat)
    requires BasicInv(p, s) && Lowest(p, s, l)
    ensures s.queue[s.slots[l].value].active
    ensures s.avail == p.frames - Held(p.wait, s.queue[s.slots[l].value].pages)
    ensures s.avail >= p.frames - p.npages
  {
    var j := s.slots[l].value;
    assert JobOk(p, s, j) && InSlot(s, j);
    forall k: nat | k < |s.queue| && k != j ensures Held(p.wait, s.queue[k].pages) == 0 {
      assert JobOk(p, s, k);
      if k < s.next && s.queue[k].active {
        var i: nat :| i < |s.slots| && s.slots[i] == Some(k);
        assert SlotHoldsNothing(p, s, i);
      }
      AllOutHoldsNothing(p, s.queue[k]);
    }
    SumOfOnly(s.queue, HeldBy(p.wait), j);
    HeldBounds(p, s.queue[j]);
  }

  /** The first job's current page is resident or coming, or the request for it succeeds. */
  lemma LowestIsServed(p: Params, s: State, l: nat)
    requires BasicInv(p, s) && Lowest(p, s, l) && p.frames >= p.npages
    ensures PageIn(p, s, l, CurrentPage(p, s.queue[s.slots[l].value])).1
  {
    var q := s.queue[s.slots[l].value];
    var g := CurrentPage(p, q);
    LowestHoldsAll(p, s, l);
    if q.pages[g] < 0 {
      SumOfFlags(q.pages, HeldFlag(p.wait));
      assert HeldFlag(p.wait)(q.pages[g]) == 0;
    }
  }

  lemma {:induction false} ScanSkips(p: Params, s: State, i: nat, l: nat)
    requires ParamsOk(p) && Inv(p, s) && i <= l <= p.slots
    requires forall k :: 0 <= k < l ==> s.slots[k].None?
    ensures Scan(p, s, i) == Scan(p, s, l)
    decreases l - i
  {
    if i < l {
      ScanSkips(p, s, i + 1, l);
    }
  }

  /** The pager's whole effect: the request for the first job's page if it is not resident. */
  function Serve(p: Params, s: State, l: nat): State
    requires ParamsOk(p) && Inv(p, s) && Lowest(p, s, l)
  {
    var g := CurrentPage(p, s.queue[s.slots[l].value]);
    if s.queue[s.slots[l].value].pages[g] == 0 then s else PageIn(p, s, l, g).0
  }

  lemma ScanServesLowest(p: Params, s: State, l: nat)
    requires BasicInv(p, s) && Lowest(p, s, l) && p.frames >= p.npages
    ensures Scan(p, s, 0) == Serve(p, s, l)
  {
    ScanSkips(p, s, 0, l);
    LowestHoldsAll(p, s, l);
    LowestIsServed(p, s, l);
  }

  lemma ServeKeepsBasicInv(p: Params, s: State, l: nat)
    requires BasicInv(p, s) && Lowest(p, s, l)
    ensures BasicInv(p, Serve(p, s, l))
  {
    var r := Serve(p, s, l);
    if r != s {
      var j := s.slots[l].value;
      forall i: nat, k: nat | i < k < p.slots && r.slots[i].Some? ensures SlotHoldsNothing(p, r, k) {
        assert SlotHoldsNothing(p, s, k);
      }
    }
  }

  /** One round of the main loop under this pager, and n of them. */
  function BasicRound(p: Params, s: State): (r: State)
    requires ParamsOk(p) && Inv(p, s)
    ensures Inv(p, r) && |r.queue| == |s.queue| && r.next >= s.next
  {
    Scan(p, Tick(p, s), 0)
  }

  function BasicRun(p: Params, s: State, n: nat): (r: State)
    requires ParamsOk(p) && Inv(p, s)
    ensures Inv(p, r) && |r.queue| == |s.queue|
  {
    if n == 0 then s else BasicRound(p, BasicRun(p, s, n - 1))
  }

  // ---- every run under this pager is a run of the simulator with some requests

  lemma OneRequest(p: Params, s: State, op: Op)
    requires ParamsOk(p) && Inv(p, s)
    ensures ApplyAll(p, s, [op]) == Apply(p, s, op)
  {
    hide Inv, Apply;
    assert [op][..0] == [];
  }

  lemma {:induction false} ScanIsRequests(p: Params, s: State, i: nat) returns (ops: seq<Op>)
    requires ParamsOk(p) && Inv(p, s) && i <= p.slots
    ensures Scan(p, s, i) == ApplyAll(p, s, ops)
    decreases p.slots - i
  {
    hide SlotsOk, JobsOk, FramesOk, PageIn;
    ops := [];
    if i < p.slots {
      if EntryOf(p, s, i).active {
        var page := CurrentPage(p, s.queue[s.slots[i].value]);
        if s.queue[s.slots[i].value].pages[page] != 0 {
          if PageIn(p, s, i, page).1 {
            ops := [In(i, page)];
            OneRequest(p, s, In(i, page));
          } else {
            ops := ScanIsRequests(p, s, i + 1);
          }
        }
      } else {
        ops := ScanIsRequests(p, s, i + 1);
      }
    }
  }

  lemma {:induction false} BasicRunIsRun(p: Params, s: State, n: nat) returns (opss: seq<seq<Op>>)
    requires ParamsOk(p) && Inv(p, s)
    ensures |opss| == n && BasicRun(p, s, n) == Run(p, s, opss)
  {
    hide Inv, Scan, ApplyAll;
    if n == 0 {
      opss := [];
    } else {
      var before := BasicRunIsRun(p, s, n - 1);
      var ops := ScanIsRequests(p, Tick(p, BasicRun(p, s, n - 1)), 0);
      opss := before + [ops];
      assert opss[..n - 1] == before;
    }
  }

  lemma FindLowest(p: Params, s: State) returns (l: nat)
    requires Shape(p, s)
    ensures if l < p.slots then Lowest(p, s, l) else l == p.slots && forall i :: 0 <= i < p.slots ==> s.slots[i].None?
  {
    l := 0;
    while l < p.slots && s.slots[l].None?
      invariant l <= p.slots && forall i :: 0 <= i < l ==> s.slots[i].None?
    {
      l := l + 1;
    }
  }

  lemma RoundKeepsBasicInv(p: Params, s: State)
    requires BasicInv(p, s) && p.frames >= p.npages
    ensures BasicInv(p, BasicRound(p, s))
  {
    TickKeepsBasicInv(p, s);
    var r := Tick(p, s);
    var l := FindLowest(p, r);
    if l < p.slots {
      ScanServesLowest(p, r, l);
      ServeKeepsBasicInv(p, r, l);
    } else {
      ScanSkips(p, r, 0, l);
    }
  }

  lemma {:induction false} RunKeepsBasicInv(p: Params, s: State, n: nat)
    requires BasicInv(p, s) && p.frames >= p.npages
    ensures BasicInv(p, BasicRun(p, s, n))
  {
    hide Inv, OnlyLowestHolds, NoneLeaving, BasicRound;
    if n > 0 {
      RunKeepsBasicInv(p, s, n - 1);
      RoundKeepsBasicInv(p, BasicRun(p, s, n - 1));
    }
  }

  lemma StartsBasic(p: Params, jobs: seq<Process>)
    requires ParamsOk(p) && forall j :: 0 <= j < |jobs| ==> FreshJob(p, jobs[j])
    ensures Inv(p, Init(p, jobs)) && BasicInv(p, Init(p, jobs))
  {
    InitOk(p, jobs);
  }

  /** In every reachable state only the first active slot's job holds frames, so all but
      npages of them are free, no page is on its way out, and the pager's next request for
      that job cannot fail. */
  lemma OnlyOneJobAtATime(p: Params, jobs: seq<Process>, n: nat)
    requires ParamsOk(p) && p.frames >= p.npages && forall j :: 0 <= j < |jobs| ==> FreshJob(p, jobs[j])
    ensures Inv(p, Init(p, jobs)) && BasicInv(p, BasicRun(p, Init(p, jobs), n))
    ensures var s := BasicRun(p, Init(p, jobs), n);
      forall l: nat :: Lowest(p, s, l) ==>
        && s.avail >= p.frames - p.npages
        && s.avail == p.frames - Held(p.wait, s.queue[s.slots[l].value].pages)
        && PageIn(p, s, l, CurrentPage(p, s.queue[s.slots[l].value])).1
  {
    StartsBasic(p, jobs);
    var s := BasicRun(p, Init(p, jobs), n);
    RunKeepsBasicInv(p, Init(p, jobs), n);
    forall l: nat | Lowest(p, s, l)
      ensures s.avail >= p.frames - p.npages
      ensures s.avail == p.frames - Held(p.wait, s.queue[s.slots[l].value].pages)
      ensures PageIn(p, s, l, CurrentPage(p, s.queue[s.slots[l].value])).1
    {
      LowestHoldsAll(p, s, l);
      LowestIsServed(p, s, l);
    }
  }

  // ---- how long a fault lasts, and how often a page faults

  /** The first job waits for page g, which arrives in v ticks; it has not moved since q. */
  predicate Waiting(p: Params, s: State, l: nat, q: Process, g: nat, v: int)
    requires ParamsOk(p) && Inv(p, s)
  {
    && Lowest(p, s, l)
    && var q' := s.queue[s.slots[l].value];
       && q'.active && q'.core == q.core && q'.program == q.program
       && q'.compute == q.compute && q'.block == q.block + p.wait - v
       && g == CurrentPage(p, q') && q'.pages[g] == v
  }

  lemma TickWhileWaiting(p: Params, s: State, l: nat, q: Process, g: nat, v: int)
    requires BasicInv(p, s) && Waiting(p, s, l, q, g, v) && 0 < v <= p.wait
    ensures Waiting(p, Tick(p, s), l, q, g, v - 1)
    ensures Tick(p, s).slots[l] == s.slots[l]
  {
    hide JobsOk, FramesOk, Tick;
    TickAt(p, s, l);
    forall i: nat | i < l ensures Tick(p, s).slots[i].None? {
      TickAt(p, s, i);
    }
  }

  /** A served fault blocks the job exactly `wait` ticks: each round brings the page one tick
      nearer and costs the job one blocked tick, and after the last one the job computes. */
  lemma {:induction false} FaultBlocksExactlyWait(p: Params, s: State, l: nat, n: nat)
    requires BasicInv(p, s) && p.frames >= p.npages && Lowest(p, s, l) && n <= p.wait
    requires var q := s.queue[s.slots[l].value]; q.active && q.pages[CurrentPage(p, q)] == p.wait
    ensures var q, r := s.queue[s.slots[l].value], BasicRun(p, s, n);
      && Waiting(p, r, l, q, CurrentPage(p, q), p.wait - n) && r.slots[l] == s.slots[l]
      && (n == p.wait ==> ProcessStep(p, r.queue[s.slots[l].value]).0.compute == q.compute + 1)
  {
    hide OnlyLowestHolds, NoneLeaving, SlotsOk, JobsOk, FramesOk, BasicRound;
    if n > 0 {
      var q, r := s.queue[s.slots[l].value], BasicRun(p, s, n - 1);
      FaultBlocksExactlyWait(p, s, l, n - 1);
      RunKeepsBasicInv(p, s, n - 1);
      RoundWhileWaiting(p, r, l, q, CurrentPage(p, q), p.wait - n + 1);
    }
  }

  lemma RoundWhileWaiting(p: Params, s: State, l: nat, q: Process, g: nat, v: int)
    requires BasicInv(p, s) && p.frames >= p.npages && Waiting(p, s, l, q, g, v) && 0 < v <= p.wait
    ensures Waiting(p, BasicRound(p, s), l, q, g, v - 1)
    ensures BasicRound(p, s).slots[l] == s.slots[l]
  {
    TickWhileWaiting(p, s, l, q, g, v);
    TickKeepsBasicInv(p, s);
    ScanServesLowest(p, Tick(p, s), l);
  }

  lemma {:induction false} ScanKeepsPresent(p: Params, s: State, i: nat, k: nat, g: nat)
    requires ParamsOk(p) && Inv(p, s) && i <= p.slots && k < p.slots && s.slots[k].Some? && g < p.npages
    requires s.queue[s.slots[k].value].pages[g] >= 0
    ensures Scan(p, s, i).queue[s.slots[k].value].pages[g] >= 0
    decreases p.slots - i
  {
    hide JobsOk, FramesOk;
    if i < p.slots && EntryOf(p, s, i).active {
      var page := CurrentPage(p, s.queue[s.slots[i].value]);
      if !PageIn(p, s, i, page).1 {
        ScanKeepsPresent(p, s, i + 1, k, g);
      }
    } else if i < p.slots {
      ScanKeepsPresent(p, s, i + 1, k, g);
    }
  }

  lemma RoundKeepsPresent(p: Params, s: State, k: nat, j: nat, g: nat)
    requires ParamsOk(p) && Inv(p, s) && k < p.procs && j < s.next && g < p.npages
    requires s.slots[k] == Some(j) ==> s.queue[j].pages[g] >= 0
    requires BasicRound(p, s).slots[k] == Some(j)
    ensures s.slots[k] == Some(j) && BasicRound(p, s).queue[j].pages[g] >= 0
  {
    hide JobsOk, FramesOk, Tick, Scan;
    TickAt(p, s, k);
    ScanKeepsPresent(p, Tick(p, s), 0, k, g);
  }

  /** No page of a job faults twice: once it is in or coming, it stays for as long as the
      job keeps its slot. */
  lemma {:induction false} NoPageFaultsTwice(p: Params, s: State, n: nat, k: nat, j: nat, g: nat)
    requires ParamsOk(p) && Inv(p, s) && k < p.procs && s.slots[k] == Some(j) && g < p.npages
    requires s.queue[j].pages[g] >= 0
    ensures BasicRun(p, s, n).slots[k] == Some(j) ==> BasicRun(p, s, n).queue[j].pages[g] >= 0
    ensures BasicRun(p, s, n).next >= s.next
  {
    hide JobsOk, FramesOk, Tick, Scan;
    if n > 0 {
      var r := BasicRun(p, s, n - 1);
      NoPageFaultsTwice(p, s, n - 1, k, j, g);
      if BasicRound(p, r).slots[k] == Some(j) {
        RoundKeepsPresent(p, r, k, j, g);
      }
    }
  }
}
