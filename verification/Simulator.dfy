/** The simulator itself, updating its job queue, slots and frame pool in place. Every
    method is tied to the state machine of module Paging through Abs(). */
module Simulator {
  import opened BranchEngine
  import opened Programs
  import opened Sums
  import P = Paging

  class Simulator {
    const p: P.Params
    const queue: array<P.Process>
    const processes: array<Option<nat>>
    var pagesavail: int
    var queueend: nat

    ghost function Abs(): P.State
      reads this, queue, processes
    {
      P.State(pagesavail, queue[..], processes[..], queueend)
    }

    ghost predicate Valid()
      reads this, queue, processes
    {
      P.ParamsOk(p) && P.Inv(p, Abs())
    }

    /** allinit: the slots are filled from the front of the queue. */
    constructor (p: P.Params, jobs: seq<P.Process>)
      requires P.ParamsOk(p) && forall j :: 0 <= j < |jobs| ==> P.FreshJob(p, jobs[j])
      ensures this.p == p && Valid() && fresh(queue) && fresh(processes)
      ensures Abs() == P.Init(p, jobs)
    {
      this.p := p;
      pagesavail := p.frames;
      queueend := 0;
      queue := new P.Process[|jobs|](i requires 0 <= i < |jobs| => jobs[i]);
      processes := new Option<nat>[p.slots](i => None);
      new;
      for i := 0 to p.procs
        invariant queue[..] == jobs && pagesavail == p.frames
        invariant queueend == if i < |jobs| then i else |jobs|
        invariant forall k :: 0 <= k < p.slots ==> processes[k] == if k < queueend then Some(k) else None
      {
        if queueend < queue.Length {
          processes[i] := Some(queueend);
          queueend := queueend + 1;
        }
      }
      assert Abs() == P.Init(p, jobs);
      P.InitOk(p, jobs);
    }

    /** Swap one page out. */
    method PageOut(process: int, page: int) returns (ok: bool)
      requires Valid()
      modifies queue
      ensures Valid() && Abs() == P.PageOut(p, old(Abs()), process, page).0
      ensures ok == P.PageOut(p, old(Abs()), process, page).1
    {
      if process < 0 || process >= p.procs || processes[process].None?
         || !queue[processes[process].value].active || page < 0 || page >= p.npages {
        return false;
      }
      var j := processes[process].value;
      if queue[j].pages[page] < 0 {
        return true;
      }
      if queue[j].pages[page] > 0 {
        return false;
      }
      ghost var after := P.PageOut(p, Abs(), process, page).0;
      queue[j] := queue[j].(pages := queue[j].pages[page := -1]);
      assert queue[..] == after.queue;
      return true;
    }

    /** Swap one page in. */
    method PageIn(process: int, page: int) returns (ok: bool)
      requires Valid()
      modifies this`pagesavail, queue
      ensures Valid() && Abs() == P.PageIn(p, old(Abs()), process, page).0
      ensures ok == P.PageIn(p, old(Abs()), process, page).1
    {
      if process < 0 || process >= p.procs || processes[process].None?
         || !queue[processes[process].value].active {
        return false;
      }
      var j := processes[process].value;
      if p.guarded && queue[j].core.pc / p.psize != page {
        return false;
      }
      if page < 0 || page >= p.npages {
        return false;
      }
      if queue[j].pages[page] >= 0 {
        return true;
      }
      if pagesavail == 0 {
        return false;
      }
      if queue[j].pages[page] >= -p.wait {
        return false;
      }
      ghost var after := P.PageIn(p, Abs(), process, page).0;
      queue[j] := queue[j].(pages := queue[j].pages[page := p.wait]);
      pagesavail := pagesavail - 1;
      assert queue[..] == after.queue;
      return true;
    }

    /** process_step for job j. */
    method ProcessStep(j: nat) returns (goesOn: bool)
      requires P.ParamsOk(p) && j < queue.Length && P.ProcessOk(p, queue[j])
      modifies queue
      ensures queue[..] == old(queue[..])[j := P.ProcessStep(p, old(queue[j])).0]
      ensures goesOn == P.ProcessStep(p, old(queue[j])).1
    {
      var q := queue[j];
      if !q.active {
        return false;
      }
      var page := P.CurrentPage(p, q);
      if q.pages[page] != 0 {
        queue[j] := q.(block := q.block + 1);
        return true;
      }
      queue[j] := q.(compute := q.compute + 1);
      var exit := FindExit(q.program.exits, q.core.pc);
      if exit {
        return false;
      }
      var b := FindBranch(q.program.branches, q.core.pc);
      var pc, engines := q.core.pc + 1, q.core.engines;
      if b >= 0 {
        var (taken, e) := Decide(engines[b]);
        engines := engines[b := e];
        if taken {
          pc := q.program.branches[b].whereto;
        }
        if pc < 0 || pc >= q.program.size {
          pc := 0;
        }
      } else if pc < 0 || pc > q.program.size {
        pc := 0;
      }
      queue[j] := queue[j].(core := Core(pc, engines));
      return true;
    }

    /** process_unload: the pages are given back one by one. */
    method Unload(j: nat)
      requires P.ParamsOk(p) && j < queue.Length && P.ProcessOk(p, queue[j])
      modifies this`pagesavail, queue
      ensures queue[..] == old(queue[..])[j := P.Unloaded(p, old(queue[j]))]
      ensures pagesavail == old(pagesavail) + P.Held(p.wait, old(queue[j].pages))
    {
      ghost var q := queue[j];
      for g := 0 to p.npages
        invariant queue[..] == old(queue[..])[j := q.(pages := queue[j].pages)]
        invariant |queue[j].pages| == p.npages
        invariant forall k :: 0 <= k < p.npages ==>
          queue[j].pages[k] == if k < g then -p.wait - 1 else q.pages[k]
        invariant pagesavail + P.Held(p.wait, queue[j].pages) == old(pagesavail) + P.Held(p.wait, q.pages)
      {
        if queue[j].pages[g] >= -p.wait {
          SumOfUpdate(queue[j].pages, g, -p.wait - 1, P.HeldFlag(p.wait));
          pagesavail := pagesavail + 1;
          queue[j] := queue[j].(pages := queue[j].pages[g := -p.wait - 1]);
        }
      }
      queue[j] := queue[j].(active := false);
      assert queue[j].pages == P.Unloaded(p, q).pages;
      P.AllOutHoldsNothing(p, queue[j]);
    }

    /** The slot is cleared and, if the queue is not empty, given the next job. */
    method Refill(i: nat)
      requires i < processes.Length
      modifies this`queueend, processes
      ensures Abs() == P.Refill(old(Abs()), i)
    {
      processes[i] := None;
      if queueend < queue.Length {
        processes[i] := Some(queueend);
        queueend := queueend + 1;
      }
    }

    /** What allstep does for one slot. */
    method StepSlot(i: nat)
      requires Valid() && i < p.procs
      modifies this, queue, processes
      ensures Abs() == P.StepSlot(p, old(Abs()), i) && Valid()
    {
      ghost var s := Abs();
      assert s.slots[i] == processes[i];
      if processes[i].Some? {
        StepJob(i, processes[i].value);
      } else {
        Refill(i);
      }
      assert Abs() == P.StepSlot(p, s, i);
    }

    method StepJob(i: nat, j: nat)
      requires Valid() && i < p.procs && processes[i] == Some(j)
      modifies this, queue, processes
      ensures var q, goesOn := P.ProcessStep(p, old(queue[j])).0, P.ProcessStep(p, old(queue[j])).1;
        Abs() == if goesOn then old(Abs()).(queue := old(queue[..])[j := q])
                 else P.Refill(old(Abs()).(avail := old(pagesavail) + P.Held(p.wait, q.pages),
                                           queue := old(queue[..])[j := P.Unloaded(p, q)]), i)
    {
      assert queue[j].active by {
        assert P.JobOk(p, Abs(), j) && P.InSlot(Abs(), j);
      }
      var goesOn := ProcessStep(j);
      if !goesOn {
        if queue[j].active {
          Unload(j);
        }
        Refill(i);
      }
    }

    method AllStep()
      requires Valid()
      modifies this, queue, processes
      ensures Valid() && Abs() == P.AllStep(p, old(Abs()), p.procs)
    {
      for i := 0 to p.procs
        invariant Valid() && Abs() == P.AllStep(p, old(Abs()), i)
      {
        StepSlot(i);
      }
    }

    /** What allage does for one slot: every countdown moves on, page by page. */
    method AgeSlot(i: nat)
      requires Valid() && i < p.procs
      modifies this`pagesavail, queue
      ensures Valid() && Abs() == P.AgeSlot(p, old(Abs()), i)
    {
      ghost var before := Abs();
      if processes[i].Some? {
        var j := processes[i].value;
        if queue[j].active {
          AgePages(j);
        }
      }
      assert Abs() == P.AgeSlot(p, before, i);
    }

    method AgePages(j: nat)
      requires P.ParamsOk(p) && j < queue.Length && P.ProcessOk(p, queue[j])
      modifies this`pagesavail, queue
      ensures queue[..] == old(queue[..])[j := P.AgeProcess(p, old(queue[j]))]
      ensures forall g :: 0 <= g < p.npages ==>
        var v := old(queue[j]).pages[g];
        queue[j].pages[g] == if v > 0 || -p.wait <= v < 0 then v - 1 else v
      ensures pagesavail == old(pagesavail) + P.Held(p.wait, old(queue[j].pages))
                            - P.Held(p.wait, queue[j].pages)
    {
      ghost var q := queue[j];
      for g := 0 to p.npages
        invariant queue[..] == old(queue[..])[j := q.(pages := queue[j].pages)]
        invariant |queue[j].pages| == p.npages
        invariant forall k :: 0 <= k < p.npages ==>
          queue[j].pages[k] == if k < g then P.AgePage(p.wait, q.pages[k]) else q.pages[k]
        invariant pagesavail + P.Held(p.wait, queue[j].pages) == old(pagesavail) + P.Held(p.wait, q.pages)
      {
        var v := queue[j].pages[g];
        SumOfUpdate(queue[j].pages, g, v - 1, P.HeldFlag(p.wait));
        if v > 0 {
          queue[j] := queue[j].(pages := queue[j].pages[g := v - 1]);
        } else if v < 0 && v >= -p.wait {
          queue[j] := queue[j].(pages := queue[j].pages[g := v - 1]);
          if v - 1 < -p.wait {
            pagesavail := pagesavail + 1;
          }
        }
      }
      assert queue[j].pages == P.AgeProcess(p, q).pages;
    }

    method AllAge()
      requires Valid()
      modifies this`pagesavail, queue
      ensures Valid() && Abs() == P.AllAge(p, old(Abs()), p.procs)
    {
      for i := 0 to p.procs
        invariant Valid() && Abs() == P.AllAge(p, old(Abs()), i)
      {
        AgeSlot(i);
      }
    }

    method AllDone() returns (done: bool)
      requires Valid()
      ensures done == P.AllDone(p, Abs())
    {
      for i := 0 to p.procs
        invariant forall k :: 0 <= k < i ==>
          processes[k].None? || !queue[processes[k].value].active
      {
        if processes[i].Some? {
          if queue[processes[i].value].active {
            return false;
          }
        }
      }
      return true;
    }

    /** What callyou shows the pager. */
    method View() returns (q: seq<P.Entry>)
      requires Valid()
      ensures q == P.View(p, Abs())
    {
      q := [];
      for i := 0 to p.slots
        invariant |q| == i && forall k :: 0 <= k < i ==> q[k] == P.EntryOf(p, Abs(), k)
      {
        if processes[i].Some? {
          var job := queue[processes[i].value];
          var pages := seq(p.npages, g requires 0 <= g < |job.pages| => job.pages[g] == 0);
          q := q + [P.Entry(job.active, job.core.pc, pages)];
        } else {
          q := q + [P.Entry(false, 0, seq(p.npages, g => false))];
        }
      }
    }

    /** allscore: the blocked and the compute cycles of all jobs. */
    method AllScore() returns (block: int, compute: int)
      requires Valid()
      ensures block == SumOf(queue[..], P.BlockOf) && compute == SumOf(queue[..], P.ComputeOf)
    {
      block, compute := 0, 0;
      for i := 0 to queue.Length
        invariant block == SumOf(queue[..i], P.BlockOf) && compute == SumOf(queue[..i], P.ComputeOf)
      {
        assert queue[..i + 1] == queue[..i] + [queue[i]];
        SumOfAppend(queue[..i], [queue[i]], P.BlockOf);
        SumOfAppend(queue[..i], [queue[i]], P.ComputeOf);
        assert [queue[i]][1..] == [];
        block := block + queue[i].block;
        compute := compute + queue[i].compute;
      }
      assert queue[..queue.Length] == queue[..];
    }
  }
}
