/** A simulated program: its exit and branch tables, the two bisections that look the
    program counter up in them, and one compute step. */
module Programs {
  import opened BranchEngine
  import opened Modular
  import opened Sums

  datatype Branch = Branch(wherefrom: int, whereto: int)
  datatype Program = Program(size: int, branches: seq<Branch>, exits: seq<int>)

  /** What a compute step reads and writes of a process. */
  datatype Core = Core(pc: int, engines: seq<Engine>)

  predicate ProgramOk(p: Program) {
    && p.size >= 0
    && p.exits != [] && p.branches != []
    && (forall i, j :: 0 <= i < j < |p.exits| ==> p.exits[i] < p.exits[j])
    && (forall i, j :: 0 <= i < j < |p.branches| ==> p.branches[i].wherefrom < p.branches[j].wherefrom)
  }

  predicate CoreOk(p: Program, c: Core) {
    && 0 <= c.pc <= p.size
    && |c.engines| == |p.branches|
    && forall i :: 0 <= i < |c.engines| ==> EngineOk(c.engines[i])
  }

  /** The first branch at pc in a linear scan, or -1. */
  function BranchAt(branches: seq<Branch>, pc: int): (i: int)
    ensures -1 <= i < |branches|
    ensures i >= 0 ==> branches[i].wherefrom == pc
    ensures i < 0 ==> forall k :: 0 <= k < |branches| ==> branches[k].wherefrom != pc
  {
    if branches == [] then -1
    else if branches[0].wherefrom == pc then 0
    else
      var i := BranchAt(branches[1..], pc);
      assert forall k :: 0 < k < |branches| ==> branches[k] == branches[1..][k - 1];
      if i < 0 then -1 else i + 1
  }

  /** The exit search of process_step: a bisection that narrows [min, max] to neighbours. */
  method FindExit(exits: seq<int>, pc: int) returns (found: bool)
    requires exits != []
    requires forall i, j :: 0 <= i < j < |exits| ==> exits[i] < exits[j]
    ensures found <==> pc in exits
  {
    var min, max := 0, |exits| - 1;
    while min + 1 < max
      invariant 0 <= min <= max < |exits|
      invariant forall k :: 0 <= k < |exits| && exits[k] == pc ==> min <= k <= max
    {
      var mid := (min + max) / 2;
      if pc == exits[mid] {
        return true;
      } else if pc < exits[mid] {
        max := mid;
      } else {
        min := mid;
      }
    }
    found := pc == exits[min] || pc == exits[max];
  }

  /** The branch search of process_step, the same bisection. */
  method FindBranch(branches: seq<Branch>, pc: int) returns (i: int)
    requires branches != []
    requires forall i, j :: 0 <= i < j < |branches| ==> branches[i].wherefrom < branches[j].wherefrom
    ensures i == BranchAt(branches, pc)
  {
    var min, max := 0, |branches| - 1;
    while min + 1 < max
      invariant 0 <= min <= max < |branches|
      invariant forall k :: 0 <= k < |branches| && branches[k].wherefrom == pc ==> min <= k <= max
    {
      var mid := (min + max) / 2;
      if pc == branches[mid].wherefrom {
        return mid;
      } else if pc < branches[mid].wherefrom {
        max := mid;
      } else {
        min := mid;
      }
    }
    if pc == branches[min].wherefrom {
      return min;
    }
    if pc == branches[max].wherefrom {
      return max;
    }
    return -1;
  }

  /** One compute step at c.pc; None when it is an exit. */
  function Advance(p: Program, c: Core): (r: Option<Core>)
    requires ProgramOk(p) && CoreOk(p, c)
    ensures r.Some? ==> CoreOk(p, r.value)
  {
    if c.pc in p.exits then None
    else
      var i := BranchAt(p.branches, c.pc);
      if i >= 0 then
        var (taken, e) := Decide(c.engines[i]);
        var pc := if taken then p.branches[i].whereto else c.pc + 1;
        Some(Core(if pc < 0 || pc >= p.size then 0 else pc, c.engines[i := e]))
      else
        var pc := c.pc + 1;
        Some(Core(if pc < 0 || pc > p.size then 0 else pc, c.engines))
  }

  /** The core after n compute steps; an exit is never left. */
  function Computed(p: Program, c: Core, n: nat): (r: Core)
    requires ProgramOk(p) && CoreOk(p, c)
    ensures CoreOk(p, r)
  {
    if n == 0 then c
    else
      var before := Computed(p, c, n - 1);
      match Advance(p, before)
      case None => before
      case Some(after) => after
  }

  /** The n-th compute tick (from 1) is the one that finds the exit. */
  predicate ExitsAt(p: Program, c: Core, n: nat)
    requires ProgramOk(p) && CoreOk(p, c)
    decreases n
  {
    match Advance(p, c)
    case None => n == 1
    case Some(d) => n > 1 && ExitsAt(p, d, n - 1)
  }

  /** The page index stays in range on every run of a program shorter than the pages. */
  lemma PageInRange(p: Program, c: Core, n: nat, npages: nat, psize: nat)
    requires ProgramOk(p) && CoreOk(p, c)
    requires psize > 0 && p.size < npages * psize
    ensures 0 <= Computed(p, c, n).pc <= p.size
    ensures 0 <= Computed(p, c, n).pc / psize < npages
  {
    PageOfPc(Computed(p, c, n).pc, npages, psize);
  }

  lemma PageOfPc(pc: int, npages: nat, psize: nat)
    requires psize > 0 && 0 <= pc < npages * psize
    ensures 0 <= pc / psize < npages
  {
    QuotientBelow(pc / psize, pc % psize, npages, psize);
  }

  lemma QuotientBelow(q: int, r: int, npages: nat, psize: nat)
    requires psize > 0 && 0 <= r < psize && 0 <= q * psize + r < npages * psize
    ensures 0 <= q < npages
  {
  }

  // ---- running times of loops

  /** The table of a FOR branch, as bcontext_init writes it: a drawn number of jumps, then
      one failure to escape the loop, over and over. */
  function LoopTable(draws: seq<int>): (t: seq<int>)
    ensures |t| == 2 * |draws|
  {
    if draws == [] then [] else [draws[0], 1] + LoopTable(draws[1..])
  }

  lemma {:induction false} LoopTableAt(draws: seq<int>, i: nat)
    requires i < |draws|
    ensures LoopTable(draws)[2 * i] == draws[i] && LoopTable(draws)[2 * i + 1] == 1
  {
    if i > 0 {
      LoopTableAt(draws[1..], i - 1);
    }
  }

  /** bcontext_init for a FOR branch: the table is filled pair by pair, to its end. */
  method FillLoop(brings: array<int>, draws: seq<int>)
    requires brings.Length == 2 * |draws|
    modifies brings
    ensures brings[..] == LoopTable(draws)
  {
    var bsize := 0;
    while bsize < brings.Length
      invariant 0 <= bsize <= brings.Length && bsize % 2 == 0
      invariant forall i :: 0 <= i < bsize ==> brings[i] == LoopTable(draws)[i]
    {
      LoopTableAt(draws, bsize / 2);
      brings[bsize] := draws[bsize / 2];
      bsize := bsize + 1;
      brings[bsize] := 1;
      bsize := bsize + 1;
    }
  }

  /** k times n, added up. */
  function Times(k: nat, n: nat): nat { if k == 0 then 0 else n + Times(k - 1, n) }

  lemma {:induction false} TimesIsProduct(k: nat, n: nat)
    ensures Times(k, n) == k * n
  {
    if k > 0 {
      TimesIsProduct(k - 1, n);
      assert k * n == n + (k - 1) * n;
    }
  }

  /** `n` steps lead from c to d with no exit on the way. */
  predicate Leads(p: Program, c: Core, n: nat, d: Core)
    requires ProgramOk(p) && CoreOk(p, c)
    decreases n
  {
    if n == 0 then d == c
    else
      match Advance(p, c)
      case None => false
      case Some(c') => Leads(p, c', n - 1, d)
  }

  lemma {:induction false} LeadsOn(p: Program, c: Core, m: nat, d: Core, n: nat, e: Core)
    requires ProgramOk(p) && CoreOk(p, c) && CoreOk(p, d)
    requires Leads(p, c, m, d) && Leads(p, d, n, e)
    ensures Leads(p, c, m + n, e)
    decreases m
  {
    if m > 0 {
      LeadsOn(p, Advance(p, c).value, m - 1, d, n, e);
    }
  }

  lemma {:induction false} ExitsLater(p: Program, c: Core, m: nat, d: Core, n: nat)
    requires ProgramOk(p) && CoreOk(p, c) && CoreOk(p, d) && Leads(p, c, m, d) && ExitsAt(p, d, n)
    ensures ExitsAt(p, c, m + n)
    decreases m
  {
    if m > 0 {
      ExitsLater(p, Advance(p, c).value, m - 1, d, n);
    }
  }

  /** Straight-line code. */
  lemma {:induction false} Walk(p: Program, c: Core, n: nat)
    requires ProgramOk(p) && CoreOk(p, c) && c.pc + n <= p.size
    requires forall pc :: c.pc <= pc < c.pc + n ==> pc !in p.exits && BranchAt(p.branches, pc) < 0
    ensures Leads(p, c, n, Core(c.pc + n, c.engines))
    decreases n
  {
    if n > 0 {
      Walk(p, Core(c.pc + 1, c.engines), n - 1);
    }
  }

  /** programs.c's single loop: a FOR branch at L back to 0, the exit after it. */
  function SingleLoop(L: nat): (p: Program)
    ensures ProgramOk(p)
  {
    Program(L + 2, [Branch(L, 0)], [L + 1])
  }

  /** Once through the body, the branch included. */
  lemma SinglePass(L: nat, e: Engine)
    requires EngineOk(e)
    ensures Leads(SingleLoop(L), Core(0, [e]), L + 1, Core(if e.value then 0 else L + 1, [Decide(e).1]))
  {
    var p := SingleLoop(L);
    Walk(p, Core(0, [e]), L);
    var c := Core(L, [e]);
    LeadsOn(p, Core(0, [e]), L, c, 1, Core(if e.value then 0 else L + 1, [Decide(e).1]));
  }

  lemma {:induction false} SingleLoopFrom(L: nat, e: Engine)
    requires EngineOk(e) && e.offset == 0 && e.value && 0 <= e.count < RunLength(e.brings[0])
    ensures ExitsAt(SingleLoop(L), Core(0, [e]), Times(RunLength(e.brings[0]) - e.count + 1, L + 1) + 1)
    decreases RunLength(e.brings[0]) - e.count
  {
    var p := SingleLoop(L);
    var e2 := Decide(e).1;
    var k := RunLength(e.brings[0]) - e.count;
    SinglePass(L, e);
    if k > 1 {
      SingleLoopFrom(L, e2);
      ExitsLater(p, Core(0, [e]), L + 1, Core(0, [e2]), Times(k, L + 1) + 1);
    } else {
      SinglePass(L, e2);
      var out := Core(L + 1, [Decide(e2).1]);
      assert ExitsAt(p, out, 1);
      ExitsLater(p, Core(0, [e2]), L + 1, out, 1);
      ExitsLater(p, Core(0, [e]), L + 1, Core(0, [e2]), L + 2);
      assert Times(2, L + 1) == L + 1 + Times(1, L + 1) == L + 1 + (L + 1) + Times(0, L + 1);
    }
  }

  /** A single loop over a table whose first draw is k computes (k+1)(L+1)+1 ticks. */
  lemma SingleLoopTime(L: nat, draws: seq<int>)
    requires draws != []
    ensures ExitsAt(SingleLoop(L), Core(0, [Start(LoopTable(draws), true)]),
                    (RunLength(draws[0]) + 1) * (L + 1) + 1)
  {
    LoopTableAt(draws, 0);
    SingleLoopFrom(L, Start(LoopTable(draws), true));
    TimesIsProduct(RunLength(draws[0]) + 1, L + 1);
  }

  /** programs.c's program without branches, with the exit at L. The search then reads the
      first entry of the unused table, which is zero-filled and so acts as a branch from 0 to
      0; its engine is a cleared one. */
  function Branchless(L: nat): (p: Program)
    ensures ProgramOk(p)
  {
    Program(L + 1, [Branch(0, 0)], [L])
  }

  /** It takes the jump once and then runs straight to the exit: L + 2 ticks. */
  lemma BranchlessTime(L: nat)
    requires L >= 1
    ensures ExitsAt(Branchless(L), Core(0, [Start([1], true)]), L + 2)
  {
    var p := Branchless(L);
    var once, again := Decide(Start([1], true)).1, Start([1], true);
    var c, d, e := Core(0, [again]), Core(0, [once]), Core(1, [again]);
    assert Leads(p, c, 1, d) && Leads(p, d, 1, e);
    Walk(p, e, L - 1);
    LeadsOn(p, d, 1, e, L - 1, Core(L, [again]));
    LeadsOn(p, c, 1, d, L, Core(L, [again]));
    assert ExitsAt(p, Core(L, [again]), 1);
    ExitsLater(p, c, L + 1, Core(L, [again]), 1);
  }

  /** programs.c's nested loops: the inner FOR branch at a back to t, the outer one at a+1
      back to 0, the exit at a+2. */
  function NestedLoops(a: nat, t: nat): (p: Program)
    ensures ProgramOk(p)
  {
    Program(a + 3, [Branch(a, t), Branch(a + 1, 0)], [a + 2])
  }

  /** Which draw the i-th use of a table takes: it starts over when the table ends. */
  function Use(draws: seq<int>, i: nat): (u: nat)
    requires draws != []
    ensures u < |draws|
  {
    if i == 0 then 0
    else
      var before := Use(draws, i - 1);
      if before + 1 == |draws| then 0 else before + 1
  }

  lemma {:induction false} UseIsRemainder(draws: seq<int>, i: nat)
    requires draws != []
    ensures Use(draws, i) == i % |draws|
  {
    if i == 0 {
      ModSmall(0, |draws|);
    } else {
      UseIsRemainder(draws, i - 1);
      CountOn(i - 1, |draws|);
    }
  }

  function Draw(draws: seq<int>, i: nat): (k: nat)
    requires draws != []
    ensures k >= 1
  {
    RunLength(draws[Use(draws, i)])
  }

  /** The inner engine at the start of its i-th use. */
  function InnerAt(draws: seq<int>, i: nat): (e: Engine)
    requires draws != []
    ensures EngineOk(e) && e.brings[e.offset] == draws[Use(draws, i)]
  {
    LoopTableAt(draws, Use(draws, i));
    Engine(2 * Use(draws, i), 0, true, LoopTable(draws))
  }

  /** A jump of the inner branch and the way back to it. */
  lemma InnerJump(a: nat, t: nat, e: Engine, outer: Engine)
    requires t <= a && EngineOk(e) && EngineOk(outer) && e.value
    ensures Leads(NestedLoops(a, t), Core(a, [e, outer]), a - t + 1, Core(a, [Decide(e).1, outer]))
  {
    var p := NestedLoops(a, t);
    var c, d := Core(a, [e, outer]), Core(t, [Decide(e).1, outer]);
    assert [e, outer][0 := Decide(e).1] == [Decide(e).1, outer];
    assert Leads(p, c, 1, d);
    Walk(p, d, a - t);
    LeadsOn(p, c, 1, d, a - t, Core(a, [Decide(e).1, outer]));
  }

  lemma InnerLeave(a: nat, t: nat, e: Engine, outer: Engine)
    requires t <= a && EngineOk(e) && EngineOk(outer) && !e.value
    ensures Leads(NestedLoops(a, t), Core(a, [e, outer]), 1, Core(a + 1, [Decide(e).1, outer]))
  {
    var p := NestedLoops(a, t);
    var c := Core(a, [e, outer]);
    assert [e, outer][0 := Decide(e).1] == [Decide(e).1, outer];
  }

  /** After the last jump the engine refuses once and stands at its next use. */
  lemma InnerEscape(draws: seq<int>, i: nat, e: Engine)
    requires draws != [] && e.brings == LoopTable(draws) && e.offset == 2 * Use(draws, i)
    requires e.value && e.count + 1 == Draw(draws, i)
    ensures !Decide(e).1.value && Decide(Decide(e).1).1 == InnerAt(draws, i + 1)
  {
    LoopTableAt(draws, Use(draws, i));
  }

  /** From the inner branch: the jumps still due, then out to the outer branch. */
  lemma {:induction false} InnerRun(a: nat, t: nat, draws: seq<int>, i: nat, e: Engine, outer: Engine)
    requires t <= a && draws != [] && EngineOk(outer)
    requires e == InnerAt(draws, i).(count := e.count) && 0 <= e.count < Draw(draws, i)
    ensures EngineOk(e)
    ensures Leads(NestedLoops(a, t), Core(a, [e, outer]), Times(Draw(draws, i) - e.count, a - t + 1) + 1,
                  Core(a + 1, [InnerAt(draws, i + 1), outer]))
    decreases Draw(draws, i) - e.count
  {
    var p := NestedLoops(a, t);
    var k := Draw(draws, i) - e.count;
    var e2 := Decide(e).1;
    var out := Core(a + 1, [InnerAt(draws, i + 1), outer]);
    InnerJump(a, t, e, outer);
    if k > 1 {
      InnerRun(a, t, draws, i, e2, outer);
      LeadsOn(p, Core(a, [e, outer]), a - t + 1, Core(a, [e2, outer]), Times(k - 1, a - t + 1) + 1, out);
    } else {
      InnerEscape(draws, i, e);
      InnerLeave(a, t, e2, outer);
      LeadsOn(p, Core(a, [e, outer]), a - t + 1, Core(a, [e2, outer]), 1, out);
      assert Times(1, a - t + 1) == a - t + 1 + Times(0, a - t + 1);
    }
  }

  function PassLength(a: nat, t: nat, draws: seq<int>, i: nat): nat
    requires t <= a && draws != []
  {
    a + 2 + Times(Draw(draws, i), a - t + 1)
  }

  /** One pass of the outer body, from 0 to the outer branch and over it. */
  lemma OuterPass(a: nat, t: nat, draws: seq<int>, i: nat, outer: Engine)
    requires t <= a && draws != [] && EngineOk(outer)
    ensures Leads(NestedLoops(a, t), Core(0, [InnerAt(draws, i), outer]), PassLength(a, t, draws, i),
                  Core(if outer.value then 0 else a + 2, [InnerAt(draws, i + 1), Decide(outer).1]))
  {
    var p := NestedLoops(a, t);
    var c := Core(0, [InnerAt(draws, i), outer]);
    var d := Core(a, [InnerAt(draws, i), outer]);
    var f := Core(a + 1, [InnerAt(draws, i + 1), outer]);
    var g := Core(if outer.value then 0 else a + 2, [InnerAt(draws, i + 1), Decide(outer).1]);
    var n := Times(Draw(draws, i), a - t + 1) + 1;
    assert Leads(p, c, a, d) by {
      Walk(p, c, a);
    }
    assert Leads(p, d, n, f) by {
      InnerRun(a, t, draws, i, InnerAt(draws, i), outer);
    }
    LeadsOn(p, c, a, d, n, f);
    OuterBranch(a, t, InnerAt(draws, i + 1), outer);
    LeadsOn(p, c, a + n, f, 1, g);
  }

  lemma OuterBranch(a: nat, t: nat, e: Engine, outer: Engine)
    requires t <= a && EngineOk(e) && EngineOk(outer)
    ensures Leads(NestedLoops(a, t), Core(a + 1, [e, outer]), 1,
                  Core(if outer.value then 0 else a + 2, [e, Decide(outer).1]))
  {
    var p := NestedLoops(a, t);
    var c := Core(a + 1, [e, outer]);
    assert [e, outer][1 := Decide(outer).1] == [e, Decide(outer).1];
    assert BranchAt(p.branches[1..], a + 1) == 0;
  }

  /** Ticks of the outer passes i to m. */
  function PassTicks(a: nat, t: nat, draws: seq<int>, i: nat, m: nat): nat
    requires t <= a && draws != []
    decreases m + 1 - i
  {
    if i > m then 0 else PassLength(a, t, draws, i) + PassTicks(a, t, draws, i + 1, m)
  }

  lemma {:induction false} NestedFrom(a: nat, t: nat, draws: seq<int>, i: nat, outer: Engine)
    requires t <= a && draws != []
    requires EngineOk(outer) && outer.offset == 0 && outer.value && outer.count == i < RunLength(outer.brings[0])
    ensures ExitsAt(NestedLoops(a, t), Core(0, [InnerAt(draws, i), outer]),
                    PassTicks(a, t, draws, i, RunLength(outer.brings[0])) + 1)
    decreases RunLength(outer.brings[0]) - i
  {
    var m := RunLength(outer.brings[0]);
    var o2 := Decide(outer).1;
    if i + 1 < m {
      NestedFrom(a, t, draws, i + 1, o2);
    } else {
      LastPass(a, t, draws, m, o2);
    }
    PassThen(a, t, draws, i, m, outer);
  }

  /** A pass that jumps back, and then the rest. */
  lemma PassThen(a: nat, t: nat, draws: seq<int>, i: nat, m: nat, outer: Engine)
    requires t <= a && draws != [] && i <= m && EngineOk(outer) && outer.value
    requires ExitsAt(NestedLoops(a, t), Core(0, [InnerAt(draws, i + 1), Decide(outer).1]),
                     PassTicks(a, t, draws, i + 1, m) + 1)
    ensures ExitsAt(NestedLoops(a, t), Core(0, [InnerAt(draws, i), outer]), PassTicks(a, t, draws, i, m) + 1)
  {
    OuterPass(a, t, draws, i, outer);
    ExitsLater(NestedLoops(a, t), Core(0, [InnerAt(draws, i), outer]), PassLength(a, t, draws, i),
               Core(0, [InnerAt(draws, i + 1), Decide(outer).1]), PassTicks(a, t, draws, i + 1, m) + 1);
  }

  lemma LastPass(a: nat, t: nat, draws: seq<int>, m: nat, outer: Engine)
    requires t <= a && draws != [] && EngineOk(outer) && !outer.value
    ensures ExitsAt(NestedLoops(a, t), Core(0, [InnerAt(draws, m), outer]), PassTicks(a, t, draws, m, m) + 1)
  {
    var p := NestedLoops(a, t);
    var out := Core(a + 2, [InnerAt(draws, m + 1), Decide(outer).1]);
    OuterPass(a, t, draws, m, outer);
    assert ExitsAt(p, out, 1);
    ExitsLater(p, Core(0, [InnerAt(draws, m), outer]), PassLength(a, t, draws, m), out, 1);
    assert PassTicks(a, t, draws, m + 1, m) == 0;
  }

  /** The sum over i = 0..m of (a+2) + (a-t+1) k_i, k_i being the i-th draw, taken round the
      table. */
  function NestedSum(a: nat, t: nat, draws: seq<int>, i: nat, m: nat): int
    requires t <= a && draws != []
    decreases m + 1 - i
  {
    if i > m then 0
    else (a + 2) + (a - t + 1) * RunLength(draws[i % |draws|]) + NestedSum(a, t, draws, i + 1, m)
  }

  lemma PassLengthIsProduct(a: nat, t: nat, draws: seq<int>, i: nat)
    requires t <= a && draws != []
    ensures PassLength(a, t, draws, i) == (a + 2) + (a - t + 1) * RunLength(draws[i % |draws|])
  {
    UseIsRemainder(draws, i);
    TimesIsProduct(Draw(draws, i), a - t + 1);
  }

  lemma {:induction false} PassTicksAreSum(a: nat, t: nat, draws: seq<int>, i: nat, m: nat)
    requires t <= a && draws != []
    ensures PassTicks(a, t, draws, i, m) == NestedSum(a, t, draws, i, m)
    decreases m + 1 - i
  {
    if i <= m {
      PassLengthIsProduct(a, t, draws, i);
      PassTicksAreSum(a, t, draws, i + 1, m);
    }
  }

  /** Nested loops compute for 1 + the sum over i = 0..m of (a+2) + (a-t+1) k_i ticks, m
      being the first draw of the outer loop and k_i the i-th of the inner one. */
  lemma NestedLoopsTime(a: nat, t: nat, inner: seq<int>, outer: seq<int>)
    requires t <= a && inner != [] && outer != []
    ensures NestedSum(a, t, inner, 0, RunLength(outer[0])) >= 0
    ensures ExitsAt(NestedLoops(a, t),
                    Core(0, [Start(LoopTable(inner), true), Start(LoopTable(outer), true)]),
                    1 + NestedSum(a, t, inner, 0, RunLength(outer[0])))
  {
    LoopTableAt(outer, 0);
    NestedFrom(a, t, inner, 0, Start(LoopTable(outer), true));
    PassTicksAreSum(a, t, inner, 0, RunLength(outer[0]));
  }
}
