/** Where branches lead, and what jumping over code saves. */
module ForwardJumps {
  import opened BranchEngine
  import opened Programs

  /** A step from branch b: to where it leads if its engine says so, else to the next pc, and to
      0 if that is outside the program; only this branch's engine is asked. */
  lemma BranchLeads(p: Program, c: Core, b: nat)
    requires ProgramOk(p) && CoreOk(p, c) && c.pc !in p.exits
    requires b < |p.branches| && p.branches[b].wherefrom == c.pc
    ensures var to, e, engines := p.branches[b].whereto, c.engines[b], c.engines[b := Decide(c.engines[b]).1];
      && (Decide(e).0 && 0 <= to < p.size ==> Leads(p, c, 1, Core(to, engines)))
      && (Decide(e).0 && !(0 <= to < p.size) ==> Leads(p, c, 1, Core(0, engines)))
      && (!Decide(e).0 && c.pc + 1 < p.size ==> Leads(p, c, 1, Core(c.pc + 1, engines)))
      && (!Decide(e).0 && c.pc + 1 >= p.size ==> Leads(p, c, 1, Core(0, engines)))
  {
    var i := BranchAt(p.branches, c.pc);
    assert i == b;
  }

  /** A step from a pc that has no branch and is no exit: to the next pc, which may be the size of
      the program, and from there to 0; no engine is asked. */
  lemma PlainLeads(p: Program, c: Core)
    requires ProgramOk(p) && CoreOk(p, c) && c.pc !in p.exits
    requires forall b :: 0 <= b < |p.branches| ==> p.branches[b].wherefrom != c.pc
    ensures Leads(p, c, 1, if c.pc < p.size then Core(c.pc + 1, c.engines) else Core(0, c.engines))
  {
  }

  /** At an exit the program stops, branch or no branch: the next compute tick is its last. */
  lemma ExitStops(p: Program, c: Core, n: nat)
    requires ProgramOk(p) && CoreOk(p, c) && c.pc in p.exits
    ensures ExitsAt(p, c, n) <==> n == 1
    ensures forall d :: !Leads(p, c, 1, d)
  {
  }

  /** A program in the shape of programs.c's first: an IF at w to t, a GOTO at g to f, a FOR at f
      back to 0, the exit after it. The IF jumps over the code up to g, the GOTO over that from
      g + 1 to f. */
  function IfElseLoop(w: nat, t: nat, g: nat, f: nat): (p: Program)
    requires w < g < t <= f
    ensures ProgramOk(p)
  {
    Program(f + 2, [Branch(w, t), Branch(g, f), Branch(f, 0)], [f + 1])
  }

  lemma NoBranchBetween(w: nat, t: nat, g: nat, f: nat, pc: int)
    requires w < g < t <= f
    ensures BranchAt(IfElseLoop(w, t, g, f).branches, pc) < 0 <==> pc != w && pc != g && pc != f
  {
    var branches := IfElseLoop(w, t, g, f).branches;
    assert branches[0].wherefrom == w && branches[1].wherefrom == g && branches[2].wherefrom == f;
  }

  /** Straight through, from pc up to the next branch. */
  lemma Through(w: nat, t: nat, g: nat, f: nat, pc: nat, n: nat, engines: seq<Engine>)
    requires w < g < t <= f && pc + n <= f
    requires pc + n <= w || (w < pc && pc + n <= g) || g < pc
    requires CoreOk(IfElseLoop(w, t, g, f), Core(pc, engines))
    ensures Leads(IfElseLoop(w, t, g, f), Core(pc, engines), n, Core(pc + n, engines))
  {
    forall k | pc <= k < pc + n ensures BranchAt(IfElseLoop(w, t, g, f).branches, k) < 0 {
      NoBranchBetween(w, t, g, f, k);
    }
    Walk(IfElseLoop(w, t, g, f), Core(pc, engines), n);
  }

  function PassTicks(w: nat, t: nat, g: nat, f: nat, taken: bool): (n: nat)
    requires w < g < t <= f
  {
    if taken then w + 1 + (f - t) + 1 else g + 2
  }

  /** From the IF to the loop's branch when it is taken, and when it is not. */
  lemma Taken(w: nat, t: nat, g: nat, f: nat, e: Engine, go: Engine, loop: Engine)
    requires w < g < t <= f && EngineOk(e) && EngineOk(go) && EngineOk(loop) && e.value
    ensures Leads(IfElseLoop(w, t, g, f), Core(w, [e, go, loop]), 1 + f - t, Core(f, [Decide(e).1, go, loop]))
  {
    hide Leads;
    var d, asked := Core(w, [e, go, loop]), [Decide(e).1, go, loop];
    BranchLeads(IfElseLoop(w, t, g, f), d, 0);
    assert [e, go, loop][0 := Decide(e).1] == asked;
    Through(w, t, g, f, t, f - t, asked);
    LeadsOn(IfElseLoop(w, t, g, f), d, 1, Core(t, asked), f - t, Core(f, asked));
  }

  lemma Refused(w: nat, t: nat, g: nat, f: nat, e: Engine, go: Engine, loop: Engine)
    requires w < g < t <= f && EngineOk(e) && EngineOk(go) && EngineOk(loop) && !e.value && go.value
    ensures Leads(IfElseLoop(w, t, g, f), Core(w, [e, go, loop]), g - w + 1,
                  Core(f, [Decide(e).1, Decide(go).1, loop]))
  {
    hide Leads;
    var p, d, asked := IfElseLoop(w, t, g, f), Core(w, [e, go, loop]), [Decide(e).1, go, loop];
    var h, left := Core(g, asked), Core(f, [Decide(e).1, Decide(go).1, loop]);
    BranchLeads(p, d, 0);
    assert [e, go, loop][0 := Decide(e).1] == asked;
    Through(w, t, g, f, w + 1, g - w - 1, asked);
    BranchLeads(p, h, 1);
    assert asked[1 := Decide(go).1] == left.engines;
    LeadsOn(p, d, 1, Core(w + 1, asked), g - w - 1, h);
    LeadsOn(p, d, g - w, h, 1, left);
  }

  /** From 0 to the loop's branch, by either way. */
  lemma ToLoop(w: nat, t: nat, g: nat, f: nat, e: Engine, go: Engine, loop: Engine)
    requires w < g < t <= f && EngineOk(e) && EngineOk(go) && EngineOk(loop) && go.value
    ensures Leads(IfElseLoop(w, t, g, f), Core(0, [e, go, loop]), PassTicks(w, t, g, f, e.value) - 1,
                  Core(f, [Decide(e).1, if e.value then go else Decide(go).1, loop]))
  {
    hide Leads;
    var left := Core(f, [Decide(e).1, if e.value then go else Decide(go).1, loop]);
    var d := Core(w, [e, go, loop]);
    Through(w, t, g, f, 0, w, d.engines);
    if e.value {
      Taken(w, t, g, f, e, go, loop);
    } else {
      Refused(w, t, g, f, e, go, loop);
    }
    LeadsOn(IfElseLoop(w, t, g, f), Core(0, d.engines), w, d, if e.value then 1 + f - t else g - w + 1, left);
  }

  lemma Pass(w: nat, t: nat, g: nat, f: nat, e: Engine, go: Engine, loop: Engine)
    requires w < g < t <= f && EngineOk(e) && EngineOk(go) && EngineOk(loop) && go.value
    ensures Leads(IfElseLoop(w, t, g, f), Core(0, [e, go, loop]), PassTicks(w, t, g, f, e.value),
                  Core(if loop.value then 0 else f + 1,
                       [Decide(e).1, if e.value then go else Decide(go).1, Decide(loop).1]))
  {
    hide Leads;
    var p, go' := IfElseLoop(w, t, g, f), if e.value then go else Decide(go).1;
    var d := Core(f, [Decide(e).1, go', loop]);
    ToLoop(w, t, g, f, e, go, loop);
    BranchLeads(p, d, 2);
    assert d.engines[2 := Decide(loop).1] == [Decide(e).1, go', Decide(loop).1];
    LeadsOn(p, Core(0, [e, go, loop]), PassTicks(w, t, g, f, e.value) - 1, d, 1,
            Core(if loop.value then 0 else f + 1, [Decide(e).1, go', Decide(loop).1]));
  }

  /** Ticks of passes i to m, the i-th of them with the IF's i-th answer. */
  function Ticks(w: nat, t: nat, g: nat, f: nat, ifs: seq<int>, value: bool, i: nat, m: nat): nat
    requires w < g < t <= f && ifs != []
    decreases m + 1 - i
  {
    if i > m then 0
    else PassTicks(w, t, g, f, Stream(ifs, value, i)) + Ticks(w, t, g, f, ifs, value, i + 1, m)
  }

  /** The GOTO's engine has answered yes r times. */
  function GotoAt(r: nat): Engine { Engine(0, r, true, [FOREVER]) }

  lemma GotoNext(r: nat)
    requires r + 1 < FOREVER
    ensures Decide(GotoAt(r)) == (true, GotoAt(r + 1))
  {
  }

  /** The i-th pass: the IF gives its i-th answer, the GOTO is asked if that is no. */
  lemma PassAt(w: nat, t: nat, g: nat, f: nat, ifs: seq<int>, value: bool, i: nat, r: nat, loop: Engine)
    returns (r': nat)
    requires w < g < t <= f && ifs != [] && EngineOk(loop) && r + 1 < FOREVER
    ensures r <= r' <= r + 1
    ensures Leads(IfElseLoop(w, t, g, f), Core(0, [After(Start(ifs, value), i), GotoAt(r), loop]),
                  PassTicks(w, t, g, f, Stream(ifs, value, i)),
                  Core(if loop.value then 0 else f + 1,
                       [After(Start(ifs, value), i + 1), GotoAt(r'), Decide(loop).1]))
  {
    hide Stream, FOREVER, Leads, PassTicks, IfElseLoop;
    var e := After(Start(ifs, value), i);
    r' := if e.value then r else r + 1;
    EngineRefinesStream(ifs, value, i);
    GotoNext(r);
    Pass(w, t, g, f, e, GotoAt(r), loop);
  }

  lemma {:induction false} PassesFrom(w: nat, t: nat, g: nat, f: nat, ifs: seq<int>, value: bool, i: nat, r: nat,
                                      loop: Engine)
    requires w < g < t <= f && ifs != [] && EngineOk(loop) && loop.offset == 0 && loop.value
    requires r <= i == loop.count < RunLength(loop.brings[0]) < FOREVER - 1
    ensures ExitsAt(IfElseLoop(w, t, g, f), Core(0, [After(Start(ifs, value), i), GotoAt(r), loop]),
                    Ticks(w, t, g, f, ifs, value, i, RunLength(loop.brings[0])) + 1)
    decreases RunLength(loop.brings[0]) - i
  {
    hide RunLength, Stream, FOREVER, Leads, ExitsAt, PassTicks, After, Decide;
    var m, e := RunLength(loop.brings[0]), After(Start(ifs, value), i);
    LoopNext(loop);
    var r' := PassAt(w, t, g, f, ifs, value, i, r, loop);
    if i + 1 < m {
      PassesFrom(w, t, g, f, ifs, value, i + 1, r', Decide(loop).1);
    } else {
      LastPass(w, t, g, f, ifs, value, m, r', Decide(loop).1);
    }
    ExitsLater(IfElseLoop(w, t, g, f), Core(0, [e, GotoAt(r), loop]), PassTicks(w, t, g, f, Stream(ifs, value, i)),
               Core(0, [After(Start(ifs, value), i + 1), GotoAt(r'), Decide(loop).1]),
               Ticks(w, t, g, f, ifs, value, i + 1, m) + 1);
  }

  lemma LoopNext(loop: Engine)
    requires EngineOk(loop) && loop.offset == 0 && loop.value && 0 <= loop.count < RunLength(loop.brings[0])
    ensures var next := Decide(loop).1;
      if loop.count + 1 < RunLength(loop.brings[0]) then next == loop.(count := loop.count + 1) else !next.value
  {
  }

  lemma LastPass(w: nat, t: nat, g: nat, f: nat, ifs: seq<int>, value: bool, m: nat, r: nat, loop: Engine)
    requires w < g < t <= f && ifs != [] && EngineOk(loop) && !loop.value && r + 1 < FOREVER
    ensures ExitsAt(IfElseLoop(w, t, g, f), Core(0, [After(Start(ifs, value), m), GotoAt(r), loop]),
                    Ticks(w, t, g, f, ifs, value, m, m) + 1)
  {
    hide Stream, FOREVER, Leads, PassTicks, After, Decide;
    var p, e := IfElseLoop(w, t, g, f), After(Start(ifs, value), m);
    var r' := PassAt(w, t, g, f, ifs, value, m, r, loop);
    var out := Core(f + 1, [After(Start(ifs, value), m + 1), GotoAt(r'), Decide(loop).1]);
    assert ExitsAt(p, out, 1);
    ExitsLater(p, Core(0, [e, GotoAt(r), loop]), PassTicks(w, t, g, f, Stream(ifs, value, m)), out, 1);
    assert Ticks(w, t, g, f, ifs, value, m + 1, m) == 0;
  }

  /** How many of the IF's answers i to m are yes. */
  function TakenFrom(ifs: seq<int>, value: bool, i: nat, m: nat): nat
    requires ifs != []
    decreases m + 1 - i
  {
    if i > m then 0 else TakenFrom(ifs, value, i + 1, m) + if Stream(ifs, value, i) then 1 else 0
  }

  lemma OneMore(a: int, b: int)
    ensures (a + 1) * b == a * b + b
  {
  }

  lemma {:induction false} TicksAreProduct(w: nat, t: nat, g: nat, f: nat, ifs: seq<int>, value: bool, i: nat, m: nat)
    requires w < g < t <= f && ifs != [] && i <= m + 1
    ensures Ticks(w, t, g, f, ifs, value, i, m)
         == (m + 1 - i) * (g + 2) - TakenFrom(ifs, value, i, m) * ((g - w) - (f - t))
    decreases m + 1 - i
  {
    hide *;
    if i <= m {
      TicksAreProduct(w, t, g, f, ifs, value, i + 1, m);
      OneMore(TakenFrom(ifs, value, i + 1, m), (g - w) - (f - t));
      OneMore(m - i, g + 2);
    }
    NextTicks(w, t, g, f, ifs, value, i, m);
  }

  lemma NextTicks(w: nat, t: nat, g: nat, f: nat, ifs: seq<int>, value: bool, i: nat, m: nat)
    requires w < g < t <= f && ifs != [] && i <= m + 1
    ensures i == m + 1 ==> Ticks(w, t, g, f, ifs, value, i, m) == TakenFrom(ifs, value, i, m) == 0
    ensures i <= m ==>
      var taken := TakenFrom(ifs, value, i, m) - TakenFrom(ifs, value, i + 1, m);
      && (taken == 0 || taken == 1)
      && Ticks(w, t, g, f, ifs, value, i, m)
         == Ticks(w, t, g, f, ifs, value, i + 1, m) + (g + 2) - if taken == 1 then (g - w) - (f - t) else 0
  {
    hide Stream;
  }

  /** With k the FOR's first draw, the program makes k + 1 passes of g + 2 ticks each, and every
      pass in which the IF is taken saves the code jumped over by the IF, but for the code
      jumped over by the GOTO otherwise. */
  lemma IfElseLoopTime(w: nat, t: nat, g: nat, f: nat, ifs: seq<int>, value: bool, draws: seq<int>)
    requires w < g < t <= f && ifs != [] && draws != [] && RunLength(draws[0]) < 0x7fff_fffe
    ensures var k := RunLength(draws[0]);
            var time := (k + 1) * (g + 2) - TakenFrom(ifs, value, 0, k) * ((g - w) - (f - t)) + 1;
      && time >= 1
      && ExitsAt(IfElseLoop(w, t, g, f),
                 Core(0, [Start(ifs, value), GotoEngine(), Start(LoopTable(draws), true)]), time)
  {
    hide RunLength, ExitsAt, Leads, Ticks, TakenFrom, IfElseLoop;
    LoopTableAt(draws, 0);
    var loop := Start(LoopTable(draws), true);
    PassesFrom(w, t, g, f, ifs, value, 0, 0, loop);
    TicksAreProduct(w, t, g, f, ifs, value, 0, RunLength(draws[0]));
  }
}
