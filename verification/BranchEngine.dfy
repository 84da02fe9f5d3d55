/** The simulator's branch engine: a table of run lengths read round and round. */
module BranchEngine {
  // Each run gives the same answer, and the answer flips from one run to the next.

  import opened Modular

  datatype Engine = Engine(offset: nat, count: int, value: bool, brings: seq<int>)

  predicate EngineOk(e: Engine) { e.offset < |e.brings| }

  function Start(brings: seq<int>, value: bool): Engine { Engine(0, 0, value, brings) }

  /** The next run of the table, round and round. */
  function NextOffset(e: Engine): (o: nat)
    requires EngineOk(e)
    ensures o < |e.brings|
  {
    if e.offset + 1 == |e.brings| then 0 else e.offset + 1
  }

  lemma NextOffsetIsModulo(e: Engine)
    requires EngineOk(e)
    ensures NextOffset(e) == (e.offset + 1) % |e.brings|
  {
    CountOn(e.offset, |e.brings|);
    ModSmall(e.offset, |e.brings|);
  }

  /** The answer to one question and the engine afterwards. */
  function Decide(e: Engine): (r: (bool, Engine))
    requires EngineOk(e)
    ensures EngineOk(r.1) && r.1.brings == e.brings
  {
    (e.value,
     if e.count + 1 >= e.brings[e.offset]
     then Engine(NextOffset(e), 0, !e.value, e.brings)
     else e.(count := e.count + 1))
  }

  /** The engine after n questions. */
  function After(e: Engine, n: nat): (r: Engine)
    requires EngineOk(e)
    ensures EngineOk(r) && r.brings == e.brings
  {
    if n == 0 then e else Decide(After(e, n - 1)).1
  }

  // ---- the stream it stands for

  /** An entry below 1 acts as 1: the answer flips after one question. */
  function RunLength(b: int): (n: nat)
    ensures n >= 1
  {
    if b < 1 then 1 else b
  }

  /** The run-length expansion of a table whose first run answers `value`. */
  function Expand(brings: seq<int>, value: bool): seq<bool> {
    if brings == [] then []
    else seq(RunLength(brings[0]), i => value) + Expand(brings[1..], !value)
  }

  /** Where run number `o` begins in the expansion. */
  function RunStart(brings: seq<int>, o: nat): nat
    requires o <= |brings|
  {
    if o == 0 then 0 else RunLength(brings[0]) + RunStart(brings[1..], o - 1)
  }

  lemma {:induction false} ExpandLength(brings: seq<int>, value: bool)
    ensures |Expand(brings, value)| == RunStart(brings, |brings|)
  {
    if brings != [] {
      ExpandLength(brings[1..], !value);
    }
  }

  lemma {:induction false} RunStartNext(brings: seq<int>, o: nat)
    requires o < |brings|
    ensures RunStart(brings, o + 1) == RunStart(brings, o) + RunLength(brings[o])
    ensures RunStart(brings, o + 1) <= RunStart(brings, |brings|)
  {
    if o > 0 {
      RunStartNext(brings[1..], o - 1);
    }
  }

  lemma {:induction false} ExpandAt(brings: seq<int>, value: bool, o: nat, k: nat)
    requires o < |brings| && k < RunLength(brings[o])
    ensures RunStart(brings, o) + k < |Expand(brings, value)|
    ensures Expand(brings, value)[RunStart(brings, o) + k] == (value == (o % 2 == 0))
  {
    if o > 0 {
      ExpandAt(brings[1..], !value, o - 1, k);
      assert (o - 1) % 2 == 0 <==> o % 2 != 0;
    }
  }

  /** The answer that opens round q of the table: an even table starts every round alike, an
      odd one flips from round to round. */
  function RoundValue(brings: seq<int>, value: bool, q: nat): bool {
    if |brings| % 2 == 0 || q % 2 == 0 then value else !value
  }

  /** The n-th answer (from 0) of the endless stream. */
  function Stream(brings: seq<int>, value: bool, n: nat): bool
    requires brings != []
  {
    ExpandLength(brings, value);
    ExpandLength(brings, !value);
    RunStartNext(brings, 0);
    var period := RunStart(brings, |brings|);
    Expand(brings, RoundValue(brings, value, n / period))[n % period]
  }

  /** The engine stands at place p of round q. */
  predicate At(e: Engine, value: bool, q: nat, p: nat)
    requires EngineOk(e)
  {
    && 0 <= e.count < RunLength(e.brings[e.offset])
    && p == RunStart(e.brings, e.offset) + e.count < RunStart(e.brings, |e.brings|)
    && e.value == (RoundValue(e.brings, value, q) == (e.offset % 2 == 0))
  }

  lemma DecideMoves(e: Engine, value: bool, q: nat, p: nat)
    requires EngineOk(e) && At(e, value, q, p)
    ensures p + 1 < RunStart(e.brings, |e.brings|) ==> At(Decide(e).1, value, q, p + 1)
    ensures p + 1 == RunStart(e.brings, |e.brings|) ==> At(Decide(e).1, value, q + 1, 0)
  {
    var o := NextOffset(e);
    RunStartNext(e.brings, e.offset);
    RunStartNext(e.brings, o);
    assert (q + 1) % 2 == 0 <==> q % 2 != 0;
    assert (e.offset + 1) % 2 == 0 <==> e.offset % 2 != 0;
  }

  /** The engine's position after n questions. */
  lemma {:induction false} Position(brings: seq<int>, value: bool, n: nat) returns (q: nat, p: nat)
    requires brings != []
    ensures n == q * RunStart(brings, |brings|) + p
    ensures At(After(Start(brings, value), n), value, q, p)
  {
    if n == 0 {
      RunStartNext(brings, 0);
      q, p := 0, 0;
    } else {
      q, p := Position(brings, value, n - 1);
      DecideMoves(After(Start(brings, value), n - 1), value, q, p);
      if p + 1 < RunStart(brings, |brings|) {
        p := p + 1;
      } else {
        OneMoreRound(q, RunStart(brings, |brings|));
        q, p := q + 1, 0;
      }
    }
  }

  lemma OneMoreRound(q: nat, period: nat)
    ensures (q + 1) * period == q * period + period
  {
  }

  /** The engine refines the stream: its n-th answer is the stream's n-th element, through
      any number of rounds of the table. */
  lemma EngineRefinesStream(brings: seq<int>, value: bool, n: nat)
    requires brings != []
    ensures Decide(After(Start(brings, value), n)).0 == Stream(brings, value, n)
  {
    hide RunStart, Expand, After, RoundValue;
    var q, p := Position(brings, value, n);
    DivModUnique(n, RunStart(brings, |brings|), q, p);
    var e := After(Start(brings, value), n);
    ExpandAt(brings, RoundValue(brings, value, q), e.offset, e.count);
  }

  /** A table of even length repeats its expansion without a change of phase. */
  lemma EvenTablesRepeat(brings: seq<int>, value: bool, n: nat)
    requires brings != [] && |brings| % 2 == 0
    ensures Stream(brings, value, n + RunStart(brings, |brings|)) == Stream(brings, value, n)
  {
    var period := RunStart(brings, |brings|);
    RunStartNext(brings, 0);
    assert n == n / period * period + n % period;
    assert (n / period + 1) * period == n / period * period + period;
    DivModUnique(n + period, period, n / period + 1, n % period);
  }

  const FOREVER: int := 0x7fff_ffff

  /** The table of an unconditional branch, as bcontext_init writes it. */
  function GotoEngine(): Engine { Start([FOREVER], true) }

  /** For ever only in name: it is taken for 0x7fffffff questions, then refused for as many, and
      so on in turn. In particular it is taken the first 0x7fffffff times. */
  lemma GotoIsTaken(n: nat)
    ensures Decide(After(GotoEngine(), n)).0 <==> (n / 0x7fff_ffff) % 2 == 0
    ensures n < 0x7fff_ffff ==> Decide(After(GotoEngine(), n)).0
  {
    EngineRefinesStream([FOREVER], true, n);
    var value := RoundValue([FOREVER], true, n / FOREVER);
    assert RunStart([FOREVER], 1) == FOREVER + RunStart([], 0);
    ExpandLength([FOREVER], true);
    ExpandLength([FOREVER], false);
    ExpandAt([FOREVER], value, 0, n % FOREVER);
    if n < FOREVER {
      ModSmall(n, FOREVER);
    }
  }
}
