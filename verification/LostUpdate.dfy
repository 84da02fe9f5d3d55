/** The shared counter of the thread recitation, with and without its mutex. */
module LostUpdate {
  // One increment is a load into a local followed by a store of the local plus one; each is
  // one atomic step, and a schedule names the thread that takes every step.

  import opened Sums

  datatype Thread = Thread(done: nat, tmp: Option<int>)
  datatype State = State(counter: int, threads: seq<Thread>)

  function Init(threads: nat): State {
    State(0, seq(threads, i => Thread(0, None)))
  }

  predicate Finished(s: State, n: nat) {
    forall t :: 0 <= t < |s.threads| ==> s.threads[t] == Thread(n, None)
  }

  /** The next load or store of thread `t`; a thread whose loop is over does nothing. */
  function Step(s: State, t: nat, n: nat): State {
    if t >= |s.threads| || s.threads[t].done >= n then s
    else
      var me := s.threads[t];
      match me.tmp
      case None => s.(threads := s.threads[t := me.(tmp := Some(s.counter))])
      case Some(v) => State(v + 1, s.threads[t := Thread(me.done + 1, None)])
  }

  function Run(s: State, sched: seq<nat>, n: nat): State
    decreases |sched|
  {
    if sched == [] then s else Run(Step(s, sched[0], n), sched[1..], n)
  }

  lemma {:induction false} RunAppend(s: State, a: seq<nat>, b: seq<nat>, n: nat)
    ensures Run(s, a + b, n) == Run(Run(s, a, n), b, n)
    decreases |a|
  {
    if a == [] {
      assert a + b == b;
    } else {
      assert (a + b)[1..] == a[1..] + b;
      RunAppend(Step(s, a[0], n), a[1..], b, n);
    }
  }

  function Done(th: Thread): int { th.done }

  /** Every local is at most the number of stores so far, and a thread that has stored
      once only ever loads positive values. */
  ghost predicate Inv(s: State, n: nat) {
    && 0 <= s.counter <= SumOf(s.threads, Done)
    && (forall t :: 0 <= t < |s.threads| ==>
         && s.threads[t].done <= n
         && (s.threads[t].done >= 1 ==> s.counter >= 1)
         && (s.threads[t].tmp.Some? ==>
              && 0 <= s.threads[t].tmp.value <= SumOf(s.threads, Done)
              && (s.threads[t].done >= 1 ==> s.threads[t].tmp.value >= 1)))
    && (s.threads == [] || s.counter >= 2 || exists t :: 0 <= t < |s.threads| && s.threads[t].done <= 1)
  }

  lemma StepKeepsInv(s: State, t: nat, n: nat)
    requires Inv(s, n)
    ensures Inv(Step(s, t, n), n)
  {
    if t < |s.threads| && s.threads[t].done < n {
      var s' := Step(s, t, n);
      SumOfUpdate(s.threads, t, s'.threads[t], Done);
      if s.threads[t].tmp.Some? && s.counter >= 2 && s.threads[t].done == 0 {
        assert s'.threads[t].done <= 1;
      } else if s'.counter < 2 && s.threads[t].tmp.Some? {
        assert s'.threads[t].done <= 1;
      } else if s.counter < 2 && s.threads[t].tmp.None? {
        var k :| 0 <= k < |s.threads| && s.threads[k].done <= 1;
        assert s'.threads[k].done <= 1;
      }
    }
  }

  lemma {:induction false} RunKeepsInv(s: State, sched: seq<nat>, n: nat)
    requires Inv(s, n)
    ensures Inv(Run(s, sched, n), n) && |Run(s, sched, n).threads| == |s.threads|
    decreases |sched|
  {
    if sched != [] {
      StepKeepsInv(s, sched[0], n);
      RunKeepsInv(Step(s, sched[0], n), sched[1..], n);
    }
  }

  /** Whatever the interleaving, two or more unlocked iterations a thread leave the
      counter between 2 and the number of increments. */
  lemma UnlockedBounds(threads: nat, n: nat, sched: seq<nat>)
    requires threads >= 1 && n >= 2
    requires Finished(Run(Init(threads), sched, n), n)
    ensures 2 <= Run(Init(threads), sched, n).counter <= threads * n
  {
    var s0 := Init(threads);
    SumOfConst(s0.threads, Done, 0);
    assert s0.threads[0].done <= 1;
    RunKeepsInv(s0, sched, n);
    var s := Run(s0, sched, n);
    SumOfConst(s.threads, Done, n);
    assert n * threads == threads * n;
  }

  /** `k` undisturbed iterations of one thread. */
  lemma {:induction false} Solo(s: State, t: nat, k: nat, n: nat) returns (sched: seq<nat>)
    requires t < |s.threads| && s.threads[t].tmp.None? && s.threads[t].done + k <= n
    ensures Run(s, sched, n)
         == State(s.counter + k, s.threads[t := Thread(s.threads[t].done + k, None)])
    decreases k
  {
    if k == 0 {
      sched := [];
      assert s.threads[t := s.threads[t]] == s.threads;
    } else {
      var s1 := Step(s, t, n);
      var s2 := Step(s1, t, n);
      assert s2 == State(s.counter + 1, s.threads[t := Thread(s.threads[t].done + 1, None)]);
      var rest := Solo(s2, t, k - 1, n);
      assert s2.threads[t := Thread(s.threads[t].done + k, None)]
          == s.threads[t := Thread(s.threads[t].done + k, None)];
      sched := [t, t] + rest;
      assert sched[1..] == [t] + rest && sched[1..][1..] == rest;
    }
  }

  /** The threads from `from` on run to the end one after the other. */
  lemma {:induction false} FinishFrom(s: State, from: nat, n: nat) returns (sched: seq<nat>)
    requires from <= |s.threads|
    requires forall t :: from <= t < |s.threads| ==> s.threads[t] == Thread(0, None)
    ensures Run(s, sched, n).threads
         == s.threads[..from] + seq(|s.threads| - from, i => Thread(n, None))
    ensures Run(s, sched, n).counter == s.counter + (|s.threads| - from) * n
    decreases |s.threads| - from
  {
    if from == |s.threads| {
      sched := [];
      assert s.threads[..from] == s.threads;
    } else {
      var a := Solo(s, from, n, n);
      var s1 := Run(s, a, n);
      var b := FinishFrom(s1, from + 1, n);
      sched := a + b;
      RunAppend(s, a, b, n);
      assert s1.threads[..from + 1] == s.threads[..from] + [Thread(n, None)];
      assert (|s.threads| - from) * n == n + (|s.threads| - from - 1) * n;
    }
  }

  /** The lower bound is attained for every number of threads and iterations: thread 0
      sits on its first load while the others work, and thread 1 on its last load while
      thread 0 works. */
  lemma UnlockedAttainsTwo(threads: nat, n: nat) returns (sched: seq<nat>)
    requires threads >= 2 && n >= 2
    ensures Finished(Run(Init(threads), sched, n), n)
    ensures Run(Init(threads), sched, n).counter == 2
  {
    var s0 := Init(threads);
    var s1 := Step(s0, 0, n);
    assert Run(s0, [0], n) == s1;
    var b := Solo(s1, 1, n - 1, n);
    var s2 := Run(s1, b, n);
    var c := FinishFrom(s2, 2, n);
    var s3 := Run(s2, c, n);
    assert s3.threads[0] == s2.threads[0] == Thread(0, Some(0));
    assert s3.threads[1] == s2.threads[1] == Thread(n - 1, None);
    var s4 := Step(s3, 0, n);
    var s5 := Step(s4, 1, n);
    assert s5.threads[1] == Thread(n - 1, Some(1)) && s5.threads[0] == Thread(1, None);
    assert [0, 1][1..] == [1] && [1][1..] == [];
    assert Run(s3, [0, 1], n) == Run(s4, [1], n) == s5;
    var d := Solo(s5, 0, n - 1, n);
    var s6 := Run(s5, d, n);
    var s7 := Step(s6, 1, n);
    assert Run(s6, [1], n) == s7;
    sched := [0] + (b + (c + ([0, 1] + (d + [1]))));
    RunAppend(s0, [0], b + (c + ([0, 1] + (d + [1]))), n);
    RunAppend(s1, b, c + ([0, 1] + (d + [1])), n);
    RunAppend(s2, c, [0, 1] + (d + [1]), n);
    RunAppend(s3, [0, 1], d + [1], n);
    RunAppend(s5, d, [1], n);
  }

  /** The upper bound is attained too, so both bounds are the best possible. */
  lemma UnlockedAttainsProduct(threads: nat, n: nat) returns (sched: seq<nat>)
    ensures Finished(Run(Init(threads), sched, n), n)
    ensures Run(Init(threads), sched, n).counter == threads * n
  {
    sched := FinishFrom(Init(threads), 0, n);
  }

  // ---- when the unlocked counter is exact

  /** For each thread, how many stores there had been when it last loaded; `clean` says that so
      far no store fell between another thread's load and its store. */
  datatype Watched = Watched(s: State, stamps: seq<nat>, clean: bool)

  function Stores(s: State): nat {
    SumOfNonNegative(s.threads, Done);
    SumOf(s.threads, Done)
  }

  function Watch(threads: nat): Watched { Watched(Init(threads), seq(threads, i => 0), true) }

  function WatchStep(x: Watched, t: nat, n: nat): Watched
    requires |x.stamps| == |x.s.threads|
  {
    if t >= |x.s.threads| || x.s.threads[t].done >= n then x
    else if x.s.threads[t].tmp.None? then Watched(Step(x.s, t, n), x.stamps[t := Stores(x.s)], x.clean)
    else Watched(Step(x.s, t, n), x.stamps, x.clean && x.stamps[t] == Stores(x.s))
  }

  function WatchRun(x: Watched, sched: seq<nat>, n: nat): Watched
    requires |x.stamps| == |x.s.threads|
    decreases |sched|
  {
    if sched == [] then x else WatchRun(WatchStep(x, sched[0], n), sched[1..], n)
  }

  /** The counter is behind the number of stores unless the run is clean; a local is exact as of
      its load if nothing has been stored since. */
  predicate WatchOk(x: Watched) {
    && |x.stamps| == |x.s.threads|
    && x.s.counter <= Stores(x.s) && (x.clean <==> x.s.counter == Stores(x.s))
    && forall t :: 0 <= t < |x.s.threads| && x.s.threads[t].tmp.Some? ==>
         && x.s.threads[t].tmp.value <= x.stamps[t] <= Stores(x.s)
         && (x.stamps[t] == Stores(x.s) ==> x.s.threads[t].tmp.value == x.s.counter)
  }

  lemma WatchStepOk(x: Watched, t: nat, n: nat)
    requires WatchOk(x)
    ensures WatchOk(WatchStep(x, t, n)) && WatchStep(x, t, n).s == Step(x.s, t, n)
  {
    if t < |x.s.threads| && x.s.threads[t].done < n {
      SumOfUpdate(x.s.threads, t, Step(x.s, t, n).threads[t], Done);
    }
  }

  lemma {:induction false} WatchRunOk(x: Watched, sched: seq<nat>, n: nat)
    requires WatchOk(x)
    ensures WatchOk(WatchRun(x, sched, n)) && WatchRun(x, sched, n).s == Run(x.s, sched, n)
    decreases |sched|
  {
    hide WatchOk, WatchStep, Step;
    if sched != [] {
      WatchStepOk(x, sched[0], n);
      WatchStepShape(x, sched[0], n);
      WatchRunOk(WatchStep(x, sched[0], n), sched[1..], n);
    }
  }

  lemma WatchStepShape(x: Watched, t: nat, n: nat)
    requires WatchOk(x)
    ensures |x.stamps| == |x.s.threads|
    ensures |WatchStep(x, t, n).stamps| == |WatchStep(x, t, n).s.threads|
  {
  }

  /** The unlocked counter ends at the number of increments if and only if no store fell
      between another thread's load and its store. */
  lemma UnlockedIsExactWhen(threads: nat, n: nat, sched: seq<nat>)
    requires Finished(Run(Init(threads), sched, n), n)
    ensures Run(Init(threads), sched, n).counter == threads * n <==> WatchRun(Watch(threads), sched, n).clean
  {
    SumOfConst(Init(threads).threads, Done, 0);
    WatchRunOk(Watch(threads), sched, n);
    RunKeepsThreads(Init(threads), sched, n);
    var s := Run(Init(threads), sched, n);
    SumOfConst(s.threads, Done, n);
    assert n * threads == threads * n;
  }

  lemma {:induction false} RunKeepsThreads(s: State, sched: seq<nat>, n: nat)
    ensures |Run(s, sched, n).threads| == |s.threads|
    decreases |sched|
  {
    if sched != [] {
      RunKeepsThreads(Step(s, sched[0], n), sched[1..], n);
    }
  }

  /** The counter itself and each thread's local, updated in place. */
  class Counter {
    var counter: int
    const threads: array<Thread>

    ghost function Abs(): State
      reads this, threads
    {
      State(counter, threads[..])
    }

    constructor (n: nat)
      ensures fresh(threads) && Abs() == Init(n)
    {
      counter := 0;
      threads := new Thread[n](i => Thread(0, None));
    }

    /** `tmp = counter`. */
    method Load(t: nat, n: nat)
      requires t < threads.Length && threads[t].done < n && threads[t].tmp.None?
      modifies threads
      ensures Abs() == Step(old(Abs()), t, n)
    {
      threads[t] := Thread(threads[t].done, Some(counter));
    }

    /** `counter = tmp + 1`, the end of an iteration. */
    method Store(t: nat, n: nat)
      requires t < threads.Length && threads[t].done < n && threads[t].tmp.Some?
      modifies this`counter, threads
      ensures Abs() == Step(old(Abs()), t, n)
    {
      counter := threads[t].tmp.value + 1;
      threads[t] := Thread(threads[t].done + 1, None);
    }

    /** The threads' loops, interleaved as the scheduler says. */
    method Execute(sched: seq<nat>, n: nat)
      modifies this, threads
      ensures Abs() == Run(old(Abs()), sched, n)
    {
      assert sched[..|sched|] == sched;
      for i := 0 to |sched|
        invariant Abs() == Run(old(Abs()), sched[..i], n)
      {
        var t := sched[i];
        RunAppend(old(Abs()), sched[..i], [t], n);
        assert sched[..i + 1] == sched[..i] + [t];
        assert Run(Abs(), [t], n) == Step(Abs(), t, n);
        if t < threads.Length && threads[t].done < n {
          if threads[t].tmp.None? {
            Load(t, n);
          } else {
            Store(t, n);
          }
        }
      }
    }
  }

  // ---- the same loop under the mutex

  datatype LockPc = Out | Locked | Loaded(tmp: int) | Stored
  datatype LockThread = LockThread(done: nat, pc: LockPc)
  datatype LockState = LockState(counter: int, owner: Option<nat>, threads: seq<LockThread>)

  function LockInit(threads: nat): LockState {
    LockState(0, None, seq(threads, i => LockThread(0, Out)))
  }

  predicate LockFinished(s: LockState, n: nat) {
    forall t :: 0 <= t < |s.threads| ==> s.threads[t] == LockThread(n, Out)
  }

  predicate CanStep(s: LockState, t: nat, n: nat) {
    && t < |s.threads|
    && (s.threads[t].pc.Out? ==> s.threads[t].done < n && s.owner.None?)
  }

  /** One step of `t` if it can take one: a thread that finds the mutex taken waits. */
  function LockStep(s: LockState, t: nat, n: nat): LockState {
    if !CanStep(s, t, n) then s
    else
      var me := s.threads[t];
      match me.pc
      case Out => s.(owner := Some(t), threads := s.threads[t := me.(pc := Locked)])
      case Locked => s.(threads := s.threads[t := me.(pc := Loaded(s.counter))])
      case Loaded(v) => s.(counter := v + 1, threads := s.threads[t := me.(pc := Stored)])
      case Stored => s.(owner := None, threads := s.threads[t := LockThread(me.done + 1, Out)])
  }

  function LockRun(s: LockState, sched: seq<nat>, n: nat): LockState
    decreases |sched|
  {
    if sched == [] then s else LockRun(LockStep(s, sched[0], n), sched[1..], n)
  }

  function LockedStores(th: LockThread): int {
    th.done + if th.pc.Stored? then 1 else 0
  }

  ghost predicate LockInv(s: LockState, n: nat) {
    && s.counter == SumOf(s.threads, LockedStores)
    && (forall t :: 0 <= t < |s.threads| ==>
         && s.threads[t].done <= n
         && (!s.threads[t].pc.Out? ==> s.threads[t].done < n)
         && (s.owner == Some(t) <==> !s.threads[t].pc.Out?)
         && (s.threads[t].pc.Loaded? ==> s.threads[t].pc.tmp == s.counter))
    && (s.owner.Some? ==> s.owner.value < |s.threads|)
  }

  lemma LockStepKeepsInv(s: LockState, t: nat, n: nat)
    requires LockInv(s, n)
    ensures LockInv(LockStep(s, t, n), n)
  {
    if CanStep(s, t, n) {
      SumOfUpdate(s.threads, t, LockStep(s, t, n).threads[t], LockedStores);
    }
  }

  lemma {:induction false} LockRunKeepsInv(s: LockState, sched: seq<nat>, n: nat)
    requires LockInv(s, n)
    ensures LockInv(LockRun(s, sched, n), n) && |LockRun(s, sched, n).threads| == |s.threads|
    decreases |sched|
  {
    if sched != [] {
      LockStepKeepsInv(s, sched[0], n);
      LockRunKeepsInv(LockStep(s, sched[0], n), sched[1..], n);
    }
  }

  /** With the mutex no update is lost in any interleaving, and as long as a thread is
      unfinished some thread can step. */
  lemma LockedIsExact(threads: nat, n: nat, sched: seq<nat>)
    ensures var s := LockRun(LockInit(threads), sched, n);
      && (LockFinished(s, n) ==> s.counter == threads * n)
      && (LockFinished(s, n) || exists t: nat :: CanStep(s, t, n))
  {
    var s0 := LockInit(threads);
    SumOfConst(s0.threads, LockedStores, 0);
    LockRunKeepsInv(s0, sched, n);
    var s := LockRun(s0, sched, n);
    if LockFinished(s, n) {
      SumOfConst(s.threads, LockedStores, n);
      assert n * threads == threads * n;
    } else if s.owner.Some? {
      assert CanStep(s, s.owner.value, n);
    } else {
      var t :| 0 <= t < |s.threads| && s.threads[t] != LockThread(n, Out);
      assert CanStep(s, t, n);
    }
  }
}
