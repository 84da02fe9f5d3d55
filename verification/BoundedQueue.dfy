/** The recitation's bounded buffer: a ring of `size` slots behind two semaphores and a mutex. */
module BoundedQueue {
  // Any number of producers and consumers share it. A step is one semaphore operation, one
  // lock operation or one access to the ring. Slot access and index update are separate
  // steps, so what the mutex is for shows.

  import opened Modular
  import opened Sums

  datatype Pc =
    | AtWait     // about to wait on `empty` (producer) or `full` (consumer)
    | AtLock     // holds a token, about to lock
    | AtSlot     // holds the lock, about to write or read the slot
    | AtAdvance  // has accessed the slot, about to move the index and unlock
    | AtPost     // about to post the other semaphore

  datatype Worker =
    | Producer(pc: Pc, todo: seq<int>)
    | Consumer(pc: Pc, need: nat, got: seq<int>)

  /** `pushed` and `popped` log the values in the order in which the indices moved. */
  datatype State = State(
    data: seq<int>, head: int, tail: int, empty: int, full: int, owner: Option<nat>,
    workers: seq<Worker>, pushed: seq<int>, popped: seq<int>)

  predicate FreshWorker(w: Worker) {
    w.pc.AtWait? && (w.Consumer? ==> w.got == [])
  }

  predicate Fresh(size: nat, workers: seq<Worker>) {
    size > 0 && forall t :: 0 <= t < |workers| ==> FreshWorker(workers[t])
  }

  predicate WorkerFinished(w: Worker) {
    w.pc.AtWait? && if w.Producer? then w.todo == [] else w.need == 0
  }

  predicate AllFinished(s: State) {
    forall t :: 0 <= t < |s.workers| ==> WorkerFinished(s.workers[t])
  }

  predicate Enabled(s: State, t: nat) {
    && t < |s.workers|
    && var w := s.workers[t];
       match w.pc
       case AtWait =>
         if w.Producer? then w.todo != [] && s.empty > 0 else w.need > 0 && s.full > 0
       case AtLock => s.owner.None?
       case _ => true
  }

  function Step(s: State, t: nat): State
    requires Enabled(s, t) && Inv(s)
  {
    var w := s.workers[t];
    assert WorkerOk(s, t);
    match w
    case Producer(AtWait, todo) =>
      s.(empty := s.empty - 1, workers := s.workers[t := Producer(AtLock, todo)])
    case Producer(AtLock, todo) =>
      s.(owner := Some(t), workers := s.workers[t := Producer(AtSlot, todo)])
    case Producer(AtSlot, todo) =>
      s.(data := s.data[s.tail := todo[0]], workers := s.workers[t := Producer(AtAdvance, todo)])
    case Producer(AtAdvance, todo) =>
      s.(tail := (s.tail + 1) % |s.data|, owner := None, pushed := s.pushed + [todo[0]],
         workers := s.workers[t := Producer(AtPost, todo)])
    case Producer(AtPost, todo) =>
      s.(full := s.full + 1, workers := s.workers[t := Producer(AtWait, todo[1..])])
    case Consumer(AtWait, need, got) =>
      s.(full := s.full - 1, workers := s.workers[t := Consumer(AtLock, need, got)])
    case Consumer(AtLock, need, got) =>
      s.(owner := Some(t), workers := s.workers[t := Consumer(AtSlot, need, got)])
    case Consumer(AtSlot, need, got) =>
      s.(workers := s.workers[t := Consumer(AtAdvance, need, got + [s.data[s.head]])])
    case Consumer(AtAdvance, need, got) =>
      s.(head := (s.head + 1) % |s.data|, owner := None, popped := s.popped + [got[|got| - 1]],
         workers := s.workers[t := Consumer(AtPost, need, got)])
    case Consumer(AtPost, need, got) =>
      s.(empty := s.empty + 1, workers := s.workers[t := Consumer(AtWait, need - 1, got)])
  }

  // ---- where the tokens of the two semaphores are

  function EmptyTokens(w: Worker): int {
    if w.Producer? then (if w.pc.AtLock? || w.pc.AtSlot? || w.pc.AtAdvance? then 1 else 0)
    else if w.pc.AtPost? then 1 else 0
  }

  function FullTokens(w: Worker): int {
    if w.Producer? then (if w.pc.AtPost? then 1 else 0)
    else if w.pc.AtLock? || w.pc.AtSlot? || w.pc.AtAdvance? then 1 else 0
  }

  function ToPush(w: Worker): int {
    if w.Consumer? then 0 else |w.todo| - if w.pc.AtPost? then 1 else 0
  }

  function ToPop(w: Worker): int {
    if w.Producer? then 0 else w.need - if w.pc.AtPost? then 1 else 0
  }

  predicate InSection(pc: Pc) { pc.AtSlot? || pc.AtAdvance? }

  predicate WorkerOk(s: State, t: nat)
    requires t < |s.workers|
  {
    var w := s.workers[t];
    && (s.owner == Some(t) <==> InSection(w.pc))
    && (w.Producer? && !w.pc.AtWait? ==> w.todo != [])
    && (w.Consumer? && !w.pc.AtWait? ==> w.need > 0)
    && (w.pc.AtAdvance? && w.Producer? ==>
         && 0 <= s.tail < |s.data|
         && s.data[s.tail] == w.todo[0])
    && (w.pc.AtAdvance? && w.Consumer? ==>
         && w.got != [] && |s.popped| < |s.pushed|
         && w.got[|w.got| - 1] == s.pushed[|s.popped|])
  }

  /** The ring holds exactly the values pushed and not yet popped. */
  predicate RingOk(s: State) {
    && |s.data| > 0
    && |s.popped| <= |s.pushed| <= |s.popped| + |s.data|
    && s.popped == s.pushed[..|s.popped|]
    && s.head == |s.popped| % |s.data|
    && s.tail == |s.pushed| % |s.data|
    && (forall k :: |s.popped| <= k < |s.pushed| ==> s.data[k % |s.data|] == s.pushed[k])
  }

  predicate TokensOk(s: State) {
    && s.empty >= 0 && s.full >= 0
    && s.empty + SumOf(s.workers, EmptyTokens) + |s.pushed| - |s.popped| == |s.data|
    && s.full + SumOf(s.workers, FullTokens) == |s.pushed| - |s.popped|
  }

  predicate Inv(s: State) {
    && RingOk(s)
    && TokensOk(s)
    && (s.owner.Some? ==> s.owner.value < |s.workers|)
    && (forall t: nat :: t < |s.workers| ==> WorkerOk(s, t))
  }

  /** A producer about to write finds an unused slot, so no unread value is lost; a
      consumer about to read finds an unread value. */
  lemma TokenMeansRoom(s: State, t: nat)
    requires Inv(s) && t < |s.workers| && InSection(s.workers[t].pc)
    ensures s.workers[t].Producer? ==> |s.pushed| < |s.popped| + |s.data|
    ensures s.workers[t].Consumer? ==> |s.popped| < |s.pushed|
  {
    SumOfAtLeast(s.workers, EmptyTokens, t);
    SumOfAtLeast(s.workers, FullTokens, t);
  }

  lemma WriteKeepsUnread(s: State, v: int)
    requires RingOk(s) && |s.pushed| < |s.popped| + |s.data|
    ensures RingOk(s.(data := s.data[s.tail := v]))
  {
    forall k | |s.popped| <= k < |s.pushed| ensures k % |s.data| != s.tail {
      ModDistinct(k, |s.pushed|, |s.data|);
    }
  }

  lemma StepKeepsRing(s: State, t: nat)
    requires Inv(s) && Enabled(s, t)
    ensures RingOk(Step(s, t))
  {
    var w := s.workers[t];
    assert WorkerOk(s, t);
    if InSection(w.pc) {
      TokenMeansRoom(s, t);
      ModAdd(|s.pushed|, 1, |s.data|);
      ModAdd(|s.popped|, 1, |s.data|);
      if w.Producer? && w.pc.AtSlot? {
        WriteKeepsUnread(s, w.todo[0]);
      }
    }
  }

  lemma StepKeepsTokens(s: State, t: nat)
    requires Inv(s) && Enabled(s, t)
    ensures TokensOk(Step(s, t))
  {
    var w' := Step(s, t).workers[t];
    SumOfUpdate(s.workers, t, w', EmptyTokens);
    SumOfUpdate(s.workers, t, w', FullTokens);
  }

  lemma StepKeepsWorker(s: State, t: nat, u: nat)
    requires Inv(s) && Enabled(s, t) && u < |s.workers|
    ensures WorkerOk(Step(s, t), u)
  {
    assert WorkerOk(s, t) && WorkerOk(s, u);
    if InSection(s.workers[t].pc) {
      TokenMeansRoom(s, t);
    }
  }

  lemma StepKeepsInv(s: State, t: nat)
    requires Inv(s) && Enabled(s, t)
    ensures Inv(Step(s, t))
  {
    StepKeepsRing(s, t);
    StepKeepsTokens(s, t);
    forall u: nat | u < |s.workers| ensures WorkerOk(Step(s, t), u) {
      StepKeepsWorker(s, t, u);
    }
  }

  // ---- whole runs

  predicate RunFrom(s: State, sched: seq<nat>)
    requires Inv(s)
    decreases |sched|
  {
    if sched == [] then true
    else Enabled(s, sched[0]) && (StepKeepsInv(s, sched[0]); RunFrom(Step(s, sched[0]), sched[1..]))
  }

  function Run(s: State, sched: seq<nat>): (s': State)
    requires Inv(s) && RunFrom(s, sched)
    ensures Inv(s')
    decreases |sched|
  {
    if sched == [] then s
    else StepKeepsInv(s, sched[0]); Run(Step(s, sched[0]), sched[1..])
  }

  function Init(size: nat, workers: seq<Worker>): (s: State)
    requires Fresh(size, workers)
    ensures Inv(s)
  {
    SumOfConst(workers, EmptyTokens, 0);
    SumOfConst(workers, FullTokens, 0);
    State(seq(size, i => 0), 0, 0, size, 0, None, workers, [], [])
  }

  /** Steps a worker still has to take. */
  function Left(w: Worker): int {
    var behind := match w.pc
      case AtWait => 0
      case AtLock => 1
      case AtSlot => 2
      case AtAdvance => 3
      case AtPost => 4;
    5 * (if w.Producer? then |w.todo| else w.need) - behind
  }

  /** Each step uses up one unit of the remaining work, so no run is longer than the work
      at its start; and the totals to push and to pop are conserved. */
  lemma {:induction false} RunLaws(s: State, sched: seq<nat>)
    requires Inv(s) && RunFrom(s, sched)
    ensures var s' := Run(s, sched);
      && |sched| == SumOf(s.workers, Left) - SumOf(s'.workers, Left)
      && 0 <= SumOf(s'.workers, Left)
      && |s'.data| == |s.data|
      && |s'.pushed| + SumOf(s'.workers, ToPush) == |s.pushed| + SumOf(s.workers, ToPush)
      && |s'.popped| + SumOf(s'.workers, ToPop) == |s.popped| + SumOf(s.workers, ToPop)
    decreases |sched|
  {
    hide Inv, Enabled, Step, Left, ToPush, ToPop;
    if sched == [] {
      LeftNotNegative(s);
    } else {
      StepKeepsInv(s, sched[0]);
      StepLaws(s, sched[0]);
      RunLaws(Step(s, sched[0]), sched[1..]);
    }
  }

  lemma LeftNotNegative(s: State)
    requires Inv(s)
    ensures SumOf(s.workers, Left) >= 0
  {
    forall t: nat | t < |s.workers| ensures Left(s.workers[t]) >= 0 {
      assert WorkerOk(s, t);
    }
    SumOfNonNegative(s.workers, Left);
  }

  /** What one step does to the worker that takes it. */
  lemma StepOfWorker(s: State, t: nat)
    requires Inv(s) && Enabled(s, t)
    ensures var s', w := Step(s, t), s.workers[t];
      && |s'.workers| == |s.workers| && s'.workers == s.workers[t := s'.workers[t]] && |s'.data| == |s.data|
      && Left(s'.workers[t]) == Left(w) - 1
      && |s'.pushed| + ToPush(s'.workers[t]) == |s.pushed| + ToPush(w)
      && |s'.popped| + ToPop(s'.workers[t]) == |s.popped| + ToPop(w)
  {
    assert WorkerOk(s, t);
  }

  lemma StepLaws(s: State, t: nat)
    requires Inv(s) && Enabled(s, t)
    ensures var s' := Step(s, t);
      && SumOf(s'.workers, Left) == SumOf(s.workers, Left) - 1
      && |s'.data| == |s.data|
      && |s'.pushed| + SumOf(s'.workers, ToPush) == |s.pushed| + SumOf(s.workers, ToPush)
      && |s'.popped| + SumOf(s'.workers, ToPop) == |s.popped| + SumOf(s.workers, ToPop)
  {
    hide Inv, Step, Left, ToPush, ToPop;
    StepOfWorker(s, t);
    var w' := Step(s, t).workers[t];
    SumOfUpdate(s.workers, t, w', Left);
    SumOfUpdate(s.workers, t, w', ToPush);
    SumOfUpdate(s.workers, t, w', ToPop);
  }

  /** The r-th value popped is the r-th value pushed, in every interleaving. */
  lemma Fifo(size: nat, workers: seq<Worker>, sched: seq<nat>)
    requires Fresh(size, workers) && RunFrom(Init(size, workers), sched)
    ensures var s := Run(Init(size, workers), sched);
      && |s.popped| <= |s.pushed| <= |s.popped| + size
      && (forall r :: 0 <= r < |s.popped| ==> s.popped[r] == s.pushed[r])
      && s.tail == (s.head + |s.pushed| - |s.popped|) % size
  {
    RunLaws(Init(size, workers), sched);
    var s := Run(Init(size, workers), sched);
    ModAdd(|s.popped|, |s.pushed| - |s.popped|, size);
  }

  predicate Stuck(s: State) {
    forall t: nat :: t < |s.workers| ==> !Enabled(s, t)
  }

  /** The shared totals decide everything: when the pushes to make are at least the pops
      to make and exceed them by at most the ring's size, every run that cannot go on has
      finished all threads; otherwise no run at all finishes them. Every run is finite by
      RunLaws, so in the first case every schedule ends well and in the second none does. */
  lemma AllFinishExactlyWhen(size: nat, workers: seq<Worker>, sched: seq<nat>)
    requires Fresh(size, workers) && RunFrom(Init(size, workers), sched)
    ensures var s := Run(Init(size, workers), sched);
      var surplus := SumOf(workers, ToPush) - SumOf(workers, ToPop);
      && (AllFinished(s) ==> 0 <= surplus <= size)
      && (Stuck(s) && 0 <= surplus <= size ==> AllFinished(s))
  {
    var s0 := Init(size, workers);
    RunLaws(s0, sched);
    var s := Run(s0, sched);
    if AllFinished(s) {
      SumOfConst(s.workers, ToPush, 0);
      SumOfConst(s.workers, ToPop, 0);
    } else if Stuck(s) {
      StuckWorkersWait(s);
      var t: nat :| t < |s.workers| && !WorkerFinished(s.workers[t]);
      assert !Enabled(s, t);
      SumOfZero(s.workers, ToPush);
      SumOfZero(s.workers, ToPop);
      SumOfNonNegative(s.workers, ToPush);
      SumOfNonNegative(s.workers, ToPop);
      if s.workers[t].Producer? {
        assert ToPush(s.workers[t]) > 0;
      } else {
        assert ToPop(s.workers[t]) > 0;
      }
    }
  }

  /** A stuck state with a value in the ring has nothing left to pop, one with room has
      nothing left to push. */
  lemma StuckWorkersWait(s: State)
    requires Inv(s) && Stuck(s)
    ensures forall t: nat :: t < |s.workers| ==> s.workers[t].pc.AtWait?
    ensures s.full == |s.pushed| - |s.popped|
    ensures s.empty + s.full == |s.data|
    ensures s.full > 0 ==> SumOf(s.workers, ToPop) == 0
    ensures s.empty > 0 ==> SumOf(s.workers, ToPush) == 0
    ensures forall t: nat :: t < |s.workers| ==> ToPush(s.workers[t]) >= 0 && ToPop(s.workers[t]) >= 0
  {
    if s.owner.Some? {
      assert WorkerOk(s, s.owner.value);
      assert Enabled(s, s.owner.value);
    }
    forall t: nat | t < |s.workers| ensures s.workers[t].pc.AtWait? {
      assert WorkerOk(s, t) && !Enabled(s, t);
    }
    SumOfConst(s.workers, EmptyTokens, 0);
    SumOfConst(s.workers, FullTokens, 0);
    forall t: nat | t < |s.workers|
      ensures s.full > 0 ==> ToPop(s.workers[t]) == 0
      ensures s.empty > 0 ==> ToPush(s.workers[t]) == 0
    {
      assert !Enabled(s, t);
    }
    if s.full > 0 {
      SumOfConst(s.workers, ToPop, 0);
    }
    if s.empty > 0 {
      SumOfConst(s.workers, ToPush, 0);
    }
  }

  lemma RingFacts(s: State)
    requires Inv(s)
    ensures |s.popped| <= |s.pushed| && s.popped == s.pushed[..|s.popped|]
  {
  }

  // ---- the ring itself, updated in place

  class Ring {
    const data: array<int>
    const workers: array<Worker>
    var head: int
    var tail: int
    var empty: int
    var full: int
    var owner: Option<nat>
    ghost var pushed: seq<int>
    ghost var popped: seq<int>

    ghost function Abs(): State
      reads this, data, workers
    {
      State(data[..], head, tail, empty, full, owner, workers[..], pushed, popped)
    }

    ghost predicate Valid()
      reads this, data, workers
    {
      Inv(Abs())
    }

    /** The values pushed and not yet popped. */
    ghost function Contents(): seq<int>
      reads this, data, workers
      requires Valid()
    {
      pushed[|popped|..]
    }

    /** q_init. */
    constructor (size: nat, threads: seq<Worker>)
      requires Fresh(size, threads)
      ensures fresh(data) && fresh(workers) && Valid() && Abs() == Init(size, threads)
    {
      data := new int[size](i => 0);
      workers := new Worker[|threads|](i requires 0 <= i < |threads| => threads[i]);
      head, tail, empty, full, owner := 0, 0, size, 0, None;
      pushed, popped := [], [];
      new;
      assert Abs() == Init(size, threads);
    }

    /** The next step of producer t in q_push. */
    method PushStep(t: nat)
      requires Valid() && Enabled(Abs(), t) && workers[t].Producer?
      modifies this, data, workers
      ensures Valid() && Abs() == Step(old(Abs()), t)
    {
      StepKeepsInv(Abs(), t);
      assert WorkerOk(Abs(), t);
      ghost var after := Step(Abs(), t);
      var todo := workers[t].todo;
      match workers[t].pc {
        case AtWait =>
          empty := empty - 1;
          workers[t] := Producer(AtLock, todo);
        case AtLock =>
          owner := Some(t);
          workers[t] := Producer(AtSlot, todo);
        case AtSlot =>
          data[tail] := todo[0];
          workers[t] := Producer(AtAdvance, todo);
        case AtAdvance =>
          tail := (tail + 1) % data.Length;
          owner := None;
          pushed := pushed + [todo[0]];
          workers[t] := Producer(AtPost, todo);
        case AtPost =>
          full := full + 1;
          workers[t] := Producer(AtWait, todo[1..]);
      }
      assert Abs() == after;
    }

    /** The next step of consumer t in q_pop. */
    method PopStep(t: nat)
      requires Valid() && Enabled(Abs(), t) && workers[t].Consumer?
      modifies this, workers
      ensures Valid() && Abs() == Step(old(Abs()), t)
    {
      StepKeepsInv(Abs(), t);
      assert WorkerOk(Abs(), t);
      ghost var after := Step(Abs(), t);
      var need, got := workers[t].need, workers[t].got;
      match workers[t].pc {
        case AtWait =>
          full := full - 1;
          workers[t] := Consumer(AtLock, need, got);
        case AtLock =>
          owner := Some(t);
          workers[t] := Consumer(AtSlot, need, got);
        case AtSlot =>
          workers[t] := Consumer(AtAdvance, need, got + [data[head]]);
        case AtAdvance =>
          head := (head + 1) % data.Length;
          owner := None;
          popped := popped + [got[|got| - 1]];
          workers[t] := Consumer(AtPost, need, got);
        case AtPost =>
          empty := empty + 1;
          workers[t] := Consumer(AtWait, need - 1, got);
      }
      assert Abs() == after;
    }

    /** A whole q_push that nobody interrupts. */
    method Push(t: nat)
      requires Valid() && t < workers.Length && workers[t].Producer? && workers[t].pc.AtWait? && workers[t].todo != []
      requires empty > 0 && owner.None?
      modifies this, data, workers
      ensures Valid() && Contents() == old(Contents()) + [old(workers[t].todo[0])]
      ensures workers[..] == old(workers[..])[t := Producer(AtWait, old(workers[t].todo[1..]))] && owner.None?
      ensures empty == old(empty) - 1 && full == old(full) + 1
    {
      hide TokensOk, WorkerOk;
      PushStep(t);
      PushStep(t);
      PushStep(t);
      PushStep(t);
      PushStep(t);
    }

    /** A whole q_pop that nobody interrupts: it takes the oldest value. */
    method Pop(t: nat) returns (v: int)
      requires Valid() && t < workers.Length && workers[t].Consumer? && workers[t].pc.AtWait? && workers[t].need > 0
      requires full > 0 && owner.None?
      modifies this, workers
      ensures Valid() && old(Contents()) == [v] + Contents() && owner.None?
      ensures workers[..]
           == old(workers[..])[t := Consumer(AtWait, old(workers[t].need) - 1, old(workers[t].got) + [v])]
      ensures empty == old(empty) + 1 && full == old(full) - 1
    {
      hide Inv;
      RingFacts(Abs());
      PopStep(t);
      PopStep(t);
      PopStep(t);
      PopStep(t);
      PopStep(t);
      RingFacts(Abs());
      v := workers[t].got[|workers[t].got| - 1];
    }
  }
}
