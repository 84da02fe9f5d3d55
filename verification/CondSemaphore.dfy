/** The recitation's counting semaphore, built from a mutex and a condition variable. */
module CondSemaphore {
  // One step is one operation on the mutex, on the condition variable or on the counter.
  // The condition variable follows POSIX.1-2008, System Interfaces, section 3:
  // pthread_cond_wait releases the mutex and blocks in one atomic step, a signal unblocks at
  // least one of the blocked threads if there are any, and a blocked thread may also wake
  // without a signal. A woken thread competes for the mutex with every other thread, so a
  // newcomer may overtake it. Any number of threads use the semaphore.

  import opened Sums

  datatype Pc =
    | Idle
    | WaitLock    // in semc_wait, about to lock
    | WaitTest    // holds the mutex, tests the counter for the first time
    | Asleep      // blocked on the condition variable
    | Woken       // unblocked, about to lock again
    | Retest      // holds the mutex, tests the counter again
    | WaitUnlock  // has decremented
    | PostLock    // in semc_post, about to lock
    | PostAdd     // holds the mutex, about to increment
    | PostSignal  // has incremented, about to signal
    | PostUnlock

  datatype State = State(count: int, owner: Option<nat>, pcs: seq<Pc>)

  datatype Action =
    | CallWait(t: nat)
    | CallPost(t: nat)
    | Lock(t: nat)
    | Test(t: nat)
    | Add(t: nat)
    | Signal(t: nat, woken: set<nat>)
    | Spurious(t: nat)
    | Unlock(t: nat)

  function Init(initial: nat, threads: nat): State {
    State(initial, None, seq(threads, i => Idle))
  }

  ghost predicate Enabled(s: State, a: Action) {
    && a.t < |s.pcs|
    && var pc := s.pcs[a.t];
       match a
       case CallWait(_) => pc.Idle?
       case CallPost(_) => pc.Idle?
       case Lock(_) => s.owner.None? && (pc.WaitLock? || pc.Woken? || pc.PostLock?)
       case Test(_) => pc.WaitTest? || pc.Retest?
       case Add(_) => pc.PostAdd?
       case Signal(_, woken) =>
         && pc.PostSignal?
         && (forall w :: w in woken ==> w < |s.pcs| && s.pcs[w].Asleep?)
         && (woken == {} ==> forall w :: 0 <= w < |s.pcs| ==> !s.pcs[w].Asleep?)
       case Spurious(_) => pc.Asleep?
       case Unlock(_) => pc.WaitUnlock? || pc.PostUnlock?
  }

  ghost function Step(s: State, a: Action): State
    requires Enabled(s, a)
  {
    var t := a.t;
    match a
    case CallWait(_) => s.(pcs := s.pcs[t := WaitLock])
    case CallPost(_) => s.(pcs := s.pcs[t := PostLock])
    case Lock(_) =>
      var next := if s.pcs[t].WaitLock? then WaitTest else if s.pcs[t].Woken? then Retest else PostAdd;
      s.(owner := Some(t), pcs := s.pcs[t := next])
    case Test(_) =>
      if s.count == 0
      then s.(owner := None, pcs := s.pcs[t := Asleep])
      else s.(count := s.count - 1, pcs := s.pcs[t := WaitUnlock])
    case Add(_) => s.(count := s.count + 1, pcs := s.pcs[t := PostSignal])
    case Signal(_, woken) =>
      s.(pcs := seq(|s.pcs|, i requires 0 <= i < |s.pcs| =>
                      if i in woken then Woken else if i == t then PostUnlock else s.pcs[i]))
    case Spurious(_) => s.(pcs := s.pcs[t := Woken])
    case Unlock(_) => s.(owner := None, pcs := s.pcs[t := Idle])
  }

  ghost predicate RunFrom(s: State, acts: seq<Action>)
    decreases |acts|
  {
    acts == [] || (Enabled(s, acts[0]) && RunFrom(Step(s, acts[0]), acts[1..]))
  }

  ghost function Run(s: State, acts: seq<Action>): State
    requires RunFrom(s, acts)
    decreases |acts|
  {
    if acts == [] then s else Run(Step(s, acts[0]), acts[1..])
  }

  /** Woken, or holding the mutex again but not yet at a second look at the counter. */
  function Rechecking(pc: Pc): int { if pc.Woken? || pc.Retest? then 1 else 0 }

  predicate HoldsMutex(pc: Pc) {
    pc.WaitTest? || pc.Retest? || pc.WaitUnlock? || pc.PostAdd? || pc.PostSignal? || pc.PostUnlock?
  }

  predicate SomeoneSleeps(s: State) {
    exists t :: 0 <= t < |s.pcs| && s.pcs[t].Asleep?
  }

  /** A poster that has incremented and not yet signalled still owes one wakeup. */
  function Owed(s: State): int {
    if s.owner.Some? && s.owner.value < |s.pcs| && s.pcs[s.owner.value].PostSignal? then 1 else 0
  }

  ghost predicate MutexOk(s: State) {
    && (s.owner.Some? ==> s.owner.value < |s.pcs|)
    && (forall t: nat :: t < |s.pcs| ==> (s.owner == Some(t) <==> HoldsMutex(s.pcs[t])))
  }

  ghost predicate WakeOk(s: State) {
    SomeoneSleeps(s) ==> SumOf(s.pcs, Rechecking) + Owed(s) >= s.count
  }

  ghost predicate Inv(s: State) {
    s.count >= 0 && MutexOk(s) && WakeOk(s)
  }

  lemma SignalAddsRechecker(s: State, a: Action)
    requires Inv(s) && Enabled(s, a) && a.Signal? && SomeoneSleeps(s)
    ensures SumOf(Step(s, a).pcs, Rechecking) >= SumOf(s.pcs, Rechecking) + 1
  {
    var s' := Step(s, a);
    var w :| w in a.woken;
    assert Rechecking(s.pcs[w]) < Rechecking(s'.pcs[w]);
    SumOfLe(s.pcs, Rechecking, s'.pcs, Rechecking);
  }

  lemma StepKeepsMutex(s: State, a: Action)
    requires MutexOk(s) && Enabled(s, a)
    ensures MutexOk(Step(s, a))
  {
    var s' := Step(s, a);
    forall t: nat | t < |s'.pcs| ensures s'.owner == Some(t) <==> HoldsMutex(s'.pcs[t]) {
      assert s.owner == Some(t) <==> HoldsMutex(s.pcs[t]);
      assert s.owner == Some(a.t) <==> HoldsMutex(s.pcs[a.t]);
    }
  }

  lemma StepKeepsWake(s: State, a: Action)
    requires Inv(s) && Enabled(s, a) && MutexOk(Step(s, a))
    ensures WakeOk(Step(s, a))
  {
    var s' := Step(s, a);
    if SomeoneSleeps(s') {
      var t :| 0 <= t < |s'.pcs| && s'.pcs[t].Asleep?;
      if a.Test? && s.count == 0 {
        SumOfNonNegative(s'.pcs, Rechecking);
      } else {
        assert s.pcs[t].Asleep?;
        assert s.owner == Some(a.t) <==> HoldsMutex(s.pcs[a.t]);
        if a.Signal? {
          SignalAddsRechecker(s, a);
        } else {
          SumOfUpdate(s.pcs, a.t, s'.pcs[a.t], Rechecking);
        }
      }
    }
  }

  lemma StepKeepsInv(s: State, a: Action)
    requires Inv(s) && Enabled(s, a)
    ensures Inv(Step(s, a))
  {
    StepKeepsMutex(s, a);
    StepKeepsWake(s, a);
  }

  /** What an atomic counting semaphore may do in one step. */
  datatype Event = P | V | Tau

  predicate AtomicNext(value: int, e: Event, value': int) {
    match e
    case P => value > 0 && value' == value - 1
    case V => value' == value + 1
    case Tau => value' == value
  }

  ghost function EventOf(s: State, a: Action): Event {
    match a
    case Test(_) => if s.count == 0 then Tau else P
    case Add(_) => V
    case _ => Tau
  }

  ghost function Events(s: State, acts: seq<Action>): seq<Event>
    requires RunFrom(s, acts)
    decreases |acts|
  {
    if acts == [] then [] else [EventOf(s, acts[0])] + Events(Step(s, acts[0]), acts[1..])
  }

  /** A sequence of events the atomic semaphore can perform from `value` to `value'`. */
  ghost predicate AtomicRun(value: int, es: seq<Event>, value': int)
    decreases |es|
  {
    if es == [] then value' == value
    else exists mid :: AtomicNext(value, es[0], mid) && AtomicRun(mid, es[1..], value')
  }

  /** Every run keeps the invariant and is a run of the atomic semaphore: a completed
      semc_wait is a P that found the value positive, a semc_post is a V. */
  lemma {:induction false} RefinesAtomicSemaphore(s: State, acts: seq<Action>)
    requires Inv(s) && RunFrom(s, acts)
    ensures Inv(Run(s, acts))
    ensures AtomicRun(s.count, Events(s, acts), Run(s, acts).count)
    decreases |acts|
  {
    if acts != [] {
      StepKeepsInv(s, acts[0]);
      var mid := Step(s, acts[0]);
      RefinesAtomicSemaphore(mid, acts[1..]);
      var es := Events(s, acts);
      assert es[1..] == Events(mid, acts[1..]);
      assert AtomicNext(s.count, es[0], mid.count);
    }
  }

  /** The steps the scheduler must eventually grant: neither a new call nor a wakeup
      without a signal. */
  predicate Obliged(a: Action) {
    !a.CallWait? && !a.CallPost? && !a.Spurious?
  }

  /** No lost wakeup, in every reachable state: the counter is never negative; while
      somebody sleeps the threads already woken cover the counter, but for the one
      increment whose signal is still to come; and when no obliged step is left, every
      caller that has not returned sleeps, and sleeps because the counter is zero. */
  lemma NoLostWakeup(initial: nat, threads: nat, acts: seq<Action>)
    requires RunFrom(Init(initial, threads), acts)
    ensures var s := Run(Init(initial, threads), acts);
      && s.count >= 0
      && (SomeoneSleeps(s) ==> SumOf(s.pcs, Rechecking) + Owed(s) >= s.count)
      && ((forall a :: Obliged(a) ==> !Enabled(s, a)) ==>
           && (forall t :: 0 <= t < |s.pcs| ==> s.pcs[t].Idle? || s.pcs[t].Asleep?)
           && (SomeoneSleeps(s) ==> s.count == 0))
  {
    RefinesAtomicSemaphore(Init(initial, threads), acts);
    var s := Run(Init(initial, threads), acts);
    if forall a :: Obliged(a) ==> !Enabled(s, a) {
      StuckMeansBlocked(s);
    }
  }

  lemma StuckMeansBlocked(s: State)
    requires Inv(s)
    requires forall a :: Obliged(a) ==> !Enabled(s, a)
    ensures forall t :: 0 <= t < |s.pcs| ==> s.pcs[t].Idle? || s.pcs[t].Asleep?
    ensures SomeoneSleeps(s) ==> s.count == 0
  {
    if s.owner.Some? {
      var t := s.owner.value;
      var sleepers := set w | 0 <= w < |s.pcs| && s.pcs[w].Asleep?;
      var next := match s.pcs[t]
        case PostAdd => Add(t)
        case PostSignal => Signal(t, sleepers)
        case WaitTest => Test(t)
        case Retest => Test(t)
        case _ => Unlock(t);
      if s.pcs[t].PostSignal? {
        forall w | 0 <= w < |s.pcs| && s.pcs[w].Asleep? ensures w in sleepers {}
      }
      assert Enabled(s, next) && Obliged(next);
    }
    forall t | 0 <= t < |s.pcs| ensures s.pcs[t].Idle? || s.pcs[t].Asleep? {
      assert !Enabled(s, Lock(t)) by { assert Obliged(Lock(t)); }
      assert !HoldsMutex(s.pcs[t]);
    }
    SumOfConst(s.pcs, Rechecking, 0);
  }

  // ---- whole calls

  datatype Call = Outside | InWait | InPost

  /** A record of calls and returns, kept from outside: which call each thread is in, and how
      many calls of either kind have been made and have returned. */
  datatype Ledger = Ledger(calls: seq<Call>, waitCalls: nat, postCalls: nat, waits: nat, posts: nat)

  /** A call returns when it unlocks the mutex. */
  function Entered(l: Ledger, a: Action): Ledger {
    if a.t >= |l.calls| then l
    else
      match a
      case CallWait(t) => l.(calls := l.calls[t := InWait], waitCalls := l.waitCalls + 1)
      case CallPost(t) => l.(calls := l.calls[t := InPost], postCalls := l.postCalls + 1)
      case Unlock(t) =>
        if l.calls[t].InPost?
        then l.(calls := l.calls[t := Outside], posts := l.posts + 1)
        else l.(calls := l.calls[t := Outside], waits := l.waits + 1)
      case _ => l
  }

  function Book(l: Ledger, acts: seq<Action>): Ledger
    decreases |acts|
  {
    if acts == [] then l else Book(Entered(l, acts[0]), acts[1..])
  }

  function NoCalls(threads: nat): Ledger { Ledger(seq(threads, i => Outside), 0, 0, 0, 0) }

  /** Past the increment of a post, and past the decrement of a wait, but not yet returned. */
  function HasAdded(pc: Pc): int { if pc.PostSignal? || pc.PostUnlock? then 1 else 0 }
  function HasTaken(pc: Pc): int { if pc.WaitUnlock? then 1 else 0 }

  function IsWaiting(c: Call): int { if c.InWait? then 1 else 0 }
  function IsPosting(c: Call): int { if c.InPost? then 1 else 0 }

  function CallOf(pc: Pc): Call {
    match pc
    case Idle => Outside
    case PostLock | PostAdd | PostSignal | PostUnlock => InPost
    case _ => InWait
  }

  ghost predicate CallsOk(s: State, l: Ledger) {
    && |l.calls| == |s.pcs|
    && (forall t :: 0 <= t < |s.pcs| ==> l.calls[t] == CallOf(s.pcs[t]))
    && l.waitCalls == l.waits + SumOf(l.calls, IsWaiting)
    && l.postCalls == l.posts + SumOf(l.calls, IsPosting)
  }

  ghost predicate UnitsOk(initial: nat, s: State, l: Ledger) {
    s.count == initial + l.posts + SumOf(s.pcs, HasAdded) - l.waits - SumOf(s.pcs, HasTaken)
  }

  ghost predicate BookOk(initial: nat, s: State, l: Ledger) { CallsOk(s, l) && UnitsOk(initial, s, l) }

  lemma SignalMovesNoCall(s: State, a: Action)
    requires Enabled(s, a) && a.Signal?
    ensures SumOf(Step(s, a).pcs, HasAdded) == SumOf(s.pcs, HasAdded)
    ensures SumOf(Step(s, a).pcs, HasTaken) == SumOf(s.pcs, HasTaken)
  {
    var s' := Step(s, a);
    SumOfLe(s.pcs, HasAdded, s'.pcs, HasAdded);
    SumOfLe(s'.pcs, HasAdded, s.pcs, HasAdded);
    SumOfLe(s.pcs, HasTaken, s'.pcs, HasTaken);
    SumOfLe(s'.pcs, HasTaken, s.pcs, HasTaken);
  }

  lemma StepKeepsCalls(s: State, l: Ledger, a: Action)
    requires CallsOk(s, l) && Enabled(s, a)
    ensures CallsOk(Step(s, a), Entered(l, a))
  {
    if a.CallWait? || a.CallPost? || a.Unlock? {
      SumOfUpdate(l.calls, a.t, Entered(l, a).calls[a.t], IsWaiting);
      SumOfUpdate(l.calls, a.t, Entered(l, a).calls[a.t], IsPosting);
    }
  }

  lemma StepKeepsUnits(initial: nat, s: State, l: Ledger, a: Action)
    requires CallsOk(s, l) && UnitsOk(initial, s, l) && Enabled(s, a)
    ensures UnitsOk(initial, Step(s, a), Entered(l, a))
  {
    if a.Signal? {
      SignalMovesNoCall(s, a);
    } else {
      assert l.calls[a.t] == CallOf(s.pcs[a.t]);
      SumOfUpdate(s.pcs, a.t, Step(s, a).pcs[a.t], HasAdded);
      SumOfUpdate(s.pcs, a.t, Step(s, a).pcs[a.t], HasTaken);
    }
  }

  lemma {:induction false} RunKeepsBook(initial: nat, s: State, l: Ledger, acts: seq<Action>)
    requires BookOk(initial, s, l) && RunFrom(s, acts)
    ensures BookOk(initial, Run(s, acts), Book(l, acts))
    decreases |acts|
  {
    hide CallsOk, UnitsOk, Enabled, Step;
    if acts != [] {
      StepKeepsCalls(s, l, acts[0]);
      StepKeepsUnits(initial, s, l, acts[0]);
      RunKeepsBook(initial, Step(s, acts[0]), Entered(l, acts[0]), acts[1..]);
    }
  }

  lemma StartsBooked(initial: nat, threads: nat)
    ensures BookOk(initial, Init(initial, threads), NoCalls(threads))
    ensures Inv(Init(initial, threads))
  {
    SumOfConst(Init(initial, threads).pcs, HasAdded, 0);
    SumOfConst(Init(initial, threads).pcs, HasTaken, 0);
    SumOfConst(NoCalls(threads).calls, IsWaiting, 0);
    SumOfConst(NoCalls(threads).calls, IsPosting, 0);
  }

  lemma BookOfRun(initial: nat, threads: nat, acts: seq<Action>)
    requires RunFrom(Init(initial, threads), acts)
    ensures Inv(Run(Init(initial, threads), acts))
    ensures BookOk(initial, Run(Init(initial, threads), acts), Book(NoCalls(threads), acts))
  {
    hide RunFrom, Run, CallsOk, UnitsOk, MutexOk, WakeOk;
    StartsBooked(initial, threads);
    RunKeepsBook(initial, Init(initial, threads), NoCalls(threads), acts);
    RefinesAtomicSemaphore(Init(initial, threads), acts);
  }

  /** In every run the counter is the initial value, plus the posts that have returned or are
      past their increment, minus the waits that have returned or are past their decrement. So
      no more waits ever return than there were units. */
  lemma CountIsCalls(initial: nat, threads: nat, acts: seq<Action>)
    requires RunFrom(Init(initial, threads), acts)
    ensures var s, l := Run(Init(initial, threads), acts), Book(NoCalls(threads), acts);
      && s.count == initial + l.posts + SumOf(s.pcs, HasAdded) - l.waits - SumOf(s.pcs, HasTaken)
      && l.waits <= initial + l.postCalls
  {
    hide RunFrom, Run, MutexOk, WakeOk, CallsOk;
    BookOfRun(initial, threads, acts);
    var s, l := Run(Init(initial, threads), acts), Book(NoCalls(threads), acts);
    SumOfNonNegative(s.pcs, HasTaken);
    PostersAddOnce(s, l);
  }

  lemma PostersAddOnce(s: State, l: Ledger)
    requires CallsOk(s, l)
    ensures l.posts + SumOf(s.pcs, HasAdded) <= l.postCalls
  {
    SumOfLe(s.pcs, HasAdded, l.calls, IsPosting);
  }

  /** What the callers of a counting semaphore rely on: when no obliged step is left, every post
      has returned, and as many waits have returned as there were units for, or all of them. So a
      thread sleeps only if the initial value and the posts are used up by returned waits. */
  lemma UnitsReachWaiters(initial: nat, threads: nat, acts: seq<Action>)
    requires RunFrom(Init(initial, threads), acts)
    requires forall a :: Obliged(a) ==> !Enabled(Run(Init(initial, threads), acts), a)
    ensures var s, l := Run(Init(initial, threads), acts), Book(NoCalls(threads), acts);
      && l.posts == l.postCalls
      && l.waits == (if l.waitCalls <= initial + l.postCalls then l.waitCalls else initial + l.postCalls)
      && (SomeoneSleeps(s) ==> initial + l.posts == l.waits)
  {
    hide Step, Enabled;
    BookOfRun(initial, threads, acts);
    var s, l := Run(Init(initial, threads), acts), Book(NoCalls(threads), acts);
    StuckMeansBlocked(s);
    SumOfConst(s.pcs, HasAdded, 0);
    SumOfConst(s.pcs, HasTaken, 0);
    SumOfConst(l.calls, IsPosting, 0);
    SumOfNonNegative(l.calls, IsWaiting);
    if !SomeoneSleeps(s) {
      SumOfConst(l.calls, IsWaiting, 0);
    }
  }

  /** The semaphore itself: its counter, updated in place. Who holds the mutex, and where each
      thread stands, belong to the threads library and are known to the proof only. */
  class Semaphore {
    var count: int
    ghost var owner: Option<nat>
    ghost var pcs: seq<Pc>

    ghost function Abs(): State
      reads this
    {
      State(count, owner, pcs)
    }

    /** semc_init. */
    constructor (initial: nat, threads: nat)
      ensures Abs() == Init(initial, threads) && Inv(Abs())
    {
      count := initial;
      owner := None;
      pcs := seq(threads, i => Idle);
    }

    /** The test of semc_wait's loop: it goes to sleep, or takes one unit and is through. */
    method TestOrTake(t: nat) returns (through: bool)
      requires Inv(Abs()) && Enabled(Abs(), Test(t))
      modifies this
      ensures Inv(Abs()) && Abs() == Step(old(Abs()), Test(t))
      ensures through <==> old(count) > 0
    {
      StepKeepsInv(Abs(), Test(t));
      ghost var after := Step(Abs(), Test(t));
      through := count != 0;
      if through {
        count := count - 1;
      }
      owner, pcs := after.owner, after.pcs;
    }

    /** The increment of semc_post. */
    method AddOne(t: nat)
      requires Inv(Abs()) && Enabled(Abs(), Add(t))
      modifies this
      ensures Inv(Abs()) && Abs() == Step(old(Abs()), Add(t))
    {
      StepKeepsInv(Abs(), Add(t));
      count := count + 1;
      pcs := pcs[t := PostSignal];
    }

    /** Any other action leaves the counter alone. */
    ghost method Other(a: Action)
      requires Inv(Abs()) && Enabled(Abs(), a) && !a.Test? && !a.Add?
      modifies this`owner, this`pcs
      ensures Inv(Abs()) && Abs() == Step(old(Abs()), a)
    {
      StepKeepsInv(Abs(), a);
      ghost var after := Step(Abs(), a);
      owner, pcs := after.owner, after.pcs;
    }

    /** The threads' calls, interleaved as the scheduler says. */
    method Execute(acts: seq<Action>)
      requires Inv(Abs()) && RunFrom(Abs(), acts)
      modifies this
      ensures Inv(Abs()) && Abs() == Run(old(Abs()), acts)
    {
      hide Inv, Enabled, Step;
      assert acts[0..] == acts;
      for i := 0 to |acts|
        invariant Inv(Abs()) && RunFrom(Abs(), acts[i..])
        invariant Run(Abs(), acts[i..]) == Run(old(Abs()), acts)
      {
        assert acts[i..][0] == acts[i] && acts[i..][1..] == acts[i + 1..];
        if acts[i].Test? {
          var through := TestOrTake(acts[i].t);
        } else if acts[i].Add? {
          AddOne(acts[i].t);
        } else {
          Other(acts[i]);
        }
      }
    }
  }
}
