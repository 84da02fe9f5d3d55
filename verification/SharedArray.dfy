/** Assignment 4's shared ring of host names. */
module SharedArray {
  // Unlike the recitation's ring it keeps no write index: array_put derives the slot from
  // `head` and the current value of the semaphore `full`, which other threads change without
  // holding the mutex. A step is one semaphore operation (POSIX.1-2008, System Interfaces,
  // section 3) or one access under the mutex. Each worker repeats array_put, or array_get,
  // for ever.

  import opened Modular
  import opened Sums

  datatype Pc =
    | Idle
    | Took                // has waited on `empty` (put) or `full` (get)
    | Inside              // holds the mutex
    | Chosen(lag: nat)    // put only: `tail` is computed; what it missed, for the record
    | Moved               // has written, or has read and advanced `head`; mutex released

  datatype Worker = Worker(putter: bool, pc: Pc, item: string)

  /** `written` and `read` log the items in the order of the accesses, `placed` the slots
      written; `clean` says that every slot so far was chosen with nothing in flight. */
  datatype State = State(
    arr: seq<string>, head: int, tail: int, mutex: Option<nat>, full: int, empty: int,
    workers: seq<Worker>, written: seq<string>, read: seq<string>, placed: seq<int>, clean: bool)

  predicate Fresh(size: nat, workers: seq<Worker>) {
    size > 0 && forall t :: 0 <= t < |workers| ==> workers[t].pc.Idle?
  }

  function Init(size: nat, workers: seq<Worker>): (s: State)
    requires Fresh(size, workers)
    ensures Inv(s)
  {
    SumOfConst(workers, EmptyHeld, 0);
    SumOfConst(workers, Unposted, 0);
    SumOfConst(workers, Unread, 0);
    State(seq(size, i => ""), 0, 0, None, 0, size, workers, [], [], [], true)
  }

  predicate Enabled(s: State, t: nat) {
    && t < |s.workers|
    && var w := s.workers[t];
       match w.pc
       case Idle => if w.putter then s.empty > 0 else s.full > 0
       case Took => s.mutex.None?
       case _ => true
  }

  /** `item` is the host name of the put that a step from Idle starts. */
  function Step(s: State, t: nat, item: string): State
    requires Inv(s) && Enabled(s, t)
  {
    assert WorkerOk(s, t);
    var w := s.workers[t];
    var size := |s.arr|;
    match w.pc
    case Idle =>
      if w.putter
      then s.(empty := s.empty - 1, workers := s.workers[t := w.(pc := Took, item := item)])
      else s.(full := s.full - 1, workers := s.workers[t := w.(pc := Took)])
    case Took =>
      s.(mutex := Some(t), workers := s.workers[t := w.(pc := Inside)])
    case Inside =>
      if w.putter then
        var lag := InFlight(s);
        s.(tail := (s.head + s.full) % size, clean := s.clean && lag == 0,
           workers := s.workers[t := w.(pc := Chosen(lag))])
      else
        s.(head := (s.head + 1) % size, read := s.read + [s.arr[s.head]], mutex := None,
           workers := s.workers[t := w.(pc := Moved)])
    case Chosen(_) =>
      s.(arr := s.arr[s.tail := w.item], written := s.written + [w.item], placed := s.placed + [s.tail],
         mutex := None,
         workers := s.workers[t := w.(pc := Moved)])
    case Moved =>
      if w.putter
      then s.(full := s.full + 1, workers := s.workers[t := w.(pc := Idle)])
      else s.(empty := s.empty + 1, workers := s.workers[t := w.(pc := Idle)])
  }

  /** Producers that have written and not yet posted `full`. */
  function Unposted(w: Worker): int { if w.putter && w.pc.Moved? then 1 else 0 }

  /** Consumers that have taken `full` and not yet advanced `head`. */
  function Unread(w: Worker): int { if !w.putter && (w.pc.Took? || w.pc.Inside?) then 1 else 0 }

  /** Workers holding a token of `empty`. */
  function EmptyHeld(w: Worker): int {
    if w.putter then (if w.pc.Took? || w.pc.Inside? || w.pc.Chosen? then 1 else 0)
    else if w.pc.Moved? then 1 else 0
  }

  /** Operations half done as seen by a producer about to choose its slot. */
  function InFlight(s: State): (n: nat) {
    FlagSums(s.workers);
    SumOf(s.workers, Unposted) + SumOf(s.workers, Unread)
  }

  lemma FlagSums(ws: seq<Worker>)
    ensures SumOf(ws, Unposted) >= 0 && SumOf(ws, Unread) >= 0 && SumOf(ws, EmptyHeld) >= 0
  {
    SumOfNonNegative(ws, Unposted);
    SumOfNonNegative(ws, Unread);
    SumOfNonNegative(ws, EmptyHeld);
  }

  predicate InMutex(pc: Pc) { pc.Inside? || pc.Chosen? }

  predicate WorkerOk(s: State, t: nat)
    requires t < |s.workers|
  {
    var w := s.workers[t];
    && (s.mutex == Some(t) <==> InMutex(w.pc))
    && (w.pc.Chosen? ==>
         && w.putter && |s.arr| > 0
         && w.pc.lag < |s.arr| && w.pc.lag <= |s.written| - |s.read|
         && s.tail == (|s.written| - w.pc.lag) % |s.arr|
         && (s.clean ==> w.pc.lag == 0))
  }

  predicate TokensOk(s: State) {
    && s.full >= 0 && s.empty >= 0
    && s.full + SumOf(s.workers, Unposted) + SumOf(s.workers, Unread) == |s.written| - |s.read|
    && s.empty + SumOf(s.workers, EmptyHeld) + |s.written| - |s.read| == |s.arr|
  }

  /** As long as every slot was chosen with nothing in flight, the ring is a queue. */
  predicate QueueOk(s: State) {
    s.clean && |s.read| <= |s.written| <= |s.read| + |s.arr| && |s.arr| > 0 ==>
      && s.read == s.written[..|s.read|]
      && (forall k :: |s.read| <= k < |s.written| ==> s.arr[k % |s.arr|] == s.written[k])
  }

  /** The k-th item went to slot k mod size, for all k so far. */
  predicate PlacedInOrder(s: State)
    requires |s.arr| > 0
  {
    forall k :: 0 <= k < |s.placed| ==> s.placed[k] == k % |s.arr|
  }

  /** A producer has chosen its slot with something in flight, and not yet written. */
  predicate Misled(s: State) {
    exists t :: 0 <= t < |s.workers| && s.workers[t].pc.Chosen? && s.workers[t].pc.lag > 0
  }

  predicate PlacedOk(s: State) {
    |s.arr| > 0 && |s.placed| == |s.written| && (s.clean <==> PlacedInOrder(s) && !Misled(s))
  }

  predicate Inv(s: State) {
    && |s.arr| > 0
    && s.head == |s.read| % |s.arr|
    && TokensOk(s)
    && QueueOk(s)
    && PlacedOk(s)
    && (s.mutex.Some? ==> s.mutex.value < |s.workers|)
    && (forall t: nat :: t < |s.workers| ==> WorkerOk(s, t))
  }

  /** Where the next write goes. With w items written, it is slot (w - P - C) mod size,
      P being the producers between writing and posting and C the consumers between
      taking `full` and advancing `head`; and that is the slot after the last one exactly
      when P and C are zero. */
  lemma WritePosition(s: State, t: nat, item: string)
    requires Inv(s) && Enabled(s, t) && s.workers[t].putter && s.workers[t].pc.Inside?
    ensures var P, C := SumOf(s.workers, Unposted), SumOf(s.workers, Unread);
      && 0 <= P + C < |s.arr| && P + C <= |s.written|
      && Step(s, t, item).tail == (|s.written| - P - C) % |s.arr|
      && (Step(s, t, item).tail == |s.written| % |s.arr| <==> P == 0 && C == 0)
  {
    var P, C := SumOf(s.workers, Unposted), SumOf(s.workers, Unread);
    FlagSums(s.workers);
    SumOfAtLeast(s.workers, EmptyHeld, t);
    ModAdd(|s.read|, s.full, |s.arr|);
    if P + C > 0 {
      ModDistinct(|s.written| - P - C, |s.written|, |s.arr|);
    }
  }

  lemma StepKeepsTokens(s: State, t: nat, item: string)
    requires Inv(s) && Enabled(s, t)
    ensures TokensOk(Step(s, t, item))
  {
    assert WorkerOk(s, t);
    var w' := Step(s, t, item).workers[t];
    SumOfUpdate(s.workers, t, w', Unposted);
    SumOfUpdate(s.workers, t, w', Unread);
    SumOfUpdate(s.workers, t, w', EmptyHeld);
  }

  lemma StepKeepsQueue(s: State, t: nat, item: string)
    requires Inv(s) && Enabled(s, t)
    ensures QueueOk(Step(s, t, item))
  {
    assert WorkerOk(s, t);
    FlagSums(s.workers);
    SumOfAtLeast(s.workers, EmptyHeld, t);
    if s.workers[t].pc.Inside? && !s.workers[t].putter {
      SumOfAtLeast(s.workers, Unread, t);
    }
    if s.workers[t].pc.Chosen? && s.clean {
      forall k | |s.read| <= k < |s.written| ensures k % |s.arr| != s.tail {
        ModDistinct(k, |s.written|, |s.arr|);
      }
    }
  }

  lemma StepKeepsPlaced(s: State, t: nat, item: string)
    requires Inv(s) && Enabled(s, t)
    ensures PlacedOk(Step(s, t, item))
  {
    hide TokensOk, QueueOk;
    var s', w := Step(s, t, item), s.workers[t];
    assert WorkerOk(s, t);
    forall u: nat | u < |s.workers| && u != t
      ensures s'.workers[u] == s.workers[u] && (InMutex(w.pc) ==> !InMutex(s.workers[u].pc))
    {
      assert WorkerOk(s, u);
    }
    if w.pc.Chosen? {
      WriteIsPlaced(s, s', t);
    } else if w.putter && w.pc.Inside? {
      assert !Misled(s);
      assert s'.workers[t].pc.Chosen?;
    } else if Misled(s) {
      var u :| 0 <= u < |s.workers| && s.workers[u].pc.Chosen? && s.workers[u].pc.lag > 0;
      assert s'.workers[u].pc.Chosen?;
    }
  }

  lemma WriteIsPlaced(s: State, s': State, t: nat)
    requires PlacedOk(s) && t < |s.workers| && s.workers[t].pc.Chosen? && WorkerOk(s, t)
    requires s'.placed == s.placed + [s.tail] && |s'.written| == |s.written| + 1
    requires s'.clean == s.clean && |s'.arr| == |s.arr|
    requires !Misled(s') && forall u :: 0 <= u < |s.workers| && u != t ==> !s.workers[u].pc.Chosen?
    ensures PlacedOk(s')
  {
    var lag := s.workers[t].pc.lag;
    assert forall k :: 0 <= k < |s'.placed| ==> s'.placed[k] == if k < |s.placed| then s.placed[k] else s.tail;
    if PlacedInOrder(s') {
      forall k | 0 <= k < |s.placed| ensures s.placed[k] == k % |s.arr| {
        assert s'.placed[k] == k % |s.arr|;
      }
    }
    if lag > 0 {
      assert Misled(s);
      ModDistinct(|s.written| - lag, |s.written|, |s.arr|);
      assert s'.placed[|s.placed|] != |s.placed| % |s.arr|;
    }
  }

  lemma StepKeepsWorker(s: State, t: nat, item: string, u: nat)
    requires Inv(s) && Enabled(s, t) && u < |s.workers|
    ensures WorkerOk(Step(s, t, item), u)
  {
    assert WorkerOk(s, t) && WorkerOk(s, u);
    if s.workers[t].putter && s.workers[t].pc.Inside? {
      WritePosition(s, t, item);
    }
  }

  lemma StepKeepsInv(s: State, t: nat, item: string)
    requires Inv(s) && Enabled(s, t)
    ensures Inv(Step(s, t, item))
  {
    assert WorkerOk(s, t);
    StepKeepsTokens(s, t, item);
    StepKeepsQueue(s, t, item);
    StepKeepsPlaced(s, t, item);
    ModAdd(|s.read|, 1, |s.arr|);
    forall u: nat | u < |s.workers| ensures WorkerOk(Step(s, t, item), u) {
      StepKeepsWorker(s, t, item, u);
    }
  }

  datatype Move = Move(t: nat, item: string)

  predicate RunFrom(s: State, moves: seq<Move>)
    requires Inv(s)
    decreases |moves|
  {
    if moves == [] then true
    else
      && Enabled(s, moves[0].t)
      && (StepKeepsInv(s, moves[0].t, moves[0].item);
          RunFrom(Step(s, moves[0].t, moves[0].item), moves[1..]))
  }

  function Run(s: State, moves: seq<Move>): (s': State)
    requires Inv(s) && RunFrom(s, moves)
    ensures Inv(s')
    decreases |moves|
  {
    if moves == [] then s
    else
      StepKeepsInv(s, moves[0].t, moves[0].item);
      Run(Step(s, moves[0].t, moves[0].item), moves[1..])
  }

  /** Every run in which each producer chose its slot with nothing in flight, in particular
      every run of operations that do not overlap, takes the items out in the order in
      which they went in and never overwrites an item not yet taken. */
  lemma CleanRunsAreFifo(size: nat, workers: seq<Worker>, moves: seq<Move>)
    requires Fresh(size, workers) && RunFrom(Init(size, workers), moves)
    ensures var s := Run(Init(size, workers), moves);
      s.clean ==>
        && |s.read| <= |s.written| <= |s.read| + |s.arr|
        && (forall r :: 0 <= r < |s.read| ==> s.read[r] == s.written[r])
        && (forall k :: |s.read| <= k < |s.written| ==> s.arr[k % |s.arr|] == s.written[k])
  {
    FlagSums(Run(Init(size, workers), moves).workers);
  }

  /** And only they put every item where a queue would: when no producer is between choosing
      and writing, all items so far went to slot k mod size if and only if every slot was
      chosen with nothing in flight. */
  lemma PlacedExactlyWhen(size: nat, workers: seq<Worker>, moves: seq<Move>)
    requires Fresh(size, workers) && RunFrom(Init(size, workers), moves)
    requires forall t :: 0 <= t < |Run(Init(size, workers), moves).workers| ==>
      !Run(Init(size, workers), moves).workers[t].pc.Chosen?
    ensures var s := Run(Init(size, workers), moves);
      |s.arr| > 0 && |s.placed| == |s.written| && (s.clean <==> PlacedInOrder(s))
  {
  }

  // ---- the exact condition for the ring to be a queue

  predicate Distinct(items: seq<string>) {
    forall i, k :: 0 <= i < k < |items| ==> items[i] != items[k]
  }

  /** Everything read came out in order, and everything unread is still in its place. */
  predicate IsQueue(s: State) {
    && |s.arr| > 0 && |s.read| <= |s.written|
    && (forall m :: 0 <= m < |s.read| ==> s.read[m] == s.written[m])
    && (forall m :: |s.read| <= m < |s.written| ==> s.arr[m % |s.arr|] == s.written[m])
  }

  /** The m-th item was not read in its turn, or is no longer where it would be. */
  predicate LostAt(s: State, m: int) {
    && |s.arr| > 0 && 0 <= m < |s.written|
    && if m < |s.read| then s.read[m] != s.written[m] else s.arr[m % |s.arr|] != s.written[m]
  }

  /** Once a producer has written to a slot chosen with something in flight, an item is lost. */
  ghost predicate LossOk(s: State) {
    Distinct(s.written) && !s.clean && !Misled(s) ==> exists m :: LostAt(s, m)
  }

  /** What is lost stays lost: a read in its turn takes the wrong item, and a write puts a
      new item where another should be. */
  lemma StepKeepsLost(s: State, t: nat, item: string, m: int)
    requires Inv(s) && Enabled(s, t) && LostAt(s, m) && Distinct(Step(s, t, item).written)
    ensures LostAt(Step(s, t, item), m)
  {
    hide TokensOk, QueueOk, PlacedOk;
    assert WorkerOk(s, t);
    LogsGrow(s, t, item);
    if s.workers[t].pc.Chosen? {
      WriteKeepsLost(s, Step(s, t, item), s.workers[t].item, m);
    }
  }

  lemma WriteKeepsLost(s: State, s': State, item: string, m: int)
    requires LostAt(s, m) && 0 <= s.tail < |s.arr| && s'.arr == s.arr[s.tail := item]
    requires s'.written == s.written + [item] && s'.read == s.read && Distinct(s'.written)
    ensures LostAt(s', m)
  {
    assert s'.written[m] == s.written[m] && s'.written[|s.written|] == item;
  }

  lemma LogsGrow(s: State, t: nat, item: string)
    requires Inv(s) && Enabled(s, t)
    ensures var s' := Step(s, t, item);
      && |s.written| <= |s'.written| && |s.read| <= |s'.read|
      && (forall k :: 0 <= k < |s.written| ==> s'.written[k] == s.written[k])
      && (forall k :: 0 <= k < |s.read| ==> s'.read[k] == s.read[k])
  {
    hide TokensOk, QueueOk, PlacedOk;
  }

  /** The write after a wrong choice overwrites, or shuts out, the item `lag` before it. */
  lemma MisledWriteLoses(s: State, t: nat, item: string)
    requires Inv(s) && Enabled(s, t) && s.workers[t].pc.Chosen? && s.workers[t].pc.lag > 0
    requires Distinct(Step(s, t, item).written)
    ensures LostAt(Step(s, t, item), |s.written| - s.workers[t].pc.lag)
  {
    hide TokensOk, QueueOk, PlacedOk;
    assert WorkerOk(s, t);
    var s', m := Step(s, t, item), |s.written| - s.workers[t].pc.lag;
    assert s'.arr[m % |s.arr|] == s.workers[t].item == s'.written[|s.written|];
  }

  lemma StepKeepsLoss(s: State, t: nat, item: string)
    requires Inv(s) && Enabled(s, t) && LossOk(s)
    ensures LossOk(Step(s, t, item))
  {
    hide TokensOk, QueueOk, PlacedOk;
    var s' := Step(s, t, item);
    assert WorkerOk(s, t);
    if Distinct(s'.written) && !s'.clean && !Misled(s') {
      LogsGrow(s, t, item);
      if !Misled(s) {
        if s.clean {
          ChoosingMisleads(s, t, item);
        } else {
          var m :| LostAt(s, m);
          StepKeepsLost(s, t, item, m);
        }
      } else {
        var u: nat :| u < |s.workers| && s.workers[u].pc.Chosen? && s.workers[u].pc.lag > 0;
        if u != t {
          OtherStaysMisled(s, t, item, u);
        } else {
          MisledWriteLoses(s, t, item);
        }
      }
    }
  }

  lemma OtherStaysMisled(s: State, t: nat, item: string, u: nat)
    requires Inv(s) && Enabled(s, t) && u < |s.workers| && u != t
    requires s.workers[u].pc.Chosen? && s.workers[u].pc.lag > 0
    ensures Misled(Step(s, t, item))
  {
    hide TokensOk, QueueOk, PlacedOk;
    assert Step(s, t, item).workers[u] == s.workers[u];
  }

  /** A run stops being clean only by a choice that leaves a producer misled. */
  lemma ChoosingMisleads(s: State, t: nat, item: string)
    requires Inv(s) && Enabled(s, t) && s.clean && !Step(s, t, item).clean
    ensures Misled(Step(s, t, item))
  {
    hide TokensOk, QueueOk, PlacedOk;
    assert Step(s, t, item).workers[t].pc.Chosen?;
  }

  lemma {:induction false} RunKeepsLoss(s: State, moves: seq<Move>)
    requires Inv(s) && RunFrom(s, moves) && LossOk(s)
    ensures LossOk(Run(s, moves))
    decreases |moves|
  {
    hide Inv, LossOk, Enabled, Step;
    if moves != [] {
      StepKeepsInv(s, moves[0].t, moves[0].item);
      StepKeepsLoss(s, moves[0].t, moves[0].item);
      RunKeepsLoss(Step(s, moves[0].t, moves[0].item), moves[1..]);
    }
  }

  /** The ring is a queue exactly as far as no producer chose its slot with something in
      flight. In every run whose items are told apart, and in which no misled producer is still
      to write: every slot so far was chosen with nothing in flight if and only if the items
      read came out in the order of writing and every unread one is still in its place. */
  lemma QueueExactlyWhen(size: nat, workers: seq<Worker>, moves: seq<Move>)
    requires Fresh(size, workers) && RunFrom(Init(size, workers), moves)
    requires Distinct(Run(Init(size, workers), moves).written) && !Misled(Run(Init(size, workers), moves))
    ensures var s := Run(Init(size, workers), moves);
      s.clean <==> IsQueue(s)
  {
    hide TokensOk;
    var s := Run(Init(size, workers), moves);
    if s.clean {
      CleanRunsAreFifo(size, workers, moves);
    } else {
      RunKeepsLoss(Init(size, workers), moves);
      var m :| LostAt(s, m);
    }
  }

  lemma {:induction false} RunOneMore(s: State, moves: seq<Move>, m: Move)
    requires Inv(s) && RunFrom(s, moves) && Enabled(Run(s, moves), m.t)
    ensures RunFrom(s, moves + [m])
    ensures Run(s, moves + [m]) == Step(Run(s, moves), m.t, m.item)
    decreases |moves|
  {
    if moves == [] {
      StepKeepsInv(s, m.t, m.item);
      assert ([] + [m])[1..] == [];
    } else {
      StepKeepsInv(s, moves[0].t, moves[0].item);
      assert (moves + [m])[1..] == moves[1..] + [m];
      RunOneMore(Step(s, moves[0].t, moves[0].item), moves[1..], m);
    }
  }

  lemma Play(s0: State, s: State, moves: seq<Move>, m: Move) returns (s': State, moves': seq<Move>)
    requires Inv(s0) && RunFrom(s0, moves) && s == Run(s0, moves) && Enabled(s, m.t)
    ensures moves' == moves + [m] && RunFrom(s0, moves')
    ensures s' == Run(s0, moves') == Step(s, m.t, m.item)
  {
    RunOneMore(s0, moves, m);
    s', moves' := Step(s, m.t, m.item), moves + [m];
  }

  /** A put up to the point where it still has to post `full`. */
  lemma PlayPut(s0: State, s: State, moves: seq<Move>, t: nat, item: string)
    returns (s': State, moves': seq<Move>)
    requires Inv(s0) && RunFrom(s0, moves) && s == Run(s0, moves)
    requires t < |s.workers| && s.workers[t].putter && s.workers[t].pc.Idle?
    requires s.empty > 0 && s.mutex.None?
    ensures RunFrom(s0, moves') && s' == Run(s0, moves')
    ensures s'.arr == s.arr[(s.head + s.full) % |s.arr| := item]
    ensures s'.written == s.written + [item] && s'.read == s.read
    ensures s'.head == s.head && s'.full == s.full && s'.empty == s.empty - 1 && s'.mutex.None?
    ensures s'.workers == s.workers[t := Worker(true, Moved, item)]
  {
    hide TokensOk, QueueOk, PlacedOk, WorkerOk;
    s', moves' := Play(s0, s, moves, Move(t, item));
    s', moves' := Play(s0, s', moves', Move(t, ""));
    s', moves' := Play(s0, s', moves', Move(t, ""));
    s', moves' := Play(s0, s', moves', Move(t, ""));
  }

  /** Two overlapping puts and one get: the second put chooses its slot before the first
      has posted, and the first item is gone although the ring had room. */
  lemma OverlappingPutsLoseAnItem(size: nat) returns (workers: seq<Worker>, moves: seq<Move>)
    requires size >= 2
    ensures Fresh(size, workers) && RunFrom(Init(size, workers), moves)
    ensures Run(Init(size, workers), moves).written == ["first", "second"]
    ensures Run(Init(size, workers), moves).read == ["second"]
  {
    hide TokensOk, QueueOk, PlacedOk, WorkerOk;
    workers := [Worker(true, Idle, ""), Worker(true, Idle, ""), Worker(false, Idle, "")];
    var s0 := Init(size, workers);
    var s;
    s, moves := PlayPut(s0, s0, [], 0, "first");
    s, moves := PlayPut(s0, s, moves, 1, "second");
    ModSmall(0, size);
    assert s.head == 0 && s.arr[0] == "second" && s.full == 0;
    s, moves := Play(s0, s, moves, Move(0, ""));
    s, moves := Play(s0, s, moves, Move(2, ""));
    s, moves := Play(s0, s, moves, Move(2, ""));
    s, moves := Play(s0, s, moves, Move(2, ""));
  }

  lemma RingFacts(s: State)
    requires Inv(s)
    ensures |s.arr| > 0 && s.head == |s.read| % |s.arr|
    ensures |s.read| <= |s.written| <= |s.read| + |s.arr|
    ensures s.clean ==> s.read == s.written[..|s.read|]
  {
    FlagSums(s.workers);
  }

  /** The five steps of an array_put that nobody interrupts. */
  lemma StagesOfPut(s: State, t: nat, item: string)
    requires Inv(s) && t < |s.workers| && s.workers[t].putter && s.workers[t].pc.Idle?
    requires s.empty > 0 && s.mutex.None?
    ensures var s1 := Step(s, t, item);
      && Inv(s1) && Enabled(s1, t) && |s1.workers| == |s.workers|
      && s1.workers[t] == Worker(true, Took, item) && s1.mutex.None?
      && var s2 := Step(s1, t, "");
         && Inv(s2) && Enabled(s2, t) && |s2.workers| == |s.workers| && s2.workers[t] == Worker(true, Inside, item)
         && var s3 := Step(s2, t, "");
            && Inv(s3) && Enabled(s3, t) && |s3.workers| == |s.workers|
            && s3.workers[t] == Worker(true, Chosen(InFlight(s)), item)
            && var s4 := Step(s3, t, "");
               && Inv(s4) && Enabled(s4, t) && |s4.workers| == |s.workers| && s4.workers[t] == Worker(true, Moved, item)
               && var s5 := Step(s4, t, "");
                  && s5.arr == s.arr[(s.head + s.full) % |s.arr| := item]
                  && s5.head == s.head && s5.full == s.full + 1 && s5.empty == s.empty - 1 && s5.mutex.None?
                  && s5.written == s.written + [item] && s5.read == s.read
                  && s5.clean == (s.clean && InFlight(s) == 0)
  {
    hide TokensOk, QueueOk, PlacedOk, WorkerOk;
    var s1 := Step(s, t, item);
    StepKeepsInv(s, t, item);
    var s2 := Step(s1, t, "");
    StepKeepsInv(s1, t, "");
    var s3 := Step(s2, t, "");
    StepKeepsInv(s2, t, "");
    TakingKeepsFlight(s.workers, t, item);
    assert s2.workers == s.workers[t := Worker(true, Inside, item)];
    var s4 := Step(s3, t, "");
    StepKeepsInv(s3, t, "");
  }

  // ---- the shared array itself, updated in place

  /** Where each thread stands, and the logs, are known to the proof only. */
  class Shared {
    const arr: array<string>
    var head: nat
    var tail: nat
    ghost var mutex: Option<nat>
    var full: int
    var empty: int
    ghost var workers: seq<Worker>
    ghost var written: seq<string>
    ghost var read: seq<string>
    ghost var placed: seq<int>
    ghost var clean: bool

    ghost function Abs(): State
      reads this, arr
    {
      State(arr[..], head, tail, mutex, full, empty, workers, written, read, placed, clean)
    }

    ghost predicate Valid()
      reads this, arr
    {
      Inv(Abs())
    }

    ghost predicate At(t: nat, putter: bool, pc: Pc)
      reads this
    {
      t < |workers| && workers[t].putter == putter && workers[t].pc == pc
    }

    ghost method Moves(t: nat, pc: Pc)
      requires t < |workers|
      modifies this`workers
      ensures workers == old(workers)[t := old(workers[t]).(pc := pc)]
    {
      workers := workers[t := workers[t].(pc := pc)];
    }

    /** array_init: all slots are zeroed, all of them empty. */
    constructor (size: nat, threads: seq<Worker>)
      requires Fresh(size, threads)
      ensures fresh(arr) && Valid() && Abs() == Init(size, threads)
    {
      arr := new string[size](i => "");
      head, tail, full, empty, mutex := 0, 0, 0, size, None;
      workers, written, read, placed, clean := threads, [], [], [], true;
      new;
      assert Abs() == Init(size, threads);
    }

    method WaitEmpty(t: nat, item: string)
      requires Valid() && At(t, true, Idle) && empty > 0
      modifies this`empty, this`workers
      ensures Valid() && Abs() == Step(old(Abs()), t, item)
    {
      hide Inv;
      RingFacts(Abs());
      StepKeepsInv(Abs(), t, item);
      empty := empty - 1;
      workers := workers[t := Worker(true, Took, item)];
    }

    method WaitFull(t: nat)
      requires Valid() && At(t, false, Idle) && full > 0
      modifies this`full, this`workers
      ensures Valid() && Abs() == Step(old(Abs()), t, "")
    {
      hide Inv;
      RingFacts(Abs());
      StepKeepsInv(Abs(), t, "");
      full := full - 1;
      Moves(t, Took);
    }

    method Lock(t: nat)
      requires Valid() && t < |workers| && workers[t].pc.Took? && mutex.None?
      modifies this`mutex, this`workers
      ensures Valid() && Abs() == Step(old(Abs()), t, "")
    {
      hide Inv;
      RingFacts(Abs());
      StepKeepsInv(Abs(), t, "");
      mutex := Some(t);
      Moves(t, Inside);
    }

    /** The slot is derived from `head` and the value of `full` at this moment. */
    method ChooseSlot(t: nat)
      requires Valid() && At(t, true, Inside)
      modifies this`tail, this`clean, this`workers
      ensures Valid() && Abs() == Step(old(Abs()), t, "")
    {
      hide Inv;
      RingFacts(Abs());
      StepKeepsInv(Abs(), t, "");
      ghost var lag := InFlight(Abs());
      tail := (head + full) % arr.Length;
      clean := clean && lag == 0;
      Moves(t, Chosen(lag));
    }

    method Write(t: nat, item: string)
      requires Valid() && t < |workers| && workers[t].pc.Chosen? && workers[t].item == item
      modifies this`mutex, this`written, this`placed, this`workers, arr
      ensures Valid() && Abs() == Step(old(Abs()), t, "")
    {
      StepKeepsInv(Abs(), t, "");
      assert WorkerOk(Abs(), t);
      ghost var after := Step(Abs(), t, "");
      arr[tail] := item;
      written := written + [item];
      placed := placed + [tail];
      mutex := None;
      Moves(t, Moved);
      assert Abs() == after;
    }

    method Take(t: nat) returns (item: string)
      requires Valid() && At(t, false, Inside)
      modifies this`head, this`mutex, this`read, this`workers
      ensures Valid() && Abs() == Step(old(Abs()), t, "")
      ensures item == old(arr[head])
    {
      hide Inv;
      RingFacts(Abs());
      StepKeepsInv(Abs(), t, "");
      item := arr[head];
      head := (head + 1) % arr.Length;
      read := read + [item];
      mutex := None;
      Moves(t, Moved);
    }

    method PostFull(t: nat)
      requires Valid() && At(t, true, Moved)
      modifies this`full, this`workers
      ensures Valid() && Abs() == Step(old(Abs()), t, "")
    {
      hide Inv;
      RingFacts(Abs());
      StepKeepsInv(Abs(), t, "");
      full := full + 1;
      Moves(t, Idle);
    }

    method PostEmpty(t: nat)
      requires Valid() && At(t, false, Moved)
      modifies this`empty, this`workers
      ensures Valid() && Abs() == Step(old(Abs()), t, "")
    {
      hide Inv;
      RingFacts(Abs());
      StepKeepsInv(Abs(), t, "");
      empty := empty + 1;
      Moves(t, Idle);
    }

    /** The items written and not yet read, in the order of writing. */
    ghost function Contents(): seq<string>
      reads this, arr
      requires Valid()
    {
      RingFacts(Abs());
      written[|read|..]
    }

    /** A whole array_put that nobody interrupts. With nothing in flight it is a queue's put. */
    method Put(t: nat, item: string)
      requires Valid() && At(t, true, Idle) && empty > 0 && mutex.None?
      modifies this, arr
      ensures Valid() && Contents() == old(Contents()) + [item]
      ensures clean == (old(clean) && InFlight(old(Abs())) == 0)
      ensures arr[..] == old(arr[..])[(old(head) + old(full)) % arr.Length := item]
      ensures head == old(head) && full == old(full) + 1 && empty == old(empty) - 1 && mutex.None?
    {
      hide Inv, Step, InFlight;
      RingFacts(Abs());
      StagesOfPut(Abs(), t, item);
      WaitEmpty(t, item);
      Lock(t);
      ChooseSlot(t);
      Write(t, item);
      PostFull(t);
    }

    /** A whole array_get that nobody interrupts. As long as the ring is clean it takes the
        oldest item. */
    method Get(t: nat) returns (item: string)
      requires Valid() && At(t, false, Idle) && full > 0 && mutex.None?
      modifies this
      ensures Valid() && item == old(arr[head])
      ensures clean == old(clean) && (clean ==> old(Contents()) == [item] + Contents())
      ensures full == old(full) - 1 && empty == old(empty) + 1 && mutex.None?
    {
      hide Inv, InFlight;
      RingFacts(Abs());
      WaitFull(t);
      Lock(t);
      item := Take(t);
      PostEmpty(t);
      RingFacts(Abs());
    }
  }

  /** A put that has not yet chosen its slot is not in flight. */
  lemma TakingKeepsFlight(workers: seq<Worker>, t: nat, item: string)
    requires t < |workers| && workers[t].putter && workers[t].pc.Idle?
    ensures var ws := workers[t := Worker(true, Inside, item)];
      SumOf(ws, Unposted) == SumOf(workers, Unposted) && SumOf(ws, Unread) == SumOf(workers, Unread)
  {
    SumOfUpdate(workers, t, Worker(true, Inside, item), Unposted);
    SumOfUpdate(workers, t, Worker(true, Inside, item), Unread);
  }
}
