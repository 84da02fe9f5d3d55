/** The runs of the main loop with the predictive pager, as far as requests go. */
module PagerRuns {
  // The joint state machine of module Shadow takes any requests; here the requests of each
  // round are those of a call of the pager that was shown the state after the tick.

  import opened Paging
  import opened PredictPager
  import opened References
  import opened Reserve
  import opened RoundEffects
  import opened Shadow
  import opened Transitions

  /** The simulator has ticked, the tracker is as the last call left it. */
  function Ticked(p: Params, x: Joint): (r: Joint)
    requires JointOk(p, x)
    ensures JointOk(p, r)
  {
    Joint(Tick(p, x.s), x.w)
  }

  /** The pager's sizes and its decay. */
  datatype Knobs = Knobs(freebuf: nat, window: nat, interval: nat, decay: int -> int)

  /** What the pager remembers before and after a call, and how the call went. */
  datatype Records = Records(before: Memory, after: Memory, call: Call)

  /** A call of the pager in state x makes the requests `ops`. */
  ghost predicate CallMade(p: Params, knobs: Knobs, x: Joint, x': Joint, ops: seq<Op>, tick: int, c: Records)
    requires JointOk(p, x)
  {
    && knobs.interval >= 1
    && CallOk(p, knobs.freebuf, knobs.window, View(p, x.s), x, x', ops, tick, c.before.trace, c.after.trace, c.call)
    && SetsOk(p, knobs.window, View(p, x.s), c.after.table.trans, tick, c.before.trace, c.call,
              c.before.sets, c.after.sets)
    && TablesMoved(p, View(p, x.s), c.before.table, c.after.table, c.before.paths, c.after.paths,
                   tick % knobs.interval == 0, knobs.decay)
  }

  /** In the round that starts at x the pager may make the requests `ops`. */
  ghost predicate RoundMade(p: Params, knobs: Knobs, x: Joint, ops: seq<Op>, tick: int, c: Records)
    requires JointOk(p, x)
  {
    CallMade(p, knobs, Ticked(p, x), JointRound(p, x, ops, tick), ops, tick, c)
  }

  /** What the pager remembers after these calls, the first of them its very first. */
  function Remembers(p: Params, recs: seq<Records>): Memory {
    if recs == [] then FirstMemory(p) else recs[|recs| - 1].after
  }

  ghost predicate PagerRun(p: Params, knobs: Knobs, x0: Joint, opss: seq<seq<Op>>, recs: seq<Records>)
    requires JointOk(p, x0)
    decreases |opss|
  {
    && |recs| == |opss|
    && (opss == [] ||
        (var n := |opss| - 1;
         && PagerRun(p, knobs, x0, opss[..n], recs[..n])
         && recs[n].before == Remembers(p, recs[..n])
         && RoundMade(p, knobs, JointRun(p, x0, opss[..n]), opss[n], n + 1, recs[n])))
  }

  lemma EmptyRun(p: Params, knobs: Knobs, x0: Joint)
    requires JointOk(p, x0)
    ensures PagerRun(p, knobs, x0, [], []) && JointRun(p, x0, []) == x0
  {
  }

  /** The part of what is said of a call that the run is made of. */
  lemma CallBegins(p: Params, freebuf: nat, window: nat, q: seq<Entry>, x: Joint, x': Joint, ops: seq<Op>, tick: int,
                   trace: Refs, trace': Refs, c: Call) returns (start: Joint)
    requires CallOk(p, freebuf, window, q, x, x', ops, tick, trace, trace', c)
    ensures JointOk(p, x) && start == Joint(x.s, Expire(p, x.w, tick)) && JointOk(p, start)
    ensures Restored(p, freebuf, q, start, c.evictions, tick, trace) && x' == TrackedAll(p, start, ops, tick)
    ensures LegalAll(p, start, ops, tick) && JointOk(p, x') && Agrees(p, x', tick)
  {
    hide Inv, LegalAll, TrackedAll, Agrees, Restored, CurrentPhase, Expire;
    start := Joint(x.s, Expire(p, x.w, tick));
  }

  lemma CallIsRound(p: Params, knobs: Knobs, x: Joint, x': Joint, ops: seq<Op>, tick: int, c: Records)
    requires JointOk(p, x) && CallMade(p, knobs, Ticked(p, x), x', ops, tick, c)
    ensures x' == JointRound(p, x, ops, tick) && LegalAll(p, Noted(p, x, tick), ops, tick)
    ensures Agrees(p, x', tick) && RoundMade(p, knobs, x, ops, tick, c)
  {
    hide SlotsOk, JobsOk, FramesOk, LegalAll, TrackedAll, Agrees, CallOk, SetsOk, TablesMoved, Tick, Expire, View;
    var start := CallBegins(p, knobs.freebuf, knobs.window, View(p, Ticked(p, x).s), Ticked(p, x), x', ops, tick,
                            c.before.trace, c.after.trace, c.call);
    assert start == Noted(p, x, tick);
  }

  lemma OneMoreRound(p: Params, knobs: Knobs, x0: Joint, opss: seq<seq<Op>>, recs: seq<Records>, ops: seq<Op>,
                     c: Records)
    requires JointOk(p, x0) && PagerRun(p, knobs, x0, opss, recs) && c.before == Remembers(p, recs)
    requires RoundMade(p, knobs, JointRun(p, x0, opss), ops, |opss| + 1, c)
    ensures PagerRun(p, knobs, x0, opss + [ops], recs + [c])
    ensures JointRun(p, x0, opss + [ops]) == JointRound(p, JointRun(p, x0, opss), ops, |opss| + 1)
  {
    hide JointOk, Inv, RoundMade, JointRound, Remembers;
    var next, recs' := opss + [ops], recs + [c];
    assert next[..|next| - 1] == opss && next[|next| - 1] == ops;
    assert recs'[..|next| - 1] == recs && recs'[|next| - 1] == c;
  }

  lemma {:induction false} PagerRunIsLegal(p: Params, knobs: Knobs, x0: Joint, opss: seq<seq<Op>>, recs: seq<Records>)
    requires JointOk(p, x0) && PagerRun(p, knobs, x0, opss, recs)
    ensures LegalRun(p, x0, opss)
    decreases |opss|
  {
    hide JointOk, Inv, LegalAll, JointRound, CallMade;
    if opss != [] {
      var n := |opss| - 1;
      PagerRunIsLegal(p, knobs, x0, opss[..n], recs[..n]);
      var x := JointRun(p, x0, opss[..n]);
      CallIsRound(p, knobs, x, JointRound(p, x, opss[n], n + 1), opss[n], n + 1, recs[n]);
    }
  }

  // ---- which requests of a call are page-ins

  predicate OnlyIns(ops: seq<Op>) {
    forall k :: 0 <= k < |ops| ==> ops[k].In?
  }

  lemma {:induction false} RowIsIns(shown: seq<bool>, trace: Refs, window: nat, i: nat, n: nat)
    requires n <= |shown|
    ensures OnlyIns(RowRequests(shown, trace, window, i, n))
  {
    if n > 0 {
      RowIsIns(shown, trace, window, i, n - 1);
    }
  }

  lemma {:induction false} WindowIsIns(p: Params, q: seq<Entry>, trace: Refs, window: nat, k: nat)
    requires ViewShape(p, q) && k <= p.slots
    ensures OnlyIns(WindowRequests(p, q, trace, window, k))
  {
    if k > 0 {
      WindowIsIns(p, q, trace, window, k - 1);
      RowIsIns(q[k - 1].pages, trace, window, k - 1, p.npages);
    }
  }

  /** The requests for current pages bring pages in, among them all that are needed. */
  lemma {:induction false} CurrentIsIns(p: Params, q: seq<Entry>, n: nat)
    requires ParamsOk(p) && PcsFit(p, q) && ViewShape(p, q) && n <= p.slots
    ensures OnlyIns(CurrentRequests(p, q, n))
    ensures forall i: nat :: i < n && NeedsPage(p, q, i) ==> In(i, PageOf(p, q[i].pc)) in CurrentRequests(p, q, n)
  {
    hide PcsFit, PageOf;
    if n > 0 {
      CurrentIsIns(p, q, n - 1);
    }
  }

  lemma {:induction false} RangeIsIns(i: nat, a: int, b: int)
    ensures OnlyIns(RangeRequests(i, a, b))
    decreases b - a
  {
    if b > a {
      RangeIsIns(i, a, b - 1);
    }
  }

  lemma PredictionIsIns(m: Matrix, n: nat, i: nat, cur: nat, reqs: seq<Op>, before: ProcType, after: ProcType)
    requires MatrixOk(m, n) && cur < n && Predicts(m, n, i, cur, reqs, before, after)
    ensures OnlyIns(reqs)
  {
    hide MostFrequent, RangeRequests;
    forall next: nat ensures OnlyIns(RangeRequests(i, next, cur)) {
      RangeIsIns(i, next, cur);
    }
  }

  lemma {:induction false} FlatIsIns(reqs: seq<seq<Op>>)
    requires forall i :: 0 <= i < |reqs| ==> OnlyIns(reqs[i])
    ensures OnlyIns(Flat(reqs))
  {
    if reqs != [] {
      FlatIsIns(reqs[..|reqs| - 1]);
    }
  }

  lemma PredictionsAreIns(p: Params, window: nat, q: seq<Entry>, trans: seq<Matrix>, tick: int, trace: Refs, c: Call,
                          sets: seq<WorkSet>, sets': seq<WorkSet>)
    requires SetsOk(p, window, q, trans, tick, trace, c, sets, sets')
    ensures OnlyIns(Flat(c.predicted))
  {
    hide Predicts, MatrixOk, WindowPages, PageOf, OnlyIns;
    forall i: nat | i < |c.predicted| ensures OnlyIns(c.predicted[i]) {
      if q[i].active {
        PredictionIsIns(trans[i], p.npages, i, PageOf(p, q[i].pc), c.predicted[i], sets[i].procType, sets'[i].procType);
      } else {
        NothingIsIns(c.predicted[i]);
      }
    }
    FlatIsIns(c.predicted);
  }

  lemma NothingIsIns(ops: seq<Op>)
    requires ops == []
    ensures OnlyIns(ops)
  {
  }

  lemma PhaseIsIns(p: Params, window: nat, q: seq<Entry>, tick: int, trace: Refs)
    requires ViewShape(p, q) && window >= 1
    ensures OnlyIns(WindowPhase(p, window, q, tick, trace))
  {
    WindowIsIns(p, q, trace, window, p.slots);
  }

  lemma EvictionsFirst(p: Params, freebuf: nat, window: nat, q: seq<Entry>, x: Joint, x': Joint, ops: seq<Op>,
                       tick: int, trace: Refs, trace': Refs, c: Call)
    returns (rest: seq<Op>)
    requires CallOk(p, freebuf, window, q, x, x', ops, tick, trace, trace', c)
    ensures ops == c.evictions + rest
  {
    hide JointOk, Inv, LegalAll, TrackedAll, Agrees, Restored, Served, LocalEviction, WindowPhase, CurrentRequests,
         Flat;
    rest := ops[|c.evictions|..];
  }
}
