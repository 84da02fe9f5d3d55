/** The predictive pager's shadow of the simulator's page states. */
module Shadow {
  // For every slot and page it tracks the operation it believes to be under way and the tick
  // at which it will be over. The tracker is re-armed whenever pagein reports success, also
  // for a page that is already resident or coming, and it is not told when a process exits or
  // a slot is reused.

  import opened Paging
  import opened RoundEffects

  /** page_start, page_end, waiting and pagein of one page; -1 where the source has -1. */
  datatype Track = Track(start: int, end: int, waiting: bool, pagein: int)

  type Tracker = seq<seq<Track>>

  const IDLE := Track(-1, -1, false, -1)

  predicate TrackerShape(p: Params, w: Tracker) {
    |w| == p.slots && forall i :: 0 <= i < |w| ==> |w[i]| == p.npages
  }

  function Armed(p: Params, tick: int, pagein: int): Track {
    Track(tick, tick + p.wait, true, pagein)
  }

  /** set_pending_page_op. */
  function Arm(p: Params, w: Tracker, i: nat, g: nat, tick: int, pagein: int): (w': Tracker)
    requires TrackerShape(p, w) && i < p.slots && g < p.npages
    ensures TrackerShape(p, w')
  {
    w[i := w[i][g := Armed(p, tick, pagein)]]
  }

  function ExpireOne(e: Track, tick: int): Track {
    if e.end > 0 && e.end <= tick then IDLE else e
  }

  /** Operations that are over by now are forgotten. */
  function Expire(p: Params, w: Tracker, tick: int): (w': Tracker)
    requires TrackerShape(p, w)
    ensures TrackerShape(p, w')
    ensures forall i, g :: 0 <= i < p.slots && 0 <= g < p.npages ==> w'[i][g] == ExpireOne(w[i][g], tick)
  {
    seq(p.slots, i requires 0 <= i < p.slots =>
      seq(p.npages, g requires 0 <= g < p.npages => ExpireOne(w[i][g], tick)))
  }

  /** The simulator together with the tracker. */
  datatype Joint = Joint(s: State, w: Tracker)

  predicate JointOk(p: Params, x: Joint) {
    ParamsOk(p) && Inv(p, x.s) && TrackerShape(p, x.w)
  }

  /** A request, and what the pager notes down about it. */
  function Tracked(p: Params, x: Joint, op: Op, tick: int): (r: Joint)
    requires JointOk(p, x)
    ensures JointOk(p, r) && r.s == Apply(p, x.s, op)
  {
    match op
    case In(i, g) =>
      var (s, ok) := PageIn(p, x.s, i, g);
      Joint(s, if ok then Arm(p, x.w, i, g, tick, 1) else x.w)
    case Out(i, g) =>
      var (s, ok) := PageOut(p, x.s, i, g);
      Joint(s, if ok then Arm(p, x.w, i, g, tick, 0) else x.w)
  }

  /** The pager evicts only pages that are resident and that it is not waiting for. */
  predicate Legal(p: Params, x: Joint, op: Op)
    requires JointOk(p, x)
  {
    op.Out? ==>
      && Runs(p, x.s, op.slot) && 0 <= op.page < p.npages
      && x.s.queue[x.s.slots[op.slot].value].pages[op.page] == 0
      && !x.w[op.slot][op.page].waiting
  }

  function TrackedAll(p: Params, x: Joint, ops: seq<Op>, tick: int): (r: Joint)
    requires JointOk(p, x)
    ensures JointOk(p, r) && r.s == ApplyAll(p, x.s, ops)
  {
    if ops == [] then x else Tracked(p, TrackedAll(p, x, ops[..|ops| - 1], tick), ops[|ops| - 1], tick)
  }

  predicate LegalAll(p: Params, x: Joint, ops: seq<Op>, tick: int)
    requires JointOk(p, x)
  {
    ops == [] ||
    (LegalAll(p, x, ops[..|ops| - 1], tick)
     && Legal(p, TrackedAll(p, x, ops[..|ops| - 1], tick), ops[|ops| - 1]))
  }

  // ---- agreement

  /** What the tracker must say of a page in state v: a page coming in is awaited at least as
      long as it needs, a page going out exactly until it is out. */
  predicate EntryAgrees(p: Params, v: int, e: Track, tick: int) {
    && (v > 0 ==> e.waiting && e.pagein == 1 && e.end >= tick + v)
    && (-p.wait <= v < 0 ==> e.waiting && e.pagein == 0 && e.end == tick + (p.wait + 1 + v))
  }

  predicate SlotAgrees(p: Params, s: State, w: Tracker, tick: int, i: nat)
    requires Shape(p, s) && TrackerShape(p, w) && i < p.slots
  {
    s.slots[i].Some? ==>
      forall g :: 0 <= g < p.npages ==>
        EntryAgrees(p, s.queue[s.slots[i].value].pages[g], w[i][g], tick)
  }

  predicate Agrees(p: Params, x: Joint, tick: int)
    requires JointOk(p, x)
  {
    forall i: nat :: i < p.slots ==> SlotAgrees(p, x.s, x.w, tick, i)
  }

  lemma TickKeepsAgreement(p: Params, x: Joint, tick: int)
    requires JointOk(p, x) && Agrees(p, x, tick)
    ensures Agrees(p, Joint(Tick(p, x.s), x.w), tick + 1)
  {
    hide JobsOk, FramesOk, Tick;
    var r, next := Tick(p, x.s), tick + 1;
    forall i: nat | i < p.slots ensures SlotAgrees(p, r, x.w, next, i) {
      if i < p.procs {
        TickAt(p, x.s, i);
        assert SlotAgrees(p, x.s, x.w, tick, i);
      }
    }
  }

  lemma ExpireKeepsAgreement(p: Params, x: Joint, tick: int)
    requires JointOk(p, x) && Agrees(p, x, tick)
    ensures Agrees(p, Joint(x.s, Expire(p, x.w, tick)), tick)
  {
    hide JobsOk, FramesOk, SlotsOk;
    forall i: nat | i < p.slots ensures SlotAgrees(p, x.s, Expire(p, x.w, tick), tick, i) {
      assert SlotAgrees(p, x.s, x.w, tick, i);
    }
  }

  /** What a request does to the other slots' jobs: nothing. */
  lemma RequestIsLocal(p: Params, x: Joint, op: Op, tick: int, i: nat)
    requires JointOk(p, x) && i < p.slots && i != op.slot
    ensures var r := Tracked(p, x, op, tick);
      && r.s.slots[i] == x.s.slots[i] && r.w[i] == x.w[i]
      && (x.s.slots[i].Some? ==> r.s.queue[x.s.slots[i].value] == x.s.queue[x.s.slots[i].value])
  {
    hide JobsOk, FramesOk;
  }

  lemma RequestKeepsSlot(p: Params, x: Joint, op: Op, tick: int)
    requires JointOk(p, x) && Legal(p, x, op) && 0 <= op.slot < p.slots
    requires SlotAgrees(p, x.s, x.w, tick, op.slot)
    ensures SlotAgrees(p, Tracked(p, x, op, tick).s, Tracked(p, x, op, tick).w, tick, op.slot)
  {
    hide JobsOk, FramesOk;
  }

  lemma RequestKeepsAgreement(p: Params, x: Joint, op: Op, tick: int)
    requires JointOk(p, x) && Agrees(p, x, tick) && Legal(p, x, op)
    ensures Agrees(p, Tracked(p, x, op, tick), tick)
  {
    hide JobsOk, FramesOk, SlotsOk, Tracked, Legal;
    var r := Tracked(p, x, op, tick);
    forall i: nat | i < p.slots ensures SlotAgrees(p, r.s, r.w, tick, i) {
      assert SlotAgrees(p, x.s, x.w, tick, i);
      if i == op.slot {
        RequestKeepsSlot(p, x, op, tick);
      } else {
        RequestIsLocal(p, x, op, tick, i);
      }
    }
  }

  lemma {:induction false} RequestsKeepAgreement(p: Params, x: Joint, ops: seq<Op>, tick: int)
    requires JointOk(p, x) && Agrees(p, x, tick) && LegalAll(p, x, ops, tick)
    ensures Agrees(p, TrackedAll(p, x, ops, tick), tick)
  {
    hide Inv, Agrees, Tracked, Legal;
    if ops != [] {
      RequestsKeepAgreement(p, x, ops[..|ops| - 1], tick);
      RequestKeepsAgreement(p, TrackedAll(p, x, ops[..|ops| - 1], tick), ops[|ops| - 1], tick);
    }
  }

  /** A round of the main loop with the predictive pager's bookkeeping: the simulator ticks,
      finished operations are forgotten, then come the requests. */
  function JointRound(p: Params, x: Joint, ops: seq<Op>, tick: int): (r: Joint)
    requires JointOk(p, x)
    ensures JointOk(p, r) && r.s == Round(p, x.s, ops)
  {
    TrackedAll(p, Noted(p, x, tick), ops, tick)
  }

  function Noted(p: Params, x: Joint, tick: int): (r: Joint)
    requires JointOk(p, x)
    ensures JointOk(p, r)
  {
    Joint(Tick(p, x.s), Expire(p, x.w, tick))
  }

  /** The n-th pager call is at tick n, from 1. */
  function JointRun(p: Params, x: Joint, opss: seq<seq<Op>>): (r: Joint)
    requires JointOk(p, x)
    ensures JointOk(p, r) && r.s == Run(p, x.s, opss)
  {
    if opss == [] then x
    else JointRound(p, JointRun(p, x, opss[..|opss| - 1]), opss[|opss| - 1], |opss|)
  }

  predicate LegalRun(p: Params, x: Joint, opss: seq<seq<Op>>)
    requires JointOk(p, x)
  {
    opss == [] ||
    (LegalRun(p, x, opss[..|opss| - 1])
     && LegalAll(p, Noted(p, JointRun(p, x, opss[..|opss| - 1]), |opss|), opss[|opss| - 1], |opss|))
  }

  lemma RoundKeepsAgreement(p: Params, x: Joint, ops: seq<Op>, tick: int)
    requires JointOk(p, x) && Agrees(p, x, tick - 1) && LegalAll(p, Noted(p, x, tick), ops, tick)
    ensures Agrees(p, JointRound(p, x, ops, tick), tick)
  {
    hide Inv, Agrees, Tracked, Legal, Tick, Expire;
    TickKeepsAgreement(p, x, tick - 1);
    ExpireKeepsAgreement(p, Joint(Tick(p, x.s), x.w), tick);
    RequestsKeepAgreement(p, Noted(p, x, tick), ops, tick);
  }

  function InitTracker(p: Params): (w: Tracker)
    ensures TrackerShape(p, w)
  {
    seq(p.slots, i => seq(p.npages, g => IDLE))
  }

  lemma {:induction false} RunKeepsAgreement(p: Params, x: Joint, opss: seq<seq<Op>>)
    requires JointOk(p, x) && Agrees(p, x, 0) && LegalRun(p, x, opss)
    ensures Agrees(p, JointRun(p, x, opss), |opss|)
  {
    hide Inv, Agrees, JointRound, LegalAll;
    if opss != [] {
      RunKeepsAgreement(p, x, opss[..|opss| - 1]);
      RoundKeepsAgreement(p, JointRun(p, x, opss[..|opss| - 1]), opss[|opss| - 1], |opss|);
    }
  }

  /** The start of a run: all pages are out, nothing is awaited. */
  function JointInit(p: Params, jobs: seq<Process>): (x: Joint)
    requires ParamsOk(p) && forall j :: 0 <= j < |jobs| ==> FreshJob(p, jobs[j])
    ensures JointOk(p, x) && Agrees(p, x, 0)
  {
    InitOk(p, jobs);
    Joint(Init(p, jobs), InitTracker(p))
  }

  /** The shadow agrees with the simulator after every pager call of every run, through
      re-arming, process exit and slot reuse: a page that needs v more ticks to come in is
      awaited for at least v, and a page going out until exactly the tick it is out. */
  lemma ShadowAgrees(p: Params, jobs: seq<Process>, opss: seq<seq<Op>>, i: nat, g: nat)
    requires ParamsOk(p) && forall j :: 0 <= j < |jobs| ==> FreshJob(p, jobs[j])
    requires LegalRun(p, JointInit(p, jobs), opss)
    requires i < p.slots && g < p.npages && JointRun(p, JointInit(p, jobs), opss).s.slots[i].Some?
    ensures var x, tick := JointRun(p, JointInit(p, jobs), opss), |opss|;
      var v, e := x.s.queue[x.s.slots[i].value].pages[g], x.w[i][g];
      && (v > 0 ==> e.waiting && e.pagein == 1 && e.end >= tick + v)
      && (-p.wait <= v < 0 ==> e.waiting && e.pagein == 0 && e.end == tick + (p.wait + 1 + v))
  {
    hide LegalRun, JointRun, JointInit, JobsOk, SlotsOk, FramesOk;
    RunKeepsAgreement(p, JointInit(p, jobs), opss);
    var x := JointRun(p, JointInit(p, jobs), opss);
    assert SlotAgrees(p, x.s, x.w, |opss|, i);
  }
}
