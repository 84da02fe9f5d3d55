/** The predictive pager's free-frame reserve: what its count of pages in memory says about
    the simulator's frame pool, and what evictions do to it. */
module Reserve {
  import opened Paging
  import opened RoundEffects
  import opened Shadow
  import opened Sums

  // ---- frames that stay, and frames on their way out

  function Stays(v: int): int { if v >= 0 then 1 else 0 }
  function Leaves(wait: int): int -> int { v => if -wait <= v < 0 then 1 else 0 }

  function StayingBy(q: Process): int { SumOf(q.pages, Stays) }
  function LeavingBy(wait: int): Process -> int { (q: Process) => SumOf(q.pages, Leaves(wait)) }

  /** Frames that the pages on their way out will give back. */
  function Leaving(p: Params, s: State): int { SumOf(s.queue, LeavingBy(p.wait)) }

  lemma {:induction false} HeldSplits(wait: int, pages: seq<int>)
    requires wait >= 0
    ensures Held(wait, pages) == SumOf(pages, Stays) + SumOf(pages, Leaves(wait))
  {
    if pages != [] {
      HeldSplits(wait, pages[1..]);
    }
  }

  lemma {:induction false} UsedSplits(p: Params, queue: seq<Process>)
    requires p.wait >= 0
    ensures Used(p, queue) == SumOf(queue, StayingBy) + SumOf(queue, LeavingBy(p.wait))
  {
    if queue != [] {
      HeldSplits(p.wait, queue[0].pages);
      UsedSplits(p, queue[1..]);
    }
  }

  // ---- summing over slots instead of jobs

  /** The sum of f over the jobs in the first k slots. */
  function SlotTotal(s: State, f: Process -> int, k: nat): int
    requires k <= |s.slots|
    requires forall i :: 0 <= i < |s.slots| && s.slots[i].Some? ==> s.slots[i].value < |s.queue|
  {
    if k == 0 then 0
    else
      SlotTotal(s, f, k - 1) + if s.slots[k - 1].Some? then f(s.queue[s.slots[k - 1].value]) else 0
  }

  /** f of the jobs in the first k slots, zero for the others. */
  function Masked(s: State, f: Process -> int, k: nat): seq<int>
    requires k <= |s.slots|
  {
    seq(|s.queue|, j requires 0 <= j < |s.queue| => if InFirst(s, k, j) then f(s.queue[j]) else 0)
  }

  lemma NothingMasked(s: State, f: Process -> int)
    ensures SumOf(Masked(s, f, 0), Same) == 0
  {
    SumOfConst(Masked(s, f, 0), Same, 0);
  }

  lemma MaskedNext(p: Params, s: State, f: Process -> int, k: nat)
    requires Shape(p, s) && SlotsOk(p, s) && 0 < k <= |s.slots|
    ensures |Masked(s, f, k - 1)| == |s.queue|
    ensures match s.slots[k - 1]
            case None => Masked(s, f, k) == Masked(s, f, k - 1)
            case Some(j) => Masked(s, f, k - 1)[j] == 0 && Masked(s, f, k) == Masked(s, f, k - 1)[j := f(s.queue[j])]
  {
    var m, m' := Masked(s, f, k), Masked(s, f, k - 1);
    forall j: nat | j < |s.queue| && s.slots[k - 1] != Some(j) ensures m[j] == m'[j] {
      assert InFirst(s, k, j) <==> InFirst(s, k - 1, j);
    }
  }

  lemma {:induction false} MaskedTotal(p: Params, s: State, f: Process -> int, k: nat)
    requires Shape(p, s) && SlotsOk(p, s) && k <= |s.slots|
    ensures SumOf(Masked(s, f, k), Same) == SlotTotal(s, f, k)
  {
    hide SlotsOk, Masked;
    if k == 0 {
      NothingMasked(s, f);
    } else {
      MaskedTotal(p, s, f, k - 1);
      MaskedNext(p, s, f, k);
      if s.slots[k - 1].Some? {
        var j := s.slots[k - 1].value;
        SumOfUpdate(Masked(s, f, k - 1), j, f(s.queue[j]), Same);
      }
    }
  }

  /** A measure that is zero for jobs with no page in memory may be summed over the slots. */
  lemma SlotsCoverJobs(p: Params, s: State, f: Process -> int)
    requires Inv(p, s)
    requires forall j: nat :: j < |s.queue| && AllOut(p, s.queue[j]) ==> f(s.queue[j]) == 0
    ensures SumOf(s.queue, f) == SlotTotal(s, f, |s.slots|)
  {
    var m := Masked(s, f, |s.slots|);
    MaskedTotal(p, s, f, |s.slots|);
    forall j: nat | j < |s.queue| ensures m[j] == f(s.queue[j]) {
      assert JobOk(p, s, j);
      if !InSlot(s, j) {
        assert !InFirst(s, |s.slots|, j);
      } else {
        assert InFirst(s, |s.slots|, j);
      }
    }
    SumOfLe(s.queue, f, m, Same);
    SumOfLe(m, Same, s.queue, f);
  }

  // ---- the pager's count

  /** A page the pager takes to be in memory: shown as resident, or awaited to come in. */
  predicate CountsAsIn(shown: bool, e: Track) {
    shown || (e.waiting && e.pagein != 0)
  }

  function InMemRow(shown: seq<bool>, w: seq<Track>, n: nat): nat
    requires n <= |shown| && n <= |w|
  {
    if n == 0 then 0
    else InMemRow(shown, w, n - 1) + if CountsAsIn(shown[n - 1], w[n - 1]) then 1 else 0
  }

  predicate ViewShape(p: Params, q: seq<Entry>) {
    |q| == p.slots && forall i :: 0 <= i < |q| ==> |q[i].pages| == p.npages
  }

  function InMem(p: Params, q: seq<Entry>, w: Tracker, k: nat): nat
    requires ViewShape(p, q) && TrackerShape(p, w) && k <= p.slots
  {
    if k == 0 then 0 else InMem(p, q, w, k - 1) + InMemRow(q[k - 1].pages, w[k - 1], p.npages)
  }

  /** The pages shown as resident, and those whose coming in is awaited. */
  function PagesIn(p: Params, q: seq<Entry>, w: Tracker): set<(nat, nat)>
    requires ViewShape(p, q) && TrackerShape(p, w)
  {
    set i: nat, g: nat | i < p.slots && g < p.npages && (q[i].pages[g] || (w[i][g].waiting && w[i][g].pagein != 0))
      :: (i, g)
  }

  function PagesInBefore(p: Params, q: seq<Entry>, w: Tracker, k: nat, n: nat): set<(nat, nat)>
    requires ViewShape(p, q) && TrackerShape(p, w)
  {
    set x | x in PagesIn(p, q, w) && (x.0 < k || (x.0 == k && x.1 < n))
  }

  lemma OnePageMore(p: Params, q: seq<Entry>, w: Tracker, k: nat, n: nat)
    requires ViewShape(p, q) && TrackerShape(p, w) && k < p.slots && n < p.npages
    ensures |PagesInBefore(p, q, w, k, n + 1)|
         == |PagesInBefore(p, q, w, k, n)| + if CountsAsIn(q[k].pages[n], w[k][n]) then 1 else 0
  {
    var before := PagesInBefore(p, q, w, k, n);
    assert (k, n) in PagesIn(p, q, w) <==> CountsAsIn(q[k].pages[n], w[k][n]);
    assert PagesInBefore(p, q, w, k, n + 1) == if (k, n) in PagesIn(p, q, w) then before + {(k, n)} else before;
  }

  lemma {:induction false} RowIsSize(p: Params, q: seq<Entry>, w: Tracker, k: nat, n: nat)
    requires ViewShape(p, q) && TrackerShape(p, w) && k < p.slots && n <= p.npages
    ensures |PagesInBefore(p, q, w, k, n)| == |PagesInBefore(p, q, w, k, 0)| + InMemRow(q[k].pages, w[k], n)
  {
    hide PagesInBefore, CountsAsIn;
    if n > 0 {
      RowIsSize(p, q, w, k, n - 1);
      OnePageMore(p, q, w, k, n - 1);
    }
  }

  lemma {:induction false} SlotsAreSize(p: Params, q: seq<Entry>, w: Tracker, k: nat)
    requires ViewShape(p, q) && TrackerShape(p, w) && k <= p.slots
    ensures |PagesInBefore(p, q, w, k, 0)| == InMem(p, q, w, k)
  {
    if k > 0 {
      SlotsAreSize(p, q, w, k - 1);
      RowIsSize(p, q, w, k - 1, p.npages);
      assert PagesInBefore(p, q, w, k, 0) == PagesInBefore(p, q, w, k - 1, p.npages);
    } else {
      assert PagesInBefore(p, q, w, 0, 0) == {};
    }
  }

  /** The count is the number of these pages. */
  lemma CountIsSize(p: Params, q: seq<Entry>, w: Tracker)
    requires ViewShape(p, q) && TrackerShape(p, w)
    ensures InMem(p, q, w, p.slots) == |PagesIn(p, q, w)|
  {
    SlotsAreSize(p, q, w, p.slots);
    assert PagesInBefore(p, q, w, p.slots, 0) == PagesIn(p, q, w);
  }

  lemma {:induction false} RowCovers(p: Params, pages: seq<int>, shown: seq<bool>, w: seq<Track>, tick: int, n: nat)
    requires n <= |pages| == |shown| == |w|
    requires forall g :: 0 <= g < |pages| ==> shown[g] == (pages[g] == 0) && EntryAgrees(p, pages[g], w[g], tick)
    ensures InMemRow(shown, w, n) >= SumOf(pages[..n], Stays)
  {
    if n > 0 {
      RowCovers(p, pages, shown, w, tick, n - 1);
      assert pages[..n] == pages[..n - 1] + [pages[n - 1]];
      SumOfAppend(pages[..n - 1], [pages[n - 1]], Stays);
      assert SumOf([pages[n - 1]], Stays) == Stays(pages[n - 1]) + SumOf([], Stays);
    }
  }

  lemma {:induction false} CountCovers(p: Params, x: Joint, tick: int, k: nat)
    requires JointOk(p, x) && Agrees(p, x, tick) && k <= p.slots
    ensures InMem(p, View(p, x.s), x.w, k) >= SlotTotal(x.s, StayingBy, k)
  {
    hide JobsOk, FramesOk, SlotsOk;
    if k > 0 {
      CountCovers(p, x, tick, k - 1);
      var i := k - 1;
      assert SlotAgrees(p, x.s, x.w, tick, i);
      assert View(p, x.s)[i] == EntryOf(p, x.s, i);
      if x.s.slots[i].Some? {
        var pages := x.s.queue[x.s.slots[i].value].pages;
        RowCovers(p, pages, View(p, x.s)[i].pages, x.w[i], tick, p.npages);
        assert pages[..p.npages] == pages;
      }
    }
  }

  /** The pager's count is never too low: with it, the frames that are free or on their way
      out are at least those it believes to be. (It can be too high, by stale entries.) */
  lemma CountIsSafe(p: Params, x: Joint, tick: int)
    requires JointOk(p, x) && Agrees(p, x, tick)
    ensures x.s.avail + Leaving(p, x.s) >= p.frames - InMem(p, View(p, x.s), x.w, p.slots)
  {
    forall j: nat | j < |x.s.queue| && AllOut(p, x.s.queue[j]) ensures StayingBy(x.s.queue[j]) == 0 {
      SumOfConst(x.s.queue[j].pages, Stays, 0);
    }
    SlotsCoverJobs(p, x.s, StayingBy);
    UsedSplits(p, x.s.queue);
    CountCovers(p, x, tick, p.slots);
  }

  /** Each eviction puts one more frame on its way out and takes none from the pool. */
  lemma EvictionAddsOne(p: Params, x: Joint, op: Op, tick: int)
    requires JointOk(p, x) && op.Out? && Legal(p, x, op)
    ensures Leaving(p, Tracked(p, x, op, tick).s) == Leaving(p, x.s) + 1
    ensures Tracked(p, x, op, tick).s.avail == x.s.avail
    ensures PageOut(p, x.s, op.slot, op.page).1
  {
    var j := x.s.slots[op.slot].value;
    var q := x.s.queue[j];
    var q' := q.(pages := q.pages[op.page := -1]);
    SumOfUpdate(q.pages, op.page, -1, Leaves(p.wait));
    SumOfUpdate(x.s.queue, j, q', LeavingBy(p.wait));
  }

  // ---- one pager call

  /** What stays true of the view a pager was given while it makes its requests: slots and
      pcs are as shown, and a page shown as resident is resident or has been evicted since. */
  predicate StillSeen(p: Params, q: seq<Entry>, s: State)
    requires Shape(p, s)
  {
    && |q| == p.slots
    && forall i: nat :: i < p.slots ==> EntrySeen(p, q[i], s, i)
  }

  predicate EntrySeen(p: Params, e: Entry, s: State, i: nat)
    requires Shape(p, s) && i < p.slots
  {
    && |e.pages| == p.npages
    && e.active == (s.slots[i].Some? && s.queue[s.slots[i].value].active)
    && (e.active ==> e.pc == s.queue[s.slots[i].value].core.pc)
    && (forall g :: 0 <= g < p.npages && e.pages[g] ==>
         && e.active
         && (s.queue[s.slots[i].value].pages[g] == 0 || s.queue[s.slots[i].value].pages[g] == -1))
  }

  lemma ViewIsSeen(p: Params, s: State)
    requires ParamsOk(p) && Inv(p, s)
    ensures StillSeen(p, View(p, s), s)
  {
    forall i: nat | i < p.slots ensures EntrySeen(p, View(p, s)[i], s, i) {
      assert View(p, s)[i] == EntryOf(p, s, i);
      if s.slots[i].Some? {
        assert JobOk(p, s, s.slots[i].value) && InSlot(s, s.slots[i].value);
      }
    }
  }

  lemma RequestKeepsSeen(p: Params, q: seq<Entry>, x: Joint, op: Op, tick: int)
    requires JointOk(p, x) && StillSeen(p, q, x.s) && Legal(p, x, op)
    ensures StillSeen(p, q, Tracked(p, x, op, tick).s)
  {
    hide JobsOk, FramesOk;
    var r := Tracked(p, x, op, tick);
    forall i: nat | i < p.slots ensures EntrySeen(p, q[i], r.s, i) {
      assert EntrySeen(p, q[i], x.s, i);
      if i != op.slot {
        RequestIsLocal(p, x, op, tick, i);
      }
    }
  }

  /** The victims the pager considers: shown as resident, and not waited for. */
  predicate Evictable(p: Params, q: seq<Entry>, w: Tracker, i: nat, g: nat)
    requires ViewShape(p, q) && TrackerShape(p, w)
  {
    i < p.slots && g < p.npages && q[i].pages[g] && !w[i][g].waiting
  }

  /** Every victim considered is accepted: it is still resident, because a page evicted
      earlier in the same call is being waited for. */
  lemma EvictableIsLegal(p: Params, q: seq<Entry>, x: Joint, tick: int, i: nat, g: nat)
    requires JointOk(p, x) && Agrees(p, x, tick) && StillSeen(p, q, x.s) && i < p.slots
    requires ViewShape(p, q) && Evictable(p, q, x.w, i, g)
    ensures Legal(p, x, Out(i, g)) && PageOut(p, x.s, i, g).1
  {
    assert EntrySeen(p, q[i], x.s, i) && SlotAgrees(p, x.s, x.w, tick, i);
  }

  /** Once evicted, a page stays on its way out for the rest of the call, whatever is asked
      for next, and cannot be evicted again. */
  lemma {:induction false} EvictedStaysOut(p: Params, x: Joint, ops: seq<Op>, tick: int, i: nat, g: nat)
    requires JointOk(p, x) && LegalAll(p, x, ops, tick) && i < p.slots && g < p.npages
    requires x.s.slots[i].Some? && x.s.queue[x.s.slots[i].value].pages[g] == -1
    ensures var r := TrackedAll(p, x, ops, tick);
      && !Legal(p, r, Out(i, g))
      && r.s.slots[i] == x.s.slots[i] && r.s.queue[x.s.slots[i].value].pages[g] == -1
    ensures forall a :: 0 <= a < |ops| ==> ops[a] != Out(i, g)
  {
    hide SlotsOk, JobsOk, FramesOk, Tracked;
    if ops != [] {
      var before := ops[..|ops| - 1];
      EvictedStaysOut(p, x, before, tick, i, g);
      RequestKeepsOut(p, TrackedAll(p, x, before, tick), ops[|ops| - 1], tick, i, g);
      forall a | 0 <= a < |ops| ensures ops[a] != Out(i, g) {
        if a < |before| {
          assert before[a] != Out(i, g);
        }
      }
    }
  }

  lemma RequestKeepsOut(p: Params, x: Joint, op: Op, tick: int, i: nat, g: nat)
    requires JointOk(p, x) && Legal(p, x, op) && i < p.slots && g < p.npages
    requires x.s.slots[i].Some? && x.s.queue[x.s.slots[i].value].pages[g] == -1
    ensures !Legal(p, x, Out(i, g))
    ensures Tracked(p, x, op, tick).s.slots[i] == x.s.slots[i]
    ensures Tracked(p, x, op, tick).s.queue[x.s.slots[i].value].pages[g] == -1
  {
    hide JobsOk, FramesOk;
    if i != op.slot {
      RequestIsLocal(p, x, op, tick, i);
    }
  }

  /** Page g of the job in slot i is in memory. */
  predicate Resident(p: Params, s: State, i: nat, g: nat)
    requires Shape(p, s) && i < p.slots && g < p.npages
  {
    s.slots[i].Some? && s.queue[s.slots[i].value].pages[g] == 0
  }

  /** No request makes a page resident. */
  lemma RequestBringsNothingIn(p: Params, x: Joint, op: Op, tick: int, i: nat, g: nat)
    requires JointOk(p, x) && i < p.slots && g < p.npages && !Resident(p, x.s, i, g)
    ensures !Resident(p, Tracked(p, x, op, tick).s, i, g)
    ensures Tracked(p, x, op, tick).s.slots == x.s.slots
  {
    hide JobsOk, FramesOk, SlotsOk;
    if i != op.slot {
      RequestIsLocal(p, x, op, tick, i);
    }
  }

  lemma {:induction false} RequestsBringNothingIn(p: Params, x: Joint, ops: seq<Op>, tick: int, i: nat, g: nat)
    requires JointOk(p, x) && i < p.slots && g < p.npages && !Resident(p, x.s, i, g)
    ensures !Resident(p, TrackedAll(p, x, ops, tick).s, i, g)
  {
    hide Inv, Tracked, Resident;
    if ops != [] {
      RequestsBringNothingIn(p, x, ops[..|ops| - 1], tick, i, g);
      RequestBringsNothingIn(p, TrackedAll(p, x, ops[..|ops| - 1], tick), ops[|ops| - 1], tick, i, g);
    }
  }

  /** Where a call stands: it was shown q, its requests so far are legal and have led from
      `start` to `x`, and shadow and view still fit. */
  ghost predicate Serving(p: Params, q: seq<Entry>, start: Joint, ops: seq<Op>, x: Joint, tick: int) {
    && JointOk(p, start) && JointOk(p, x)
    && LegalAll(p, start, ops, tick) && x == TrackedAll(p, start, ops, tick)
    && Agrees(p, x, tick)
    && ViewShape(p, q) && StillSeen(p, q, x.s)
  }

  lemma ServingFits(p: Params, q: seq<Entry>, start: Joint, ops: seq<Op>, x: Joint, tick: int)
    requires Serving(p, q, start, ops, x, tick)
    ensures ParamsOk(p) && JointOk(p, start) && JointOk(p, x)
    ensures TrackerShape(p, x.w) && ViewShape(p, q) && StillSeen(p, q, x.s)
  {
  }

  lemma ServingReached(p: Params, q: seq<Entry>, start: Joint, ops: seq<Op>, x: Joint, tick: int)
    requires Serving(p, q, start, ops, x, tick)
    ensures JointOk(p, start) && x == TrackedAll(p, start, ops, tick)
  {
  }

  lemma ServingEnds(p: Params, q: seq<Entry>, start: Joint, ops: seq<Op>, x: Joint, tick: int)
    requires Serving(p, q, start, ops, x, tick)
    ensures JointOk(p, start) && JointOk(p, x) && ViewShape(p, q)
    ensures LegalAll(p, start, ops, tick) && x == TrackedAll(p, start, ops, tick) && Agrees(p, x, tick)
  {
  }

  lemma ServeOne(p: Params, q: seq<Entry>, start: Joint, ops: seq<Op>, x: Joint, op: Op, tick: int)
    requires Serving(p, q, start, ops, x, tick) && Legal(p, x, op)
    ensures Serving(p, q, start, ops + [op], Tracked(p, x, op, tick), tick)
  {
    hide Inv, Agrees, StillSeen, Tracked, Legal;
    assert (ops + [op])[..|ops|] == ops;
    RequestKeepsAgreement(p, x, op, tick);
    RequestKeepsSeen(p, q, x, op, tick);
  }

  /** A call starts with finished operations forgotten. */
  lemma ServeStart(p: Params, q: seq<Entry>, x: Joint, tick: int)
    requires JointOk(p, x) && Agrees(p, x, tick) && q == View(p, x.s)
    ensures Serving(p, q, Joint(x.s, Expire(p, x.w, tick)), [], Joint(x.s, Expire(p, x.w, tick)), tick)
  {
    hide JobsOk, FramesOk, SlotsOk, Agrees;
    ExpireKeepsAgreement(p, x, tick);
    ViewIsSeen(p, x.s);
    assert ViewShape(p, q) by {
      forall i: nat | i < p.slots ensures |q[i].pages| == p.npages {
        assert EntrySeen(p, q[i], x.s, i);
      }
    }
  }
}
