/** The predictive pager's choice of victims: least recently used over the whole trace.

    The searches compare timestamps; References relates these to the trace. */
module Victims {
  import opened Paging
  import opened References
  import opened Reserve
  import opened Shadow

  /** Page (i, g) comes before page (k, h) in the searches' order. */
  predicate Before(i: nat, g: nat, k: nat, h: nat) { i < k || (i == k && g < h) }

  /** (i, g) is evictable, no evictable page was last referenced earlier, and of those last
      referenced at the same tick it comes first. */
  ghost predicate Lru(p: Params, q: seq<Entry>, w: Tracker, trace: Refs, i: nat, g: nat)
    requires ViewShape(p, q) && TrackerShape(p, w)
  {
    && Evictable(p, q, w, i, g)
    && forall k: nat, h: nat :: Evictable(p, q, w, k, h) ==>
         && LastRef(trace, i, g) <= LastRef(trace, k, h)
         && (LastRef(trace, i, g) == LastRef(trace, k, h) ==> !Before(k, h, i, g))
  }

  /** The same among the pages of slot i alone. */
  ghost predicate LruOfSlot(p: Params, q: seq<Entry>, w: Tracker, trace: Refs, i: nat, g: nat)
    requires ViewShape(p, q) && TrackerShape(p, w)
  {
    && Evictable(p, q, w, i, g)
    && forall h: nat :: Evictable(p, q, w, i, h) ==>
         && LastRef(trace, i, g) <= LastRef(trace, i, h)
         && (LastRef(trace, i, g) == LastRef(trace, i, h) ==> g <= h)
  }

  ghost predicate NoneEvictable(p: Params, q: seq<Entry>, w: Tracker)
    requires ViewShape(p, q) && TrackerShape(p, w)
  {
    forall i: nat, g: nat :: !Evictable(p, q, w, i, g)
  }

  const INT_MAX: int := 0x7fff_ffff

  /** Where a search stands that has looked at the pages before (proc, vic). */
  ghost predicate Searched(p: Params, q: seq<Entry>, w: Tracker, trace: Refs, proc: nat, vic: nat,
                           found: bool, i: int, g: int, time: int)
    requires ViewShape(p, q) && TrackerShape(p, w)
  {
    && (!found ==> time == INT_MAX)
    && (found ==>
         && i >= 0 && g >= 0 && Before(i, g, proc, vic)
         && Evictable(p, q, w, i, g) && time == LastRef(trace, i, g))
    && (forall k: nat, h: nat :: Evictable(p, q, w, k, h) && Before(k, h, proc, vic) ==>
         && found && time <= LastRef(trace, k, h)
         && (time == LastRef(trace, k, h) && i >= 0 && g >= 0 ==> !Before(k, h, i, g)))
  }

  /** Every request is an eviction of the page that was least recently used at that point. */
  ghost predicate LruEvictions(p: Params, q: seq<Entry>, start: Joint, ops: seq<Op>, tick: int, trace: Refs)
    requires JointOk(p, start) && ViewShape(p, q)
  {
    ops == [] ||
    (var before, op := TrackedAll(p, start, ops[..|ops| - 1], tick), ops[|ops| - 1];
     && LruEvictions(p, q, start, ops[..|ops| - 1], tick, trace)
     && op.Out? && op.slot >= 0 && op.page >= 0
     && Lru(p, q, before.w, trace, op.slot, op.page))
  }

  lemma NoEvictions(p: Params, q: seq<Entry>, start: Joint, tick: int, trace: Refs)
    requires JointOk(p, start) && ViewShape(p, q)
    ensures LruEvictions(p, q, start, [], tick, trace)
  {
  }

  lemma LruIsEvictable(p: Params, q: seq<Entry>, w: Tracker, trace: Refs, i: nat, g: nat)
    requires ViewShape(p, q) && TrackerShape(p, w) && Lru(p, q, w, trace, i, g)
    ensures Evictable(p, q, w, i, g)
  {
  }

  lemma LruOfSlotIsEvictable(p: Params, q: seq<Entry>, w: Tracker, trace: Refs, i: nat, g: nat)
    requires ViewShape(p, q) && TrackerShape(p, w) && LruOfSlot(p, q, w, trace, i, g)
    ensures Evictable(p, q, w, i, g)
  {
  }

  lemma OneMoreEviction(p: Params, q: seq<Entry>, start: Joint, ops: seq<Op>, x: Joint, tick: int, trace: Refs,
                        i: nat, g: nat)
    requires Serving(p, q, start, ops, x, tick) && LruEvictions(p, q, start, ops, tick, trace)
    requires Lru(p, q, x.w, trace, i, g)
    ensures LruEvictions(p, q, start, ops + [Out(i, g)], tick, trace)
  {
    assert (ops + [Out(i, g)])[..|ops|] == ops;
  }

  /** The victim is unique: two pages cannot both be the least recently used. */
  lemma LruIsUnique(p: Params, q: seq<Entry>, w: Tracker, trace: Refs, i: nat, g: nat, k: nat, h: nat)
    requires ViewShape(p, q) && TrackerShape(p, w)
    requires Lru(p, q, w, trace, i, g) && Lru(p, q, w, trace, k, h)
    ensures i == k && g == h
  {
  }

  /** What the choice means: every reference to the victim is followed, at the same tick or
      later, by a reference to any other page that could have been chosen. */
  lemma VictimIsLeastRecent(p: Params, q: seq<Entry>, w: Tracker, trace: Refs, i: nat, g: nat, k: nat, h: nat)
    requires ViewShape(p, q) && TrackerShape(p, w)
    requires Lru(p, q, w, trace, i, g) && Evictable(p, q, w, k, h)
    ensures NotMoreRecent(trace, i, g, k, h)
  {
    OlderMeansLessRecent(trace, i, g, k, h);
  }

  /** No two evictions are of the same page. */
  predicate EvictsOnce(ops: seq<Op>) {
    forall a, b :: 0 <= a < b < |ops| && ops[a].Out? && ops[b].Out? ==> ops[a] != ops[b]
  }

  /** No page is evicted twice in one call, be it for the reserve or for a slot's own page:
      from its eviction on a page is waited for, whatever else is requested. */
  lemma {:induction false} VictimsAreDistinct(p: Params, start: Joint, ops: seq<Op>, tick: int)
    requires JointOk(p, start) && LegalAll(p, start, ops, tick)
    ensures EvictsOnce(ops)
    ensures forall a :: 0 <= a < |ops| && ops[a].Out? ==> Waited(p, TrackedAll(p, start, ops, tick).w, ops[a])
  {
    hide Inv;
    if ops != [] {
      var before, op := ops[..|ops| - 1], ops[|ops| - 1];
      VictimsAreDistinct(p, start, before, tick);
      var x := TrackedAll(p, start, before, tick);
      assert op.Out? ==> !Waited(p, x.w, op);
      forall a | 0 <= a < |ops| && ops[a].Out? ensures Waited(p, Tracked(p, x, op, tick).w, ops[a]) {
        if a < |before| {
          assert Waited(p, x.w, before[a]);
        }
      }
      forall a, b | 0 <= a < b < |ops| && ops[a].Out? && ops[b].Out? ensures ops[a] != ops[b] {
        assert before[a] == ops[a];
        if b < |before| {
          assert before[a] != before[b];
        } else {
          assert Waited(p, x.w, before[a]);
        }
      }
    }
  }

  predicate Waited(p: Params, w: Tracker, op: Op)
    requires TrackerShape(p, w)
  {
    0 <= op.slot < p.slots && 0 <= op.page < p.npages && w[op.slot][op.page].waiting
  }
}
