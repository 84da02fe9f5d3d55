/** The reference trace behind the predictive pager's timestamps: which pages it has seen
    referenced at each tick of its clock. */
module References {

  /** refs[t - 1] are the (slot, page) pairs seen referenced at tick t. */
  type Refs = seq<set<(nat, nat)>>

  predicate RefAt(refs: Refs, t: int, i: nat, g: nat) {
    0 < t <= |refs| && (i, g) in refs[t - 1]
  }

  /** The tick of the last reference to a page, 0 if there is none. */
  function LastRef(refs: Refs, i: nat, g: nat): (t: nat)
    ensures t <= |refs|
  {
    if refs == [] then 0
    else if (i, g) in refs[|refs| - 1] then |refs|
    else LastRef(refs[..|refs| - 1], i, g)
  }

  lemma {:induction false} LastRefIsLast(refs: Refs, i: nat, g: nat)
    ensures LastRef(refs, i, g) > 0 ==> RefAt(refs, LastRef(refs, i, g), i, g)
    ensures forall u :: u > LastRef(refs, i, g) ==> !RefAt(refs, u, i, g)
  {
    if refs != [] && (i, g) !in refs[|refs| - 1] {
      var before := refs[..|refs| - 1];
      LastRefIsLast(before, i, g);
      forall u ensures RefAt(refs, u, i, g) <==> RefAt(before, u, i, g) {}
    }
  }

  /** Page (i, g) has not been used more recently than page (k, h): each of its references
      is matched by a reference to the other page at the same tick or later. */
  predicate NotMoreRecent(refs: Refs, i: nat, g: nat, k: nat, h: nat) {
    forall t :: 0 < t <= |refs| && RefAt(refs, t, i, g) ==>
      exists u :: t <= u <= |refs| && RefAt(refs, u, k, h)
  }

  /** Comparing timestamps is comparing recency over the whole trace. */
  lemma OlderMeansLessRecent(refs: Refs, i: nat, g: nat, k: nat, h: nat)
    ensures LastRef(refs, i, g) <= LastRef(refs, k, h) <==> NotMoreRecent(refs, i, g, k, h)
  {
    LastRefIsLast(refs, i, g);
    LastRefIsLast(refs, k, h);
    var t, u := LastRef(refs, i, g), LastRef(refs, k, h);
    if t <= u && u > 0 {
      assert RefAt(refs, u, k, h);
    }
    if t > u {
      assert RefAt(refs, t, i, g);
    }
  }

  /** Referenced in the window of `window - 1` ticks before the current one. */
  predicate InWindow(refs: Refs, window: nat, i: nat, g: nat) {
    exists t :: |refs| + 1 - window < t <= |refs| && RefAt(refs, t, i, g)
  }

  /** The pager's test on timestamps decides it, once a whole window has passed. */
  lemma TimestampDecidesWindow(refs: Refs, window: nat, i: nat, g: nat)
    requires window <= |refs| + 1
    ensures |refs| + 1 - LastRef(refs, i, g) < window <==> InWindow(refs, window, i, g)
  {
    LastRefIsLast(refs, i, g);
    var t := LastRef(refs, i, g);
    if |refs| + 1 - t < window {
      assert RefAt(refs, t, i, g);
    }
  }

  lemma LastRefNext(refs: Refs, now: set<(nat, nat)>, i: nat, g: nat)
    ensures LastRef(refs + [now], i, g) == if (i, g) in now then |refs| + 1 else LastRef(refs, i, g)
  {
    assert (refs + [now])[..|refs|] == refs;
  }
}
