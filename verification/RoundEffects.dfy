/** What one tick does to each slot, whatever the other slots do.

    A tick steps the slots in turn and then ages them in turn; no slot's step touches another
    slot's job, so the effect on each slot can be said by itself. */
module RoundEffects {
  import opened Paging
  import opened Sums

  /** Job j is in one of the first k slots. */
  predicate InFirst(s: State, k: nat, j: nat)
    requires k <= |s.slots|
  {
    exists i :: 0 <= i < k && s.slots[i] == Some(j)
  }

  /** Slot i holds no frames: it is empty, or no page of its job is in. */
  predicate SlotHoldsNothing(p: Params, s: State, i: nat)
    requires Shape(p, s) && i < p.slots
  {
    s.slots[i].Some? ==> AllOut(p, s.queue[s.slots[i].value])
  }

  /** The job in slot i has taken its step and stays, or the slot holds nothing. */
  predicate SlotStepped(p: Params, s: State, r: State, i: nat)
    requires ParamsOk(p) && Shape(p, s) && Shape(p, r) && |r.queue| == |s.queue| && i < p.slots
  {
    if s.slots[i].Some? && ProcessStep(p, s.queue[s.slots[i].value]).1
    then r.slots[i] == s.slots[i]
      && r.queue[s.slots[i].value] == ProcessStep(p, s.queue[s.slots[i].value]).0
    else SlotVacated(p, s, r, i)
  }

  /** The slot is empty or has a job never loaded before, and it holds no frames. */
  predicate SlotVacated(p: Params, s: State, r: State, i: nat)
    requires Shape(p, r) && i < p.slots
  {
    && SlotHoldsNothing(p, r, i)
    && (s.next == |s.queue| ==> r.slots[i].None?)
    && (r.slots[i].Some? ==> r.slots[i].value >= s.next)
  }

  predicate SlotSame(p: Params, s: State, r: State, i: nat)
    requires Shape(p, s) && Shape(p, r) && |r.queue| == |s.queue| && i < p.slots
  {
    r.slots[i] == s.slots[i]
    && (s.slots[i].Some? ==> r.queue[s.slots[i].value] == s.queue[s.slots[i].value])
  }

  lemma StepSlotOthers(p: Params, s: State, i: nat, k: nat)
    requires ParamsOk(p) && Inv(p, s) && i < p.procs && k < p.slots && k != i
    ensures SlotSame(p, s, StepSlot(p, s, i), k)
  {
  }

  lemma StepSlotItself(p: Params, s: State, i: nat)
    requires ParamsOk(p) && Inv(p, s) && i < p.procs
    ensures SlotStepped(p, s, StepSlot(p, s, i), i)
  {
    if s.next < |s.queue| {
      assert JobOk(p, s, s.next);
    }
  }

  /** What allstep has done to slot i when it has been through the first n slots. */
  predicate Effect(p: Params, s: State, r: State, n: nat, i: nat)
    requires ParamsOk(p) && Shape(p, s) && Shape(p, r) && |r.queue| == |s.queue| && i < p.slots
  {
    if i < n then SlotStepped(p, s, r, i) else SlotSame(p, s, r, i)
  }

  lemma EffectOthers(p: Params, s: State, r: State, r': State, n: nat, i: nat)
    requires ParamsOk(p) && Shape(p, s) && Shape(p, r) && Shape(p, r')
    requires |r.queue| == |s.queue| == |r'.queue| && i < p.slots && i != n
    requires Effect(p, s, r, n, i) && SlotSame(p, r, r', i)
    ensures Effect(p, s, r', n + 1, i)
  {
  }

  lemma EffectItself(p: Params, s: State, r: State, r': State, i: nat)
    requires ParamsOk(p) && Shape(p, s) && Shape(p, r) && Shape(p, r')
    requires |r.queue| == |s.queue| == |r'.queue| && i < p.slots && s.next <= r.next <= |r.queue|
    requires Effect(p, s, r, i, i) && SlotStepped(p, r, r', i)
    ensures Effect(p, s, r', i + 1, i)
  {
  }

  lemma {:induction false} AllStepAt(p: Params, s: State, n: nat, i: nat)
    requires ParamsOk(p) && Inv(p, s) && n <= p.procs && i < p.slots
    ensures Effect(p, s, AllStep(p, s, n), n, i)
  {
    hide SlotsOk, JobsOk, FramesOk, ProcessesOk, StepSlot, ProcessStep;
    if n > 0 {
      var r := AllStep(p, s, n - 1);
      var r' := StepSlot(p, r, n - 1);
      AllStepAt(p, s, n - 1, i);
      if i == n - 1 {
        StepSlotItself(p, r, i);
        EffectItself(p, s, r, r', i);
      } else {
        StepSlotOthers(p, r, n - 1, i);
        EffectOthers(p, s, r, r', n - 1, i);
      }
      assert AllStep(p, s, n) == r';
    }
  }

  lemma AgeSlotOthers(p: Params, s: State, i: nat, k: nat)
    requires ParamsOk(p) && Inv(p, s) && i < p.procs && k < p.slots && k != i
    ensures SlotSame(p, s, AgeSlot(p, s, i), k)
  {
  }

  predicate SlotAged(p: Params, s: State, r: State, i: nat)
    requires Shape(p, s) && Shape(p, r) && |r.queue| == |s.queue| && i < p.slots
  {
    r.slots[i] == s.slots[i]
    && (s.slots[i].Some? ==> r.queue[s.slots[i].value] == AgeProcess(p, s.queue[s.slots[i].value]))
  }

  lemma AgeSlotItself(p: Params, s: State, i: nat)
    requires ParamsOk(p) && Inv(p, s) && i < p.procs
    ensures SlotAged(p, s, AgeSlot(p, s, i), i)
  {
    if s.slots[i].Some? {
      assert JobOk(p, s, s.slots[i].value) && InSlot(s, s.slots[i].value);
    }
  }

  lemma {:induction false} AllAgeAt(p: Params, s: State, n: nat, i: nat)
    requires ParamsOk(p) && Inv(p, s) && n <= p.procs && i < p.slots
    ensures if i < n then SlotAged(p, s, AllAge(p, s, n), i) else SlotSame(p, s, AllAge(p, s, n), i)
  {
    hide SlotsOk, JobsOk, FramesOk, ProcessesOk, AgeSlot, AgeProcess;
    if n > 0 {
      var r := AllAge(p, s, n - 1);
      var r' := AgeSlot(p, r, n - 1);
      AllAgeAt(p, s, n - 1, i);
      if i == n - 1 {
        AgeSlotItself(p, r, i);
      } else {
        AgeSlotOthers(p, r, n - 1, i);
      }
      AgedThen(p, s, r, r', n - 1, i);
      assert AllAge(p, s, n) == r';
    }
  }

  lemma AgedThen(p: Params, s: State, r: State, r': State, n: nat, i: nat)
    requires Shape(p, s) && Shape(p, r) && Shape(p, r') && |r.queue| == |s.queue| == |r'.queue| && i < p.slots
    requires if i < n then SlotAged(p, s, r, i) else SlotSame(p, s, r, i)
    requires if i == n then SlotAged(p, r, r', i) else SlotSame(p, r, r', i)
    ensures if i < n + 1 then SlotAged(p, s, r', i) else SlotSame(p, s, r', i)
  {
  }

  /** A tick: all slots step, then all countdowns move on. */
  function Tick(p: Params, s: State): (r: State)
    requires ParamsOk(p) && Inv(p, s)
    ensures Inv(p, r) && |r.queue| == |s.queue|
  {
    AllAge(p, AllStep(p, s, p.procs), p.procs)
  }

  /** After a tick the job in slot i is the one before, stepped and aged, or the slot holds
      nothing; and once the queue is exhausted an empty slot stays empty. */
  lemma TickAt(p: Params, s: State, i: nat)
    requires ParamsOk(p) && Inv(p, s) && i < p.procs
    ensures var r := Tick(p, s);
      if s.slots[i].Some? && ProcessStep(p, s.queue[s.slots[i].value]).1
      then r.slots[i] == s.slots[i]
        && r.queue[s.slots[i].value] == AgeProcess(p, ProcessStep(p, s.queue[s.slots[i].value]).0)
      else SlotVacated(p, s, r, i)
  {
    var r := AllStep(p, s, p.procs);
    AllStepAt(p, s, p.procs, i);
    AllAgeAt(p, r, p.procs, i);
  }
}
