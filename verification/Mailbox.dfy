/** The newest-wins mailbox between the event loop and a worker: a channel of capacity one. */
module Mailbox {
  import opened Text

  class Mailbox<T> {
    var slot: Option<T>

    constructor ()
      ensures slot == None
    {
      slot := None;
    }

    method TryPut(v: T) returns (ok: bool)
      modifies this
      ensures ok <==> old(slot) == None
      ensures slot == if ok then Some(v) else old(slot)
    {
      ok := slot.None?;
      if ok {
        slot := Some(v);
      }
    }

    method TryTake() returns (r: Option<T>)
      modifies this
      ensures r == old(slot) && slot == None
    {
      r := slot;
      slot := None;
    }

    /** Puts v in, dropping whatever waits. Each of the three channel operations is atomic; the steps below let a
        worker in between them. */
    method OfferReplace(v: T) returns (replaced: bool)
      modifies this
      ensures slot == Some(v) && (replaced <==> old(slot).Some?)
    {
      var ok := TryPut(v);
      if ok {
        return false;
      }
      var waiting := TryTake();
      replaced := waiting.Some?;
      ok := TryPut(v);
    }
  }

  // ----- Interleaved with the worker

  /** Where the producer is inside OfferReplace. Once it took a command out, it remembers which. */
  datatype Place = Idle | FirstPut | Take | SecondPut(dropped: Option<int>)

  /** Commands are known by their position in the order of dispatch. `lost` counts second puts that found no room. */
  datatype State = State(at: Place, dispatched: nat, box: Option<int>, taken: seq<int>, replaced: nat, lost: nat)

  datatype Step = Offer | Producer | Worker

  const START := State(Idle, 0, None, [], 0, 0)

  predicate Enabled(s: State, t: Step) {
    match t
    case Offer => s.at.Idle?
    case Producer => !s.at.Idle?
    case Worker => s.box.Some?
  }

  function Do(s: State, t: Step): State
    requires Enabled(s, t)
  {
    match t
    case Offer => s.(at := FirstPut, dispatched := s.dispatched + 1)
    case Worker => s.(taken := s.taken + [s.box.value], box := None)
    case Producer =>
      match s.at
      case FirstPut => if s.box.None? then s.(box := Some(s.dispatched - 1), at := Idle) else s.(at := Take)
      case Take =>
        if s.box.Some? then s.(box := None, replaced := s.replaced + 1, at := SecondPut(s.box)) else s.(at := SecondPut(None))
      case SecondPut(_) =>
        if s.box.None? then s.(box := Some(s.dispatched - 1), at := Idle) else s.(lost := s.lost + 1, at := Idle)
  }

  function Run(steps: seq<Step>): Option<State> {
    if steps == [] then Some(START)
    else
      var before := Run(steps[..|steps| - 1]);
      if before.Some? && Enabled(before.value, steps[|steps| - 1]) then Some(Do(before.value, steps[|steps| - 1])) else None
  }

  function Count<T>(o: Option<T>): nat { if o.Some? then 1 else 0 }

  /** The commands that have left the producer for good: those put in the box so far, or replaced. */
  function Settled(s: State): int { if s.at.Idle? then s.dispatched else s.dispatched - 1 }

  /** The taken commands, and then the waiting one, in the order of dispatch and all among the first n. */
  ghost predicate InOrder(s: State, n: int) {
    && (forall i, j :: 0 <= i < j < |s.taken| ==> s.taken[i] < s.taken[j])
    && (forall i :: 0 <= i < |s.taken| ==> s.taken[i] < n && (s.box.Some? ==> s.taken[i] < s.box.value))
    && (s.box.Some? ==> s.box.value < n)
  }

  ghost predicate Inv(s: State) {
    var n := Settled(s);
    && n >= 0 && s.lost == 0
    && InOrder(s, n)
    && n == |s.taken| + s.replaced + Count(s.box)
    && (s.at.SecondPut? ==> s.box.None?)
    && (!s.at.SecondPut? && n > 0 ==> s.box == Some(n - 1) || (s.box.None? && s.taken != [] && s.taken[|s.taken| - 1] == n - 1))
    && (s.at.SecondPut? && s.at.dropped.None? && n > 0 ==> s.taken != [] && s.taken[|s.taken| - 1] == n - 1)
  }

  lemma StepKeeps(s: State, t: Step)
    requires Inv(s) && Enabled(s, t)
    ensures Inv(Do(s, t))
  {
    var s' := Do(s, t);
    if t.Worker? {
      assert InOrder(s', Settled(s'));
    }
  }

  lemma {:induction false} Always(steps: seq<Step>)
    requires Run(steps).Some?
    ensures Inv(Run(steps).value)
  {
    if steps != [] {
      Always(steps[..|steps| - 1]);
      StepKeeps(Run(steps[..|steps| - 1]).value, steps[|steps| - 1]);
    }
  }

  /** In every interleaving with the worker: no put is lost, the newest command of a finished offer waits or was the
      last one taken, the commands taken are a subsequence of those dispatched, and every one of them is accounted for. */
  lemma NewestWins(steps: seq<Step>)
    requires Run(steps).Some?
    ensures var s := Run(steps).value;
      && s.lost == 0
      && (s.at.SecondPut? ==> s.box.None?)
      && (s.at.Idle? && s.dispatched > 0 ==>
           s.box == Some(s.dispatched - 1) || (s.taken != [] && s.taken[|s.taken| - 1] == s.dispatched - 1))
      && (forall i, j :: 0 <= i < j < |s.taken| ==> s.taken[i] < s.taken[j] < s.dispatched)
      && (s.at.Idle? ==> s.dispatched == |s.taken| + s.replaced + Count(s.box))
  {
    Always(steps);
  }

  /** The box as an atomic replace would leave it: a command that was only just taken out still counts as waiting. */
  function Abstract(s: State): Option<int> {
    if s.at.SecondPut? && s.at.dropped.Some? then s.at.dropped else s.box
  }

  /** Every step is invisible, or an atomic replacement by the newest command, or an atomic take by the worker. */
  lemma RefinesAtomicReplace(steps: seq<Step>, t: Step)
    requires Run(steps).Some? && Enabled(Run(steps).value, t)
    ensures var s, s' := Run(steps).value, Do(Run(steps).value, t);
      || (Abstract(s') == Abstract(s) && s'.taken == s.taken)
      || (Abstract(s') == Some(s.dispatched - 1) && s'.taken == s.taken && s'.at.Idle?)
      || (Abstract(s).Some? && Abstract(s') == None && s'.taken == s.taken + [Abstract(s).value])
  {
    Always(steps);
  }
}
