/** The bus supervisor: a dial and redial loop that runs beside any number of queries, some on older managers. */
module Supervisor {
  import opened Text

  /** How a manager's query ended, as IsDisconnectErr tells the errors apart. */
  datatype Outcome = Success | Failure | Disconnect

  /** The fields under the mutex, and the redial channel of capacity one. The k-th dialed manager is number k. */
  datatype Registers = Registers(cur: Option<nat>, online: bool, failures: nat, gen: nat, redial: bool)

  // ----- The locked sections, as functions

  function Installed(r: Registers, m: nat): Registers {
    Registers(Some(m), true, 0, r.gen + 1, false)
  }

  function TornDown(r: Registers): Registers {
    r.(cur := None, online := false)
  }

  function Finished(r: Registers, gen: nat, outcome: Outcome): Registers {
    if gen != r.gen then r
    else if outcome == Success then r.(failures := 0)
    else if outcome == Disconnect || r.failures + 1 >= 2 then r.(failures := 0, redial := true)
    else r.(failures := r.failures + 1)
  }

  const STATE_BUFFER: nat := 4

  /** A send on the state channel that is dropped when the buffer is full. */
  function Notified(ch: seq<bool>, online: bool): seq<bool> {
    if |ch| < STATE_BUFFER then ch + [online] else ch
  }

  class Supervisor {
    var cur: Option<nat>
    var online: bool
    var failures: nat
    var gen: nat
    var redial: bool
    var stateCh: seq<bool>

    function View(): Registers
      reads this
    {
      Registers(cur, online, failures, gen, redial)
    }

    constructor ()
      ensures View() == Registers(None, false, 0, 0, false) && stateCh == []
    {
      cur, online, failures, gen, redial, stateCh := None, false, 0, 0, false, [];
    }

    /** After a successful dial: the new manager goes in and a queued redial is stale. */
    method Install(m: nat)
      modifies this
      ensures View() == Installed(old(View()), m) && stateCh == old(stateCh)
    {
      cur := Some(m);
      online := true;
      failures := 0;
      gen := gen + 1;
      if redial {
        redial := false;
      }
    }

    method TearDown()
      modifies this
      ensures View() == TornDown(old(View())) && stateCh == old(stateCh)
    {
      cur := None;
      online := false;
    }

    method Notify(on: bool)
      modifies this`stateCh
      ensures stateCh == Notified(old(stateCh), on)
    {
      if |stateCh| < STATE_BUFFER {
        stateCh := stateCh + [on];
      }
    }

    method RequestRedial()
      modifies this`redial
      ensures redial
    {
      if !redial {
        redial := true;
      }
    }

    /** The first locked section of Query. None stands for ErrOffline. */
    method BeginQuery() returns (r: Option<(nat, nat)>)
      ensures r == if cur.Some? then Some((cur.value, gen)) else None
    {
      if cur == None {
        return None;
      }
      return Some((cur.value, gen));
    }

    /** The second locked section of Query, with the generation that the first one saw. */
    method FinishQuery(seen: nat, outcome: Outcome)
      modifies this
      ensures View() == Finished(old(View()), seen, outcome) && stateCh == old(stateCh)
    {
      if seen != gen {
        return;
      }
      if outcome == Success {
        failures := 0;
        return;
      }
      failures := failures + 1;
      if outcome == Disconnect || failures >= 2 {
        failures := 0;
        RequestRedial();
      }
    }
  }

  /** The last value in the channel is the last one sent exactly when the buffer had room, or held that value last. */
  lemma LastStateDelivered(ch: seq<bool>, online: bool)
    requires |ch| <= STATE_BUFFER
    ensures var after := Notified(ch, online);
      after != [] && after[|after| - 1] == online <==> |ch| < STATE_BUFFER || ch[|ch| - 1] == online
  {
  }

  // ----- Run beside queries

  /** Where Run is. Between its locked sections it announces the change, waits, and closes the manager. */
  datatype Place = Dialing | Dialed(m: nat) | AnnouncingOn(m: nat) | Waiting(m: nat) | Leaving(m: nat, byToken: bool)
    | AnnouncingOff(m: nat) | Closing(m: nat) | Returned

  datatype Query = Query(manager: nat, gen: nat)

  datatype Completion = Completion(gen: nat, outcome: Outcome)

  /** The supervisor, its in-flight queries, the managers so far and the completions in the order of their second
      locked sections. */
  datatype System = System(regs: Registers, at: Place, cancelled: bool, queries: map<nat, Query>, dialed: nat,
    closed: set<nat>, log: seq<Completion>)

  datatype Step = Dial | DialFailed | Install | AnnounceOn | TakeToken | SeeCancel | TearDown | AnnounceOff | Close | Cancel
    | Begin(q: nat) | Finish(q: nat, outcome: Outcome)

  function Initial(): System {
    System(Registers(None, false, 0, 0, false), Dialing, false, map[], 0, {}, [])
  }

  predicate Enabled(s: System, t: Step) {
    match t
    case Dial => s.at.Dialing?
    case DialFailed => s.at.Dialing?
    case Install => s.at.Dialed?
    case AnnounceOn => s.at.AnnouncingOn?
    case TakeToken => s.at.Waiting? && s.regs.redial
    case SeeCancel => s.at.Waiting? && s.cancelled
    case TearDown => s.at.Leaving?
    case AnnounceOff => s.at.AnnouncingOff?
    case Close => s.at.Closing?
    case Cancel => true
    case Begin(q) => q !in s.queries && s.regs.cur.Some?
    case Finish(q, _) => q in s.queries
  }

  function Do(s: System, t: Step): System
    requires Enabled(s, t)
  {
    match t
    case Dial => s.(at := Dialed(s.dialed), dialed := s.dialed + 1)
    case DialFailed => if s.cancelled then s.(at := Returned) else s
    case Install => s.(regs := Installed(s.regs, s.at.m), at := AnnouncingOn(s.at.m))
    case AnnounceOn => s.(at := Waiting(s.at.m))
    case TakeToken => s.(regs := s.regs.(redial := false), at := Leaving(s.at.m, true))
    case SeeCancel => s.(at := Leaving(s.at.m, false))
    case TearDown => s.(regs := TornDown(s.regs), at := AnnouncingOff(s.at.m))
    case AnnounceOff => s.(at := Closing(s.at.m))
    case Close => s.(closed := s.closed + {s.at.m}, at := if s.cancelled then Returned else Dialing)
    case Cancel => s.(cancelled := true)
    case Begin(q) => s.(queries := s.queries[q := Query(s.regs.cur.value, s.regs.gen)])
    case Finish(q, outcome) =>
      var gen := s.queries[q].gen;
      s.(regs := Finished(s.regs, gen, outcome), queries := s.queries - {q}, log := s.log + [Completion(gen, outcome)])
  }

  /** The state after a sequence of steps from the start, in any interleaving. None when a step was not possible. */
  function Run(steps: seq<Step>): Option<System> {
    if steps == [] then Some(Initial())
    else
      var before := Run(steps[..|steps| - 1]);
      if before.Some? && Enabled(before.value, steps[|steps| - 1]) then Some(Do(before.value, steps[|steps| - 1])) else None
  }

  // ----- When a redial is justified

  predicate Fails(c: Completion, gen: nat) { c.gen == gen && c.outcome != Success }

  /** Two failing completions of a generation with no success of it between them. */
  ghost predicate FailTwice(log: seq<Completion>, gen: nat, i: nat, j: nat)
    requires i < j < |log|
  {
    Fails(log[i], gen) && Fails(log[j], gen) && forall k :: i < k < j ==> log[k] != Completion(gen, Success)
  }

  /** A disconnect error in a generation, or two failing completions of it with no success between them. */
  ghost predicate Justified(log: seq<Completion>, gen: nat) {
    || Completion(gen, Disconnect) in log
    || exists i, j :: 0 <= i < j < |log| && FailTwice(log, gen, i, j)
  }

  /** The latest completion of a generation failed. */
  ghost predicate LastFailed(log: seq<Completion>, gen: nat) {
    exists i :: 0 <= i < |log| && Fails(log[i], gen) && forall k :: i < k < |log| ==> log[k] != Completion(gen, Success)
  }

  lemma LastFailedAppend(log: seq<Completion>, c: Completion, gen: nat)
    ensures LastFailed(log + [c], gen) <==> if c.gen == gen then c.outcome != Success else LastFailed(log, gen)
  {
    var all := log + [c];
    assert all[|log|] == c;
    if c.gen == gen && c.outcome != Success {
      assert Fails(all[|log|], gen);
    }
    if c.gen != gen && LastFailed(log, gen) {
      var i :| 0 <= i < |log| && Fails(log[i], gen) && forall k :: i < k < |log| ==> log[k] != Completion(gen, Success);
      assert Fails(all[i], gen);
    }
    if LastFailed(all, gen) {
      var i :| 0 <= i < |all| && Fails(all[i], gen) && forall k :: i < k < |all| ==> all[k] != Completion(gen, Success);
      assert i < |log| ==> Fails(log[i], gen) && forall k :: i < k < |log| ==> log[k] == all[k];
    }
  }

  lemma JustifiedAppend(log: seq<Completion>, c: Completion, gen: nat)
    ensures Justified(log + [c], gen) <==>
      || Justified(log, gen)
      || c == Completion(gen, Disconnect)
      || (c == Completion(gen, Failure) && LastFailed(log, gen))
  {
    var all, n := log + [c], |log|;
    assert all[n] == c;
    forall i, j | 0 <= i < j < n ensures FailTwice(all, gen, i, j) <==> FailTwice(log, gen, i, j) {
      FailTwiceSame(log, c, gen, i, j);
    }
    if Justified(log, gen) && Completion(gen, Disconnect) !in log {
      var i, j :| 0 <= i < j < n && FailTwice(log, gen, i, j);
      assert FailTwice(all, gen, i, j);
    }
    if c == Completion(gen, Failure) && LastFailed(log, gen) {
      var i := LastFailure(log, c, gen);
    }
    if Fails(c, gen) && (exists i :: 0 <= i < n && FailTwice(all, gen, i, n)) {
      var i :| 0 <= i < n && FailTwice(all, gen, i, n);
      assert Fails(log[i], gen) && forall k :: i < k < n ==> log[k] == all[k];
    }
  }

  lemma FailTwiceSame(log: seq<Completion>, c: Completion, gen: nat, i: nat, j: nat)
    requires i < j < |log|
    ensures FailTwice(log + [c], gen, i, j) <==> FailTwice(log, gen, i, j)
  {
    assert forall k :: 0 <= k < |log| ==> (log + [c])[k] == log[k];
  }

  lemma LastFailure(log: seq<Completion>, c: Completion, gen: nat) returns (i: nat)
    requires c == Completion(gen, Failure) && LastFailed(log, gen)
    ensures i < |log| && FailTwice(log + [c], gen, i, |log|)
  {
    i :| 0 <= i < |log| && Fails(log[i], gen) && forall k :: i < k < |log| ==> log[k] != Completion(gen, Success);
    assert forall k :: 0 <= k < |log| ==> (log + [c])[k] == log[k];
  }

  // ----- What every interleaving keeps

  /** All managers below n are closed. */
  ghost predicate ClosedBelow(s: System, n: nat) {
    forall m: nat :: m in s.closed <==> m < n
  }

  ghost predicate ManagersOK(s: System) {
    && (s.regs.online <==> s.regs.cur.Some?)
    && (s.regs.cur.Some? <==> s.at.AnnouncingOn? || s.at.Waiting? || s.at.Leaving?)
    && (s.regs.cur.Some? ==> s.regs.cur.value == s.at.m)
    && (s.at.Dialing? || s.at.Returned? ==> ClosedBelow(s, s.dialed) && s.regs.gen == s.dialed)
    && (!s.at.Dialing? && !s.at.Returned? ==> s.at.m + 1 == s.dialed && ClosedBelow(s, s.at.m))
    && (s.at.Dialed? ==> s.regs.gen == s.at.m)
    && (!s.at.Dialed? ==> s.regs.gen == s.dialed)
    && (forall q :: q in s.queries ==> s.queries[q].manager + 1 == s.queries[q].gen <= s.regs.gen)
    && (forall i :: 0 <= i < |s.log| ==> s.log[i].gen <= s.regs.gen)
  }

  ghost predicate FailuresOK(s: System) {
    && s.regs.failures <= 1
    && (s.at.AnnouncingOn? || s.at.Waiting? ==>
         && (s.regs.redial <==> Justified(s.log, s.regs.gen))
         && (!s.regs.redial ==> (s.regs.failures == 1 <==> LastFailed(s.log, s.regs.gen))))
    && (s.at.Leaving? ==> if s.at.byToken then Justified(s.log, s.regs.gen) else s.cancelled)
  }

  lemma StepKeepsManagers(s: System, t: Step)
    requires ManagersOK(s) && Enabled(s, t)
    ensures ManagersOK(Do(s, t))
  {
  }

  lemma StepKeepsFailures(s: System, t: Step)
    requires ManagersOK(s) && FailuresOK(s) && Enabled(s, t)
    ensures FailuresOK(Do(s, t))
  {
    match t
    case Finish(q, outcome) =>
      JustifiedAppend(s.log, Completion(s.queries[q].gen, outcome), s.regs.gen);
      LastFailedAppend(s.log, Completion(s.queries[q].gen, outcome), s.regs.gen);
    case _ =>
  }

  lemma {:induction false} Always(steps: seq<Step>)
    requires Run(steps).Some?
    ensures ManagersOK(Run(steps).value) && FailuresOK(Run(steps).value)
  {
    if steps != [] {
      Always(steps[..|steps| - 1]);
      var s := Run(steps[..|steps| - 1]).value;
      StepKeepsManagers(s, steps[|steps| - 1]);
      StepKeepsFailures(s, steps[|steps| - 1]);
    }
  }

  /** In every interleaving: online means that a manager is set, and at most one failure is being counted. While Run
      waits, a redial is queued exactly when the current generation justifies it. A teardown is justified in the same
      way unless the context was cancelled, and whenever a dial starts, or Run has returned, every manager dialed so
      far has been closed. */
  lemma RedialExactlyWhenJustified(steps: seq<Step>)
    requires Run(steps).Some?
    ensures var s := Run(steps).value;
      && (s.regs.online <==> s.regs.cur.Some?)
      && s.regs.failures <= 1
      && (s.at.Waiting? ==> (s.regs.redial <==> Justified(s.log, s.regs.gen)))
      && (s.at.Leaving? ==> Justified(s.log, s.regs.gen) || s.cancelled)
      && (s.at.Dialing? || s.at.Returned? ==> forall m: nat :: m < s.dialed ==> m in s.closed)
      && (forall q :: q in s.queries && s.queries[q].gen == s.regs.gen && s.regs.cur.Some? ==>
           s.queries[q].manager == s.regs.cur.value)
  {
    Always(steps);
  }
}
