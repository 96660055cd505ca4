/** The outbound queue of the MQTT client: one publishing goroutine, which also closes the client, and one pump. */
module PublishQueue {
  import opened Text

  /** `offline` marks the message of Close, the only one that carries a done channel. */
  datatype OutMsg = OutMsg(topic: string, payload: string, offline: bool)

  const CAPACITY: nat := 1024

  /** Where the publishing goroutine is: outside Close, waiting for done or the timeout, about to close the stop channel,
      or past that. */
  datatype Phase = Open | Awaiting | Stopping | Closed

  /** Where the pump is: selecting, inside send before or after the link was given the message, or gone. */
  datatype Pump = Ready | Sending(m: OutMsg) | Finishing | Exited

  /** `accepted` is the history of what enqueue took, `handed` the positions in it of what the link was given. */
  datatype State = State(phase: Phase, out: seq<OutMsg>, pump: Pump, done: bool, accepted: seq<OutMsg>, handed: seq<nat>)

  const START := State(Open, [], Ready, false, [], [])

  // ----- The channel operations, as functions

  predicate Room(s: State) { s.phase != Closed && |s.out| < CAPACITY }

  function Enqueued(s: State, m: OutMsg): State {
    if Room(s) then s.(out := s.out + [m], accepted := s.accepted + [m]) else s
  }

  /** Close up to its wait. It waits only if the link is up, there is a topic, and the queue took the message. */
  function CloseBegun(s: State, connected: bool, topic: string): State {
    if connected && topic != "" && Room(s) then Enqueued(s, OutMsg(topic, "offline", true)).(phase := Awaiting)
    else s.(phase := Stopping)
  }

  function Taken(s: State): State
    requires s.out != []
  {
    s.(out := s.out[1..], pump := Sending(s.out[0]))
  }

  /** send up to its wait: the message is skipped when the link is down. */
  function Sent(s: State, connected: bool): State
    requires s.pump.Sending?
  {
    s.(handed := if connected then s.handed + [Position(s)] else s.handed,
       pump := if s.pump.m.offline then Finishing else Ready)
  }

  /** The position of the message last taken from the queue. */
  function Position(s: State): nat {
    if |s.accepted| > |s.out| then |s.accepted| - |s.out| - 1 else 0
  }

  class Client {
    var phase: Phase
    var out: seq<OutMsg>
    var pump: Pump
    var done: bool
    ghost var accepted: seq<OutMsg>
    ghost var handed: seq<nat>

    ghost function View(): State
      reads this
    {
      State(phase, out, pump, done, accepted, handed)
    }

    constructor ()
      ensures View() == START
    {
      phase, out, pump, done, accepted, handed := Open, [], Ready, false, [], [];
    }

    /** Never blocks: false when the stop channel is closed or the queue is full. */
    method Enqueue(m: OutMsg) returns (ok: bool)
      modifies this`out, this`accepted
      ensures View() == Enqueued(old(View()), m) && (ok <==> Room(old(View())))
      ensures ok <==> phase != Closed && |old(out)| < 1024
      ensures out == old(out) + (if ok then [m] else []) && accepted == old(accepted) + if ok then [m] else []
    {
      if phase == Closed {
        return false;
      }
      if |out| >= CAPACITY {
        return false;
      }
      out := out + [m];
      accepted := accepted + [m];
      return true;
    }

    method BeginClose(connected: bool, topic: string)
      requires phase == Open
      modifies this`out, this`accepted, this`phase
      ensures View() == CloseBegun(old(View()), connected, topic)
      ensures phase == Awaiting <==> connected && topic != "" && |old(out)| < 1024
      ensures phase != Awaiting ==> phase == Stopping && out == old(out)
      ensures phase == Awaiting ==> out == old(out) + [OutMsg(topic, "offline", true)]
    {
      var waits := false;
      if connected && topic != "" {
        waits := Enqueue(OutMsg(topic, "offline", true));
      }
      phase := if waits then Awaiting else Stopping;
    }

    method Take()
      requires pump == Ready && out != []
      modifies this`out, this`pump
      ensures View() == Taken(old(View()))
      ensures pump == Sending(old(out)[0]) && out == old(out)[1..]
    {
      pump := Sending(out[0]);
      out := out[1..];
    }

    method Send(connected: bool)
      requires pump.Sending?
      modifies this`pump, this`handed
      ensures View() == Sent(old(View()), connected)
      ensures handed == old(handed) + if connected then [Position(old(View()))] else []
      ensures pump == if old(pump).m.offline then Finishing else Ready
    {
      if connected {
        handed := handed + [Position(View())];
      }
      pump := if pump.m.offline then Finishing else Ready;
    }
  }

  // ----- Interleavings

  /** The publishing goroutine: Publish, Close, then one of DoneSeen and Timeout, then Stop. The pump: Take, Send, Finish
      (send returns and closes done) and Exit. */
  datatype Step = Publish(topic: string, payload: string) | Close(connected: bool, topic: string) | DoneSeen | Timeout | Stop
    | Take | Send(connected: bool) | Finish | Exit

  predicate Enabled(s: State, t: Step) {
    match t
    case Publish(_, _) => s.phase == Open || s.phase == Closed
    case Close(_, _) => s.phase == Open
    case DoneSeen => s.phase == Awaiting && s.done
    case Timeout => s.phase == Awaiting
    case Stop => s.phase == Stopping
    case Take => s.pump == Ready && s.out != []
    case Send(_) => s.pump.Sending?
    case Finish => s.pump == Finishing
    case Exit => s.pump == Ready && s.phase == Closed
  }

  function Do(s: State, t: Step): State
    requires Enabled(s, t)
  {
    match t
    case Publish(topic, payload) => Enqueued(s, OutMsg(topic, payload, false))
    case Close(connected, topic) => CloseBegun(s, connected, topic)
    case DoneSeen => s.(phase := Stopping)
    case Timeout => s.(phase := Stopping)
    case Stop => s.(phase := Closed)
    case Take => Taken(s)
    case Send(connected) => Sent(s, connected)
    case Finish => s.(pump := Ready, done := true)
    case Exit => s.(pump := Exited)
  }

  function Run(s: State, steps: seq<Step>): Option<State> {
    if steps == [] then Some(s)
    else
      var before := Run(s, steps[..|steps| - 1]);
      if before.Some? && Enabled(before.value, steps[|steps| - 1]) then Some(Do(before.value, steps[|steps| - 1])) else None
  }

  ghost predicate Increasing(xs: seq<nat>, bound: int) {
    && (forall i, j :: 0 <= i < j < |xs| ==> xs[i] < xs[j])
    && forall i :: 0 <= i < |xs| ==> xs[i] < bound
  }

  /** How many messages have left the queue. */
  function Gone(s: State): int { |s.accepted| - |s.out| }

  predicate OfflineTaken(s: State) {
    |s.accepted| > 0 && s.accepted[|s.accepted| - 1].offline && s.out == []
  }

  /** The queue is the rest of what was accepted, what was handed over left it in order, and the message of Close is the
      last accepted one. */
  ghost predicate Inv(s: State) {
    && Gone(s) >= 0 && |s.out| <= CAPACITY && s.out == s.accepted[Gone(s)..]
    && Increasing(s.handed, if s.pump.Sending? then Gone(s) - 1 else Gone(s))
    && (s.pump.Sending? ==> Gone(s) > 0 && s.pump.m == s.accepted[Gone(s) - 1])
    && (s.pump.Finishing? || s.done ==> OfflineTaken(s))
    && (s.done ==> s.pump.Ready? || s.pump.Exited?)
    && (s.pump.Exited? ==> s.phase == Closed)
    && (forall i :: 0 <= i < |s.accepted| && s.accepted[i].offline ==>
         s.phase != Open && i == |s.accepted| - 1 && s.accepted[i].payload == "offline")
    && (s.phase == Awaiting ==> |s.accepted| > 0 && s.accepted[|s.accepted| - 1].offline)
  }

  lemma StepKeeps(s: State, t: Step)
    requires Inv(s) && Enabled(s, t)
    ensures Inv(Do(s, t))
  {
    match t
    case Publish(topic, payload) => PublishKeeps(s, OutMsg(topic, payload, false));
    case Close(connected, topic) => CloseKeeps(s, connected, topic);
    case Take => TakeKeeps(s);
    case Send(connected) => SendKeeps(s, connected);
    case _ =>
  }

  lemma PublishKeeps(s: State, m: OutMsg)
    requires Inv(s) && !m.offline && (s.phase == Open || s.phase == Closed)
    ensures Inv(Enqueued(s, m))
  {
    assert (s.accepted + [m])[Gone(s)..] == s.accepted[Gone(s)..] + [m];
  }

  lemma CloseKeeps(s: State, connected: bool, topic: string)
    requires Inv(s) && s.phase == Open
    ensures Inv(CloseBegun(s, connected, topic))
  {
    var m := OutMsg(topic, "offline", true);
    assert (s.accepted + [m])[Gone(s)..] == s.accepted[Gone(s)..] + [m];
  }

  lemma TakeKeeps(s: State)
    requires Inv(s) && Enabled(s, Take)
    ensures Inv(Do(s, Take))
  {
    assert s.accepted[Gone(s)..][1..] == s.accepted[Gone(s) + 1..];
  }

  lemma SendKeeps(s: State, connected: bool)
    requires Inv(s) && Enabled(s, Send(connected))
    ensures Inv(Do(s, Send(connected)))
  {
    assert Position(s) == Gone(s) - 1;
    IncreasingSnoc(s.handed, Gone(s) - 1);
    hide Increasing;
  }

  lemma IncreasingSnoc(xs: seq<nat>, n: nat)
    requires Increasing(xs, n)
    ensures Increasing(xs, n + 1) && Increasing(xs + [n], n + 1)
  {
  }

  lemma {:induction false} RunKeeps(s: State, steps: seq<Step>)
    requires Inv(s) && Run(s, steps).Some?
    ensures Inv(Run(s, steps).value)
  {
    if steps != [] {
      RunKeeps(s, steps[..|steps| - 1]);
      StepKeeps(Run(s, steps[..|steps| - 1]).value, steps[|steps| - 1]);
    }
  }

  /** In every interleaving the queue holds what was accepted and not yet taken, and what the link was given is an
      in-order subsequence of what was accepted. */
  lemma InOrder(steps: seq<Step>)
    requires Run(START, steps).Some?
    ensures var s := Run(START, steps).value;
      && 0 <= Gone(s) && |s.out| <= CAPACITY && s.out == s.accepted[Gone(s)..]
      && (forall i, j :: 0 <= i < j < |s.handed| ==> s.handed[i] < s.handed[j])
      && (forall i :: 0 <= i < |s.handed| ==> s.handed[i] < Gone(s))
  {
    RunKeeps(START, steps);
  }

  /** For every message that the pump got to send, in order, whether the link was up. */
  function Links(steps: seq<Step>): seq<bool> {
    if steps == [] then []
    else
      var t := steps[|steps| - 1];
      Links(steps[..|steps| - 1]) + if t.Send? then [t.connected] else []
  }

  /** How many of the messages taken from the queue the pump is done with. */
  function Tried(s: State): int { if s.pump.Sending? then Gone(s) - 1 else Gone(s) }

  /** The positions of the messages that met an open link. */
  ghost predicate HandedExactly(s: State, links: seq<bool>) {
    |links| == Tried(s) && forall i: nat :: i in s.handed <==> i < |links| && links[i]
  }

  /** In every interleaving the link is given exactly the messages whose send finds it up: of the messages taken from the
      queue, the i-th one if and only if the i-th Send was connected. */
  lemma {:induction false} HandedIffConnected(steps: seq<Step>)
    requires Run(START, steps).Some?
    ensures HandedExactly(Run(START, steps).value, Links(steps))
  {
    if steps != [] {
      var n := |steps| - 1;
      HandedIffConnected(steps[..n]);
      RunKeeps(START, steps[..n]);
      LinksStep(Run(START, steps[..n]).value, steps[n], Links(steps[..n]));
    }
  }

  lemma LinksStep(s: State, t: Step, links: seq<bool>)
    requires Inv(s) && Enabled(s, t) && HandedExactly(s, links)
    ensures HandedExactly(Do(s, t), links + if t.Send? then [t.connected] else [])
  {
    match t
    case Send(connected) =>
      assert Position(s) == |links|;
      forall i: nat
        ensures i in Do(s, t).handed <==> i < |links + [connected]| && (links + [connected])[i]
      {
        assert i in s.handed + [Position(s)] <==> i in s.handed || i == |links|;
      }
    case _ => assert links + [] == links;
  }

  /** So when the link is up all the time, the link was given everything that the pump is done with. */
  lemma {:induction false} AllHanded(steps: seq<Step>)
    requires Run(START, steps).Some? && forall t :: t in steps && t.Send? ==> t.connected
    ensures var s := Run(START, steps).value;
      |s.handed| == Tried(s) && forall i :: 0 <= i < |s.handed| ==> s.handed[i] == i
  {
    if steps != [] {
      var n := |steps| - 1;
      assert steps == steps[..n] + [steps[n]];
      assert steps[n] in steps;
      AllHanded(steps[..n]);
      RunKeeps(START, steps[..n]);
      AllHandedStep(Run(START, steps[..n]).value, steps[n]);
    }
  }

  lemma AllHandedStep(s: State, t: Step)
    requires Inv(s) && Enabled(s, t) && (t.Send? ==> t.connected)
    requires |s.handed| == Tried(s) && forall i :: 0 <= i < |s.handed| ==> s.handed[i] == i
    ensures var s' := Do(s, t); |s'.handed| == Tried(s') && forall i :: 0 <= i < |s'.handed| ==> s'.handed[i] == i
  {
    hide Increasing, OfflineTaken;
  }

  predicate HandedOffline(s: State) {
    exists i :: 0 <= i < |s.handed| && s.handed[i] < |s.accepted| && s.accepted[s.handed[i]].offline
  }

  /** Nothing is accepted any more, and what is left to hand over is at most the rest of the queue. */
  predicate Ended(s: State) {
    s.phase != Open && s.out == [] && !s.pump.Sending?
  }

  lemma EndedStays(s: State, t: Step)
    requires Inv(s) && Enabled(s, t) && OfflineTaken(s) && Ended(s)
    ensures var s' := Do(s, t); Ended(s') && s'.handed == s.handed && s'.accepted == s.accepted
  {
  }

  lemma OfflineEnds(s: State)
    requires Inv(s) && HandedOffline(s)
    ensures Ended(s) && OfflineTaken(s)
  {
    var i :| 0 <= i < |s.handed| && s.handed[i] < |s.accepted| && s.accepted[s.handed[i]].offline;
    assert s.handed[i] == |s.accepted| - 1;
  }

  /** Once the link was given the offline message, everything accepted before it has left the queue, and neither the
      queue nor the link gets anything more in any continuation, whether Close saw done or ran into its timeout. */
  lemma NothingFollowsOffline(steps: seq<Step>, more: seq<Step>)
    requires Run(START, steps).Some? && HandedOffline(Run(START, steps).value)
    requires Run(Run(START, steps).value, more).Some?
    ensures var s, s' := Run(START, steps).value, Run(Run(START, steps).value, more).value;
      && s.out == [] && s.handed != [] && s.handed[|s.handed| - 1] == |s.accepted| - 1
      && s.accepted[|s.accepted| - 1].payload == "offline"
      && Ended(s') && OfflineTaken(s') && s'.handed == s.handed && s'.accepted == s.accepted
  {
    RunKeeps(START, steps);
    OfflineEnds(Run(START, steps).value);
    EndedForever(Run(START, steps).value, more);
  }

  lemma {:induction false} EndedForever(s: State, more: seq<Step>)
    requires Inv(s) && OfflineTaken(s) && Ended(s) && Run(s, more).Some?
    ensures var s' := Run(s, more).value; Ended(s') && OfflineTaken(s') && s'.handed == s.handed && s'.accepted == s.accepted
  {
    hide Inv, Do, Enabled;
    if more != [] {
      EndedForever(s, more[..|more| - 1]);
      RunKeeps(s, more[..|more| - 1]);
      EndedStays(Run(s, more[..|more| - 1]).value, more[|more| - 1]);
    }
  }

  /** When Close sees done, everything accepted has left the queue. */
  lemma DoneMeansDrained(steps: seq<Step>)
    requires Run(START, steps).Some? && Enabled(Run(START, steps).value, DoneSeen)
    ensures Run(START, steps).value.out == [] && !Run(START, steps).value.pump.Sending?
  {
    RunKeeps(START, steps);
  }

  // ----- Whether the offline message can get out

  ghost predicate Silent(s: State) {
    s.phase != Open && s.phase != Awaiting && forall i :: 0 <= i < |s.accepted| ==> !s.accepted[i].offline
  }

  lemma {:induction false} SilentStays(s: State, steps: seq<Step>)
    requires Silent(s) && Run(s, steps).Some?
    ensures Silent(Run(s, steps).value)
  {
    if steps != [] {
      SilentStays(s, steps[..|steps| - 1]);
    }
  }

  lemma RunConcat(s: State, steps: seq<Step>, t: Step)
    requires Run(s, steps).Some? && Enabled(Run(s, steps).value, t)
    ensures Run(s, steps + [t]) == Some(Do(Run(s, steps).value, t))
  {
    assert (steps + [t])[..|steps|] == steps;
  }

  /** With the link up, the pump can hand over everything that is queued. */
  lemma {:induction false} Drain(s: State) returns (steps: seq<Step>)
    requires Inv(s) && s.phase == Awaiting && !HandedOffline(s) && s.pump.Ready? && s.out != []
    ensures Run(s, steps).Some? && HandedOffline(Run(s, steps).value)
    decreases |s.out|
  {
    var s1 := Do(s, Take);
    var s2 := Do(s1, Send(true));
    RunConcat(s, [], Take);
    RunConcat(s, [Take], Send(true));
    assert [] + [Take] == [Take] && [Take] + [Send(true)] == [Take, Send(true)];
    StepKeeps(s, Take);
    StepKeeps(s1, Send(true));
    if s2.out == [] {
      assert s2.handed[|s2.handed| - 1] == |s.accepted| - 1;
      steps := [Take, Send(true)];
    } else {
      NotYet(s2);
      var rest := Drain(s2);
      RunAppend(s, [Take, Send(true)], rest);
      steps := [Take, Send(true)] + rest;
    }
  }

  lemma NotYet(s: State)
    requires Inv(s) && s.out != []
    ensures !HandedOffline(s)
  {
  }

  lemma {:induction false} RunAppend(s: State, a: seq<Step>, b: seq<Step>)
    requires Run(s, a).Some? && Run(Run(s, a).value, b).Some?
    ensures Run(s, a + b) == Run(Run(s, a).value, b)
  {
    if b == [] {
      assert a + b == a;
    } else {
      RunAppend(s, a, b[..|b| - 1]);
      assert (a + b)[..|a + b| - 1] == a + b[..|b| - 1];
    }
  }

  /** Close can get its offline message out exactly when the link is up, a topic is given and the queue has room. On a
      live link with a full queue the clean disconnect then leaves the retained "online" behind. */
  lemma OfflineIffRoom(before: seq<Step>, connected: bool, topic: string)
    requires Run(START, before).Some? && Enabled(Run(START, before).value, Close(connected, topic))
    ensures var s := Run(START, before).value; var s1 := Do(s, Close(connected, topic));
      (exists steps :: Run(s1, steps).Some? && HandedOffline(Run(s1, steps).value)) <==>
      connected && topic != "" && |s.out| < 1024
  {
    var s := Run(START, before).value;
    RunKeeps(START, before);
    var s1 := Do(s, Close(connected, topic));
    StepKeeps(s, Close(connected, topic));
    if connected && topic != "" && |s.out| < CAPACITY {
      var steps := GetOut(s1);
    } else {
      forall steps | Run(s1, steps).Some? ensures !HandedOffline(Run(s1, steps).value) {
        SilentStays(s1, steps);
      }
    }
  }

  lemma GetOut(s: State) returns (steps: seq<Step>)
    requires Inv(s) && s.phase == Awaiting && s.out != []
    ensures Run(s, steps).Some? && HandedOffline(Run(s, steps).value)
  {
    NotYet(s);
    if s.pump.Sending? {
      var s1 := Do(s, Send(true));
      StepKeeps(s, Send(true));
      RunConcat(s, [], Send(true));
      assert [] + [Send(true)] == [Send(true)];
      NotYet(s1);
      var rest := Drain(s1);
      RunAppend(s, [Send(true)], rest);
      steps := [Send(true)] + rest;
    } else {
      steps := Drain(s);
    }
  }
}
