/** What becomes of a connect: the wanted flag and the republishes that answer it, over whole runs. */
module Connects {
  import opened Text
  import opened Config
  import opened UnitState
  import opened Topics
  import opened PublishCache
  import opened EventLoop
  import opened Retention

  /** A republish begins when the loop takes its event from the queue. */
  predicate Begins(l: Loop, t: Step) {
    t.Pop? && l.events != [] && l.events[0] == FullPublish
  }

  /** Step n of a run begins a republish. */
  ghost predicate BeginsAt(p: Plan, l: Loop, steps: seq<Step>, n: nat)
    requires n < |steps|
  {
    Run(p, l, steps[..n]).Some? && Begins(Run(p, l, steps[..n]).value, steps[n])
  }

  /** No republish began from step n on. */
  ghost predicate NoneBegins(p: Plan, l: Loop, steps: seq<Step>, n: nat) {
    forall m: nat :: n <= m < |steps| ==> !BeginsAt(p, l, steps, m)
  }

  /** Some connect callback came after which no republish began. */
  ghost predicate Unanswered(p: Plan, l: Loop, steps: seq<Step>) {
    exists n :: 0 <= n < |steps| && steps[n] == ConnectCallback && NoneBegins(p, l, steps, n)
  }

  lemma BeginsAtPrefix(p: Plan, l: Loop, steps: seq<Step>, n: nat)
    requires n + 1 < |steps|
    ensures BeginsAt(p, l, steps[..|steps| - 1], n) <==> BeginsAt(p, l, steps, n)
  {
    hide Run, Begins;
    assert steps[..|steps| - 1][..n] == steps[..n];
  }

  lemma NoneBeginsSnoc(p: Plan, l: Loop, steps: seq<Step>, n: nat)
    requires n < |steps|
    ensures NoneBegins(p, l, steps, n) <==>
      NoneBegins(p, l, steps[..|steps| - 1], n) && !BeginsAt(p, l, steps, |steps| - 1)
  {
    hide BeginsAt;
    forall m: nat | m + 1 < |steps| ensures BeginsAt(p, l, steps[..|steps| - 1], m) <==> BeginsAt(p, l, steps, m) {
      BeginsAtPrefix(p, l, steps, m);
    }
    var last: nat := |steps| - 1;
    if NoneBegins(p, l, steps, n) {
      assert !BeginsAt(p, l, steps, last);
      forall m: nat | n <= m < last ensures !BeginsAt(p, l, steps[..last], m) {
        assert !BeginsAt(p, l, steps, m);
      }
    }
    if NoneBegins(p, l, steps[..last], n) && !BeginsAt(p, l, steps, last) {
      forall m: nat | n <= m < |steps| ensures !BeginsAt(p, l, steps, m) {
        assert m < last ==> !BeginsAt(p, l, steps[..last], m);
      }
    }
  }

  lemma UnansweredSnoc(p: Plan, l: Loop, steps: seq<Step>)
    requires steps != []
    ensures Unanswered(p, l, steps) <==>
      && !BeginsAt(p, l, steps, |steps| - 1)
      && (steps[|steps| - 1] == ConnectCallback || Unanswered(p, l, steps[..|steps| - 1]))
  {
    hide BeginsAt, NoneBegins;
    var before, last := steps[..|steps| - 1], |steps| - 1;
    forall n: nat | n < |steps| ensures NoneBegins(p, l, steps, n) <==> NoneBegins(p, l, before, n) && !BeginsAt(p, l, steps, last) {
      NoneBeginsSnoc(p, l, steps, n);
    }
    NothingAfterEnd(p, l, before);
    if Unanswered(p, l, before) && !BeginsAt(p, l, steps, last) {
      var n :| 0 <= n < |before| && before[n] == ConnectCallback && NoneBegins(p, l, before, n);
      assert steps[n] == ConnectCallback && NoneBegins(p, l, steps, n);
    }
    if Unanswered(p, l, steps) && steps[last] != ConnectCallback {
      var n :| 0 <= n < |steps| && steps[n] == ConnectCallback && NoneBegins(p, l, steps, n);
      assert before[n] == ConnectCallback;
    }
  }

  lemma NothingAfterEnd(p: Plan, l: Loop, steps: seq<Step>)
    ensures NoneBegins(p, l, steps, |steps|)
  {
  }

  /** How one step moves the flag. */
  lemma StepWanted(p: Plan, l: Loop, t: Step)
    requires PlanOK(p) && Inv(p, l) && Enabled(l, t)
    ensures Do(p, l, t).wanted <==> !Begins(l, t) && (t == ConnectCallback || l.wanted)
  {
    hide PlanOK, CacheOK, Handle, PollTick, FinishRepublish, WakesOK, TimerOK;
    match t
    case Pop(inp) => HandleWanted(p, l.(events := l.events[1..]), l.events[0], inp);
    case Finish(reconnects) => FinishWanted(p, l, reconnects);
    case Tick(inp) => TickKeeps(p, l, inp);
    case _ => OutsideWanted(p, l, t);
  }

  lemma OutsideWanted(p: Plan, l: Loop, t: Step)
    requires Enabled(l, t) && !t.Pop? && !t.Finish? && !t.Tick?
    ensures Do(p, l, t).wanted <==> t == ConnectCallback || l.wanted
    ensures Do(p, l, t).env.busy == l.env.busy
  {
    hide Supervisor.Notified;
  }

  lemma FinishWanted(p: Plan, l: Loop, reconnects: nat)
    ensures FinishRepublish(p, l, reconnects).wanted == l.wanted
  {
    hide Apply, Scopes, ScheduleAll;
    ScheduleAllFrame(l.(core := Apply(p, l.core, Republish(reconnects)), env := l.env.(busy := false)), Scopes(p.c.all));
  }

  lemma HandleWanted(p: Plan, l: Loop, ev: Event, inp: Inputs)
    ensures Handle(p, l, ev, inp).wanted <==> ev != FullPublish && l.wanted
    ensures Handle(p, l, ev, inp).env.busy <==> ev == FullPublish || l.env.busy
  {
    hide Apply, Reconciled, AsksRepublish, ScopeOf, SelectOf;
  }

  /** In every run: the flag is up exactly when some connect callback came after which no republish began. */
  lemma {:induction false} WantedIffUnanswered(p: Plan, steps: seq<Step>)
    requires PlanOK(p) && Run(p, Initial(p), steps).Some?
    ensures Run(p, Initial(p), steps).value.wanted <==> Unanswered(p, Initial(p), steps)
  {
    hide PlanOK, Inv, Do, Enabled, Begins, Unanswered;
    InitialOK(p);
    if steps == [] {
      NothingUnanswered(p, Initial(p));
    } else {
      var before := steps[..|steps| - 1];
      WantedIffUnanswered(p, before);
      RunKeeps(p, Initial(p), before);
      StepWanted(p, Run(p, Initial(p), before).value, steps[|steps| - 1]);
      UnansweredSnoc(p, Initial(p), steps);
    }
  }

  lemma NothingUnanswered(p: Plan, l: Loop)
    ensures !Unanswered(p, l, [])
  {
  }

  // ----- The answer

  /** Step f of a run ends a republish: the whole batch follows what was sent before. */
  ghost predicate Batch(p: Plan, l: Loop, steps: seq<Step>, f: nat, out: seq<Msg>)
    requires f < |steps|
  {
    && steps[f].Finish? && Run(p, l, steps[..f]).Some?
    && var k := Run(p, l, steps[..f]).value.core;
       k.out + RepublishMsgs(p, Republishing(k, steps[f].reconnects)) <= out
  }

  /** A republish began after step n and sent its whole batch. */
  ghost predicate Answered(p: Plan, l: Loop, steps: seq<Step>, n: nat, out: seq<Msg>) {
    exists m: nat, f: nat :: n < m < f < |steps| && BeginsAt(p, l, steps, m) && Batch(p, l, steps, f, out)
  }

  ghost predicate BegunAfter(p: Plan, l: Loop, steps: seq<Step>, n: nat) {
    exists m: nat :: n < m < |steps| && BeginsAt(p, l, steps, m)
  }

  lemma BatchPrefix(p: Plan, l: Loop, steps: seq<Step>, f: nat, out: seq<Msg>, out': seq<Msg>)
    requires f + 1 < |steps| && Batch(p, l, steps[..|steps| - 1], f, out) && out <= out'
    ensures Batch(p, l, steps, f, out')
  {
    hide Run, RepublishMsgs;
    assert steps[..|steps| - 1][..f] == steps[..f];
  }

  lemma AnsweredStays(p: Plan, l: Loop, steps: seq<Step>, n: nat, out: seq<Msg>, out': seq<Msg>)
    requires steps != [] && Answered(p, l, steps[..|steps| - 1], n, out) && out <= out'
    ensures Answered(p, l, steps, n, out')
  {
    hide BeginsAt, Batch;
    var before := steps[..|steps| - 1];
    var m: nat, f: nat :| n < m < f < |before| && BeginsAt(p, l, before, m) && Batch(p, l, before, f, out);
    BeginsAtPrefix(p, l, steps, m);
    BatchPrefix(p, l, steps, f, out, out');
  }

  lemma BegunStays(p: Plan, l: Loop, steps: seq<Step>, n: nat)
    requires steps != [] && BegunAfter(p, l, steps[..|steps| - 1], n)
    ensures BegunAfter(p, l, steps, n)
  {
    hide BeginsAt;
    var before := steps[..|steps| - 1];
    var m: nat :| n < m < |before| && BeginsAt(p, l, before, m);
    BeginsAtPrefix(p, l, steps, m);
  }

  /** The end of a republish sends its batch. */
  lemma FinishSends(p: Plan, l: Loop, reconnects: nat)
    ensures FinishRepublish(p, l, reconnects).core.out == l.core.out + RepublishMsgs(p, Republishing(l.core, reconnects))
  {
    hide Put, RepublishMsgs, Scopes, ScheduleAll;
    PutForced(Republishing(l.core, reconnects), RepublishMsgs(p, Republishing(l.core, reconnects)));
    ScheduleAllFrame(l.(core := Apply(p, l.core, Republish(reconnects)), env := l.env.(busy := false)), Scopes(p.c.all));
  }

  lemma FinishAnswers(p: Plan, l: Loop, steps: seq<Step>, n: nat)
    requires Run(p, l, steps).Some? && steps != [] && steps[|steps| - 1].Finish?
    requires BegunAfter(p, l, steps[..|steps| - 1], n)
    ensures Answered(p, l, steps, n, Run(p, l, steps).value.core.out)
  {
    hide RepublishMsgs, FinishRepublish, BeginsAt;
    var before, f := steps[..|steps| - 1], |steps| - 1;
    var m: nat :| n < m < |before| && BeginsAt(p, l, before, m);
    BeginsAtPrefix(p, l, steps, m);
    FinishSends(p, Run(p, l, before).value, steps[f].reconnects);
    assert Batch(p, l, steps, f, Run(p, l, steps).value.core.out);
  }

  /** How one step moves a republish that is under way. */
  lemma StepBusy(p: Plan, l: Loop, t: Step)
    requires PlanOK(p) && Inv(p, l) && Enabled(l, t)
    ensures l.env.busy && !t.Finish? ==> Do(p, l, t).env.busy
    ensures Begins(l, t) ==> Do(p, l, t).env.busy
  {
    hide PlanOK, CacheOK, Handle, FinishRepublish, WakesOK, TimerOK;
    match t
    case Pop(inp) => HandleWanted(p, l.(events := l.events[1..]), l.events[0], inp);
    case Finish(_) =>
    case Tick(_) =>
    case _ => OutsideWanted(p, l, t);
  }

  /** The stages of a connect: wanted, then begun and under way, then answered. */
  ghost predicate Stage(p: Plan, l: Loop, steps: seq<Step>, n: nat, l': Loop) {
    l'.wanted || (BegunAfter(p, l, steps, n) && l'.env.busy) || Answered(p, l, steps, n, l'.core.out)
  }

  lemma StageStep(p: Plan, l: Loop, steps: seq<Step>, n: nat)
    requires PlanOK(p) && Inv(p, l) && Run(p, l, steps).Some? && n + 1 < |steps|
    requires Stage(p, l, steps[..|steps| - 1], n, Run(p, l, steps[..|steps| - 1]).value)
    ensures Stage(p, l, steps, n, Run(p, l, steps).value)
  {
    var before, t := steps[..|steps| - 1], steps[|steps| - 1];
    var l1 := Run(p, l, before).value;
    assert l1 == Run(p, l, before).value && Run(p, l, steps).value == Do(p, l1, t) && Enabled(l1, t);
    hide PlanOK, Inv, Do, Enabled, Begins, Run, BegunAfter, Answered;
    RunKeeps(p, l, before);
    StepWanted(p, l1, t);
    StepBusy(p, l1, t);
    if Answered(p, l, before, n, l1.core.out) {
      StepGrows(p, l1, t);
      AnsweredStays(p, l, steps, n, l1.core.out, Do(p, l1, t).core.out);
    } else if BegunAfter(p, l, before, n) && l1.env.busy {
      if t.Finish? {
        FinishAnswers(p, l, steps, n);
      } else {
        BegunStays(p, l, steps, n);
      }
    } else if Begins(l1, t) {
      BeginsHere(p, l, steps, n);
    }
  }

  lemma StepGrows(p: Plan, l: Loop, t: Step)
    requires PlanOK(p) && Inv(p, l) && Enabled(l, t)
    ensures l.core.out <= Do(p, l, t).core.out
  {
    hide PlanOK, CacheOK, WakesOK, TimerOK, Do, Enabled, Leads;
    LeadsToItself(p, l.core);
    StepLeads(p, l.core, l, t);
    LeadsGrows(p, l.core, Do(p, l, t).core);
  }

  lemma BeginsHere(p: Plan, l: Loop, steps: seq<Step>, n: nat)
    requires n + 1 < |steps| && Run(p, l, steps[..|steps| - 1]).Some?
    requires Begins(Run(p, l, steps[..|steps| - 1]).value, steps[|steps| - 1])
    ensures BegunAfter(p, l, steps, n)
  {
    hide Run, Begins;
    assert BeginsAt(p, l, steps, |steps| - 1);
  }

  lemma {:induction false} StageAlways(p: Plan, l: Loop, steps: seq<Step>, n: nat)
    requires PlanOK(p) && Inv(p, l) && Run(p, l, steps).Some? && n < |steps| && steps[n] == ConnectCallback
    ensures Stage(p, l, steps, n, Run(p, l, steps).value)
  {
    var before := steps[..|steps| - 1];
    if n == |before| {
      hide PlanOK, Inv, BegunAfter, Answered;
    } else {
      hide PlanOK, Inv, Do, Enabled, Stage;
      StageAlways(p, l, before, n);
      StageStep(p, l, steps, n);
    }
  }

  /** What the flag buys: when it is down again after a connect callback, and no republish is under way, a republish that
      began after the callback has sent its whole batch. */
  lemma ConnectIsAnswered(p: Plan, steps: seq<Step>, n: nat)
    requires PlanOK(p) && Run(p, Initial(p), steps).Some? && n < |steps| && steps[n] == ConnectCallback
    requires !Run(p, Initial(p), steps).value.wanted && !Run(p, Initial(p), steps).value.env.busy
    ensures Answered(p, Initial(p), steps, n, Run(p, Initial(p), steps).value.core.out)
  {
    hide PlanOK, Inv, Run, BegunAfter, Answered;
    InitialOK(p);
    StageAlways(p, Initial(p), steps, n);
  }
}
