/** The loop's transition system next to the supervisor's: the loop's surroundings are given as little as the supervisor
    really does, and no less. */
module Supervised {
  import opened Text
  import opened Config
  import opened PublishCache
  import BusNews
  import E = EventLoop
  import S = Supervisor

  /** The loop, and the supervisor of one scope. */
  datatype Joint = Joint(loop: E.Loop, sys: S.System)

  datatype Step = OfSupervisor(own: S.Step) | OfLoop(other: E.Step)

  /** What Run set under the mutex and did not announce yet. */
  function Owed(at: S.Place): Option<bool> {
    match at
    case AnnouncingOn(_) => Some(true)
    case AnnouncingOff(_) => Some(false)
    case _ => None
  }

  /** Only the announcements send on the state channel. */
  function Announced(t: S.Step, ch: seq<bool>): seq<bool> {
    match t
    case AnnounceOn => S.Notified(ch, true)
    case AnnounceOff => S.Notified(ch, false)
    case _ => ch
  }

  /** The loop's surroundings say of a scope what its supervisor says. */
  predicate Faces(l: E.Loop, scope: string, s: S.System) {
    scope in l.env.buses && l.env.buses[scope].online == s.regs.online && l.env.buses[scope].owed == Owed(s.at)
  }

  /** A step of the loop's system that the supervisor of this scope takes. */
  predicate IsSupervisors(t: E.Step, scope: string) { (t.SetOnline? || t.Send?) && t.scope == scope }

  predicate Enabled(scope: string, j: Joint, t: Step) {
    match t
    case OfSupervisor(u) => scope in j.loop.env.buses && S.Enabled(j.sys, u)
    case OfLoop(u) => E.Enabled(j.loop, u) && !IsSupervisors(u, scope)
  }

  /** A step of the supervisor shows in its flag and its channel only. */
  function Do(p: Plan, scope: string, j: Joint, t: Step): Joint
    requires Enabled(scope, j, t)
  {
    match t
    case OfSupervisor(u) =>
      var s, b := S.Do(j.sys, u), j.loop.env.buses[scope];
      Joint(E.WithBus(j.loop, scope, E.Bus(s.regs.online, Owed(s.at), Announced(u, b.ch), b.hand)), s)
    case OfLoop(u) => Joint(E.Do(p, j.loop, u), j.sys)
  }

  function Initial(p: Plan): Joint { Joint(E.Initial(p), S.Initial()) }

  function Run(p: Plan, scope: string, steps: seq<Step>): Option<Joint> {
    if steps == [] then Some(Initial(p))
    else
      var before := Run(p, scope, steps[..|steps| - 1]);
      if before.Some? && Enabled(scope, before.value, steps[|steps| - 1])
      then Some(Do(p, scope, before.value, steps[|steps| - 1])) else None
  }

  /** What the loop's system sees of one step. */
  function Seen(scope: string, t: Step): seq<E.Step> {
    match t
    case OfSupervisor(Install) => [E.SetOnline(scope, true)]
    case OfSupervisor(TearDown) => [E.SetOnline(scope, false)]
    case OfSupervisor(AnnounceOn) => [E.Send(scope)]
    case OfSupervisor(AnnounceOff) => [E.Send(scope)]
    case OfSupervisor(_) => []
    case OfLoop(u) => [u]
  }

  function SeenOf(scope: string, steps: seq<Step>): seq<E.Step> {
    if steps == [] then [] else SeenOf(scope, steps[..|steps| - 1]) + Seen(scope, steps[|steps| - 1])
  }

  /** The supervisor's own steps. */
  function Own(steps: seq<Step>): seq<S.Step> {
    if steps == [] then []
    else
      var t := steps[|steps| - 1];
      Own(steps[..|steps| - 1]) + if t.OfSupervisor? then [t.own] else []
  }

  // ----- A joint run is a run of both systems

  /** A step of the supervisor is the step that the loop's system sees, or nothing in it. */
  lemma SupervisorSeen(p: Plan, scope: string, j: Joint, t: S.Step)
    requires Faces(j.loop, scope, j.sys) && S.ManagersOK(j.sys) && S.Enabled(j.sys, t)
    ensures var l', seen := Do(p, scope, j, OfSupervisor(t)).loop, Seen(scope, OfSupervisor(t));
      && Faces(l', scope, S.Do(j.sys, t))
      && (seen == [] ==> l' == j.loop)
      && (seen != [] ==> E.Enabled(j.loop, seen[0]) && l' == E.Do(p, j.loop, seen[0]))
  {
    hide S.Notified, S.ManagersOK;
    FlagAt(j.sys);
    var b := j.loop.env.buses[scope];
    if Seen(scope, OfSupervisor(t)) == [] {
      Unseen(scope, j.sys, t, b.ch);
      hide S.Do, S.Enabled, Announced, Owed;
      assert j.loop.env.buses[scope := b] == j.loop.env.buses;
    }
  }

  lemma Unseen(scope: string, s: S.System, t: S.Step, ch: seq<bool>)
    requires S.Enabled(s, t) && Seen(scope, OfSupervisor(t)) == []
    ensures S.Do(s, t).regs.online == s.regs.online && Owed(S.Do(s, t).at) == Owed(s.at) && Announced(t, ch) == ch
  {
  }

  lemma FlagAt(s: S.System)
    requires S.ManagersOK(s)
    ensures s.regs.online <==> s.at.AnnouncingOn? || s.at.Waiting? || s.at.Leaving?
  {
  }

  /** No step of the loop's system but the supervisor's own changes what it says of the supervisor. */
  lemma LoopFaces(p: Plan, scope: string, l: E.Loop, t: E.Step, s: S.System)
    requires PlanOK(p) && E.Inv(p, l) && E.Enabled(l, t) && !IsSupervisors(t, scope) && Faces(l, scope, s)
    ensures Faces(E.Do(p, l, t), scope, s)
  {
    hide PlanOK, E.Inv, E.Handle, E.PollTick, E.FinishRepublish, S.Notified, E.Enqueue, BusNews.Right, BusNews.News;
    match t
    case Pop(inp) => BusNews.PopNews(p, l, inp, scope);
    case Finish(reconnects) => BusNews.FinishNews(p, l, reconnects, scope);
    case Tick(inp) => BusNews.TickNews(p, l, inp, scope);
    case _ => OutsideFaces(p, scope, l, t, s);
  }

  lemma OutsideFaces(p: Plan, scope: string, l: E.Loop, t: E.Step, s: S.System)
    requires E.Enabled(l, t) && !t.Pop? && !t.Finish? && !t.Tick? && !IsSupervisors(t, scope) && Faces(l, scope, s)
    ensures Faces(E.Do(p, l, t), scope, s)
  {
    hide S.Notified;
  }

  lemma SeenRun(p: Plan, scope: string, steps: seq<E.Step>, seen: seq<E.Step>, l: E.Loop, l': E.Loop)
    requires E.Run(p, E.Initial(p), steps) == Some(l) && |seen| <= 1
    requires if seen == [] then l' == l else E.Enabled(l, seen[0]) && l' == E.Do(p, l, seen[0])
    ensures E.Run(p, E.Initial(p), steps + seen) == Some(l')
  {
    hide E.Enabled, E.Do, E.Initial;
    if seen == [] {
      assert steps + seen == steps;
    } else {
      assert (steps + seen)[..|steps|] == steps;
    }
  }

  lemma OwnRun(steps: seq<S.Step>, t: S.Step, s: S.System)
    requires S.Run(steps) == Some(s) && S.Enabled(s, t)
    ensures S.Run(steps + [t]) == Some(S.Do(s, t))
  {
    hide S.Enabled, S.Do;
    assert (steps + [t])[..|steps|] == steps;
  }

  lemma StartsFacing(p: Plan, scope: string)
    requires scope in Scopes(p.c.all)
    ensures Faces(E.Initial(p), scope, S.Initial())
  {
    hide Scopes, Start;
  }

  /** Whatever the supervisor and the loop do in turn, the loop's system sees a run of its own, the supervisor makes a run of
      its own, and the two agree on the flag and on what is not announced yet. */
  lemma {:induction false} JointIsRun(p: Plan, scope: string, steps: seq<Step>)
    requires PlanOK(p) && scope in Scopes(p.c.all) && Run(p, scope, steps).Some?
    ensures var j := Run(p, scope, steps).value;
      && E.Run(p, E.Initial(p), SeenOf(scope, steps)) == Some(j.loop)
      && S.Run(Own(steps)) == Some(j.sys)
      && Faces(j.loop, scope, j.sys)
  {
    hide PlanOK, Scopes, E.Run, S.Run, E.Initial, S.Initial, E.Enabled, S.Enabled, E.Do, S.Do, Faces;
    hide S.ManagersOK, S.FailuresOK, E.Inv;
    if steps == [] {
      StartsFacing(p, scope);
      assert E.Run(p, E.Initial(p), []) == Some(E.Initial(p)) && S.Run([]) == Some(S.Initial()) by { NoSteps(p); }
    } else {
      var before, t := steps[..|steps| - 1], steps[|steps| - 1];
      JointIsRun(p, scope, before);
      JointStep(p, scope, before, t);
    }
  }

  lemma NoSteps(p: Plan)
    ensures E.Run(p, E.Initial(p), []) == Some(E.Initial(p)) && S.Run([]) == Some(S.Initial())
  {
  }

  lemma JointStep(p: Plan, scope: string, before: seq<Step>, t: Step)
    requires PlanOK(p) && Run(p, scope, before).Some? && Enabled(scope, Run(p, scope, before).value, t)
    requires var j := Run(p, scope, before).value;
      && E.Run(p, E.Initial(p), SeenOf(scope, before)) == Some(j.loop)
      && S.Run(Own(before)) == Some(j.sys) && Faces(j.loop, scope, j.sys)
    ensures var j' := Do(p, scope, Run(p, scope, before).value, t);
      && E.Run(p, E.Initial(p), SeenOf(scope, before) + Seen(scope, t)) == Some(j'.loop)
      && S.Run(Own(before) + if t.OfSupervisor? then [t.own] else []) == Some(j'.sys)
      && Faces(j'.loop, scope, j'.sys)
  {
    hide PlanOK, Run, E.Run, S.Run, E.Initial, E.Enabled, S.Enabled, E.Do, S.Do, Faces, S.ManagersOK, S.FailuresOK, E.Inv;
    var j := Run(p, scope, before).value;
    match t
    case OfSupervisor(u) =>
      S.Always(Own(before));
      SupervisorSeen(p, scope, j, u);
      SeenRun(p, scope, SeenOf(scope, before), Seen(scope, t), j.loop, Do(p, scope, j, t).loop);
      OwnRun(Own(before), u, j.sys);
    case OfLoop(u) =>
      E.InitialOK(p);
      E.RunKeeps(p, E.Initial(p), SeenOf(scope, before));
      LoopFaces(p, scope, j.loop, u, j.sys);
      SeenRun(p, scope, SeenOf(scope, before), [u], j.loop, E.Do(p, j.loop, u));
      assert Own(before) + [] == Own(before);
  }

  /** Nothing that the supervisor can do is left out: every run of it is its part of some joint run. */
  lemma {:induction false} OwnRunIsJoint(p: Plan, scope: string, own: seq<S.Step>) returns (steps: seq<Step>)
    requires PlanOK(p) && scope in Scopes(p.c.all) && S.Run(own).Some?
    ensures Run(p, scope, steps).Some? && Own(steps) == own && Run(p, scope, steps).value.sys == S.Run(own).value
  {
    hide PlanOK, Scopes, E.Run, E.Initial, S.Enabled, S.Do, Announced, SeenOf;
    if own == [] {
      steps := [];
    } else {
      var before, t := own[..|own| - 1], own[|own| - 1];
      assert before + [t] == own;
      steps := OwnRunIsJoint(p, scope, before);
      JointIsRun(p, scope, steps);
      assert (steps + [OfSupervisor(t)])[..|steps|] == steps;
      steps := steps + [OfSupervisor(t)];
    }
  }

  // ----- And every run of the loop's system is seen in some joint run

  /** A supervisor that can still do whatever the loop's system allows it: not cancelled, and with no query in flight. */
  predicate Free(s: S.System) {
    !s.cancelled && s.queries == map[] && (s.at.Dialing? || s.at.AnnouncingOn? || s.at.Waiting? || s.at.AnnouncingOff?)
  }

  /** A joint run that is seen as these steps of the loop's system. */
  ghost predicate SeenAs(p: Plan, scope: string, steps: seq<Step>, seen: seq<E.Step>) {
    Run(p, scope, steps).Some? && SeenOf(scope, steps) == seen
  }

  lemma Snoc(p: Plan, scope: string, steps: seq<Step>, t: Step, seen: seq<E.Step>)
    requires SeenAs(p, scope, steps, seen) && Enabled(scope, Run(p, scope, steps).value, t)
    ensures SeenAs(p, scope, steps + [t], seen + Seen(scope, t))
    ensures Run(p, scope, steps + [t]).value == Do(p, scope, Run(p, scope, steps).value, t)
  {
    hide Enabled, Do, Seen, Initial;
    assert (steps + [t])[..|steps|] == steps;
  }

  lemma Drive(p: Plan, scope: string, steps: seq<Step>, t: S.Step, seen: seq<E.Step>)
    requires SeenAs(p, scope, steps, seen)
    requires var j := Run(p, scope, steps).value; scope in j.loop.env.buses && S.Enabled(j.sys, t)
    ensures SeenAs(p, scope, steps + [OfSupervisor(t)], seen + Seen(scope, OfSupervisor(t)))
    ensures var j, j' := Run(p, scope, steps).value, Run(p, scope, steps + [OfSupervisor(t)]).value;
      j'.sys == S.Do(j.sys, t) && scope in j'.loop.env.buses
  {
    hide S.Do, S.Enabled, Seen, Announced, Owed, Run, SeenAs;
    Snoc(p, scope, steps, OfSupervisor(t), seen);
  }

  lemma ComesOn(p: Plan, scope: string, steps: seq<Step>, seen: seq<E.Step>) returns (more: seq<Step>)
    requires SeenAs(p, scope, steps, seen)
    requires var j := Run(p, scope, steps).value; scope in j.loop.env.buses && Free(j.sys) && j.sys.at.Dialing?
    ensures SeenAs(p, scope, more, seen + [E.SetOnline(scope, true)]) && Free(Run(p, scope, more).value.sys)
  {
    hide Run, SeenAs, Announced;
    Drive(p, scope, steps, S.Dial, seen);
    Drive(p, scope, steps + [OfSupervisor(S.Dial)], S.Install, seen + []);
    assert seen + [] == seen;
    more := steps + [OfSupervisor(S.Dial)] + [OfSupervisor(S.Install)];
  }

  /** A query that ends in a disconnect error makes Run tear its manager down. */
  lemma GoesOff(p: Plan, scope: string, steps: seq<Step>, seen: seq<E.Step>) returns (more: seq<Step>)
    requires SeenAs(p, scope, steps, seen)
    requires var j := Run(p, scope, steps).value;
      scope in j.loop.env.buses && Free(j.sys) && j.sys.at.Waiting? && j.sys.regs.cur.Some?
    ensures SeenAs(p, scope, more, seen + [E.SetOnline(scope, false)]) && Free(Run(p, scope, more).value.sys)
  {
    hide Run, SeenAs, Announced;
    assert seen + [] == seen;
    var s1 := steps + [OfSupervisor(S.Begin(0))];
    Drive(p, scope, steps, S.Begin(0), seen);
    var s2 := s1 + [OfSupervisor(S.Finish(0, S.Disconnect))];
    Drive(p, scope, s1, S.Finish(0, S.Disconnect), seen);
    var s3 := s2 + [OfSupervisor(S.TakeToken)];
    Drive(p, scope, s2, S.TakeToken, seen);
    Drive(p, scope, s3, S.TearDown, seen);
    more := s3 + [OfSupervisor(S.TearDown)];
  }

  lemma Announces(p: Plan, scope: string, steps: seq<Step>, seen: seq<E.Step>) returns (more: seq<Step>)
    requires SeenAs(p, scope, steps, seen)
    requires var j := Run(p, scope, steps).value;
      scope in j.loop.env.buses && Free(j.sys) && (j.sys.at.AnnouncingOn? || j.sys.at.AnnouncingOff?)
    ensures SeenAs(p, scope, more, seen + [E.Send(scope)]) && Free(Run(p, scope, more).value.sys)
  {
    hide Run, Announced;
    var j := Run(p, scope, steps).value;
    hide SeenAs;
    if j.sys.at.AnnouncingOn? {
      Drive(p, scope, steps, S.AnnounceOn, seen);
      more := steps + [OfSupervisor(S.AnnounceOn)];
    } else {
      Drive(p, scope, steps, S.AnnounceOff, seen);
      Drive(p, scope, steps + [OfSupervisor(S.AnnounceOff)], S.Close, seen + [E.Send(scope)]);
      assert seen + [E.Send(scope)] + [] == seen + [E.Send(scope)];
      more := steps + [OfSupervisor(S.AnnounceOff)] + [OfSupervisor(S.Close)];
    }
  }

  lemma FreeStart(p: Plan, scope: string)
    ensures SeenAs(p, scope, [], []) && Free(Run(p, scope, []).value.sys)
  {
  }

  /** The supervisor can take the step that the loop's system allows it. */
  lemma SupervisorsTurn(p: Plan, scope: string, steps: seq<Step>, seen: seq<E.Step>, t: E.Step) returns (more: seq<Step>)
    requires PlanOK(p) && scope in Scopes(p.c.all)
    requires SeenAs(p, scope, steps, seen) && Free(Run(p, scope, steps).value.sys)
    requires E.Enabled(Run(p, scope, steps).value.loop, t) && IsSupervisors(t, scope)
    ensures SeenAs(p, scope, more, seen + [t]) && Free(Run(p, scope, more).value.sys)
  {
    hide PlanOK, Run, Scopes, S.FailuresOK;
    var j := Run(p, scope, steps).value;
    JointIsRun(p, scope, steps);
    S.Always(Own(steps));
    hide SeenAs;
    match t
    case SetOnline(_, online) =>
      if j.sys.at.Dialing? {
        more := ComesOn(p, scope, steps, seen);
      } else {
        more := GoesOff(p, scope, steps, seen);
      }
    case Send(_) =>
      more := Announces(p, scope, steps, seen);
  }

  lemma {:induction false} SomeJointRun(p: Plan, scope: string, seen: seq<E.Step>) returns (steps: seq<Step>)
    requires PlanOK(p) && scope in Scopes(p.c.all) && E.Run(p, E.Initial(p), seen).Some?
    ensures SeenAs(p, scope, steps, seen) && Free(Run(p, scope, steps).value.sys)
  {
    hide PlanOK, Scopes, Run, SeenAs, Free, E.Enabled, E.Do, E.Initial;
    if seen == [] {
      FreeStart(p, scope);
      steps := [];
    } else {
      var before, t := seen[..|seen| - 1], seen[|seen| - 1];
      assert before + [t] == seen;
      steps := SomeJointRun(p, scope, before);
      SeenLoop(p, scope, steps, before);
      hide E.Run;
      if IsSupervisors(t, scope) {
        steps := SupervisorsTurn(p, scope, steps, before, t);
      } else {
        Snoc(p, scope, steps, OfLoop(t), before);
        steps := steps + [OfLoop(t)];
      }
    }
  }

  lemma SeenLoop(p: Plan, scope: string, steps: seq<Step>, seen: seq<E.Step>)
    requires PlanOK(p) && scope in Scopes(p.c.all) && SeenAs(p, scope, steps, seen)
    ensures E.Run(p, E.Initial(p), seen) == Some(Run(p, scope, steps).value.loop)
  {
    hide PlanOK, Scopes, Run, E.Run, E.Initial, S.Run, Own, Faces;
    JointIsRun(p, scope, steps);
  }

  /** The surroundings of the loop are exactly the supervisor as seen through its flag and its channel: a sequence of steps is
      a run of the loop's system if and only if some joint run is seen as it. */
  lemma RunIffJoint(p: Plan, scope: string, seen: seq<E.Step>)
    requires PlanOK(p) && scope in Scopes(p.c.all)
    ensures E.Run(p, E.Initial(p), seen).Some? <==> exists steps :: SeenAs(p, scope, steps, seen)
  {
    hide PlanOK, Scopes, Run, SeenAs, E.Run, E.Initial, Free;
    if E.Run(p, E.Initial(p), seen).Some? {
      var steps := SomeJointRun(p, scope, seen);
      assert SeenAs(p, scope, steps, seen);
    }
    if exists steps :: SeenAs(p, scope, steps, seen) {
      var steps :| SeenAs(p, scope, steps, seen);
      SeenLoop(p, scope, steps, seen);
    }
  }

  // ----- What a tick then tells

  /** After a poll tick, at whatever point the supervisor is and whatever was dropped before, the loop's view and the
      cached availability say whether the supervisor has a manager to ask. */
  lemma TickSeesManager(p: Plan, scope: string, steps: seq<Step>, inp: E.Inputs)
    requires PlanOK(p) && scope in Scopes(p.c.all) && Run(p, scope, steps).Some?
    ensures var j := Run(p, scope, steps).value;
      var k := E.PollTick(p, j.loop, inp).core;
      BusOn(k, scope) == j.sys.regs.cur.Some? && E.Shown(k, scope, j.sys.regs.cur.Some?)
  {
    hide PlanOK, Scopes, Run, E.Run, E.Initial, S.Run, Own, E.Inv, E.PollTick, E.Shown, BusOn, S.FailuresOK;
    JointIsRun(p, scope, steps);
    E.InitialOK(p);
    E.RunKeeps(p, E.Initial(p), SeenOf(scope, steps));
    S.Always(Own(steps));
    E.TickSettlesBus(p, Run(p, scope, steps).value.loop, inp, scope);
  }
}
