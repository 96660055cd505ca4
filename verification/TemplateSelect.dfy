/** The exclusive select of a template: stop every other instance, then start the chosen one. */
module TemplateSelect {
  import opened Text
  import opened Config
  import StatusMapping
  import U = UnitState

  datatype Verb = Start | Stop

  datatype JobResult = Done | NotDone | LocalTimeout | CallFailed

  datatype Job = Job(unit: string, verb: Verb, result: JobResult)

  // ----- systemd, as the worker sees it

  /** What one job call can do to the set of live instances, those active or with a start pending. Others may leave the
      set meanwhile. A stop that returns done leaves its unit out; a start may take effect whatever it returns, even
      later; a unit that systemd cannot run never gets in. */
  ghost predicate Effect(cannotRun: set<string>, live: set<string>, live': set<string>, job: Job) {
    match job.verb
    case Stop => live' <= live && (job.result == Done ==> job.unit !in live')
    case Start =>
      && live' <= live + ({job.unit} - cannotRun)
      && (job.result == Done ==> job.unit in live')
  }

  class Systemd {
    const cannotRun: set<string>
    ghost var live: set<string>
    ghost var jobs: seq<Job>

    constructor (cannotRun: set<string>, ghost live: set<string>)
      ensures this.cannotRun == cannotRun && this.live == live && jobs == []
    {
      this.cannotRun, this.live, this.jobs := cannotRun, live, [];
    }

    /** One job with any outcome and any effect that Effect allows. */
    method RunJob(unit: string, verb: Verb) returns (result: JobResult)
      modifies this
      ensures Effect(cannotRun, old(live), live, Job(unit, verb, result))
      ensures jobs == old(jobs) + [Job(unit, verb, result)]
    {
      var answer: JobResult := *;
      result := if verb == Start && unit in cannotRun && answer == Done then NotDone else answer;
      ghost var job := Job(unit, verb, result);
      ghost var simplest := if verb == Stop then live - {unit} else live + ({unit} - cannotRun);
      assert Effect(cannotRun, live, simplest, job);
      ghost var after :| Effect(cannotRun, live, after, job);
      live := after;
      jobs := jobs + [job];
    }
  }

  // ----- Building a command

  /** What dispatchTemplate hands to the worker: the units to stop, in option order, and the one to start. */
  datatype Command = Command(caption: string, stop: seq<string>, start: Option<string>)

  const OFF := "off"

  predicate FirstWith(options: seq<SelectOption>, caption: string, i: nat)
    requires i < |options|
  {
    options[i].caption == caption && forall j :: 0 <= j < i ==> options[j].caption != caption
  }

  /** The first option of a caption. */
  function Choose(options: seq<SelectOption>, caption: string): (r: Option<string>)
    ensures r == None <==> forall i :: 0 <= i < |options| ==> options[i].caption != caption
    ensures r.Some? ==> exists i :: 0 <= i < |options| && FirstWith(options, caption, i) && options[i].unitID == r.value
  {
    if options == [] then None
    else if options[0].caption == caption then Some(options[0].unitID)
    else
      var r := Choose(options[1..], caption);
      assert forall i :: 0 < i < |options| ==> options[i] == options[1..][i - 1];
      assert forall i :: 0 <= i < |options| - 1 && FirstWith(options[1..], caption, i) ==> FirstWith(options, caption, i + 1);
      r
  }

  /** The units a command stops: every option's unit except the chosen one and those recorded as not found. */
  function StopList(options: seq<SelectOption>, start: Option<string>, missing: set<string>): (r: seq<string>)
    ensures forall u :: u in r <==> u !in missing && start != Some(u) && exists i :: 0 <= i < |options| && options[i].unitID == u
  {
    if options == [] then []
    else
      var last := options[|options| - 1];
      assert forall i :: 0 <= i < |options| - 1 ==> options[i] == options[..|options| - 1][i];
      StopList(options[..|options| - 1], start, missing)
      + if start == Some(last.unitID) || last.unitID in missing then [] else [last.unitID]
  }

  function Stoppable(start: Option<string>, missing: set<string>): SelectOption -> bool {
    (o: SelectOption) => start != Some(o.unitID) && o.unitID !in missing
  }

  /** The stops are in option order, each as often as it is an option. */
  lemma {:induction false} StopListOrder(options: seq<SelectOption>, start: Option<string>, missing: set<string>)
    ensures var at := Positions(options, Stoppable(start, missing));
      && |StopList(options, start, missing)| == |at|
      && forall a :: 0 <= a < |at| ==> StopList(options, start, missing)[a] == options[at[a]].unitID
  {
    hide StopList, Positions, Stoppable;
    if options == [] {
      NothingToStop(start, missing);
    } else {
      var n := |options| - 1;
      StopListOrder(options[..n], start, missing);
      PositionsSnoc(options, Stoppable(start, missing));
      StopListSnoc(options, start, missing);
    }
  }

  lemma NothingToStop(start: Option<string>, missing: set<string>)
    ensures StopList([], start, missing) == [] && Positions([], Stoppable(start, missing)) == []
  {
  }

  lemma StopListSnoc(options: seq<SelectOption>, start: Option<string>, missing: set<string>)
    requires options != []
    ensures var last := options[|options| - 1];
      StopList(options, start, missing) == StopList(options[..|options| - 1], start, missing)
        + if Stoppable(start, missing)(last) then [last.unitID] else []
  {
  }

  /** None when the caption is no option. */
  function CommandFor(options: seq<SelectOption>, caption: string, missing: set<string>): Option<Command> {
    if caption == OFF then Some(Command(caption, StopList(options, None, missing), None))
    else
      var chosen := Choose(options, caption);
      if chosen.None? then None else Some(Command(caption, StopList(options, chosen, missing), chosen))
  }

  /** The last answer for this unit was that systemd cannot find it. */
  predicate RecordedNotFound(units: U.Snapshots, id: string) {
    id in units && units[id].known && units[id].triple.load == "not-found"
  }

  /** The instances of a select that are recorded as not found. */
  function NotFound(options: seq<SelectOption>, units: U.Snapshots): set<string> {
    set o | o in options && RecordedNotFound(units, o.unitID) :: o.unitID
  }

  lemma SkippedIff(options: seq<SelectOption>, units: U.Snapshots, i: nat)
    requires i < |options|
    ensures options[i].unitID in NotFound(options, units) <==> RecordedNotFound(units, options[i].unitID)
  {
    assert options[i] in options;
  }

  lemma NotFoundExact(options: seq<SelectOption>, units: U.Snapshots, u: string)
    ensures u in NotFound(options, units) <==>
      (exists i :: 0 <= i < |options| && options[i].unitID == u)
      && u in units && units[u].known && units[u].triple.load == "not-found"
  {
    if exists i :: 0 <= i < |options| && options[i].unitID == u {
      var i :| 0 <= i < |options| && options[i].unitID == u;
      assert options[i] in options;
    }
  }

  /** What a pick makes the worker do. Only "off" and the captions of options are picks. The unit started is that of the
      first option of the caption, and every other unit is stopped unless its last answer was that systemd cannot find
      it. */
  ghost predicate Commanded(options: seq<SelectOption>, caption: string, units: U.Snapshots, cmd: Option<Command>) {
    && (cmd == None <==> caption != "off" && forall i :: 0 <= i < |options| ==> options[i].caption != caption)
    && (cmd.Some? ==>
         && cmd.value.caption == caption
         && (cmd.value.start == None <==> caption == "off")
         && (forall i :: 0 <= i < |options| && caption != "off" && FirstWith(options, caption, i) ==>
              cmd.value.start == Some(options[i].unitID))
         && (forall i :: 0 <= i < |options| && cmd.value.start != Some(options[i].unitID) ==>
              var u := options[i].unitID;
              (u in cmd.value.stop <==> u !in units || !units[u].known || units[u].triple.load != "not-found"))
         && forall u :: u in cmd.value.stop ==>
              cmd.value.start != Some(u) && exists i :: 0 <= i < |options| && options[i].unitID == u)
  }

  lemma CommandExact(options: seq<SelectOption>, caption: string, units: U.Snapshots)
    ensures Commanded(options, caption, units, CommandFor(options, caption, NotFound(options, units)))
  {
    forall u
      ensures u in NotFound(options, units) <==>
        (exists i :: 0 <= i < |options| && options[i].unitID == u)
        && u in units && units[u].known && units[u].triple.load == "not-found"
    {
      NotFoundExact(options, units, u);
    }
    hide NotFound;
    forall i | 0 <= i < |options| && FirstWith(options, caption, i) ensures Choose(options, caption) == Some(options[i].unitID) {
      FirstChosen(options, caption, i);
    }
    hide Choose, StopList;
  }

  lemma {:induction false} FirstChosen(options: seq<SelectOption>, caption: string, i: nat)
    requires i < |options| && FirstWith(options, caption, i)
    ensures Choose(options, caption) == Some(options[i].unitID)
  {
    if i > 0 {
      assert options[0].caption != caption;
      FirstChosen(options[1..], caption, i - 1);
    }
  }

  /** The command is built from the snapshots of this moment. */
  method DispatchTemplate(options: seq<SelectOption>, caption: string, units: U.Snapshots) returns (cmd: Option<Command>)
    ensures cmd == CommandFor(options, caption, NotFound(options, units))
    ensures Commanded(options, caption, units, cmd)
  {
    CommandExact(options, caption, units);
    hide Commanded, NotFound, StopList, RecordedNotFound;
    ghost var missing := NotFound(options, units);
    var chosen: Option<string> := None;
    if caption != OFF {
      var i := 0;
      while i < |options| && options[i].caption != caption
        invariant 0 <= i <= |options| && Choose(options, caption) == Choose(options[i..], caption)
      {
        assert options[i..][1..] == options[i + 1..];
        i := i + 1;
      }
      if i == |options| {
        return None;
      }
      chosen := Some(options[i].unitID);
    }
    var stop: seq<string> := [];
    NothingToStop(chosen, missing);
    for i := 0 to |options|
      invariant stop == StopList(options[..i], chosen, missing)
    {
      var u := options[i].unitID;
      SkippedIff(options, units, i);
      StopListSnoc(options[..i + 1], chosen, missing);
      assert options[..i + 1][..i] == options[..i];
      if chosen != Some(u) && !RecordedNotFound(units, u) {
        stop := stop + [u];
      }
    }
    assert options[..|options|] == options;
    return Some(Command(caption, stop, chosen));
  }

  // ----- Select commands interleaved with the worker

  /** A command being run: how many of its stops were issued, and whether all of them returned done. */
  datatype Running = Running(cmd: Command, issued: nat, clean: bool)

  datatype State = State(live: set<string>, box: Option<Command>, running: Option<Running>)

  /** Pick is a command from MQTT, with the snapshots of that moment. Leave is an instance that stops by itself. */
  datatype Step = Pick(caption: string, units: U.Snapshots) | Take | StopNext(result: JobResult, live: set<string>)
    | StartChosen(result: JobResult, live: set<string>) | GiveUp | Leave(live: set<string>)

  /** The select's options, the instances that a snapshot can wrongly or rightly record as not found, and those that
      systemd cannot run. */
  datatype World = World(options: seq<SelectOption>, recordable: set<string>, cannotRun: set<string>)

  ghost predicate Enabled(w: World, s: State, t: Step) {
    match t
    case Pick(_, units) =>
      forall u :: u in units && units[u].known && units[u].triple.load == "not-found" && IsOption(w, u) ==> u in w.recordable
    case Take => s.box.Some? && s.running.None?
    case StopNext(result, live) =>
      && s.running.Some? && s.running.value.issued < |s.running.value.cmd.stop|
      && Effect(w.cannotRun, s.live, live, Job(s.running.value.cmd.stop[s.running.value.issued], Stop, result))
    case StartChosen(result, live) =>
      && s.running.Some? && s.running.value.issued == |s.running.value.cmd.stop| && s.running.value.clean
      && s.running.value.cmd.start.Some?
      && Effect(w.cannotRun, s.live, live, Job(s.running.value.cmd.start.value, Start, result))
    case GiveUp => s.running.Some?
    case Leave(live) => live <= s.live
  }

  ghost function Do(w: World, s: State, t: Step): State
    requires Enabled(w, s, t)
  {
    match t
    case Pick(caption, units) =>
      var cmd := CommandFor(w.options, caption, NotFound(w.options, units));
      if cmd.None? then s else s.(box := cmd)
    case Take => s.(box := None, running := Some(Running(s.box.value, 0, true)))
    case StopNext(result, live) =>
      var r := s.running.value;
      s.(live := live, running := Some(r.(issued := r.issued + 1, clean := r.clean && result == Done)))
    case StartChosen(_, live) => s.(live := live, running := None)
    case GiveUp => s.(running := None)
    case Leave(live) => s.(live := live)
  }

  ghost function Run(w: World, s: State, steps: seq<Step>): Option<State> {
    if steps == [] then Some(s)
    else
      var before := Run(w, s, steps[..|steps| - 1]);
      if before.Some? && Enabled(w, before.value, steps[|steps| - 1]) then Some(Do(w, before.value, steps[|steps| - 1]))
      else None
  }

  // ----- Running a command

  /** Whether the first n jobs of a log are the first n stops, all done. */
  ghost predicate AllStopped(cmd: Command, jobs: seq<Job>) {
    |jobs| >= |cmd.stop| && forall i :: 0 <= i < |cmd.stop| ==> jobs[i] == Job(cmd.stop[i], Stop, Done)
  }

  /** What a command that succeeded leaves behind: its stops are not live, and its start is. */
  ghost predicate Carried(cmd: Command, live: set<string>) {
    && (forall u :: u in cmd.stop && cmd.start != Some(u) ==> u !in live)
    && (cmd.start.Some? ==> cmd.start.value in live)
  }

  /** The worker took a command and issued nothing yet. */
  function Begun(live: set<string>, cmd: Command): State { State(live, None, Some(Running(cmd, 0, true))) }

  lemma RunExtend(w: World, s: State, steps: seq<Step>, t: Step, before: State)
    requires Run(w, s, steps) == Some(before) && Enabled(w, before, t)
    ensures Run(w, s, steps + [t]) == Some(Do(w, before, t))
  {
    assert (steps + [t])[..|steps|] == steps;
  }

  /** The stops run in order, and the start, if the command has one, runs exactly when all of them ran and returned done.
      The run succeeds iff every job of the command ran and returned done. Every execution is a run of the worker's
      steps. */
  method RunTemplate(cmd: Command, sys: Systemd, ghost w: World) returns (ok: bool, ghost ran: seq<Job>, ghost steps: seq<Step>)
    requires w.cannotRun == sys.cannotRun
    modifies sys
    ensures sys.jobs == old(sys.jobs) + ran && |ran| <= |cmd.stop| + 1
    ensures forall i :: 0 <= i < |ran| && i < |cmd.stop| ==> ran[i].unit == cmd.stop[i] && ran[i].verb == Stop
    ensures |ran| == |cmd.stop| + 1 ==>
      AllStopped(cmd, ran) && cmd.start == Some(ran[|cmd.stop|].unit) && ran[|cmd.stop|].verb == Start
    ensures cmd.start.Some? && AllStopped(cmd, ran) ==> |ran| == |cmd.stop| + 1
    ensures ok <==> AllStopped(cmd, ran) && (cmd.start.Some? ==> |ran| == |cmd.stop| + 1 && ran[|cmd.stop|].result == Done)
    ensures sys.live <= old(sys.live) + if |ran| == |cmd.stop| + 1 then {cmd.start.value} - sys.cannotRun else {}
    ensures AllStopped(cmd, ran) ==> forall u :: u in cmd.stop && cmd.start != Some(u) ==> u !in sys.live
    ensures ok ==> Carried(cmd, sys.live)
    ensures Run(w, Begun(old(sys.live), cmd), steps) == Some(State(sys.live, None, None))
  {
    ran, steps := [], [];
    ghost var s := Begun(sys.live, cmd);
    var failed := false;
    for i := 0 to |cmd.stop|
      invariant |ran| == i && sys.jobs == old(sys.jobs) + ran && sys.live <= old(sys.live)
      invariant forall k :: 0 <= k < i ==> ran[k].unit == cmd.stop[k] && ran[k].verb == Stop
      invariant Run(w, s, steps) == Some(State(sys.live, None, Some(Running(cmd, i, !failed))))
      invariant failed <==> exists k :: 0 <= k < i && ran[k].result != Done
      invariant !failed ==> forall k :: 0 <= k < i ==> cmd.stop[k] !in sys.live
    {
      var cancelled: bool := *;
      ghost var now := State(sys.live, None, Some(Running(cmd, i, !failed)));
      if cancelled {
        RunExtend(w, s, steps, GiveUp, now);
        return false, ran, steps + [GiveUp];
      }
      var result := sys.RunJob(cmd.stop[i], Stop);
      RunExtend(w, s, steps, StopNext(result, sys.live), now);
      steps := steps + [StopNext(result, sys.live)];
      ran := ran + [Job(cmd.stop[i], Stop, result)];
      if result != Done {
        failed := true;
      }
    }
    ghost var stopped := State(sys.live, None, Some(Running(cmd, |cmd.stop|, !failed)));
    if cmd.start == None {
      RunExtend(w, s, steps, GiveUp, stopped);
      return !failed, ran, steps + [GiveUp];
    }
    if failed {
      RunExtend(w, s, steps, GiveUp, stopped);
      return false, ran, steps + [GiveUp];
    }
    var result := sys.RunJob(cmd.start.value, Start);
    RunExtend(w, s, steps, StartChosen(result, sys.live), stopped);
    steps := steps + [StartChosen(result, sys.live)];
    ran := ran + [Job(cmd.start.value, Start, result)];
    ok := result == Done;
  }

  predicate IsOption(w: World, u: string) { exists i :: 0 <= i < |w.options| && w.options[i].unitID == u }

  /** Some caption other than "off" selects this unit. */
  ghost predicate Choosable(w: World, u: string) {
    exists caption :: caption != OFF && Choose(w.options, caption) == Some(u)
  }

  ghost predicate AtMostOne(live: set<string>) {
    forall u, v :: u in live && v in live ==> u == v
  }

  /** At first nothing is queued or running, and at most one instance, of this select, is live. */
  ghost predicate Initial(w: World, s: State) {
    && s.box.None? && s.running.None? && AtMostOne(s.live)
    && forall u :: u in s.live ==> IsOption(w, u) && u !in w.cannotRun
  }

  ghost predicate AlwaysExclusive(w: World) {
    forall s, steps :: Initial(w, s) && Run(w, s, steps).Some? ==> AtMostOne(Run(w, s, steps).value.live)
  }

  /** Every instance that can be recorded as not found really cannot run, or is the only runnable choice. */
  ghost predicate RecordsTrusted(w: World) {
    forall u, v :: u in w.recordable && IsOption(w, u) && u !in w.cannotRun && Choosable(w, v) && v !in w.cannotRun ==> u == v
  }

  /** A command that dispatchTemplate built: whatever it neither stops nor starts was recorded as not found. */
  ghost predicate WellFormed(w: World, cmd: Command) {
    && (cmd.start.Some? ==> Choosable(w, cmd.start.value) && IsOption(w, cmd.start.value))
    && forall u :: IsOption(w, u) && u !in cmd.stop && cmd.start != Some(u) ==> u in w.recordable
  }

  ghost predicate Inv(w: World, s: State) {
    && AtMostOne(s.live)
    && (forall u :: u in s.live ==> IsOption(w, u) && u !in w.cannotRun)
    && (s.box.Some? ==> WellFormed(w, s.box.value))
    && (s.running.Some? ==>
         var r := s.running.value;
         && WellFormed(w, r.cmd) && r.issued <= |r.cmd.stop|
         && (r.clean ==> forall k :: 0 <= k < r.issued ==> r.cmd.stop[k] !in s.live))
  }

  lemma CommandWellFormed(w: World, caption: string, missing: set<string>)
    requires missing <= w.recordable && CommandFor(w.options, caption, missing).Some?
    ensures WellFormed(w, CommandFor(w.options, caption, missing).value)
  {
    var cmd := CommandFor(w.options, caption, missing).value;
    if cmd.start.Some? {
      var u := cmd.start.value;
      assert Choose(w.options, caption) == Some(u);
      var i :| 0 <= i < |w.options| && FirstWith(w.options, caption, i) && w.options[i].unitID == u;
      assert w.options[i].unitID == u;
    }
  }

  lemma RecordableOnly(w: World, units: U.Snapshots)
    requires forall u :: u in units && units[u].known && units[u].triple.load == "not-found" && IsOption(w, u) ==> u in w.recordable
    ensures NotFound(w.options, units) <= w.recordable
  {
    forall u | u in NotFound(w.options, units) ensures u in w.recordable {
      NotFoundExact(w.options, units, u);
      assert IsOption(w, u);
    }
  }

  lemma StartKeepsOne(w: World, s: State, t: Step)
    requires RecordsTrusted(w) && Inv(w, s) && t.StartChosen? && Enabled(w, s, t)
    ensures AtMostOne(t.live)
  {
    hide Choosable, IsOption;
    var r := s.running.value;
    var v := r.cmd.start.value;
    forall u | u in s.live && v !in w.cannotRun ensures u == v {
      assert u !in r.cmd.stop;
    }
  }

  lemma StepKeeps(w: World, s: State, t: Step)
    requires RecordsTrusted(w) && Inv(w, s) && Enabled(w, s, t)
    ensures Inv(w, Do(w, s, t))
  {
    hide RecordsTrusted, Choosable, IsOption, Choose, StopList, NotFound;
    match t
    case Pick(caption, units) =>
      RecordableOnly(w, units);
      if CommandFor(w.options, caption, NotFound(w.options, units)).Some? {
        CommandWellFormed(w, caption, NotFound(w.options, units));
      }
    case StartChosen(_, _) => StartKeepsOne(w, s, t);
    case _ =>
  }

  lemma {:induction false} TrustedIsExclusive(w: World, s: State, steps: seq<Step>)
    requires RecordsTrusted(w) && Initial(w, s) && Run(w, s, steps).Some?
    ensures Inv(w, Run(w, s, steps).value)
  {
    hide RecordsTrusted, WellFormed, IsOption, AtMostOne;
    if steps != [] {
      TrustedIsExclusive(w, s, steps[..|steps| - 1]);
      StepKeeps(w, Run(w, s, steps[..|steps| - 1]).value, steps[|steps| - 1]);
    }
  }

  /** The snapshots of every pick tell the truth: an instance they know as "not-found" is one that systemd cannot run. */
  ghost predicate PicksTrue(w: World, steps: seq<Step>) {
    forall t :: t in steps && t.Pick? ==> forall u ::
      u in t.units && t.units[u].known && t.units[u].triple.load == "not-found" && IsOption(w, u) ==> u in w.cannotRun
  }

  lemma {:induction false} SameRun(w: World, s: State, steps: seq<Step>)
    requires Run(w, s, steps).Some? && PicksTrue(w, steps)
    ensures Run(w.(recordable := w.cannotRun), s, steps) == Run(w, s, steps)
  {
    hide CommandFor, NotFound, Effect;
    if steps != [] {
      var n := |steps| - 1;
      assert steps == steps[..n] + [steps[n]];
      SameRun(w, s, steps[..n]);
      assert steps[n] in steps;
    }
  }

  /** In any run whose picks are made on snapshots that tell the truth, at most one instance is live at the end. */
  lemma TrueRecordsExclusive(w: World, s: State, steps: seq<Step>)
    requires Initial(w, s) && Run(w, s, steps).Some? && PicksTrue(w, steps)
    ensures AtMostOne(Run(w, s, steps).value.live)
  {
    var w' := w.(recordable := w.cannotRun);
    SameRun(w, s, steps);
    assert RecordsTrusted(w') && Initial(w', s) by {
      hide Choosable, Run;
      assert forall u :: IsOption(w', u) <==> IsOption(w, u);
    }
    hide RecordsTrusted, Initial, Run, PicksTrue;
    TrustedIsExclusive(w', s, steps);
  }

  // ----- A command all of whose jobs return done

  /** The command is taken, its stops all return done, and then its start, if it has one. */
  ghost predicate CleanRun(cmd: Command, steps: seq<Step>) {
    && |steps| == 1 + |cmd.stop| + (if cmd.start.Some? then 1 else 0)
    && steps[0] == Take
    && (forall i :: 0 < i <= |cmd.stop| ==> steps[i].StopNext? && steps[i].result == Done)
    && (cmd.start.Some? ==> steps[|steps| - 1].StartChosen? && steps[|steps| - 1].result == Done)
  }

  lemma RunPrefix(w: World, s: State, steps: seq<Step>, n: nat)
    requires Run(w, s, steps).Some? && n <= |steps|
    ensures Run(w, s, steps[..n]).Some?
    decreases |steps| - n
  {
    if n == |steps| {
      assert steps[..n] == steps;
    } else {
      RunPrefix(w, s, steps, n + 1);
      assert steps[..n + 1][..n] == steps[..n];
    }
  }

  /** After n of the stops none of their units is live. */
  lemma {:induction false} CleanStops(w: World, s: State, cmd: Command, steps: seq<Step>, n: nat)
    requires s.box == Some(cmd) && s.running.None? && CleanRun(cmd, steps) && Run(w, s, steps).Some? && n <= |cmd.stop|
    ensures Run(w, s, steps[..n + 1]).Some?
    ensures var s' := Run(w, s, steps[..n + 1]).value;
      s'.running == Some(Running(cmd, n, true)) && forall k :: 0 <= k < n ==> cmd.stop[k] !in s'.live
  {
    RunPrefix(w, s, steps, n + 1);
    assert steps[..n + 1][..n] == steps[..n];
    if n == 0 {
      assert steps[..0] == [];
    } else {
      CleanStops(w, s, cmd, steps, n - 1);
    }
  }

  /** Such a run leaves the chosen instance live and the stopped ones down. */
  lemma CleanRunCarries(w: World, s: State, cmd: Command, steps: seq<Step>)
    requires s.box == Some(cmd) && s.running.None? && CleanRun(cmd, steps) && Run(w, s, steps).Some?
    ensures Carried(cmd, Run(w, s, steps).value.live)
  {
    CleanStops(w, s, cmd, steps, |cmd.stop|);
    if cmd.start.None? {
      assert steps[..|cmd.stop| + 1] == steps;
    } else {
      assert steps[..|steps| - 1] == steps[..|cmd.stop| + 1];
    }
  }

  // ----- The run that breaks the promise

  function Stops(n: nat, live: set<string>): seq<Step> { seq(n, _ => StopNext(Done, live)) }

  /** From a state that is about to run a command, its stops can all return done when none of their units is live. */
  lemma {:induction false} StopsRun(w: World, s: State, steps: seq<Step>, cmd: Command, n: nat)
    requires Run(w, s, steps) == Some(State(s.live, None, Some(Running(cmd, 0, true)))) && n <= |cmd.stop|
    requires forall k :: 0 <= k < |cmd.stop| ==> cmd.stop[k] !in s.live
    ensures Run(w, s, steps + Stops(n, s.live)) == Some(State(s.live, None, Some(Running(cmd, n, true))))
  {
    if n == 0 {
      assert steps + Stops(0, s.live) == steps;
    } else {
      StopsRun(w, s, steps, cmd, n - 1);
      var all := steps + Stops(n, s.live);
      assert all[..|all| - 1] == steps + Stops(n - 1, s.live);
    }
  }

  /** u runs but is recorded as not found: picking v leaves u alone and starts v beside it. */
  lemma SecondInstance(w: World, u: string, v: string, caption: string)
    requires u in w.recordable && IsOption(w, u) && u !in w.cannotRun && v !in w.cannotRun && u != v
    requires caption != OFF && Choose(w.options, caption) == Some(v)
    ensures !AlwaysExclusive(w)
  {
    var s := State({u}, None, None);
    var cmd := CommandFor(w.options, caption, {u}).value;
    var steps := ReachStops(w, u, v, caption);
    hide Run, CommandFor, AlwaysExclusive;
    StopsRun(w, s, steps, cmd, |cmd.stop|);
    var stopped := State({u}, None, Some(Running(cmd, |cmd.stop|, true)));
    RunExtend(w, s, steps + Stops(|cmd.stop|, {u}), StartChosen(Done, {u, v}), stopped);
    var all := steps + Stops(|cmd.stop|, {u}) + [StartChosen(Done, {u, v})];
    NotExclusive(w, s, all, u, v);
  }

  /** Snapshots that record u, and nothing else, as not found. */
  function OnlyNotFound(u: string): U.Snapshots {
    map[u := U.Snapshot(u, u, USER, true, StatusMapping.Triple("inactive", "dead", "not-found"), 0, "", "", "", 0)]
  }

  lemma OnlyThat(options: seq<SelectOption>, u: string)
    requires exists i :: 0 <= i < |options| && options[i].unitID == u
    ensures NotFound(options, OnlyNotFound(u)) == {u}
  {
    var i :| 0 <= i < |options| && options[i].unitID == u;
    assert options[i] in options && RecordedNotFound(OnlyNotFound(u), options[i].unitID);
  }

  /** The pick of v gets to the worker, and does not stop u. */
  lemma ReachStops(w: World, u: string, v: string, caption: string) returns (steps: seq<Step>)
    requires u in w.recordable && IsOption(w, u) && u != v && caption != OFF && Choose(w.options, caption) == Some(v)
    ensures CommandFor(w.options, caption, {u}).Some?
    ensures var cmd := CommandFor(w.options, caption, {u}).value;
      && cmd.start == Some(v) && u !in cmd.stop
      && Run(w, State({u}, None, None), steps) == Some(State({u}, None, Some(Running(cmd, 0, true))))
  {
    var s := State({u}, None, None);
    var cmd := CommandFor(w.options, caption, {u}).value;
    OnlyThat(w.options, u);
    var pick := Pick(caption, OnlyNotFound(u));
    hide NotFound, OnlyNotFound;
    RunExtend(w, s, [], pick, s);
    hide Run, CommandFor;
    assert [] + [pick] == [pick];
    RunExtend(w, s, [pick], Take, State({u}, Some(cmd), None));
    steps := [pick] + [Take];
  }

  lemma NotExclusive(w: World, s: State, steps: seq<Step>, u: string, v: string)
    requires Initial(w, s) && Run(w, s, steps).Some? && u != v
    requires u in Run(w, s, steps).value.live && v in Run(w, s, steps).value.live
    ensures !AlwaysExclusive(w)
  {
    hide Run, Initial;
  }

  /** The one-instance promise holds over all runs exactly when the not-found records can be trusted. */
  lemma ExclusiveIffTrusted(w: World)
    ensures AlwaysExclusive(w) <==> RecordsTrusted(w)
  {
    if RecordsTrusted(w) {
      forall s, steps | Initial(w, s) && Run(w, s, steps).Some? ensures AtMostOne(Run(w, s, steps).value.live) {
        TrustedIsExclusive(w, s, steps);
      }
    } else {
      var u, v :| u in w.recordable && IsOption(w, u) && u !in w.cannotRun && Choosable(w, v) && v !in w.cannotRun && u != v;
      var caption :| caption != OFF && Choose(w.options, caption) == Some(v);
      SecondInstance(w, u, v, caption);
    }
  }
}
