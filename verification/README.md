# Systemd2MQTT, verified

Systemd2MQTT publishes the state of systemd units to an MQTT broker as Home Assistant entities, and takes commands
back. One event loop turns lossy hints (bus signals, MQTT callbacks, timers) into a retained view on the broker. This
project models that daemon in Dafny and proves what its retained view, its selects, its supervisor and its
configuration checks guarantee, over every run and every input. `dafny verify dfyconfig.toml` checks all of it.

Code that the daemon runs step by step is a class or a method with loops, proved against a function of the old state.
The properties are lemmas about those functions. Where goroutines interleave, each atomic section is one step of a
transition system, and the lemmas are about every sequence of steps.

| file | what it models |
|---|---|
| `Config.dfy` | expansion of templates, `Validate`, lookups (`internal/config`) |
| `Topics.dfy`, `Discovery.dfy` | topic builders, parser, subscriptions, retained topics, components (`internal/ha`) |
| `TopicFilter.dfy`, `PublishQueue.dfy` | wildcard matcher and routing, the outbound queue with `Close` (`internal/mqtt`) |
| `StatusMapping.dfy`, `Supervisor.dfy` | alias-aware matching of answers, dial and redial (`internal/systemd`) |
| `UnitState.dfy`, `PublishCache.dfy` | snapshots, the last-payload cache against rendering from scratch (`internal/app`) |
| `Published.dfy` | the literal payloads after any run, and the events that decide them |
| `EventLoop.dfy` | the loop with its queue, flags, timers and repair, as a transition system |
| `Supervised.dfy` | the loop and a supervisor in turn: what the loop assumes of a supervisor is what it does |
| `Hints.dfy`, `BusNews.dfy`, `Connects.dfy`, `Retention.dfy` | what becomes of hints, bus states, connects and sent messages over whole runs |
| `App.dfy` | the loop object, each handler proved equal to its transition |
| `Commands.dfy` | which message commands which unit or select |
| `Mailbox.dfy`, `TemplateSelect.dfy`, `Outcome.dfy` | newest-wins mailbox, exclusive select, and both from a query or a pick to what is published |
| `Failures.dfy` | configurations that load and possible runs in which a promise fails |
| `Text.dfy` | splitting at '/' |

What the comments and documents of the source promise and its code does not give is stated as it is: the exact condition,
and a configuration that loads or a possible run that fails.

* `notify` drops the newest state when its buffer is full, and a full queue drops what the forwarder holds. The exact
  condition over whole runs is `BusNews.QuietViewIff`; `Failures.BusStateIsDropped` and `Failures.LastChangeIsDropped`
  are runs that lose the final state. A poll tick repairs it (`EventLoop.TickSettlesBus`).
* A dropped wake event leaves its flag up for good (`Hints.WedgedIffDropped`, `Hints.DroppedWakeWedges`,
  `Failures.WakeIsDropped`). Polling keeps the scope fresh (`EventLoop.TwoTicksReconcile`).
* A republish sends only availability for an unavailable display (`PublishCache.RepublishHeals`,
  `Failures.DisplayValuesStayLost`).
* The matcher does not see the empty last level of a filter that ends in '/' (`TopicFilter.ExactFilters`), and it lets a
  leading wildcard match topics that start with '$' (`TopicFilter.ExactWithSystemTopics`).
* A status topic that ends in '/' or holds a wildcard level is accepted, and then the subscriptions bring in topics that
  the parser does not know (`Topics.ParseIffSubscribed`, `Failures.SlashStatusDisagrees`).
* A status topic inside the daemon's own command topics is accepted, and its messages are then handled twice
  (`Topics.RoutedOnceIff`, `Failures.StatusTopicHandledTwice`).
* Without an alias table an alias can be reported as not found (`StatusMapping.ExactInOrder`,
  `StatusMapping.AliasLostWithoutTable`).
* An instance that runs but was recorded as not found is not stopped (`TemplateSelect.ExclusiveIffTrusted`,
  `TemplateSelect.SecondInstance`).
* Duplicate captions, and the caption "off", are accepted, and then some instance cannot be picked (`Outcome.AllReachableIffGood`,
  `Failures.DuplicateCaptionsAccepted`, `Failures.OffCaptionAccepted`).
* `Close` on a live link with a full queue never gets "offline" out (`PublishQueue.OfflineIffRoom`,
  `Failures.CloseLosesOffline`).

## Model

| member | source | states |
|---|---|---|
| TopicFilter.IndexOrEnd | internal/mqtt/client.go:382-389 | the next '/' at or after an index, or the end, with no '/' skipped |
| TopicFilter.WalkLevels | internal/mqtt/client.go:362-379 | the index walk stays in bounds and computes level-by-level matching of the levels that it sees |
| TopicFilter.WalkIsMatches | internal/mqtt/client.go:358-380 | the walk over levels agrees with the declarative level matching of section 4.7.1 of MQTT 3.1.1 |
| TopicFilter.TopicMatches | internal/mqtt/client.go:358-380 | for every filter that does not end in '/', and every topic, the result is level matching (section 4.7.1) |
| TopicFilter.AcceptsIsStandard | internal/mqtt/client.go:358-380 | the same for the specification function |
| TopicFilter.ExactFilters | internal/mqtt/client.go:363-379 | the result is level matching on all topics if and only if the filter does not end in '/' or has a "#" level |
| TopicFilter.ExactWithSystemTopics | internal/mqtt/client.go:358-380 | with the rule of section 4.7.2 on topics that start with '$': the same, and the filter must not start with a wildcard |
| TopicFilter.OverlapExact | internal/mqtt/client.go:191-204 | a level-by-level test decides whether some topic is matched by a command filter and by another filter |
| TopicFilter.SlashAlone | internal/mqtt/client.go:363-379 | a filter that ends in '/' without "#" accepts the topic without that '/', which level matching does not |
| TopicFilter.HashMatchesParent | internal/mqtt/client.go:358-380 | "a/#" matches "a" (section 4.7.1.2) |
| TopicFilter.MatchesLiteralPrefix | internal/mqtt/client.go:358-380 | literal levels in front of a filter match exactly the topics that start with them |
| TopicFilter.Route | internal/mqtt/client.go:191-204 | exactly the subscriptions that match a topic are called |
| Config.SlugShape | internal/config/config.go:569-574 | a generated id never starts or ends with '_', and only its length can make it invalid, for names in any script |
| Config.SlugWords | internal/config/config.go:566-574 | a generated id is the words of the lower-case name, made of Latin letters and digits, joined by single '_' |
| Config.IDExact | internal/config/config.go:566-574 | an id is the explicit one, or else these words of the name without a ".service" at its end |
| Config.SplitTemplate | internal/config/config.go:598-604 | a name splits between the two characters of its first "@.", if that is neither at the start nor at the end, and otherwise not at all |
| Config.SplitExact | internal/config/config.go:598-604 | with the characters: the first "@." splits the name if something is before and after it, and otherwise nothing does |
| Config.DisplayNameExact | internal/config/config.go:589-595 | a template is called by its name without ".service", with a capital first letter |
| Config.ExpandInstances | internal/config/config.go:321-338 | one unit and one option per instance, in order |
| Config.Loader.constructor | internal/config/config.go:302-304 | starts from the configured units and templates |
| Config.Loader.Expand | internal/config/config.go:302-344 | expands template by template, and fails exactly when some name is no template name |
| Config.ExpandStep | internal/config/config.go:302-344 | a template adds one unit per instance; an exclusive one adds one select whose options are these units, any other adds none |
| Config.ExpandFields | internal/config/config.go:307-341 | field by field: name, id, scope, both flags, template id and caption of each unit, and scope, id, name and options of the select |
| Config.ExpansionPlaced | internal/config/config.go:302-344 | every select's options are a block of consecutive units of its scope, in order, and it comes from a template of its id |
| Config.SelectsDistinct | internal/config/config.go:302-344 | distinct template ids give distinct select ids |
| Config.NameKeyInjective | internal/config/config.go:401-405 | the key of the duplicate-name lookup stands for exactly one scope and name |
| Config.NodeIDExact | internal/config/config.go:346 | an id has one to 64 characters, lower-case Latin letters, digits, '_' and '-' |
| Config.UnitOKExact | internal/config/config.go:378-400 | which names, scopes and ids a unit may have, character by character |
| Config.TemplateOKExact | internal/config/config.go:428-440 | which ids and instance names a template may have |
| Config.NodeOKExact | internal/config/config.go:351-456 | which base topics and poll intervals are in order |
| Config.ComponentsExact | internal/config/config.go:406-412 | the two to four component ids of a unit |
| Config.CheckComponents | internal/config/config.go:406-420 | reports a component exactly when a unit of another id uses it already |
| Config.CollisionsReported | internal/config/config.go:406-420 | over the units so far, the check finds nothing in one more unit if and only if no two units of different ids share a component |
| Config.LookupsDecide | internal/config/config.go:394-420 | the three lookups decide exactly whether a unit is apart from all units before it |
| Config.ValidateUnits | internal/config/config.go:370-421 | no problem if and only if the units are well-formed and pairwise differ in id, in name within a scope, and in every component |
| Config.ValidateTemplates | internal/config/config.go:422-441 | no problem if and only if the templates are well-formed with distinct ids |
| Config.ValidateRest | internal/config/config.go:354-456 | no problem if and only if broker, qos, TLS files, off mode, job mode, job timeout and log level are in order |
| Config.Loader.Validate | internal/config/config.go:349-458 | no problem if and only if every setting, the units and the templates are in order |
| Config.ValidatedIsAccepted | internal/config/config.go:302-458 | what an expanded and validated configuration gives the daemon: unique ids, names and components, placed and non-empty selects |
| Config.LoadableIsAccepted | internal/config/config.go:180-458 | so does every configuration that a file can be loaded as |
| Config.Scopes | internal/config/config.go:488-496 | the scopes that have a unit, each once, user first |
| Config.UnitsForScopeOrder | internal/config/config.go:467-475 | exactly the units of a scope, in configuration order, each as often as configured |
| Config.SelectOfFirst | internal/app/app.go:399-406 | the first select of an id, or none |
| Config.UnitByIDFirst | internal/config/config.go:478-485 | the first unit of an id, or none |
| Config.UnitByIDMember | internal/config/config.go:394-400 | in an accepted configuration every unit is found under its own id |
| Topics.PathLevels | internal/ha/topics.go:27-71 | every topic is the node root followed by its own levels |
| Topics.Layout | internal/ha/topics.go:27-71 | the literal levels of each topic below base topic and node |
| Topics.DisplayLayout | internal/ha/topics.go:40-45 | those of the display |
| Topics.DiscoveryLevels | internal/ha/topics.go:48-50 | those of the discovery payload |
| Topics.PathInjective | internal/ha/topics.go:27-71 | no two topics share a path |
| Topics.ParseBuilt | internal/ha/topics.go:27-100 | parsing a built command topic returns its kind and id, and a built state topic is no command |
| Topics.ParseLevels | internal/ha/topics.go:73-100 | the parser looks only at the levels below the node root |
| Topics.ParseExact | internal/ha/topics.go:27-100 | apart from the status topic, a topic parses as a command if and only if it is the topic built for that command |
| Topics.Subscriptions | internal/ha/topics.go:103-112 | the filters, in order |
| Topics.SubscriptionsBring | internal/ha/topics.go:103-112 | for every choice of display and Home Assistant, exactly which topics the subscriptions bring in |
| Topics.ParseIffSubscribed | internal/ha/topics.go:73-112 | with display and Home Assistant enabled, parser and subscriptions agree on every topic (but for empty wildcard levels) if and only if the status topic is a wildcard filter itself, or has no wildcard level and adds no unknown topic by a trailing '/' |
| Topics.CommandsBring | internal/ha/topics.go:73-112 | apart from the status topic, a topic parses if and only if a command subscription matches it with a non-empty wildcard level |
| Topics.CommandsApart | internal/ha/topics.go:103-112 | two different command filters never match the same topic |
| Topics.RoutedOnceIff | internal/mqtt/client.go:191-204 | no message is handled twice if and only if no other subscription can match a topic that the status topic matches |
| Topics.RetainedTopics | internal/ha/topics.go:115-129 | the list that is cleared on removal, group by group |
| Topics.RetainedExact | internal/ha/topics.go:115-129 | it holds exactly the states, attributes and availabilities of what is configured |
| Topics.RetainedDistinct | internal/ha/topics.go:115-129 | for an accepted configuration it has no duplicates |
| Topics.RetainedTopicsDistinct | internal/ha/topics.go:73-129 | the same for the paths, and none of them parses as a command |
| Discovery.Builder.Add | internal/ha/discovery.go:37-40 | one add call is recorded and shows in the map |
| Discovery.Builder.AddUnit | internal/ha/discovery.go:49-98 | the switch and the state sensor always, the problem sensor and the restart button when wanted, each on the unit's own topics |
| Discovery.Builder.AddDisplay | internal/ha/discovery.go:117-145 | the display entities that the configuration exposes |
| Discovery.BuildDiscovery | internal/ha/discovery.go:21-200 | for an accepted configuration the map holds each entity with exactly its own state, command, attributes and availability topics, and no other entity; the component count is the sum over units, selects, display, scopes and 3 |
| Discovery.PayloadExact | internal/ha/discovery.go:49-186 | the same for the specification, entity by entity |
| Discovery.OnlyEntities | internal/ha/discovery.go:49-186 | every id in the map is that of a configured entity |
| Discovery.NeverOverwrites | internal/ha/discovery.go:37-186 | the same for the specification: no component is overwritten |
| Discovery.CollisionCheckExact | internal/config/config.go:394-420 | all unit components of the payload are distinct if and only if the unit ids are and the component check finds no collision |
| Discovery.DiscoveryTopics | internal/ha/discovery.go:49-186 | every state, attribute and availability topic referred to is a retained topic, and every command topic parses back to its command |
| StatusMapping.Conn.constructor | internal/systemd/conn.go:47-90 | starts watching the configured names with no alias known |
| StatusMapping.Conn.ResolveAliases | internal/systemd/conn.go:106-125 | records each name answered under another name, watches the primaries too, and changes nothing on a failed or short answer |
| StatusMapping.AliasesNamed | internal/systemd/conn.go:106-125 | a name is recorded exactly when an entry at its position carries another, non-empty, name, and then with the last such name |
| StatusMapping.IndexByName | internal/systemd/conn.go:186-196 | the table has exactly the answered names, each with the last entry of that name |
| StatusMapping.MapStatuses | internal/systemd/conn.go:186-224 | each name maps to the last entry of the name, then of its recorded primary name, then to the entry at its position if that belongs to no asked name, and else to inactive, dead, not-found |
| StatusMapping.AliasesRecorded | internal/systemd/conn.go:106-125 | a truthful lookup records exactly the names that are not their own primary, with their primary |
| StatusMapping.ListedIffPrimary | internal/systemd/conn.go:186-224 | in a truthful answer, in any order, a name is listed if and only if it is its own primary |
| StatusMapping.ExactWithAliases | internal/systemd/conn.go:106-125 | with the recorded aliases the mapping is exact for a truthful answer in any order |
| StatusMapping.ExactInOrder | internal/systemd/conn.go:186-224 | with a partial or empty table an in-order answer is mapped exactly if and only if every hidden alias is of a unit that is inactive, dead and not-found anyway |
| StatusMapping.AliasLostWithoutTable | internal/systemd/conn.go:204-213 | the failing case: a running unit's alias reported as inactive, dead and not-found |
| Supervisor.Supervisor.constructor | internal/systemd/supervisor.go:42-54 | starts offline, with no manager and no failure |
| Supervisor.Supervisor.Install | internal/systemd/supervisor.go:100-110 | a new manager opens a new generation with no failure, and a stale redial is drained |
| Supervisor.Supervisor.TearDown | internal/systemd/supervisor.go:123-126 | offline and without a manager, the rest untouched |
| Supervisor.Supervisor.Notify | internal/systemd/supervisor.go:157-163 | a full buffer drops the value that is being sent |
| Supervisor.Supervisor.RequestRedial | internal/systemd/supervisor.go:165-170 | a redial is queued, at most one |
| Supervisor.Supervisor.BeginQuery | internal/systemd/supervisor.go:175-182 | the current manager and generation, or offline |
| Supervisor.Supervisor.FinishQuery | internal/systemd/supervisor.go:185-203 | counts a completion of the current generation only, and asks for a redial on a disconnect or a second failure |
| Supervisor.LastStateDelivered | internal/systemd/supervisor.go:157-163 | one send: the newest state is last in the channel if and only if there was room or it was last already |
| Supervisor.JustifiedAppend | internal/systemd/supervisor.go:185-203 | exactly which completion makes a redial justified |
| Supervisor.StepKeepsManagers | internal/systemd/supervisor.go:81-136 | each step keeps generation, current manager and closed managers in line |
| Supervisor.StepKeepsFailures | internal/systemd/supervisor.go:165-203 | each step keeps the failure counter and the redial token in line with the completions so far |
| Supervisor.RedialExactlyWhenJustified | internal/systemd/supervisor.go:81-204 | in every interleaving with queries: online iff a manager is set; at most one failure counted; while waiting, a redial is queued iff the current generation justifies it; each teardown is justified or cancelled; every manager is closed before the next dial |
| Commands.TrimSpaceExact | internal/app/commands.go:17-43 | a payload is cut back by exactly the white space at its two ends |
| Commands.UnitCommandExact | internal/app/commands.go:17-64 | a unit is commanded by exactly the unretained messages to its own set topic, started by ON, on, 1 and true, stopped by OFF, off, 0 and false, restarted by RESTART and restart |
| Commands.SelectCommandExact | internal/app/commands.go:32-72 | a select is picked by exactly the unretained messages to its own set topic, with the trimmed payload as caption |
| Commands.DisplayCommandExact | internal/app/commands.go:74-91 | which unretained messages write which display mode: on, the configured off mode, and the modes by name or number |
| Commands.ExitExact | internal/app/commands.go:93-95 | exactly the unretained messages to the restart topic end the daemon |
| Commands.OnlyBirthRepublishes | internal/app/commands.go:32-52 | a retained message never commands anything, and exactly "online" on the status topic asks for a republish |
| Mailbox.Mailbox.constructor | internal/app/commands.go:108-117 | an empty mailbox |
| Mailbox.Mailbox.OfferReplace | internal/app/commands.go:126-142 | the new command waits afterwards, and the result says whether one was replaced |
| Mailbox.NewestWins | internal/app/commands.go:108-154 | in every interleaving with the worker no put is lost, the newest command waits or was taken last, commands run in order, and every command is accounted for |
| Mailbox.RefinesAtomicReplace | internal/app/commands.go:126-142 | the three channel operations refine one atomic replacement |
| TemplateSelect.Choose | internal/app/commands.go:209-219 | the first option of a caption, or none |
| TemplateSelect.StopListOrder | internal/app/commands.go:220-237 | exactly the option units that are neither chosen nor recorded as not found, in option order |
| TemplateSelect.DispatchTemplate | internal/app/commands.go:206-238 | a command for "off" and for captions of options only; it starts the first option of the caption, and stops exactly the other options but those whose snapshot is known with load "not-found" |
| TemplateSelect.CommandExact | internal/app/commands.go:206-238 | the same for the specification |
| TemplateSelect.RunTemplate | internal/app/commands.go:265-295 | stops run in order; the start runs if and only if all of them ran and returned done; success means that all stops are down and the start is live; every execution is a run of the worker's steps |
| TemplateSelect.CleanRunCarries | internal/app/commands.go:265-295 | a run of the steps whose jobs all return done leaves the chosen instance live and the stopped ones down |
| TemplateSelect.TrustedIsExclusive | internal/app/commands.go:206-295 | over every run, including failed and timed-out jobs that take effect later, at most one instance is active or start-pending |
| TemplateSelect.TrueRecordsExclusive | internal/app/commands.go:206-295 | in every run, if no snapshot of a pick knows an instance as "not-found" that systemd could run, at most one instance is live |
| TemplateSelect.SecondInstance | internal/app/commands.go:232-235 | an instance that runs but is recorded as not found gets a second one beside it |
| TemplateSelect.ExclusiveIffTrusted | internal/app/commands.go:206-295 | the one-instance promise holds over all runs if and only if the not-found records can be trusted |
| UnitState.State.constructor | internal/app/state.go:46-61 | one empty snapshot per unit, in order, with byName the inverse of the ids |
| UnitState.State.ApplyUnit | internal/app/state.go:71-86 | records one status, reports a change iff the triple moved or it is the first one, and ignores unknown names |
| UnitState.State.SetJobResult | internal/app/state.go:90-103 | records verb, result, error and time of a job, and leaves everything else of the unit alone |
| UnitState.State.TemplateState | internal/app/state.go:126-141 | the caption, the active captions in option order, and whether any option is known |
| UnitState.InverseUnique | internal/app/state.go:46-61 | the units determine byName: there is only one index that is the inverse of their ids |
| PublishCache.AcceptedHasPlan | internal/app/state.go:46-61 | every accepted configuration can be started: NewState's index is the inverse that the loop relies on |
| UnitState.CaptionOfFirst | internal/app/state.go:126-141 | the caption is that of the first option whose unit is on, and "off" when none is |
| UnitState.ActiveOrder | internal/app/state.go:126-141 | the active captions are those of the options that are on, in option order |
| UnitState.ShowsOnExact | internal/app/state.go:34-36 | on means known and active, activating or reloading |
| UnitState.ApplyAllAdvances | internal/app/state.go:71-86 | an answer never renames a unit, never makes a known unit unknown, and touches no unit of the other scope |
| UnitState.ApplyAllExact | internal/app/reconcile.go:43-55 | each unit gets exactly the status that names it, and a unit not named keeps its snapshot |
| UnitState.ReconcileExact | internal/app/reconcile.go:36-57 | for an accepted configuration a successful reconcile leaves every unit of the scope known with exactly the queried state, its time of change moves iff that state is new, and the other scope is untouched |
| PublishCache.PutLast | internal/app/publish.go:15-28 | skipping repeated payloads or not, the cache afterwards holds what was published and is unchanged elsewhere |
| PublishCache.PutKeeps | internal/app/publish.go:15-28 | when a state change may be followed by publishing only some topics and leave the cache right |
| PublishCache.ReconciledKeeps | internal/app/reconcile.go:26-63 | a reconcile keeps the cache equal to rendering, although selects lag behind while it runs |
| PublishCache.BusChangeKeeps | internal/app/app.go:264-275 | so does a bus change, which makes the bus and the diagnostics due |
| PublishCache.DisplayKeeps | internal/app/app.go:276-285 | so do the display events, which make display availability and the diagnostics due |
| PublishCache.JobKeeps | internal/app/reconcile.go:67-84 | so does a job outcome, which changes only the unit's attributes |
| PublishCache.RepublishKeeps | internal/app/publish.go:38-74 | so does a full republish, which makes discovery, every availability and the diagnostics due |
| PublishCache.CacheAlwaysRendered | internal/app/publish.go:15-212 | after every event of any run the cache holds exactly the topics that are due, each as rendered from the state: units and selects iff known, a bus once it was told about, the display once it answered, everything after a republish |
| Published.RunTells | internal/app/publish.go:15-212 | after any run the cache holds, literally: "ON" for known units that are active, activating or reloading and "OFF" for the other known ones, the caption of the first option that runs or "off", "online" or "offline" for each bus and the display, the display's switch, mode name and attributes, and the diagnostics |
| Published.LoopTells | internal/app/app.go:138-349 | the same in every state that the loop can reach |
| Published.RunHears | internal/app/app.go:255-314 | in any run each bus, the display, the reconnect count, each unit's job and the republish are as the last operation of their kind said |
| Published.EventTold | internal/app/app.go:255-314 | what each event of the loop changes of buses, display and jobs, and that no other event does |
| Published.EventQueries | internal/app/app.go:255-314 | exactly a reconcile that is due and a bus that comes online take over queried states, and no other event touches them |
| Published.EventArms | internal/app/app.go:286-349 | the republish timer is armed for two seconds by a connect and by "online" on the status topic, and by nothing else |
| PublishCache.OnlyQueriesMoveSwitches | internal/app/reconcile.go:22-84 | no event but a reconcile changes a unit's ON or OFF or a select's caption |
| PublishCache.IncrementalMirrors | internal/app/publish.go:15-28 | in any run a broker that got everything sent agrees with the cache, and every topic sent is cached |
| PublishCache.RepublishHeals | internal/app/publish.go:38-74 | whatever was lost, a republish that arrives puts all it covers on the broker, which then agrees on everything ever published iff the display is available or its three values agreed before |
| PublishCache.AvailableOnlyWhenFresh | internal/app/publish.go:34-74 | at every point of a republish the daemon shows as available only once everything else has arrived |
| PublishCache.RepublishOrder | internal/app/publish.go:34-74 | discovery is sent first and the daemon's availability last |
| PublishCache.SentIffNew | internal/app/publish.go:15-28 | a payload is sent exactly when it is forced or differs from the cached one |
| EventLoop.PollScopesKeeps | internal/app/app.go:327-337 | each scope in a tick is reconciled, or only learned to be offline |
| EventLoop.HandleKeeps | internal/app/app.go:255-314 | handling any event keeps the cache, the wake flags, the timer and the wanted flag right |
| EventLoop.LoopAlways | internal/app/app.go:138-349 | in every reachable state the cache is exactly the rendering, and at most one wake of a scope is queued and only while its flag is up |
| EventLoop.RepublishSchedules | internal/app/publish.go:70-72 | after a republish every configured scope waits for a reconcile, with one timer started for each that did not wait before |
| EventLoop.TwoTicksReconcile | internal/app/app.go:320-339 | whatever is dropped, two poll ticks reconcile every configured scope at least once |
| EventLoop.TickKeepsTimer | internal/app/app.go:320-349 | a tick never postpones a republish whose timer runs |
| EventLoop.ArmedEveryPeriod | internal/app/app.go:304-349 | with ticks at the validated distance and the flag up, the republish timer is armed in every poll period |
| EventLoop.TickSettlesBus | internal/app/app.go:327-337 | one tick makes the loop's view and the cached availability the supervisor's state, whatever is still on its way, and settles it once nothing is; only a bus that is offline and was never told about is absent |
| EventLoop.StaysSettled | internal/app/app.go:238-337 | and so they stay in every run until the supervisor changes |
| Hints.WedgedIffDropped | internal/app/app.go:244-260 | a wake flag is up with no wake queued if and only if a wake of that scope was dropped |
| Hints.DroppedWakeWedges | internal/app/app.go:244-260 | and then no wake of that scope is queued again in any run |
| Hints.CoveredAlways | internal/app/reconcile.go:14-32 | a debounce flag is only up while a reconcile is on its way, as long as no timer event is dropped |
| Hints.HintIsFollowed | internal/app/reconcile.go:14-32 | every handled wake, job outcome and select outcome is followed by a reconcile of its scope |
| Hints.RequestIsFollowed | internal/app/app.go:286-310 | every handled connect and birth message is followed by a republish, unless the timer's event is dropped |
| Connects.WantedIffUnanswered | internal/app/app.go:174-179 | in every run the wanted flag is up if and only if some connect callback came after which no republish began |
| Connects.ConnectIsAnswered | internal/app/app.go:304-325 | when the flag is down after a connect callback and no republish is under way, a republish that began after the callback sent its whole batch |
| BusNews.RightIffNotLost | internal/app/app.go:238-337 | in every run the newest bus state on its way to the loop is the supervisor's if and only if the last step that decided about it did not drop it for a different one |
| BusNews.QuietViewIff | internal/systemd/supervisor.go:56-163 | so once nothing is on its way, the loop's view and the cached availability are the supervisor's state exactly then |
| Supervised.SupervisorSeen | internal/systemd/supervisor.go:81-163 | each step of a supervisor is one flag change, one announcement, or nothing to the loop |
| Supervised.JointIsRun | internal/systemd/supervisor.go:81-203 | in every interleaving of the loop with a supervisor and its queries, the loop's system sees a run of its own, and its flag and what is still to be announced are the supervisor's |
| Supervised.OwnRunIsJoint | internal/systemd/supervisor.go:81-203 | every run of a supervisor is its part of such an interleaving |
| Supervised.RunIffJoint | internal/app/app.go:232-242 | a sequence of steps is a run of the loop's system if and only if some such interleaving is seen as it |
| Supervised.TickSeesManager | internal/app/app.go:327-337 | after a tick in any such interleaving the loop's view and the cached availability say whether the supervisor has a manager |
| Retention.LoopReached | internal/app/app.go:138-339 | every state of the loop is the outcome of a sequence of its publishing operations |
| Retention.LeadsGrows | internal/app/publish.go:15-28 | what was sent stays sent, in order |
| Retention.BrokerIsRendered | internal/app/publish.go:15-212 | in every run of the loop, a broker that got everything sent holds exactly the topics that are due, each as rendered from the loop's state |
| Retention.CachedIsRetained | internal/ha/topics.go:115-129 | every topic that the cache can hold is cleared on removal |
| Retention.SentIsRetained | internal/ha/topics.go:115-129 | no run sends to a topic that is not cleared on removal or that would come back as a command |
| App.App.constructor | internal/app/app.go:93-132 | for an accepted configuration the loop object starts valid and in the initial state |
| App.App.Publish | internal/app/publish.go:15-28 | sends and caches a payload unless it is cached and nothing is forced |
| App.App.PublishUnit | internal/app/publish.go:117-145 | "ON" or "OFF", and the attributes, of a known unit, and nothing of an unknown one |
| App.App.PublishBus | internal/app/publish.go:87-93 | the availability of one bus |
| App.App.PublishTemplate | internal/app/publish.go:149-160 | a select once any of its units is known |
| App.App.PublishDisplay | internal/app/publish.go:165-185 | four topics of an available display, otherwise its availability only |
| App.App.PublishDaemonState | internal/app/publish.go:189-212 | the diagnostics |
| App.App.RepublishAll | internal/app/publish.go:38-74 | everything forced out in order, availability last, then every scope is scheduled and the display asked |
| App.App.ScheduleReconcile | internal/app/reconcile.go:14-20 | the first hint starts a timer, later ones fold into it |
| App.App.ReconcileScope | internal/app/reconcile.go:26-63 | lowers the flag, and applies and publishes a whole answer status by status |
| App.App.HandleJobDone | internal/app/reconcile.go:67-84 | records the outcome, publishes a known unit and schedules its scope |
| App.App.HandleBus | internal/app/app.go:264-275 | records and publishes a bus state, and reconciles when online |
| App.App.ApplyDisplay | internal/app/app.go:516-524 | records and publishes a mode |
| App.App.DisplayLost | internal/app/app.go:278-284 | the display is offline |
| App.App.UnitScope | internal/config/config.go:478-485 | the scope of the unit of an id |
| App.App.SelectByID | internal/app/app.go:399-406 | the select of an id |
| App.App.RequestFullPublish | internal/app/app.go:342-349 | (re)arms the republish timer |
| App.App.Enqueue | internal/app/app.go:223-229 | appends an event, or drops it when the queue is full |
| App.App.Handle | internal/app/app.go:255-314 | each event does exactly its transition of the loop, and an inbound message hands on exactly the action that it asks for, a pick as the command built from the snapshots of that moment |
| App.App.HandleInbound | internal/app/commands.go:32-97 | the action of a message, the command that a pick hands to its worker, and the republish timer for the birth message |
| App.App.PollTick | internal/app/app.go:320-339 | a lost republish is asked for again, each bus is resynchronised or its scope reconciled, and the display is asked |
| Outcome.TickShowsAnswers | internal/app/app.go:320-339 | a poll tick whose query works leaves every unit of the scope known with exactly the answered state, and published "ON" if that is active, activating or reloading and "OFF" otherwise, whatever was lost before; a unit whose query fails keeps its snapshot |
| Outcome.PickShownByTick | internal/app/app.go:320-339 | after a select command that succeeded, one poll tick with a truthful query publishes the picked caption, whatever state the loop is in |
| Outcome.UnansweredIsSkipped | internal/systemd/conn.go:211-213 | a unit that an answer has no entry for is recorded as not found, and the next select command does not stop it |
| Outcome.PickIsShown | internal/app/commands.go:206-295 | after a select command that succeeded and a truthful query, the published payload of the select is exactly the picked caption, "off" included |
| Outcome.PickEndToEnd | internal/app/commands.go:206-295 | the same from the mailbox on: the worker takes the command and all its jobs return done |
| Outcome.OptionAfter | internal/app/reconcile.go:36-62 | after a truthful query an option shows on exactly when its unit is live |
| Outcome.EchoIffFirst | internal/app/commands.go:209-219 | picking the caption shown for a running option picks that option if and only if its caption is not "off" and belongs to no earlier option |
| Outcome.AllReachableIffGood | internal/config/config.go:422-441 | every option can be picked if and only if the captions are distinct and none is "off" |
| PublishQueue.Client.constructor | internal/mqtt/client.go:74-140 | an open client with an empty queue |
| PublishQueue.Client.Enqueue | internal/mqtt/client.go:252-265 | accepts a message unless the client is closed or the queue is full |
| PublishQueue.Client.BeginClose | internal/mqtt/client.go:333-349 | queues "offline" on an open link and waits only if it was accepted |
| PublishQueue.Client.Take | internal/mqtt/client.go:270-280 | the pump takes the oldest message |
| PublishQueue.Client.Send | internal/mqtt/client.go:282-306 | hands the message to an open link, or skips it |
| PublishQueue.InOrder | internal/mqtt/client.go:248-306 | in every interleaving the link gets an in-order subsequence of what was accepted |
| PublishQueue.HandedIffConnected | internal/mqtt/client.go:268-306 | of the messages taken from the queue, the link is given exactly those whose send finds it up |
| PublishQueue.AllHanded | internal/mqtt/client.go:268-306 | when it is up all the time, it is given every message, in order |
| PublishQueue.NothingFollowsOffline | internal/mqtt/client.go:333-355 | once "offline" is handed over, everything before it has left the queue and nothing follows, timeout or not |
| PublishQueue.DoneMeansDrained | internal/mqtt/client.go:333-355 | when Close sees done, the queue is empty |
| PublishQueue.OfflineIffRoom | internal/mqtt/client.go:333-355 | Close can get "offline" out if and only if the link is up, a topic is given and the queue has room |
| Failures.CamerasExpand | internal/config/config.go:302-344 | an exclusive template with two captioned instances expands to two units, with the ids made from their names, and one select |
| Failures.CamerasLoad | internal/config/config.go:302-458 | it is loaded without a problem for any non-empty captions and status topic |
| Failures.DuplicateCaptionsAccepted | internal/config/config.go:422-441 | two instances of one caption are loaded, and the second cannot be picked |
| Failures.OffCaptionAccepted | internal/config/config.go:422-441 | an instance captioned "off" is loaded and cannot be picked |
| Failures.StatusTopicHandledTwice | internal/mqtt/client.go:191-204 | a configuration is loaded whose status topic is a unit's set topic: its messages are handled twice and command nothing |
| Failures.SlashStatusDisagrees | internal/ha/topics.go:73-112 | a configuration is loaded whose status topic "ha/" brings in "ha", which does not parse |
| Failures.WakeIsDropped | internal/app/app.go:219-247 | a run that fills the loop's queue and leaves a wake flag stuck |
| Failures.BusStateIsDropped | internal/app/app.go:219-247 | a run after which nothing is on its way, the supervisor is online, and the loop's view is not |
| Failures.LastChangeIsDropped | internal/systemd/supervisor.go:157-163 | a run in which the fifth change finds four in the channel and the newest state left is the wrong one |
| Failures.DisplayValuesStayLost | internal/app/publish.go:165-185 | a run and a broker that a republish does not heal |
| Failures.CloseLosesOffline | internal/mqtt/client.go:252-355 | a run that fills the client's queue, after which Close never gets "offline" out |

## Left out

- D-Bus, the MQTT library, TLS, files, YAML, signals and sd_notify: foreign calls. Their outcomes are parameters or
  free choices of the steps.
- `internal/display/mutter.go` and the dialing in `runDisplay`: only the display events that reach the loop are modelled.
- Payload texts: attributes, display, diagnostics and discovery payloads are functions of the state they are made
  from. Icons and friendly texts of discovery are left out.
- Config.Loader.Validate: parsing the broker URL is a foreign call; what it yields is a parameter.
- UnitState.State.constructor: byName is one map with scope and name as key, where the source nests two maps.
- The maps of running workers are left out; a worker and its mailbox are modelled by `Mailbox` and `TemplateSelect`.
- App.App.PollTick: whether a display is connected, and its answer, come from outside the loop; every tick counts as one
  request, and the answer is an event.
- EventLoop.LoopAlways: one handler is one step, except that a republish begins and ends in two, so that a connect can
  fall between them. The supervisors do not change within a step, and the reconnect count is read once per step.
- Supervised.RunIffJoint: one supervisor at a time stands beside the loop; the other scope's is the loop system's own.
- EventLoop.ArmedEveryPeriod: ticks are at least the poll interval apart; jitter of the ticker is left out.
- Hints.HintIsFollowed: a reconcile timer fires at any time after it was started, not after exactly its delay.
- `RepublishAll` called from outside, with its wait for the loop: it posts the same event.
- TemplateSelect.ExclusiveIffTrusted: nothing but the select starts its instances, and at first at most one is live.
- Supervisor.RedialExactlyWhenJustified: the dial's own backoff and the forwarding of wake hints are left out.
- PublishQueue.InOrder: publishing and closing happen on one goroutine, as they do in the daemon.
- `cmd/systemd2mqtt`, `internal/version`, `internal/ha/polkit.go`, packaging: wiring and texts.
