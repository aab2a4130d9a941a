# A verified model of the drone swarm

This project models, in Dafny, the parts of a drone-swarm system whose correctness is hardest to see by reading
them, and proves what they are for.

- **Formation fit** (`Matching.dfy`, `FormationFit.dfy`): Kuhn's matching, the bottleneck search and the best
  leader, against the plain definition of "closest".
- **The mission supervisor** (`Planning`, `Supervision`, `Reallocation`, `Supervisor`, `SupervisorRuns`):
  what every run keeps, whatever a planner answers; `LaneRuns` follows the lanes through hand-overs, `StandingOrders`
  says what each drone has last been told, and `LowDrones` which low drones are ordered all the same. `Formations`
  is the shape of the default plan.
- **One drone** (`Offboard`, `DroneControl`, `DroneControllers`, `Autopilot`): what is asked of the autopilot and
  when, and the simulated autopilot itself; `Setpoints` and `Handovers` say where a drone is sent and when it gives
  its vehicle up, `ReturnHome` what the autopilot does on its own. `Flight`, `Approach` and `PathFlight` fly the one
  with the other, from pad to pad.
- **The whole swarm** (`Swarm`, `ReferenceSwarm`, `LaneRecords`, `HonestCompletion`, `Network`): ground, drones and
  a lossy network together; a mission reported complete is complete, and everybody is down
  (`CompleteAndDown`). `ReusedIds` shows why ids must be new.
- **Geometry** (`Geometry`, `Trajectory`, `Deconfliction`): a norm known only as a non-negative root, steps
  counted exactly, and a sampled minimum separation that bounds the true one.
- **The write gates** (`PlanGate`, `PlanStories`, `Idempotency`, `KeyedReplies`, `RepeatedWrites`, `MissionLogs`,
  `InterleavedCalls`): approval codes, idempotency keys, bounded logs and the missions' statuses, over every
  interleaving of their atomic steps.
- **The simulated swarm** (`SimulatedSwarm`, `SimulatedRuns`, `SimulatedOrders`): what its "complete" means, when it is
  over, and what its commands do.

Where the source changes an object, the model is a class whose methods are proved equal to functions on a value
of its state (`View()`); the theorems are lemmas about runs of those functions. `Lists`, `Missions`, `Fleet` and
`Wrappers` hold what several parts share. `dafny verify dfyconfig.toml` checks everything.

Some claims about the source are false as they stand. Each is proved in the form that holds, with the exact condition
and a run that breaks it:

- A low drone is "never given a task" (`supervisor.py:10`): what holds is that every drone entering a plan is fit
  (`EntrantsAreFit`); a re-slotted follower may be low (`LowDroneOrdered` says exactly when, `LowDroneIsOrdered` how).
- A rejected plan stays rejected: exactly when no dispatch of it is under way (`FinalUnlessUnderWay`); and a kept
  code means the plan is approved, except exactly when a code is given back too late (`CodeMeansApprovedUnless`;
  both happen in `RejectedAndThen`).
- Requests are rate-limited: OFFBOARD requests are; arm requests are exactly while the reported mode does not drop
  out between them (`ArmsAgainExactly`, and `ArmRequestsTooClose`).
- At most one run per idempotency key: within the two stated bounds, and both are exact (`RunsTwiceExactly`,
  `TwiceAfterRetention`, `TwiceAfterOthers`).
- A key answers for one request: while its requests are run one at a time (`AnswersAreOwn`; within the same bounds
  always, `RepliesExactly`), and the one step that breaks it is `OwnUnless` (`AnswerAstray`).
- A refused connection means "nothing was done" (`swarm_client.py:9-10`): exactly of a first attempt
  (`UnreachableExactly`).
- A new mission replaces the one before it (`MissionService.cs:38-43`): never two are active exactly when no dispatch
  adds its mission while one that overtook it is flying (`OneActiveExactly`, and `TwoActive`).
- "Complete" is about this mission: exactly when its id is new, or its drones have been where it asks
  (`ReusedIdLies`, and `ReusedIdWitness`).

## Model

| member | source | states |
|---|---|---|
| `Matching.Augment` | swarm_coordination/swarm_coordination/scenarios/fit.py:36-43 | one search, in place: either one more row holds a column and every row that did still does, or nothing has moved and every column it visited is held by a row with nowhere else to go; it ends because each call has fewer columns unseen |
| `Matching.FailureIsDecisive` | swarm_coordination/swarm_coordination/scenarios/fit.py:45-47 | a failed search proves there is no matching at all: the row and the holders of the visited columns are one row too many for those columns |
| `Matching.PerfectMatching` | swarm_coordination/swarm_coordination/scenarios/fit.py:31-51 | sound and complete on every square table: what is returned gives every row an allowed column of its own, and None is returned only if no such assignment exists |
| `FormationFit.Monotone` | swarm_coordination/swarm_coordination/scenarios/fit.py:67-73 | what is feasible under a threshold stays feasible under a larger one |
| `FormationFit.SmallestThreshold` | swarm_coordination/swarm_coordination/scenarios/fit.py:65-77 | the smallest feasible threshold among the distinct costs is the minimum, over all one-to-one assignments, of the largest cost |
| `FormationFit.BottleneckAssignment` | swarm_coordination/swarm_coordination/scenarios/fit.py:54-77 | fails exactly on a table that is not square; otherwise the cost returned is that minimum, the assignment returned pays exactly it, and the assertion never fails |
| `FormationFit.FitAround` | swarm_coordination/swarm_coordination/scenarios/fit.py:95-104 | the fit around one leader: everybody else has a slot of its own, the errors are the distances to the leader's position plus the slot's offset and the largest is the fit's; no other placement around that leader keeps everybody closer |
| `FormationFit.SmallestIsClosest` | swarm_coordination/swarm_coordination/scenarios/fit.py:93-106 | the smallest of the leaders' errors, first come first kept, is the smallest over every admissible leader and assignment, and every earlier leader does strictly worse |
| `FormationFit.FitFormation` | swarm_coordination/swarm_coordination/scenarios/fit.py:80-106 | fails exactly on a wrong count or an unknown leader; otherwise slots are a bijection from the other drones, errors are the distances from each to the leader plus its offset, and under every admissible leader and placement somebody is at least that far off, and further under a leader before the one chosen |
| `Geometry.TriangleInequality` | swarm_coordination/swarm_coordination/trajectory.py:28-32 | the triangle inequality, from the norm being a non-negative root of the squares and nothing else |
| `Geometry.Homogeneity` | swarm_coordination/swarm_coordination/trajectory.py:25-29 | scaling a vector scales its norm |
| `Trajectory.StepDistance` | swarm_coordination/swarm_coordination/trajectory.py:35-47 | a step leaves exactly max_step less to go (or arrives), and moves no further than max_step |
| `Trajectory.StepTowardsDistance` | swarm_coordination/swarm_coordination/trajectory.py:35-47 | the whole call: refused exactly for a step that is not positive, otherwise as above |
| `Trajectory.StepsToCover` | backend/src/SwarmApi.Domain/Trajectory.cs:12-17 | the ceiling of distance / step: enough steps, and one fewer is not enough |
| `Trajectory.ExactNumberOfCalls` | backend/src/SwarmApi.Domain/Trajectory.cs:12-28 | repeated calls are at the target exactly from the ceil(distance / maxStep)-th on |
| `Deconfliction.PositionAt` | backend/src/SwarmApi.Domain/Deconfliction.cs:66-81 | walks the polyline to the point that the recursive definition gives |
| `Deconfliction.Length` | backend/src/SwarmApi.Domain/Deconfliction.cs:83-92 | accumulates the length of the polyline |
| `Deconfliction.Lipschitz` | backend/src/SwarmApi.Domain/Deconfliction.cs:66-81 | two points on a polyline are never further apart than their distances along it |
| `Deconfliction.PastTheEnd` | backend/src/SwarmApi.Domain/Deconfliction.cs:66-92 | past its length, a path is at its end |
| `Deconfliction.PassesEveryWaypoint` | backend/src/SwarmApi.Domain/Deconfliction.cs:66-81 | a path leads through every waypoint, at the length of the legs before it |
| `Deconfliction.Sample` | backend/src/SwarmApi.Domain/Deconfliction.cs:39-50 | one sample: every pair keeps the closer of what it had and what it is now |
| `Deconfliction.SampleAll` | backend/src/SwarmApi.Domain/Deconfliction.cs:37-51 | every pair's entry is its first closest sample, and the samples run one step past the duration |
| `Deconfliction.Check` | backend/src/SwarmApi.Domain/Deconfliction.cs:20-63 | refused exactly without a positive speed; otherwise every pair is sampled at max(0.1 s, duration / 20000) until the flight is over, in at most MaxSamples + 2 samples, and the report holds exactly the pairs whose sampled minimum is below the limit, each once, with where and when, in order of time, and the overall minimum |
| `Deconfliction.SamplesBounded` | backend/src/SwarmApi.Domain/Deconfliction.cs:34-37 | the sampling ends after at most MaxSamples + 2 samples |
| `Deconfliction.SampledBoundsTrue` | backend/src/SwarmApi.Domain/Deconfliction.cs:33-63 | at any time at all, a pair is no closer than its sampled minimum less speed times step, lengths being exact |
| `Deconfliction.NearItsSample` | backend/src/SwarmApi.Domain/Deconfliction.cs:33-63 | and so of every pair of a check, at the check's own step |
| `Deconfliction.UnreportedStaysApart` | backend/src/SwarmApi.Domain/Deconfliction.cs:20-63 | what the check is for: a pair that a report does not name keeps, for ever, the limit less what is flown in one step of max(0.1 s, duration / 20000) |
| `Deconfliction.ReportedComesClose` | backend/src/SwarmApi.Domain/Deconfliction.cs:20-63 | and a pair it names does come that close, at the time it names |
| `Planning.Unusable` | swarm_coordination/swarm_coordination/supervisor.py:126-147 | no problem is found exactly with a plan for this mission, on exactly drone_count of the drones offered, that can be flown as it stands |
| `Planning.MakePlan` | swarm_coordination/swarm_coordination/mission_planning.py:114-170 | the default plan: a lane each, or the route for the first drone and a slot behind it, one by one, for the others |
| `Planning.DefaultPlanIsUsable` | swarm_coordination/swarm_coordination/mission_planning.py:153-170 | the default plan passes the check a planner's plan must pass, on exactly the drones it is given |
| `Formations.LanesSideBySide` | swarm_coordination/swarm_coordination/mission_planning.py:114-170 | the first drone flies the route itself and every other the same, waypoint by waypoint, its place times the spacing to the side |
| `Formations.SlotsBehind` | swarm_coordination/swarm_coordination/formation.py:15-36 | the i-th slot is behind the leader by its rank of spacings, level with it, in line or alternately to either side as far |
| `Formations.SlotsInOrder` | swarm_coordination/swarm_coordination/mission_planning.py:114-170 | in the default formation the first drone flies the route and the (i+1)-th holds the i-th slot behind it |
| `Formations.SlotsApart` | swarm_coordination/swarm_coordination/formation.py:15-36 | no two places of a formation, the leader's included, are closer than the spacing |
| `Supervision.Replacement` | swarm_coordination/swarm_coordination/supervisor.py:297-304 | the first drone of the fleet, in id order, that is free and known to be charged; none exactly when there is none |
| `Supervision.HandOverIsRenaming` | swarm_coordination/swarm_coordination/supervisor.py:306-326 | a hand-over is exactly the renaming of the low drone to its heir across the plan; only its path is cut, by the smaller of its length less one and the index it last reported for this mission |
| `Supervision.ApplyKeepsValid` | swarm_coordination/swarm_coordination/supervisor.py:239-256 | each decision keeps the plan flyable, retired drones outside it, dropped ones inside, and its size |
| `Supervisor.MissionSupervisor.constructor` | swarm_coordination/swarm_coordination/supervisor.py:151-162 | drones in id order, no battery known, no mission |
| `Supervisor.MissionSupervisor.ObserveBattery` | swarm_coordination/swarm_coordination/supervisor.py:166-168 | only drones of the fleet are recorded; the state stays valid |
| `Supervisor.MissionSupervisor.ObservePosition` | swarm_coordination/swarm_coordination/supervisor.py:170-175 | the latest reported position of a drone of the fleet |
| `Supervisor.MissionSupervisor.ObserveProgress` | swarm_coordination/swarm_coordination/supervisor.py:177-185 | only reports about the current mission are recorded |
| `Supervisor.MissionSupervisor.Offered` | swarm_coordination/swarm_coordination/supervisor.py:191-192 | what a planner is shown: the drones not known to be low, in id order, and where they are |
| `Supervisor.MissionSupervisor.Start` | swarm_coordination/swarm_coordination/supervisor.py:189-222 | a mission is planned and begun, or rejected with nothing changed; the state stays valid whatever the planner answers |
| `Supervisor.MissionSupervisor.Begin` | swarm_coordination/swarm_coordination/supervisor.py:205-222 | drones of the superseded mission that are not used go home, everybody else gets its part, and the new mission is announced |
| `Supervisor.MissionSupervisor.Command` | swarm_coordination/swarm_coordination/supervisor.py:224-229 | the mission ends and every drone gets the command |
| `Supervisor.MissionSupervisor.Reallocate` | swarm_coordination/swarm_coordination/supervisor.py:233-259 | the in-place loop makes the decisions of `Reallocation.Reallocate`, and leaves the state valid |
| `Supervisor.MissionSupervisor.SendHome` | swarm_coordination/swarm_coordination/supervisor.py:242-256 | one low drone: replaced by the first idle charged drone, or dropped |
| `Supervisor.MissionSupervisor.FindReplacement` | swarm_coordination/swarm_coordination/supervisor.py:297-304 | the first drone of the fleet that can take over |
| `Supervisor.MissionSupervisor.HandOver` | swarm_coordination/swarm_coordination/supervisor.py:306-326 | edits the plan to the renaming, and returns the orders that tell everybody concerned |
| `Supervisor.MissionSupervisor.Redirect` | swarm_coordination/swarm_coordination/supervisor.py:317-321 | the followers of the drone going home follow its heir, in their places, and are told so in id order |
| `Supervision.PlanIsValid` | swarm_coordination/swarm_coordination/supervisor.py:271-283 | whatever a planner returns, the plan begun is flyable, on exactly drone_count drones of the fleet, none known to be low |
| `Reallocation.ReallocationPairsInOrder` | swarm_coordination/swarm_coordination/supervisor.py:239-256 | the i-th low, unfinished, undropped drone goes with the i-th idle charged one, both in id order; exactly the excess is dropped |
| `Reallocation.NobodyLeftBehind` | swarm_coordination/swarm_coordination/supervisor.py:239-256 | afterwards no drone of the mission is one to send home |
| `Reallocation.ReallocateTwice` | swarm_coordination/swarm_coordination/supervisor.py:233-259 | deciding again with no new report changes nothing and returns nothing |
| `LaneRuns.LanesMoveOn` | swarm_coordination/swarm_coordination/supervisor.py:306-326 | over every run a lane is moved on exactly when its holder is handed over, by exactly what that drone last reported but never past the last waypoint, and the heir is sent exactly the rest: nothing the ground was told is behind is flown again, but a last waypoint |
| `SupervisorRuns.EveryRunKeeps` | swarm_coordination/swarm_coordination/supervisor.py:164-259 | over every run, whatever the planner answers: plan flyable on exactly the drones asked for, retired outside, dropped inside, and the last order of every drone agreeing with the plan |
| `SupervisorRuns.AgreeAfterStep` | swarm_coordination/swarm_coordination/supervisor.py:189-259 | each event keeps the orders agreeing: nobody is left on a superseded task, and everybody planned and not dropped was last told exactly its part |
| `SupervisorRuns.RunFromStart` | swarm_coordination/swarm_coordination/supervisor.py:151-259 | all of that from a supervisor with no mission |
| `SupervisorRuns.DecisionsAreBounded` | swarm_coordination/swarm_coordination/supervisor.py:239-259 | over one mission, hand-overs are at most fleet size less drone_count, and drops at most drone_count |
| `SupervisorRuns.EntrantsAreFit` | swarm_coordination/swarm_coordination/supervisor.py:191-192 | every drone that enters a plan is one of the fleet whose battery is not known to be below the threshold, and known not to be if it takes over |
| `StandingOrders.RequestDecidedExactly` | swarm_coordination/swarm_coordination/supervisor.py:189-204 | a request is rejected when it needs more drones than are not known to be low; otherwise a planner's plan is taken up exactly if it suits, and without a planner those with the lowest ids fly; anything else changes nothing |
| `StandingOrders.NewMissionTellsEverybody` | swarm_coordination/swarm_coordination/supervisor.py:205-222 | once a mission is taken up, each of its drones was last told its part, those of the mission before that it does not need were last told to return, and nobody else was told anything |
| `StandingOrders.CommandReachesEverybody` | swarm_coordination/swarm_coordination/supervisor.py:224-229 | after a command every drone of the fleet was last told exactly that, nobody else anything, and the mission is over |
| `StandingOrders.CommandStands` | swarm_coordination/swarm_coordination/supervisor.py:224-235 | and that stands through any reports and decisions until the next request |
| `StandingOrders.DecisionSendsHomeExactly` | swarm_coordination/swarm_coordination/supervisor.py:233-256 | the periodic decision sends home exactly the drones of the mission known to be below the threshold, not dropped before and not reported complete, all to return; those reported dropped are exactly those newly dropped |
| `StandingOrders.SentHomeByReports` | swarm_coordination/swarm_coordination/supervisor.py:166-256 | so over every run whoever is sent home last reported a battery below the threshold and not that it is complete |
| `LowDrones.LowDroneOrdered` | swarm_coordination/swarm_coordination/supervisor.py:233-259 | over every event: a low drone is given a task exactly on a periodic decision, when it follows the i-th drone to leave, there is an i-th drone to take over, and it has not left before that; the docstring's "never given a task" (line 10) does not hold of re-slotted followers |
| `LowDrones.LowDroneIsOrdered` | swarm_coordination/swarm_coordination/supervisor.py:317-321 | a run from a supervisor with no mission, of one request and three battery reports, after which the decision gives a low drone a task |
| `Offboard.OffboardSequencer.Create` | swarm_coordination/swarm_coordination/offboard.py:37-44 | refuses exactly a warm-up of no ticks |
| `Offboard.OffboardSequencer.Advance` | swarm_coordination/swarm_coordination/offboard.py:62-93 | one step of the sequencer, with its falls-through from asking for the mode to asking to arm |
| `Offboard.WarmUpFirst` | swarm_coordination/swarm_coordination/offboard.py:66-70 | OFFBOARD is asked for only after warmup_ticks setpoints have been streamed |
| `Offboard.RequestsSpaced` | swarm_coordination/swarm_coordination/offboard.py:56-82 | OFFBOARD is never asked for twice within the retry interval, however the reported mode flaps |
| `Offboard.ArmOnlyInOffboard` | swarm_coordination/swarm_coordination/offboard.py:79-86 | arming is asked for only while OFFBOARD is reported and armed is not |
| `Offboard.ReleasedIsFinal` | swarm_coordination/swarm_coordination/offboard.py:52-64 | once released it never streams or asks again |
| `Offboard.ArmRequestsSpaced` | swarm_coordination/swarm_coordination/offboard.py:56-86 | in every run, two arm requests with OFFBOARD reported at every tick between them are the retry interval apart |
| `Offboard.NextArmExactly` | swarm_coordination/swarm_coordination/offboard.py:56-86 | after a request, arming is asked for next exactly when OFFBOARD is reported, armed is not, and the interval is over or the reported mode has dropped out in between |
| `Offboard.ArmsAgainExactly` | swarm_coordination/swarm_coordination/offboard.py:56-86 | the same between any two arm requests of any run |
| `Offboard.ArmRequestsTooClose` | swarm_coordination/swarm_coordination/offboard.py:72-86 | from every start, whatever the settings: a timed run with two arm requests closer than the interval, the reported mode dropping out for one tick between them |
| `DroneControllers.WaypointQueue.Advance` | swarm_coordination/swarm_coordination/waypoints.py:33-44 | the index goes up by one exactly within tolerance of the current waypoint |
| `DroneControllers.DroneController.AssignPath` | swarm_coordination/swarm_coordination/drone_controller.py:80-84 | a path starts afresh; an empty one is refused with nothing changed |
| `DroneControllers.DroneController.AssignSlot` | swarm_coordination/swarm_coordination/drone_controller.py:86-89 | a slot starts afresh |
| `DroneControllers.DroneController.LeaderFinished` | swarm_coordination/swarm_coordination/drone_controller.py:91-94 | only the current mission's leader ends a follower's task |
| `DroneControllers.DroneController.Command` | swarm_coordination/swarm_coordination/drone_controller.py:96-99 | a command hands the vehicle over and takes back "complete" |
| `DroneControllers.DroneController.Step` | swarm_coordination/swarm_coordination/drone_controller.py:103-145 | one control step: handing over, waiting, going home on a lost leader, landing on a finished task, or flying |
| `DroneControllers.DroneController.Progress` | swarm_coordination/swarm_coordination/drone_controller.py:147-153 | the report: index never beyond the count |
| `DroneControl.HandoverCauses` | swarm_coordination/swarm_coordination/drone_controller.py:119-135 | a vehicle is handed over exactly by a command, a leader lost for too long, or a task done, and that very tick already asks for nothing else |
| `DroneControl.HandoverIsFinal` | swarm_coordination/swarm_coordination/drone_controller.py:113-114 | from then until the next assignment no tick emits a setpoint, an OFFBOARD request or an arm request, whoever is heard again |
| `DroneControl.ModeRequestsSpaced` | swarm_coordination/swarm_coordination/drone_controller.py:185-197 | one handover's mode requests are at least the retry interval apart |
| `DroneControl.KeptLeaderNoReturn` | swarm_coordination/swarm_coordination/drone_controller.py:119-126 | a follower whose leader is heard within the timeout at every tick never goes home by itself |
| `Handovers.HandedOverExactly` | swarm_coordination/swarm_coordination/drone_controller.py:96-145 | a vehicle is handed over for exactly three reasons, each in its own mode: a command in the mode it names, a leader not heard for the timeout in AUTO.RTL, the task done in AUTO.LAND, and only that makes it complete |
| `Handovers.TaskStartsAfresh` | swarm_coordination/swarm_coordination/drone_controller.py:80-89 | an assignment starts at its first waypoint, not complete, not handed over, with the warm-up before it |
| `Handovers.ModeAskedExactly` | swarm_coordination/swarm_coordination/drone_controller.py:185-197 | over every run of ticks, the mode is asked for by exactly the first tick an interval after the last time on which the autopilot has neither reported it nor disarmed |
| `Handovers.ReportsWhereItIs` | swarm_coordination/swarm_coordination/drone_controller.py:147-153 | what is reported after a setpoint is the index of the waypoint that setpoint steps towards |
| `Handovers.ReportsCompletion` | swarm_coordination/swarm_coordination/drone_controller.py:131-153 | the tick that completes a task reports so, with every waypoint behind it |
| `Handovers.ReportsStayFresh` | swarm_coordination/swarm_coordination/scenarios/sut.py:132-144 | after every step of every run the last report sent is what is true of the drone now, and less than a second old |
| `Handovers.StepIsRun` | swarm_coordination/swarm_coordination/scenarios/sut.py:108-181 | a drone's step is a run of its controller: its inbox in order, then a tick on what is observed; so every result about runs of controllers is one about drones |
| `Handovers.BelievesItsLeader` | swarm_coordination/swarm_coordination/scenarios/sut.py:159-175 | a follower takes its leader for done exactly once it has heard so from the leader itself, about the mission of its slot |
| `Setpoints.WorksOnLast` | swarm_coordination/swarm_coordination/drone_controller.py:80-99 | over every run the task is the last one assigned |
| `Setpoints.SetpointsAreRight` | swarm_coordination/swarm_coordination/drone_controller.py:128-175 | over every run, a setpoint on a path is exactly max_step nearer to the first waypoint not yet within tolerance, or on it, and no further off than that; in a slot it is the leader's last known position plus the offset of the slot last assigned |
| `Setpoints.FollowerAims` | swarm_coordination/swarm_coordination/scenarios/sut.py:108-175 | on a step that brings no new task, a follower's setpoint is its offset from the last position its leader has sent |
| `Setpoints.HearsItsLeader` | swarm_coordination/swarm_coordination/scenarios/sut.py:168-181 | and that position is the last in the inbox, or else the last before |
| `ReferenceSwarm.ReferenceDrone.ReceiveOne` | swarm_coordination/swarm_coordination/scenarios/sut.py:159-175 | each message to the controller; poses and progress count only from the leader |
| `ReferenceSwarm.ReferenceDrone.Follow` | swarm_coordination/swarm_coordination/scenarios/sut.py:177-181 | a new leader is one not heard yet |
| `ReferenceSwarm.ReferenceDrone.Step` | swarm_coordination/swarm_coordination/scenarios/sut.py:108-157 | a drone's step: inbox, controller, and what it sends |
| `ReferenceSwarm.ReferenceDrone.Tell` | swarm_coordination/swarm_coordination/scenarios/sut.py:132-157 | pose if known, progress when changed or due, telemetry always |
| `ReferenceSwarm.ReferenceGround.SubmitMission` | swarm_coordination/swarm_coordination/scenarios/sut.py:199-203 | what the supervisor decides waits for the next step |
| `ReferenceSwarm.ReferenceGround.HearOne` | swarm_coordination/swarm_coordination/scenarios/sut.py:213-236 | readings and the supervisor learn the same report; unknown senders are ignored |
| `ReferenceSwarm.ReferenceGround.Step` | swarm_coordination/swarm_coordination/scenarios/sut.py:211-245 | the ground's step: inbox, the periodic decision if due, and its orders |
| `ReferenceSwarm.ReferenceGround.CarryOut` | swarm_coordination/swarm_coordination/scenarios/sut.py:242-245 | every pending action becomes its message or announcement, in order |
| `ReferenceSwarm.ReferenceGround.Report` | swarm_coordination/swarm_coordination/swarm_state.py:40-50 | complete exactly when every drone needed reports this mission complete and is disarmed |
| `LaneRecords.LaneHandedOn` | swarm_coordination/swarm_coordination/supervisor.py:306-316 | what a lane's heir is not given was reached by an earlier holder, and what it is given is not empty |
| `LaneRecords.SettlingKept` | swarm_coordination/swarm_coordination/supervisor.py:239-259 | a whole decision keeps every lane's record and the truth of what is known of it |
| `LaneRecords.SettlingRecorded` | swarm_coordination/swarm_coordination/supervisor.py:239-259 | every order a decision sends is for the part the plan gives that drone |
| `HonestCompletion.DroneStepKept` | swarm_coordination/swarm_coordination/scenarios/sut.py:108-175 | a drone's step keeps every report true, and its queue no further than where it has been |
| `HonestCompletion.GroundStepKept` | swarm_coordination/swarm_coordination/scenarios/sut.py:211-245 | the ground's step keeps readings and plan true, and announces the holders of every lane |
| `HonestCompletion.CompleteIsHonest` | swarm_coordination/swarm_coordination/swarm_state.py:40-50 | "complete" never lies: at every moment of every run, with any messages dropped, delayed, repeated or reordered, a mission reported complete has had every waypoint of every lane of its plan visited by a drone that had been given that lane and was flying it then, not handed over |
| `HonestCompletion.NoWaypointLost` | swarm_coordination/swarm_coordination/supervisor.py:306-326 | through any chain of hand-overs a lane's holder flies a non-empty suffix of the original route, and every waypoint before it was reached by an earlier holder while it was flying the lane |
| `CompleteAndDown.CompleteMeansDownAndDone` | swarm_coordination/swarm_coordination/swarm_state.py:40-50 | in every run of the whole system, when a mission is reported complete each drone it needs, follower or not, had completed its task in that mission and had seen its vehicle disarmed |
| `CompleteAndDown.AnnouncesItsMission` | swarm_coordination/swarm_coordination/scenarios/sut.py:242-260 | after every step of the ground what is announced is the supervisor's mission and exactly the drones it needs |
| `CompleteAndDown.DecidesEverySecond` | swarm_coordination/swarm_coordination/scenarios/sut.py:238-240 | and the last decision is less than a second old |
| `CompleteAndDown.OrdersAreSent` | swarm_coordination/swarm_coordination/scenarios/sut.py:242-285 | everybody is last told by the messages sent exactly what the supervisor's actions tell it |
| `CompleteAndDown.LearnsWhatIsHeard` | swarm_coordination/swarm_coordination/scenarios/sut.py:211-236 | what the supervisor and the readings know of a drone is the last battery and the last report heard from it |
| `ReusedIds.ReusedIdLies` | swarm_coordination/swarm_coordination/scenarios/sut.py:199-245 | ids must be new: at the end of any run, a mission requested under a used id is reported complete at the ground's next step exactly when all its drones were last heard finishing a mission of that id, and that is true exactly when they have been everywhere they are now asked to go |
| `ReusedIds.ReusedIdWitness` | swarm_coordination/swarm_coordination/scenarios/sut.py:199-245 | a run of four steps after which such a mission is reported complete although its waypoint was never visited |
| `Network.Mail.Take` | swarm_coordination/swarm_coordination/scenarios/harness.py:93-97 | a node takes everything that waited for it |
| `Network.Mail.Post` | swarm_coordination/swarm_coordination/scenarios/harness.py:101-110 | every node that is not cut off receives, once and in order, what was sent to it by senders that are not |
| `Network.ArrivesExactly` | swarm_coordination/swarm_coordination/scenarios/harness.py:93-131 | what is sent arrives as often as it was sent at exactly those it goes to: an order at the drone it names, a position or report at the ground and every other drone, telemetry at the ground; and nowhere if either end is cut off |
| `Network.RoundAllowed` | swarm_coordination/swarm_coordination/scenarios/harness.py:67-110 | a step of the harness is a sequence of steps of the adversarial network |
| `Network.EveryScenarioIsHonest` | swarm_coordination/swarm_coordination/scenarios/harness.py:67-117 | so in every scenario, at every step, a mission reported complete is |
| `Autopilot.Vehicle.Actuate` | swarm_coordination/swarm_coordination/scenarios/sim.py:129-140 | setpoint, then mode, then arming, each under PX4's conditions |
| `Autopilot.Vehicle.RequestMode` | swarm_coordination/swarm_coordination/scenarios/sim.py:148-154 | OFFBOARD only with fresh setpoints, unknown modes ignored, entering afresh only on a change |
| `Autopilot.Vehicle.Step` | swarm_coordination/swarm_coordination/scenarios/sim.py:163-187 | battery, failsafe, motion and automatic disarming, in that order |
| `Autopilot.Vehicle.Aim` | swarm_coordination/swarm_coordination/scenarios/sim.py:189-216 | the velocity each mode asks for, and the phase of the way home moved on |
| `Autopilot.Vehicle.AutoDisarm` | swarm_coordination/swarm_coordination/scenarios/sim.py:218-240 | the two disarm timers |
| `Autopilot.NeverWithoutSetpoints` | swarm_coordination/swarm_coordination/scenarios/sim.py:129-187 | in every run: never below the ground, and after each step an armed vehicle in OFFBOARD has a setpoint no older than the timeout |
| `Autopilot.OneStepNearer` | swarm_coordination/swarm_coordination/scenarios/sim.py:163-232 | landing in calm air, each step is exactly one step nearer to disarming |
| `Autopilot.DisarmsExactly` | swarm_coordination/swarm_coordination/scenarios/sim.py:163-240 | a vehicle left in AUTO.LAND in calm air disarms after exactly the computed number of steps, not one earlier |
| `Autopilot.DisarmsInTime` | swarm_coordination/swarm_coordination/scenarios/sim.py:163-240 | and so within ceil((z - 0.05) / (rate dt)) + 1 + ceil(land_disarm / dt) steps |
| `ReturnHome.ReturnsHome` | swarm_coordination/swarm_coordination/scenarios/sim.py:202-240 | in calm air, with the battery to last, a vehicle in AUTO.RTL climbs, comes back and is disarmed on the ground within half a metre of home, to the side, in an explicit number of steps; nowhere else is it below the height it had or the one it returns at, less 20 cm |
| `ReturnHome.ToldToReturn` | swarm_coordination/swarm_coordination/scenarios/sim.py:148-159 | asking a flying vehicle for AUTO.RTL puts it on that way, at max(rtl altitude, its height) |
| `ReturnHome.LandsInPlace` | swarm_coordination/swarm_coordination/scenarios/sim.py:189-200 | a landing vehicle never gets further to the side of where it began |
| `ReturnHome.StopsWithoutSetpoints` | swarm_coordination/swarm_coordination/scenarios/sim.py:163-200 | one whose setpoints stop stays where it is, armed in AUTO.LOITER, as long as the battery lasts |
| `ReturnHome.FlatComesDown` | swarm_coordination/swarm_coordination/scenarios/sim.py:163-200 | one whose battery runs flat comes straight down where that was, whatever it was flying, and is disarmed after exactly the steps of its landing |
| `ReturnHome.PreflightDisarm` | swarm_coordination/swarm_coordination/scenarios/sim.py:218-240 | one that was armed and has not taken off is disarmed by exactly the first step after its time is up |
| `ReturnHome.AskedExactly` | swarm_coordination/swarm_coordination/scenarios/sim.py:129-159 | a mode is entered exactly if known and not OFFBOARD without a fresh setpoint; armed exactly if asked in OFFBOARD with one; setpoints are relative to home |
| `Flight.ArmedExactly` | swarm_coordination/swarm_coordination/scenarios/harness.py:93-115 | software and autopilot together: a drone given a path on the ground is armed after exactly warmup_ticks + 2 steps, not one earlier, whatever the times, the air and the noise |
| `Flight.Finishes` | swarm_coordination/swarm_coordination/scenarios/harness.py:93-115 | the step on which a drone sees itself at its last waypoint reports complete and puts the autopilot in AUTO.LAND |
| `Flight.LandsLeftAlone` | swarm_coordination/swarm_coordination/scenarios/harness.py:93-115 | from then on the software leaves the autopilot alone |
| `Flight.FinishedIsDisarmed` | swarm_coordination/swarm_coordination/scenarios/harness.py:93-115 | so in calm air a drone that ends its path is disarmed after exactly the steps its landing takes, and not before |
| `Approach.StepCovers` | swarm_coordination/swarm_coordination/scenarios/sim.py:163-200 | one step in OFFBOARD covers, level and in height, at least an explicit share of the way and never more than all of it, whatever is clamped |
| `Approach.Shrinks` | swarm_coordination/swarm_coordination/scenarios/sim.py:163-200 | so the distance to the waypoint shrinks at least by that share |
| `PathFlight.LiftsOff` | swarm_coordination/swarm_coordination/scenarios/harness.py:93-115 | a drone armed on the ground is airborne within an explicit number of steps |
| `PathFlight.PathFlown` | swarm_coordination/swarm_coordination/scenarios/harness.py:93-115 | a flight that is long enough visits every waypoint left, in order |
| `PathFlight.FliesWholePath` | swarm_coordination/swarm_coordination/scenarios/harness.py:93-115 | in calm air without noise, a drone given a path it can fly is armed, takes off and visits every waypoint of it, in order, within an explicit number of steps |
| `PathFlight.FliesPadToPad` | swarm_coordination/swarm_coordination/scenarios/harness.py:93-115 | from the last it reports complete, and it is disarmed after exactly the steps its landing takes |
| `PlanGate.MissionPlan.constructor` | backend/src/SwarmApi.Application/MissionPlanService.cs:27-37 | a plan with conflicts is Conflicted, another one waits for approval |
| `PlanGate.MissionPlan.Expire` | backend/src/SwarmApi.Application/MissionPlanService.cs:195-211 | lapses exactly after its decision or approval deadline, and drops the code |
| `PlanGate.MissionPlan.Approve` | backend/src/SwarmApi.Application/MissionPlanService.cs:59-92 | approved exactly when still pending and not by its own proposer, both known |
| `PlanGate.MissionPlan.Reject` | backend/src/SwarmApi.Application/MissionPlanService.cs:94-113 | rejected exactly when pending, conflicted or approved |
| `PlanGate.MissionPlan.Claim` | backend/src/SwarmApi.Application/MissionPlanService.cs:166-193 | the code is consumed exactly when the plan is approved and the code is its own |
| `PlanGate.MissionPlan.Commit` | backend/src/SwarmApi.Application/MissionPlanService.cs:149-154 | dispatched, unconditionally |
| `PlanGate.MissionPlan.GiveBack` | backend/src/SwarmApi.Application/MissionPlanService.cs:158-161 | the code is back, unconditionally |
| `PlanGate.LaunchedAtMostOnce` | backend/src/SwarmApi.Application/MissionPlanService.cs:121-193 | over every interleaving: launched at most once, never with conflicts, only after its own approval by somebody else within the decision window, with that approval's code claimed while it was good, and as previewed (id, route, count, spacing, type) |
| `PlanStories.StatusExactly` | backend/src/SwarmApi.Application/MissionPlanService.cs:39-57 | whenever somebody looks at a plan its status is what its deadlines and what was done about it make it: undecided after its decision is due, or approved and unused after the approval's, it shows as expired, and never before |
| `PlanStories.ApprovedExactly` | backend/src/SwarmApi.Application/MissionPlanService.cs:59-92 | over every run an approval is granted exactly to a plan neither decided nor conflicted, not after its decision is due, by anybody but its known proposer, and is good for exactly the validity |
| `PlanStories.RejectedExactly` | backend/src/SwarmApi.Application/MissionPlanService.cs:94-113 | a rejection is taken exactly while the plan is neither rejected nor dispatched and nothing has lapsed, and leaves no code |
| `PlanStories.ClaimedExactly` | backend/src/SwarmApi.Application/MissionPlanService.cs:166-193 | and a claim goes through exactly for that approval's code, in time, on a plan neither rejected nor dispatched, while nobody else holds the code |
| `PlanGate.ClaimExactly` | backend/src/SwarmApi.Application/MissionPlanService.cs:166-193 | exactly which code opens a plan, and when |
| `PlanGate.RetryAfterUnreachable` | backend/src/SwarmApi.Application/MissionPlanService.cs:158-161 | after the swarm could not be reached, the same approval can be used again |
| `PlanGate.FinalUnlessUnderWay` | backend/src/SwarmApi.Application/MissionPlanService.cs:94-113 | a rejection or an expiry is final exactly when no dispatch that can still go through is under way |
| `PlanGate.CodeMeansApprovedUnless` | backend/src/SwarmApi.Application/MissionPlanService.cs:158-161 | a kept code means the plan is approved, except exactly when one is given back to a plan that no longer is |
| `PlanGate.RejectedAndThen` | backend/src/SwarmApi.Application/MissionPlanService.cs:121-162 | both happen, from every new plan without conflicts |
| `PlanGate.FinalWhenAtomic` | backend/src/SwarmApi.Application/MissionPlanService.cs:121-162 | with each dispatch finished before anything else happens, both properties hold of every run |
| `Idempotency.IdempotencyStore.Begin` | backend/src/SwarmApi.Api/Idempotency/IdempotencyStore.cs:33-64 | what a key answers, its new entry, and the eviction loop |
| `Idempotency.IdempotencyStore.Complete` | backend/src/SwarmApi.Api/Idempotency/IdempotencyStore.cs:66-75 | stores the answer if the key is still known |
| `Idempotency.IdempotencyStore.Abandon` | backend/src/SwarmApi.Api/Idempotency/IdempotencyStore.cs:78-87 | forgets the key |
| `Idempotency.EvictionKeepsNewest` | backend/src/SwarmApi.Api/Idempotency/IdempotencyStore.cs:55-60 | eviction keeps exactly the newest keys: those with fewer than capacity newer ones |
| `Idempotency.FinishRequest` | backend/src/SwarmApi.Api/Idempotency/IdempotencyFilter.cs:60-82 | an exception or a 5xx answer is forgotten, anything else stored |
| `Idempotency.AtMostOneAnswer` | backend/src/SwarmApi.Api/Idempotency/IdempotencyFilter.cs:42-82 | within the retention time and with fewer than capacity other keys begun meanwhile: at most one run at a time, at most one stored answer, and every answer under the key that is not a 5xx is that one |
| `Idempotency.RunsTwiceExactly` | backend/src/SwarmApi.Api/Idempotency/IdempotencyStore.cs:33-64 | both bounds are exact: a running request is run again, after another key was begun, exactly when capacity keys are newer or its entry has aged out |
| `KeyedReplies.RepliesExactly` | backend/src/SwarmApi.Api/Idempotency/IdempotencyStore.cs:33-64 | within the bounds every request is told rightly: a key that is nobody's is run; another's is refused as reused and starts nothing; its own waits while it is run, and otherwise replays the one stored answer, which a run with its own fingerprint ended with |
| `KeyedReplies.ReusedMeansAnother` | backend/src/SwarmApi.Api/Idempotency/IdempotencyStore.cs:36-44 | in any run, a key is called reused only if another request was run under it |
| `KeyedReplies.AnswersAreOwn` | backend/src/SwarmApi.Api/Idempotency/IdempotencyFilter.cs:42-82 | while requests under a key are run one at a time, every answer given to a request is that of a run with its own fingerprint |
| `KeyedReplies.OwnUnless` | backend/src/SwarmApi.Api/Idempotency/IdempotencyFilter.cs:60-82 | the one step after which an answer can go astray: a run ends, to be stored, under an entry that is by then another request's |
| `KeyedReplies.AnswerAstray` | backend/src/SwarmApi.Api/Idempotency/IdempotencyStore.cs:33-75 | past the retention time it does: from every server that does not know the key, a run that ends with one request given the answer of another |
| `KeyedReplies.SuccessIsOwn` | mcp_server/mcp_server/swarm_client.py:191-209 | within the bounds a write the client calls succeeded was run for its own request |
| `RepeatedWrites.TwiceAfterRetention` | backend/src/SwarmApi.Api/Idempotency/IdempotencyStore.cs:33-64 | past the first bound: from every server that does not know the key, two requests under it run at once |
| `RepeatedWrites.TwiceAfterOthers` | backend/src/SwarmApi.Api/Idempotency/IdempotencyStore.cs:33-64 | past the second: the same after capacity other keys, all at one time |
| `Idempotency.Write` | mcp_server/mcp_server/swarm_client.py:191-209 | the result is that of the first attempt that is not to be repeated; unknown exactly when all are |
| `Idempotency.SuccessIsTheAnswer` | mcp_server/mcp_server/swarm_client.py:191-209 | a write the client says succeeded has the one answer stored under its key, whichever replies were lost |
| `RepeatedWrites.UnreachableExactly` | mcp_server/mcp_server/swarm_client.py:9-16 | a refused connection means "nothing was done" exactly of a first attempt; after one that got no answer, the write may have been run and its answer stored |
| `SimulatedSwarm.SimulatedDrone.FlyWaypoints` | backend/src/SwarmApi.Infrastructure/SimulatedSwarmBridge.cs:182-214 | one tick along a lane: arrival, the next leg, or the descent |
| `SimulatedSwarm.SimulatedDrone.FollowLeader` | backend/src/SwarmApi.Infrastructure/SimulatedSwarmBridge.cs:217-233 | one tick behind the leader, or down with it |
| `SimulatedSwarm.SimulatedDrone.ExecuteCommand` | backend/src/SwarmApi.Infrastructure/SimulatedSwarmBridge.cs:235-265 | one tick of a command |
| `SimulatedSwarm.SimulatedDrone.Descend` | backend/src/SwarmApi.Infrastructure/SimulatedSwarmBridge.cs:278-287 | one tick down, and on the ground from 5 cm |
| `SimulatedSwarm.SimulatedSwarmBridge.DispatchMission` | backend/src/SwarmApi.Infrastructure/SimulatedSwarmBridge.cs:44-56 | a new swarm of distinct drones, each on its pad |
| `SimulatedSwarm.SimulatedSwarmBridge.SendCommand` | backend/src/SwarmApi.Infrastructure/SimulatedSwarmBridge.cs:58-68 | moves everybody to now under the old orders, then takes on the command |
| `SimulatedSwarm.SimulatedSwarmBridge.GetState` | backend/src/SwarmApi.Infrastructure/SimulatedSwarmBridge.cs:70-85 | moves everybody to now, and reports complete exactly when all have landed |
| `SimulatedSwarm.SimulatedSwarmBridge.Advance` | backend/src/SwarmApi.Infrastructure/SimulatedSwarmBridge.cs:87-128 | everybody moves by the time that has passed; followers chase where the leader has just gone |
| `SimulatedRuns.LandedIsFinal` | backend/src/SwarmApi.Infrastructure/SimulatedSwarmBridge.cs:186-189 | until the next dispatch a landed drone stays as it is, at height 0, and no index decreases |
| `SimulatedRuns.IndexWasReached` | backend/src/SwarmApi.Infrastructure/SimulatedSwarmBridge.cs:197-208 | an index is what it says: each waypoint before it was reached |
| `SimulatedRuns.CompleteWasFlown` | backend/src/SwarmApi.Infrastructure/SimulatedSwarmBridge.cs:70-85 | in every run since a dispatch, reported complete means this mission, everybody on the ground, and every waypoint reached by every lane drone or the leader |
| `SimulatedRuns.MovedNearer` | backend/src/SwarmApi.Infrastructure/SimulatedSwarmBridge.cs:182-214 | each tick takes a lane drone at least one tick nearer to having landed |
| `SimulatedRuns.FollowedNearer` | backend/src/SwarmApi.Infrastructure/SimulatedSwarmBridge.cs:217-233 | and a follower too |
| `SimulatedRuns.LandsInTime` | backend/src/SwarmApi.Infrastructure/SimulatedSwarmBridge.cs:87-128 | polled at equal intervals with no command, everybody has landed and the mission is reported complete within an explicit number of ticks |
| `SimulatedOrders.StartsApart` | backend/src/SwarmApi.Infrastructure/SimulatedSwarmBridge.cs:130-162 | at dispatch the drones stand on their pads, in lanes or in slots, and no two closer than the spacing |
| `SimulatedOrders.LastOrderHolds` | backend/src/SwarmApi.Infrastructure/SimulatedSwarmBridge.cs:58-68 | in every run the swarm is under its last command, and a commanded mission is never reported complete |
| `SimulatedOrders.HoldKeepsPlace` | backend/src/SwarmApi.Infrastructure/SimulatedSwarmBridge.cs:248-250 | told to hold, every drone stays where it is |
| `SimulatedOrders.LandsWhereItIs` | backend/src/SwarmApi.Infrastructure/SimulatedSwarmBridge.cs:245-247 | told to land, every drone comes straight down and has landed after exactly the ticks that takes |
| `SimulatedOrders.ReturnsToItsPad` | backend/src/SwarmApi.Infrastructure/SimulatedSwarmBridge.cs:251-264 | told to return, every drone nears its pad at the height it has, comes down only above it, and has landed after exactly the ticks of the two |
| `SimulatedOrders.BackWhereItStarted` | backend/src/SwarmApi.Infrastructure/SimulatedSwarmBridge.cs:137-162 | and so within 30 cm of the place it was dispatched from, however the mission had gone |
| `SimulatedOrders.EverybodyHeadsRight` | backend/src/SwarmApi.Infrastructure/SimulatedSwarmBridge.cs:108-128 | in every run since a dispatch, as time passes uncommanded, each drone makes straight for the next waypoint of its lane or for its slot beside where the leader has just gone, or comes straight down |
| `SimulatedOrders.BatteryIsAirtime` | backend/src/SwarmApi.Infrastructure/SimulatedSwarmBridge.cs:289-296 | in every run a drone's battery has paid for exactly the time it was in the air |
| `MissionLogs.BoundedMemory.Add` | backend/src/SwarmApi.Application/MissionLog.cs:17-25 | adds at the end and trims; the order keeps naming every entry once |
| `MissionLogs.BoundedMemory.Trim` | backend/src/SwarmApi.Application/MissionLog.cs:60-74 | the trimming loop |
| `MissionLogs.BoundedMemory.Recent` | backend/src/SwarmApi.Application/MissionPlanStore.cs:46-52 | the last ids, newest first |
| `MissionLogs.OldestForgotten` | backend/src/SwarmApi.Application/MissionPlanStore.cs:25-44 | forgets exactly the oldest entries nobody waits on, as many as there are too many |
| `MissionLogs.AddKeeps` | backend/src/SwarmApi.Application/MissionLog.cs:17-25 | never forgets what is waited on (an active mission, a pending or approved plan), and nothing while there is room |
| `MissionLogs.MissionService.End` | backend/src/SwarmApi.Application/MissionLog.cs:45-58 | ends exactly an active mission |
| `MissionLogs.MissionService.EndAll` | backend/src/SwarmApi.Application/MissionService.cs:40-43 | ends every active mission and no other |
| `MissionLogs.MissionService.DispatchMission` | backend/src/SwarmApi.Application/MissionService.cs:30-47 | once delivered, whatever was flying ends and the new mission is the active one |
| `MissionLogs.MissionService.GetSwarmState` | backend/src/SwarmApi.Application/MissionService.cs:49-58 | a mission the swarm reports complete ends |
| `MissionLogs.MissionService.AbortMission` | backend/src/SwarmApi.Application/MissionService.cs:77-95 | reads first, and stops exactly a mission still active then |
| `MissionLogs.MissionService.Land` | backend/src/SwarmApi.Application/MissionService.cs:98-105 | landing the swarm ends whatever was flying |
| `MissionLogs.OneMissionAtATime` | backend/src/SwarmApi.Application/MissionService.cs:30-47 | with one call after another: at most one active mission, and a log that never outgrows its capacity |
| `MissionLogs.EndIsFinal` | backend/src/SwarmApi.Application/MissionLog.cs:45-58 | over every run a mission that has ended keeps its outcome and its time while it is remembered, and only a dispatch forgets one |
| `MissionLogs.OutcomeIsFirstEnd` | backend/src/SwarmApi.Application/MissionService.cs:30-105 | over every run a mission is, while it is remembered, what the first call that ended it made of it: completed if the swarm reported so, aborted by an abort, a landing or another mission; and without one it is active and remembered |
| `InterleavedCalls.OneActiveExactly` | backend/src/SwarmApi.Application/MissionService.cs:30-47 | over every interleaving of dispatches, landings, state reads and aborts, lock by lock: never two active missions exactly when no dispatch adds its own while one added since it read the active ones is still flying |
| `InterleavedCalls.ApartIsEnough` | backend/src/SwarmApi.Application/MissionService.cs:30-47 | so never two when no other dispatch adds between one reading the active missions and adding its own |
| `InterleavedCalls.LandedEndsWhatItSaw` | backend/src/SwarmApi.Application/MissionService.cs:98-105 | landing everybody leaves active exactly what others added since it read what was active |
| `InterleavedCalls.TwoActive` | backend/src/SwarmApi.Application/MissionService.cs:30-47 | a run from a new service with two active missions |
| `InterleavedCalls.UninterruptedEndsAll` | backend/src/SwarmApi.Application/MissionService.cs:40-43 | a call whose steps nobody interrupts ends what EndAll ends, in whatever order |

## Left out

- Floating-point rounding: numbers are reals, and `Math.Round`, `round` and `LengthMeters`' rounding are exact.
- The square root: `math.sqrt`, `math.hypot` and `Math.Sqrt` are one function parameter, a non-negative root of x^2 + y^2 + z^2.
- Drone names: a drone is a number and id order is the order of numbers; names without a number are not modelled.
- Dictionary order: path and slot orders of one decision are sent in id order, not in the plan's insertion order; in the formation fit a drone is its place in the mapping.
- Aliasing with a planner that keeps the plan it returned: a plan is a value.
- GPS noise as a distribution, and the readings' positions and modes: in `Flight.dfy` noise is arbitrary, elsewhere the position a controller reads is the position it is at.
- Broken configurations: `maxStep > 0` for every drone (the source raises on a step otherwise, and `Trajectory.StepTowards` models that failure), and for a simulated vehicle speed limits that are not negative with a positive descent.
- The text of rejection reasons, logs and error messages.
- Exceptions: where the default planner raises an exception, the model returns no action, as the ground does when it logs the exception.
- Mission ids used twice: "complete" is proved for ids that are new (`ReusedIdLies` shows why), and it speaks of lanes, not of where followers were.
- A whole swarm with its physics: in `Network.dfy` what a drone observes is arbitrary; `Flight.dfy` and `PathFlight.dfy` are one drone's software with its vehicle, from pad to pad.
- Wind: an arbitrary disturbance, zero only in the theorems about landing, returning and whole flights; the Ornstein-Uhlenbeck process itself is not part of this model.
- What the swarm received: a launch is the bridge accepting the mission; whether a swarm that seemed unreachable had received it is not part of this model. The plan is taken to be still in the store when its dispatch ends.
- Codes are fresh, non-empty strings and their hash injective; constant-time comparison is not modelled.
- Restarts: a process that restarts forgets its store; scopes and fingerprints are opaque, and only the "Request in progress" reply has that status and title.
- The client's pause between attempts and HTTP itself; an attempt is what it came to.
- SimulatedRuns.LandsInTime: the number of ticks is an upper bound, rounded up on each leg, because the source promises no number; missions have at least one drone, as the request validator demands.
- ROS nodes, rosbridge, HTTP endpoints, authentication, telemetry, the dashboard and the MCP server's registration: input, output and other people's libraries.
- Scenario files, expectations, trace assertions and reports: folds over a finished trace.
- The swarm-state message besides its "complete" flag, the request validator and frame conversion: simple members.
