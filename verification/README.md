# Verified model of the x2_navigation control logic

This project models, in Dafny, the parts of the `x2_navigation` package that decide when and how the robot may move,
and proves what they promise over every run:

* **Docking.** The heading and speed law (`HolonomicFineAlign`), the confirmed axes with hysteresis (`ConfirmedAxis`),
  the controller around them with its yaw gate and heading limiter (`DockingMotion`, `MotionBounds`,
  `MotionDirection`, `DockingProgress`), the dwell detector (`TagSettling`), the jump-rejecting tag tracker (`TagTracking`), and the
  planar geometry of docking and undocking poses (`PlanarGeometry`, over the functions in `Trigonometry`).
* **The fine-align server.** `FineAlignServer` is the command path as a transition system: operations that compete by
  compare-and-swap, their worker threads, the navigation callbacks and the multiplexer interleave at every lock and
  every access to an atomic flag. `FineAlignWorkers` is the code of the worker threads, every exit included, proved to
  keep to the steps of that system. `DetectionPipeline` is the measurement path: profile activation, and a pass over the
  pending detection that crosses four critical sections with generation and stamp checks. `DockingEvidence` ties the two
  together: what a successful docking or undocking rests on, in terms of the tag observations that were admitted.
* **Localization and its consumers.** The Odin adapter (`OdinAdapter`, `OdinEpochs`, `OdinOutcomes`), the velocity bridge
  (`VelocityBridge`), the two composed (`LocalizedMotion`), and the startup gate (`StartupGate`).
* **The navigation command gate** (`NavigationCommandGate`), proved equal to a specification over both input streams.
* **Point clouds.** The voxel filter (`VoxelFilter`) and the obstacle layer's polled queues (`ObstacleLayer`).

Each component that updates fields in place appears twice: as a class whose methods change those fields, and as a
function on values that says what each method does. The methods are proved against the functions, and the theorems
about runs and histories are proved about the functions.

Conventions: time is a real number of seconds on a monotone clock. A `double` is a real number, with a separate value
for what `isfinite` rejects wherever the code tests it. The functions of `<cmath>` are a parameter, `Trig`, and a
theorem that needs them assumes the laws in `Trig.Laws`: the circle law, angle addition, the polar identity of `atan2`,
its principal range, and the definition of `hypot`. What the program does not keep but a theorem talks about (what was
published, which operation set a command, which clouds met which fate) is kept in a separate history.

## Findings

* `ConfirmedAxis` stops before reversing exactly when it needs two confirmations or more; with one it turns round in a
  single update (`ConfirmedAxis.ReversalIffSingleConfirmation`).
* The docking controller always makes progress exactly when `yaw_tolerance < translation_yaw_stop - yaw_hysteresis`,
  which the server does not check; the values it ships meet it. When it holds one observation more than the
  confirmations is enough (`DockingProgress.ProgressIffGateCoversTolerance`, `DockingProgress.BoundedProgress`). Error
  by error, it can fail exactly on those whose yaw is within tolerance and inside the hysteresis band
  (`DockingProgress.ProgressIffNotBlocked`).
* A poll of the gate with a clock reading from before a receipt empties it. Taken alone, the class is safe to poll
  exactly when that reading is not too early (`NavigationCommandGate.PollIsHarmlessIff`). The server never polls too
  early although it reads its clock before it takes the command mutex: its navigation callbacks and the multiplexer's
  timer share the node's default callback group and do not overlap. Under that condition a navigation command moves the
  robot if and only if what the gate took in since the last release entitles it to
  (`FineAlignServer.NavigationMovesIffEntitled`).
* After a handover a published navigation command never comes from a callback that read `operation_active_` before the
  release. It can come from one that took `command_mutex_` before the release and read the flag after it; this happens
  exactly when a callback stands between the two at the release (`FineAlignServer.LocksFollowReleaseIff`). With the raw
  stream monitored the command's own callback is never such a one.
* The age check on the alignment command uses the same early clock reading, and the time that passes between that
  reading, the lock and the publication is not checked. A command published within `d` of the reading can be as old as
  the timeout plus `d` and no older, so a given limit is kept in every run exactly when the timeout plus `d` keeps to it
  (`FineAlignServer.AgeAtPublicationIff`), and the timeout itself is exceeded as soon as any time passes
  (`FineAlignServer.TimeoutIsExceeded`). A command set after the reading passes with a negative age; it is younger.
* An activation that fails after its lookups leaves the new profile active under the old generation. A pass, be it the
  one under way or a later one, can then add an observation made with the wrong profile, and one does so in some
  continuation unless the profile is the same
  (`DetectionPipeline.RefusalMixesProfilesIff`).
* The recovery branch of the detection pass sets `last_sample_stamp_` without comparing it; it never goes back until the
  next activation, because one timer's callbacks do not overlap (`DetectionPipeline.StampNeverGoesBack`).
* The voxel key test compares with the rounded double maximum, so it admits 2^63 itself, which the conversion to a
  64-bit integer cannot hold (`VoxelFilter.AcceptedKeyMayNotFit`). The cell of an accepted point can be held exactly when
  every coordinate is below 2^63 times the voxel size (`VoxelFilter.AcceptedKeyFitsIff`). Keys are unbounded here.

## Model

| member | source | states |
|---|---|---|
| HolonomicFineAlign.TranslationBounds | include/x2_navigation/holonomic_fine_align.hpp:65-83 | a valid input always gives a command; its planar speed is within the configured range exactly when a position error outside tolerance and a small enough heading error ask for motion, and zero otherwise |
| HolonomicFineAlign.CommandPoints | include/x2_navigation/holonomic_fine_align.hpp:65-83 | the translation points at the target: each component is positive or negative exactly as the error lies beyond its tolerance on that side, backward only when reversing is allowed, and the two are in the proportion of the errors |
| HolonomicFineAlign.SpeedLaw | include/x2_navigation/holonomic_fine_align.hpp:74-80 | the speed is the gain times the distance, held between the minimum and a ceiling that falls linearly to the minimum as the heading error reaches the stop angle |
| HolonomicFineAlign.NeverBacksUp | include/x2_navigation/holonomic_fine_align.hpp:66-69 | with reverse disallowed the forward component is never negative |
| HolonomicFineAlign.TurnBounds | include/x2_navigation/holonomic_fine_align.hpp:85-90 | the turn is toward the target and within its range outside the yaw tolerance, and absent inside it |
| HolonomicFineAlign.TurnLaw | include/x2_navigation/holonomic_fine_align.hpp:85-90 | the turn is the gain times the heading error, held within its range on the side of the error |
| HolonomicFineAlign.StillExactlyAtGoal | include/x2_navigation/holonomic_fine_align.hpp:47-92 | the command is zero if and only if the goal test passes, for a robot facing the target that is not past it |
| ConfirmedAxis.StopTolerance | include/x2_navigation/docking_tracking.hpp:109-113 | the stop tolerance is positive and inside the completion tolerance |
| ConfirmedAxis.Axis.Update | include/x2_navigation/docking_tracking.hpp:118-141 | the update in place is the step function on the three fields |
| ConfirmedAxis.RunRemembers | include/x2_navigation/docking_tracking.hpp:118-145 | what the three fields mean after any history: the confirmed direction, and otherwise the length of the run of confirmations |
| ConfirmedAxis.ActiveIffConfirmed | include/x2_navigation/docking_tracking.hpp:118-141 | active in a direction if and only if the history ends in the required number of errors beyond the tolerance followed only by errors beyond the stop tolerance |
| ConfirmedAxis.ReversalIffSingleConfirmation | include/x2_navigation/docking_tracking.hpp:126-138 | a single update reverses a moving axis if and only if one confirmation is enough and the error lies beyond tolerance the other way |
| ConfirmedAxis.StopsBeforeReversing | include/x2_navigation/docking_tracking.hpp:126-138 | with two confirmations or more there is a standstill between any two opposite motions |
| ConfirmedAxis.SingleConfirmationReversesAtOnce | include/x2_navigation/docking_tracking.hpp:126-138 | a concrete history where one confirmation reverses without a stop |
| DockingMotion.Controller.UpdateController | include/x2_navigation/docking_tracking.hpp:154-232 | the update in place is the step function on axes, yaw gate and heading limiter |
| MotionBounds.UpdateBounds | include/x2_navigation/docking_tracking.hpp:182-231 | one update keeps the speed and turn ranges, remembers a heading exactly when it translates, along the command, and moves it by at most the direction rate |
| MotionBounds.RunBounds | include/x2_navigation/docking_tracking.hpp:182-231 | over any run a command exists exactly for finite errors, its planar speed is zero or in range, its turn is zero or in range, and it translates only while the heading error is below the yaw stop |
| MotionBounds.HeadingRate | include/x2_navigation/docking_tracking.hpp:211-226 | two translating commands in a row differ in heading by at most the direction rate times the time step |
| MotionBounds.NeverReverses | include/x2_navigation/docking_tracking.hpp:160-231 | over any run with reverse disallowed the forward component is never negative, heading limiter included |
| MotionDirection.RunFollows | include/x2_navigation/docking_tracking.hpp:160-180 | after any run each axis has seen the errors of the new observations in order, and the yaw gate is open if and only if enough of them in a row lay below the stop angle by the hysteresis with none at the stop angle since |
| MotionDirection.UpdateDrives | include/x2_navigation/docking_tracking.hpp:181-231 | an update that translates points at the error of the axes in motion, directly when it has no heading to keep, and otherwise with its heading turned toward that error by at most the limit; it stands still exactly when there is nothing to work down, the gate is shut, a reconfirmation is under way, or the turn would exceed a right angle |
| MotionDirection.UpdateSpeed | include/x2_navigation/docking_tracking.hpp:181-227 | its speed is the proportional law's for that error |
| MotionDirection.UpdateTurns | include/x2_navigation/docking_tracking.hpp:190-199 | its turn is the proportional law's for the yaw error while the yaw axis is in motion, and none otherwise |
| DockingProgress.UpdateAdvances | include/x2_navigation/docking_tracking.hpp:160-231 | an update that commands no motion uses up an observation of a measure over axes, gate and reconfirmation, unless the yaw error blocks the gate |
| DockingProgress.BoundedProgress | include/x2_navigation/docking_tracking.hpp:154-232 | after any history, a constant error that is not at the goal nor behind, nor in the hysteresis band with its yaw, makes the controller move before more than one observation beyond the confirmations has passed |
| DockingProgress.ProgressIffNotBlocked | include/x2_navigation/docking_tracking.hpp:171-201 | error by error: every reachable controller shown that constant error moves in time if and only if its yaw is not both within tolerance and inside the hysteresis band |
| DockingProgress.ProgressIffGateCoversTolerance | include/x2_navigation/docking_tracking.hpp:171-180 | the controller always makes progress if and only if the yaw tolerance lies below the yaw stop less its hysteresis |
| DockingProgress.StuckForever | include/x2_navigation/docking_tracking.hpp:171-201 | a yaw error within tolerance and inside the hysteresis band keeps it still for ever |
| TagSettling.Settling.Update | include/x2_navigation/docking_tracking.hpp:268-291 | the update in place is the step function on the dwell state |
| TagSettling.SettledIsSound | include/x2_navigation/docking_tracking.hpp:268-300 | a true answer means an earlier call at which a rest began, since which all were valid, every new observation stayed near that call's, the full duration passed, and the last observation is newer than the first |
| TagSettling.SettledIff | include/x2_navigation/docking_tracking.hpp:268-300 | a call answers true if and only if such a rest ends with it; a rest begins with a valid call that is the first, follows an invalid one, or brings a new observation too far from the one the rest before began with |
| TagSettling.SettledIsReported | include/x2_navigation/docking_tracking.hpp:268-300 | in particular a rest begun at the first call or after an invalid one is reported |
| TagSettling.SuccessRestsOnTwoObservations | src/fine_align_server.cpp:768-775 | a reported docking success rests on two distinct observations a settling duration apart, with both errors in the goal and a zero command throughout |
| TagTracking.Tracker.OnObservation | include/x2_navigation/docking_tracking.hpp:51-89 | the update in place is the step function, and says whether the observation was accepted |
| TagTracking.ObserveKeepsChain | include/x2_navigation/docking_tracking.hpp:51-89 | the tracker always rests on a chain of accepted samples with bounded gaps and jumps; a rejected observation changes nothing |
| TagTracking.ReadyIffEnoughSamples | include/x2_navigation/docking_tracking.hpp:91-91 | ready if and only if that chain is long enough |
| TagTracking.PredictionIsRigid | include/x2_navigation/docking_tracking.hpp:16-26 | the predicted error is the pose of a stationary target seen after the commanded motion |
| TagTracking.AgreementIsFixed | include/x2_navigation/docking_tracking.hpp:75-81 | an observation equal to the prediction leaves the filter there, whatever the weight |
| TagTracking.BlendApproaches | include/x2_navigation/docking_tracking.hpp:75-81 | the filtered position is no further from the observation than the prediction was, and equals it with a zero time constant |
| TagTracking.AcceptedIff | include/x2_navigation/docking_tracking.hpp:51-73 | an observation counts if and only if it is finite and newer than the reference, and begins afresh or lies within the distance and the turn that the time since allows |
| TagTracking.BlendDivides | include/x2_navigation/docking_tracking.hpp:75-81 | in both coordinates and in heading, what is left of the difference to the observation over what it was with the prediction is the time constant over its sum with the time step; with a zero time constant the observation itself is kept |
| TagTracking.FilteredIs | include/x2_navigation/docking_tracking.hpp:58-86 | the filtered pose is an accepted observation that begins afresh, and otherwise divides it in that way from where a stationary target would be seen after the commanded motion |
| TagTracking.ExactSightingsAreKept | include/x2_navigation/docking_tracking.hpp:51-89 | a stationary target seen exactly by a robot that carries out its commands leaves the filtered pose at the true one after any number of accepted observations |
| PlanarGeometry.DockPoseCommutes | include/x2_navigation/table_dock_geometry.hpp:17-39 | computing the docking pose commutes with planar rigid motions, its failure included |
| PlanarGeometry.DockPoseIff | include/x2_navigation/table_dock_geometry.hpp:21-28 | a tag has a docking pose if and only if the horizontal parts of its normal and of its horizontal axis are both at least one half long |
| PlanarGeometry.DockPoseFacesTag | include/x2_navigation/table_dock_geometry.hpp:29-38 | without offsets, the tag seen from the docking pose is straight ahead and the standoff away |
| PlanarGeometry.ErrorRoundTrip | include/x2_navigation/docking_tracking.hpp:245-252 | turning a pose into a planar error and back gives the pose |
| PlanarGeometry.NoErrorIffThere | include/x2_navigation/table_dock_geometry.hpp:48-56 | the error vanishes if and only if the robot stands at the target |
| PlanarGeometry.UndockTargetIndependent | src/fine_align_server.cpp:1210-1215 | for a stationary tag the undock target is the initial pose moved back, seen from the robot, whatever the standoff, lateral and yaw offsets |
| PlanarGeometry.RetreatErrorVanishesIffArrived | include/x2_navigation/docking_tracking.hpp:254-261 | the undocking error vanishes if and only if the robot is at the retreat pose |
| NavigationCommandGate.Gate.Clear | include/x2_navigation/navigation_command_gate.hpp:28-31 | a reset empties the gate |
| NavigationCommandGate.Gate.ReceiveRaw | include/x2_navigation/navigation_command_gate.hpp:33-44 | the raw update in place is the step function |
| NavigationCommandGate.Gate.Receive | include/x2_navigation/navigation_command_gate.hpp:46-57 | the smoothed update in place is the step function |
| NavigationCommandGate.Gate.Poll | include/x2_navigation/navigation_command_gate.hpp:59-71 | the poll in place is the step function and its answer |
| NavigationCommandGate.PollsNeverMatter | include/x2_navigation/navigation_command_gate.hpp:59-71 | with clock readings in order, removing every poll from a history leaves every later answer alone |
| NavigationCommandGate.PollIsHarmlessIff | include/x2_navigation/navigation_command_gate.hpp:59-78 | a poll changes no answer to any later poll, whatever ordered events come between, if and only if its clock reading is no earlier than a receipt that still counts: a raw one that keeps the lease alive, or that of a command that could still move the robot |
| NavigationCommandGate.OrderedPollsAreHarmless | include/x2_navigation/navigation_command_gate.hpp:59-71 | over clock readings in order every poll is harmless |
| NavigationCommandGate.GateIsItsHistory | include/x2_navigation/navigation_command_gate.hpp:28-85 | with the raw stream monitored a poll answers a moving command if and only if the two streams make it live: the latest smoothed command, recent, admitted after a raw command from which raw commands follow without a gap or a clearing event up to now |
| NavigationCommandGate.AnswersAreLive | include/x2_navigation/navigation_command_gate.hpp:59-71 | whatever the order of the clock readings, a moving answer is live in the two streams |
| NavigationCommandGate.UnmonitoredGateIsItsHistory | include/x2_navigation/navigation_command_gate.hpp:46-71 | without a raw stream a poll answers exactly the last event, if that was a finite and recent smoothed command |
| NavigationCommandGate.BadTimeoutShutsGate | include/x2_navigation/navigation_command_gate.hpp:74-78 | a timeout that is not a positive number shuts the gate |
| FineAlignServer.RunKeeps | src/fine_align_server.cpp:325-359 | in every interleaving at most one operation is alive and the flag says so; the alignment flag and command belong to it; the gate holds exactly what it took in since the last release |
| FineAlignServer.NothingIsLeftBehind | src/fine_align_server.cpp:1286-1296 | with no operation alive the alignment is inactive and its command empty; only the operation alive can release, and the gate is empty when it does |
| FineAlignServer.AlignmentProvenance | src/fine_align_server.cpp:1388-1406 | a published alignment command is the one set by the single operation alive in its current attempt, of the kind its goal allows, no older than the timeout at the clock reading taken before the mutex, and when it is published no older than the timeout plus the time since that reading |
| FineAlignServer.AgeAtPublicationIff | src/fine_align_server.cpp:1388-1405 | in every run every alignment command that moves the robot and is published within d of the clock reading is no older than a limit at that moment, if and only if the timeout plus d keeps to the limit, for any timeout, finite or not |
| FineAlignServer.TimeoutIsExceeded | src/fine_align_server.cpp:1391-1399 | for any finite timeout and any delay above zero a run that publishes a command older than the timeout |
| FineAlignServer.DecisionRestsOnReadings | src/fine_align_server.cpp:1393-1398 | that decision rests on readings under one hold of the mutex: navigation was quiet, and later the alignment was active |
| FineAlignServer.NothingAfterStop | src/fine_align_server.cpp:1286-1296 | once an attempt's stop has cleared the commands none of that attempt's commands is ever published again, in any continuation |
| FineAlignServer.HandoverWithoutReplay | src/fine_align_server.cpp:279-297 | a published navigation command that moves the robot is live in what the gate took in since the last release, all of it from callbacks that read the flag after that release; it comes from the latest smoothed command taken in, and with the raw stream monitored that command's callback also took the mutex after the release |
| FineAlignServer.NavigationMovesIffEntitled | src/fine_align_server.cpp:1388-1406 | in runs where no navigation callback overlaps the multiplexer's, a command that moves the robot is what navigation gets published if and only if it is live in what the gate took in since the last release, at the clock reading taken before the mutex |
| FineAlignServer.LocksFollowReleaseIff | src/fine_align_server.cpp:279-286 | all callbacks taken in until the next release took the mutex after this one, in every continuation, if and only if no callback held it unread at the release |
| FineAlignServer.Server.AcceptGoal | src/fine_align_server.cpp:327-331 | compare-and-swap: accepted exactly when no operation was active |
| FineAlignServer.Server.SetCommand | src/fine_align_server.cpp:959-966 | the critical section that sets the alignment command, and for a rotation raises the flag |
| FineAlignServer.Server.Clear | src/fine_align_server.cpp:1289-1294 | the critical section of a stop empties command, time and gate |
| FineAlignServer.Server.UpdateGate | src/fine_align_server.cpp:279-297 | both navigation callbacks: nothing if the flag was up, else the gate's update |
| FineAlignServer.Server.PublishSelectedCommand | src/fine_align_server.cpp:1393-1405 | what the multiplexer publishes, and the whole new state |
| FineAlignWorkers.AccessIsEnabled | src/fine_align_server.cpp:1286-1296 | each access of a thread that keeps to the protocol is enabled in the server's step relation and takes the operation where the protocol says |
| FineAlignWorkers.OthersLeave | src/fine_align_server.cpp:325-359 | no step of another thread or callback moves an operation that is not its own |
| FineAlignWorkers.InterleavedSteps | src/fine_align_server.cpp:325-359 | in any run in which a thread waits for the mutex and makes its steps in an order the protocol has, the server lets it make every one |
| FineAlignWorkers.TraceIsARun | src/fine_align_server.cpp:817-901 | however a thread whose accesses keep to the protocol is interleaved with any other steps, and wherever the run is cut off, each of its steps is enabled where it is taken, and once all are made the operation stands where the protocol says |
| FineAlignWorkers.ExecuteRotate | src/fine_align_server.cpp:903-975 | on every path the rotation stops before it lets go, exactly once and last; it is refused exactly when speed or duration is not finite, zero or beyond its limit; it commands the goal's turn and nothing else in each pass before the first that ends it, and that pass alone decides the result |
| FineAlignWorkers.RotationCodes | src/fine_align_server.cpp:925-957 | each result of a pass of the rotation, in what the pass reads and in the order of the checks |
| FineAlignWorkers.ExecuteTimedUndock | src/fine_align_server.cpp:1035-1104 | the same for the timed reverse |
| FineAlignWorkers.ReverseSuccessTakesTheDuration | src/fine_align_server.cpp:1063-1081 | it succeeds if and only if it has commanded, nothing interrupts it, and the whole duration has passed with no earlier timeout; later commands all come before the duration is over |
| FineAlignWorkers.ReverseCodes | src/fine_align_server.cpp:1052-1085 | each result of a pass of the timed reverse, in what the pass reads and in the order of the checks |
| FineAlignWorkers.Control | src/fine_align_server.cpp:703-814 | the loop makes one pass for each glance until the first that ends it: each pass reads its own glance uninterrupted, gives the motion controller the time and the newness since the glance before, and sets the command the controller answers; the flag goes up first; and the code is success if the dwell says settled in the last pass, else what interrupts the next glance, a refused error, or running out of them |
| FineAlignWorkers.LoopIsDetermined | src/fine_align_server.cpp:703-814 | that account leaves one result for given glances: accesses, code, passes and inputs |
| FineAlignWorkers.PassesAreFree | src/fine_align_server.cpp:713-775 | every pass that commands was made with no shutdown, cancellation, navigation or collision stop, in time, with a valid state, on a measurement, in a docking inside the envelope; the controller was told the time and the newness since the pass before |
| FineAlignWorkers.LoopCodes | src/fine_align_server.cpp:713-761 | each result of the loop if and only if it has settled or the first glance without a pass shows that reason and none that is looked for earlier |
| FineAlignWorkers.CollisionEndsLoop | src/fine_align_server.cpp:721-724 | a glance with a collision stop is never passed: all commands were set before it |
| FineAlignWorkers.CommandsInRange | src/fine_align_server.cpp:756-766 | every command a control loop sets is within the configured speed and turn ranges |
| FineAlignWorkers.WaitForMeasurement | src/fine_align_server.cpp:567-594 | the wait returns a measurement if and only if some pass finds one numbered beyond the minimum and no pass before it finds one or sees the deadline, a cancellation, navigation or a shutdown; and it is that first one |
| FineAlignWorkers.RunAttempt | src/fine_align_server.cpp:656-815 | an attempt that fails to acquire, or only checks, touches nothing and returns the code its readings give; otherwise it is the control loop over its glances |
| FineAlignWorkers.AttemptCodes | src/fine_align_server.cpp:664-698 | each result of an attempt that ends before it moves, in what the attempt reads |
| FineAlignWorkers.ExecuteDock | src/fine_align_server.cpp:817-901 | on every path the accesses are those of the attempts in order, each failure followed by a stop, then a stop and the release; every attempt but the last failed retryably, each retry waited for a measurement newer than any at the failure before it, and the code is that of the last attempt or of a wait cut short; it keeps to the protocol, commands are within range, a check alone touches nothing, and a success ends in a rest over two distinct observations in the last attempt's own passes |
| FineAlignWorkers.DockIsDetermined | src/fine_align_server.cpp:817-901 | that account leaves one sequence of attempts for given readings |
| FineAlignWorkers.RetriesFollowFailures | src/fine_align_server.cpp:879-891 | a further attempt follows only a missing tag, a robot outside the envelope or a deadline, without a cancellation, after a wait that was not cut short, and waits for a measurement newer than at the failure |
| FineAlignWorkers.DockEnds | src/fine_align_server.cpp:841-891 | no attempt follows the last because it succeeded, failed for good or was canceled, because none is left or because the wait was cut short, and that decides the result |
| FineAlignWorkers.Acquire | src/fine_align_server.cpp:1150-1175 | the search for a first measurement succeeds if and only if one is found before anything ends it, and else fails with the code of the first pass that ends it |
| FineAlignWorkers.SearchCodes | src/fine_align_server.cpp:1152-1174 | each result of a pass of the search, in what the pass reads and in the order of the checks |
| FineAlignWorkers.UndockCodes | src/fine_align_server.cpp:1106-1180 | each result of an undocking that ends before it moves, in the order of the checks |
| FineAlignWorkers.ExecuteTagUndock | src/fine_align_server.cpp:1106-1284 | the tag-relative undocking fails before it moves with the code its checks and its search give, else is the control loop over its glances; it stops and lets go, a success ends in a rest in its own passes, and a failure while canceling is reported as a cancellation |
| DetectionPipeline.Detector.ChooseProfile | src/fine_align_server.cpp:373-407 | the branches of the lookup, with what a refusal leaves behind |
| DetectionPipeline.SelectionIs | src/fine_align_server.cpp:369-407 | when a request is refused, when it is chosen and with which tag, and when it is refused after it has become the active profile, in terms of the request, the boxes seen and the last docking |
| DetectionPipeline.FetchIff | src/fine_align_server.cpp:447-473 | a pass goes on with the pending message if and only if it shows the profile's tag with enough margin, is stamped since the activation, and is neither from the future nor beyond either age limit |
| DetectionPipeline.Detector.ActivateProfile | src/fine_align_server.cpp:369-424 | a successful activation bumps the generation and forgets the measurements; a refused one does not |
| DetectionPipeline.ActivationForgets | src/fine_align_server.cpp:409-417 | a chosen profile starts from nothing under a new generation as of now; a refusal keeps everything but, at most, the active profile |
| DetectionPipeline.RecoveryForgets | src/fine_align_server.cpp:523-531 | a failed pass forgets tracker and target under its own generation only, and remembers its stamp as seen |
| DetectionPipeline.Detector.CommitMeasurement | src/fine_align_server.cpp:497-519 | the last critical section of a pass: recheck, observe, and update of the stable target |
| DetectionPipeline.Detector.RecoverFromFailure | src/fine_align_server.cpp:523-531 | the recovery section resets tracker and target of the same generation |
| DetectionPipeline.Run | src/fine_align_server.cpp:435-536 | every run keeps tracker, stable target, evidence and the pass in progress consistent |
| DetectionPipeline.TargetRestsOnEvidence | src/fine_align_server.cpp:505-519 | the stable target is there if and only if the tracker rests on enough consecutive observations with bounded gaps and jumps, and is the filtered pose as of the last of them |
| DetectionPipeline.MeasurementIff | src/fine_align_server.cpp:544-566 | a measurement is handed out if and only if that holds and the last observation is within both age limits, and it is about that one |
| DetectionPipeline.EvidenceIsOwn | src/fine_align_server.cpp:435-519 | from a successful activation to the next, every admitted observation was computed from the activated profile, is stamped no earlier than the activation, and later than all before it |
| DetectionPipeline.StampNeverGoesBack | src/fine_align_server.cpp:489-531 | between activations the stamp last seen never goes back, recovery included; a further sequence number comes with a strictly later target stamp and only with one; evidence is only added to |
| DetectionPipeline.NumbersAreObservations | src/fine_align_server.cpp:505-519 | of two measurements handed out between activations, the later has the larger sequence number if and only if it is about a later observation, stamped later, and the same number if and only if it is about the same one |
| DockingEvidence.DockingNamesObservations | src/fine_align_server.cpp:703-775 | an executed docking that reports success rests on two admitted observations of its own profile, stamped after its activation and one after the other, whose docking poses were both within tolerance, a settling duration apart, with the robot commanded to stand still from the one to the other |
| DockingEvidence.UndockingNamesObservations | src/fine_align_server.cpp:1210-1234 | a tag-relative undocking that reports success likewise rests on two admitted observations of its own profile, with the retreat errors within tolerance |
| DockingEvidence.RetryBeginsWithLaterObservation | src/fine_align_server.cpp:567-594 | the measurement a retry begins with is of an observation stamped later than the target there was when the attempt before it failed |
| DetectionPipeline.RefusalMixesProfilesIff | src/fine_align_server.cpp:388-409 | after a refused activation that overwrote the profile, between two passes or in the middle of one, the evidence stays the activated profile's own in every continuation if and only if the profile is the same |
| OdinAdapter.Newest | src/odin_localization_adapter.cpp:255-262 | the scan from the back finds the newest usable sample |
| OdinAdapter.Adapter.InvalidateLocal | src/odin_localization_adapter.cpp:176-191 | the whole state after an invalidation |
| OdinAdapter.Adapter.OnCorrection | src/odin_localization_adapter.cpp:88-115 | the native-correction callback in place is the step function |
| OdinAdapter.Adapter.OnOdometry | src/odin_localization_adapter.cpp:193-221 | the odometry callback in place is the step function |
| OdinAdapter.Adapter.OnTick | src/odin_localization_adapter.cpp:223-325 | the timer callback in place is the step function |
| OdinEpochs.QueueHolds | src/odin_localization_adapter.cpp:193-221 | in every run the queue is bounded, its stamps increase, lie above everything published since the last time regression and at or below the newest seen |
| OdinEpochs.FrontExpiryIsFilter | src/odin_localization_adapter.cpp:232-236 | dropping expired samples from the front equals filtering the whole queue |
| OdinEpochs.TimeStepIsPositive | src/odin_localization_adapter.cpp:272-277 | the branch for a time step of zero or less is unreachable, and odometry stamps strictly increase between time regressions |
| OdinOutcomes.TickTakesNewestUsable | src/odin_localization_adapter.cpp:253-296 | with its baseline in place a tick publishes the newest unexpired sample in reach of the robot's transforms if it is close to the last accepted one in time, distance and angle, and keeps every newer one |
| OdinOutcomes.JumpIsRefused | src/odin_localization_adapter.cpp:270-281 | if that sample lies too far from the last accepted one in distance, angle or time, the tick ends the epoch, publishes no odometry, and says lost and then not ready |
| OdinOutcomes.UnusableMountIsLost | src/odin_localization_adapter.cpp:301-305 | the same if its transform is of no use |
| OdinOutcomes.StaleBaselineIsLost | src/odin_localization_adapter.cpp:225-231 | the same if the baseline is no longer recent, and every waiting sample is dropped |
| OdinOutcomes.NothingInReach | src/odin_localization_adapter.cpp:237-257 | with nothing in reach a tick only reports, and every sample that still counts waits on |
| OdinOutcomes.EpochIsContinuous | src/odin_localization_adapter.cpp:270-296 | in every run each sample accepted within an epoch is close to the one before it in time, distance and angle |
| OdinOutcomes.CorrectionOutcome | src/odin_localization_adapter.cpp:88-115 | a correction is taken if and only if it is well formed, recent, newer than every such correction before and stamped after every invalidation; a malformed one spoils the correction there was if it would have been looked at; nothing else changes |
| OdinOutcomes.OdometryOutcome | src/odin_localization_adapter.cpp:193-221 | a message that is not well formed and recent, or is older than the last such message, ends the epoch; one of the same stamp changes nothing; a newer one joins the queue, whose oldest make room |
| OdinEpochs.ReadyIffEvidence | src/odin_localization_adapter.cpp:307-324 | a tick says ready if and only if alignment is confirmed, the last thing that bore on the correction (an acceptance, a malformed one, a loss) was an acceptance still fresh by stamp and by receipt, and two local samples were accepted since the last invalidation, the latest still fresh |
| OdinEpochs.ReadyRestsOnEvidence | src/odin_localization_adapter.cpp:307-324 | the correction a ready status rests on is the latest accepted, stamped after every invalidation so far |
| OdinEpochs.StampsIncrease | src/odin_localization_adapter.cpp:94-109 | accepted corrections and published map transforms carry strictly increasing stamps over the whole run |
| OdinEpochs.FirstStatusAfterLossIsNotReady | src/odin_localization_adapter.cpp:176-191 | the first status after any invalidation is not ready |
| VelocityBridge.NavigationVelocity | include/x2_navigation/velocity_command.hpp:43-55 | defined exactly for finite messages; each axis is its own component of the message inside its limits and the limit it is beyond otherwise |
| VelocityBridge.Bridge.OnReadiness | src/nav2_zmq_velocity_bridge.cpp:112-121 | the readiness callback in place is the step function |
| VelocityBridge.Bridge.OnCommand | src/nav2_zmq_velocity_bridge.cpp:171-184 | the command callback in place is the step function |
| VelocityBridge.Bridge.OnTimer | src/nav2_zmq_velocity_bridge.cpp:186-200 | the timer callback in place is the step function and its output |
| VelocityBridge.MotionIffAuthorised | src/nav2_zmq_velocity_bridge.cpp:171-194 | with localization required a send moves the robot with a velocity if and only if a usable and recent latest command was received within an unbroken stream of ready heartbeats that reaches to now |
| VelocityBridge.MessageWithinLimitsIsSent | src/nav2_zmq_velocity_bridge.cpp:171-194 | an authorised message within the limits is exactly what the robot is sent |
| VelocityBridge.UnguardedMotionIff | src/nav2_zmq_velocity_bridge.cpp:171-194 | without localization a send moves the robot with a velocity if and only if the latest command is usable, recent and renders as it |
| VelocityBridge.OutputsAreClamped | include/x2_navigation/velocity_command.hpp:95-104 | every output of every run keeps to the axis limits |
| LocalizedMotion.MotionOnlyAfterRecovery | src/odin_localization_adapter.cpp:289-324 | adapter and bridge composed: whatever moves the robot came, for every loss heard of, after a first message that denied readiness, a later one that claimed it, and a command received later still |
| LocalizedMotion.MotionIffRecovered | src/nav2_zmq_velocity_bridge.cpp:171-194 | adapter and bridge composed move the robot with a velocity if and only if a command authorises it that came after the recovery from every loss heard of |
| LocalizedMotion.RunCouples | src/nav2_zmq_velocity_bridge.cpp:112-121 | in every composed run the bridge has heard exactly the adapter's messages, in order, and both components are in the state their own histories give |
| LocalizedMotion.DenialsCarryOver | src/nav2_zmq_velocity_bridge.cpp:112-121 | losses announced as denials in the adapter's messages are heard as denials by the bridge |
| StartupGate.ReadinessHold.OnReady | scripts/nav2_localization_startup_gate.py:25-32 | the heartbeat in place is the step function |
| StartupGate.ReadinessHold.OnObserve | scripts/nav2_localization_startup_gate.py:34-45 | the look in place is the step function and its answer |
| StartupGate.QualifiesIffHeld | scripts/nav2_localization_startup_gate.py:25-45 | a look qualifies if and only if some look at least the hold time earlier began a stretch in which every transform check passed, every heartbeat was true and no gap exceeded the timeout |
| StartupGate.Gate.OnTimer | scripts/nav2_localization_startup_gate.py:105-144 | the timer in place is the step function |
| StartupGate.AtMostOneRequest | scripts/nav2_localization_startup_gate.py:105-144 | no run requests startup more than once |
| StartupGate.RequestOnlyAfterHold | scripts/nav2_localization_startup_gate.py:123-138 | the request goes out only at the end of a full hold with the service ready |
| StartupGate.RequestIffHeld | scripts/nav2_localization_startup_gate.py:123-138 | a tick asks for startup if and only if nothing was asked before, the service is ready and the tick ends a full hold |
| StartupGate.OutcomeIs | scripts/nav2_localization_startup_gate.py:105-144 | the gate finishes when the answer is there or the call raised, and fails exactly when the call raised or the answer is no |
| VoxelFilter.LayoutIff | src/point_cloud_voxel_filter.cpp:97-116 | a layout is valid if and only if it is little-endian and has no points, or its rows hold their points, no size overflows and the data holds the rows |
| VoxelFilter.ReadsStayInside | src/point_cloud_voxel_filter.cpp:97-116 | after the layout check every field of every point lies inside the data |
| VoxelFilter.FieldFits | src/point_cloud_voxel_filter.cpp:61-78 | a field that was found fits inside a point |
| VoxelFilter.FieldOffsetsIff | src/point_cloud_voxel_filter.cpp:61-96 | the offsets are found if and only if the first fields named x, y and z are single floats that fit a point, and each coordinate has its own |
| VoxelFilter.OnSampleIs | src/point_cloud_voxel_filter.cpp:230-247 | the loop's index is the closed form floor(k (n - 1) / (m - 1)), and (n - 1) / 2 for one sample |
| VoxelFilter.NextSample | src/point_cloud_voxel_filter.cpp:238-246 | a step of the division-free loop lands on the next sample |
| VoxelFilter.SamplesSpreadEvenly | src/point_cloud_voxel_filter.cpp:230-247 | samples are points, include the first and the last, and neighbouring gaps differ by at most one |
| VoxelFilter.SamplesIncrease | src/point_cloud_voxel_filter.cpp:230-247 | samples strictly increase |
| VoxelFilter.Accept | src/point_cloud_voxel_filter.cpp:254-271 | an accepted point lies in the height band |
| VoxelFilter.AcceptIff | src/point_cloud_voxel_filter.cpp:254-271 | a reading contributes a point if and only if it is finite, the transform takes it there, and the point lies in the height band and in the range of the cell numbers |
| VoxelFilter.SampleIs | src/point_cloud_voxel_filter.cpp:248-262 | the point of a sample is the transform of the numbers in its own x, y and z fields |
| VoxelFilter.AcceptedKeyFitsIff | src/point_cloud_voxel_filter.cpp:126-143 | the cell numbers of an accepted point fit 64-bit integers if and only if each coordinate is below 2^63 times the voxel size |
| VoxelFilter.AcceptedKeyMayNotFit | src/point_cloud_voxel_filter.cpp:131-141 | a point at 2^63 voxels is accepted while its cell number does not fit |
| VoxelFilter.CellsAreTheirs | src/point_cloud_voxel_filter.cpp:273-276 | the cells are exactly those of the points, each once |
| VoxelFilter.GroupsStep | src/point_cloud_voxel_filter.cpp:273-281 | one more point changes one group, its cell's, new at the end if it had none |
| VoxelFilter.CountsAddUp | src/point_cloud_voxel_filter.cpp:273-281 | the counts of the groups total the points |
| VoxelFilter.CentroidsStayInTheirCells | src/point_cloud_voxel_filter.cpp:297-302 | every centroid lies in its own cell and in the height band |
| VoxelFilter.OutputIsOnePointPerCell | src/point_cloud_voxel_filter.cpp:186-311 | the output has one point for each cell that holds an accepted sample and no other, in order of first occurrence |
| VoxelFilter.FilterAverages | src/point_cloud_voxel_filter.cpp:186-311 | each output point is the average of the accepted samples in its cell; a cloud with points is refused only for the size of the output; the three counts are those of the points, the samples and the cells |
| VoxelFilter.Workspace.AddPoint | src/point_cloud_voxel_filter.cpp:273-281 | the index map and the accumulators stay a first-occurrence bijection onto the groups |
| VoxelFilter.Workspace.Gather | src/point_cloud_voxel_filter.cpp:218-282 | after the loop they hold the groups of the accepted samples |
| VoxelFilter.Workspace.Filter | src/point_cloud_voxel_filter.cpp:186-311 | the result is a function of the arguments alone, whatever the workspace held before |
| ObstacleLayer.Layer.Receive | src/point_cloud_obstacle_layer.cpp:123-143 | an arriving cloud is refused, or queued with the oldest evicted from a full queue |
| ObstacleLayer.Layer.ProcessSource | src/point_cloud_obstacle_layer.cpp:151-192 | the erasing loop over one queue in place is the pass function |
| ObstacleLayer.Layer.ProcessPending | src/point_cloud_obstacle_layer.cpp:145-194 | a poll in place is the step function over all sources |
| ObstacleLayer.Layer.TurnOff | src/point_cloud_obstacle_layer.cpp:103-111 | deactivation clears every queue and leaves the buffers |
| ObstacleLayer.PassDecides | src/point_cloud_obstacle_layer.cpp:154-192 | the loop settles each queued cloud by its own visit alone, and a cloud left waiting is superseded exactly when a newer one is used |
| ObstacleLayer.RunKeeps | src/point_cloud_obstacle_layer.cpp:94-194 | in every run at most 50 clouds wait, clouds reach the buffer in strict order of arrival, nothing waiting is older than anything buffered, and every accepted cloud has one fate: waiting exactly when queued, buffered exactly when handed over |
| ObstacleLayer.FatesAreFinal | src/point_cloud_obstacle_layer.cpp:94-194 | a fate once decided, and the buffer's contents, survive every continuation |
| ObstacleLayer.PollSettles | src/point_cloud_obstacle_layer.cpp:145-194 | what a poll of an active layer does to each cloud, at any point of any run; with no waiting time nothing stays |
| ObstacleLayer.PollFates | src/point_cloud_obstacle_layer.cpp:154-192 | each fate of a waiting cloud in a poll: expired exactly when it has waited too long, buffered exactly when in time with its transforms, dropped exactly without them and without waiting, superseded exactly when a newer one is used |
| ObstacleLayer.ArrivalOutcome | src/point_cloud_obstacle_layer.cpp:123-143 | an arriving cloud is queued if and only if the layer is active and it has a frame and a stamp; only a full queue gives up its oldest |

## Left out

- Trigonometry.Trig: the functions of `<cmath>` are a parameter with laws; IEEE rounding, overflow and the propagation of NaN beyond the explicit finite checks are not modelled.
- Configuration values: real numbers, so a parameter that is not finite is not a case of its own, except the gate's timeout.
- Clocks: each callback takes one reading of each clock where the program may take several in a row; the multiplexer's reading before its lock is kept apart.
- FineAlignServer: a worker is the order of its accesses to shared state; which velocity it asks for, timeouts and cancellation are its free choices there, so the theorems hold for all of them. FineAlignWorkers shows that the code makes only such accesses.
- FineAlignServer.NavigationMovesIffEntitled: assumes callbacks of one group do not overlap, which the executor provides; the executor is not modelled. HandoverWithoutReplay and the other theorems hold without that.
- FineAlignWorkers: what a worker reads in a pass (cancellation, navigation, collision, state, measurement and whether it lies in the capture envelope, clocks) is an input; running out of inputs stands for a shutdown. Feedback, logs and result fields other than the code are not modelled, nor is a timed reverse's cancellation that arrives between the pass that ended it and its report.
- DockingMotion.Controller.UpdateController: asks for a time step of zero or more, because `std::clamp` needs ordered bounds; the control loops give one, since their clock is monotone.
- FineAlignServer.Server: its methods are the sections of code between accesses another thread can come between; that threads interleave them in any order is said by the step relation, not by the class.
- DetectionPipeline: one pass at a time, as the timer's callback group allows; the command and collision state a pass reads for its prediction are an arbitrary velocity; the transform tree is an oracle.
- DetectionPipeline.Bind: the text of a box instance name is a parameter that says which tag it encodes, if any; profile validation at start-up in docking_profiles.hpp is not modelled.
- DockingEvidence: the measurement a control pass reads is tied to the pipeline; that a pass reads the other inputs truthfully, and how an undocking turns the measurement into a retreat error, is not.
- DetectionPipeline.EvidenceIsOwn: speaks of runs without a further activation; that only the operation alive activates is the mutual exclusion in FineAlignServer.
- OdinAdapter: poses are abstract values with a distance and an angle; odin_transform.hpp, the published twist and covariances are not modelled. An exception between the readiness query and the lookup of a transform leads to the same retry as a failed query, and is not a separate case.
- odometry_transform.hpp: matrix algebra is not modelled; the off-diagonal block of its twist Jacobian has the opposite sign to its velocity map, so they do not agree.
- LocalizedMotion.MotionOnlyAfterRecovery: assumes that readiness messages arrive at once, in order and without loss.
- VelocityBridge: the socket, the JSON text and the stamped copy of the command are not modelled; a send always succeeds.
- VoxelFilter: decoding four bytes to a float and the rigid transform are parameters; sums are exact; the encoding of the output cloud is not modelled beyond its size limit.
- NavigationCommandGate.UnmonitoredGateIsItsHistory: assumes no raw events, since the server subscribes to none without a raw topic.
- ObstacleLayer: an exception from the observation buffer is not modelled; the costmap layer and the buffers' own expiry belong to Nav2.
- StartupGate: the lifecycle service is an oracle, asked once.
- payload_cloud_filter.cpp: drops the points inside a fixed box while the robot holds a payload; one pass over a cloud, without state between clouds.
- lidar_cloud_throttle.cpp: hands the newest cloud to the voxel filter on a timer, after a transform lookup and a stamp offset; timing.hpp checks its period for overflow.
- fast_lio_odom_adapter.cpp: checks two frame names and applies the transform of odometry_transform.hpp to each message.
- Launch files, parameter files, the description generator under tools, and the maps: configuration, without control logic.
