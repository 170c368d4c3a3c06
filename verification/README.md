# Motion stack model

A Dafny model of the Pi-side motion stack of the talking lamp, with proofs about it, and of a
few self-contained algorithms beside it. `dafny verify dfyconfig.toml` checks everything.

What is modelled, and in which files:

- **The command-ticket protocol** of the motion controller and its local socket server
  (`OrderedTickets`, `TicketProtocol`, `TicketInvariant`, `PlanFacts`, `TicketRuns`,
  `TicketTheorems`, `QueueOrder`, `LocalTickets`, `MotionController`, `CommandEffects`,
  `SectionEffects`, `LocalControl`). Transport threads and
  the owner thread are a transition system: each critical section is one step, and a run is any
  list of steps. `MotionController.Controller` is the controller as an object: every call of a
  transport thread is one step, every section of the owner is a run of steps
  (`MotionController.CommandIsARun`, `MotionController.SectionIsARun`), and all of them keep the
  invariant of the protocol.
- **The deadline grid** of the 100 Hz loops (`DeadlineGrid`). The clock is any non-decreasing
  sequence of readings, so every sleep and every overrun is covered.
- **The trajectory generator** with its analytic tracker (`Tracker`, `Trajectory`, `SpringRegime`,
  `Pursuit`, `Homing`, `Arrival`, `PoseArrival`): braking room as an invariant, limits that may be
  tightened for a step, where each step goes, and how a fixed target is reached from anywhere.
- **The target filter** (`Matrices`, `Covariance`, `Kalman`), with full matrix products.
- **The playback planner** (`Poses`, `Smoothing`, `Resampling`, `StepLimit`, `Playback`).
- **Gestures around a yaw anchor** (`Primitives`, `PrimitiveLayers`, `Blender`, `SafeYaw`,
  `MotionRuntime`): sampling, fitting, blending, the yaw limits of the step that follows, and
  the runtime's tick that composes them.
- **The orientation coordinator** (`Orientation`), **direction of arrival** (`Circular`,
  `Stabilizer`) and the **device loop** that gates it by playback (`DeviceLoop`).
- **Stand-alone algorithms**: edit distance (`EditDistance`), Sino-Korean numerals
  (`Numerals`), non-maximum suppression (`Nms`), wake-word runs (`WakeRuns`).

Conventions:

- Floats are exact reals; arrays over joints are sequences of five. Square root and matrix
  inverse are parameters known only by their contracts (`RealMath.IsSqrt`,
  `Matrices.IsInverse`).
- The syllables of Korean number words are an enumeration, one value per character.
- Time enters as parameters or as sequences of readings. Randomness, sockets, hardware,
  inverse kinematics and torque enter as arbitrary inputs (`TicketProtocol.View`).
- An exception is a result value (`Raised`, `Refused`, `OutOfOrder`, and so on), and the
  contracts say what is left unchanged when it is raised.
- A ticket's two futures are kept as maps from tickets to results inside the controller.
- The sections of a controller tick may start in any order and any number of times, which
  includes the order of `tick_once`. What holds for all of these runs holds for the real ones.

What the proofs found out about the code:

- An invalidated ticket never commands the runtime, but only because local clients cannot send
  tracking commands: `track.point` and `track.bearing` tickets bypass the queue and its
  invalidation check. `LocalTickets.NeverRunsIff` shows that the guarantee holds for exactly the
  command sets without them.
- Smoothing can push a valid recording outside ±100, and then the planner refuses it
  (`Smoothing.SmoothingKeepsRangeIff`, `Playback.ValidRecordingRefused`); its documentation
  does not say so.
- The first step after an anchor is set can raise for lack of braking room, although the joint
  could stop inside its hard limits (`SafeYaw.FirstAnchoredStepIff`,
  `SafeYaw.FirstAnchoredStepCanFail`): with the limits of the base joint for every margin above
  0.0006 rad, and in general exactly if the margin is worth more speed than one period can take
  away (`SafeYaw.AnchoringSucceedsIff`). Once it succeeds, no step fails while the anchor stays
  and no task light is held; the first step after a task light can fail again.
  `SafeYaw.YawRunIsSafe` and `MotionRuntime.Runtime.Step` say exactly which ticks fail.
- The character error rate is documented as 1.0 when everything is wrong. That holds exactly for a
  hypothesis that is no longer than its reference; a longer one that shares no character with it
  has a greater rate (`EditDistance.EntirelyWrongIsOneIff`).
- `fired` and `count_over` disagree when no run at all is required and nothing reaches the
  threshold (`WakeRuns.FiredIffCounted`).

## Model

| member | source | states |
|---|---|---|
| `TicketTheorems.TicketsAreConserved` | src/motion/controller.py:132-192 | In every reachable state a submitted ticket is pending exactly while its completion is unresolved; it has at most one holder (queue, two latest-wins slots, four active slots, owner's hand), and a pending one exactly one except between a fault and its drain; a queued ticket is pending or invalidated, never both; a completed ticket is also accepted |
| `TicketTheorems.ResolvedOnce` | src/motion/controller.py:171-192 | A result given to either future of a ticket at any point of a run is never changed later |
| `TicketTheorems.BegunOrInvalidated` | src/motion/controller.py:203-220 | Over every interleaving no ticket is both begun and invalidated; invalidated tickets are local and already resolved |
| `LocalTickets.InvalidatedNeverRuns` | src/motion/controller.py:203-220 | With the command types the local decoder lets through, an invalidated ticket never commands the runtime, the invalidated set names only tickets still queued or in the owner's hand, and an unclaimed pending local ticket is one of those |
| `LocalTickets.NeverRunsIff` | src/motion/controller.py:151-157 | That guarantee holds for exactly those sets of local command types without the two tracking commands |
| `LocalTickets.LooseSteps` | src/motion/controller.py:293-321 | The counterexample: a local tracking ticket that is submitted, invalidated and then executed |
| `TicketTheorems.StopDrains` | src/motion/controller.py:624-636 | Once a shutdown has run, every ticket ever submitted is resolved, the mailbox and the four slots are empty, and that stays so whatever anyone does later |
| `TicketTheorems.ShutdownCompletes` | src/motion/controller.py:262-272 | A shutdown of a stopped controller takes the owner two sections, whatever transport threads do in between |
| `TicketTheorems.SubmitAfterStop` | src/motion/controller.py:148-151 | A new request submitted to a stopped controller is resolved as failed before the call returns |
| `TicketTheorems.InFlightDeduplicated` | src/motion/controller.py:136-144 | However many results have passed through the bounded cache, a request in flight is answered with its own ticket; the cache never exceeds 256 |
| `TicketTheorems.LatestWins` | src/motion/controller.py:152-157 | A tracking request takes the slot, cancels the pending one it replaces as superseded, and is itself pending |
| `TicketTheorems.RecentIsRemembered` | src/motion/controller.py:165-169 | A ticket that is remembered is still cached after any 255 others, so a repeated request finds it |
| `TicketTheorems.HitIsRemembering` | src/motion/controller.py:138-143 | A hit makes its ticket the latest, as remembering it would |
| `TicketInvariant.SubmitKeeps` | src/motion/controller.py:132-163 | Submitting keeps the whole protocol invariant, on every path (cached, collision, fault, stopped, slot, queue, queue full) |
| `TicketInvariant.InvalidateKeeps` | src/motion/controller.py:203-211 | Invalidating keeps the invariant |
| `TicketInvariant.ClearKeeps` | src/motion/controller.py:262-272 | Draining the mailbox and finishing everything pending keeps the invariant, whatever slot work is still to come |
| `PlanFacts.PlanHasShape` | src/motion/controller.py:350-525 | Whatever the command and the state of the runtime, the owner disposes of a claimed ticket exactly once, and vacates a slot before placing a ticket in it |
| `TicketRuns.BeginStepKeeps` | src/motion/controller.py:213-220 | Claiming or throwing away the ticket just taken off the queue keeps the invariant |
| `TicketRuns.StepKeeps` | src/motion/controller.py:638-664 | One step of anyone, including an exception or an interrupt in the middle of a section, keeps the invariant |
| `TicketRuns.Reachable` | src/motion/controller.py:85-130 | Every state of every interleaving from start-up satisfies the invariant |
| `MotionController.Controller.constructor` | src/motion/controller.py:86-130 | A new controller is in the initial state of the protocol |
| `MotionController.Controller.Submit` | src/motion/controller.py:132-163 | The call is one step of the protocol, returns the ticket the protocol says, and keeps the invariant |
| `MotionController.Controller.Remember` | src/motion/controller.py:165-169 | The recent cache moves or adds the ticket at the end and forgets the oldest beyond 256 |
| `MotionController.Controller.Accept` | src/motion/controller.py:180-181 | Resolves the first future unless it is resolved already, and nothing else |
| `MotionController.Controller.Finish` | src/motion/controller.py:183-192 | Takes the ticket out of the pending table if it is the pending one, remembers it, and resolves both futures unless they are resolved already |
| `MotionController.Controller.RemoteDisconnected` | src/motion/controller.py:198-201 | Sets the flag, one step of the protocol |
| `MotionController.Controller.InvalidateUnstarted` | src/motion/controller.py:203-211 | True exactly if the ticket is local, pending, not begun and not accepted; then it is cancelled and marked; otherwise nothing changes |
| `MotionController.Controller.Begin` | src/motion/controller.py:213-220 | False exactly for an invalidated ticket, which loses its mark; any other is marked as started |
| `MotionController.Controller.Stop` | src/motion/controller.py:222-226 | One step of the protocol |
| `MotionController.Controller.ClearMailbox` | src/motion/controller.py:262-272 | The drain as the protocol has it: queue and slots emptied, marks of drained tickets dropped, every pending ticket finished |
| `MotionController.Controller.SafeDisconnect` | src/motion/controller.py:274-291 | The section as the protocol has it: drain, then cancel the four slots, only if the flag was set; like every section below, it keeps the invariant and leaves the owner with nothing to do |
| `MotionController.Controller.ApplyLatestTracking` | src/motion/controller.py:293-321 | Both latest-wins entries are taken in one section and then answered one by one; keeps the invariant |
| `MotionController.Controller.ObserveOrientation` | src/motion/controller.py:334-348 | Finishes and vacates the orientation or return slot exactly when the coordinator reports it reached or timed out; keeps the invariant |
| `MotionController.Controller.ApplyOneDiscreteCommand` | src/motion/controller.py:350-358 | Takes the oldest command, claims it and works off the plan of its type; a thrown-away ticket leads to nothing; keeps the invariant. What the whole command does is said by the `CommandEffects` rows |
| `MotionController.Controller.Execute` | src/motion/controller.py:357-525 | The branches of a claimed command perform the micro-actions of the protocol's plan in order; their effects are said by the `CommandEffects` rows |
| `MotionController.Controller.Play` | src/motion/controller.py:369-383 | The branch of `motion.play` performs the protocol's plan: refused, or old motion replaced, slot taken, accepted |
| `MotionController.Controller.Acquire` | src/motion/controller.py:384-428 | The branch of `orientation.acquire`, with all its refusals, performs the protocol's plan |
| `MotionController.Controller.ReturnCenter` | src/motion/controller.py:429-444 | The branch of `orientation.return_center` performs the protocol's plan |
| `MotionController.Controller.StopMotion` | src/motion/controller.py:450-462 | The branches of `motion.cancel` and `motion.interrupt` perform the protocol's plan |
| `MotionController.Controller.TaskLight` | src/motion/controller.py:463-485 | The task-light branches perform the protocol's plan, including a refused retarget that also ends the old hold |
| `MotionController.Controller.CoolDown` | src/motion/controller.py:612-622 | An over-temperature stop cancels the tickets of all four slots; keeps the invariant |
| `MotionController.Controller.UpdateActiveTicket` | src/motion/controller.py:539-561 | Completes the motion and vacates its slot; completes a task-light ticket, which keeps its slot, only while it is unresolved; keeps the invariant |
| `MotionController.Controller.ShutDown` | src/motion/controller.py:624-632 | Drain, then all four slots vacated; keeps the invariant |
| `MotionController.DoAllIsARun` | src/motion/controller.py:638-664 | Working off what the owner still has to do, once nothing of it claims a command, is the run of the protocol in which only the owner moves |
| `MotionController.CommandIsARun` | src/motion/controller.py:350-358 | A whole discrete command, from taking it off the queue to the last action of its plan, is a run of the protocol, thrown away or not |
| `MotionController.SectionIsARun` | src/motion/controller.py:638-664 | So is every other section of a tick: the run that starts it and works it off |
| `CommandEffects.ExpiredIsRefused` | src/motion/controller.py:350-359 | After a whole command whose ticket is expired, of whatever kind: the runtime was not commanded, the four slots are as before, the ticket completed as failed with `expired`, and no other ticket got an answer |
| `CommandEffects.TooHotIsRefused` | src/motion/controller.py:361-368 | The same with the alert's code for every kind outside the eight that are obeyed while the shoulder is hot |
| `CommandEffects.PlayEffect` | src/motion/controller.py:369-383 | An unknown motion is refused; so is one on a busy head without `replace_current`, which leaves the slot alone; otherwise the runtime is commanded, the old motion is cancelled as replaced, the ticket takes the slot and stays open |
| `CommandEffects.AcquireEffect` | src/motion/controller.py:384-428 | The refusals in their order, what each does to runtime, slots and ticket, and the two successes: completed as aligned with both turn slots empty, or waiting in the orientation slot |
| `CommandEffects.ReturnEffect` | src/motion/controller.py:429-444 | Refused while anything moves the arm, or passed on and refused, or the ticket takes the return slot and both turns before are cancelled as replaced |
| `CommandEffects.StopEffect` | src/motion/controller.py:450-462 | A cancellation with another ID touches nothing and completes as not found; one with the right ID, and every interrupt, empties the motion and task slots and cancels their tickets with these codes |
| `CommandEffects.PlaceEffect` | src/motion/controller.py:463-477 | A task light takes the slot of the one before; a refused target empties it |
| `CommandEffects.ClearEffect` | src/motion/controller.py:478-519 | A cancellation with another ID touches nothing; otherwise the task slot is emptied and its ticket cancelled |
| `CommandEffects.FaceEffect` | src/motion/controller.py:489-497 | Busy, passed on and unsafe, or carried out at once; slots as before |
| `CommandEffects.AwayEffect` | src/motion/controller.py:502-512 | Too warm, busy, too heavy, or carried out at once; slots as before |
| `CommandEffects.PlainEffect` | src/motion/controller.py:486-525 | The commands that always succeed: those that clear something command the runtime, those that only ask or wait do not; an unknown type is refused |
| `CommandEffects.InvalidatedIsThrownAway` | src/motion/controller.py:350-356 | A ticket invalidated in time leads to nothing at all |
| `SectionEffects.DisconnectEffect` | src/motion/controller.py:274-291 | With the flag set, everything pending is cancelled as disconnected and nobody else hears anything, the mailbox and the four slots are empty; without it nothing happens |
| `SectionEffects.ShutdownEffect` | src/motion/controller.py:624-632 | Everything pending is answered, as failed after a fault and as cancelled otherwise; mailbox and slots are empty |
| `SectionEffects.AbortEffect` | src/motion/controller.py:690-697 | An exception or an interrupt between two actions answers nobody itself, and turns into a shutdown, for an exception one with a fault |
| `SectionEffects.HotEffect` | src/motion/controller.py:612-622 | All four slots are emptied, their tickets cancelled, and nobody else hears anything |
| `SectionEffects.TrackingEffect` | src/motion/controller.py:293-321 | Each of the two tracking entries is answered on its own terms: too hot, expired, or obeyed; only obeyed ones command the runtime |
| `SectionEffects.ObserveEffect` | src/motion/controller.py:334-348 | Exactly the turn that ended leaves its slot, and its ticket alone is answered, with the code of the coordinator |
| `SectionEffects.UpdateEffect` | src/motion/controller.py:539-561 | A motion that is over leaves its slot and is completed; a task light that is reached is completed and keeps its slot |
| `SectionEffects.InvalidateEffect` | src/motion/controller.py:203-211 | A successful invalidation cancels that ticket, and no other ticket hears of it |
| `SectionEffects.SubmitEffect` | src/motion/controller.py:136-163 | Where a new request goes: failed at once after a fault, a stop or with a full queue; else into its latest-wins slot, whose ticket is told so, or behind all others in the queue; nobody else is answered |
| `SectionEffects.ResubmitEffect` | src/motion/controller.py:136-144 | A cached request gets its own ticket and changes only the order of the cache; under the ID of another origin it gets a new ticket that fails, and nothing else changes |
| `QueueOrder.ClaimedInOrder` | src/motion/controller.py:158-163 | In every run, whatever was claimed was submitted before whatever is still queued, with the ticket in the owner's hand between the two |
| `QueueOrder.KeysCountSubmissions` | src/motion/controller.py:145-147 | Keys count submissions: a new ticket's key exceeds all before |
| `LocalControl.UnixServer.HoldTicket` | src/motion/local_control.py:105-112 | The holder table counts the live holds of every ticket across connections, before and after |
| `LocalControl.UnixServer.Receive` | src/motion/local_control.py:193-196 | The request is submitted and its hold recorded |
| `LocalControl.UnixServer.ReleaseHolder` | src/motion/local_control.py:114-143 | Only the last live hold of a ticket invalidates it; releasing any other leaves the controller untouched |
| `LocalControl.UnixServer.Close` | src/motion/local_control.py:202-208 | All holds of the connection and no others are released, and no ticket that thereby lost its last holder can still be invalidated, with the owner between two sections or in the middle of one |
| `LocalControl.InvalidateOnce` | src/motion/controller.py:203-211 | Invalidating a ticket leaves nothing to invalidate for it, and makes no other ticket invalidable |
| `LocalControl.InvalidableIff` | src/motion/controller.py:203-211 | In every reachable state a local ticket can be invalidated exactly while it was neither answered nor begun |
| `LocalControl.OutOfReachForEver` | src/motion/local_control.py:202-208 | A ticket that cannot be invalidated never can be again, along any run of transport and owner steps, so also between the releases of a closing connection |
| `DeadlineGrid.NextSlotIff` | src/motion/controller.py:680-682 | The rounded-up slot is at most `k` exactly when the clock is at most slot time `k` plus 1 ms plus 1e-9 of a period |
| `DeadlineGrid.Run` | src/motion/controller.py:666-695 | For every clock, every tick is admitted within the tolerance of its slot, every discarded slot is overdue by more, slots strictly increase, and sent plus missed is the slot index except for one last tick that sent nothing |
| `DeadlineGrid.Await` | src/motion/controller.py:672-679 | The wait ends with a reading not before the deadline, with the stop flag, or with the readings given |
| `DeadlineGrid.Spacing` | src/motion/config.py:31-35 | Two admitted ticks are never closer than a period less 1 ms and 1e-9 of a period, and one more period for each slot between them |
| `DeadlineGrid.RunHardware` | src/motion/hardware_run.py:65-90 | The same for the stand-alone run, whose commands all go out before its end; an uninterrupted run accounts for every slot: sent plus missed is the slot count |
| `DeadlineGrid.SlotCountCovers` | src/motion/hardware_run.py:66-66 | The slot count covers the duration, to 1e-9 of a period, and no more |
| `Tracker.BrakeCapIff` | src/motion/trajectory.py:221-223 | The square-root cap is exactly the speed from which one more period and the stopping distance fit into the room |
| `Tracker.FeasibleIff` | src/motion/trajectory.py:224-229 | For a joint inside the limits the step can be taken exactly if its speed can be lost within a period or the braking room suffices, in both directions |
| `Tracker.StepIsViable` | src/motion/trajectory.py:198-234 | A step that is taken, from any state and for any target, ends inside the limits, within speed and acceleration limits, with room to brake at both ends |
| `Tracker.ViableIsFeasible` | src/motion/trajectory.py:212-230 | From a state with braking room the next step never raises |
| `Tracker.WiderIsViable` | src/motion/trajectory.py:100-101 | Relaxing limits keeps the braking room |
| `Tracker.TrackIsSafe` | src/motion/trajectory.py:198-234 | From rest inside fixed limits, for every sequence of targets, no step raises, position, speed and acceleration stay in bounds and `v² <= 2 amax room` is kept at both ends |
| `Pursuit.StepIsNearest` | src/motion/trajectory.py:198-234 | The new speed of a joint inside its limits is, of all speeds that the drive reaches in a period and that leave the joint able to stop inside the limits, the one nearest to the speed wished for the target: the spring's near it, elsewhere towards it at the lesser of the top speed and `sqrt(1.9 amax |e|)` |
| `Pursuit.AllowedIff` | src/motion/trajectory.py:212-230 | The computed bounds are exactly those speeds |
| `Pursuit.WantedIs` | src/motion/trajectory.py:200-211 | Without position limits the speed is the wish, as near as acceleration and speed limits allow |
| `Pursuit.RestApproaches` | src/motion/trajectory.py:198-234 | From rest, for any target inside the limits that is not near, the step goes strictly towards it, and does not pass it if it is out of reach of one period |
| `Pursuit.NeverPassesIff` | src/motion/trajectory.py:198-211 | No free step from rest passes a target that is not near, exactly if one period from rest reaches no farther than the near zone |
| `Pursuit.KeepsItsSpeed` | src/motion/trajectory.py:198-234 | Moving towards such a target no faster than wished, a joint does not slow down unless braking room forces it |
| `Pursuit.StepFlips` | src/motion/trajectory.py:198-234 | The tracker does the same to both sides |
| `Arrival.StepIsPeriod` | src/motion/trajectory.py:198-234 | Each period of a joint with a fixed target at least 0.04 rad inside the limits is one of those that lead home: bounds on the new speed, far from the target and near it |
| `Homing.ComesHome` | src/motion/trajectory.py:198-234 | From every state such periods lead into the zone where the spring is unclipped, within `4 a + b + 2` of them, for `a` periods of acceleration that make the top speed and `b` periods at a pace that make the range |
| `Arrival.TargetIsReached` | src/motion/trajectory.py:198-234 | From every state that can stop inside the limits, a fixed target is reached: after that many periods the squared distance is below 0.0008 and falls by 12 % in every further one, and no step ever fails |
| `Arrival.RuntimeDrivesSuit` | src/motion/config.py:31-41 | The speed and acceleration limits of all five joints at the control period meet the conditions of that |
| `SpringRegime.SpringStep` | src/motion/trajectory.py:205-211 | In a small level set of `e² + 7 (h v)²` no clip and no position limit acts, and the quantity falls by at least 12 % in the period |
| `SpringRegime.NoLimitCycle` | src/motion/trajectory.py:205-211 | For a fixed target the state stays in that set for all later periods, the quantity falls by at least 12 % in each of them, and no step raises |
| `SpringRegime.Settles` | src/motion/trajectory.py:205-211 | After `n` periods the squared distance to the target is at most `0.88^n` of the level it started in |
| `Trajectory.Make` | src/motion/trajectory.py:37-67 | Construction raises exactly for a period that is not positive or a pose outside the limits; otherwise all joints stand at the pose, with braking room if the speed and acceleration limits are positive |
| `Trajectory.TrajectoryGenerator.Reset` | src/motion/trajectory.py:72-78 | Raises for a pose outside the limits and changes nothing, or puts all joints at rest there |
| `Trajectory.TrajectoryGenerator.Step` | src/motion/trajectory.py:80-110 | Raises in exactly the four checked cases (wrong period, malformed limits, an empty interval, no possible step), in their order, and then leaves position, velocity, acceleration and hard limits unchanged; a step that is taken leaves braking room for its own limits and for the hard ones |
| `Trajectory.TrajectoryGenerator.AnalyticStep` | src/motion/trajectory.py:198-234 | All joints move by the tracker's step for their own targets, or, if the step of any of them cannot be taken, none does; where they go is said by the `PoseArrival` and `Pursuit` rows |
| `Trajectory.TakenStepIsViable` | src/motion/trajectory.py:86-101 | A step under narrower limits ends with braking room for those limits and for the hard limits, wherever it started |
| `Trajectory.ReturningToHardLimitsNeverRaises` | src/motion/trajectory.py:98-102 | From rest, after any calls, refused or not and under any temporary limits, a step under the hard limits alone never raises |
| `PoseArrival.EachJointGoes` | src/motion/trajectory.py:80-110 | A step that is taken moves each joint at the open speed nearest to the one wished for its own target, under the limits of that step |
| `PoseArrival.EachJointGoesFreely` | src/motion/trajectory.py:198-211 | Without limits, as near to the wish as acceleration and speed limits allow |
| `PoseArrival.PoseIsReached` | src/motion/trajectory.py:80-110 | A pose that is asked for in every call is reached, joint by joint, in the number of calls that the tracker needs |
| `Kalman.PredictIsIsotropic` | src/motion/kalman.py:56-66 | `F P Fᵀ + Q` of a covariance `[[aI, bI], [bI, cI]]` has that form again, with the scalars of a constant-velocity model |
| `Kalman.UpdateIsIsotropic` | src/motion/kalman.py:76-84 | So has `(I - K H) P`, with the inverse known only by its contract |
| `Covariance.GrownPositive` | src/motion/kalman.py:56-66 | Predicting keeps `a > 0, b >= 0, c >= 0, ac >= b²`, never lowers the position variance, and raises it exactly if the velocity or the acceleration is uncertain |
| `Covariance.ShrunkPositive` | src/motion/kalman.py:76-84 | Measuring keeps that form, strictly lowers the position variance, raises neither of the others, and multiplies `ac - b²` by `r / (a + r)` |
| `Covariance.GrownSpreads` | src/motion/kalman.py:56-66 | The predicted variance of every weighted sum of position and velocity is that of the moved sum before, plus the variance of a constant acceleration: the covariance is carried along by the motion |
| `Covariance.ShrunkIs` | src/motion/kalman.py:76-84 | A measurement takes from each variance exactly what position explains of it |
| `Kalman.EveryRunIsGood` | src/motion/kalman.py:39-85 | After any run of predictions, measurements and resets the covariance of a known track is isotropic and positive, and it was measured at most `max_coast` ago |
| `Kalman.KnownIff` | src/motion/kalman.py:67-69 | A track is active exactly if a measurement came since the last reset and the time since the latest one is at most `max_coast` |
| `Kalman.ConfidenceInUnit` | src/motion/kalman.py:107-118 | In every reachable state confidence is below one, and positive exactly while the track is active |
| `Kalman.ConfidenceIs` | src/motion/kalman.py:107-114 | The confidence of a known track is the share of the measurement variance in the total, strictly between zero and one |
| `Kalman.CoastingLosesConfidence` | src/motion/kalman.py:107-114 | A prediction over some time never raises the confidence of an active track, and strictly lowers it exactly if process or initial speed noise is configured (as by default) or the track is dropped |
| `Kalman.MeasuringGainsConfidence` | src/motion/kalman.py:71-85 | Every measurement strictly raises the confidence, and starts a lost track at one half |
| `Kalman.UpdateIsWeightedMean` | src/motion/kalman.py:80-83 | The position after a measurement is the precision-weighted mean of prediction and measurement |
| `Kalman.UpdateCorrectsVelocity` | src/motion/kalman.py:80-83 | The velocity changes by the share `b / (a + r)` of the innovation, component by component |
| `Kalman.SteadyMotionIsFollowed` | src/motion/kalman.py:53-85 | An estimate that agrees with a target in steady motion agrees with it for as long as it is known, through all predictions and all measurements of its true position |
| `Kalman.CoastsAlong` | src/motion/kalman.py:60-65 | A prediction moves the estimate along its velocity |
| `Kalman.FirstMeasurement` | src/motion/kalman.py:44-51 | The first measurement of an unknown track is taken as it is, at rest |
| `Kalman.TargetTrack.constructor` | src/motion/kalman.py:31-37 | A new track is unknown |
| `Kalman.TargetTrack.Reset` | src/motion/kalman.py:40-42 | The track is lost, its estimate kept; the reachable-state invariant is kept |
| `Kalman.TargetTrack.Predict` | src/motion/kalman.py:53-69 | The in-place prediction does what the value-level filter does, for any time step, and keeps the invariant for one that is not negative; where it moves the estimate is said by `Kalman.SteadyMotionIsFollowed` |
| `Kalman.TargetTrack.UpdatePoint` | src/motion/kalman.py:71-85 | The in-place update, or initialisation of an unknown track, does what the value-level filter does; it raises exactly for a singular innovation and then changes nothing, which never happens in a reachable state, even for a measurement taken as exact; a noisy one keeps the invariant |
| `Kalman.TargetTrack.GetConfidence` | src/motion/kalman.py:107-114 | Lies in the unit interval, and is positive exactly while the track is known; its division is never by zero |
| `Smoothing.SmoothActions` | lelamp_runtime/lelamp/playback.py:179-211 | The two loops compute the causal filter with its final error spread over the clip, or raise for a bad factor or any frame out of range |
| `Smoothing.EndpointsStay` | lelamp_runtime/lelamp/playback.py:200-210 | The first and the last frame are exactly the recorded ones |
| `Smoothing.LagIsBounded` | lelamp_runtime/lelamp/playback.py:191-198 | If recorded frames are at most `m` apart, the filter lags by at most `m (1 - alpha) / alpha` and moves by at most `m` |
| `Smoothing.RampLag` | lelamp_runtime/lelamp/playback.py:191-198 | On a joint that moves steadily the filter lags by exactly that bound, less the part `(1 - alpha)^k` of it |
| `Smoothing.SmoothedSteps` | lelamp_runtime/lelamp/playback.py:179-211 | Then smoothed frames are at most `StepBound` apart |
| `Smoothing.StepBoundIs` | lelamp_runtime/lelamp/playback.py:200-210 | That bound is `m (1 + (1 - alpha) / (alpha (n - 1)))` |
| `Smoothing.SmoothedWithin` | lelamp_runtime/lelamp/playback.py:200-210 | If recorded frames are at most `m` apart, smoothed frames leave the hull of the recording by at most `m (1 - alpha) / alpha`, joint by joint |
| `Smoothing.SmoothingKeepsRangeIff` | lelamp_runtime/lelamp/playback.py:179-211 | Smoothing keeps every valid recording in range exactly for the factor 1, which does not smooth |
| `Smoothing.DipLeavesTheRange` | lelamp_runtime/lelamp/playback.py:200-210 | The counterexample for every smaller factor: a valid recording of four frames whose second smoothed frame is above 100 |
| `Resampling.AtIsLipschitz` | lelamp_runtime/lelamp/playback.py:246-257 | The interpolated path moves at most as fast as its source frames, over any number of segments |
| `Resampling.AtBetween` | lelamp_runtime/lelamp/playback.py:246-257 | Between two frames the resampled path is the straight line, in time |
| `Resampling.SameRate` | lelamp_runtime/lelamp/playback.py:223-258 | At the pace of the recording its own frames come back |
| `Resampling.ResampledFacts` | lelamp_runtime/lelamp/playback.py:223-258 | Resampling keeps both ends exactly, and its frames are as far apart as the source moves in their time |
| `Resampling.ResampledWithin` | lelamp_runtime/lelamp/playback.py:246-257 | On every joint, resampled frames stay in the hull of the source frames, whatever that is |
| `Resampling.ResampledInRange` | lelamp_runtime/lelamp/playback.py:246-257 | So a valid clip stays valid |
| `Resampling.Intervals` | lelamp_runtime/lelamp/playback.py:241-244 | The number of intervals is within a half of the ideal one, but at least one |
| `Resampling.ResampleActions` | lelamp_runtime/lelamp/playback.py:223-258 | The loop computes that resampling, and raises exactly for timing that is not positive or a frame out of range |
| `Resampling.EasedSlope` | lelamp_runtime/lelamp/playback.py:279-280 | Smoothstep rises monotonically, at most one and a half times as fast as time |
| `Resampling.EasedAtRest` | lelamp_runtime/lelamp/playback.py:279-280 | It leaves both ends at rest, in the same way |
| `Resampling.TransitionSteps` | lelamp_runtime/lelamp/playback.py:275-286 | A transition moves at most one and a half times its mean step between frames |
| `Resampling.TransitionLeads` | lelamp_runtime/lelamp/playback.py:275-286 | Each frame of a transition is on the straight way, farther than the one before |
| `Resampling.TransitionEnds` | lelamp_runtime/lelamp/playback.py:275-286 | It starts from the start pose and its last frame is exactly the target |
| `Resampling.TransitionInRange` | lelamp_runtime/lelamp/playback.py:275-286 | All its frames stay in range |
| `Resampling.TransitionActions` | lelamp_runtime/lelamp/playback.py:262-287 | The loop computes that transition, or the target alone for no duration, and raises exactly for a negative duration or a pose out of range |
| `StepLimit.CutsAreEnough` | lelamp_runtime/lelamp/playback.py:306-309 | The rounded-up number of segments makes each part of the largest joint movement at most `max_step` |
| `StepLimit.CutsAreLeast` | lelamp_runtime/lelamp/playback.py:303-306 | No smaller number of parts would do |
| `StepLimit.PlaceGap` | lelamp_runtime/lelamp/playback.py:301-319 | Between two commands of the plan there are exactly that many |
| `StepLimit.LimitedLeads` | lelamp_runtime/lelamp/playback.py:306-319 | Every inserted command is on the straight way from one command of the plan to the next, farther than the one before it |
| `StepLimit.LimitedFollows` | lelamp_runtime/lelamp/playback.py:301-319 | From the start pose on, consecutive commands differ by at most `max_step` on every joint |
| `StepLimit.PlanIsKept` | lelamp_runtime/lelamp/playback.py:301-320 | Every command of the unlimited plan appears, in order, and the last one ends the limited plan |
| `StepLimit.LimitedInRange` | lelamp_runtime/lelamp/playback.py:301-319 | Inserted commands stay in range |
| `StepLimit.LimitActionSteps` | lelamp_runtime/lelamp/playback.py:290-320 | The nested loops compute the limited plan, and raise exactly for a step that is not positive or a pose out of range |
| `Playback.PreparePlayback` | lelamp_runtime/lelamp/playback.py:323-372 | The composition of the parts, each error passed on in the order of the code; what the plan contains is said by the next rows |
| `Playback.PlanFacts` | lelamp_runtime/lelamp/playback.py:323-372 | A plan is made exactly for orders with sensible parameters whose smoothed clip stays in range; it is then in range, keeps the step limit from the current pose on, and ends exactly at the return pose or the last recorded frame |
| `Playback.RecordingIsPlayed` | lelamp_runtime/lelamp/playback.py:342-367 | A plan without a step limit has `T + n - 1 + R` commands: `T` on the straight way from the current pose to the first frame, each farther than the one before, then every frame of the smoothed and resampled recording, one command each, then `R` on the way to the return pose |
| `Playback.EveryFrameIsCommanded` | lelamp_runtime/lelamp/playback.py:342-372 | With and without a step limit every frame of that recording is commanded, in its order |
| `Playback.LimitKeepsThePlan` | lelamp_runtime/lelamp/playback.py:368-372 | The plan without a step limit is a subsequence of the plan with one |
| `Playback.ScaledSteps` | lelamp_runtime/lelamp/playback.py:342-352 | The step bounds of smoothing and resampling compose |
| `Playback.ValidRecordingRefused` | lelamp_runtime/lelamp/playback.py:342-352 | A valid recording for which every smoothing order is refused |
| `Playback.NeverRefused` | lelamp_runtime/lelamp/playback.py:342-352 | A recording whose frames are at most `m` apart and stay `m (1 - alpha) / alpha` away from ±100 is never refused |
| `Primitives.SampleWithin` | src/motion/primitives.py:110-117 | Every sample, looped, interpolated or outside the clip, lies in the hull of the frames and zero, joint by joint |
| `Primitives.SampleBetween` | src/motion/primitives.py:110-117 | Between two frames a clip moves on the straight line, in its own time |
| `Primitives.SampleAtFrame` | src/motion/primitives.py:110-117 | Each inner frame is played at its time |
| `Primitives.SampleOutside` | src/motion/primitives.py:110-115 | A looping clip repeats itself; any other is still before its start and from its end on |
| `Primitives.Resampled` | src/motion/primitives.py:119-123 | The clip on an even grid: well formed, of the same duration, and each frame is the clip interpolated at its time |
| `Primitives.GridIsClose` | src/motion/primitives.py:119-121 | The grid is as fine as the control period, to half an interval |
| `Primitives.ResampledKeeps` | src/motion/primitives.py:119-123 | Resampling keeps both end frames, and every joint inside the hull of its frames |
| `Primitives.ScaledYaw` | src/motion/primitives.py:125-132 | Scaling changes the yaw of every frame by the factor and nothing else |
| `Primitives.FitIff` | src/motion/layers.py:366-374 | A factor in the unit interval keeps the anchor plus every scaled frame inside the limits exactly if it is at most the computed one, which is therefore the largest |
| `PrimitiveLayers.GainStays` | src/motion/layers.py:52-57 | An envelope's gain stays in the unit interval and only moves towards its target |
| `PrimitiveLayers.OpeningRises` | src/motion/layers.py:52-57 | The gain of an opening envelope rises on a straight line up to one |
| `PrimitiveLayers.ClosingFalls` | src/motion/layers.py:52-57 | The gain of a closing envelope falls on a straight line down to zero |
| `PrimitiveLayers.SilentAfterRelease` | src/motion/layers.py:52-62 | After its release time a closing envelope is silent and closed, whatever its level was |
| `PrimitiveLayers.FittedSampleIsSafe` | src/motion/layers.py:356-380 | A fitted clip, sampled at any time, stays inside the limits around its anchor |
| `PrimitiveLayers.PrimitiveLayer.Play` | src/motion/layers.py:334-354 | Starts the clip that the library found, resampled to the control period and fitted to the anchor given, and reports its name and yaw factor; an anchor without limits, limits without an anchor, or no clip is refused, in that order, and changes nothing |
| `PrimitiveLayers.PrimitiveLayer.Stop` | src/motion/layers.py:382-383 | The envelope closes with the ordinary release time |
| `PrimitiveLayers.PrimitiveLayer.Interrupt` | src/motion/layers.py:385-387 | The clip is marked as interrupted and its envelope closes with the short release time |
| `PrimitiveLayers.PrimitiveLayer.RefitYaw` | src/motion/layers.py:356-365 | The cached context is never stale: afterwards a current clip is its unscaled source fitted to the context given |
| `PrimitiveLayers.PrimitiveLayer.Fit` | src/motion/layers.py:366-380 | The fit, its factor and the joint weights |
| `PrimitiveLayers.WeightIff` | src/motion/layers.py:378-380 | A clip claims a joint whole exactly if it swings it by the span, and not at all exactly if it does not move it |
| `PrimitiveLayers.PrimitiveLayer.Update` | src/motion/layers.py:407-418 | Puts out the clip's sample with its weights and the stepped gain, which stays in the unit interval; an uninterrupted clip that does not loop closes its envelope at its end; the clip is dropped exactly once its envelope has closed |
| `PrimitiveLayers.NodHoldLayer.Hold` | src/motion/layers.py:303-305 | Holds the pose given and opens its envelope |
| `PrimitiveLayers.NodHoldLayer.Update` | src/motion/layers.py:310-312 | Puts out the held pose for all joints but the wrist with the stepped gain, also once it has faded out |
| `Blender.SortedIsOrdered` | src/motion/blender.py:65-71 | Sorting orders the layers by priority and loses none |
| `Blender.Compute` | src/motion/blender.py:79-96 | The loop composites the outputs in order; a layer that claims nothing changes nothing |
| `Blender.LayerMoves` | src/motion/blender.py:79-96 | An absolute layer draws a joint towards its value by the share it claims, an additive one moves it by that share |
| `Blender.GainMoves` | src/motion/blender.py:79-96 | A change of gain moves a joint by at most that share of the way |
| `Blender.BlendInHull` | src/motion/blender.py:79-96 | Any joint stays among the rest pose and the values of the layers that claim some of it, if none is additive |
| `Blender.WholeClaimHides` | src/motion/blender.py:79-96 | Nothing below a layer that claims a joint whole matters for that joint |
| `Blender.BlendedYawIsSafe` | src/motion/blender.py:79-96 | With an anchor that claims the whole yaw, one additive layer that is fitted to it right above, and absolute layers with safe yaws above that, the blended yaw is in the safe interval, for all gains and weights |
| `SafeYaw.RuntimeOrder` | src/motion/runtime.py:122-127 | Sorting the runtime's nine layers puts idle and tracking below the anchor, face following and the primitive right above it, and the held poses on top |
| `SafeYaw.BlendedYaw` | src/motion/runtime.py:241-249 | With the anchor set inside the safe limits, face following inactive, a fitted clip at any time, gain and weight, and above it only poses with a safe yaw or outputs that claim no yaw, the runtime's blended yaw is safe |
| `SafeYaw.FadedHolds` | src/motion/layers.py:310-312 | A layer that has faded out claims no yaw, whatever pose it still carries |
| `SafeYaw.AnchoredStepKeeps` | src/motion/runtime.py:253-260 | A step in the recovery limits moves no farther from the safe interval and leaves the next step possible |
| `SafeYaw.AnchoredRunIsSafe` | src/motion/runtime.py:253-260 | Once a first step with the anchor set succeeds, for all later targets no step fails, the yaw never gets farther from the safe interval, and once inside it stays inside |
| `SafeYaw.FirstAnchoredStepIff` | src/motion/runtime.py:253-260 | That first step succeeds exactly if the speed can be lost within a period or the room to the safe edge suffices |
| `SafeYaw.AnchoringSucceedsIff` | src/motion/runtime.py:253-260 | That first step succeeds from every state that can stop inside the hard limits exactly if the margin between hard and safe limits is worth no more speed than one period can take away, or the joint is never faster than that |
| `SafeYaw.FirstAnchoredStepCanFail` | src/motion/runtime.py:253-260 | With the speed and acceleration limits of the base joint and the control period, for every margin above 0.0006 rad some state that can stop inside the hard limits fails that step |
| `SafeYaw.YawRunIsSafe` | src/motion/runtime.py:252-260 | In every run of ticks with and without the safe limits (an anchor set or not, a task light held or not) the yaw can stop inside its hard limits; a tick fails exactly if the safe limits apply and the yaw cannot stop in what is left of them; of two such ticks in a row both fail or neither |
| `SafeYaw.FailsIff` | src/motion/runtime.py:252-260 | Which single tick fails: never one under the hard limits alone |
| `MotionRuntime.Build` | src/motion/runtime.py:75-139 | A runtime is built exactly if nothing is objected to: the sizes of initial and home pose, a home pose that is not held, the orientation settings, the period, the initial pose, in that order; it then stands at rest at its initial pose, blends around the home pose if that is held, and returns to its yaw clipped into the safe range |
| `MotionRuntime.HomeYawIsNoObjection` | src/motion/runtime.py:109-117 | The yaw of a held home pose never makes the orientation settings unacceptable |
| `MotionRuntime.Runtime.constructor` | src/motion/runtime.py:117-139 | The runtime is put together from its coordinator, gesture layer and trajectory generator, at time zero and measured at its initial pose |
| `MotionRuntime.Runtime.PlayPrimitive` | src/motion/runtime.py:141-165 | A gesture is loaded (a nod for the wrist alone, at twice its scale), starts fitted to the anchor of the moment, if there is one, and reports its yaw factor; a nod that moves the wrist holds the other joints where they were measured, anything else lets them go; a request that is refused changes nothing |
| `MotionRuntime.Runtime.AcquireOrientation` | src/motion/runtime.py:183-196 | Acquiring is the coordinator's transition with measured yaw and commanded speed, and refits the gesture that is playing from its unscaled source |
| `MotionRuntime.Runtime.BargeIn` | src/motion/runtime.py:234-238 | The gesture is interrupted, and is silent after 0.12 s of ticks of any length |
| `MotionRuntime.Runtime.Target` | src/motion/runtime.py:244-251 | Refit, advance and blend: the target is the blend of the outputs traced, in the order of their priorities, with the anchor, the fitted gesture's sample and the nod hold among them; with a safe anchor, face following inactive and above the gesture only safe yaws or outputs that claim none, the blended yaw is in the safe range; a nod that is over lets the held joints go |
| `MotionRuntime.Runtime.Move` | src/motion/runtime.py:252-260 | The trajectory takes one call for the target, under the safe yaw limits exactly while an anchor is set and no task light is held; it raises exactly if these apply and the yaw cannot stop in them, and then changes nothing; a step taken with the anchor does not move the yaw farther out of the safe range and leaves it able to stop there |
| `MotionRuntime.Runtime.Step` | src/motion/runtime.py:241-268 | The whole tick: blend of the traced outputs, one trajectory call for exactly that target, measurement kept; it takes no step exactly for a wrong period, which is refused before time or any layer advances, or for an anchored yaw that cannot stop in the safe range; after a step with the anchor set the next one is possible; both yaw guarantees hold of the tick's target and command |
| `Orientation.EveryTargetIsSafe` | src/motion/orientation.py:162-265 | In every run a target exists exactly outside idle, equals the layer's target, and lies in the safe range |
| `Orientation.ReachedOnlyAfterSettling` | src/motion/orientation.py:243-254 | An observation that reports aligned or centered ends an unbroken window of settled observations of at least `settle_duration` (less 1e-12), against that same target, with no command in it |
| `Orientation.NeverOrientingPastTimeout` | src/motion/orientation.py:258-261 | No observation at or past the acquire timeout leaves the state orienting |
| `Orientation.TimeoutIsLate` | src/motion/orientation.py:258-261 | A timeout is reported only by an observation while orienting, and only that late after the last command |
| `Orientation.StartedAtLastCommand` | src/motion/orientation.py:187-189 | The start time kept is the time of the last command that took effect |
| `Orientation.MakeLayer` | src/motion/orientation.py:44-87 | A layer is made exactly for positive thresholds, a margin that leaves a range, and a center inside it; the safe range lies inside the joint limits |
| `Orientation.BaseYawOrientationLayer.Acquire` | src/motion/orientation.py:98-104 | The layer's target is clipped to the safe range, and the result says whether it had to be |
| `Orientation.OrientationCoordinator.Acquire` | src/motion/orientation.py:162-199 | The in-place operation is the transition of the run model on every path, including the refusals that change nothing (an ID of whitespace only, a repeated one) or only the current yaw, and keeps the invariant; where it turns is the next row |
| `Orientation.AcquireTurns` | src/motion/orientation.py:177-199 | An accepted request turns to the point of the safe range nearest the yaw asked for; or, within the deadband of it, stays at the point of the range nearest the present yaw; clamped and aligned exactly as promised |
| `Orientation.AcquireRefused` | src/motion/orientation.py:165-176 | A blank or repeated request changes nothing, one during a task light only the present yaw |
| `Orientation.ReturnTurns` | src/motion/orientation.py:214-228 | The way back leads to the center itself, unless motion is busy |
| `Orientation.ObserveTurns` | src/motion/orientation.py:230-241 | An observation changes the target only if the client has been gone for the hold time, and then to the center |
| `Orientation.SettlingReaches` | src/motion/orientation.py:243-256 | Conversely to the settled window, a lamp seen settled at its target for that long has reached it, unless it timed out in between |
| `Orientation.OrientationCoordinator.Release` | src/motion/orientation.py:201-212 | Back to idle, with no target in coordinator and layer |
| `Orientation.OrientationCoordinator.ReturnCenter` | src/motion/orientation.py:214-228 | Heads for the center, or refuses while motion is busy and changes nothing |
| `Orientation.OrientationCoordinator.Observe` | src/motion/orientation.py:230-262 | The in-place observation is the transition of the run model, including the return after a long disconnection |
| `Orientation.OrientationCoordinator.Disconnected` | src/motion/orientation.py:264-265 | Only the time of the disconnection is kept |
| `Circular.DistanceIsShortest` | src/device/doa.py:47-51 | The distance is the difference after some number of full turns, at most 180, and no number of turns gives less |
| `Circular.Symmetric` | src/device/doa.py:47-51 | The distance is symmetric |
| `Circular.Triangle` | src/device/doa.py:47-51 | The triangle inequality |
| `Circular.ZeroIff` | src/device/doa.py:47-51 | It is zero exactly for angles whole turns apart |
| `Circular.Rotated` | src/device/doa.py:47-51 | Rotating both angles and adding whole turns to either changes nothing |
| `Circular.CircularMedoid` | src/device/doa.py:54-63 | The search returns the sample with the least total distance, the first of equals, and refuses an empty or out-of-range input |
| `Circular.BestIsFirstLeast` | src/device/doa.py:57-63 | No sample has a smaller total, and every earlier one has a strictly greater total |
| `Circular.MedoidIsGood` | src/device/doa.py:54-63 | The medoid's total is minimal among the samples and at most twice that of any angle whatsoever |
| `Circular.MedoidRotates` | src/device/doa.py:54-63 | Rotating all samples by one angle selects the same sample |
| `Circular.MedianCovers` | src/device/doa.py:66-72 | A median of at most `b` means that at least half of the deviations are at most `b` |
| `Circular.MedianIsMiddle` | src/device/doa.py:66-72 | The median is the mean of the two values that stand in the middle when all are put in order |
| `Stabilizer.OneDecisionPerUtterance` | src/device/doa.py:212-270 | In any run the IDs of the decisions strictly increase, so no utterance gets two |
| `Stabilizer.DecidedByMaxWindow` | src/device/doa.py:243-250 | An utterance observed to its longest window, without reset or new rising edge, has exactly one decision |
| `Stabilizer.SamplesAreSourced` | src/device/doa.py:221-230 | The samples held are angles of observations with speech, none older than the start of the utterance |
| `Stabilizer.StableMeans` | src/device/doa.py:236-242 | A stable decision has at least the least count and the shortest window, is the medoid of the utterance's samples, and at least half of these lie within the dispersion bound of it |
| `Stabilizer.ObservationCounts` | src/device/doa.py:212-235 | Every observation that is not refused counts: a rising edge begins a new utterance with its angle, speech in an open one adds its angle, nothing else does |
| `Stabilizer.DecidesIff` | src/device/doa.py:236-250 | Exactly when an observation decides its utterance: once it is wide, full and narrow enough, or its longest window is over; with the verdict, angle and count it says |
| `Stabilizer.DoaStabilizer.Reset` | src/device/doa.py:193-199 | The utterance in flight is discarded; the clock is kept |
| `Stabilizer.DoaStabilizer.Observe` | src/device/doa.py:212-250 | The in-place observation is the transition of the run model; one that raises changes nothing |
| `Stabilizer.DoaStabilizer.Finish` | src/device/doa.py:252-270 | Closes the utterance and reports it |
| `DeviceLoop.EveryRoundIsGuarded` | src/device/daemon.py:307-329 | In every run of the loop the utterance in flight began after all playback seen so far had been over for 0.3 s |
| `DeviceLoop.DecisionsAvoidPlayback` | src/device/daemon.py:307-343 | No sample that a decision uses was taken during playback or within 0.3 s after it |
| `DeviceLoop.SpeechPassesIff` | src/device/daemon.py:307-336 | The stabiliser is told of speech exactly if there is speech, no playback now, and the guard time of all playback before is over; it is reset exactly when playback starts or ends |
| `DeviceLoop.SuppressedIs` | src/device/daemon.py:307-329 | The gate remembers the playback of the last reading |
| `DeviceLoop.InterruptionForgets` | src/device/daemon.py:234-336 | An interrupted capture, and playback that starts or ends, discard all that was heard before |
| `DeviceLoop.Round` | src/device/daemon.py:307-336 | One round of the loop changes gates and stabiliser as the run model says |
| `DeviceLoop.RunLoop` | src/device/daemon.py:234-343 | The loop's decisions are those of the stabiliser on the events that the gates let through, up to the first refused reading |
| `EditDistance.ComputeDistance` | voice-bench/common.py:35-53 | The two-row program, early exits included, computes the recursive distance of all texts |
| `EditDistance.ScriptEdits` | voice-bench/common.py:35-53 | There is a script of that many insertions, deletions and replacements that turns one text into the other |
| `EditDistance.NoShorterScript` | voice-bench/common.py:35-53 | No script of such edits is shorter |
| `EditDistance.ZeroIffEqual` | voice-bench/common.py:37-38 | The distance is zero exactly for equal texts |
| `EditDistance.Symmetric` | voice-bench/common.py:35-53 | It is symmetric |
| `EditDistance.Triangle` | voice-bench/common.py:35-53 | It satisfies the triangle inequality |
| `EditDistance.LengthBounds` | voice-bench/common.py:39-42 | It lies between the difference of the lengths and the greater length |
| `EditDistance.CharacterErrorRate` | voice-bench/common.py:56-62 | The rate of normalised texts is distance over reference length, absent for an empty reference, and zero exactly for equal texts |
| `EditDistance.StrangersCostAll` | voice-bench/common.py:35-53 | The distance of texts that share no character is the greater length |
| `EditDistance.EntirelyWrongIsOneIff` | voice-bench/common.py:56-62 | The documented rate: a hypothesis that shares no character with its reference has rate 1.0 exactly if it is no longer, and a greater rate exactly if it is longer |
| `EditDistance.RateAtMostOne` | voice-bench/common.py:56-62 | No hypothesis that is no longer than its reference has a rate above 1.0 |
| `EditDistance.RateAboveOne` | voice-bench/common.py:56-62 | An instance: three wrong characters for one have rate 3.0 |
| `Numerals.PrintSino` | voice-bench/ko_normalize.py:44-63 | The recursive program with its digit loop prints the text of the specification |
| `Numerals.ReadSino` | voice-bench/ko_normalize.py:44-63 | A reader that splits at the last `Man` and reads digit and unit pairs recovers every number from its text |
| `Numerals.SinoIsInjective` | voice-bench/ko_normalize.py:44-63 | Different numbers have different texts |
| `Nms.Suppress` | src/vision/detector.py:77-92 | For any boxes in the order given, the shrinking-order loop keeps exactly those that no kept box ranked before them suppresses: kept boxes overlap pairwise by at most the threshold, and each dropped box overlaps a kept one ranked before it by more |
| `Nms.KeepBest` | src/vision/detector.py:77-92 | The whole operation, for any boxes and any order by falling score: the indices kept are distinct, best first, and do not overlap each other too much; each box dropped overlaps too much with one kept that scores at least as high |
| `Nms.UnionPositive` | src/vision/detector.py:90-90 | The overlap of proper boxes never divides by zero |
| `WakeRuns.CountOver` | voice-bench/bench/wake_eval.py:67-79 | The count is the number of maximal runs of windows over the threshold that are long enough |
| `WakeRuns.Fired` | voice-bench/bench/wake_eval.py:43-57 | True exactly if the recording is long enough and some run reaches the length |
| `WakeRuns.FiredIffCounted` | voice-bench/bench/wake_eval.py:43-79 | The two agree exactly if a run is required, there are no windows, or some window reaches the threshold |

## Left out

- Sockets, asyncio, JSON and UUID decoding, token and lock-file handling, daemon start-up and
  shutdown, systemd: they appear only as events that may happen at any time.
- The Ruckig backend, MuJoCo kinematics, inverse kinematics, torque: foreign code. Their results
  are arbitrary inputs. The trajectory generator is modelled with its analytic backend.
- Idle motion, camera distortion, mount fitting, LED mapping, calibration conversions, payload
  validators, the presence gate: trigonometry without an exact contract, or short case analysis.
- `native` numerals, `normalize_ko`, `retarget_actions`, `play_actions`: they would only add easy
  members.
- Rounding of floats, NaN and infinite inputs. The 1e-9 and 1e-12 tolerances are kept where a
  contract names them.
- Messages and data of ticket results: only state and code are kept.
- A keyboard interrupt between taking a command off the queue and claiming it: an exception there
  would leave the ticket in nobody's hand until the drain.
- Liveness of return-to-center tickets: the code has no timeout for them. That a stop drains them
  is proved.
- Track expiry times, repeats of a clip and settle counters of the controller: they decide only
  when a section runs, which the protocol leaves open.
- The deferred turn after an away pose: it commands the runtime on behalf of no ticket.
- Update of a target from a bearing: the normalised direction is an arbitrary measured point.
- Primitive loading and the library's cache: the library is any function from a name and a scale to
  a well-formed clip or none. The arm layers without a contract of their own (idle, tracking, face
  following, away pose, task light, start-up rise) appear as any output. Blend traces are not kept.
- Event publication of the device loop, and the orientation service that handles its decisions.
- Box decoding and scoring before suppression. The sort by score is a parameter of
  `Nms.KeepBest`: any permutation by falling score.
- MotionRuntime.Runtime.BargeIn: covers the gesture; the interrupted task light is an input of the
  ticks that follow.
- Stabilizer.OneDecisionPerUtterance: takes the ID factory to make a new ID each time, as random
  UUIDs do up to chance.
- MotionRuntime.Build: takes five-joint settings with positive speed and acceleration limits, which
  the source does not check and its configuration has.
- Arrival.TargetIsReached: asks for a target at least 0.04 rad inside the limits, where braking room
  never slows the last part of the way; nearer to a limit the joint is safe, but how fast it gets
  there is not stated. Trajectories with a jerk limit are the other backend's.
- DeadlineGrid.Run: covers the readings given; that a clock with ever later readings ends every
  wait is not stated.
