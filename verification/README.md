# The LiteArm maintenance driver, modelled and proved

`litearm_driver` is a ROS 2 lifecycle node that owns the serial link of a robot arm through the
LiteArm SDK. It offers 55 services, a status topic and a diagnostics topic. Most handlers are
short; what is hard is what survives when transitions, `ros2 param set`, requests, timer ticks,
refused commands, raised exceptions and lost cables arrive in any order. That is what this project
proves, for every such sequence of events.

To verify everything: `dafny verify dfyconfig.toml`.

## How the model is built

* `LitearmDriverNode.Node` is the node as a class with the original's mutable fields. Its callbacks
  assign those fields step by step and call methods of `Sdk.Arm`, a session on a shared
  `Sdk.SerialBus`.
* `DriverSpec` says what each callback does, as functions on the value `State` (setup fields,
  remembered fields, serial side). Every method of `Node` is proved equal to its function. A handler
  is a list of gates (`Gates`) and a command (`CommandOf`).
* `Supervisor` is the managed-node state machine of the ROS 2 design article "Managed nodes":
  `Step` for one event, `Run` for a sequence, and the class `Process`, whose `Replay` carries the
  class through any sequence and ends where `Run` says.
* `Sends` traces each command on the link to the event that sent it. `Histories` says what a run
  amounts to: the value each parameter was last set to, names, session, port, keep-alive, frames,
  percentages, licence records. Whether a transition was taken or a request got through is asked of
  the state an event met; what it contributed is read off the event.
* `Handlers` says what the gates of every handler accept, `Registry` and `Lifecycle` what every
  reachable state satisfies, `Policies` what the commands of a run obey, `Mirrors` and `Statuses`
  what the node remembers and tells, `NonInterference` that publishing cannot be noticed,
  `CallbackGroup` and `Serializability` why a callback may be taken as one event, and `Divergences`
  where code and documentation part.
* `SafetyGates`, `Waypoints`, `JointNames` and `Reports` hold the algorithms inside single callbacks
  with their own theorems; `Doubles` the values `NaN`, infinities and finite reals, compared as in
  section 5.11 of IEEE 754-2019.

Everything the SDK, rclcpp or the operating system decides is in one record, `Sdk.Env`: whether the
factory returned, whether a call returned or threw, the axis count, the frame `get_state(false)`
holds, whether the reader is alive, the clock, and which call outside a transition's try blocks
raises. Theorems quantify over all of it, so an SDK call may throw at every opportunity. A gate's
refusal is a value naming the reason; a message text is a tag. `CallbackReturn::ERROR` is called
`FATAL`; `RAISED` is an exception that left the callback.

Two words recur. A node is *stranded* after an activation in which `create_wall_timer` raised: the
services were registered before (`litearm_driver/src/litearm_driver_node.cpp:185-187`), and they stay
until a deactivation, cleanup or shutdown. It is *serving* while active or stranded. Without such an
exception serving and active are the same (`Lifecycle.AdvertisedExactlyWhileActive`).

## Assumptions about the surroundings

* `get_state(false)`, `is_connected`, `is_in_dfu`, `zero_g_active`, `n`, `firmware`, `host_stats`
  and the like send nothing. `get_state(false)` may throw anywhere, `n` and `firmware` during
  configuration; otherwise these do not. `n` is not negative. `is_connected` does not change within
  one callback.
* Destroying an `Arm` closes its port and ends its keep-alive thread. `connect` and `reconnect`
  either open the port or throw, and then may or may not leave it open; the same for `close`.
* `zero_g_stop` leaves the keep-alive stopped even when it raises; a `zero_g_start` that raises
  starts none. The thread may also die at any time (event `KeepAliveDies`).
* `get_status_now` returns a frame or throws. With a timeout that is not positive the frame is the
  SDK's cached one (section 4.2 of `docs/command-set.md`); the call is logged all the same.
* rclcpp takes a transition only from the state it belongs to, delivers a request only to an
  advertised service and a tick only from an existing timer, sends a transition callback that
  answered ERROR or let an exception escape through `on_error`, drops what is published on an
  inactive publisher, and never runs two callbacks of one mutually exclusive group together.
* Lifecycle transitions and `ros2 param set` are atomic with respect to service and timer callbacks.
  They are not in the SDK callback group, so the code alone does not guarantee that. For service
  and timer callbacks among themselves atomicity is proved (`Serializability.EveryScheduleIsSerial`),
  for a callback that reads the node when it begins and whose effects beside sending show when it
  ends.

## Where the code and its documentation disagree

The model follows the code. Each point has a lemma with the exact condition under which the two
agree and, in `Divergences`, a run on which they do not.

* `commit_model` negates the motor question its two siblings ask
  (`litearm_driver/src/litearm_driver_model.cpp:192` against `docs/command-set.md:229`): the model
  goes to flash with the motors on and is refused with the motors off. `Policies.FlashRuleHoldsIff`,
  `Divergences.CommitModelIsInverted`.
* `expected_mask` is a `uint32` (`litearm_msgs/srv/CommitModel.srv:3-7`) cut to sixteen bits on the
  way (`litearm_driver/src/litearm_driver_model.cpp:198`), so the protection against a stale belief
  is lost above 65535. `Policies.CommitMaskArrivesIff`, `Divergences.CommitMaskIsTruncated`.
* The log says that after a refused ENABLE the node "stays inactive"
  (`litearm_driver/src/litearm_driver_node.cpp:177-180`). `on_error` answers SUCCESS, which means
  Unconfigured, and nothing drops the session: the port stays open.
  `Mirrors.UnconfiguredHoldsSessionIff`, `Divergences.RefusedEnableKeepsThePort`.
* `publish_joint_states` and `publish_diagnostics` are documented to decide whether their topic is
  published (`docs/command-set.md:67-69`). A publisher created earlier survives a refused ENABLE.
  `Mirrors.TopicFollowsTheParameterIff`, `Divergences.PublishesThoughTurnedOff`.
* The status message documents `speed_scaling` as the percentage last written
  (`litearm_msgs/msg/LitearmStatus.msg:30`). Configuring resets the mirror to 100 without writing.
  `Mirrors.MirrorShowsLastWrittenIff`, `Divergences.MirrorForgetsTheGovernor`.
* Joint arrays are promised to have one value per axis; an axis count of 0 switches the length test
  off. `SafetyGates.LengthEnforcedIff`, `Divergences.NoAxesNoLengthCheck`.
* A comment says the licence record is re-read on activation
  (`litearm_driver/include/litearm_driver/litearm_driver_node.hpp:333-335`). It is not, so an active
  node shows the device's record exactly when the last configure or reconnect had read that record.
  `Mirrors.ActivationShowsDeviceRecordIff`, `Divergences.ActivationLeavesTheLicenceUnread`.
* An inactive node is said to advertise nothing
  (`litearm_driver/src/litearm_driver_node.cpp:143-144`). A stranded node, though unconfigured,
  advertises every service and moves the arm on request. `Lifecycle.AdvertisedWhileActiveIff`,
  `Divergences.UnconfiguredNodeMoves`.

## Model

| member | source | states |
|---|---|---|
| Policies.EveryMotionWasAllowed | litearm_driver/src/litearm_driver_motion.cpp:66-316 | In every run each motion command on the link was sent by the motion request that asked for it, unchanged, with the node serving, the link up, allow_motion last set to true (it starts false), all arguments finite, arrays as long as the list of joint names in force (if that is not empty), which in a configured node has one name per axis, axis in range and 0 < speed <= 1 |
| Policies.RequestIsForwardedIff | litearm_driver/src/litearm_driver_node.cpp:738-1092 | After any run any request but reconnect puts exactly one command on the link, the one it asks for with its own arguments and the documented defaults, exactly when the node is serving, the request is admissible by the documented rules, the link is up and the request needs the SDK; otherwise nothing goes out |
| Policies.PlainIsForwardedIff | litearm_driver/src/litearm_driver_node.cpp:746-792 | A service without gates, such as disable or emergency_stop, is forwarded with its arguments exactly when the node is serving and the link is up |
| Policies.ReconnectIsForwardedIff | litearm_driver/src/litearm_driver_diagnostics.cpp:45-67 | reconnect reopens the session exactly when the node is serving and holds one, and reads the licence exactly when that returned |
| Policies.RequestSucceedsIff | litearm_driver/include/litearm_driver/service_helpers.hpp:33-54 | After any run the caller gets an answer exactly when the node is serving, and is told of a success exactly when the request was admissible, the link up, and the SDK call returned (log_dump: directory made; get_tcp: pose returned) |
| Policies.MotionIsForwardedIff | litearm_driver/src/litearm_driver_motion.cpp:66-292 | For motion requests: forwarded, unchanged and once, exactly when the node is serving, motion is allowed, the request is well-formed and the link is up |
| Policies.PathIsForwardedIff | litearm_driver/src/litearm_driver_motion.cpp:294-316 | A path request is forwarded exactly when allowed and made of whole, finite waypoints with a fractional speed, and what is sent flattens back to the request |
| Policies.EveryCommandAnswersItsRequest | litearm_driver/src/litearm_driver_node.cpp:738-1092 | In every run each command a request put on the link is the one it asked for, with its own arguments, defaults replacing only zero deadlines and negative axes, the parameters in force deciding zero-gravity period and enable attempts; and the request was admissible with the link up |
| Policies.EveryDfuWasAllowed | litearm_driver/src/litearm_driver_node.cpp:822-834 | Firmware update mode is entered only on request with allow_dfu last set to true |
| Policies.TransitionsNeverDropTheArm | litearm_driver/src/litearm_driver_node.cpp:85-265 | Outside requests only transitions send, and only connect, licence read, enable (activate with auto_enable), leave zero gravity and close |
| Policies.TransitionsSend | litearm_driver/src/litearm_driver_node.cpp:85-250 | What each transition sends after any run, exactly and in order: connect and licence read as far as configuring got, enable with the configured attempts, leave zero gravity if it is on, close if there is a session; ticks and parameter changes send nothing |
| Policies.EveryDisableWasRequested | litearm_driver/src/litearm_driver_node.cpp:746-753 | Every disable in a run's log comes from a disable request |
| Policies.ActiveMeansEnabled | litearm_driver/src/litearm_driver_node.cpp:162-193 | A node becomes active only by activating from Inactive and, with auto_enable configured, only with an ENABLE sent and accepted in that same transition |
| Policies.FlashWritesFollowTheGate | litearm_driver/src/litearm_driver_node.cpp:510-525 | In every run save_params and reset_factory_params reached the link only when the SDK's frame was absent, unreadable or not enabled; commit_model only when it was enabled |
| Policies.FlashRuleHoldsIff | litearm_driver/src/litearm_driver_model.cpp:187-199 | After any run: the documented rule (forwarded iff serving, connected and no frame shows the motors on) holds always for the two parameter writes and for commit_model exactly when nothing is forwarded anyway |
| Policies.CommitMaskArrivesIff | litearm_driver/src/litearm_driver_model.cpp:197-199 | An admitted commit carries the caller's mask exactly when it fits sixteen bits |
| Policies.EveryZeroGHadAGoodPeriod | litearm_driver/src/litearm_driver_node.cpp:842-870 | Zero gravity is entered only on request by a serving node, with the period parameter of that moment, which lies in [0.005, 0.10) |
| Policies.KeepAliveIsSafe | litearm_driver/src/litearm_driver_node.cpp:714-731 | In every reachable state a running keep-alive is the current session's, its period lies in [0.005, 0.10), and the node is serving |
| Policies.StoppingEndsZeroGravity | litearm_driver/src/litearm_driver_node.cpp:195-250 | After a deactivate, cleanup or shutdown that was taken no keep-alive runs, whatever was raised on the way |
| Handlers.AdmissionAcceptsExactly | litearm_driver/src/litearm_driver_motion.cpp:70-361 | For every handler, state and argument: the gates let a request through exactly when it is admissible, stated without gates on parameters, names, frame and link |
| Handlers.MotionGateMeans | litearm_driver/src/litearm_driver_motion.cpp:73-285 | The gate lists of the nine motion handlers accept exactly the well-formed motions |
| Handlers.TuningGateMeans | litearm_driver/src/litearm_driver_node.cpp:926-1092 | The gate lists of the parameter, model, solver, bench and log handlers accept exactly the documented arguments (the three joint handlers only with a link) |
| Handlers.GatedHandlers | litearm_driver/include/litearm_driver/service_helpers.hpp:20-54 | A handler whose gates fail leaves node and link untouched and answers the first failing gate; otherwise it makes its SDK call and succeeds exactly when that returned (log_dump: and the directory could be made; get_tcp: and a pose came back) |
| Handlers.SucceedsIff | litearm_driver/include/litearm_driver/service_helpers.hpp:33-54 | Success and message of every handler spelled out: refused, link down, SDK failure of that service, no tool pose, or done |
| Handlers.RefusalsSayWhatIsWrong | litearm_driver/src/litearm_driver_motion.cpp:70-357 | For every request: the verdict of its gates, spelled out without gate lists, with the argument named and the order in which things are looked at; a refusal is answered with just that and changes nothing |
| Handlers.CatalogAlwaysSucceeds | litearm_driver/src/litearm_driver_model.cpp:56-70 | The catalog is answered without session or link and changes nothing |
| Handlers.ReconnectAnswers | litearm_driver/src/litearm_driver_diagnostics.cpp:45-67 | Success iff there was a session, it was rebuilt and the licence read again; then the port is open and the record new, otherwise everything remembered is untouched |
| Handlers.EveryAnswerIsHonest | litearm_driver/include/litearm_driver/service_helpers.hpp:33-54 | The success message is written exactly on success, values of the SDK reach the caller exactly in a success of one of seventeen named services and unaltered, a status only in a successful get_status |
| Registry.EveryServiceIsRegistered | litearm_driver/src/litearm_driver_node.cpp:271-448 | The registration list has 55 entries, every service exactly one place in it, and every entry the SDK callback group |
| Registry.RequestsGoToTheirService | litearm_driver/src/litearm_driver_node.cpp:291-447 | Each request reaches the handler of its own service and no other, read from both sides |
| Registry.GroupIsTheOne | litearm_driver/include/litearm_driver/litearm_driver_node.hpp:361-375 | Looking a service up in a list registered in one group finds it exactly if it is there, in that group |
| Registry.CopiesOffer | litearm_driver/src/litearm_driver_node.cpp:271-453 | After n registrations without a withdrawal every service is offered in the SDK group, or none if n is 0 |
| Lifecycle.EveryReachableStateIsSound | litearm_driver/src/litearm_driver_node.cpp:85-265 | The product invariant of primary state, services, timers, publishers, session, ports, keep-alive and speed mirror after every run, including runs in which exceptions leave a transition |
| Lifecycle.AdvertisedWhileActiveIff | litearm_driver/src/litearm_driver_node.cpp:162-193 | Services are advertised exactly while active if and only if no activation was left half-way by a timer that raised; then timers, activated publishers and zero gravity exist only in Active too; the number of registrations is exact in any case |
| Lifecycle.AdvertisedExactlyWhileActive | litearm_driver/src/litearm_driver_node.cpp:271-499 | So on every run in which no timer creation raises: 55 services exactly while active, timers exactly by their rates, publishers activated and zero gravity running only then |
| Lifecycle.ReachableIff | litearm_driver/include/litearm_driver/litearm_driver_node.hpp:361-375 | After any run a request reaches the node exactly while it is active or stranded, and its callback is in the SDK group |
| Lifecycle.StrandedNeedsAnEscape | litearm_driver/src/litearm_driver_node.cpp:481-493 | A stranded node needs an activation whose timer creation raised |
| Lifecycle.OneLinkEver | litearm_driver/src/litearm_driver_node.cpp:95-132 | No run ever has two ports open, not even within a transition, and an open port is the one arm_ owns |
| Sdk.OpenedIsCounted | litearm_driver/src/litearm_driver_node.cpp:95-107 | Opening a port, the one step that can raise the number of open ports, is counted |
| Sdk.PortsFollowTheCalls | litearm_driver/src/litearm_driver_node.cpp:106-117 | What connect, reconnect and close do to the port, by their outcome, and that each is logged |
| Lifecycle.StepSound | litearm_driver/src/litearm_driver_node.cpp:85-265 | Every single event preserves the product invariant |
| Serializability.EveryScheduleIsSerial | litearm_driver/src/litearm_driver_node.cpp:45 | After any run, for every schedule of the registered callbacks, with commands sent one at a time: node, every command on the link and every answer are those of running the callbacks whole, in the order they began |
| Serializability.EverySerialRunIsASchedule | litearm_driver/src/litearm_driver_node.cpp:45 | The converse: any registered callbacks can be scheduled whole, one after the other, so there are schedules for the theorem to speak of |
| Serializability.NodeNeverInterleaves | litearm_driver/src/litearm_driver_node.cpp:271-493 | Under every such schedule the commands of service and timer callbacks form whole per-callback blocks; the groups are those in services_ and the timers |
| Serializability.AllInOneGroup | litearm_driver/include/litearm_driver/litearm_driver_node.hpp:361-375 | After any run all registered callbacks share one group |
| Serializability.RegistrationsStay | litearm_driver/src/litearm_driver_node.cpp:283-310 | No callback changes a registration |
| CallbackGroup.NeverInterleavesIffOneGroup | litearm_driver/src/litearm_driver_node.cpp:45 | For any callbacks and any assignment of groups, all schedules are free of interleaving exactly when all registered callbacks share one group |
| CallbackGroup.OneGroupIsSerial | litearm_driver/include/litearm_driver/litearm_driver_node.hpp:361-375 | With one group at most the last begun callback runs and the log is ordered by callback |
| NonInterference.PublishingIsInvisible | litearm_driver/src/litearm_driver_node.cpp:527-708 | Two-run property: erasing all status and diagnostics ticks from any run leaves the wire log, every response and all of the state but the frame cache identical |
| NonInterference.UntickLeavesTheRest | litearm_driver/src/litearm_driver_node.cpp:481-493 | Erasing ticks takes out ticks only and keeps every other event in its place |
| NonInterference.ResponsesSnoc | litearm_driver/src/litearm_driver_node.cpp:283-310 | The responses compared are one answer per request that reached the node, and nothing else |
| NonInterference.StepStaysAlike | litearm_driver/src/litearm_driver_node.cpp:876-888 | States that differ only in the frame cache stay so under every other event and give the same answer, get_status included |
| NonInterference.TickTouchesOnlyTheCache | litearm_driver/src/litearm_driver_node.cpp:613-708 | A tick changes at most frame, stamp and have-flag, sends nothing and answers nobody |
| Mirrors.CacheIsTheLastRead | litearm_driver/src/litearm_driver_node.cpp:527-544 | In every reachable state the cached frame and stamp are the pair one read delivered last since the latest configure attempt or cleanup; without one the flag is false and the stamp 0 |
| Mirrors.ReportedAge | litearm_driver/include/litearm_driver/service_helpers.hpp:57-63 | The reported feedback age is -1 without a read (or with a non-positive stamp), else now minus the last read's stamp |
| Statuses.PublishedStatusTellsHistory | litearm_driver/src/litearm_driver_node.cpp:559-618 | Every published status, field by field: flags, mode, per-axis arrays (NaN/NaN/0 where uncovered) and age from the last frame read, this tick's read included; link and zero gravity from the run's history; firmware, reset reason and error text from the SDK; speed from the last write since configure; the joint names; licence from the last read. One is published exactly when the publisher is activated |
| Statuses.PublishedJointsTellHistory | litearm_driver/src/litearm_driver_node.cpp:620-635 | A joint state message is published exactly when its publisher is activated and a frame was read, and shows that frame's values on the axes both sides know, under the joint names |
| Statuses.ActivePublishersIff | litearm_driver/src/litearm_driver_node.cpp:455-466 | In an active node the status publisher is activated, the other two exactly when they were created |
| Statuses.GetStatusShowsItsOwnReply | litearm_driver/src/litearm_driver_node.cpp:876-888 | A get_status answer shows, in every field, the frame that very call returned |
| Statuses.StatusShowsSession | litearm_driver/src/litearm_driver_node.cpp:566-609 | After any run the frame-independent fields of a status are those the run's history implies |
| Statuses.PublishedDiagnosticTellsHistory | litearm_driver/src/litearm_driver_node.cpp:638-708 | Every published diagnostic: text = notes of exactly the conditions the run implies, in order, "ok" iff there is none; level ERROR iff the link is down, the device in DFU or the last frame faulted, else WARN iff that frame infers the latch or the last licence read is not activated, else OK; hardware id and every key/value entry from the run |
| Mirrors.LicenceIsTheLastRead | litearm_driver/src/litearm_driver_node.cpp:546-553 | The licence record is that of the last read that returned since the latest configure attempt or cleanup; a failed read leaves the record standing |
| Mirrors.ActivationShowsDeviceRecordIff | litearm_driver/include/litearm_driver/litearm_driver_node.hpp:333-335 | What an activation leaves is the device's licence record exactly when the last read before it had returned that very record |
| Mirrors.ActivationNeverReadsTheLicence | litearm_driver/src/litearm_driver_node.cpp:162-193 | No activation sends a licence read |
| Mirrors.ConfigureSucceedsIff | litearm_driver/src/litearm_driver_node.cpp:99-160 | Configuring succeeds exactly when the factory and connect return, a supplied name list has one name per axis and nothing raises; every ERROR answer leaves no session; exactly the exceptions after connect leave the new one, and one of the factory the old one |
| Mirrors.ConfigureTakesFittingNames | litearm_driver/src/litearm_driver_node.cpp:119-133 | With nothing raising, configuring succeeds exactly when no names were supplied or there is one for each reported axis, and is an error otherwise |
| Mirrors.ConfigureNamesEveryAxis | litearm_driver/src/litearm_driver_node.cpp:119-133 | A successful configure ends with one name per axis: the supplied list, or derived and pairwise distinct names |
| Mirrors.MirrorIsTheLastWrite | litearm_driver/src/litearm_driver_node.cpp:894-910 | The speed mirror is the percentage of the last successful write since the latest configure attempt, or 100, and at most 100 |
| Mirrors.MirrorShowsLastWrittenIff | litearm_driver/src/litearm_driver_node.cpp:90-93 | It is the percentage last written at all exactly when that write followed the latest configure attempt, or wrote 100 |
| Mirrors.SessionAndPortFollowTheEvents | litearm_driver/src/litearm_driver_node.cpp:95-132 | After any run the node holds a session, and a port is open, exactly as configures, reconnects, cleanups and shutdowns imply |
| Mirrors.KeepAliveFollowsTheEvents | litearm_driver/src/litearm_driver_node.cpp:842-870 | After any run zero gravity is on, with the period it was entered with, exactly as the events imply |
| Mirrors.MotorsAreSeenEnabledIff | litearm_driver/src/litearm_driver_node.cpp:510-525 | After any run the motors count as enabled exactly when there is a session and the SDK's frame says so |
| Mirrors.UnconfiguredHoldsSessionIff | litearm_driver/src/litearm_driver_node.cpp:170-183 | An unconfigured node holds a session exactly when the last transition it took stopped half-way: a refused ENABLE, or an exception that left the callback after connect |
| Mirrors.PublisherExistsIff | litearm_driver/src/litearm_driver_node.cpp:145-154 | The status, joint state and diagnostics publishers each exist exactly when some configure since the last cleanup created it |
| Mirrors.TopicFollowsTheParameterIff | litearm_driver/src/litearm_driver_node.cpp:147-154 | In an active node each of the two topics follows its parameter exactly when that is on, or no configure since the last cleanup created its publisher |
| Mirrors.DiagnosticsTimerIff | litearm_driver/src/litearm_driver_node.cpp:488-492 | In an active, not stranded node the diagnostics timer exists exactly for a created publisher and a positive rate, whatever the parameter says |
| Sends.EveryCommandHasOneSender | litearm_driver/src/litearm_driver_node.cpp:85-265 | Each entry of a run's wire log was put there by exactly one event |
| Sends.SenderSent | litearm_driver/src/litearm_driver_node.cpp:85-265 | and is among what that event sends in the state the earlier events lead to |
| Sends.StepLog | litearm_driver/src/litearm_driver_node.cpp:85-250 | The log only grows: an event appends just the commands listed for it, branch by branch |
| Sends.ServeFrame | litearm_driver/include/litearm_driver/service_helpers.hpp:33-54 | No request changes the setup fields, creates a session or, reconnect apart, touches the ports |
| Histories.RunRemembers | litearm_driver/src/litearm_driver_node.cpp:62-79 | After every run the live and the copied parameters and the joint names are those the events imply, and a configured node has one name per axis |
| Histories.ParametersAreAsLastSet | litearm_driver/src/litearm_driver_node.cpp:28-43 | Each of the ten parameters in force is the value it was last set to, and its declared default until then |
| Histories.SettingSetsJustThat | litearm_driver/src/litearm_driver_node.cpp:28-43 | ros2 param set gives the named parameter the given value and leaves the other nine alone, in any state |
| Divergences.CommitModelIsInverted | litearm_driver/src/litearm_driver_model.cpp:191-196 | A run on which commit_model writes flash with motors on and refuses with motors off |
| Divergences.CommitMaskIsTruncated | litearm_driver/src/litearm_driver_model.cpp:198 | A run on which mask 0x10001 arrives as 1 |
| Divergences.NoAxesNoLengthCheck | litearm_driver/src/safety_gates.cpp:138-144 | With no axes reported a finite joint array of any length is sent |
| Divergences.RefusedEnableKeepsThePort | litearm_driver/src/litearm_driver_node.cpp:170-183 | A refused ENABLE ends in Unconfigured with the port open |
| Divergences.PublishesThoughTurnedOff | litearm_driver/src/litearm_driver_node.cpp:147-154 | For each of the two optional topics a run whose active node publishes it although its parameter is off |
| Divergences.MirrorForgetsTheGovernor | litearm_driver/src/litearm_driver_node.cpp:92 | A run on which 40 was written last and the mirror reads 100 |
| Divergences.ActivationLeavesTheLicenceUnread | litearm_driver/include/litearm_driver/litearm_driver_node.hpp:333-335 | A run whose activation meets a device that answers with a licence and ends with none shown |
| Divergences.UnconfiguredNodeMoves | litearm_driver/src/litearm_driver_node.cpp:185-187 | A run that ends unconfigured with at least 55 services up and the arm homing on request |
| Supervisor.Process.Replay | litearm_driver/src/litearm_driver_node.cpp:85-265 | The imperative node driven through any sequence of events ends in the state the specification's run ends in |
| Supervisor.Process.Deliver | litearm_driver/src/litearm_driver_node.cpp:85-265 | One event: new primary state, fields, link and output are those of the specified step |
| Supervisor.PrimaryFollowsTheTable | litearm_driver/src/litearm_driver_node.cpp:85-265 | Which primary state each event leads to, by what its callback answered |
| LitearmDriverNode.Node.OnConfigure | litearm_driver/src/litearm_driver_node.cpp:85-160 | Field by field the specified transition, with its three error exits |
| LitearmDriverNode.Node.FinishConfigure | litearm_driver/src/litearm_driver_node.cpp:119-160 | The part after connect: names, licence, publishers, with each place it can stop at |
| LitearmDriverNode.Node.CreatePublishers | litearm_driver/src/litearm_driver_node.cpp:145-154 | Publishers are created in order; an exception keeps those before it |
| LitearmDriverNode.Node.AdoptArm | litearm_driver/src/litearm_driver_node.cpp:95-104 | The new session exists before the old one is destroyed; no session when the factory returns none |
| LitearmDriverNode.Node.OnActivate | litearm_driver/src/litearm_driver_node.cpp:162-193 | Likewise; a refused ENABLE leaves services, publishers and timers as they were |
| LitearmDriverNode.Node.OnDeactivate | litearm_driver/src/litearm_driver_node.cpp:195-219 | Likewise; zero gravity is left first, nothing disables the motors |
| LitearmDriverNode.Node.OnCleanup | litearm_driver/src/litearm_driver_node.cpp:221-244 | Likewise; the session goes whether or not close raised |
| LitearmDriverNode.Node.OnShutdown | litearm_driver/src/litearm_driver_node.cpp:246-250 | The same as cleanup |
| LitearmDriverNode.Node.OnError | litearm_driver/src/litearm_driver_node.cpp:252-265 | Changes nothing and answers SUCCESS |
| LitearmDriverNode.Node.RegisterServices | litearm_driver/src/litearm_driver_node.cpp:271-448 | Appends the 55 registrations in order, each with the node's SDK group |
| LitearmDriverNode.Node.StartTimers | litearm_driver/src/litearm_driver_node.cpp:481-493 | A timer is created in the SDK group exactly for a positive rate and, for diagnostics, an existing publisher; an exception keeps what was created before it |
| LitearmDriverNode.Node.RefreshLicenseRecord | litearm_driver/src/litearm_driver_node.cpp:546-553 | One licence read; the record is replaced only when it returned |
| LitearmDriverNode.Node.CacheFrame | litearm_driver/src/litearm_driver_node.cpp:527-544 | A readable frame replaces frame, stamp and flag together; otherwise none of them changes |
| LitearmDriverNode.Node.MakeStatus | litearm_driver/src/litearm_driver_node.cpp:559-611 | Every field of the status message but its header, from the frame given, else the cached one, else defaults |
| LitearmDriverNode.Node.PublishStatus | litearm_driver/src/litearm_driver_node.cpp:613-636 | Caches, then publishes status and, with a frame, joint states |
| LitearmDriverNode.Node.PublishDiagnostics | litearm_driver/src/litearm_driver_node.cpp:638-708 | Publishes hardware id, aggregated diagnostic and its key/value part, and changes nothing |
| LitearmDriverNode.Node.RunCommand | litearm_driver/include/litearm_driver/service_helpers.hpp:33-54 | Link check, one SDK call, its effect, and the response of its outcome with the values the call returned |
| LitearmDriverNode.Node.HandleReconnect | litearm_driver/src/litearm_driver_diagnostics.cpp:45-67 | Session rebuilt in place, then licence re-read; either failure is reported as such |
| LitearmDriverNode.Node.InvokeZeroG | litearm_driver/src/litearm_driver_node.cpp:714-731 | Start keeps the old keep-alive when it raises; stop ends it either way |
| LitearmDriverNode.Node.InvokeGetStatus | litearm_driver/src/litearm_driver_node.cpp:876-888 | A call that raises changes none of frame, stamp and flag |
| LitearmDriverNode.Node.InvokeSetSpeed | litearm_driver/src/litearm_driver_node.cpp:903-909 | The mirror is written only after the SDK call returned |
| LitearmDriverNode.Node.InvokeTuning | litearm_driver/src/litearm_driver_motion.cpp:358-362 | The SDK call of a parameter, solver, bench or log request; a negative axis or non-positive deadline selects all axes or the default |
| LitearmDriverNode.Node.InvokeLogDump | litearm_driver/src/litearm_driver_diagnostics.cpp:221-238 | Nothing is sent when the directory cannot be made; two different defaults stand for a zero timeout |
| LitearmDriverNode.Node.InvokeOther | litearm_driver/src/litearm_driver_node.cpp:738-840 | Each handler's lambda makes the one SDK call specified, with the fields and arguments specified |
| LitearmDriverNode.Node.GateMoveJs | litearm_driver/src/litearm_driver_motion.cpp:145-161 | The first refusal of q, then dq and tau_ff where given |
| LitearmDriverNode.Node.GateSendMitAll | litearm_driver/src/litearm_driver_motion.cpp:207-216 | The loop stops at the first of the five arrays that fails |
| LitearmDriverNode.Node.GateMoveC | litearm_driver/src/litearm_driver_motion.cpp:272-287 | The loop names the first pose that fails; the speed comes last |
| LitearmDriverNode.Node.GateTuning | litearm_driver/src/litearm_driver_node.cpp:926-1092 | The gates of the parameter, model, solver, bench and log handlers in their order |
| LitearmDriverNode.Node.GateOther | litearm_driver/src/litearm_driver_node.cpp:794-900 | The gates of the remaining handlers, switches and period read at call time |
| LitearmDriverNode.Node.GateSwitches | litearm_driver/src/litearm_driver_node.cpp:794-856 | Switches, zero-gravity period and motor state are read at call time and give the one gate of their handler |
| LitearmDriverNode.Node.ReadMotorsEnabled | litearm_driver/src/litearm_driver_node.cpp:510-525 | An absent session, an absent frame and a read that throws all count as not enabled |
| LitearmDriverNode.Node.HandleMotion | litearm_driver/src/litearm_driver_motion.cpp:66-292 | allow_motion, the handler's gates, then the command: the specified answer and state |
| LitearmDriverNode.Node.HandleMovePath | litearm_driver/src/litearm_driver_motion.cpp:294-316 | allow_motion, waypoints, speed, then the command |
| LitearmDriverNode.Node.Handle | litearm_driver/src/litearm_driver_node.cpp:271-448 | Every request's answer, new state and sent commands are the specified ones |
| Doubles.ComparisonsOrder | litearm_driver/src/safety_gates.cpp:41-44 | The comparisons the gates use: finite values as reals, infinities outside them, NaN with nothing |
| SafetyGates.ScanFiniteValues | litearm_driver/src/safety_gates.cpp:135-151 | The loop with early return computes the specified verdict, including the least offending index |
| SafetyGates.ScanCom | litearm_driver/src/safety_gates.cpp:78-86 | Accepts exactly finite triples |
| SafetyGates.ScanFfValues | litearm_driver/src/safety_gates.cpp:88-99 | Accepts exactly non-empty finite lists |
| SafetyGates.ScanFinite | litearm_driver/src/safety_gates.cpp:155-158 | The overload without a length, computed by the shared loop with length 0 |
| SafetyGates.FiniteGateAcceptsExactly | litearm_driver/src/safety_gates.cpp:135-151 | Passes iff non-empty, all finite and, for a positive expected length, of that length |
| SafetyGates.RefusalNamesTheLeastOffender | litearm_driver/src/safety_gates.cpp:145-149 | A refusal names index i iff i is the least non-finite one (and the length was right) |
| SafetyGates.LengthEnforcedIff | litearm_driver/src/safety_gates.cpp:138-144 | The gate enforces the expected length exactly when it is positive |
| SafetyGates.GatesAgree | litearm_driver/src/safety_gates.cpp:78-176 | Gates written separately for one rule accept the same arguments; with length 0, or with the list's own length, the three-argument gate gives the same verdict as the two-argument one |
| SafetyGates.RangeGatesAcceptExactly | litearm_driver/src/safety_gates.cpp:39-202 | The range gates accept exactly their real intervals and no NaN or infinity |
| SafetyGates.RangeRefusalsSayWhy | litearm_driver/src/safety_gates.cpp:39-202 | A range gate names not-a-number and out-of-range apart, exactly |
| SafetyGates.OtherRefusalsSayWhy | litearm_driver/src/safety_gates.cpp:21-212 | The reasons of the percent, preset, index, motor, parameter, link and file name gates, exactly |
| SafetyGates.ListRefusalsSayWhy | litearm_driver/src/safety_gates.cpp:88-151 | The list gates report emptiness first, then length, then the non-finite entry, under the argument's name |
| SafetyGates.OnlyNaNSlipsThroughTheComparisons | litearm_driver/src/safety_gates.cpp:39-130 | NaN is the one value the finiteness test refuses and the comparisons would not |
| SafetyGates.FirstRefusalIsTheFirst | litearm_driver/src/litearm_driver_motion.cpp:207-216 | A chain of gates passes iff all pass and otherwise answers the first that fails |
| Waypoints.ReadPoses | litearm_driver/src/litearm_driver_motion.cpp:43-62 | The stride-six loop computes the specified poses and verdict |
| Waypoints.ReadingIsExact | litearm_driver/src/litearm_driver_motion.cpp:43-62 | Succeeds iff non-empty, finite and divisible by six; then flattens back with length/6 poses, the i-th being the i-th group of six; on failure no pose |
| Waypoints.PoseIsTheGroupOfSix | litearm_driver/src/litearm_driver_motion.cpp:57-60 | The i-th pose is the i-th group of six values |
| Waypoints.FlattenUnflatten | litearm_driver/src/litearm_driver_motion.cpp:57-60 | Round trip from flat lists, with the number of poses |
| Waypoints.UnflattenFlatten | litearm_driver/src/litearm_driver_motion.cpp:57-60 | Round trip from pose lists |
| Waypoints.EveryFinitePathIsReadable | litearm_driver/src/litearm_driver_motion.cpp:301-306 | Every non-empty finite pose list is read back from its own flattening |
| JointNames.DeriveNames | litearm_driver/src/litearm_driver_node.cpp:119-124 | The loop yields the specified names |
| JointNames.DerivedNamesAreDistinct | litearm_driver/src/litearm_driver_node.cpp:119-124 | Exactly one name per axis, in axis order, no two alike: "joint" and the axis number from one in digits without leading zero |
| JointNames.ValueOfDecimal | litearm_driver/src/litearm_driver_node.cpp:123 | Decimal printing is read back, hence injective |
| JointNames.DecimalIsCanonical | litearm_driver/src/litearm_driver_node.cpp:123 | Decimal printing yields digits only and no leading zero |
| Reports.ProjectAxes | litearm_driver/src/litearm_driver_node.cpp:589-602 | For every pair of lengths: one entry per configured axis, equal to the frame on the common prefix, NaN/NaN/0 beyond |
| Reports.ProjectionIsUnique | litearm_driver/src/litearm_driver_node.cpp:589-602 | That description leaves no choice |
| Reports.CollectJointStates | litearm_driver/src/litearm_driver_node.cpp:620-633 | The pushed arrays are the frame's values on the common prefix |
| Reports.Aggregate | litearm_driver/src/litearm_driver_node.cpp:650-687 | The mutated level and text end as the specified fold |
| Reports.Report | litearm_driver/src/litearm_driver_node.cpp:653-686 | One conditional update equals taking the maximum and appending the note |
| Reports.DiagnosticIsFaithful | litearm_driver/src/litearm_driver_node.cpp:650-687 | Level = worst severity among the conditions that hold; text = their notes joined in order; "ok" iff none holds |
| Reports.LevelIsDecidedBy | litearm_driver/src/litearm_driver_node.cpp:660-683 | The level without severities: ERROR iff link down, DFU or fault, else WARN iff latch inferred or licence not activated, else OK |
| Reports.NotesRead | litearm_driver/src/litearm_driver_node.cpp:660-686 | The words of the notes |
| Reports.JoinedSplits | litearm_driver/src/litearm_driver_node.cpp:652-658 | Notes are separated by "; " and by nothing else |
| Reports.HighestIsTheMaximum | litearm_driver/src/litearm_driver_node.cpp:660-686 | The folded level bounds every severity and is attained |
| Reports.TalliedIsTheSummary | litearm_driver/src/litearm_driver_node.cpp:652-658 | The running level and text are those of the list of conditions that hold |

## Left out

- The SDK itself (framing, ACK waits, retries, keep-alive timing, inverse kinematics, cartesian planner): it is the environment's part of every event.
- rclcpp executors beyond group exclusion, QoS, topic transport, launch, logging and message generation: library behaviour, assumed as listed above.
- Lifecycle transitions and parameter changes running concurrently with service or timer callbacks: they are not in the callback group; they are modelled as atomic.
- Exceptions outside the code's own try blocks in deactivation, cleanup, shutdown and service handlers: the code has no behaviour of its own for them. Those in configuration and activation are modelled. Which timer periods rclcpp rejects is left to the environment.
- String parameters that are only passed on (`port`, `joint_states_topic`, `frame_id`, `log_dir`), message headers and time stamps: copied.
- A changed axis count after reconnecting to a different device: the code keeps the names of the latest configure; motion theorems speak of those names, joint parameter handlers of the count at the call.
- Message wording: a message is a tag saying which gate refused, which SDK call failed or which service succeeded; only the joined diagnostic text is spelled out. The keys of the diagnostic's list are field names here, and its numbers are not printed.
- Serializability.EveryScheduleIsSerial: a callback reads the node's fields once, when it begins, and its writes appear at once, when it ends; reads and writes spread over its run are not modelled.
- LitearmDriverNode.Node.RunCommand: the values a handler copies out of an SDK reply (plan reports, counters, model bodies, parameters, bench timings, poses) are one list of numbers, without the fields of each response type.
- LitearmDriverNode.Node.RegisterServices: which handler is attached is given by the service's name; the three spellings the code uses to register one are not told apart.
- SafetyGates.RangeGatesAcceptExactly: the bounds 0.005 and 0.10 are those decimals, not the nearest doubles.
- Policies.EveryCommandAnswersItsRequest: integers are unbounded; the narrowing of enable_attempts and of item, body and mode numbers to `int` is not modelled, that of expected_mask and of the status's mode and licence state is.
- Filesystem work of `log_dump`: reduced to whether the directory could be made.
- `format_items` and the catalog's contents: a formatting loop over constant tables.
