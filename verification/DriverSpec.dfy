// What each callback of LitearmDriverNode does to the node and to the link, as functions of the
// node's state, the request and the environment's replies. LitearmDriverNode.dfy holds the
// imperative node and proves it computes exactly these.
module DriverSpec {
  import opened Wrappers
  import opened Doubles
  import opened SafetyGates
  import opened Waypoints
  import opened JointNames
  import opened Sdk
  import opened Reports

  // The declared parameters, as `ros2 param set` leaves them.
  datatype Params = Params(
    jointNames: seq<string>, autoEnable: bool, enableAttempts: int, statusRate: Double,
    publishJointStates: bool, publishDiagnostics: bool, diagnosticsRate: Double,
    zeroGPeriod: Double, allowDfu: bool, allowMotion: bool)

  const DEFAULTS := Params([], true, 12, Fin(10.0), false, true, Fin(1.0), Fin(0.04), false, false)

  datatype ParamChange =
    | JointNames(names: seq<string>)
    | AutoEnable(on: bool)
    | EnableAttempts(attempts: int)
    | StatusRate(hz: Double)
    | PublishJointStates(on: bool)
    | PublishDiagnostics(on: bool)
    | DiagnosticsRate(hz: Double)
    | ZeroGPeriod(period: Double)
    | AllowDfu(on: bool)
    | AllowMotion(on: bool)

  function Changed(p: Params, c: ParamChange): Params {
    match c
    case JointNames(names) => p.(jointNames := names)
    case AutoEnable(on) => p.(autoEnable := on)
    case EnableAttempts(attempts) => p.(enableAttempts := attempts)
    case StatusRate(hz) => p.(statusRate := hz)
    case PublishJointStates(on) => p.(publishJointStates := on)
    case PublishDiagnostics(on) => p.(publishDiagnostics := on)
    case DiagnosticsRate(hz) => p.(diagnosticsRate := hz)
    case ZeroGPeriod(period) => p.(zeroGPeriod := period)
    case AllowDfu(on) => p.(allowDfu := on)
    case AllowMotion(on) => p.(allowMotion := on)
  }

  // Callback groups, as create_callback_group hands them out.
  type Group = nat

  const SDK_GROUP: Group := 0

  // An entry of services_: create_service was given the name, and the group its callback runs in.
  datatype Registration = Registration(service: Service, group: Group)

  // A lifecycle publisher: not created, created, created and activated.
  datatype Publisher = Absent | Idle | Live

  // The node's fields, in two groups, plus the serial side. Setup is what only lifecycle
  // callbacks (and, for `params`, `ros2 param set`) write; Memory is what handlers and ticks
  // update as well. `config` is the copy read_parameters takes; the node never uses the
  // call-time parameters from it.
  datatype Setup = Setup(
    params: Params,
    config: Params,
    jointNames: seq<string>,
    arm: Option<nat>,
    services: seq<Registration>,
    statusPub: Publisher, jointPub: Publisher, diagPub: Publisher,
    statusTimer: Option<Group>, diagTimer: Option<Group>)   // the group each existing timer runs in

  datatype Memory = Memory(
    licenseValid: bool, license: License,
    speed: int,
    haveState: bool, lastState: Frame, stamp: real)

  datatype State = State(setup: Setup, memory: Memory, wire: Wire)

  const NO_FRAME := Frame([], false, false, "", false, 0, false, 0, "", 0)

  const NO_LICENSE := License(false, 0, "", "")

  const INITIAL := State(
    Setup(DEFAULTS, DEFAULTS, [], None, [], Absent, Absent, Absent, None, None),
    Memory(false, NO_LICENSE, 100, false, NO_FRAME, 0.0),
    QUIET)

  const SERVICE_COUNT := 55

  // The services in registration order: those without an argument, those register_service sets up
  // (links and motion, then feedforward, model and log), and those set up one by one.
  function PlainServiceAt(i: nat): Service {
    if i == 0 then Service.Reconnect else if i == 1 then Service.Home else if i == 2 then Service.RevertModel
    else if i == 3 then Service.LogStop else if i == 4 then Service.Enable else if i == 5 then Service.Disable
    else if i == 6 then Service.Reset else if i == 7 then Service.ClearFaults
    else if i == 8 then Service.EmergencyStop else if i == 9 then Service.Park
    else if i == 10 then Service.SaveParams else if i == 11 then Service.ResetFactoryParams
    else if i == 12 then Service.EnterDfu else Service.ZeroG
  }

  function MemberServiceAt(i: nat): Service {
    if i == 0 then Service.GetTcp else if i == 1 then Service.GetDiagnostics else if i == 2 then Service.KinBench
    else if i == 3 then Service.MoveJ else if i == 4 then Service.MoveJSync else if i == 5 then Service.MoveP
    else if i == 6 then Service.MoveJs else if i == 7 then Service.SendMit
    else if i == 8 then Service.SendMitAll else if i == 9 then Service.MoveL
    else if i == 10 then Service.MoveC else if i == 11 then Service.MovePath
    else if i == 12 then Service.PollCart else Service.InverseKinematics
  }

  function ModelServiceAt(i: nat): Service {
    if i == 0 then Service.GetFeedforwardVector else if i == 1 then Service.GetFeedforwardMask
    else if i == 2 then Service.GetFeedforwardCatalog else if i == 3 then Service.SetGravityScale
    else if i == 4 then Service.SetInertiaScale else if i == 5 then Service.SetGravityVector
    else if i == 6 then Service.ProbeModel else if i == 7 then Service.GetModelBody
    else if i == 8 then Service.SetModelBody else if i == 9 then Service.GetModelJm
    else if i == 10 then Service.SetModelJm else if i == 11 then Service.CommitModel
    else if i == 12 then Service.GetModelStatus else if i == 13 then Service.LogStart else Service.LogDump
  }

  function SingleServiceAt(i: nat): Service {
    if i == 0 then Service.GetStatus else if i == 1 then Service.SetSpeedScaling
    else if i == 2 then Service.SetMotionMode else if i == 3 then Service.SetPayload
    else if i == 4 then Service.SetFeedforwardMask else if i == 5 then Service.SetFeedforwardPreset
    else if i == 6 then Service.SetFeedforwardScalar else if i == 7 then Service.SetFeedforwardVector
    else if i == 8 then Service.GetFeedforwardScalar else if i == 9 then Service.GetJointParams
    else if i == 10 then Service.SetJointGains else Service.SetJointLimits
  }

  function ServiceAt(i: nat): Service {
    if i < 14 then PlainServiceAt(i) else if i < 28 then MemberServiceAt(i - 14)
    else if i < 43 then ModelServiceAt(i - 28) else SingleServiceAt(i - 43)
  }

  // What create_service_servers appends: every service once, all in the one group.
  function AllServices(): seq<Registration> {
    seq(SERVICE_COUNT, i requires 0 <= i => Registration(ServiceAt(i), SDK_GROUP))
  }

  // The group a service's callback runs in, if the service is advertised at all.
  function GroupOf(services: seq<Registration>, service: Service): Option<Group> {
    if services == [] then None
    else if services[|services| - 1].service == service then Some(services[|services| - 1].group)
    else GroupOf(services[..|services| - 1], service)
  }

  // The executor hands a request to the node only while its service is advertised.
  predicate Offers(s: State, service: Service) {
    GroupOf(s.setup.services, service).Some?
  }

  // Requests

  datatype Call =
    | Plain(service: Ungated, args: seq<Double>)
    | Enable
    | Move(motion: Motion)
    | MovePath(flat: seq<Double>, speed: Double, wait: bool)
    | ZeroG(data: bool)
    | SaveParams
    | ResetFactoryParams
    | CommitModel(expectedMask: nat)
    | EnterDfu
    | GetStatus(timeout: Double)
    | SetSpeedScaling(percent: nat)
    | Tune(tuning: Tuning)
    | LogDump(filename: string, whole: bool, deadline: Double)
    | GetTcp
    | GetDiagnostics
    | GetFeedforwardCatalog
    | Reconnect

  function MotionService(m: Motion): Service {
    match m
    case MoveJ(_, _) => Service.MoveJ
    case MoveJSync(_, _) => Service.MoveJSync
    case MoveP(_, _, _) => Service.MoveP
    case MoveJs(_, _, _) => Service.MoveJs
    case SendMit(_, _, _, _, _, _) => Service.SendMit
    case SendMitAll(_, _, _, _, _) => Service.SendMitAll
    case Home => Service.Home
    case MoveL(_, _, _) => Service.MoveL
    case MoveC(_, _, _, _, _) => Service.MoveC
  }

  function TuningService(t: Tuning): Service {
    match t
    case SetPayload(_, _) => Service.SetPayload
    case SetFeedforwardPreset(_) => Service.SetFeedforwardPreset
    case SetFeedforwardVector(_, _) => Service.SetFeedforwardVector
    case GetJointParams(_) => Service.GetJointParams
    case SetJointGains(_, _, _, _) => Service.SetJointGains
    case SetJointLimits(_, _, _) => Service.SetJointLimits
    case SetGravityScale(_) => Service.SetGravityScale
    case SetInertiaScale(_) => Service.SetInertiaScale
    case SetGravityVector(_) => Service.SetGravityVector
    case SetModelBody(_, _) => Service.SetModelBody
    case SetModelJm(_) => Service.SetModelJm
    case KinBench(_) => Service.KinBench
    case LogStart(_) => Service.LogStart
    case InverseKinematics(_, _, _) => Service.InverseKinematics
  }

  function ServiceOf(call: Call): Service {
    match call
    case Plain(service, _) => service
    case Enable => Service.Enable
    case Move(m) => MotionService(m)
    case MovePath(_, _, _) => Service.MovePath
    case ZeroG(_) => Service.ZeroG
    case SaveParams => Service.SaveParams
    case ResetFactoryParams => Service.ResetFactoryParams
    case CommitModel(_) => Service.CommitModel
    case EnterDfu => Service.EnterDfu
    case GetStatus(_) => Service.GetStatus
    case SetSpeedScaling(_) => Service.SetSpeedScaling
    case Tune(t) => TuningService(t)
    case LogDump(_, _, _) => Service.LogDump
    case GetTcp => Service.GetTcp
    case GetDiagnostics => Service.GetDiagnostics
    case GetFeedforwardCatalog => Service.GetFeedforwardCatalog
    case Reconnect => Service.Reconnect
  }

  // Responses. The message is None while the handler has written nothing into it.

  // What the message says of a frame, and its defaults without one.
  datatype Flags = Flags(enabled: bool, faulted: bool, cartBusy: bool, jointFault: nat, dropHoldInferred: bool,
                         mode: nat, modeName: string, raw: nat)

  const NO_FLAGS := Flags(false, false, false, 0, false, 0, "", 0)

  // The mode travels as sixteen bits.
  function FlagsOf(frame: Frame): Flags {
    Flags(frame.enabled, frame.faulted, frame.cartBusy, frame.jointFault, frame.dropHoldInferred,
          frame.mode % 0x1_0000, frame.modeName, frame.flags)
  }

  // The licence fields, which keep their defaults while no record was read; the state is one byte.
  datatype LicenseFields = LicenseFields(valid: bool, state: nat, stateName: string, uid: string)

  function LicenseFieldsOf(m: Memory): LicenseFields {
    if m.licenseValid
    then LicenseFields(true, m.license.state % 0x100, m.license.stateName, m.license.uid)
    else LicenseFields(false, 0, "", "")
  }

  // Texts the SDK keeps about the session; empty without one.
  datatype Texts = Texts(firmware: string, resetReason: string, zeroGError: string)

  function TextsOf(s: State, env: Env): Texts {
    if s.setup.arm.None? then Texts("", "", "") else Texts(env.firmware, env.resetReason, env.zeroGError)
  }

  datatype Status = Status(
    connected: bool, inDfu: bool, texts: Texts, speedScaling: int, zeroGActive: bool, flags: Flags,
    jointNames: seq<string>, axes: Axes, feedbackAge: real, license: LicenseFields)

  // The key/value part of a diagnostic.
  datatype Details = Details(connected: bool, enabled: bool, mode: string, jointFault: nat, speed: int,
                             zeroGActive: bool, feedbackAge: real, licenseState: string)

  datatype DiagnosticReport = DiagnosticReport(hardwareId: string, summary: Diagnostic, details: Details)

  datatype Message =
    | Gate(reason: Reason)
    | Done(service: Service)
    | SdkRefused(service: Service)
    | NotConfigured
    | NoToolPose

  datatype Response = Response(success: bool, message: Option<Message>, status: Option<Status>, values: seq<Double>)

  datatype Served = Served(state: State, response: Response)

  const BLANK := Response(false, None, None, [])

  function Failure(m: Message): Response {
    Response(false, Some(m), None, [])
  }

  // Helpers of the node

  function ParameterSet(s: State, change: ParamChange): State {
    s.(setup := s.setup.(params := Changed(s.setup.params, change)))
  }

  function Connected(s: State, env: Env): bool {
    s.setup.arm.Some? && s.setup.arm.value in s.wire.open && env.alive
  }

  // A read that throws counts as "not enabled".
  function MotorsEnabled(s: State, env: Env): bool {
    s.setup.arm.Some? && env.sdk.Cached? && env.sdk.frame.enabled
  }

  function ZeroGActive(s: State): bool {
    s.setup.arm.Some? && s.wire.keepAlive.Some?
  }

  function Cache(s: State, frame: Frame, stamp: real): State {
    s.(memory := s.memory.(haveState := true, lastState := frame, stamp := stamp))
  }

  function CachedState(s: State, env: Env): State {
    if s.setup.arm.Some? && env.sdk.Cached? then Cache(s, env.sdk.frame, env.sdk.stamp) else s
  }

  function BuildStatus(s: State, env: Env, given: Option<Frame>): Status {
    var frame := if given.None? && s.memory.haveState then Some(s.memory.lastState) else given;
    Status(Connected(s, env), s.setup.arm.Some? && env.inDfu, TextsOf(s, env), s.memory.speed, ZeroGActive(s),
           if frame.Some? then FlagsOf(frame.value) else NO_FLAGS,
           s.setup.jointNames, Projection(|s.setup.jointNames|, frame), FrameAge(s.memory.stamp, env.now),
           LicenseFieldsOf(s.memory))
  }

  function FactsOf(s: State, env: Env): Facts {
    Facts(!Connected(s, env), s.setup.arm.Some? && env.inDfu,
          if s.memory.haveState && s.memory.lastState.faulted then Some(s.memory.lastState.faultDetail) else None,
          s.memory.haveState && s.memory.lastState.dropHoldInferred,
          s.memory.licenseValid && !s.memory.license.activated, ZeroGActive(s))
  }

  function DetailsOf(s: State, env: Env): Details {
    var m := s.memory;
    Details(Connected(s, env), m.haveState && m.lastState.enabled,
            if m.haveState then m.lastState.modeName else "unknown",
            if m.haveState then m.lastState.jointFault else 0,
            m.speed, ZeroGActive(s), FrameAge(m.stamp, env.now),
            if m.licenseValid then m.license.stateName else "unknown")
  }

  // Lifecycle callbacks

  // CallbackReturn::ERROR is FATAL; RAISED stands for an exception that left the callback.
  datatype CallbackReturn = SUCCESS | FAILURE | FATAL | RAISED

  datatype Transition = Transition(state: State, result: CallbackReturn)

  // The unique_ptr reset: nothing without a session.
  function DropArm(s: State): State {
    if s.setup.arm.None? then s else s.(setup := s.setup.(arm := None), wire := Destroyed(s.wire, s.setup.arm.value))
  }

  // arm_ = create_arm(options): the new object exists before the old one is destroyed.
  function AdoptArm(s: State, env: Env): State {
    var created := if env.factoryReturns then s.(wire := s.wire.(nextArm := s.wire.nextArm + 1)) else s;
    var dropped := DropArm(created);
    dropped.(setup := dropped.setup.(arm := if env.factoryReturns then Some(s.wire.nextArm) else None))
  }

  function RefreshLicense(s: State, env: Env): State
    requires s.setup.arm.Some?
  {
    var sent := s.(wire := Sent(s.wire, Command.ReadLicense));
    if env.license.None? then sent
    else sent.(memory := sent.memory.(license := env.license.value, licenseValid := true))
  }

  // Publishers are created one after the other; an exception stops at the one that raised.
  function CreatePublishers(s: State, env: Env): State {
    var config, e := s.setup.config, env.escape;
    if e.AtStatusPublisher? then s
    else if config.publishJointStates && e.AtJointPublisher? then s.(setup := s.setup.(statusPub := Idle))
    else
      s.(setup := s.setup.(
         statusPub := Idle,
         jointPub := if config.publishJointStates then Idle else s.setup.jointPub,
         diagPub := if config.publishDiagnostics && !e.AtDiagPublisher? then Idle else s.setup.diagPub))
  }

  predicate FinishRaises(config: Params, env: Env) {
    || env.escape.AtStatusPublisher?
    || (config.publishJointStates && env.escape.AtJointPublisher?)
    || (config.publishDiagnostics && env.escape.AtDiagPublisher?)
    || env.escape.AtReport?
  }

  function ReadParameters(s: State): State {
    s.(setup := s.setup.(config := s.setup.params, jointNames := s.setup.params.jointNames))
  }

  function ConnectArm(s: State, env: Env): State
    requires s.setup.arm.Some?
  {
    s.(wire := Connecting(s.wire, s.setup.arm.value, env))
  }

  function NameJoints(s: State, env: Env): State {
    if s.setup.jointNames == [] then s.(setup := s.setup.(jointNames := Derived(env.axes))) else s
  }

  predicate WrongNames(names: seq<string>, env: Env) {
    names != [] && |names| != env.axes
  }

  function OnConfigure(s: State, env: Env): Transition {
    var blank := Blank(ReadParameters(s));
    if env.escape.AtFactory? then Transition(blank, RAISED)
    else
      var adopted := AdoptArm(blank, env);
      if adopted.setup.arm.None? then Transition(adopted, FATAL) else Opening(ConnectArm(adopted, env), env)
  }

  // The rest of on_configure, from what connect left.
  function Opening(s: State, env: Env): Transition
    requires s.setup.arm.Some?
  {
    if env.connect.Throws? then Transition(DropArm(s), FATAL)
    else if env.escape.AtAxes? then Transition(s, RAISED)
    else if WrongNames(s.setup.jointNames, env) then Transition(DropArm(s), FATAL)
    else Transition(CreatePublishers(RefreshLicense(NameJoints(s, env), env), env),
                    if FinishRaises(s.setup.config, env) then RAISED else SUCCESS)
  }

  function Activated(p: Publisher): Publisher {
    if p.Absent? then Absent else Live
  }

  function Deactivated(p: Publisher): Publisher {
    if p.Absent? then Absent else Idle
  }

  function ActivatePublishers(s: State): State {
    s.(setup := s.setup.(statusPub := Activated(s.setup.statusPub), jointPub := Activated(s.setup.jointPub),
                         diagPub := Activated(s.setup.diagPub)))
  }

  function DeactivatePublishers(s: State): State {
    s.(setup := s.setup.(statusPub := Deactivated(s.setup.statusPub), jointPub := Deactivated(s.setup.jointPub),
                         diagPub := Deactivated(s.setup.diagPub)))
  }

  // The status timer first; an exception leaves what was created before it.
  function StartTimers(s: State, env: Env): Transition {
    var wanted := Less(ZERO, s.setup.config.statusRate);
    if wanted && env.escape.AtStatusTimer? then Transition(s, RAISED)
    else
      StartDiagTimer(if wanted then s.(setup := s.setup.(statusTimer := Some(SDK_GROUP))) else s, env)
  }

  function StartDiagTimer(s: State, env: Env): Transition {
    if s.setup.diagPub.Absent? || !Less(ZERO, s.setup.config.diagnosticsRate) then Transition(s, SUCCESS)
    else if env.escape.AtDiagTimer? then Transition(s, RAISED)
    else Transition(s.(setup := s.setup.(diagTimer := Some(SDK_GROUP))), SUCCESS)
  }

  function Registering(s: State, entries: seq<Registration>): State {
    s.(setup := s.setup.(services := s.setup.services + entries))
  }

  function SendEnable(s: State): State {
    s.(wire := Sent(s.wire, Command.Enable(s.setup.config.enableAttempts)))
  }

  function OnActivate(s: State, env: Env): Transition {
    if s.setup.arm.None? then Transition(s, FATAL)
    else
      var sent := if s.setup.config.autoEnable then SendEnable(s) else s;
      if s.setup.config.autoEnable && env.outcome.Throws? then Transition(sent, FATAL)
      else StartTimers(ActivatePublishers(Registering(sent, AllServices())), env)
  }

  function LeaveZeroG(s: State): State {
    if ZeroGActive(s) then s.(wire := Sent(s.wire, Command.LeaveZeroG).(keepAlive := None)) else s
  }

  // stop_timers and destroy_service_servers
  function Withdraw(s: State): State {
    s.(setup := s.setup.(statusTimer := None, diagTimer := None, services := []))
  }

  function OnDeactivate(s: State, env: Env): Transition {
    Transition(DeactivatePublishers(Withdraw(LeaveZeroG(s))), SUCCESS)
  }

  function DropPublishers(s: State): State {
    s.(setup := s.setup.(statusPub := Absent, jointPub := Absent, diagPub := Absent))
  }

  function CloseArm(s: State, env: Env): State {
    if s.setup.arm.None? then s else DropArm(s.(wire := Closing(s.wire, s.setup.arm.value, env)))
  }

  function Forget(s: State): State {
    s.(memory := s.memory.(haveState := false, licenseValid := false, stamp := 0.0))
  }

  // What on_configure resets before anything can fail.
  function Blank(s: State): State {
    Forget(s).(memory := Forget(s).memory.(speed := 100))
  }

  function OnCleanup(s: State, env: Env): Transition {
    Transition(Forget(CloseArm(DropPublishers(Withdraw(s)), env)), SUCCESS)
  }

  function OnShutdown(s: State, env: Env): Transition {
    OnCleanup(s, env)
  }

  function OnError(s: State, env: Env): Transition {
    Transition(s, SUCCESS)
  }

  // Service handlers: what each tries, in order, before it touches the link

  function Optional(values: seq<Double>, expected: nat, what: Name): GateResult {
    if values == [] then Pass else CheckFiniteValues(values, expected, what)
  }

  function Inside(part: Name, gate: GateResult): GateResult {
    if gate.Refused? then Refused(Within(part, gate.reason)) else Pass
  }

  function MotionGates(m: Motion, axes: nat): seq<GateResult> {
    match m
    case MoveJ(q, speed) => [CheckFiniteValues(q, axes, Q), CheckSpeedFraction(speed)]
    case MoveJSync(q, speed) => [CheckFiniteValues(q, axes, Q), CheckSpeedFraction(speed)]
    case MoveP(pose, speed, _) => [CheckFinitePose(pose), CheckSpeedFraction(speed)]
    case MoveJs(q, dq, tau) => [CheckFiniteValues(q, axes, Q), Optional(dq, axes, Dq), Optional(tau, axes, TauFf)]
    case SendMit(joint, q1, dq1, kp1, kd1, tau1) =>
      [CheckJointIndex(joint, axes), CheckFinite([q1, dq1, kp1, kd1, tau1], MitGains)]
    case SendMitAll(q, dq, kp, kd, tau) =>
      [CheckFiniteValues(q, axes, Q), CheckFiniteValues(dq, axes, Dq), CheckFiniteValues(kp, axes, Kp),
       CheckFiniteValues(kd, axes, Kd), CheckFiniteValues(tau, axes, Tau)]
    case Home => []
    case MoveL(pose, speed, _) => [CheckFinitePose(pose), CheckSpeedFraction(speed)]
    case MoveC(start, via, end, speed, _) =>
      [Inside(Start, CheckFinitePose(start)), Inside(Via, CheckFinitePose(via)),
       Inside(End, CheckFinitePose(end)), CheckSpeedFraction(speed)]
  }

  function MotionAllowed(s: State): GateResult {
    CheckParameterAllows(s.setup.params.allowMotion, AllowMotionSwitch)
  }

  function TuningGates(t: Tuning, linked: bool, axes: nat): seq<GateResult> {
    match t
    case SetPayload(mass, com) => [CheckMass(mass), CheckCom(com)]
    case SetFeedforwardPreset(preset) => [CheckFfPreset(preset)]
    case SetFeedforwardVector(_, values) => [CheckFfValues(values)]
    case GetJointParams(joint) =>
      if joint >= 0 then [CheckConnected(linked), CheckJointIndex(joint, axes)] else [CheckConnected(linked)]
    case SetJointGains(joint, _, _, _) => [CheckConnected(linked), CheckJointIndex(joint, axes)]
    case SetJointLimits(joint, _, _) => [CheckConnected(linked), CheckJointIndex(joint, axes)]
    case SetGravityScale(values) => [CheckFiniteValues(values, 7, Values)]
    case SetInertiaScale(values) => [CheckFiniteValues(values, 7, Values)]
    case SetGravityVector(g) => [CheckFiniteVector3(g)]
    case SetModelBody(_, values) => [CheckFinite(values, Values)]
    case SetModelJm(values) => [CheckFinite(values, Values)]
    case KinBench(deadline) => [CheckTimeout(deadline, Timeout)]
    case LogStart(ticks) => [if ticks <= 0 then Refused(TicksNotPositive) else Pass]
    case InverseKinematics(pose, seed, deadline) =>
      [CheckFinitePose(pose), Optional(seed, 7, Seed), CheckTimeout(deadline, Timeout)]
  }

  // What a handler tries, in its order, before run_command looks at the link.
  function Gates(s: State, call: Call, env: Env): seq<GateResult> {
    match call
    case Move(m) => [MotionAllowed(s)] + MotionGates(m, |s.setup.jointNames|)
    case MovePath(flat, speed, _) => [MotionAllowed(s), CheckPoses(flat), CheckSpeedFraction(speed)]
    case ZeroG(data) => if data then [CheckZeroGPeriod(s.setup.params.zeroGPeriod)] else []
    case SaveParams => [CheckRequiresDisabled(MotorsEnabled(s, env), SavingParams)]
    case ResetFactoryParams => [CheckRequiresDisabled(MotorsEnabled(s, env), ResettingParams)]
    case CommitModel(_) => [CheckRequiresDisabled(!MotorsEnabled(s, env), CommittingModel)]
    case EnterDfu => [CheckParameterAllows(s.setup.params.allowDfu, AllowDfuSwitch)]
    case SetSpeedScaling(percent) => [CheckSpeedPercent(percent)]
    case Tune(t) => TuningGates(t, Connected(s, env), env.axes)
    case LogDump(filename, _, deadline) => [CheckLogFilename(filename), CheckTimeout(deadline, Timeout)]
    case _ => []
  }

  function Admission(s: State, call: Call, env: Env): GateResult {
    FirstRefusal(Gates(s, call, env))
  }

  function Positive(x: Double, otherwise: Double): Double {
    if Less(ZERO, x) then x else otherwise
  }

  // A negative axis means all of them; a deadline that is not positive means the default.
  function TuningCommand(t: Tuning): Command {
    if t.GetJointParams? && t.joint < 0 then Command.ReadAllJointParams
    else if t.KinBench? && !Less(ZERO, t.deadline) then Command.KinBenchByDefault
    else if t.InverseKinematics? then Command.Adjust(t.(deadline := Positive(t.deadline, Fin(3.0))))
    else Command.Adjust(t)
  }

  // The SDK call behind a handler; none where the handler only reads local SDK state.
  function CommandOf(s: State, call: Call, env: Env): seq<Command> {
    match call
    case Plain(service, args) => [Command.Plain(service, args)]
    case Enable => [Command.Enable(s.setup.config.enableAttempts)]
    case Move(m) => [Command.Move(m)]
    case MovePath(flat, speed, wait) => [Command.MovePath(Poses(flat), speed, wait)]
    case ZeroG(data) => [if data then Command.EnterZeroG(s.setup.params.zeroGPeriod) else Command.LeaveZeroG]
    case SaveParams => [Command.SaveParams]
    case ResetFactoryParams => [Command.ResetFactoryParams]
    case CommitModel(mask) => [Command.CommitModel(mask % 0x1_0000)]
    case EnterDfu => [Command.EnterDfu]
    case GetStatus(timeout) => [Command.GetStatus(timeout)]
    case SetSpeedScaling(percent) => [Command.SetSpeed(percent)]
    case Tune(t) => [TuningCommand(t)]
    case LogDump(filename, whole, deadline) =>
      if env.diskReady
      then [Command.LogDump(filename, whole, Positive(deadline, ONE), Positive(deadline, Fin(-1.0)))]
      else []
    case GetTcp => [Command.GetTcp]
    case GetDiagnostics => []
    case GetFeedforwardCatalog => []
    case Reconnect => [Command.Reopen]
  }

  function Issue(s: State, call: Call, env: Env): State {
    s.(wire := SentAll(s.wire, CommandOf(s, call, env)))
  }

  // What the handler's body changes beyond sending, when the SDK call returns and when it throws.
  function Effect(s: State, call: Call, env: Env): State {
    var ok := env.outcome.Returns?;
    if call.ZeroG? && call.data && ok && s.setup.arm.Some? then
      s.(wire := s.wire.(keepAlive := Some(KeepAlive(s.setup.arm.value, s.setup.params.zeroGPeriod))))
    else if call.ZeroG? && !call.data then s.(wire := s.wire.(keepAlive := None))
    else if call.GetStatus? && ok then Cache(s, env.reply, env.replyStamp)
    else if call.SetSpeedScaling? && ok then s.(memory := s.memory.(speed := call.percent))
    else s
  }

  function Accepted(call: Call, env: Env): bool {
    env.outcome.Returns? && (call.LogDump? ==> env.diskReady)
  }

  // The handler copies what the SDK returned into its answer: a plan report, values read back,
  // counters, a pose.
  predicate Replies(call: Call) {
    match call
    case Plain(s, _) =>
      s.PollCart? || s.GetFeedforwardVector? || s.GetFeedforwardMask? || s.ProbeModel? || s.GetModelBody?
      || s.GetModelJm? || s.GetModelStatus? || s.GetFeedforwardScalar?
    case Move(m) => m.MoveL? || m.MoveC?
    case MovePath(_, _, _) => true
    case Tune(t) => t.GetJointParams? || t.KinBench? || t.InverseKinematics?
    case LogDump(_, _, _) => true
    case GetTcp => true
    case GetDiagnostics => true
    case _ => false
  }

  function AnswerAfter(s: State, call: Call, env: Env): Response {
    if !Accepted(call, env) then Failure(SdkRefused(ServiceOf(call)))
    else if call.GetTcp? && !env.tcpSolved then Failure(NoToolPose)
    else Response(true, Some(Done(ServiceOf(call))),
                  if call.GetStatus? then Some(BuildStatus(s, env, Some(s.memory.lastState))) else None,
                  if Replies(call) then env.values else [])
  }

  function Reconnecting(s: State, env: Env): Served {
    if s.setup.arm.None? then Served(s, Failure(NotConfigured))
    else
      var tried := s.(wire := Reopening(s.wire, s.setup.arm.value, env));
      if env.outcome.Throws? then Served(tried, Failure(SdkRefused(Service.Reconnect)))
      else if env.license.None? then Served(RefreshLicense(tried, env), Failure(SdkRefused(Service.Reconnect)))
      else Served(RefreshLicense(tried, env), Response(true, Some(Done(Service.Reconnect)), None, []))
  }

  function Serve(s: State, call: Call, env: Env): Served {
    if call.Reconnect? then Reconnecting(s, env)
    else if call.GetFeedforwardCatalog?
    then Served(s, Response(true, Some(Done(Service.GetFeedforwardCatalog)), None, []))
    else
      var gate := Admission(s, call, env);
      if gate.Refused? then Served(s, Failure(Gate(gate.reason)))
      else if !Connected(s, env) then Served(s, Failure(Gate(Reason.LinkDown)))
      else
        var after := Effect(Issue(s, call, env), call, env);
        Served(after, AnswerAfter(after, call, env))
  }

  // Timer callbacks

  datatype Output =
    | Silent
    | Answer(response: Response)
    | Published(status: Option<Status>, joints: Option<JointStates>)
    | Reported(diagnostic: Option<DiagnosticReport>)

  datatype Ticked = Ticked(state: State, output: Output)

  function PublishingStatus(s: State, env: Env): Ticked {
    var read := CachedState(s, env);
    var frame := if read.memory.haveState then Some(read.memory.lastState) else None;
    Ticked(read, Published(
       if read.setup.statusPub.Live? then Some(BuildStatus(read, env, frame)) else None,
       if read.setup.jointPub.Live? && frame.Some?
       then Some(JointStatesOf(read.setup.jointNames, frame.value)) else None))
  }

  function PublishingDiagnostics(s: State, env: Env): Output {
    Reported(if s.setup.diagPub.Live?
             then Some(DiagnosticReport(TextsOf(s, env).firmware, DiagnosticOf(FactsOf(s, env)), DetailsOf(s, env)))
             else None)
  }
}
