// The litearm SDK as the driver sees it: values it returns, calls made on it, and the serial
// ports its sessions hold. Everything the SDK decides is an input (Env), never computed here.
module Sdk {
  import opened Wrappers
  import opened Doubles

  datatype Joint = Joint(q: Double, dq: Double, tau: Double, tMos: Double, tCoil: Double, err: int)

  datatype Frame = Frame(joints: seq<Joint>, enabled: bool, faulted: bool, faultDetail: string,
                         cartBusy: bool, jointFault: nat, dropHoldInferred: bool,
                         mode: int, modeName: string, flags: nat)

  datatype License = License(activated: bool, state: int, stateName: string, uid: string)

  // What get_state(false) does: it sends nothing, it only reads what the reader thread stored.
  datatype SdkRead = ReadThrows | NoFrame | Cached(frame: Frame, stamp: real)

  datatype Outcome = Returns | Throws

  // Where an exception leaves a lifecycle callback: a call outside the callback's try blocks raises.
  datatype Escape =
    | NoEscape
    | AtFactory                                          // create_arm, before arm_ is assigned
    | AtAxes                                             // Arm::n, right after connect
    | AtStatusPublisher | AtJointPublisher | AtDiagPublisher   // create_publisher
    | AtReport                                           // Arm::firmware, in the closing log line
    | AtStatusTimer | AtDiagTimer                        // create_wall_timer

  // The environment's part of one callback.
  datatype Env = Env(
    factoryReturns: bool,       // create_arm returned an object
    connect: Outcome,           // Arm::connect
    axes: nat,                  // Arm::n
    license: Option<License>,   // Arm::license; None when it throws
    alive: bool,                // reader thread alive and last frame fresh, given an open port
    inDfu: bool,                // Arm::is_in_dfu
    sdk: SdkRead,               // Arm::get_state(false)
    outcome: Outcome,           // the one SDK call a handler or transition makes
    reply: Frame,               // what get_status_now returned, fetched or, without a wait, cached
    replyStamp: real,           // and when that frame arrived
    portLeftOpen: bool,         // a failed open or close left the port open
    tcpSolved: bool,            // the firmware answered a tool pose
    values: seq<Double>,        // what the call returned beside that, as a list of numbers
    diskReady: bool,            // the log directory exists or was created
    escape: Escape,             // what raises outside every try block
    firmware: string,           // Arm::firmware
    resetReason: string,        // Arm::last_reset_reason
    zeroGError: string,         // Arm::zero_g_error_text
    now: real)                  // the SDK's steady clock

  // One motion request, with its arguments in the order of the SDK call.
  datatype Motion =
    | MoveJ(q: seq<Double>, speed: Double)
    | MoveJSync(q: seq<Double>, speed: Double)
    | MoveP(pose: Pose, speed: Double, wait: bool)
    | MoveJs(q: seq<Double>, dq: seq<Double>, tau: seq<Double>)
    | SendMit(joint: int, q1: Double, dq1: Double, kp1: Double, kd1: Double, tau1: Double)
    | SendMitAll(q: seq<Double>, dq: seq<Double>, kp: seq<Double>, kd: seq<Double>, tau: seq<Double>)
    | Home
    | MoveL(pose: Pose, speed: Double, wait: bool)
    | MoveC(start: Pose, via: Pose, end: Pose, speed: Double, wait: bool)

  // The names the node advertises.
  datatype Service =
    | Reconnect | Home | RevertModel | LogStop | Enable | Disable | Reset | ClearFaults
    | EmergencyStop | Park | SaveParams | ResetFactoryParams | EnterDfu | ZeroG
    | GetTcp | GetDiagnostics | KinBench
    | MoveJ | MoveJSync | MoveP | MoveJs | SendMit | SendMitAll | MoveL | MoveC | MovePath
    | PollCart | InverseKinematics | GetFeedforwardVector | GetFeedforwardMask
    | GetFeedforwardCatalog | SetGravityScale | SetInertiaScale | SetGravityVector
    | ProbeModel | GetModelBody | SetModelBody | GetModelJm | SetModelJm | CommitModel
    | GetModelStatus | LogStart | LogDump
    | GetStatus | SetSpeedScaling | SetMotionMode | SetPayload
    | SetFeedforwardMask | SetFeedforwardPreset | SetFeedforwardScalar | SetFeedforwardVector
    | GetFeedforwardScalar | GetJointParams | SetJointGains | SetJointLimits

  // Services whose handler is one run_command with no gate before it and no effect on the node.
  predicate IsUngated(s: Service) {
    s.RevertModel? || s.LogStop? || s.Disable? || s.Reset? || s.ClearFaults? || s.EmergencyStop? || s.Park?
    || s.PollCart? || s.GetFeedforwardVector? || s.GetFeedforwardMask? || s.ProbeModel? || s.GetModelBody?
    || s.GetModelJm? || s.GetModelStatus? || s.SetMotionMode? || s.SetFeedforwardMask?
    || s.SetFeedforwardScalar? || s.GetFeedforwardScalar?
  }

  type Ungated = s: Service | IsUngated(s) witness Service.Disable

  // Reads and writes of the firmware's parameter space, its model store and its solver, with their
  // arguments; a request carries one, and so does the SDK call made for it.
  datatype Tuning =
    | SetPayload(mass: Double, com: Vector3)
    | SetFeedforwardPreset(preset: int)
    | SetFeedforwardVector(item: int, values: seq<Double>)
    | GetJointParams(joint: int)
    | SetJointGains(joint: int, kp: Double, kd: Double, tauMax: Double)
    | SetJointLimits(joint: int, qMin: Double, qMax: Double)
    | SetGravityScale(values: seq<Double>)
    | SetInertiaScale(values: seq<Double>)
    | SetGravityVector(g: Vector3)
    | SetModelBody(body: int, values: seq<Double>)
    | SetModelJm(values: seq<Double>)
    | KinBench(deadline: Double)
    | LogStart(ticks: int)
    | InverseKinematics(pose: Pose, seed: seq<Double>, deadline: Double)

  // SDK calls that may use the link, as they are made. (A get_status without a positive timeout is
  // answered by the SDK from its cache; it is logged like the others.)
  datatype Command =
    | Connect
    | ReadLicense
    | Close
    | Reopen
    | Enable(attempts: int)
    | EnterZeroG(period: Double)
    | LeaveZeroG
    | Move(motion: Motion)
    | MovePath(poses: seq<Pose>, speed: Double, wait: bool)
    | SaveParams
    | ResetFactoryParams
    | CommitModel(mask: nat)
    | EnterDfu
    | SetSpeed(percent: int)
    | GetStatus(timeout: Double)
    | GetTcp
    | LogDump(filename: string, whole: bool, timeout: Double, total: Double)
    | Adjust(tuning: Tuning)
    | ReadAllJointParams
    | KinBenchByDefault
    | Plain(service: Ungated, args: seq<Double>)

  datatype KeepAlive = KeepAlive(owner: nat, period: Double)

  // The host's serial side. `open` holds the sessions whose port is open, `peak` the most that
  // were ever open together, `keepAlive` the zero-gravity thread, `log` every call in order.
  datatype Wire = Wire(open: set<nat>, nextArm: nat, peak: nat, keepAlive: Option<KeepAlive>, log: seq<Command>)

  const QUIET := Wire({}, 0, 0, None, [])

  function Sent(w: Wire, c: Command): Wire {
    w.(log := w.log + [c])
  }

  function SentAll(w: Wire, cs: seq<Command>): Wire {
    w.(log := w.log + cs)
  }

  function Opened(w: Wire, id: nat): Wire {
    var open := w.open + {id};
    w.(open := open, peak := if |open| > w.peak then |open| else w.peak)
  }

  // Opening is the one step that can raise the number of open ports, and it keeps the count.
  lemma OpenedIsCounted(w: Wire, id: nat)
    requires |w.open| <= w.peak
    ensures var t := Opened(w, id);
            id in t.open && w.open <= t.open && |t.open| <= t.peak && w.peak <= t.peak
  {
  }

  function Released(w: Wire, id: nat): Wire {
    w.(open := w.open - {id})
  }

  // The Arm destructor: it closes the link and takes the keep-alive thread with it.
  function Destroyed(w: Wire, id: nat): Wire {
    var dead := w.keepAlive.Some? && w.keepAlive.value.owner == id;
    Released(w, id).(keepAlive := if dead then None else w.keepAlive)
  }

  function Connecting(w: Wire, id: nat, env: Env): Wire {
    var sent := Sent(w, Command.Connect);
    if env.connect.Returns? || env.portLeftOpen then Opened(sent, id) else sent
  }

  function Reopening(w: Wire, id: nat, env: Env): Wire {
    var closed := Released(Sent(w, Command.Reopen), id);
    if env.outcome.Returns? || env.portLeftOpen then Opened(closed, id) else closed
  }

  function Closing(w: Wire, id: nat, env: Env): Wire {
    var sent := Sent(w, Command.Close);
    if env.outcome.Throws? && env.portLeftOpen then sent else Released(sent, id)
  }

  // What the three calls that open or close a port do to it and to the others; each is logged.
  lemma PortsFollowTheCalls(w: Wire, id: nat, env: Env)
    ensures var t := Connecting(w, id, env);
            && t.log == w.log + [Command.Connect] && t.open - {id} == w.open - {id}
            && (id in t.open <==> id in w.open || env.connect.Returns? || env.portLeftOpen)
    ensures var t := Reopening(w, id, env);
            && t.log == w.log + [Command.Reopen] && t.open - {id} == w.open - {id}
            && (id in t.open <==> env.outcome.Returns? || env.portLeftOpen)
    ensures var t := Closing(w, id, env);
            && t.log == w.log + [Command.Close] && t.open - {id} == w.open - {id}
            && (id in t.open <==> id in w.open && env.outcome.Throws? && env.portLeftOpen)
  {
  }

  class SerialBus {
    var wire: Wire

    constructor ()
      ensures wire == QUIET
    {
      wire := QUIET;
    }
  }

  // One SDK session. Its mutable state lives on the bus, so that two sessions can be compared.
  class Arm {
    const id: nat
    const bus: SerialBus

    constructor (bus: SerialBus)
      modifies bus
      ensures this.bus == bus && id == old(bus.wire.nextArm)
      ensures bus.wire == old(bus.wire).(nextArm := old(bus.wire.nextArm) + 1)
    {
      this.bus := bus;
      this.id := bus.wire.nextArm;
      new;
      bus.wire := bus.wire.(nextArm := bus.wire.nextArm + 1);
    }

    method Connect(env: Env) returns (outcome: Outcome)
      modifies bus
      ensures bus.wire == Connecting(old(bus.wire), id, env) && outcome == env.connect
    {
      bus.wire := Connecting(bus.wire, id, env);
      outcome := env.connect;
    }

    method Reconnect(env: Env) returns (outcome: Outcome)
      modifies bus
      ensures bus.wire == Reopening(old(bus.wire), id, env) && outcome == env.outcome
    {
      bus.wire := Reopening(bus.wire, id, env);
      outcome := env.outcome;
    }

    method Close(env: Env) returns (outcome: Outcome)
      modifies bus
      ensures bus.wire == Closing(old(bus.wire), id, env) && outcome == env.outcome
    {
      bus.wire := Closing(bus.wire, id, env);
      outcome := env.outcome;
    }

    method Destroy()
      modifies bus
      ensures bus.wire == Destroyed(old(bus.wire), id)
    {
      bus.wire := Destroyed(bus.wire, id);
    }

    method Send(command: Command, env: Env) returns (outcome: Outcome)
      modifies bus
      ensures bus.wire == Sent(old(bus.wire), command) && outcome == env.outcome
    {
      bus.wire := Sent(bus.wire, command);
      outcome := env.outcome;
    }

    method ZeroGStart(period: Double, env: Env) returns (outcome: Outcome)
      modifies bus
      ensures outcome == env.outcome
      ensures bus.wire == Sent(old(bus.wire), Command.EnterZeroG(period)).(
                keepAlive := if outcome.Returns? then Some(KeepAlive(id, period)) else old(bus.wire).keepAlive)
    {
      bus.wire := Sent(bus.wire, Command.EnterZeroG(period));
      outcome := env.outcome;
      if outcome.Returns? {
        bus.wire := bus.wire.(keepAlive := Some(KeepAlive(id, period)));
      }
    }

    // Whatever it reports, the thread is gone afterwards.
    method ZeroGStop(env: Env) returns (outcome: Outcome)
      modifies bus
      ensures bus.wire == Sent(old(bus.wire), Command.LeaveZeroG).(keepAlive := None) && outcome == env.outcome
    {
      bus.wire := Sent(bus.wire, Command.LeaveZeroG).(keepAlive := None);
      outcome := env.outcome;
    }
  }
}
