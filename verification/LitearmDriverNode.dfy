// The maintenance driver node, field by field and callback by callback. Each callback is proved
// to do what DriverSpec says of it; the parameter `env` carries the SDK's replies.
module LitearmDriverNode {
  import opened Wrappers
  import opened Doubles
  import opened SafetyGates
  import opened Waypoints
  import opened JointNames
  import opened Sdk
  import opened Reports
  import opened DriverSpec

  class Node {
    const bus: SerialBus
    const sdkGroup: Group

    var params: Params
    var config: Params
    var jointNames: seq<string>
    var arm: Arm?
    var services: seq<Registration>
    var statusPub: Publisher
    var jointPub: Publisher
    var diagPub: Publisher
    var statusTimer: Option<Group>
    var diagTimer: Option<Group>
    var licenseValid: bool
    var license: License
    var speed: int
    var haveState: bool
    var lastState: Frame
    var stamp: real

    ghost predicate Valid()
      reads this
    {
      (arm != null ==> arm.bus == bus) && sdkGroup == SDK_GROUP
    }

    function View(): State
      reads this, bus
    {
      State(Setup(params, config, jointNames, if arm == null then None else Some(arm.id), services,
                  statusPub, jointPub, diagPub, statusTimer, diagTimer),
            Memory(licenseValid, license, speed, haveState, lastState, stamp),
            bus.wire)
    }

    constructor (bus: SerialBus)
      requires bus.wire == QUIET
      ensures Valid() && this.bus == bus && View() == INITIAL
    {
      this.bus := bus;
      sdkGroup := SDK_GROUP;
      params, config, jointNames := DEFAULTS, DEFAULTS, [];
      arm, services := null, [];
      statusPub, jointPub, diagPub := Absent, Absent, Absent;
      statusTimer, diagTimer := None, None;
      licenseValid, license := false, NO_LICENSE;
      speed, haveState, lastState, stamp := 100, false, NO_FRAME, 0.0;
    }

    method SetParameter(change: ParamChange)
      requires Valid()
      modifies this
      ensures Valid() && View() == ParameterSet(old(View()), change)
    {
      params := Changed(params, change);
    }

    // Lifecycle

    // The unique_ptr reset: the Arm destructor runs.
    method ResetArm()
      requires Valid()
      modifies this, bus
      ensures Valid() && View() == DropArm(old(View()))
    {
      if arm != null {
        arm.Destroy();
        arm := null;
      }
    }

    method ReadParameters()
      requires Valid()
      modifies this
      ensures Valid() && View() == DriverSpec.ReadParameters(old(View()))
    {
      config, jointNames := params, params.jointNames;
    }

    // arm_ = create_arm(options): the old session is destroyed only after the new one exists.
    method AdoptArm(env: Env)
      requires Valid()
      modifies this, bus
      ensures Valid() && View() == DriverSpec.AdoptArm(old(View()), env)
    {
      var created: Arm? := null;
      if env.factoryReturns {
        created := new Arm(bus);
      }
      ResetArm();
      arm := created;
    }

    // raised: an exception left the method, with the publishers before it created.
    method CreatePublishers(env: Env) returns (raised: bool)
      requires Valid()
      modifies this
      ensures Valid() && View() == DriverSpec.CreatePublishers(old(View()), env)
      ensures raised || env.escape.AtReport? <==> FinishRaises(config, env)
    {
      if env.escape.AtStatusPublisher? {
        return true;
      }
      statusPub := Idle;
      if config.publishJointStates {
        if env.escape.AtJointPublisher? {
          return true;
        }
        jointPub := Idle;
      }
      if config.publishDiagnostics {
        if env.escape.AtDiagPublisher? {
          return true;
        }
        diagPub := Idle;
      }
      return false;
    }

    method Forget()
      requires Valid()
      modifies this
      ensures Valid() && View() == DriverSpec.Forget(old(View()))
    {
      haveState, licenseValid, stamp := false, false, 0.0;
    }

    method Blank()
      requires Valid()
      modifies this
      ensures Valid() && View() == DriverSpec.Blank(old(View()))
    {
      haveState, licenseValid, speed, stamp := false, false, 100, 0.0;
    }

    method NameJoints(env: Env)
      requires Valid()
      modifies this
      ensures Valid() && View() == DriverSpec.NameJoints(old(View()), env)
    {
      if |jointNames| == 0 {
        jointNames := DeriveNames(env.axes);
      }
    }

    method ConnectArm(env: Env) returns (outcome: Outcome)
      requires Valid() && arm != null
      modifies this, bus
      ensures Valid() && View() == DriverSpec.ConnectArm(old(View()), env)
      ensures arm == old(arm) && outcome == env.connect
    {
      outcome := arm.Connect(env);
    }

    method OnConfigure(env: Env) returns (r: CallbackReturn)
      requires Valid()
      modifies this, bus
      ensures Valid() && Transition(View(), r) == DriverSpec.OnConfigure(old(View()), env)
    {
      ReadParameters();
      Blank();
      if env.escape.AtFactory? {
        return RAISED;
      }
      AdoptArm(env);
      if arm == null {
        return FATAL;
      }
      var outcome := ConnectArm(env);
      if outcome.Throws? {
        ResetArm();
        return FATAL;
      }
      r := FinishConfigure(env);
    }

    method FinishConfigure(env: Env) returns (r: CallbackReturn)
      requires Valid() && arm != null && env.connect.Returns?
      modifies this, bus
      ensures Valid() && Transition(View(), r) == Opening(old(View()), env)
    {
      if env.escape.AtAxes? {
        return RAISED;
      }
      if |jointNames| != 0 && |jointNames| != env.axes {
        ResetArm();
        return FATAL;
      }
      NameJoints(env);
      var _ := RefreshLicenseRecord(env);
      var raised := CreatePublishers(env);
      r := if raised || env.escape.AtReport? then RAISED else SUCCESS;
    }

    method RegisterServices()
      requires Valid()
      modifies this
      ensures Valid() && View() == Registering(old(View()), AllServices())
    {
      ghost var all := AllServices();
      for i := 0 to SERVICE_COUNT
        invariant Valid() && View() == Registering(old(View()), all[..i])
      {
        services := services + [Registration(ServiceAt(i), sdkGroup)];
        assert all[..i + 1] == all[..i] + [all[i]];
      }
      assert all[..SERVICE_COUNT] == all;
    }

    method ActivatePublishers()
      requires Valid()
      modifies this
      ensures Valid() && View() == DriverSpec.ActivatePublishers(old(View()))
    {
      statusPub := Activated(statusPub);
      jointPub := Activated(jointPub);
      diagPub := Activated(diagPub);
    }

    method DeactivatePublishers()
      requires Valid()
      modifies this
      ensures Valid() && View() == DriverSpec.DeactivatePublishers(old(View()))
    {
      statusPub := Deactivated(statusPub);
      jointPub := Deactivated(jointPub);
      diagPub := Deactivated(diagPub);
    }

    method StartTimers(env: Env) returns (r: CallbackReturn)
      requires Valid()
      modifies this
      ensures Valid() && Transition(View(), r) == DriverSpec.StartTimers(old(View()), env)
    {
      if Less(ZERO, config.statusRate) {
        if env.escape.AtStatusTimer? {
          return RAISED;
        }
        statusTimer := Some(sdkGroup);
      }
      if !diagPub.Absent? && Less(ZERO, config.diagnosticsRate) {
        if env.escape.AtDiagTimer? {
          return RAISED;
        }
        diagTimer := Some(sdkGroup);
      }
      return SUCCESS;
    }

    method SendEnable(env: Env) returns (outcome: Outcome)
      requires Valid() && arm != null
      modifies bus
      ensures Valid() && View() == DriverSpec.SendEnable(old(View())) && outcome == env.outcome
    {
      outcome := arm.Send(Command.Enable(config.enableAttempts), env);
    }

    method OnActivate(env: Env) returns (r: CallbackReturn)
      requires Valid()
      modifies this, bus
      ensures Valid() && Transition(View(), r) == DriverSpec.OnActivate(old(View()), env)
    {
      if arm == null {
        return FATAL;
      }
      if config.autoEnable {
        var outcome := SendEnable(env);
        if outcome.Throws? {
          return FATAL;
        }
      }
      RegisterServices();
      ActivatePublishers();
      r := StartTimers(env);
    }

    method LeaveZeroG(env: Env)
      requires Valid()
      modifies bus
      ensures Valid() && View() == DriverSpec.LeaveZeroG(old(View()))
    {
      if arm != null && bus.wire.keepAlive.Some? {
        var _ := arm.ZeroGStop(env);
      }
    }

    // stop_timers and destroy_service_servers
    method Withdraw()
      requires Valid()
      modifies this
      ensures Valid() && View() == DriverSpec.Withdraw(old(View()))
    {
      statusTimer, diagTimer := None, None;
      services := [];
    }

    method OnDeactivate(env: Env) returns (r: CallbackReturn)
      requires Valid()
      modifies this, bus
      ensures Valid() && Transition(View(), r) == DriverSpec.OnDeactivate(old(View()), env)
    {
      LeaveZeroG(env);
      Withdraw();
      DeactivatePublishers();
      return SUCCESS;
    }

    method DropPublishers()
      requires Valid()
      modifies this
      ensures Valid() && View() == DriverSpec.DropPublishers(old(View()))
    {
      statusPub, jointPub, diagPub := Absent, Absent, Absent;
    }

    // Whether close returned or raised, the session object goes.
    method CloseArm(env: Env)
      requires Valid()
      modifies this, bus
      ensures Valid() && View() == DriverSpec.CloseArm(old(View()), env)
    {
      if arm != null {
        var _ := arm.Close(env);
        ResetArm();
      }
    }

    method OnCleanup(env: Env) returns (r: CallbackReturn)
      requires Valid()
      modifies this, bus
      ensures Valid() && Transition(View(), r) == DriverSpec.OnCleanup(old(View()), env)
    {
      Withdraw();
      DropPublishers();
      CloseArm(env);
      Forget();
      return SUCCESS;
    }

    method OnShutdown(env: Env) returns (r: CallbackReturn)
      requires Valid()
      modifies this, bus
      ensures Valid() && Transition(View(), r) == DriverSpec.OnShutdown(old(View()), env)
    {
      r := OnCleanup(env);
    }

    method OnError(env: Env) returns (r: CallbackReturn)
      requires Valid()
      ensures Valid() && Transition(View(), r) == DriverSpec.OnError(old(View()), env)
    {
      return SUCCESS;
    }

    // The licence record is replaced only by a read that returned.
    method RefreshLicenseRecord(env: Env) returns (outcome: Outcome)
      requires Valid() && arm != null
      modifies this, bus
      ensures Valid() && View() == DriverSpec.RefreshLicense(old(View()), env)
      ensures outcome.Returns? <==> env.license.Some?
    {
      var _ := arm.Send(Command.ReadLicense, env);
      if env.license.None? {
        return Throws;
      }
      license, licenseValid := env.license.value, true;
      return Returns;
    }

    // Publishing

    method CacheFrame(env: Env)
      requires Valid()
      modifies this
      ensures Valid() && View() == DriverSpec.CachedState(old(View()), env)
    {
      if arm != null && env.sdk.Cached? {
        lastState, stamp, haveState := env.sdk.frame, env.sdk.stamp, true;
      }
    }

    method MakeStatus(env: Env, given: Option<Frame>) returns (status: Status)
      requires Valid()
      ensures status == DriverSpec.BuildStatus(View(), env, given)
    {
      var linked := IsConnected(env);
      var zeroG := arm != null && bus.wire.keepAlive.Some?;
      var frame := given;
      if frame.None? && haveState {
        frame := Some(lastState);
      }
      var axes := ProjectAxes(|jointNames|, frame);
      var flags := NO_FLAGS;
      if frame.Some? {
        flags := FlagsOf(frame.value);
      }
      var texts := Texts("", "", "");
      if arm != null {
        texts := Texts(env.firmware, env.resetReason, env.zeroGError);
      }
      status := Status(linked, arm != null && env.inDfu, texts, speed, zeroG, flags, jointNames, axes,
                       FrameAge(stamp, env.now), LicenseFields(false, 0, "", ""));
      if licenseValid {
        var fields := LicenseFields(true, license.state % 0x100, license.stateName, license.uid);
        status := status.(license := fields);
      }
    }

    method PublishStatus(env: Env) returns (output: Output)
      requires Valid()
      modifies this
      ensures Valid() && Ticked(View(), output) == DriverSpec.PublishingStatus(old(View()), env)
    {
      CacheFrame(env);
      var frame := if haveState then Some(lastState) else None;
      output := Published(None, None);
      if statusPub.Live? {
        var status := MakeStatus(env, frame);
        output := output.(status := Some(status));
      }
      if jointPub.Live? && frame.Some? {
        var joints := CollectJointStates(jointNames, frame.value);
        output := output.(joints := Some(joints));
      }
    }

    method GatherFacts(env: Env) returns (f: Facts)
      requires Valid()
      ensures f == FactsOf(View(), env)
    {
      var linked := IsConnected(env);
      f := Facts(!linked, arm != null && env.inDfu,
                 if haveState && lastState.faulted then Some(lastState.faultDetail) else None,
                 haveState && lastState.dropHoldInferred,
                 licenseValid && !license.activated,
                 arm != null && bus.wire.keepAlive.Some?);
    }

    method PublishDiagnostics(env: Env) returns (output: Output)
      requires Valid()
      ensures output == DriverSpec.PublishingDiagnostics(View(), env)
    {
      if !diagPub.Live? {
        return Reported(None);
      }
      var f := GatherFacts(env);
      var d := Aggregate(f);
      var firmware := if arm != null then env.firmware else "";
      var linked := IsConnected(env);
      var details := Details(linked, haveState && lastState.enabled,
                             if haveState then lastState.modeName else "unknown",
                             if haveState then lastState.jointFault else 0, speed,
                             arm != null && bus.wire.keepAlive.Some?, FrameAge(stamp, env.now),
                             if licenseValid then license.stateName else "unknown");
      return Reported(Some(DiagnosticReport(firmware, d, details)));
    }

    // Service handlers

    method IsConnected(env: Env) returns (linked: bool)
      requires Valid()
      ensures linked == DriverSpec.Connected(View(), env)
    {
      linked := arm != null && arm.id in bus.wire.open && env.alive;
    }

    // The lambda a handler passes to run_command: the SDK call and what it writes on return.
    method Invoke(call: Call, env: Env) returns (outcome: Outcome)
      requires Valid() && arm != null && !call.Reconnect?
      modifies this, bus
      ensures Valid() && View() == Effect(Issue(old(View()), call, env), call, env)
      ensures outcome.Returns? <==> Accepted(call, env)
    {
      if call.ZeroG? {
        outcome := InvokeZeroG(call, env);
      } else if call.GetStatus? {
        outcome := InvokeGetStatus(call, env);
      } else if call.SetSpeedScaling? {
        outcome := InvokeSetSpeed(call, env);
      } else if call.MovePath? {
        outcome := InvokeMovePath(call, env);
      } else {
        outcome := InvokeOther(call, env);
      }
    }

    method InvokeMovePath(call: Call, env: Env) returns (outcome: Outcome)
      requires Valid() && arm != null && call.MovePath?
      modifies bus
      ensures Valid() && View() == Effect(Issue(old(View()), call, env), call, env) && outcome == env.outcome
    {
      var poses, _ := ReadPoses(call.flat);
      outcome := arm.Send(Command.MovePath(poses, call.speed, call.wait), env);
    }

    // A negative axis asks for every axis; a deadline that is not positive for the default.
    method InvokeTuning(t: Tuning, env: Env) returns (outcome: Outcome)
      requires Valid() && arm != null
      modifies bus
      ensures Valid() && outcome == env.outcome
      ensures View() == old(View()).(wire := SentAll(old(View()).wire, [TuningCommand(t)]))
    {
      match t {
        case GetJointParams(joint) =>
          if joint < 0 {
            outcome := arm.Send(Command.ReadAllJointParams, env);
          } else {
            outcome := arm.Send(Command.Adjust(t), env);
          }
        case KinBench(deadline) =>
          if Less(ZERO, deadline) {
            outcome := arm.Send(Command.Adjust(t), env);
          } else {
            outcome := arm.Send(Command.KinBenchByDefault, env);
          }
        case InverseKinematics(pose, seed, deadline) =>
          var wait := if Less(ZERO, deadline) then deadline else Fin(3.0);
          outcome := arm.Send(Command.Adjust(Tuning.InverseKinematics(pose, seed, wait)), env);
        case _ => outcome := arm.Send(Command.Adjust(t), env);
      }
    }

    // The directory is made first; nothing is sent when that raises.
    method InvokeLogDump(call: Call, env: Env) returns (outcome: Outcome)
      requires Valid() && arm != null && call.LogDump?
      modifies bus
      ensures Valid() && View() == Effect(Issue(old(View()), call, env), call, env)
      ensures outcome.Returns? <==> Accepted(call, env)
    {
      if !env.diskReady {
        return Throws;
      }
      var timeout := if Less(ZERO, call.deadline) then call.deadline else ONE;
      var total := if Less(ZERO, call.deadline) then call.deadline else Fin(-1.0);
      outcome := arm.Send(Command.LogDump(call.filename, call.whole, timeout, total), env);
    }

    method InvokeOther(call: Call, env: Env) returns (outcome: Outcome)
      requires Valid() && arm != null
      requires !call.Reconnect? && !call.ZeroG? && !call.GetStatus? && !call.SetSpeedScaling? && !call.MovePath?
      modifies bus
      ensures Valid() && View() == Effect(Issue(old(View()), call, env), call, env)
      ensures outcome.Returns? <==> Accepted(call, env)
    {
      outcome := env.outcome;
      match call {
        case Plain(service, args) => outcome := arm.Send(Command.Plain(service, args), env);
        case Enable => outcome := arm.Send(Command.Enable(config.enableAttempts), env);
        case Move(m) => outcome := arm.Send(Command.Move(m), env);
        case SaveParams => outcome := arm.Send(Command.SaveParams, env);
        case ResetFactoryParams => outcome := arm.Send(Command.ResetFactoryParams, env);
        case CommitModel(mask) => outcome := arm.Send(Command.CommitModel(mask % 0x1_0000), env);
        case EnterDfu => outcome := arm.Send(Command.EnterDfu, env);
        case Tune(t) => outcome := InvokeTuning(t, env);
        case LogDump(_, _, _) => outcome := InvokeLogDump(call, env);
        case GetTcp => outcome := arm.Send(Command.GetTcp, env);
        case _ =>
      }
    }

    method InvokeZeroG(call: Call, env: Env) returns (outcome: Outcome)
      requires Valid() && arm != null && call.ZeroG?
      modifies bus
      ensures Valid() && View() == Effect(Issue(old(View()), call, env), call, env) && outcome == env.outcome
    {
      if call.data {
        outcome := arm.ZeroGStart(params.zeroGPeriod, env);
      } else {
        outcome := arm.ZeroGStop(env);
      }
    }

    method InvokeGetStatus(call: Call, env: Env) returns (outcome: Outcome)
      requires Valid() && arm != null && call.GetStatus?
      modifies this, bus
      ensures Valid() && View() == Effect(Issue(old(View()), call, env), call, env) && outcome == env.outcome
    {
      outcome := arm.Send(Command.GetStatus(call.timeout), env);
      if outcome.Returns? {
        lastState, stamp, haveState := env.reply, env.replyStamp, true;
      }
    }

    method InvokeSetSpeed(call: Call, env: Env) returns (outcome: Outcome)
      requires Valid() && arm != null && call.SetSpeedScaling?
      modifies this, bus
      ensures Valid() && View() == Effect(Issue(old(View()), call, env), call, env) && outcome == env.outcome
    {
      outcome := arm.Send(Command.SetSpeed(call.percent), env);
      if outcome.Returns? {
        speed := call.percent;
      }
    }

    method RunCommand(call: Call, env: Env) returns (response: Response)
      requires Valid() && !call.Reconnect? && !call.GetFeedforwardCatalog?
      modifies this, bus
      ensures Valid()
      ensures Served(View(), response)
           == if !DriverSpec.Connected(old(View()), env) then Served(old(View()), Failure(Gate(Reason.LinkDown)))
              else var after := Effect(Issue(old(View()), call, env), call, env);
                   Served(after, AnswerAfter(after, call, env))
    {
      var linked := IsConnected(env);
      if !linked {
        return Failure(Gate(Reason.LinkDown));
      }
      response := BLANK;
      var outcome := Invoke(call, env);
      if outcome.Throws? {
        response := response.(success := false, message := Some(SdkRefused(ServiceOf(call))));
        return;
      }
      if call.GetTcp? && !env.tcpSolved {
        response := response.(success := false, message := Some(NoToolPose));
        return;
      }
      if call.GetStatus? {
        var status := MakeStatus(env, Some(lastState));
        response := response.(status := Some(status));
      }
      if Replies(call) {
        response := response.(values := env.values);
      }
      response := response.(success := true);
      if response.message.None? {
        response := response.(message := Some(Done(ServiceOf(call))));
      }
    }

    method HandleReconnect(env: Env) returns (response: Response)
      requires Valid()
      modifies this, bus
      ensures Valid() && Served(View(), response) == DriverSpec.Reconnecting(old(View()), env)
    {
      if arm == null {
        return Failure(NotConfigured);
      }
      var reopened := arm.Reconnect(env);
      if reopened.Throws? {
        return Failure(SdkRefused(Service.Reconnect));
      }
      var read := RefreshLicenseRecord(env);
      if read.Throws? {
        return Failure(SdkRefused(Service.Reconnect));
      }
      return Response(true, Some(Done(Service.Reconnect)), None, []);
    }

    // require_motion_allowed: the switch is read at call time.
    method RequireMotionAllowed() returns (gate: GateResult)
      requires Valid()
      ensures gate == MotionAllowed(View())
    {
      gate := CheckParameterAllows(params.allowMotion, AllowMotionSwitch);
    }

    // Every array has to cover every axis; the first that does not ends the call.
    method GateSendMitAll(m: Motion) returns (gate: GateResult)
      requires m.SendMitAll?
      ensures gate == FirstRefusal(MotionGates(m, |jointNames|))
    {
      var arrays := [(Q, m.q), (Dq, m.dq), (Kp, m.kp), (Kd, m.kd), (Tau, m.tau)];
      ghost var gates := MotionGates(m, |jointNames|);
      var i := 0;
      while i < 5
        invariant 0 <= i <= 5
        invariant forall k :: 0 <= k < i ==> gates[k].Pass?
      {
        gate := ScanFiniteValues(arrays[i].1, |jointNames|, arrays[i].0);
        assert gate == gates[i];
        if gate.Refused? {
          RefusesAt(gates, i);
          return;
        }
        i := i + 1;
      }
      FirstRefusalIsTheFirst(gates);
      return Pass;
    }

    // The three poses in turn, each refusal naming its part, then the speed.
    method GateMoveC(m: Motion) returns (gate: GateResult)
      requires m.MoveC?
      ensures gate == FirstRefusal(MotionGates(m, |jointNames|))
    {
      var parts: seq<(Name, Pose)> := [(Start, m.start), (Via, m.via), (End, m.end)];
      ghost var gates := MotionGates(m, |jointNames|);
      var i := 0;
      while i < 3
        invariant 0 <= i <= 3
        invariant forall k :: 0 <= k < i ==> gates[k].Pass?
      {
        gate := ScanFiniteValues(parts[i].1, 6, Pose6);
        assert gates[i] == Inside(parts[i].0, gate);
        if gate.Refused? {
          gate := Refused(Within(parts[i].0, gate.reason));
          RefusesAt(gates, i);
          return;
        }
        i := i + 1;
      }
      gate := CheckSpeedFraction(m.speed);
      LastDecides(gates);
    }

    method GateMoveJs(m: Motion) returns (gate: GateResult)
      requires m.MoveJs?
      ensures gate == FirstRefusal(MotionGates(m, |jointNames|))
    {
      ghost var gates := MotionGates(m, |jointNames|);
      gate := ScanFiniteValues(m.q, |jointNames|, Q);
      if gate.Refused? {
        RefusesAt(gates, 0);
        return;
      }
      if |m.dq| != 0 {
        gate := ScanFiniteValues(m.dq, |jointNames|, Dq);
        if gate.Refused? {
          RefusesAt(gates, 1);
          return;
        }
      }
      if |m.tau| != 0 {
        gate := ScanFiniteValues(m.tau, |jointNames|, TauFf);
      }
      LastDecides(gates);
    }

    method GateJointMove(m: Motion) returns (gate: GateResult)
      requires m.MoveJ? || m.MoveJSync?
      ensures gate == FirstRefusal(MotionGates(m, |jointNames|))
    {
      ghost var gates := MotionGates(m, |jointNames|);
      gate := ScanFiniteValues(m.q, |jointNames|, Q);
      if gate.Refused? {
        RefusesAt(gates, 0);
        return;
      }
      gate := CheckSpeedFraction(m.speed);
      LastDecides(gates);
    }

    method GatePoseMove(m: Motion) returns (gate: GateResult)
      requires m.MoveP? || m.MoveL?
      ensures gate == FirstRefusal(MotionGates(m, |jointNames|))
    {
      ghost var gates := MotionGates(m, |jointNames|);
      gate := ScanFiniteValues(m.pose, 6, Pose6);
      if gate.Refused? {
        RefusesAt(gates, 0);
        return;
      }
      gate := CheckSpeedFraction(m.speed);
      LastDecides(gates);
    }

    method GateSendMit(m: Motion) returns (gate: GateResult)
      requires m.SendMit?
      ensures gate == FirstRefusal(MotionGates(m, |jointNames|))
    {
      ghost var gates := MotionGates(m, |jointNames|);
      gate := CheckJointIndex(m.joint, |jointNames|);
      if gate.Refused? {
        RefusesAt(gates, 0);
        return;
      }
      gate := ScanFinite([m.q1, m.dq1, m.kp1, m.kd1, m.tau1], MitGains);
      LastDecides(gates);
    }

    method GateMotion(m: Motion) returns (gate: GateResult)
      ensures gate == FirstRefusal(MotionGates(m, |jointNames|))
    {
      match m {
        case MoveJ(_, _) => gate := GateJointMove(m);
        case MoveJSync(_, _) => gate := GateJointMove(m);
        case MoveP(_, _, _) => gate := GatePoseMove(m);
        case MoveJs(_, _, _) => gate := GateMoveJs(m);
        case SendMit(_, _, _, _, _, _) => gate := GateSendMit(m);
        case SendMitAll(_, _, _, _, _) => gate := GateSendMitAll(m);
        case Home => gate := Pass;
        case MoveL(_, _, _) => gate := GatePoseMove(m);
        case MoveC(_, _, _, _, _) => gate := GateMoveC(m);
      }
    }

    method HandleMotion(call: Call, env: Env) returns (response: Response)
      requires Valid() && call.Move?
      modifies this, bus
      ensures Valid() && Served(View(), response) == DriverSpec.Serve(old(View()), call, env)
    {
      ghost var gates := Gates(View(), call, env);
      var gate := RequireMotionAllowed();
      if gate.Refused? {
        RefusesAt(gates, 0);
        return Failure(Gate(gate.reason));
      }
      gate := GateMotion(call.motion);
      assert gates[1..] == MotionGates(call.motion, |jointNames|);
      if gate.Refused? {
        return Failure(Gate(gate.reason));
      }
      response := RunCommand(call, env);
    }

    method HandleMovePath(call: Call, env: Env) returns (response: Response)
      requires Valid() && call.MovePath?
      modifies this, bus
      ensures Valid() && Served(View(), response) == DriverSpec.Serve(old(View()), call, env)
    {
      ghost var gates := Gates(View(), call, env);
      var gate := RequireMotionAllowed();
      if gate.Refused? {
        RefusesAt(gates, 0);
        return Failure(Gate(gate.reason));
      }
      var poses;
      poses, gate := ReadPoses(call.flat);
      if gate.Refused? {
        RefusesAt(gates, 1);
        return Failure(Gate(gate.reason));
      }
      gate := CheckSpeedFraction(call.speed);
      LastDecides(gates);
      if gate.Refused? {
        return Failure(Gate(gate.reason));
      }
      response := RunCommand(call, env);
    }

    // Not one of the reads the handlers make here sends anything.
    method ReadMotorsEnabled(env: Env) returns (enabled: bool)
      requires Valid()
      ensures enabled == DriverSpec.MotorsEnabled(View(), env)
    {
      if arm == null {
        return false;
      }
      match env.sdk {
        case ReadThrows => return false;
        case NoFrame => return false;
        case Cached(frame, _) => return frame.enabled;
      }
    }

    // The three joint parameter handlers check the link before they ask it for the axis count.
    method GateAxis(joint: int, env: Env) returns (gate: GateResult)
      requires Valid()
      ensures gate == FirstRefusal([CheckConnected(DriverSpec.Connected(View(), env)),
                                    CheckJointIndex(joint, env.axes)])
    {
      ghost var gates := [CheckConnected(DriverSpec.Connected(View(), env)), CheckJointIndex(joint, env.axes)];
      var linked := IsConnected(env);
      gate := CheckConnected(linked);
      if gate.Refused? {
        RefusesAt(gates, 0);
        return;
      }
      gate := CheckJointIndex(joint, env.axes);
      LastDecides(gates);
    }

    // One gate, or two in turn.
    method GateTuning(t: Tuning, env: Env) returns (gate: GateResult)
      requires Valid()
      ensures gate == FirstRefusal(TuningGates(t, DriverSpec.Connected(View(), env), env.axes))
    {
      ghost var gates := TuningGates(t, DriverSpec.Connected(View(), env), env.axes);
      match t {
        case SetPayload(mass, com) =>
          gate := CheckMass(mass);
          if gate.Refused? {
            RefusesAt(gates, 0);
            return;
          }
          gate := ScanCom(com);
          LastDecides(gates);
        case GetJointParams(joint) =>
          if joint >= 0 {
            gate := GateAxis(joint, env);
          } else {
            var linked := IsConnected(env);
            gate := CheckConnected(linked);
            LastDecides(gates);
          }
        case SetJointGains(joint, _, _, _) => gate := GateAxis(joint, env);
        case SetJointLimits(joint, _, _) => gate := GateAxis(joint, env);
        case InverseKinematics(_, _, _) => gate := GateInverseKinematics(t);
        case _ =>
          gate := GateValues(t);
          LastDecides(gates);
      }
    }

    // The handlers with a single gate on their argument.
    method GateValues(t: Tuning) returns (gate: GateResult)
      requires !t.SetPayload? && !t.GetJointParams? && !t.SetJointGains? && !t.SetJointLimits? && !t.InverseKinematics?
      ensures TuningGates(t, true, 0) == TuningGates(t, false, 1) == [gate]
    {
      match t {
        case SetFeedforwardPreset(preset) => gate := CheckFfPreset(preset);
        case SetFeedforwardVector(_, values) => gate := ScanFfValues(values);
        case SetGravityScale(values) => gate := ScanFiniteValues(values, 7, Values);
        case SetInertiaScale(values) => gate := ScanFiniteValues(values, 7, Values);
        case SetGravityVector(g) => gate := ScanFiniteValues(g, 3, Vector);
        case SetModelBody(_, values) => gate := ScanFinite(values, Values);
        case SetModelJm(values) => gate := ScanFinite(values, Values);
        case KinBench(deadline) => gate := CheckTimeout(deadline, Timeout);
        case LogStart(ticks) => gate := if ticks <= 0 then Refused(TicksNotPositive) else Pass;
      }
    }

    method GateInverseKinematics(t: Tuning) returns (gate: GateResult)
      requires t.InverseKinematics?
      ensures gate == FirstRefusal(TuningGates(t, true, 0))
    {
      ghost var gates := TuningGates(t, true, 0);
      gate := ScanFiniteValues(t.pose, 6, Pose6);
      if gate.Refused? {
        RefusesAt(gates, 0);
        return;
      }
      if |t.seed| != 0 {
        gate := ScanFiniteValues(t.seed, 7, Seed);
        if gate.Refused? {
          RefusesAt(gates, 1);
          return;
        }
      }
      gate := CheckTimeout(t.deadline, Timeout);
      LastDecides(gates);
    }

    // The gates of every handler that is not a motion handler.
    method GateOther(call: Call, env: Env) returns (gate: GateResult)
      requires Valid() && !call.Move? && !call.MovePath?
      ensures gate == Admission(View(), call, env)
    {
      ghost var gates := Gates(View(), call, env);
      match call {
        case Tune(t) => gate := GateTuning(t, env);
        case LogDump(filename, _, deadline) =>
          gate := CheckLogFilename(filename);
          if gate.Refused? {
            RefusesAt(gates, 0);
            return;
          }
          gate := CheckTimeout(deadline, Timeout);
          LastDecides(gates);
        case _ =>
          gate := GateSwitches(call, env);
          if gates == [gate] {
            LastDecides(gates);
          }
      }
    }

    // Switches, the zero-gravity period and the motor state, all read at call time.
    method GateSwitches(call: Call, env: Env) returns (gate: GateResult)
      requires Valid() && !call.Move? && !call.MovePath? && !call.Tune? && !call.LogDump?
      ensures Gates(View(), call, env) == [gate] || (Gates(View(), call, env) == [] && gate == Pass)
    {
      gate := Pass;
      match call {
        case ZeroG(data) =>
          if data {
            gate := CheckZeroGPeriod(params.zeroGPeriod);
          }
        case SaveParams =>
          var enabled := ReadMotorsEnabled(env);
          gate := CheckRequiresDisabled(enabled, SavingParams);
        case ResetFactoryParams =>
          var enabled := ReadMotorsEnabled(env);
          gate := CheckRequiresDisabled(enabled, ResettingParams);
        case CommitModel(_) =>
          var enabled := ReadMotorsEnabled(env);
          gate := CheckRequiresDisabled(!enabled, CommittingModel);
        case EnterDfu => gate := CheckParameterAllows(params.allowDfu, AllowDfuSwitch);
        case SetSpeedScaling(percent) => gate := CheckSpeedPercent(percent);
        case _ =>
      }
    }

    method HandleGated(call: Call, env: Env) returns (response: Response)
      requires Valid() && !call.Reconnect? && !call.GetFeedforwardCatalog? && !call.Move? && !call.MovePath?
      modifies this, bus
      ensures Valid() && Served(View(), response) == DriverSpec.Serve(old(View()), call, env)
    {
      var gate := GateOther(call, env);
      if gate.Refused? {
        return Failure(Gate(gate.reason));
      }
      response := RunCommand(call, env);
    }

    method Handle(call: Call, env: Env) returns (response: Response)
      requires Valid()
      modifies this, bus
      ensures Valid() && Served(View(), response) == DriverSpec.Serve(old(View()), call, env)
    {
      if call.Reconnect? {
        response := HandleReconnect(env);
      } else if call.GetFeedforwardCatalog? {
        response := Response(true, Some(Done(Service.GetFeedforwardCatalog)), None, []);
      } else if call.Move? {
        response := HandleMotion(call, env);
      } else if call.MovePath? {
        response := HandleMovePath(call, env);
      } else {
        response := HandleGated(call, env);
      }
    }
  }
}
