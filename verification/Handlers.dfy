// Every service handler is "gates in order, then one SDK call". What that shape guarantees is
// proved once, for any gate list; what each handler's own list accepts is stated without gates.
module Handlers {
  import opened Wrappers
  import opened Doubles
  import opened SafetyGates
  import opened Waypoints
  import opened Sdk
  import opened DriverSpec
  import opened Sends

  // The gates and, last, the link check run_command makes.
  function AllGates(s: State, call: Call, env: Env): seq<GateResult> {
    Gates(s, call, env) + [CheckConnected(Connected(s, env))]
  }

  // A refused request leaves the node and the link untouched and is answered with the first gate
  // that failed; a request no gate refuses makes its one SDK call, and is reported a success exactly
  // when that call returned (for log_dump: and the directory could be made; for get_tcp: and it
  // returned a pose).
  lemma GatedHandlers(s: State, call: Call, env: Env)
    requires !call.Reconnect? && !call.GetFeedforwardCatalog?
    ensures var gates, served := AllGates(s, call, env), Serve(s, call, env);
            && (forall i :: 0 <= i < |gates| && gates[i].Refused? && (forall j :: 0 <= j < i ==> gates[j].Pass?)
                  ==> served == Served(s, Failure(Gate(gates[i].reason))))
            && (AllPass(gates) ==>
                  && served.state.wire.log == s.wire.log + CommandOf(s, call, env)
                  && (served.response.success <==> Returned(call, env)))
  {
    var gates, all := Gates(s, call, env), AllGates(s, call, env);
    FirstRefusalIsTheFirst(gates);
    ServeFrame(s, call, env);
    assert forall i :: 0 <= i < |gates| ==> all[i] == gates[i];
    assert all[|gates|] == CheckConnected(Connected(s, env));
    forall i | 0 <= i < |all| && all[i].Refused? && (forall j :: 0 <= j < i ==> all[j].Pass?)
      ensures Serve(s, call, env) == Served(s, Failure(Gate(all[i].reason)))
    {
      if i < |gates| {
        RefusesAt(gates, i);
      }
    }
  }

  // What it takes, past the gates, for the caller to be told of a success.
  predicate Returned(call: Call, env: Env) {
    && env.outcome.Returns?
    && (call.LogDump? ==> env.diskReady)
    && (call.GetTcp? ==> env.tcpSolved)
  }

  // Every handler, without its gates: it reports a success exactly for an admissible request with
  // the link up whose SDK call returned, and otherwise says which of these was missing.
  lemma SucceedsIff(s: State, call: Call, env: Env)
    requires !call.Reconnect? && !call.GetFeedforwardCatalog?
    ensures var r := Serve(s, call, env).response;
            && (r.success <==> Admissible(s, call, env) && Connected(s, env) && Returned(call, env))
            && (!Admissible(s, call, env) || !Connected(s, env) <==> r.message.Some? && r.message.value.Gate?)
            && (Admissible(s, call, env) && !Connected(s, env) ==> r.message == Some(Gate(Reason.LinkDown)))
            && (Admissible(s, call, env) && Connected(s, env) ==>
                  r.message == Some(if env.outcome.Throws? || (call.LogDump? && !env.diskReady)
                                    then SdkRefused(ServiceOf(call))
                                    else if call.GetTcp? && !env.tcpSolved then NoToolPose
                                    else Done(ServiceOf(call))))
  {
    AdmissionAcceptsExactly(s, call, env);
  }

  // The catalog is a table of the SDK: it is answered without a session.
  lemma CatalogAlwaysSucceeds(s: State, env: Env)
    ensures Serve(s, Call.GetFeedforwardCatalog, env)
         == Served(s, Response(true, Some(Done(Service.GetFeedforwardCatalog)), None, []))
  {
  }

  // reconnect checks neither gates nor the link: it needs a session only, keeps it, and succeeds
  // exactly when the session was rebuilt and the licence read again; the licence it then holds is
  // the one just read, and a failure leaves the old one.
  lemma ReconnectAnswers(s: State, env: Env)
    ensures var served := Serve(s, Call.Reconnect, env);
            && (served.response.success <==> s.setup.arm.Some? && env.outcome.Returns? && env.license.Some?)
            && served.response.message == Some(if s.setup.arm.None? then NotConfigured
                                               else if served.response.success then Done(Service.Reconnect)
                                               else SdkRefused(Service.Reconnect))
            && (if served.response.success
                then served.state.memory == s.memory.(license := env.license.value, licenseValid := true)
                     && s.setup.arm.value in served.state.wire.open
                else served.state.memory == s.memory)
            && served.state.wire.log == s.wire.log + ReconnectSends(s, env)
  {
    ReconnectFrame(s, env);
  }

  // A handler always writes its message, and the success message exactly on success; values of the
  // SDK reach the caller only in a success, unaltered, and a status only from get_status.
  // The requests whose answer carries something read from the SDK, by service.
  predicate ReadsBack(call: Call) {
    ServiceOf(call) in {
      Service.PollCart, Service.MoveL, Service.MoveC, Service.MovePath, Service.InverseKinematics, Service.GetTcp,
      Service.GetDiagnostics, Service.KinBench, Service.GetFeedforwardVector, Service.GetFeedforwardMask,
      Service.GetFeedforwardScalar, Service.ProbeModel, Service.GetModelBody, Service.GetModelJm,
      Service.GetModelStatus, Service.GetJointParams, Service.LogDump}
  }

  predicate Honest(r: Response, call: Call, env: Env) {
    && r.message.Some? && (r.success <==> r.message.value.Done?)
    && r.values == (if r.success && ReadsBack(call) then env.values else [])
    && (r.status.Some? <==> r.success && call.GetStatus?)
  }

  lemma RunCommandIsHonest(s: State, call: Call, env: Env)
    ensures Honest(AnswerAfter(s, call, env), call, env)
  {
  }

  lemma EveryAnswerIsHonest(s: State, call: Call, env: Env)
    ensures Honest(Serve(s, call, env).response, call, env)
  {
    if !call.Reconnect? && !call.GetFeedforwardCatalog? {
      RunCommandIsHonest(Effect(Issue(s, call, env), call, env), call, env);
    }
  }

  // What the gate lists accept

  // A joint array as the documentation wants it. Its length is the axis count exactly when there
  // are axes: with none the length is not checked.
  predicate GoodArray(q: seq<Double>, axes: nat) {
    q != [] && AllFinite(q) && (|q| == axes <==> axes > 0)
  }

  predicate GoodSpeed(x: Double) {
    x.Fin? && 0.0 < x.value <= 1.0
  }

  predicate GoodPeriod(x: Double) {
    x.Fin? && 0.005 <= x.value < 0.10
  }

  predicate GoodDeadline(x: Double) {
    x.Fin? && 0.0 <= x.value
  }

  predicate WellFormedMotion(m: Motion, axes: nat) {
    match m
    case MoveJ(q, speed) => GoodArray(q, axes) && GoodSpeed(speed)
    case MoveJSync(q, speed) => GoodArray(q, axes) && GoodSpeed(speed)
    case MoveP(pose, speed, _) => AllFinite(pose) && GoodSpeed(speed)
    case MoveJs(q, dq, tau) =>
      GoodArray(q, axes) && (dq != [] ==> GoodArray(dq, axes)) && (tau != [] ==> GoodArray(tau, axes))
    case SendMit(joint, q1, dq1, kp1, kd1, tau1) => 0 <= joint < axes && AllFinite([q1, dq1, kp1, kd1, tau1])
    case SendMitAll(q, dq, kp, kd, tau) =>
      GoodArray(q, axes) && GoodArray(dq, axes) && GoodArray(kp, axes) && GoodArray(kd, axes) && GoodArray(tau, axes)
    case Home => true
    case MoveL(pose, speed, _) => AllFinite(pose) && GoodSpeed(speed)
    case MoveC(start, via, end, speed, _) => AllFinite(start) && AllFinite(via) && AllFinite(end) && GoodSpeed(speed)
  }

  predicate WellFormedPath(flat: seq<Double>, speed: Double) {
    flat != [] && AllFinite(flat) && |flat| % 6 == 0 && GoodSpeed(speed)
  }

  predicate WellFormedTuning(t: Tuning, axes: nat) {
    match t
    case SetPayload(mass, com) => mass.Fin? && 0.0 <= mass.value <= 20.0 && AllFinite(com)
    case SetFeedforwardPreset(preset) => 0 <= preset <= 2
    case SetFeedforwardVector(_, values) => values != [] && AllFinite(values)
    case GetJointParams(joint) => joint < axes
    case SetJointGains(joint, _, _, _) => 0 <= joint < axes
    case SetJointLimits(joint, _, _) => 0 <= joint < axes
    case SetGravityScale(values) => |values| == 7 && AllFinite(values)
    case SetInertiaScale(values) => |values| == 7 && AllFinite(values)
    case SetGravityVector(g) => AllFinite(g)
    case SetModelBody(_, values) => values != [] && AllFinite(values)
    case SetModelJm(values) => values != [] && AllFinite(values)
    case KinBench(deadline) => GoodDeadline(deadline)
    case LogStart(ticks) => 0 < ticks
    case InverseKinematics(pose, seed, deadline) =>
      AllFinite(pose) && (seed != [] ==> |seed| == 7 && AllFinite(seed)) && GoodDeadline(deadline)
  }

  predicate ChecksLinkFirst(t: Tuning) {
    t.GetJointParams? || t.SetJointGains? || t.SetJointLimits?
  }

  predicate PlainFilename(name: string) {
    name != "" && '/' !in name && '\\' !in name && name != "." && name != ".."
  }

  // What the documentation asks of each request, given the parameters in force, the number of joint
  // names, whether a frame showed the motors enabled, and whether the link is up.
  predicate Admits(p: Params, names: nat, seenEnabled: bool, linked: bool, call: Call, axes: nat) {
    match call
    case Move(m) => p.allowMotion && WellFormedMotion(m, names)
    case MovePath(flat, speed, _) => p.allowMotion && WellFormedPath(flat, speed)
    case ZeroG(data) => data ==> GoodPeriod(p.zeroGPeriod)
    case SaveParams => !seenEnabled
    case ResetFactoryParams => !seenEnabled
    case CommitModel(_) => seenEnabled   // the documentation says the opposite
    case EnterDfu => p.allowDfu
    case SetSpeedScaling(percent) => percent <= 100
    case Tune(t) => WellFormedTuning(t, axes) && (ChecksLinkFirst(t) ==> linked)
    case LogDump(filename, _, deadline) => PlainFilename(filename) && GoodDeadline(deadline)
    case _ => true
  }

  // The SDK's cached frame at that call is readable and says the motors are on.
  predicate SeenEnabled(env: Env) {
    env.sdk.Cached? && env.sdk.frame.enabled
  }

  predicate Admissible(s: State, call: Call, env: Env) {
    Admits(s.setup.params, |s.setup.jointNames|, s.setup.arm.Some? && SeenEnabled(env), Connected(s, env),
           call, env.axes)
  }

  lemma ArrayGateMeans(q: seq<Double>, axes: nat, what: Name)
    ensures CheckFiniteValues(q, axes, what).Pass? <==> GoodArray(q, axes)
  {
    FiniteGateAcceptsExactly(q, axes, what);
  }

  lemma FiniteGateMeans(values: seq<Double>, what: Name)
    ensures CheckFinite(values, what).Pass? <==> values != [] && AllFinite(values)
  {
    FirstNonFiniteFinds(values);
  }

  lemma PoseGateMeans(pose: Pose)
    ensures CheckFinitePose(pose).Pass? <==> AllFinite(pose)
  {
    FiniteGateAcceptsExactly(pose, 6, Pose6);
  }

  // The gates of the nine motion handlers accept exactly the well-formed motions.
  lemma MotionGateMeans(m: Motion, axes: nat)
    ensures AllPass(MotionGates(m, axes)) <==> WellFormedMotion(m, axes)
  {
    var g := MotionGates(m, axes);
    match m
    case MoveJ(q, speed) =>
      ArrayGateMeans(q, axes, Q);
      assert g[0].Pass? && g[1].Pass? <==> WellFormedMotion(m, axes);
    case MoveJSync(q, speed) =>
      ArrayGateMeans(q, axes, Q);
      assert g[0].Pass? && g[1].Pass? <==> WellFormedMotion(m, axes);
    case MoveP(pose, speed, _) =>
      PoseGateMeans(pose);
      assert g[0].Pass? && g[1].Pass? <==> WellFormedMotion(m, axes);
    case MoveJs(q, dq, tau) =>
      ArrayGateMeans(q, axes, Q);
      ArrayGateMeans(dq, axes, Dq);
      ArrayGateMeans(tau, axes, TauFf);
      assert g[0].Pass? && g[1].Pass? && g[2].Pass? <==> WellFormedMotion(m, axes);
    case SendMit(joint, q1, dq1, kp1, kd1, tau1) =>
      FiniteGateMeans([q1, dq1, kp1, kd1, tau1], MitGains);
      assert g[0].Pass? && g[1].Pass? <==> WellFormedMotion(m, axes);
    case SendMitAll(q, dq, kp, kd, tau) =>
      ArrayGateMeans(q, axes, Q);
      ArrayGateMeans(dq, axes, Dq);
      ArrayGateMeans(kp, axes, Kp);
      ArrayGateMeans(kd, axes, Kd);
      ArrayGateMeans(tau, axes, Tau);
      assert g[0].Pass? && g[1].Pass? && g[2].Pass? && g[3].Pass? && g[4].Pass? <==> WellFormedMotion(m, axes);
    case Home =>
    case MoveL(pose, speed, _) =>
      PoseGateMeans(pose);
      assert g[0].Pass? && g[1].Pass? <==> WellFormedMotion(m, axes);
    case MoveC(start, via, end, speed, _) =>
      PoseGateMeans(start);
      PoseGateMeans(via);
      PoseGateMeans(end);
      assert g[0].Pass? && g[1].Pass? && g[2].Pass? && g[3].Pass? <==> WellFormedMotion(m, axes);
  }

  // Those of the parameter, model, solver, bench and log handlers accept exactly the well-formed ones.
  lemma TuningGateMeans(t: Tuning, linked: bool, axes: nat)
    ensures AllPass(TuningGates(t, linked, axes)) <==> WellFormedTuning(t, axes) && (ChecksLinkFirst(t) ==> linked)
  {
    var g := TuningGates(t, linked, axes);
    match t
    case SetPayload(mass, com) => assert g[0] == CheckMass(mass) && g[1] == CheckCom(com);
    case SetFeedforwardPreset(preset) => assert g[0] == CheckFfPreset(preset);
    case SetFeedforwardVector(_, values) => assert g[0] == CheckFfValues(values);
    case GetJointParams(joint) =>
      assert g[0] == CheckConnected(linked);
      assert joint >= 0 ==> g[1] == CheckJointIndex(joint, axes);
    case SetJointGains(joint, _, _, _) => assert g[0] == CheckConnected(linked) && g[1] == CheckJointIndex(joint, axes);
    case SetJointLimits(joint, _, _) => assert g[0] == CheckConnected(linked) && g[1] == CheckJointIndex(joint, axes);
    case KinBench(deadline) => assert g[0] == CheckTimeout(deadline, Timeout);
    case LogStart(ticks) => assert g[0].Pass? <==> ticks > 0;
    case InverseKinematics(pose, seed, deadline) =>
      PoseGateMeans(pose);
      FiniteGateAcceptsExactly(seed, 7, Seed);
      assert g[0] == CheckFinitePose(pose) && g[1] == Optional(seed, 7, Seed);
      assert g[2] == CheckTimeout(deadline, Timeout);
    case _ => ValuesGateMeans(t, linked, axes);
  }

  lemma ValuesGateMeans(t: Tuning, linked: bool, axes: nat)
    requires t.SetGravityScale? || t.SetInertiaScale? || t.SetGravityVector? || t.SetModelBody? || t.SetModelJm?
    ensures AllPass(TuningGates(t, linked, axes)) <==> WellFormedTuning(t, axes)
  {
    var g := TuningGates(t, linked, axes);
    match t
    case SetGravityScale(values) =>
      FiniteGateAcceptsExactly(values, 7, Values);
      assert g[0] == CheckFiniteValues(values, 7, Values);
    case SetInertiaScale(values) =>
      FiniteGateAcceptsExactly(values, 7, Values);
      assert g[0] == CheckFiniteValues(values, 7, Values);
    case SetGravityVector(gravity) =>
      FiniteGateAcceptsExactly(gravity, 3, Vector);
      assert g[0] == CheckFiniteVector3(gravity);
    case SetModelBody(_, values) =>
      FiniteGateMeans(values, Values);
      assert g[0] == CheckFinite(values, Values);
    case SetModelJm(values) =>
      FiniteGateMeans(values, Values);
      assert g[0] == CheckFinite(values, Values);
  }

  // Every handler, every argument, every state: the gates let a request through exactly when it
  // is admissible.
  lemma AdmissionAcceptsExactly(s: State, call: Call, env: Env)
    ensures Admission(s, call, env).Pass? <==> Admissible(s, call, env)
  {
    var g := Gates(s, call, env);
    FirstRefusalIsTheFirst(g);
    match call
    case Move(m) =>
      var rest := MotionGates(m, |s.setup.jointNames|);
      MotionGateMeans(m, |s.setup.jointNames|);
      assert g[0] == MotionAllowed(s);
      assert forall i :: 0 <= i < |rest| ==> g[i + 1] == rest[i];
      assert forall i :: 1 <= i < |g| ==> g[i] == rest[i - 1];
    case MovePath(flat, speed, _) =>
      ReadingIsExact(flat);
      assert g[0] == MotionAllowed(s) && g[1] == CheckPoses(flat) && g[2] == CheckSpeedFraction(speed);
    case Tune(t) => TuningGateMeans(t, Connected(s, env), env.axes);
    case LogDump(filename, _, deadline) =>
      assert g[0] == CheckLogFilename(filename) && g[1] == CheckTimeout(deadline, Timeout);
    case _ => SwitchesAcceptExactly(s, call, env);
  }

  lemma SwitchesAcceptExactly(s: State, call: Call, env: Env)
    requires !call.Move? && !call.MovePath? && !call.Tune? && !call.LogDump?
    ensures AllPass(Gates(s, call, env)) <==> Admissible(s, call, env)
  {
    var g := Gates(s, call, env);
    match call
    case ZeroG(data) => assert data ==> g[0] == CheckZeroGPeriod(s.setup.params.zeroGPeriod);
    case SaveParams => assert g[0] == CheckRequiresDisabled(MotorsEnabled(s, env), SavingParams);
    case ResetFactoryParams => assert g[0] == CheckRequiresDisabled(MotorsEnabled(s, env), ResettingParams);
    case CommitModel(_) => assert g[0] == CheckRequiresDisabled(!MotorsEnabled(s, env), CommittingModel);
    case EnterDfu => assert g[0] == CheckParameterAllows(s.setup.params.allowDfu, AllowDfuSwitch);
    case SetSpeedScaling(percent) => assert g[0] == CheckSpeedPercent(percent);
    case _ =>
  }

  // Why a request is refused

  // The first thing wrong with a motion: its arguments in order, each named, and its speed last.
  function MotionVerdict(m: Motion, axes: nat): GateResult {
    match m
    case MoveJ(q, speed) => if !GoodArray(q, axes) then CheckFiniteValues(q, axes, Q) else CheckSpeedFraction(speed)
    case MoveJSync(q, speed) => if !GoodArray(q, axes) then CheckFiniteValues(q, axes, Q) else CheckSpeedFraction(speed)
    case MoveP(pose, speed, _) => if !AllFinite(pose) then CheckFinitePose(pose) else CheckSpeedFraction(speed)
    case MoveJs(q, dq, tau) =>
      if !GoodArray(q, axes) then CheckFiniteValues(q, axes, Q)
      else if dq != [] && !GoodArray(dq, axes) then CheckFiniteValues(dq, axes, Dq)
      else if tau != [] && !GoodArray(tau, axes) then CheckFiniteValues(tau, axes, TauFf)
      else Pass
    case SendMit(joint, q1, dq1, kp1, kd1, tau1) =>
      if !(0 <= joint < axes) then CheckJointIndex(joint, axes) else CheckFinite([q1, dq1, kp1, kd1, tau1], MitGains)
    case SendMitAll(q, dq, kp, kd, tau) =>
      if !GoodArray(q, axes) then CheckFiniteValues(q, axes, Q)
      else if !GoodArray(dq, axes) then CheckFiniteValues(dq, axes, Dq)
      else if !GoodArray(kp, axes) then CheckFiniteValues(kp, axes, Kp)
      else if !GoodArray(kd, axes) then CheckFiniteValues(kd, axes, Kd)
      else CheckFiniteValues(tau, axes, Tau)
    case Home => Pass
    case MoveL(pose, speed, _) => if !AllFinite(pose) then CheckFinitePose(pose) else CheckSpeedFraction(speed)
    case MoveC(start, via, end, speed, _) =>
      if !AllFinite(start) then Blame(Start, start)
      else if !AllFinite(via) then Blame(Via, via)
      else if !AllFinite(end) then Blame(End, end)
      else CheckSpeedFraction(speed)
  }

  // The least component of the pose that is not finite, under the name of its part.
  function Blame(part: Name, pose: Pose): GateResult {
    match FirstNonFinite(pose)
    case Some(i) => Refused(Within(part, NotFiniteAt(Pose6, i)))
    case None => Pass
  }

  function TuningVerdict(t: Tuning, linked: bool, axes: nat): GateResult {
    if ChecksLinkFirst(t) && !linked then Refused(Reason.LinkDown)
    else
      match t
      case SetPayload(mass, com) => if CheckMass(mass).Refused? then CheckMass(mass) else CheckCom(com)
      case SetFeedforwardPreset(preset) => CheckFfPreset(preset)
      case SetFeedforwardVector(_, values) => CheckFfValues(values)
      case GetJointParams(joint) => if joint < 0 then Pass else CheckJointIndex(joint, axes)
      case SetJointGains(joint, _, _, _) => CheckJointIndex(joint, axes)
      case SetJointLimits(joint, _, _) => CheckJointIndex(joint, axes)
      case SetGravityScale(values) => CheckFiniteValues(values, 7, Values)
      case SetInertiaScale(values) => CheckFiniteValues(values, 7, Values)
      case SetGravityVector(g) => CheckFiniteValues(g, 3, Vector)
      case SetModelBody(_, values) => CheckFinite(values, Values)
      case SetModelJm(values) => CheckFinite(values, Values)
      case KinBench(deadline) => CheckTimeout(deadline, Timeout)
      case LogStart(ticks) => if ticks <= 0 then Refused(TicksNotPositive) else Pass
      case InverseKinematics(pose, seed, deadline) =>
        if !AllFinite(pose) then CheckFinitePose(pose)
        else if seed != [] && !(|seed| == 7 && AllFinite(seed)) then CheckFiniteValues(seed, 7, Seed)
        else CheckTimeout(deadline, Timeout)
  }

  // The verdict on any request, without gate lists: permission first, then the arguments in order.
  function Verdict(s: State, call: Call, env: Env): GateResult {
    var p := s.setup.params;
    match call
    case Move(m) =>
      if !p.allowMotion then Refused(ParameterOff(AllowMotionSwitch)) else MotionVerdict(m, |s.setup.jointNames|)
    case MovePath(flat, speed, _) =>
      if !p.allowMotion then Refused(ParameterOff(AllowMotionSwitch))
      else if flat == [] || !AllFinite(flat) then CheckFinite(flat, PoseList)
      else if |flat| % 6 != 0 then Refused(NotSixPerWaypoint(|flat|))
      else CheckSpeedFraction(speed)
    case ZeroG(data) => if data then CheckZeroGPeriod(p.zeroGPeriod) else Pass
    case SaveParams => CheckRequiresDisabled(s.setup.arm.Some? && SeenEnabled(env), SavingParams)
    case ResetFactoryParams => CheckRequiresDisabled(s.setup.arm.Some? && SeenEnabled(env), ResettingParams)
    case CommitModel(_) => CheckRequiresDisabled(!(s.setup.arm.Some? && SeenEnabled(env)), CommittingModel)
    case EnterDfu => if p.allowDfu then Pass else Refused(ParameterOff(AllowDfuSwitch))
    case SetSpeedScaling(percent) => CheckSpeedPercent(percent)
    case Tune(t) => TuningVerdict(t, Connected(s, env), env.axes)
    case LogDump(filename, _, deadline) =>
      if !PlainFilename(filename) then CheckLogFilename(filename) else CheckTimeout(deadline, Timeout)
    case _ => Pass
  }

  lemma PairIs(a: GateResult, b: GateResult)
    ensures FirstRefusal([a, b]) == if a.Refused? then a else b
  {
    var g := [a, b];
    if a.Refused? { RefusesAt(g, 0); } else { LastDecides(g); }
  }

  lemma TripleIs(a: GateResult, b: GateResult, c: GateResult)
    ensures FirstRefusal([a, b, c]) == if a.Refused? then a else if b.Refused? then b else c
  {
    var g := [a, b, c];
    if a.Refused? { RefusesAt(g, 0); } else if b.Refused? { RefusesAt(g, 1); } else { LastDecides(g); }
  }

  lemma SendMitAllVerdict(m: Motion, axes: nat)
    requires m.SendMitAll?
    ensures FirstRefusal(MotionGates(m, axes)) == MotionVerdict(m, axes)
  {
    var g := MotionGates(m, axes);
    ArrayGateMeans(m.q, axes, Q);
    ArrayGateMeans(m.dq, axes, Dq);
    ArrayGateMeans(m.kp, axes, Kp);
    ArrayGateMeans(m.kd, axes, Kd);
    if g[0].Refused? { RefusesAt(g, 0); }
    else if g[1].Refused? { RefusesAt(g, 1); }
    else if g[2].Refused? { RefusesAt(g, 2); }
    else if g[3].Refused? { RefusesAt(g, 3); }
    else { LastDecides(g); }
  }

  lemma PoseIsBlamed(part: Name, pose: Pose)
    ensures Inside(part, CheckFinitePose(pose)) == Blame(part, pose)
    ensures Blame(part, pose).Pass? <==> AllFinite(pose)
  {
    FirstNonFiniteFinds(pose);
  }

  lemma MoveCVerdict(m: Motion, axes: nat)
    requires m.MoveC?
    ensures FirstRefusal(MotionGates(m, axes)) == MotionVerdict(m, axes)
  {
    var g := MotionGates(m, axes);
    PoseIsBlamed(Start, m.start);
    PoseIsBlamed(Via, m.via);
    PoseIsBlamed(End, m.end);
    if g[0].Refused? { RefusesAt(g, 0); }
    else if g[1].Refused? { RefusesAt(g, 1); }
    else if g[2].Refused? { RefusesAt(g, 2); }
    else { LastDecides(g); }
  }

  lemma MotionVerdictIsFirst(m: Motion, axes: nat)
    ensures FirstRefusal(MotionGates(m, axes)) == MotionVerdict(m, axes)
  {
    match m
    case MoveJ(q, speed) =>
      ArrayGateMeans(q, axes, Q);
      PairIs(CheckFiniteValues(q, axes, Q), CheckSpeedFraction(speed));
    case MoveJSync(q, speed) =>
      ArrayGateMeans(q, axes, Q);
      PairIs(CheckFiniteValues(q, axes, Q), CheckSpeedFraction(speed));
    case MoveP(pose, speed, _) =>
      PoseGateMeans(pose);
      PairIs(CheckFinitePose(pose), CheckSpeedFraction(speed));
    case MoveJs(q, dq, tau) =>
      ArrayGateMeans(q, axes, Q);
      ArrayGateMeans(dq, axes, Dq);
      ArrayGateMeans(tau, axes, TauFf);
      TripleIs(CheckFiniteValues(q, axes, Q), Optional(dq, axes, Dq), Optional(tau, axes, TauFf));
    case SendMit(joint, q1, dq1, kp1, kd1, tau1) =>
      PairIs(CheckJointIndex(joint, axes), CheckFinite([q1, dq1, kp1, kd1, tau1], MitGains));
    case SendMitAll(_, _, _, _, _) => SendMitAllVerdict(m, axes);
    case Home =>
    case MoveL(pose, speed, _) =>
      PoseGateMeans(pose);
      PairIs(CheckFinitePose(pose), CheckSpeedFraction(speed));
    case MoveC(_, _, _, _, _) => MoveCVerdict(m, axes);
  }

  lemma TuningVerdictIsFirst(t: Tuning, linked: bool, axes: nat)
    ensures FirstRefusal(TuningGates(t, linked, axes)) == TuningVerdict(t, linked, axes)
  {
    match t
    case SetPayload(mass, com) => PairIs(CheckMass(mass), CheckCom(com));
    case GetJointParams(joint) =>
      if joint >= 0 { PairIs(CheckConnected(linked), CheckJointIndex(joint, axes)); }
      else { LastDecides(TuningGates(t, linked, axes)); }
    case SetJointGains(joint, _, _, _) => PairIs(CheckConnected(linked), CheckJointIndex(joint, axes));
    case SetJointLimits(joint, _, _) => PairIs(CheckConnected(linked), CheckJointIndex(joint, axes));
    case InverseKinematics(pose, seed, deadline) =>
      PoseGateMeans(pose);
      FiniteGateAcceptsExactly(seed, 7, Seed);
      TripleIs(CheckFinitePose(pose), Optional(seed, 7, Seed), CheckTimeout(deadline, Timeout));
    case _ => LastDecides(TuningGates(t, linked, axes));
  }

  lemma PathVerdictIsFirst(flat: seq<Double>, speed: Double, allowed: GateResult)
    ensures FirstRefusal([allowed, CheckPoses(flat), CheckSpeedFraction(speed)])
         == if allowed.Refused? then allowed
            else if flat == [] || !AllFinite(flat) then CheckFinite(flat, PoseList)
            else if |flat| % 6 != 0 then Refused(NotSixPerWaypoint(|flat|))
            else CheckSpeedFraction(speed)
  {
    FiniteGateMeans(flat, PoseList);
    TripleIs(allowed, CheckPoses(flat), CheckSpeedFraction(speed));
  }

  lemma MotionListIs(allowed: GateResult, rest: seq<GateResult>)
    ensures FirstRefusal([allowed] + rest) == if allowed.Refused? then allowed else FirstRefusal(rest)
  {
    assert ([allowed] + rest)[1..] == rest;
  }

  // Every refusal, of every request: it names the first thing wrong, in the documented order.
  lemma RefusalsSayWhatIsWrong(s: State, call: Call, env: Env)
    ensures Admission(s, call, env) == Verdict(s, call, env)
    ensures Verdict(s, call, env).Refused? && !call.Reconnect? && !call.GetFeedforwardCatalog?
        ==> Serve(s, call, env) == Served(s, Failure(Gate(Verdict(s, call, env).reason)))
  {
    match call
    case Move(m) =>
      MotionVerdictIsFirst(m, |s.setup.jointNames|);
      MotionListIs(MotionAllowed(s), MotionGates(m, |s.setup.jointNames|));
    case MovePath(flat, speed, _) => PathVerdictIsFirst(flat, speed, MotionAllowed(s));
    case Tune(t) => TuningVerdictIsFirst(t, Connected(s, env), env.axes);
    case LogDump(filename, _, deadline) => PairIs(CheckLogFilename(filename), CheckTimeout(deadline, Timeout));
    case _ => if Gates(s, call, env) != [] { LastDecides(Gates(s, call, env)); }
  }
}
