// What a run's past amounts to, as functions of the events: the parameters set, the names in
// force, the session, the port, the frames, percentages and licence records delivered. Whether a
// transition was taken or a request got through is asked of the state the event met; what it
// contributed is read off the event. Each function is matched with the node's fields elsewhere.
module Histories {
  import opened Wrappers
  import opened Doubles
  import opened JointNames
  import opened Sdk
  import opened DriverSpec
  import opened Supervisor
  import opened Sends
  import opened Lifecycle

  // The parameters as `ros2 param set` left them.
  function ParamsIn(h: seq<Event>): Params {
    if h == [] then DEFAULTS
    else
      var front, e := h[..|h| - 1], h[|h| - 1];
      if e.SetParam? then Changed(ParamsIn(front), e.change) else ParamsIn(front)
  }

  // The declared parameters, and the one a change is about.
  datatype Parameter =
    | NameList | AutoEnabling | EnableTries | StatusHz | JointSwitch | DiagnosticsSwitch | DiagnosticsHz
    | KeepAlivePeriod | DfuSwitch | MotionSwitch

  predicate Sets(change: ParamChange, parameter: Parameter) {
    match parameter
    case NameList => change.JointNames?
    case AutoEnabling => change.AutoEnable?
    case EnableTries => change.EnableAttempts?
    case StatusHz => change.StatusRate?
    case JointSwitch => change.PublishJointStates?
    case DiagnosticsSwitch => change.PublishDiagnostics?
    case DiagnosticsHz => change.DiagnosticsRate?
    case KeepAlivePeriod => change.ZeroGPeriod?
    case DfuSwitch => change.AllowDfu?
    case MotionSwitch => change.AllowMotion?
  }

  // The last change a run made to a parameter.
  function LastSet(h: seq<Event>, parameter: Parameter): (last: Option<ParamChange>)
    ensures last.Some? ==> Sets(last.value, parameter)
  {
    if h == [] then None
    else
      var front, e := h[..|h| - 1], h[|h| - 1];
      if e.SetParam? && Sets(e.change, parameter) then Some(e.change) else LastSet(front, parameter)
  }

  function SwitchSet(h: seq<Event>, parameter: Parameter, default: bool): bool
    requires parameter in {AutoEnabling, JointSwitch, DiagnosticsSwitch, DfuSwitch, MotionSwitch}
  {
    if LastSet(h, parameter).None? then default else LastSet(h, parameter).value.on
  }

  function RateSet(h: seq<Event>, parameter: Parameter, default: real): Double
    requires parameter in {StatusHz, DiagnosticsHz}
  {
    if LastSet(h, parameter).None? then Fin(default) else LastSet(h, parameter).value.hz
  }

  // Every parameter holds the value it was last set to, and its declared default until then.
  predicate HoldsLastSet(p: Params, h: seq<Event>) {
    HoldsSwitches(p, h) && HoldsValues(p, h)
  }

  predicate HoldsSwitches(p: Params, h: seq<Event>) {
    && p.autoEnable == SwitchSet(h, AutoEnabling, true)
    && p.publishJointStates == SwitchSet(h, JointSwitch, false)
    && p.publishDiagnostics == SwitchSet(h, DiagnosticsSwitch, true)
    && p.allowDfu == SwitchSet(h, DfuSwitch, false)
    && p.allowMotion == SwitchSet(h, MotionSwitch, false)
  }

  predicate HoldsValues(p: Params, h: seq<Event>) {
    && p.jointNames == (if LastSet(h, NameList).None? then [] else LastSet(h, NameList).value.names)
    && p.enableAttempts == (if LastSet(h, EnableTries).None? then 12 else LastSet(h, EnableTries).value.attempts)
    && p.statusRate == RateSet(h, StatusHz, 10.0)
    && p.diagnosticsRate == RateSet(h, DiagnosticsHz, 1.0)
    && p.zeroGPeriod == (if LastSet(h, KeepAlivePeriod).None? then Fin(0.04)
                         else LastSet(h, KeepAlivePeriod).value.period)
  }

  // A change sets the named parameter to the given value and leaves all others alone.
  predicate Takes(q: Params, p: Params, change: ParamChange) {
    && q.jointNames == (if change.JointNames? then change.names else p.jointNames)
    && q.autoEnable == (if change.AutoEnable? then change.on else p.autoEnable)
    && q.enableAttempts == (if change.EnableAttempts? then change.attempts else p.enableAttempts)
    && q.statusRate == (if change.StatusRate? then change.hz else p.statusRate)
    && q.publishJointStates == (if change.PublishJointStates? then change.on else p.publishJointStates)
    && q.publishDiagnostics == (if change.PublishDiagnostics? then change.on else p.publishDiagnostics)
    && q.diagnosticsRate == (if change.DiagnosticsRate? then change.hz else p.diagnosticsRate)
    && q.zeroGPeriod == (if change.ZeroGPeriod? then change.period else p.zeroGPeriod)
    && q.allowDfu == (if change.AllowDfu? then change.on else p.allowDfu)
    && q.allowMotion == (if change.AllowMotion? then change.on else p.allowMotion)
  }

  // `ros2 param set` does, whatever state the node is in.
  lemma SettingSetsJustThat(h: seq<Event>, change: ParamChange)
    ensures Takes(Run(h + [SetParam(change)]).s.setup.params, Run(h).s.setup.params, change)
  {
    RunSnoc(h, SetParam(change));
    ChangeTakes(Run(h).s.setup.params, change);
  }

  lemma ChangeTakes(p: Params, change: ParamChange)
    ensures Takes(Changed(p, change), p, change)
  {
  }

  predicate Moves(h: seq<Event>, front: seq<Event>, change: ParamChange) {
    forall parameter ::
      LastSet(h, parameter) == if Sets(change, parameter) then Some(change) else LastSet(front, parameter)
  }

  lemma LastSetSnoc(h: seq<Event>)
    requires h != []
    ensures var front, e := h[..|h| - 1], h[|h| - 1];
            if e.SetParam? then Moves(h, front, e.change)
            else forall parameter :: LastSet(h, parameter) == LastSet(front, parameter)
  {
  }

  lemma ChangeHoldsSwitches(q: Params, p: Params, front: seq<Event>, change: ParamChange, h: seq<Event>)
    requires HoldsSwitches(p, front) && Takes(q, p, change) && Moves(h, front, change)
    ensures HoldsSwitches(q, h)
  {
  }

  lemma ChangeHoldsValues(q: Params, p: Params, front: seq<Event>, change: ParamChange, h: seq<Event>)
    requires HoldsValues(p, front) && Takes(q, p, change) && Moves(h, front, change)
    ensures HoldsValues(q, h)
  {
  }

  // After any run each parameter in force is as it was last set.
  lemma {:induction false} ParametersAreAsLastSet(h: seq<Event>)
    ensures HoldsLastSet(ParamsIn(h), h)
  {
    if h == [] {
    } else {
      var front, e := h[..|h| - 1], h[|h| - 1];
      ParametersAreAsLastSet(front);
      LastSetSnoc(h);
      if e.SetParam? {
        ChangeTakes(ParamsIn(front), e.change);
        ChangeHoldsSwitches(ParamsIn(h), ParamsIn(front), front, e.change, h);
        ChangeHoldsValues(ParamsIn(h), ParamsIn(front), front, e.change, h);
      }
    }
  }

  // The parameters at the latest configure attempt, and the axes the firmware reported in it.
  function ConfigIn(h: seq<Event>): Params {
    if h == [] then DEFAULTS
    else
      var front, e := h[..|h| - 1], h[|h| - 1];
      if Attempts(Run(front), e) then ParamsIn(front) else ConfigIn(front)
  }

  function AxesIn(h: seq<Event>): nat {
    if h == [] then 0
    else
      var front, e := h[..|h| - 1], h[|h| - 1];
      if Attempts(Run(front), e) then e.env.axes else AxesIn(front)
  }

  // No names were supplied, or one for each axis the firmware reports.
  predicate NamesFit(p: Params, env: Env) {
    p.jointNames == [] || |p.jointNames| == env.axes
  }

  // Configuring with these parameters gets a connected session that it keeps.
  predicate Keeps(p: Params, env: Env) {
    && !env.escape.AtFactory? && env.factoryReturns && env.connect.Returns?
    && (env.escape.AtAxes? || NamesFit(p, env))
  }

  // Something raises after that: creating a publisher the parameters ask for, or the closing report.
  predicate LaterRaises(p: Params, env: Env) {
    match env.escape
    case AtStatusPublisher => true
    case AtJointPublisher => p.publishJointStates
    case AtDiagPublisher => p.publishDiagnostics
    case AtReport => true
    case _ => false
  }

  // It also gets past the names, to the licence and the publishers.
  predicate Opens(p: Params, env: Env) {
    Keeps(p, env) && !env.escape.AtAxes?
  }

  function NamesFrom(p: Params, env: Env): seq<string> {
    if Opens(p, env) && p.jointNames == [] then Derived(env.axes) else p.jointNames
  }

  // The joint names in force.
  function NamesIn(h: seq<Event>): seq<string> {
    if h == [] then []
    else
      var front, e := h[..|h| - 1], h[|h| - 1];
      if Attempts(Run(front), e) then NamesFrom(ParamsIn(front), e.env) else NamesIn(front)
  }

  // Requests

  // The request reached its handler and passed its gates with the link up.
  predicate Reaches(s: State, e: Event) {
    e.Request? && Offers(s, ServiceOf(e.call)) && Forwarded(s, e.call, e.env)
  }

  predicate Succeeds(s: State, e: Event) {
    Reaches(s, e) && e.env.outcome.Returns?
  }

  predicate Reopens(s: State, e: Event) {
    e.Request? && e.call.Reconnect? && Offers(s, Service.Reconnect) && s.setup.arm.Some?
  }

  // The session, its port and its keep-alive

  predicate SessionIn(h: seq<Event>) {
    h != [] &&
    var front, e := h[..|h| - 1], h[|h| - 1];
    if Attempts(Run(front), e) && !e.env.escape.AtFactory? then Keeps(ParamsIn(front), e.env)
    else !Clears(Run(front), e) && SessionIn(front)
  }

  predicate PortOpenIn(h: seq<Event>) {
    h != [] &&
    var front, e := h[..|h| - 1], h[|h| - 1];
    if Attempts(Run(front), e) && !e.env.escape.AtFactory? then Keeps(ParamsIn(front), e.env)
    else if Reopens(Run(front).s, e) then e.env.outcome.Returns? || e.env.portLeftOpen
    else !Clears(Run(front), e) && PortOpenIn(front)
  }

  // The period of the running keep-alive.
  function KeepAliveIn(h: seq<Event>): Option<Double> {
    if h == [] then None
    else
      var front, e := h[..|h| - 1], h[|h| - 1];
      if e.KeepAliveDies? || Withdraws(Run(front), e) then None
      else if Attempts(Run(front), e) && !e.env.escape.AtFactory? then None
      else if Succeeds(Run(front).s, e) && e.call == Call.ZeroG(true) then Some(ParamsIn(front).zeroGPeriod)
      else if Reaches(Run(front).s, e) && e.call == Call.ZeroG(false) then None
      else KeepAliveIn(front)
  }

  // The latest transition taken stopped half-way with the session kept: an activation whose ENABLE
  // was refused or whose timer raised, or a configure in which something raised after connect. (A
  // configure whose factory raised changes nothing here.)
  predicate Interrupted(h: seq<Event>) {
    h != [] &&
    var front, e := h[..|h| - 1], h[|h| - 1];
    if e.Activate? && Run(front).primary.Inactive? then
      (ConfigIn(front).autoEnable && e.env.outcome.Throws?) || TimerRaises(Run(front).s, e.env)
    else if Attempts(Run(front), e) then
      if e.env.escape.AtFactory? then Interrupted(front)
      else Keeps(ParamsIn(front), e.env) && (e.env.escape.AtAxes? || LaterRaises(ParamsIn(front), e.env))
    else !Clears(Run(front), e) && Interrupted(front)
  }

  // Deliveries

  // The frame an event delivered to the cache, with its arrival time.
  function Delivered(s: State, e: Event): Option<(Frame, real)> {
    if e.StatusTick? && s.setup.statusTimer.Some? && s.setup.arm.Some? && e.env.sdk.Cached?
    then Some((e.env.sdk.frame, e.env.sdk.stamp))
    else if Succeeds(s, e) && e.call.GetStatus? then Some((e.env.reply, e.env.replyStamp))
    else None
  }

  // The last pair delivered since the latest configure attempt, cleanup or shutdown.
  function LastRead(h: seq<Event>): Option<(Frame, real)> {
    if h == [] then None
    else
      var front, e := h[..|h| - 1], h[|h| - 1];
      if Attempts(Run(front), e) || Clears(Run(front), e) then None
      else if Delivered(Run(front).s, e).Some? then Delivered(Run(front).s, e)
      else LastRead(front)
  }

  // The percentage an event wrote to the firmware's governor.
  function Written(s: State, e: Event): Option<nat> {
    if Succeeds(s, e) && e.call.SetSpeedScaling? then Some(e.call.percent) else None
  }

  // The last percentage written since the latest configure attempt, and the last one ever.
  function SpeedSinceConfigure(h: seq<Event>): Option<nat> {
    if h == [] then None
    else
      var front, e := h[..|h| - 1], h[|h| - 1];
      if Attempts(Run(front), e) then None
      else if Written(Run(front).s, e).Some? then Written(Run(front).s, e)
      else SpeedSinceConfigure(front)
  }

  function SpeedEver(h: seq<Event>): Option<nat> {
    if h == [] then None
    else
      var front, e := h[..|h| - 1], h[|h| - 1];
      if Written(Run(front).s, e).Some? then Written(Run(front).s, e) else SpeedEver(front)
  }

  // The licence record an event read from the device.
  function LicenseRead(sys: System, e: Event): Option<License> {
    if Attempts(sys, e) then if Opens(sys.s.setup.params, e.env) then e.env.license else None
    else if Reopens(sys.s, e) && e.env.outcome.Returns? then e.env.license
    else None
  }

  // The last record read since the latest configure attempt, cleanup or shutdown.
  function LastLicense(h: seq<Event>): Option<License> {
    if h == [] then None
    else
      var front, e := h[..|h| - 1], h[|h| - 1];
      if Attempts(Run(front), e) then LicenseRead(Run(front), e)
      else if Clears(Run(front), e) then None
      else if LicenseRead(Run(front), e).Some? then LicenseRead(Run(front), e)
      else LastLicense(front)
  }

  // The publishers: one always wanted, two a parameter decides about

  datatype Topic = StatusTopic | JointTopic | DiagnosticsTopic

  predicate Wanted(p: Params, topic: Topic) {
    match topic
    case StatusTopic => true
    case JointTopic => p.publishJointStates
    case DiagnosticsTopic => p.publishDiagnostics
  }

  // A configure attempt gets as far as creating the topic's publisher.
  predicate Creates(p: Params, env: Env, topic: Topic) {
    && Opens(p, env) && Wanted(p, topic)
    && !env.escape.AtStatusPublisher?
    && (!topic.StatusTopic? ==> !(p.publishJointStates && env.escape.AtJointPublisher?))
    && (topic.DiagnosticsTopic? ==> !env.escape.AtDiagPublisher?)
  }

  // Some configure since the last cleanup or shutdown created it.
  predicate CreatedIn(h: seq<Event>, topic: Topic) {
    h != [] &&
    var front, e := h[..|h| - 1], h[|h| - 1];
    if Attempts(Run(front), e) && Creates(ParamsIn(front), e.env, topic) then true
    else !Clears(Run(front), e) && CreatedIn(front, topic)
  }

  // Parameters and names against the fields

  predicate Remembers(sys: System, params: Params, config: Params, names: seq<string>, axes: nat) {
    && sys.s.setup.params == params
    && sys.s.setup.config == config
    && sys.s.setup.jointNames == names
    && (Configured(sys.primary) ==> |names| == axes)
  }

  lemma OpeningNames(s: State, env: Env)
    requires s.setup.arm.Some?
    ensures var t := Opening(s, env);
            && t.state.setup.params == s.setup.params && t.state.setup.config == s.setup.config
            && t.state.setup.jointNames
               == (if env.connect.Returns? && !env.escape.AtAxes? && s.setup.jointNames == []
                   then Derived(env.axes) else s.setup.jointNames)
            && (t.result.SUCCESS? ==> |t.state.setup.jointNames| == env.axes)
            && t.result != FAILURE
  {
    DerivedNamesAreDistinct(env.axes);
  }

  lemma ConfigureRemembers(s: State, env: Env)
    ensures var t := OnConfigure(s, env);
            && t.state.setup.params == s.setup.params && t.state.setup.config == s.setup.params
            && t.state.setup.jointNames == NamesFrom(s.setup.params, env)
            && (t.result.SUCCESS? ==> |t.state.setup.jointNames| == env.axes)
            && t.result != FAILURE
  {
    var adopted := AdoptArm(Blank(ReadParameters(s)), env);
    assert adopted.setup == ReadParameters(s).setup.(arm := adopted.setup.arm);
    if !env.escape.AtFactory? && adopted.setup.arm.Some? {
      OpeningNames(ConnectArm(adopted, env), env);
    }
  }

  lemma ActivateRemembers(s: State, env: Env)
    ensures var t := OnActivate(s, env).state.setup;
            t.params == s.setup.params && t.config == s.setup.config && t.jointNames == s.setup.jointNames
  {
  }

  lemma StepRemembers(sys: System, e: Event, params: Params, config: Params, names: seq<string>, axes: nat)
    requires Remembers(sys, params, config, names, axes)
    ensures Remembers(Step(sys, e).sys,
                      if e.SetParam? then Changed(params, e.change) else params,
                      if Attempts(sys, e) then params else config,
                      if Attempts(sys, e) then NamesFrom(params, e.env) else names,
                      if Attempts(sys, e) then e.env.axes else axes)
  {
    if e.Configure? {
      ConfigureRemembers(sys.s, e.env);
    } else if e.Activate? {
      ActivateRemembers(sys.s, e.env);
    } else if !IsTransition(e) {
      OtherEventsKeepSetup(sys, e);
    }
  }

  // Live parameters, the copy configure took and the joint names are those the run's events imply;
  // in the configured states there is one name per axis.
  lemma {:induction false} RunRemembers(h: seq<Event>)
    ensures Remembers(Run(h), ParamsIn(h), ConfigIn(h), NamesIn(h), AxesIn(h))
  {
    if h == [] {
    } else {
      var front, e := h[..|h| - 1], h[|h| - 1];
      RunRemembers(front);
      StepRemembers(Run(front), e, ParamsIn(front), ConfigIn(front), NamesIn(front), AxesIn(front));
    }
  }
}
