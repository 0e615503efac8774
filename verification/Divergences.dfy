// Runs on which the code departs from what its documentation says. The exact conditions are in
// Policies.dfy (flash rule, commit mask), SafetyGates.dfy (array length), Lifecycle.dfy (stranded
// services) and Mirrors.dfy (speed, refused ENABLE, optional topics, licence).
module Divergences {
  import opened Wrappers
  import opened Doubles
  import opened Sdk
  import opened DriverSpec
  import opened Supervisor
  import opened Sends
  import opened Handlers
  import opened Lifecycle
  import opened Histories
  import opened Policies
  import opened Mirrors

  const LICENSED := License(true, 1, "active", "A1")

  // Nothing fails: seven axes, link up, every SDK call returns.
  const SMOOTH := Env(true, Returns, 7, Some(LICENSED), true, false, NoFrame, Returns, NO_FRAME, 0.0,
                      false, true, [], true, NoEscape, "1.8.0", "", "", 0.0)

  const MOTORS_ON := SMOOTH.(sdk := Cached(NO_FRAME.(enabled := true), 1.0))

  const REFUSING := SMOOTH.(outcome := Throws)

  predicate Smooth(env: Env) {
    env.factoryReturns && env.connect.Returns? && env.outcome.Returns? && env.escape.NoEscape?
  }

  lemma ConfigureWorks(h: seq<Event>, env: Env)
    requires Run(h).primary.Unconfigured? && ParamsIn(h).jointNames == [] && Smooth(env)
    ensures var h' := h + [Configure(env)];
            && Run(h').primary.Inactive?
            && SessionIn(h') && PortOpenIn(h')
            && ParamsIn(h') == ParamsIn(h) && ConfigIn(h') == ParamsIn(h) && AxesIn(h') == env.axes
            && LastLicense(h') == env.license
            && SpeedSinceConfigure(h').None? && SpeedEver(h') == SpeedEver(h)
            && Stranded(h') == Stranded(h)
  {
    var h', e := h + [Configure(env)], Configure(env);
    assert h'[..|h|] == h;
    RunSnoc(h, e);
    RunRemembers(h);
    ConfigureSucceedsIff(Run(h).s, env);
  }

  lemma ActivateWorks(h: seq<Event>, env: Env)
    requires Run(h).primary.Inactive? && Smooth(env)
    ensures var h' := h + [Activate(env)];
            && Run(h').primary.Active?
            && (PortOpenIn(h') <==> PortOpenIn(h))
            && ParamsIn(h') == ParamsIn(h) && ConfigIn(h') == ConfigIn(h) && AxesIn(h') == AxesIn(h)
            && LastLicense(h') == LastLicense(h) && SpeedEver(h') == SpeedEver(h)
  {
    var h' := h + [Activate(env)];
    assert h'[..|h|] == h;
    RunSnoc(h, Activate(env));
    EveryReachableStateIsSound(h);
    ActivateKeepsLink(Run(h).s, env);
  }

  lemma Changing(h: seq<Event>, change: ParamChange)
    ensures var h' := h + [SetParam(change)];
            && Run(h').primary == Run(h).primary
            && ParamsIn(h') == Changed(ParamsIn(h), change) && ConfigIn(h') == ConfigIn(h) && AxesIn(h') == AxesIn(h)
            && (PortOpenIn(h') <==> PortOpenIn(h)) && (Stranded(h') <==> Stranded(h))
  {
    assert (h + [SetParam(change)])[..|h|] == h;
    RunSnoc(h, SetParam(change));
  }

  lemma CreatedSnoc(h: seq<Event>, e: Event, topic: Topic)
    ensures CreatedIn(h + [e], topic)
       <==> (Attempts(Run(h), e) && Creates(ParamsIn(h), e.env, topic)) || (!Clears(Run(h), e) && CreatedIn(h, topic))
  {
    assert (h + [e])[..|h|] == h;
  }

  function BroughtUp(env: Env): seq<Event> {
    [] + [Configure(env)] + [Activate(env)]
  }

  lemma BringUp(env: Env)
    requires Smooth(env)
    ensures var h := BroughtUp(env);
            && Run(h).primary.Active? && PortOpenIn(h) && ParamsIn(h) == DEFAULTS && AxesIn(h) == env.axes
  {
    ConfigureWorks([], env);
    ActivateWorks([] + [Configure(env)], env);
  }

  // The flash rule of commit_model

  // What commit_model does in a serving node, whatever the mask and whatever the frame says.
  lemma CommitSends(h: seq<Event>, mask: nat, env: Env)
    requires Serving(h) && LinkUp(h, env)
    ensures var sends := EventSends(Run(h), Request(Call.CommitModel(mask), env));
            if SeenEnabled(env)
            then |sends| == 1 && Answers(Call.CommitModel(mask), sends[0], ParamsIn(h), ConfigIn(h))
            else sends == []
  {
    CommitAdmittedIff(h, mask, env);
    RequestIsForwardedIff(h, Call.CommitModel(mask), env);
  }

  lemma ReadyToCommit()
    ensures var h := BroughtUp(SMOOTH);
            Serving(h) && LinkUp(h, MOTORS_ON) && LinkUp(h, SMOOTH)
  {
    BringUp(SMOOTH);
  }

  // commit_model with the motors reported on writes the model to flash; with the motors off, and
  // the link up, it is refused. The documentation asks for the opposite.
  lemma CommitModelIsInverted()
    ensures EventSends(Run(BroughtUp(SMOOTH)), Request(Call.CommitModel(3), MOTORS_ON)) == [Command.CommitModel(3)]
    ensures EventSends(Run(BroughtUp(SMOOTH)), Request(Call.CommitModel(3), SMOOTH)) == []
  {
    ReadyToCommit();
    CommitSends(BroughtUp(SMOOTH), 3, MOTORS_ON);
    CommitSends(BroughtUp(SMOOTH), 3, SMOOTH);
  }

  // A mask the firmware never staged can match after truncation.
  lemma CommitMaskIsTruncated()
    ensures EventSends(Run(BroughtUp(SMOOTH)), Request(Call.CommitModel(0x1_0001), MOTORS_ON))
         == [Command.CommitModel(1)]
  {
    ReadyToCommit();
    CommitSends(BroughtUp(SMOOTH), 0x1_0001, MOTORS_ON);
  }

  // The length of joint arrays

  // With no axes configured, a joint move of any length goes out.
  predicate SendsUnchecked(h: seq<Event>, q: seq<Double>) {
    var m := Motion.MoveJ(q, ONE);
    AxesIn(h) == 0 && EventSends(Run(h), Request(Call.Move(m), SMOOTH)) == [Command.Move(m)]
  }

  // Firmware that reports no axes switches the length check of the joint arrays off.
  lemma NoAxesNoLengthCheck(q: seq<Double>)
    requires q != [] && AllFinite(q)
    ensures exists h :: SendsUnchecked(h, q)
  {
    WithoutAxes();
    var h :| ReadyWithoutAxes(h);
    SendingUnchecked(h, q);
  }

  predicate ReadyWithoutAxes(h: seq<Event>) {
    Run(h).primary.Active? && PortOpenIn(h) && ParamsIn(h).allowMotion && AxesIn(h) == 0
  }

  lemma WithoutAxes()
    ensures exists h :: ReadyWithoutAxes(h)
  {
    BringUp(SMOOTH.(axes := 0));
    Allowing(BroughtUp(SMOOTH.(axes := 0)));
  }

  lemma AllowsMotion(p: Params)
    ensures Changed(p, AllowMotion(true)) == p.(allowMotion := true)
  {
  }

  lemma Allowing(h: seq<Event>)
    requires Run(h).primary.Active? && PortOpenIn(h) && AxesIn(h) == 0
    ensures ReadyWithoutAxes(h + [SetParam(AllowMotion(true))])
  {
    Changing(h, AllowMotion(true));
    AllowsMotion(ParamsIn(h));
  }

  lemma SendingUnchecked(h: seq<Event>, q: seq<Double>)
    requires ReadyWithoutAxes(h)
    requires q != [] && AllFinite(q)
    ensures SendsUnchecked(h, q)
  {
    MayMove(h);
    MotionIsForwardedIff(h, Motion.MoveJ(q, ONE), SMOOTH);
  }

  // In an active node, joint names are as many as axes; and motion is allowed as last set.
  lemma MayMove(h: seq<Event>)
    ensures SwitchSet(h, MotionSwitch, false) == ParamsIn(h).allowMotion
    ensures Run(h).primary.Active? ==> |NamesIn(h)| == AxesIn(h)
  {
    ParametersAreAsLastSet(h);
    RunRemembers(h);
  }

  // The port after a refused ENABLE

  lemma Refused(h: seq<Event>)
    requires Run(h).primary.Inactive? && ConfigIn(h).autoEnable
    ensures var h' := h + [Activate(REFUSING)];
            && Run(h').primary.Unconfigured?
            && (PortOpenIn(h') <==> PortOpenIn(h)) && (SessionIn(h') <==> SessionIn(h))
            && ParamsIn(h') == ParamsIn(h)
  {
    var h' := h + [Activate(REFUSING)];
    assert h'[..|h|] == h;
    RunSnoc(h, Activate(REFUSING));
    RunRemembers(h);
    EveryReachableStateIsSound(h);
    ActivateKeepsLink(Run(h).s, REFUSING);
  }

  // A refused ENABLE does not leave the node inactive, as its log message says: it ends
  // unconfigured, with the session and its serial port still open.
  lemma RefusedEnableKeepsThePort()
    ensures var sys := Run([Configure(SMOOTH), Activate(REFUSING)]);
            sys.primary.Unconfigured? && sys.s.setup.arm.Some? && PortOpen(sys)
  {
    var h := [] + [Configure(SMOOTH)];
    ConfigureWorks([], SMOOTH);
    Refused(h);
    assert h + [Activate(REFUSING)] == [Configure(SMOOTH), Activate(REFUSING)];
    SessionAndPortFollowTheEvents(h + [Activate(REFUSING)]);
  }

  // The optional topics

  function TurnedTo(topic: Topic, on: bool): ParamChange {
    match topic
    case StatusTopic => PublishJointStates(on)   // nothing to turn: always wanted
    case JointTopic => PublishJointStates(on)
    case DiagnosticsTopic => PublishDiagnostics(on)
  }

  // A topic is published by an active node whose parameter says not to.
  predicate PublishesUnasked(h: seq<Event>, topic: Topic) {
    Run(h).primary.Active? && PublisherOf(Run(h).s.setup, topic).Live? && !Wanted(ConfigIn(h), topic)
  }

  // The publisher of an earlier configure survives a refused ENABLE and is activated later
  // although its parameter was turned off in between; both topics do so.
  lemma PublishesThoughTurnedOff(topic: Topic)
    requires !topic.StatusTopic?
    ensures exists h :: PublishesUnasked(h, topic)
  {
    Changing([], TurnedTo(topic, true));
    ThenRefuse([] + [SetParam(TurnedTo(topic, true))], topic);
  }

  lemma ThenRefuse(h: seq<Event>, topic: Topic)
    requires !topic.StatusTopic?
    requires Run(h).primary.Unconfigured?
    requires Wanted(ParamsIn(h), topic) && ParamsIn(h).autoEnable && ParamsIn(h).jointNames == []
    ensures exists h' :: PublishesUnasked(h', topic)
  {
    var h' := h + [Configure(SMOOTH)];
    ConfigureWorks(h, SMOOTH);
    CreatedSnoc(h, Configure(SMOOTH), topic);
    Refused(h');
    CreatedSnoc(h', Activate(REFUSING), topic);
    ThenTurnOff(h' + [Activate(REFUSING)], topic);
  }

  lemma ThenTurnOff(h: seq<Event>, topic: Topic)
    requires !topic.StatusTopic?
    requires Run(h).primary.Unconfigured? && CreatedIn(h, topic) && ParamsIn(h).jointNames == []
    ensures exists h' :: PublishesUnasked(h', topic)
  {
    Changing(h, TurnedTo(topic, false));
    CreatedSnoc(h, SetParam(TurnedTo(topic, false)), topic);
    ThenReturn(h + [SetParam(TurnedTo(topic, false))], topic);
  }

  lemma ThenReturn(h: seq<Event>, topic: Topic)
    requires Run(h).primary.Unconfigured? && CreatedIn(h, topic) && ParamsIn(h).jointNames == []
    requires !Wanted(ParamsIn(h), topic)
    ensures exists h' :: PublishesUnasked(h', topic)
  {
    ConfigureWorks(h, SMOOTH);
    CreatedSnoc(h, Configure(SMOOTH), topic);
    ThenActivate(h + [Configure(SMOOTH)], topic);
  }

  lemma ThenActivate(h: seq<Event>, topic: Topic)
    requires Run(h).primary.Inactive? && CreatedIn(h, topic) && !Wanted(ConfigIn(h), topic)
    ensures exists h' :: PublishesUnasked(h', topic)
  {
    ActivateWorks(h, SMOOTH);
    CreatedSnoc(h, Activate(SMOOTH), topic);
    ThenPublish(h + [Activate(SMOOTH)], topic);
  }

  lemma ThenPublish(h: seq<Event>, topic: Topic)
    requires Run(h).primary.Active? && CreatedIn(h, topic) && !Wanted(ConfigIn(h), topic)
    ensures PublishesUnasked(h, topic)
  {
    EveryReachableStateIsSound(h);
    PublisherExistsIff(h, topic);
  }

  // The speed mirror

  // Forty percent was the last value written, and the status message says something else.
  predicate MirrorIsWrong(h: seq<Event>) {
    SpeedEver(h) == Some(40) && Run(h).s.memory.speed == 100
  }

  lemma SpeedSnoc(h: seq<Event>, e: Event)
    ensures SpeedEver(h + [e]) == if Written(Run(h).s, e).Some? then Written(Run(h).s, e) else SpeedEver(h)
    ensures ParamsIn(h + [e]) == if e.SetParam? then Changed(ParamsIn(h), e.change) else ParamsIn(h)
  {
    assert (h + [e])[..|h|] == h;
  }

  lemma FortyIsWritten(s: State)
    requires Offers(s, Service.SetSpeedScaling) && Connected(s, SMOOTH)
    ensures Written(s, Request(Call.SetSpeedScaling(40), SMOOTH)) == Some(40)
  {
    AdmissionAcceptsExactly(s, Call.SetSpeedScaling(40), SMOOTH);
  }

  lemma CanSetSpeed(h: seq<Event>)
    requires Run(h).primary.Active? && PortOpenIn(h)
    ensures Offers(Run(h).s, Service.SetSpeedScaling) && Connected(Run(h).s, SMOOTH)
  {
    SessionFacts(h, SMOOTH);
    ReachableIff(h, Service.SetSpeedScaling);
  }

  lemma RequestKeepsPrimary(sys: System, call: Call, env: Env)
    ensures Step(sys, Request(call, env)).sys.primary == sys.primary
  {
  }

  lemma SetForty(h: seq<Event>)
    requires Run(h).primary.Active? && PortOpenIn(h)
    ensures var h' := h + [Request(Call.SetSpeedScaling(40), SMOOTH)];
            Run(h').primary.Active? && SpeedEver(h') == Some(40) && ParamsIn(h') == ParamsIn(h)
  {
    CanSetSpeed(h);
    FortyIsWritten(Run(h).s);
    RequestKeepsPrimary(Run(h), Call.SetSpeedScaling(40), SMOOTH);
    RunSnoc(h, Request(Call.SetSpeedScaling(40), SMOOTH));
    SpeedSnoc(h, Request(Call.SetSpeedScaling(40), SMOOTH));
  }

  lemma WindDown(h: seq<Event>)
    requires Run(h).primary.Active?
    ensures var h' := h + [Deactivate(SMOOTH)] + [Cleanup(SMOOTH)];
            Run(h').primary.Unconfigured? && SpeedEver(h') == SpeedEver(h) && ParamsIn(h') == ParamsIn(h)
  {
    RunSnoc(h, Deactivate(SMOOTH));
    SpeedSnoc(h, Deactivate(SMOOTH));
    RunSnoc(h + [Deactivate(SMOOTH)], Cleanup(SMOOTH));
    SpeedSnoc(h + [Deactivate(SMOOTH)], Cleanup(SMOOTH));
  }

  // Setting 40 percent and reconfiguring leaves the status message saying 100.
  lemma MirrorForgetsTheGovernor()
    ensures exists h :: MirrorIsWrong(h)
  {
    BringUp(SMOOTH);
    SetForty(BroughtUp(SMOOTH));
    ThenStartOver(BroughtUp(SMOOTH) + [Request(Call.SetSpeedScaling(40), SMOOTH)]);
  }

  lemma ThenStartOver(h: seq<Event>)
    requires Run(h).primary.Active? && SpeedEver(h) == Some(40) && ParamsIn(h).jointNames == []
    ensures exists h' :: MirrorIsWrong(h')
  {
    WindDown(h);
    ThenConfigure(h + [Deactivate(SMOOTH)] + [Cleanup(SMOOTH)]);
  }

  lemma ThenConfigure(h: seq<Event>)
    requires Run(h).primary.Unconfigured? && SpeedEver(h) == Some(40) && ParamsIn(h).jointNames == []
    ensures exists h' :: MirrorIsWrong(h')
  {
    ConfigureWorks(h, SMOOTH);
    MirrorIsTheLastWrite(h + [Configure(SMOOTH)]);
    assert MirrorIsWrong(h + [Configure(SMOOTH)]);
  }

  // The licence on activation

  const UNREADABLE := SMOOTH.(license := None)

  // The device answers with a licence when the node is activated, and the node shows none.
  lemma ActivationLeavesTheLicenceUnread()
    ensures var sys := Run([] + [Configure(UNREADABLE)] + [Activate(SMOOTH)]);
            sys.primary.Active? && SMOOTH.license == Some(LICENSED) && !sys.s.memory.licenseValid
  {
    var h := [] + [Configure(UNREADABLE)];
    ConfigureWorks([], UNREADABLE);
    ActivateWorks(h, SMOOTH);
    LicenceIsTheLastRead(h + [Activate(SMOOTH)]);
  }

  // Services outside Active

  const NO_TIMER := SMOOTH.(escape := AtStatusTimer)

  // An unconfigured node that moves the arm on request.
  predicate MovesUnconfigured(h: seq<Event>) {
    && Run(h).primary.Unconfigured? && |Run(h).s.setup.services| >= 55
    && EventSends(Run(h), Request(Call.Move(Motion.Home), SMOOTH)) == [Command.Move(Motion.Home)]
  }

  // A timer that raises during activation leaves an unconfigured node whose services are all
  // advertised: it goes home on request.
  lemma UnconfiguredNodeMoves()
    ensures exists h :: MovesUnconfigured(h)
  {
    ConfigureWorks([], SMOOTH);
    Changing([] + [Configure(SMOOTH)], AllowMotion(true));
    ThenStrand([] + [Configure(SMOOTH)] + [SetParam(AllowMotion(true))]);
  }

  lemma ThenStrand(h: seq<Event>)
    requires Run(h).primary.Inactive? && IsPositive(ConfigIn(h).statusRate)
    requires PortOpenIn(h) && ParamsIn(h).allowMotion
    ensures exists h' :: MovesUnconfigured(h')
  {
    var h' := h + [Activate(NO_TIMER)];
    assert h'[..|h|] == h;
    RunSnoc(h, Activate(NO_TIMER));
    RunRemembers(h);
    EveryReachableStateIsSound(h);
    ActivateKeepsLink(Run(h).s, NO_TIMER);
    ThenMove(h');
  }

  lemma ThenMove(h: seq<Event>)
    requires Run(h).primary.Unconfigured? && Stranded(h) && PortOpenIn(h) && ParamsIn(h).allowMotion
    ensures MovesUnconfigured(h)
  {
    MayMove(h);
    MotionIsForwardedIff(h, Motion.Home, SMOOTH);
    StrandedAdvertises(h);
  }

  lemma StrandedAdvertises(h: seq<Event>)
    requires Stranded(h)
    ensures |Run(h).s.setup.services| >= 55
  {
    AdvertisedWhileActiveIff(h);
  }
}
