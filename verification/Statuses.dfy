// What the node tells the outside, against what the run delivered: every field of a status, a
// joint state message or a diagnostic is traced past the node's own fields to the run's history.
module Statuses {
  import opened Wrappers
  import opened Doubles
  import opened Sdk
  import opened Reports
  import opened DriverSpec
  import opened Supervisor
  import opened Lifecycle
  import opened Histories
  import opened Mirrors

  type Read = Option<(Frame, real)>

  function FrameOf(read: Read): Option<Frame> {
    if read.Some? then Some(read.value.0) else None
  }

  predicate ShowsFlags(flags: Flags, frame: Option<Frame>) {
    match frame
    case None => !flags.enabled && !flags.faulted && !flags.cartBusy && flags.jointFault == 0 && !flags.dropHoldInferred
                 && flags.mode == 0 && flags.modeName == "" && flags.raw == 0
    case Some(f) => flags.enabled == f.enabled && flags.faulted == f.faulted && flags.cartBusy == f.cartBusy
                    && flags.jointFault == f.jointFault && flags.dropHoldInferred == f.dropHoldInferred
                    && 0 <= flags.mode < 0x1_0000 && (flags.mode - f.mode) % 0x1_0000 == 0
                    && flags.modeName == f.modeName && flags.raw == f.flags
  }

  // Minus one before the first frame, else the time since the last one was stamped.
  function AgeOf(read: Read, now: real): real {
    if read.None? || read.value.1 <= 0.0 then -1.0 else now - read.value.1
  }

  // The part of a status that depends on the frame it shows.
  predicate ShowsFrame(status: Status, read: Read, axes: nat, now: real) {
    && ShowsFlags(status.flags, FrameOf(read))
    && Projects(status.axes, axes, FrameOf(read))
    && status.feedbackAge == AgeOf(read, now)
  }

  predicate ShowsLicense(fields: LicenseFields, license: Option<License>) {
    match license
    case None => !fields.valid && fields.state == 0 && fields.stateName == "" && fields.uid == ""
    case Some(l) => fields.valid && fields.stateName == l.stateName && fields.uid == l.uid
                    && 0 <= fields.state < 0x100 && (fields.state - l.state) % 0x100 == 0
  }

  // What a run implies about the session.
  datatype Session = Session(held: bool, linkUp: bool, names: seq<string>, speed: Option<nat>, zeroG: bool,
                             license: Option<License>)

  function SessionAfter(h: seq<Event>, env: Env): Session {
    Session(SessionIn(h), LinkUp(h, env), NamesIn(h), SpeedSinceConfigure(h), KeepAliveIn(h).Some?, LastLicense(h))
  }

  // The rest of a status: link, texts, governor, zero gravity, names and licence.
  predicate ShowsSession(status: Status, session: Session, env: Env) {
    && (status.connected <==> session.linkUp)
    && (status.inDfu <==> session.held && env.inDfu)
    && status.texts == (if session.held then Texts(env.firmware, env.resetReason, env.zeroGError)
                        else Texts("", "", ""))
    && status.speedScaling == OrHundred(session.speed)
    && (status.zeroGActive <==> session.zeroG)
    && status.jointNames == session.names
    && ShowsLicense(status.license, session.license)
  }

  // The node's fields agree with it.
  predicate Holds(s: State, session: Session, env: Env) {
    && (s.setup.arm.Some? <==> session.held)
    && (Connected(s, env) <==> session.linkUp)
    && s.setup.jointNames == session.names
    && s.memory.speed == OrHundred(session.speed)
    && (ZeroGActive(s) <==> session.zeroG)
    && Licensed(s.memory, session.license)
  }

  lemma BuiltStatusShows(s: State, env: Env, given: Option<Frame>, session: Session)
    requires Holds(s, session, env)
    ensures ShowsSession(BuildStatus(s, env, given), session, env)
  {
  }

  lemma EveryStateHolds(h: seq<Event>, env: Env)
    ensures Holds(Run(h).s, SessionAfter(h, env), env)
  {
    SessionFacts(h, env);
    RunRemembers(h);
    MirrorIsTheLastWrite(h);
    LicenceIsTheLastRead(h);
  }

  // After any run a status shows the session the events made.
  lemma StatusShowsSession(h: seq<Event>, env: Env, given: Option<Frame>)
    ensures ShowsSession(BuildStatus(Run(h).s, env, given), SessionAfter(h, env), env)
  {
    EveryStateHolds(h, env);
    BuiltStatusShows(Run(h).s, env, given, SessionAfter(h, env));
  }

  lemma StatusShowsFrame(s: State, env: Env, read: Read)
    requires Coherent(s.memory, read)
    ensures ShowsFrame(BuildStatus(s, env, FrameOf(read)), read, |s.setup.jointNames|, env.now)
  {
    ProjectionProjects(|s.setup.jointNames|, FrameOf(read));
  }

  // Status ticks

  // The axes both the names and the frame know, in order.
  predicate ShowsJoints(message: JointStates, names: seq<string>, frame: Frame) {
    && message.names == names
    && |message.position| == |message.velocity| == |message.effort|
    && (|message.position| == |names| <= |frame.joints| || |message.position| == |frame.joints| <= |names|)
    && forall i :: 0 <= i < |message.position| ==>
         && message.position[i] == frame.joints[i].q && message.velocity[i] == frame.joints[i].dq
         && message.effort[i] == frame.joints[i].tau
  }

  lemma JointStatesShow(names: seq<string>, frame: Frame)
    ensures ShowsJoints(JointStatesOf(names, frame), names, frame)
  {
  }

  // What a status tick does: it caches first and publishes what it then has.
  lemma TickPublishes(sys: System, env: Env, read: Read)
    requires sys.s.setup.statusTimer.Some? && Coherent(CachedState(sys.s, env).memory, read)
    ensures var output, setup := Step(sys, StatusTick(env)).output, sys.s.setup;
            output == Published(
              if setup.statusPub.Live? then Some(BuildStatus(CachedState(sys.s, env), env, FrameOf(read))) else None,
              if setup.jointPub.Live? && read.Some? then Some(JointStatesOf(setup.jointNames, read.value.0)) else None)
  {
  }

  lemma CachingHolds(s: State, session: Session, env: Env)
    requires Holds(s, session, env)
    ensures Holds(CachedState(s, env), session, env)
    ensures Holds(Cache(s, env.reply, env.replyStamp), session, env)
  {
  }

  lemma TickReads(h: seq<Event>, env: Env)
    requires Run(h).s.setup.statusTimer.Some?
    ensures Run(h + [StatusTick(env)]).s == CachedState(Run(h).s, env)
  {
    RunSnoc(h, StatusTick(env));
  }

  // The status a tick publishes after history h.
  function TickStatus(h: seq<Event>, env: Env): Status {
    BuildStatus(CachedState(Run(h).s, env), env, FrameOf(LastRead(h + [StatusTick(env)])))
  }

  lemma TickStatusTells(h: seq<Event>, env: Env)
    requires Run(h).s.setup.statusTimer.Some?
    ensures ShowsFrame(TickStatus(h, env), LastRead(h + [StatusTick(env)]), |NamesIn(h)|, env.now)
    ensures ShowsSession(TickStatus(h, env), SessionAfter(h, env), env)
  {
    var read := LastRead(h + [StatusTick(env)]);
    RunRemembers(h);
    TickReads(h, env);
    CacheIsTheLastRead(h + [StatusTick(env)]);
    StatusShowsFrame(CachedState(Run(h).s, env), env, read);
    EveryStateHolds(h, env);
    CachingHolds(Run(h).s, SessionAfter(h, env), env);
    BuiltStatusShows(CachedState(Run(h).s, env), env, FrameOf(read), SessionAfter(h, env));
  }

  // Every status published in any run, field by field.
  lemma PublishedStatusTellsHistory(h: seq<Event>, env: Env)
    requires Run(h).s.setup.statusTimer.Some?
    ensures var output := Step(Run(h), StatusTick(env)).output;
            && output.Published?
            && (output.status.Some? <==> Run(h).s.setup.statusPub.Live?)
            && (output.status.Some? ==>
                  && ShowsFrame(output.status.value, LastRead(h + [StatusTick(env)]), |NamesIn(h)|, env.now)
                  && ShowsSession(output.status.value, SessionAfter(h, env), env))
  {
    TickReads(h, env);
    CacheIsTheLastRead(h + [StatusTick(env)]);
    TickPublishes(Run(h), env, LastRead(h + [StatusTick(env)]));
    TickStatusTells(h, env);
  }

  // Every joint state message, likewise: a tick publishes one exactly when its publisher is
  // activated and some frame was read, and it shows the last frame read.
  lemma PublishedJointsTellHistory(h: seq<Event>, env: Env)
    requires Run(h).s.setup.statusTimer.Some?
    ensures var output, read := Step(Run(h), StatusTick(env)).output, LastRead(h + [StatusTick(env)]);
            && output.Published?
            && (output.joints.Some? <==> Run(h).s.setup.jointPub.Live? && read.Some?)
            && (output.joints.Some? ==> ShowsJoints(output.joints.value, NamesIn(h), read.value.0))
  {
    var read := LastRead(h + [StatusTick(env)]);
    TickReads(h, env);
    CacheIsTheLastRead(h + [StatusTick(env)]);
    TickPublishes(Run(h), env, read);
    RunRemembers(h);
    if read.Some? {
      JointStatesShow(NamesIn(h), read.value.0);
    }
  }

  // In an active node the status publisher is activated, and the two others exactly when they
  // were created.
  lemma ActivePublishersIff(h: seq<Event>)
    requires Run(h).primary.Active?
    ensures Run(h).s.setup.statusPub.Live?
    ensures Run(h).s.setup.jointPub.Live? <==> CreatedIn(h, JointTopic)
    ensures Run(h).s.setup.diagPub.Live? <==> CreatedIn(h, DiagnosticsTopic)
  {
    EveryReachableStateIsSound(h);
    PublisherExistsIff(h, JointTopic);
    PublisherExistsIff(h, DiagnosticsTopic);
  }

  // get_status

  lemma GetStatusServes(s: State, timeout: Double, env: Env)
    requires Connected(s, env) && env.outcome.Returns?
    ensures var fetched := Cache(s, env.reply, env.replyStamp);
            Serve(s, Call.GetStatus(timeout), env).response
            == Response(true, Some(Done(Service.GetStatus)), Some(BuildStatus(fetched, env, Some(env.reply))), [])
  {
  }

  lemma GetStatusAnswers(sys: System, timeout: Double, env: Env)
    requires Offers(sys.s, Service.GetStatus) && Connected(sys.s, env) && env.outcome.Returns?
    ensures var fetched := Cache(sys.s, env.reply, env.replyStamp);
            Step(sys, Request(Call.GetStatus(timeout), env)).output
            == Answer(Response(true, Some(Done(Service.GetStatus)),
                               Some(BuildStatus(fetched, env, Some(env.reply))), []))
  {
    StepServes(sys, Call.GetStatus(timeout), env);
    GetStatusServes(sys.s, timeout, env);
  }

  lemma GetStatusIsReached(h: seq<Event>, env: Env)
    requires Serving(h) && LinkUp(h, env)
    ensures Offers(Run(h).s, Service.GetStatus) && Connected(Run(h).s, env)
  {
    SessionFacts(h, env);
    ReachableIff(h, Service.GetStatus);
  }

  // A get_status answer shows the frame that very call returned, not the one the node had cached.
  // (Without a positive timeout the SDK returns its own cached frame.)
  lemma GetStatusShowsItsOwnReply(h: seq<Event>, timeout: Double, env: Env)
    requires Serving(h) && LinkUp(h, env) && env.outcome.Returns?
    ensures var output := Step(Run(h), Request(Call.GetStatus(timeout), env)).output;
            && output.Answer? && output.response.success && output.response.status.Some?
            && ShowsFrame(output.response.status.value, Some((env.reply, env.replyStamp)), |NamesIn(h)|, env.now)
            && ShowsSession(output.response.status.value, SessionAfter(h, env), env)
  {
    var fetched := Cache(Run(h).s, env.reply, env.replyStamp);
    RunRemembers(h);
    GetStatusIsReached(h, env);
    GetStatusAnswers(Run(h), timeout, env);
    StatusShowsFrame(fetched, env, Some((env.reply, env.replyStamp)));
    EveryStateHolds(h, env);
    CachingHolds(Run(h).s, SessionAfter(h, env), env);
    BuiltStatusShows(fetched, env, Some(env.reply), SessionAfter(h, env));
  }

  // Diagnostics ticks

  function When(holds: bool, c: Condition): seq<Condition> {
    if holds then [c] else []
  }

  function FaultsOf(frame: Option<Frame>): seq<Condition> {
    if frame.Some? && frame.value.faulted then [Faulted(frame.value.faultDetail)] else []
  }

  // The conditions a run's diagnostic has to report, in order.
  function ConditionsIn(h: seq<Event>, env: Env): seq<Condition> {
    var frame, license := FrameOf(LastRead(h)), LastLicense(h);
    When(!LinkUp(h, env), LinkDown) + When(SessionIn(h) && env.inDfu, InDfu) + FaultsOf(frame)
    + When(frame.Some? && frame.value.dropHoldInferred, DropHold)
    + When(license.Some? && !license.value.activated, NotLicensed) + When(KeepAliveIn(h).Some?, ZeroGravity)
  }

  lemma HoldingAppends(checks: seq<(bool, Condition)>, holds: bool, c: Condition)
    ensures Holding(checks + [(holds, c)]) == Holding(checks) + When(holds, c)
  {
    assert (checks + [(holds, c)])[..|checks|] == checks;
  }

  lemma HoldingIsListed(f: Facts)
    ensures Holding(Checks(f))
         == When(f.linkDown, LinkDown) + When(f.inDfu, InDfu) + When(f.fault.Some?, FaultOf(f))
            + When(f.dropHold, DropHold) + When(f.notLicensed, NotLicensed) + When(f.zeroG, ZeroGravity)
  {
    var one := [] + [(f.linkDown, LinkDown)];
    var two := one + [(f.inDfu, InDfu)];
    var three := two + [(f.fault.Some?, FaultOf(f))];
    var four := three + [(f.dropHold, DropHold)];
    var five := four + [(f.notLicensed, NotLicensed)];
    HoldingAppends([], f.linkDown, LinkDown);
    HoldingAppends(one, f.inDfu, InDfu);
    HoldingAppends(two, f.fault.Some?, FaultOf(f));
    HoldingAppends(three, f.dropHold, DropHold);
    HoldingAppends(four, f.notLicensed, NotLicensed);
    HoldingAppends(five, f.zeroG, ZeroGravity);
    assert Checks(f) == five + [(f.zeroG, ZeroGravity)];
    assert Holding(one) == [] + When(f.linkDown, LinkDown) == When(f.linkDown, LinkDown);
  }

  lemma HoldingIsWhatTheEventsImply(h: seq<Event>, env: Env)
    ensures Holding(Checks(FactsOf(Run(h).s, env))) == ConditionsIn(h, env)
  {
    SessionFacts(h, env);
    CacheIsTheLastRead(h);
    LicenceIsTheLastRead(h);
    HoldingIsListed(FactsOf(Run(h).s, env));
  }

  predicate ShowsDetails(d: Details, h: seq<Event>, env: Env) {
    var frame, license := FrameOf(LastRead(h)), LastLicense(h);
    && (d.connected <==> LinkUp(h, env))
    && (d.enabled <==> frame.Some? && frame.value.enabled)
    && d.mode == (if frame.Some? then frame.value.modeName else "unknown")
    && d.jointFault == (if frame.Some? then frame.value.jointFault else 0)
    && d.speed == OrHundred(SpeedSinceConfigure(h))
    && (d.zeroGActive <==> KeepAliveIn(h).Some?)
    && d.feedbackAge == AgeOf(LastRead(h), env.now)
    && d.licenseState == (if license.Some? then license.value.stateName else "unknown")
  }

  lemma DetailsTell(h: seq<Event>, env: Env)
    ensures ShowsDetails(DetailsOf(Run(h).s, env), h, env)
  {
    SessionFacts(h, env);
    CacheIsTheLastRead(h);
    LicenceIsTheLastRead(h);
    MirrorIsTheLastWrite(h);
  }

  lemma DiagnosticsTickReports(sys: System, env: Env)
    requires sys.s.setup.diagTimer.Some? && sys.s.setup.diagPub.Live?
    ensures Step(sys, DiagnosticsTick(env)).output
         == Reported(Some(DiagnosticReport(TextsOf(sys.s, env).firmware, DiagnosticOf(FactsOf(sys.s, env)),
                                           DetailsOf(sys.s, env))))
  {
  }

  // The level in the run's own terms: a link down, update mode and a fault in the last frame read are
  // errors; an inferred latch in it and a licence read as not activated are warnings.
  predicate ShowsLevel(level: Level, h: seq<Event>, env: Env) {
    var frame, license := FrameOf(LastRead(h)), LastLicense(h);
    HasLevel(level, !LinkUp(h, env) || (SessionIn(h) && env.inDfu) || (frame.Some? && frame.value.faulted),
             (frame.Some? && frame.value.dropHoldInferred) || (license.Some? && !license.value.activated))
  }

  lemma LevelTells(h: seq<Event>, env: Env)
    ensures ShowsLevel(DiagnosticOf(FactsOf(Run(h).s, env)).level, h, env)
  {
    SessionFacts(h, env);
    CacheIsTheLastRead(h);
    LicenceIsTheLastRead(h);
    LevelIsDecidedBy(FactsOf(Run(h).s, env));
  }

  // Every diagnostic published in any run: its text lists exactly the conditions the run implies,
  // in order, and is "ok" without any; its level is their worst severity, attained by one of them;
  // hardware id and key/value part are the run's too.
  lemma PublishedDiagnosticTellsHistory(h: seq<Event>, env: Env)
    requires Run(h).s.setup.diagTimer.Some? && Run(h).s.setup.diagPub.Live?
    ensures var output, conditions := Step(Run(h), DiagnosticsTick(env)).output, ConditionsIn(h, env);
            && output.Reported? && output.diagnostic.Some?
            && ShowsSummary(output.diagnostic.value.summary, conditions)
            && ShowsLevel(output.diagnostic.value.summary.level, h, env)
            && ShowsDetails(output.diagnostic.value.details, h, env)
            && output.diagnostic.value.hardwareId == (if SessionIn(h) then env.firmware else "")
  {
    DiagnosticsTickReports(Run(h), env);
    SummaryTells(FactsOf(Run(h).s, env));
    HoldingIsWhatTheEventsImply(h, env);
    DetailsTell(h, env);
    LevelTells(h, env);
    SessionFacts(h, env);
  }

  predicate ShowsSummary(d: Diagnostic, conditions: seq<Condition>) {
    && (conditions != [] ==> d.message == Joined(conditions))
    && (d.message == "ok" <==> conditions == [])
    && (forall c :: c in conditions ==> Rank(Severity(c)) <= Rank(d.level))
    && (d.level == OK || exists c :: c in conditions && Severity(c) == d.level)
  }

  lemma SummaryTells(f: Facts)
    ensures ShowsSummary(DiagnosticOf(f), Holding(Checks(f)))
  {
    DiagnosticIsFaithful(f);
  }
}
