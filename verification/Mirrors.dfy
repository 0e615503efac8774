// What the node remembers of the firmware, against what the run delivered.
module Mirrors {
  import opened Wrappers
  import opened JointNames
  import opened Sdk
  import opened DriverSpec
  import opened Supervisor
  import opened Sends
  import opened Handlers
  import opened Lifecycle
  import opened Histories

  // The session cache

  predicate Coherent(m: Memory, read: Option<(Frame, real)>) {
    match read
    case None => !m.haveState && m.stamp == 0.0
    case Some((frame, stamp)) => m.haveState && m.lastState == frame && m.stamp == stamp
  }

  lemma OpeningMemory(s: State, env: Env)
    requires s.setup.arm.Some?
    ensures var t := Opening(s, env).state.memory;
            && t.haveState == s.memory.haveState && t.stamp == s.memory.stamp && t.speed == s.memory.speed
            && (t.license, t.licenseValid)
               == (if env.connect.Returns? && !env.escape.AtAxes? && !WrongNames(s.setup.jointNames, env)
                      && env.license.Some?
                   then (env.license.value, true) else (s.memory.license, s.memory.licenseValid))
  {
  }

  // What a configure attempt leaves remembered, wherever it stops.
  lemma ConfigureMemory(s: State, env: Env)
    ensures var t := OnConfigure(s, env).state.memory;
            && !t.haveState && t.stamp == 0.0 && t.speed == 100
            && Licensed(t, if Opens(s.setup.params, env) then env.license else None)
  {
    var adopted := AdoptArm(Blank(ReadParameters(s)), env);
    assert adopted.memory == Blank(s).memory;
    assert adopted.setup == ReadParameters(s).setup.(arm := adopted.setup.arm);
    if !env.escape.AtFactory? && adopted.setup.arm.Some? {
      OpeningMemory(ConnectArm(adopted, env), env);
    }
  }

  lemma ServeMemory(s: State, call: Call, env: Env)
    requires Offers(s, ServiceOf(call))
    ensures var e, t := Request(call, env), Serve(s, call, env).state.memory;
            && t.speed == (if Written(s, e).Some? then Written(s, e).value else s.memory.speed)
            && Keeping(t, s.memory, Delivered(s, e))
  {
  }

  lemma ActivateMemory(s: State, env: Env)
    ensures OnActivate(s, env).state.memory == s.memory
  {
  }

  // A remembered frame, its flag and its stamp after an event that delivered a read, or none.
  predicate Keeping(t: Memory, m: Memory, read: Option<(Frame, real)>) {
    match read
    case None => t.haveState == m.haveState && t.lastState == m.lastState && t.stamp == m.stamp
    case Some((frame, stamp)) => t.haveState && t.lastState == frame && t.stamp == stamp
  }

  lemma RequestMemory(sys: System, e: Event)
    requires e.Request?
    ensures var t, w := Step(sys, e).sys.s.memory, Written(sys.s, e);
            && t.speed == (if w.Some? then w.value else sys.s.memory.speed)
            && Keeping(t, sys.s.memory, Delivered(sys.s, e))
  {
    if Offers(sys.s, ServiceOf(e.call)) {
      ServeMemory(sys.s, e.call, e.env);
    }
  }

  lemma StepMemory(sys: System, e: Event)
    ensures var t, w := Step(sys, e).sys.s.memory, Written(sys.s, e);
            if Attempts(sys, e) then !t.haveState && t.stamp == 0.0 && t.speed == 100
            else
              && t.speed == (if w.Some? then w.value else sys.s.memory.speed)
              && if Clears(sys, e) then !t.haveState && t.stamp == 0.0
                 else Keeping(t, sys.s.memory, Delivered(sys.s, e))
  {
    match e
    case Configure(env) => ConfigureMemory(sys.s, env);
    case Activate(env) => ActivateMemory(sys.s, env);
    case Request(_, _) => RequestMemory(sys, e);
    case _ =>
  }

  // In every reachable state the cache is the last frame/stamp pair that one SDK read delivered
  // since the latest configure attempt or cleanup, kept together; a read that raised and a read
  // without a frame leave no trace.
  lemma {:induction false} CacheIsTheLastRead(h: seq<Event>)
    ensures Coherent(Run(h).s.memory, LastRead(h))
  {
    if h == [] {
    } else {
      var front, e := h[..|h| - 1], h[|h| - 1];
      CacheIsTheLastRead(front);
      StepMemory(Run(front), e);
    }
  }

  // The age a status message reports: -1 just when nothing was read yet (or the SDK stamped the
  // frame with a non-positive time), else the time since the last read.
  lemma ReportedAge(h: seq<Event>, env: Env, given: Option<Frame>)
    ensures BuildStatus(Run(h).s, env, given).feedbackAge
         == match LastRead(h)
            case None => -1.0
            case Some((_, stamp)) => if stamp <= 0.0 then -1.0 else env.now - stamp
  {
    CacheIsTheLastRead(h);
  }

  // Configuring

  lemma OpeningResult(s: State, env: Env)
    requires s.setup.arm.Some?
    ensures var t, keeps := Opening(s, env),
                            env.connect.Returns? && (env.escape.AtAxes? || !WrongNames(s.setup.jointNames, env));
            && t.state.setup.arm == (if keeps then s.setup.arm else None)
            && t.result == (if !keeps then FATAL
                            else if env.escape.AtAxes? || FinishRaises(s.setup.config, env) then RAISED
                            else SUCCESS)
  {
  }

  // Nothing raising, a session that opens and connects is configured exactly when no names were
  // supplied or there is one for each axis.
  lemma ConfigureTakesFittingNames(s: State, env: Env)
    requires env.factoryReturns && env.connect.Returns? && env.escape.NoEscape?
    ensures var names := s.setup.params.jointNames;
            OnConfigure(s, env).result == if names == [] || |names| == env.axes then SUCCESS else FATAL
  {
    ConfigureSucceedsIff(s, env);
  }

  // Configuring succeeds exactly when the session opens, a supplied name list has one name per
  // axis and nothing raises. Every error the code answers itself leaves no session behind; an
  // exception that leaves the callback keeps the session there is at that point.
  lemma ConfigureSucceedsIff(s: State, env: Env)
    ensures var t, p := OnConfigure(s, env), s.setup.params;
            && (t.result.SUCCESS? <==> Opens(p, env) && !LaterRaises(p, env))
            && (t.result.FATAL? ==> t.state.setup.arm.None?)
            && !t.result.FAILURE?
            && (t.result.RAISED? <==> env.escape.AtFactory? || (Keeps(p, env) && !t.result.SUCCESS?))
            && (env.escape.AtFactory? ==> t.state.setup.arm == s.setup.arm && t.state.wire == s.wire)
            && (!env.escape.AtFactory? ==> (t.state.setup.arm.Some? <==> Keeps(p, env)))
  {
    var adopted := AdoptArm(Blank(ReadParameters(s)), env);
    assert adopted.setup == ReadParameters(s).setup.(arm := adopted.setup.arm);
    if !env.escape.AtFactory? && adopted.setup.arm.Some? {
      OpeningResult(ConnectArm(adopted, env), env);
    }
  }

  // The names it then works with: the supplied list, or one derived name per axis, all distinct.
  lemma ConfigureNamesEveryAxis(s: State, env: Env)
    requires Opens(s.setup.params, env)
    ensures var names, supplied := OnConfigure(s, env).state.setup.jointNames, s.setup.params.jointNames;
            && |names| == env.axes
            && (supplied != [] ==> names == supplied)
            && (supplied == [] ==> forall i, j :: 0 <= i < j < |names| ==> names[i] != names[j])
  {
    ConfigureRemembers(s, env);
    DerivedNamesAreDistinct(env.axes);
  }

  // The licence record

  predicate Licensed(m: Memory, read: Option<License>) {
    m.licenseValid == read.Some? && (read.Some? ==> m.license == read.value)
  }

  lemma ServeLicense(s: State, call: Call, env: Env, last: Option<License>)
    requires Licensed(s.memory, last)
    ensures var renewed := call.Reconnect? && s.setup.arm.Some? && env.outcome.Returns? && env.license.Some?;
            Licensed(Serve(s, call, env).state.memory, if renewed then env.license else last)
  {
  }

  lemma ReconnectReads(sys: System, call: Call, env: Env)
    requires Offers(sys.s, ServiceOf(call))
    ensures LicenseRead(sys, Request(call, env))
         == if call.Reconnect? && sys.s.setup.arm.Some? && env.outcome.Returns? then env.license else None
  {
  }

  lemma RequestLicense(sys: System, e: Event, last: Option<License>)
    requires Licensed(sys.s.memory, last) && e.Request?
    ensures Licensed(Step(sys, e).sys.s.memory, if LicenseRead(sys, e).Some? then LicenseRead(sys, e) else last)
  {
    if Offers(sys.s, ServiceOf(e.call)) {
      StepServes(sys, e.call, e.env);
      ReconnectReads(sys, e.call, e.env);
      ServeLicense(sys.s, e.call, e.env, last);
    }
  }

  lemma OtherLicense(sys: System, e: Event, last: Option<License>)
    requires Licensed(sys.s.memory, last) && !e.Request? && !e.Configure?
    ensures Licensed(Step(sys, e).sys.s.memory, if Clears(sys, e) then None else last)
  {
    if e.Activate? {
      ActivateMemory(sys.s, e.env);
    }
  }

  lemma StepLicense(sys: System, e: Event, last: Option<License>)
    requires Licensed(sys.s.memory, last)
    ensures Licensed(Step(sys, e).sys.s.memory,
                     if Attempts(sys, e) then LicenseRead(sys, e)
                     else if Clears(sys, e) then None
                     else if LicenseRead(sys, e).Some? then LicenseRead(sys, e)
                     else last)
  {
    if e.Configure? {
      ConfigureMemory(sys.s, e.env);
    } else if e.Request? {
      RequestLicense(sys, e, last);
    } else {
      OtherLicense(sys, e, last);
    }
  }

  // The licence fields are those of the last read that returned since the latest configure
  // attempt or cleanup: a failed reconnect leaves the previous record standing.
  lemma {:induction false} LicenceIsTheLastRead(h: seq<Event>)
    ensures Licensed(Run(h).s.memory, LastLicense(h))
  {
    if h == [] {
    } else {
      var front, e := h[..|h| - 1], h[|h| - 1];
      LicenceIsTheLastRead(front);
      StepLicense(Run(front), e, LastLicense(front));
    }
  }

  // The record is documented to be read on activation too. No activation reads it; so what an
  // activation leaves is the device's record exactly when the last read before it had returned
  // that very record (None: the device refuses the read, and none is shown).
  lemma ActivationShowsDeviceRecordIff(h: seq<Event>, env: Env)
    requires Run(h).primary.Inactive?
    ensures Licensed(Run(h + [Activate(env)]).s.memory, env.license) <==> LastLicense(h) == env.license
  {
    LicenceIsTheLastRead(h);
    RunSnoc(h, Activate(env));
    ActivateMemory(Run(h).s, env);
  }

  lemma ActivationNeverReadsTheLicence(sys: System, env: Env)
    ensures Command.ReadLicense !in EventSends(sys, Activate(env))
  {
  }

  // The speed mirror

  function OrHundred(p: Option<nat>): int {
    if p.Some? then p.value else 100
  }

  lemma WrittenInRange(s: State, e: Event)
    ensures Written(s, e).Some? ==> Written(s, e).value <= 100
  {
    if e.Request? {
      AdmissionAcceptsExactly(s, e.call, e.env);
    }
  }

  lemma {:induction false} MirrorIsTheLastWrite(h: seq<Event>)
    ensures Run(h).s.memory.speed == OrHundred(SpeedSinceConfigure(h))
    ensures SpeedSinceConfigure(h).Some? ==> SpeedEver(h) == SpeedSinceConfigure(h) && SpeedEver(h).value <= 100
  {
    if h == [] {
    } else {
      var front, e := h[..|h| - 1], h[|h| - 1];
      MirrorIsTheLastWrite(front);
      StepMemory(Run(front), e);
      WrittenInRange(Run(front).s, e);
    }
  }

  // The status message documents its speed as the percentage last written. That is what it shows
  // exactly when that write came after the latest configure attempt, or wrote 100: configuring
  // resets the mirror while the firmware keeps the value.
  lemma MirrorShowsLastWrittenIff(h: seq<Event>)
    requires SpeedEver(h).Some?
    ensures Run(h).s.memory.speed == SpeedEver(h).value
       <==> SpeedSinceConfigure(h).Some? || SpeedEver(h) == Some(100)
  {
    MirrorIsTheLastWrite(h);
  }

  // The session and its port

  predicate PortOpen(sys: System) {
    sys.s.wire.open != {}
  }

  lemma OpeningPort(s: State, env: Env)
    requires s.setup.arm.Some?
    ensures var t, id := Opening(s, env).state, s.setup.arm.value;
            t.wire.open == if t.setup.arm.Some? then s.wire.open else s.wire.open - {id}
  {
    CreatingKeepsWire(RefreshLicense(NameJoints(s, env), env), env);
  }

  // A configure attempt whose factory did not raise ends with its session's port open, or none.
  lemma ConfigurePort(s: State, env: Env)
    requires OwnsLink(System(Unconfigured, s)) && !env.escape.AtFactory?
    ensures var t := OnConfigure(s, env).state;
            && (t.setup.arm.Some? <==> Keeps(s.setup.params, env))
            && (t.wire.open != {} <==> Keeps(s.setup.params, env))
            && t.wire.keepAlive.None?
  {
    ConfigureSucceedsIff(s, env);
    var blank := Blank(ReadParameters(s));
    AdoptArmReleases(blank, env);
    var adopted := AdoptArm(blank, env);
    if adopted.setup.arm.Some? {
      var tried := ConnectArm(adopted, env);
      ConnectOwnsLink(adopted, env);
      OpeningPort(tried, env);
      OpeningOwnsLink(tried, env);
      assert env.connect.Returns? ==> adopted.setup.arm.value in tried.wire.open;
    }
  }

  lemma StepSession(sys: System, e: Event)
    requires OwnsLink(sys)
    ensures var t := Step(sys, e).sys;
            t.s.setup.arm.Some? <==>
              if Attempts(sys, e) && !e.env.escape.AtFactory? then Keeps(sys.s.setup.params, e.env)
              else !Clears(sys, e) && sys.s.setup.arm.Some?
  {
    if !IsTransition(e) {
      OtherEventsKeepSetup(sys, e);
    } else {
      match e
      case Configure(env) => ConfigureSucceedsIff(sys.s, env);
      case Cleanup(env) => if sys.primary.Inactive? { CleanupReleases(sys.s, env); }
      case Shutdown(env) => if !sys.primary.Finalized? { CleanupReleases(sys.s, env); }
      case Activate(env) => ActivateKeepsLink(sys.s, env);
      case _ =>
    }
  }

  lemma ActivateKeepsLink(s: State, env: Env)
    ensures var t := OnActivate(s, env);
            && t.state.setup.arm == s.setup.arm && t.state.setup.jointPub.Absent? == s.setup.jointPub.Absent?
            && t.state.setup.diagPub.Absent? == s.setup.diagPub.Absent?
            && t.state.setup.statusPub.Absent? == s.setup.statusPub.Absent?
            && t.state.wire.open == s.wire.open && t.state.wire.keepAlive == s.wire.keepAlive
            && (s.setup.arm.Some? ==> (t.result.SUCCESS?
                  <==> !(s.setup.config.autoEnable && env.outcome.Throws?) && !TimerRaises(s, env)))
            && t.result != FAILURE
  {
    var sent := if s.setup.config.autoEnable then SendEnable(s) else s;
    StartTimersSound(ActivatePublishers(Registering(sent, AllServices())), env);
  }

  lemma ReconnectPort(s: State, env: Env)
    requires s.setup.arm.Some? && s.wire.open <= {s.setup.arm.value} && s.wire.peak <= 1
    ensures Reconnecting(s, env).state.wire.open != {} <==> env.outcome.Returns? || env.portLeftOpen
  {
    var closed := Released(Sent(s.wire, Command.Reopen), s.setup.arm.value);
    assert closed.open == {};
    OpenedAlone(closed, s.setup.arm.value);
  }

  lemma RequestPort(sys: System, call: Call, env: Env)
    requires OwnsLink(sys) && Offers(sys.s, ServiceOf(call))
    ensures Serve(sys.s, call, env).state.wire.open != {}
       <==> if call.Reconnect? && sys.s.setup.arm.Some? then env.outcome.Returns? || env.portLeftOpen else PortOpen(sys)
  {
    if call.Reconnect? && sys.s.setup.arm.Some? {
      ReconnectPort(sys.s, env);
    } else {
      ServeKeepsPort(sys.s, call, env);
    }
  }

  lemma OtherEventsPort(sys: System, e: Event)
    requires OwnsLink(sys) && !IsTransition(e)
    ensures PortOpen(Step(sys, e).sys) <==>
              if Reopens(sys.s, e) then e.env.outcome.Returns? || e.env.portLeftOpen else PortOpen(sys)
  {
    if e.Request? {
      ReopensIff(sys.s, e.call, e.env);
      if Offers(sys.s, ServiceOf(e.call)) {
        StepServes(sys, e.call, e.env);
        RequestPort(sys, e.call, e.env);
      }
    }
  }

  lemma ReopensIff(s: State, call: Call, env: Env)
    ensures Reopens(s, Request(call, env)) <==> Offers(s, ServiceOf(call)) && call.Reconnect? && s.setup.arm.Some?
  {
  }

  lemma ServeKeepsPort(s: State, call: Call, env: Env)
    requires !(call.Reconnect? && s.setup.arm.Some?)
    ensures Serve(s, call, env).state.wire.open == s.wire.open
  {
    ServeFrame(s, call, env);
  }

  lemma TransitionPort(sys: System, e: Event)
    requires OwnsLink(sys) && IsTransition(e) && !e.Configure?
    ensures PortOpen(Step(sys, e).sys) <==> !Clears(sys, e) && PortOpen(sys)
  {
    match e
    case Cleanup(env) => if sys.primary.Inactive? { CleanupReleases(sys.s, env); }
    case Shutdown(env) => if !sys.primary.Finalized? { CleanupReleases(sys.s, env); }
    case Activate(env) => ActivateKeepsLink(sys.s, env);
    case _ =>
  }

  lemma AttemptPort(sys: System, env: Env)
    requires OwnsLink(sys) && sys.primary.Unconfigured?
    ensures var w := Step(sys, Configure(env)).sys.s.wire;
            if env.escape.AtFactory? then w == sys.s.wire
            else (w.open != {} <==> Keeps(sys.s.setup.params, env)) && w.keepAlive.None?
  {
    ConfigureSucceedsIff(sys.s, env);
    if !env.escape.AtFactory? {
      ConfigurePort(sys.s, env);
    }
  }

  lemma StepPort(sys: System, e: Event)
    requires OwnsLink(sys)
    ensures PortOpen(Step(sys, e).sys) <==>
              if Attempts(sys, e) && !e.env.escape.AtFactory? then Keeps(sys.s.setup.params, e.env)
              else if Reopens(sys.s, e) then e.env.outcome.Returns? || e.env.portLeftOpen
              else !Clears(sys, e) && PortOpen(sys)
  {
    if !IsTransition(e) {
      OtherEventsPort(sys, e);
    } else if Attempts(sys, e) {
      AttemptPort(sys, e.env);
    } else if !e.Configure? {
      TransitionPort(sys, e);
    }
  }

  // After any run the node has a session, and the port is open, exactly as the events imply.
  lemma {:induction false} SessionAndPortFollowTheEvents(h: seq<Event>)
    ensures Run(h).s.setup.arm.Some? <==> SessionIn(h)
    ensures PortOpen(Run(h)) <==> PortOpenIn(h)
  {
    if h == [] {
    } else {
      var front, e := h[..|h| - 1], h[|h| - 1];
      SessionAndPortFollowTheEvents(front);
      EveryReachableStateIsSound(front);
      RunRemembers(front);
      StepSession(Run(front), e);
      StepPort(Run(front), e);
    }
  }

  // The keep-alive

  function PeriodOf(w: Wire): Option<Doubles.Double> {
    if w.keepAlive.Some? then Some(w.keepAlive.value.period) else None
  }

  lemma ServeKeepAlive(s: State, call: Call, env: Env)
    requires Offers(s, ServiceOf(call))
    ensures var e := Request(call, env);
            PeriodOf(Serve(s, call, env).state.wire)
            == if Succeeds(s, e) && call == Call.ZeroG(true) then Some(s.setup.params.zeroGPeriod)
               else if Reaches(s, e) && call == Call.ZeroG(false) then None
               else PeriodOf(s.wire)
  {
  }

  lemma TransitionKeepAlive(sys: System, e: Event)
    requires OwnsLink(sys) && IsTransition(e) && !e.Configure?
    ensures PeriodOf(Step(sys, e).sys.s.wire) == if Withdraws(sys, e) then None else PeriodOf(sys.s.wire)
  {
    match e
    case Cleanup(env) => if sys.primary.Inactive? { CleanupReleases(sys.s, env); }
    case Shutdown(env) => if !sys.primary.Finalized? { CleanupReleases(sys.s, env); }
    case Activate(env) => ActivateKeepsLink(sys.s, env);
    case _ =>
  }

  lemma RequestKeepAlive(sys: System, e: Event)
    requires e.Request?
    ensures PeriodOf(Step(sys, e).sys.s.wire)
         == if Succeeds(sys.s, e) && e.call == Call.ZeroG(true) then Some(sys.s.setup.params.zeroGPeriod)
            else if Reaches(sys.s, e) && e.call == Call.ZeroG(false) then None
            else PeriodOf(sys.s.wire)
  {
    if Offers(sys.s, ServiceOf(e.call)) {
      ServeKeepAlive(sys.s, e.call, e.env);
    }
  }

  lemma StepKeepAlive(sys: System, e: Event)
    requires OwnsLink(sys)
    ensures PeriodOf(Step(sys, e).sys.s.wire)
         == if e.KeepAliveDies? || Withdraws(sys, e) then None
            else if Attempts(sys, e) && !e.env.escape.AtFactory? then None
            else if Succeeds(sys.s, e) && e.call == Call.ZeroG(true) then Some(sys.s.setup.params.zeroGPeriod)
            else if Reaches(sys.s, e) && e.call == Call.ZeroG(false) then None
            else PeriodOf(sys.s.wire)
  {
    if e.Request? {
      RequestKeepAlive(sys, e);
    } else if Attempts(sys, e) {
      AttemptPort(sys, e.env);
    } else if IsTransition(e) && !e.Configure? {
      TransitionKeepAlive(sys, e);
    }
  }

  // After any run zero gravity is on, with the period it was entered with, exactly as the events imply.
  lemma {:induction false} KeepAliveFollowsTheEvents(h: seq<Event>)
    ensures PeriodOf(Run(h).s.wire) == KeepAliveIn(h)
  {
    if h == [] {
    } else {
      var front, e := h[..|h| - 1], h[|h| - 1];
      KeepAliveFollowsTheEvents(front);
      EveryReachableStateIsSound(front);
      RunRemembers(front);
      StepKeepAlive(Run(front), e);
    }
  }

  // The session of an unconfigured node

  lemma StepInterrupted(sys: System, e: Event, interrupted: bool)
    requires OwnsLink(sys)
    requires sys.primary.Unconfigured? ==> (sys.s.setup.arm.Some? <==> interrupted)
    requires interrupted ==> sys.primary.Unconfigured?
    ensures var t, p := Step(sys, e).sys, sys.s.setup.params;
            var after := if e.Activate? && sys.primary.Inactive? then
                           (sys.s.setup.config.autoEnable && e.env.outcome.Throws?) || TimerRaises(sys.s, e.env)
                         else if Attempts(sys, e) then
                           if e.env.escape.AtFactory? then interrupted
                           else Keeps(p, e.env) && (e.env.escape.AtAxes? || LaterRaises(p, e.env))
                         else !Clears(sys, e) && interrupted;
            && (t.primary.Unconfigured? ==> (t.s.setup.arm.Some? <==> after))
            && (after ==> t.primary.Unconfigured?)
  {
    if !IsTransition(e) {
      OtherEventsKeepSetup(sys, e);
    } else {
      StepSession(sys, e);
      match e
      case Configure(env) => ConfigureSucceedsIff(sys.s, env);
      case Activate(env) => ActivateKeepsLink(sys.s, env);
      case _ =>
    }
  }

  // An unconfigured node still owns a session exactly when the latest transition it took stopped
  // half-way: an activation the firmware refused (on_activate answers ERROR, on_error recovers to
  // Unconfigured, not to Inactive, and neither drops the session), or an exception that left a
  // callback. Every other way there leaves none.
  lemma {:induction false} UnconfiguredHoldsSessionIff(h: seq<Event>)
    ensures Run(h).primary.Unconfigured? ==> (Run(h).s.setup.arm.Some? <==> Interrupted(h))
    ensures Interrupted(h) ==> Run(h).primary.Unconfigured?
  {
    if h == [] {
    } else {
      var front, e := h[..|h| - 1], h[|h| - 1];
      UnconfiguredHoldsSessionIff(front);
      EveryReachableStateIsSound(front);
      RunRemembers(front);
      StepInterrupted(Run(front), e, Interrupted(front));
    }
  }

  // The two publishers a parameter decides about

  function PublisherOf(setup: Setup, topic: Topic): Publisher {
    match topic
    case StatusTopic => setup.statusPub
    case JointTopic => setup.jointPub
    case DiagnosticsTopic => setup.diagPub
  }

  lemma OpeningCreates(s: State, env: Env, topic: Topic)
    requires s.setup.arm.Some?
    ensures var t, opens := Opening(s, env).state,
                            env.connect.Returns? && !env.escape.AtAxes? && !WrongNames(s.setup.jointNames, env);
            PublisherOf(t.setup, topic)
            == if opens && Wanted(s.setup.config, topic)
                  && !env.escape.AtStatusPublisher?
                  && (!topic.StatusTopic? ==> !(s.setup.config.publishJointStates && env.escape.AtJointPublisher?))
                  && (topic.DiagnosticsTopic? ==> !env.escape.AtDiagPublisher?)
               then Idle else PublisherOf(s.setup, topic)
  {
  }

  lemma ConfigureCreates(s: State, env: Env, topic: Topic)
    ensures PublisherOf(OnConfigure(s, env).state.setup, topic)
         == if Creates(s.setup.params, env, topic) then Idle else PublisherOf(s.setup, topic)
  {
    var adopted := AdoptArm(Blank(ReadParameters(s)), env);
    assert adopted.setup == ReadParameters(s).setup.(arm := adopted.setup.arm);
    if !env.escape.AtFactory? && adopted.setup.arm.Some? {
      OpeningCreates(ConnectArm(adopted, env), env, topic);
    }
  }

  lemma StepPublisher(sys: System, e: Event, topic: Topic)
    ensures var t := Step(sys, e).sys;
            !PublisherOf(t.s.setup, topic).Absent?
            <==> if Attempts(sys, e) && Creates(sys.s.setup.params, e.env, topic) then true
                 else !Clears(sys, e) && !PublisherOf(sys.s.setup, topic).Absent?
  {
    if !IsTransition(e) {
      OtherEventsKeepSetup(sys, e);
    } else {
      match e
      case Configure(env) =>
        ConfigureCreates(sys.s, env, topic);
        ConfigureRemembers(sys.s, env);
      case Activate(env) => ActivateKeepsLink(sys.s, env);
      case _ =>
    }
  }

  // Each publisher exists exactly when some configure since the last
  // cleanup got as far as creating it.
  lemma {:induction false} PublisherExistsIff(h: seq<Event>, topic: Topic)
    ensures !PublisherOf(Run(h).s.setup, topic).Absent? <==> CreatedIn(h, topic)
  {
    if h == [] {
    } else {
      var front, e := h[..|h| - 1], h[|h| - 1];
      PublisherExistsIff(front, topic);
      RunRemembers(front);
      StepPublisher(Run(front), e, topic);
    }
  }

  // The configured states are entered only by a configure that succeeded.
  lemma StepConfigured(sys: System, e: Event)
    ensures var t := Step(sys, e).sys;
            && (Configured(t.primary) && !Attempts(sys, e) ==> Configured(sys.primary) && !Clears(sys, e))
            && (Attempts(sys, e) && Configured(t.primary)
                ==> Opens(sys.s.setup.params, e.env) && !LaterRaises(sys.s.setup.params, e.env))
  {
    if e.Configure? {
      ConfigureSucceedsIff(sys.s, e.env);
    }
  }

  lemma {:induction false} ConfiguredWithImpliesCreated(h: seq<Event>, topic: Topic)
    requires Configured(Run(h).primary) && Wanted(ConfigIn(h), topic)
    ensures CreatedIn(h, topic)
  {
    if h == [] {
    } else {
      var front, e := h[..|h| - 1], h[|h| - 1];
      RunRemembers(front);
      StepConfigured(Run(front), e);
      if !Attempts(Run(front), e) {
        ConfiguredWithImpliesCreated(front, topic);
      }
    }
  }

  // publish_joint_states and publish_diagnostics are documented to decide whether their topic is
  // published. In an active node they do exactly when the parameter is on, or no configure since
  // the last cleanup created the publisher.
  lemma TopicFollowsTheParameterIff(h: seq<Event>, topic: Topic)
    requires Run(h).primary.Active?
    ensures (PublisherOf(Run(h).s.setup, topic).Live? <==> Wanted(ConfigIn(h), topic))
       <==> Wanted(ConfigIn(h), topic) || !CreatedIn(h, topic)
  {
    EveryReachableStateIsSound(h);
    PublisherExistsIff(h, topic);
    if Wanted(ConfigIn(h), topic) {
      ConfiguredWithImpliesCreated(h, topic);
    }
  }

  // The diagnostics timer goes by the publisher, not by the parameter.
  lemma DiagnosticsTimerIff(h: seq<Event>)
    requires Run(h).primary.Active? && !Stranded(h)
    ensures Run(h).s.setup.diagTimer.Some?
       <==> CreatedIn(h, DiagnosticsTopic) && IsPositive(ConfigIn(h).diagnosticsRate)
  {
    AdvertisedWhileActiveIff(h);
    PublisherExistsIff(h, DiagnosticsTopic);
    RunRemembers(h);
  }

  // What a handler asks about the session

  // The port is open and the reader behind it alive.
  predicate LinkUp(h: seq<Event>, env: Env) {
    PortOpenIn(h) && env.alive
  }

  lemma LinkIsTheOpenPort(sys: System, env: Env)
    requires OwnsLink(sys)
    ensures Connected(sys.s, env) <==> PortOpen(sys) && env.alive
    ensures ZeroGActive(sys.s) <==> sys.s.wire.keepAlive.Some?
  {
    if sys.s.wire.open != {} {
      var id :| id in sys.s.wire.open;
      assert sys.s.setup.arm == Some(id);
    }
  }

  lemma SessionFacts(h: seq<Event>, env: Env)
    ensures Connected(Run(h).s, env) <==> LinkUp(h, env)
    ensures ZeroGActive(Run(h).s) <==> KeepAliveIn(h).Some?
    ensures Run(h).s.setup.arm.Some? <==> SessionIn(h)
  {
    EveryReachableStateIsSound(h);
    LinkIsTheOpenPort(Run(h), env);
    SessionAndPortFollowTheEvents(h);
    KeepAliveFollowsTheEvents(h);
  }

  // motors_enabled: a session, and a frame in the SDK's cache that says so.
  lemma MotorsAreSeenEnabledIff(h: seq<Event>, env: Env)
    ensures MotorsEnabled(Run(h).s, env) <==> SessionIn(h) && SeenEnabled(env)
  {
    SessionAndPortFollowTheEvents(h);
  }
}
