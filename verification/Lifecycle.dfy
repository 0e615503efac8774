// What every reachable state of the node satisfies.
module Lifecycle {
  import opened Wrappers
  import opened Doubles
  import opened Sdk
  import opened DriverSpec
  import opened Supervisor
  import opened Sends
  import opened Handlers
  import opened Registry

  predicate Configured(primary: Primary) {
    primary.Inactive? || primary.Active?
  }

  // Transitions the supervisor takes

  // A configure request taken, whatever became of it.
  predicate Attempts(sys: System, e: Event) {
    e.Configure? && sys.primary.Unconfigured?
  }

  // An activation that got past ENABLE, and so registers the services.
  predicate Registers(sys: System, e: Event) {
    e.Activate? && sys.primary.Inactive? && !(sys.s.setup.config.autoEnable && e.env.outcome.Throws?)
  }

  predicate Clears(sys: System, e: Event) {
    (e.Cleanup? && sys.primary.Inactive?) || (e.Shutdown? && !sys.primary.Finalized?)
  }

  // A transition that withdraws services and timers.
  predicate Withdraws(sys: System, e: Event) {
    (e.Deactivate? && sys.primary.Active?) || Clears(sys, e)
  }

  predicate IsPositive(x: Double) {
    x.PosInf? || (x.Fin? && x.value > 0.0)
  }

  // create_wall_timer raises although a timer is wanted.
  predicate TimerRaises(s: State, env: Env) {
    || (IsPositive(s.setup.config.statusRate) && env.escape.AtStatusTimer?)
    || (!s.setup.diagPub.Absent? && IsPositive(s.setup.config.diagnosticsRate) && env.escape.AtDiagTimer?)
  }

  // How often the services were registered since they were last withdrawn.
  function Registrations(h: seq<Event>): nat {
    if h == [] then 0
    else
      var front, e := h[..|h| - 1], h[|h| - 1];
      if Registers(Run(front), e) then Registrations(front) + 1
      else if Withdraws(Run(front), e) then 0
      else Registrations(front)
  }

  // A timer raised during an activation, after the services were registered, and nothing has
  // withdrawn them since.
  predicate Stranded(h: seq<Event>) {
    h != [] &&
    var front, e := h[..|h| - 1], h[|h| - 1];
    if Registers(Run(front), e) then TimerRaises(Run(front).s, e.env) || Stranded(front)
    else if Withdraws(Run(front), e) then false
    else Stranded(front)
  }

  // The invariant

  // The session object against the primary state, the ports and the keep-alive against the
  // session object: true of every reachable state.
  predicate OwnsLink(sys: System) {
    var s := sys.s;
    && (Configured(sys.primary) ==> s.setup.arm.Some?)
    && (sys.primary.Finalized? ==> s.setup.arm.None?)
    && (s.setup.arm.Some? ==> s.setup.arm.value < s.wire.nextArm)
    && s.wire.open <= (if s.setup.arm.Some? then {s.setup.arm.value} else {})
    && s.wire.peak <= 1
    && (s.wire.open != {} ==> s.wire.peak == 1)
    && (s.wire.keepAlive.Some? ==>
          && s.setup.arm == Some(s.wire.keepAlive.value.owner)
          && GoodPeriod(s.wire.keepAlive.value.period))
    && 0 <= s.memory.speed <= 100
  }

  predicate PublisherFits(p: Publisher, primary: Primary) {
    match p
    case Absent => true
    case Idle => !primary.Active? && !primary.Finalized?
    case Live => primary.Active?
  }

  // An active node's publishers are activated, also on a stranded node.
  predicate Publishes(sys: System) {
    var setup := sys.s.setup;
    && (Configured(sys.primary) ==> !setup.statusPub.Absent?)
    && (sys.primary.Active? ==> !setup.statusPub.Idle? && !setup.jointPub.Idle? && !setup.diagPub.Idle?)
  }

  // Timers, publishers and zero gravity against the primary state: true unless the node is stranded.
  predicate Tidy(sys: System) {
    var s, active := sys.s, sys.primary.Active?;
    && (s.setup.statusTimer.Some? <==> active && IsPositive(s.setup.config.statusRate))
    && (s.setup.diagTimer.Some? <==> active && !s.setup.diagPub.Absent? && IsPositive(s.setup.config.diagnosticsRate))
    && PublisherFits(s.setup.statusPub, sys.primary)
    && PublisherFits(s.setup.jointPub, sys.primary)
    && PublisherFits(s.setup.diagPub, sys.primary)
    && (s.wire.keepAlive.Some? ==> active)
  }

  function Due(primary: Primary): nat {
    if primary.Active? then 1 else 0
  }

  predicate TimersGrouped(setup: Setup) {
    && (setup.statusTimer.Some? ==> setup.statusTimer.value == SDK_GROUP)
    && (setup.diagTimer.Some? ==> setup.diagTimer.value == SDK_GROUP)
  }

  // n registrations stand, and the node is stranded or not.
  predicate Sound(sys: System, n: nat, stranded: bool) {
    && OwnsLink(sys) && Publishes(sys) && TimersGrouped(sys.s.setup)
    && sys.s.setup.services == Copies(n)
    && (if stranded then n > Due(sys.primary) else n == Due(sys.primary) && Tidy(sys))
  }

  // Ports

  lemma DropArmReleases(s: State)
    requires s.wire.open <= (if s.setup.arm.Some? then {s.setup.arm.value} else {})
    ensures DropArm(s).wire.open == {} && DropArm(s).setup.arm.None?
  {
  }

  // A keep-alive is the current session's, so it goes with the session.
  lemma AdoptArmReleases(s: State, env: Env)
    requires s.wire.open <= (if s.setup.arm.Some? then {s.setup.arm.value} else {})
    requires s.wire.keepAlive.Some? ==> s.setup.arm == Some(s.wire.keepAlive.value.owner)
    ensures AdoptArm(s, env).wire.open == {} && AdoptArm(s, env).wire.peak == s.wire.peak
    ensures AdoptArm(s, env).setup.arm.Some? ==> AdoptArm(s, env).setup.arm.value < AdoptArm(s, env).wire.nextArm
    ensures AdoptArm(s, env).wire.keepAlive.None?
    ensures AdoptArm(s, env).setup == s.setup.(arm := AdoptArm(s, env).setup.arm)
    ensures AdoptArm(s, env).memory == s.memory
  {
    DropArmReleases(s);
    DropArmReleases(s.(wire := s.wire.(nextArm := s.wire.nextArm + 1)));
  }

  // Opening a port when no other is open leaves one open port.
  lemma OpenedAlone(w: Wire, id: nat)
    requires w.open == {} && w.peak <= 1
    ensures Opened(w, id).open == {id} && Opened(w, id).peak == 1
  {
    assert {} + {id} == {id};
  }

  lemma ConnectOwnsLink(s: State, env: Env)
    requires s.setup.arm.Some? && s.wire.open == {} && s.wire.peak <= 1
    ensures var t := ConnectArm(s, env);
            && t.wire.open <= {s.setup.arm.value} && t.wire.peak <= 1 && (t.wire.open != {} ==> t.wire.peak == 1)
            && t.wire.nextArm == s.wire.nextArm && t.wire.keepAlive == s.wire.keepAlive
            && t.setup == s.setup && t.memory == s.memory
  {
    OpenedAlone(Sent(s.wire, Command.Connect), s.setup.arm.value);
  }

  lemma ReconnectOwnsLink(s: State, env: Env)
    requires s.setup.arm.Some? && s.wire.open <= {s.setup.arm.value} && s.wire.peak <= 1
    ensures var t := Reconnecting(s, env).state;
            && t.wire.open <= {s.setup.arm.value} && t.wire.peak <= 1 && (t.wire.open != {} ==> t.wire.peak == 1)
            && t.wire.keepAlive == s.wire.keepAlive && t.memory.speed == s.memory.speed
  {
    var closed := Released(Sent(s.wire, Command.Reopen), s.setup.arm.value);
    assert closed.open == {};
    OpenedAlone(closed, s.setup.arm.value);
  }

  // Transitions

  // on_configure touches neither services nor timers.
  lemma OpeningFrame(s: State, env: Env)
    requires s.setup.arm.Some?
    ensures var t := Opening(s, env);
            && t.result != FAILURE
            && t.state.setup.services == s.setup.services
            && t.state.setup.statusTimer == s.setup.statusTimer && t.state.setup.diagTimer == s.setup.diagTimer
            && t.state.memory.speed == s.memory.speed
            && (t.result.SUCCESS? ==> t.state.setup.statusPub.Idle?)
            && (s.setup.statusPub.Live? || !t.state.setup.statusPub.Live?)
            && (s.setup.jointPub.Live? || !t.state.setup.jointPub.Live?)
            && (s.setup.diagPub.Live? || !t.state.setup.diagPub.Live?)
  {
  }

  lemma OpeningOwnsLink(s: State, env: Env)
    requires s.setup.arm.Some? && s.setup.arm.value < s.wire.nextArm
    requires s.wire.open <= {s.setup.arm.value} && s.wire.peak <= 1 && s.wire.keepAlive.None?
    requires s.wire.open != {} ==> s.wire.peak == 1
    ensures var t := Opening(s, env).state;
            && (Opening(s, env).result.SUCCESS? ==> t.setup.arm.Some?)
            && (t.setup.arm.Some? ==> t.setup.arm.value < t.wire.nextArm)
            && t.wire.open <= (if t.setup.arm.Some? then {t.setup.arm.value} else {})
            && t.wire.peak <= 1 && (t.wire.open != {} ==> t.wire.peak == 1) && t.wire.keepAlive.None?
  {
    DropArmReleases(s);
    CreatingKeepsWire(RefreshLicense(NameJoints(s, env), env), env);
  }

  lemma CreatingKeepsWire(s: State, env: Env)
    ensures CreatePublishers(s, env).wire == s.wire && CreatePublishers(s, env).setup.arm == s.setup.arm
  {
  }

  lemma ConfigureSound(s: State, env: Env, n: nat, stranded: bool)
    requires Sound(System(Unconfigured, s), n, stranded)
    ensures Sound(Settle(Unconfigured, Inactive, OnConfigure(s, env), env), n, stranded)
  {
    var blank := Blank(ReadParameters(s));
    if !env.escape.AtFactory? {
      AdoptArmReleases(blank, env);
      var adopted := AdoptArm(blank, env);
      if adopted.setup.arm.Some? {
        ConnectOwnsLink(adopted, env);
        OpeningFrame(ConnectArm(adopted, env), env);
        OpeningOwnsLink(ConnectArm(adopted, env), env);
      }
    }
  }

  lemma StartTimersSound(s: State, env: Env)
    ensures var t := StartTimers(s, env);
            && t.result == (if TimerRaises(s, env) then RAISED else SUCCESS)
            && t.state.wire == s.wire && t.state.memory == s.memory
            && t.state.setup == s.setup.(statusTimer := t.state.setup.statusTimer, diagTimer := t.state.setup.diagTimer)
            && (TimersGrouped(s.setup) ==> TimersGrouped(t.state.setup))
            && (t.result.SUCCESS? && s.setup.statusTimer.None? ==>
                  (t.state.setup.statusTimer.Some? <==> IsPositive(s.setup.config.statusRate)))
            && (t.result.SUCCESS? && s.setup.diagTimer.None? ==>
                  (t.state.setup.diagTimer.Some?
                   <==> !s.setup.diagPub.Absent? && IsPositive(s.setup.config.diagnosticsRate)))
  {
  }

  lemma ActivateSound(s: State, env: Env, n: nat, stranded: bool)
    requires Sound(System(Inactive, s), n, stranded)
    ensures var registers := Registers(System(Inactive, s), Activate(env));
            Sound(Settle(Inactive, Active, OnActivate(s, env), env), if registers then n + 1 else n,
                  stranded || (registers && TimerRaises(s, env)))
  {
    var sent := if s.setup.config.autoEnable then SendEnable(s) else s;
    if Registers(System(Inactive, s), Activate(env)) {
      StartTimersSound(ActivatePublishers(Registering(sent, AllServices())), env);
    }
  }

  lemma DeactivateSound(s: State, env: Env, n: nat, stranded: bool)
    requires Sound(System(Active, s), n, stranded)
    ensures Sound(Settle(Active, Inactive, OnDeactivate(s, env), env), 0, false)
  {
  }

  lemma CleanupReleases(s: State, env: Env)
    requires s.wire.open <= (if s.setup.arm.Some? then {s.setup.arm.value} else {})
    requires s.wire.keepAlive.Some? ==> s.setup.arm == Some(s.wire.keepAlive.value.owner)
    ensures var t := OnCleanup(s, env).state;
            t.setup.arm.None? && t.wire.open == {} && t.wire.keepAlive.None? && t.wire.peak == s.wire.peak
  {
  }

  lemma CleanupSound(primary: Primary, target: Primary, s: State, env: Env, n: nat, stranded: bool)
    requires Sound(System(primary, s), n, stranded) && (target.Unconfigured? || target.Finalized?)
    ensures Sound(Settle(primary, target, OnCleanup(s, env), env), 0, false)
  {
    CleanupReleases(s, env);
  }

  // Requests

  lemma EffectSafe(s: State, call: Call, env: Env)
    requires call.ZeroG? && call.data ==> GoodPeriod(s.setup.params.zeroGPeriod)
    requires call.SetSpeedScaling? ==> call.percent <= 100
    requires 0 <= s.memory.speed <= 100
    ensures var t := Effect(s, call, env);
            && 0 <= t.memory.speed <= 100
            && (t.wire.keepAlive == s.wire.keepAlive || t.wire.keepAlive.None?
                || (GoodPeriod(t.wire.keepAlive.value.period)
                    && Some(t.wire.keepAlive.value.owner) == s.setup.arm))
  {
  }

  lemma ServeOwnsLink(sys: System, call: Call, env: Env)
    requires OwnsLink(sys)
    ensures OwnsLink(sys.(s := Serve(sys.s, call, env).state))
  {
    ServeFrame(sys.s, call, env);
    if call.Reconnect? {
      if sys.s.setup.arm.Some? {
        ReconnectOwnsLink(sys.s, env);
      }
    } else {
      AdmissionAcceptsExactly(sys.s, call, env);
      if Admission(sys.s, call, env).Pass? {
        EffectSafe(Issue(sys.s, call, env), call, env);
      }
    }
  }

  lemma RequestSound(sys: System, call: Call, env: Env, n: nat, stranded: bool)
    requires Sound(sys, n, stranded)
    ensures Sound(Step(sys, Request(call, env)).sys, n, stranded)
  {
    if Offers(sys.s, ServiceOf(call)) {
      StepServes(sys, call, env);
      CopiesOffer(n, ServiceOf(call));
      ServeFrame(sys.s, call, env);
      ServeOwnsLink(sys, call, env);
    }
  }

  function RegistrationsAfter(sys: System, e: Event, n: nat): nat {
    if Registers(sys, e) then n + 1 else if Withdraws(sys, e) then 0 else n
  }

  predicate StrandedAfter(sys: System, e: Event, stranded: bool) {
    if Registers(sys, e) then TimerRaises(sys.s, e.env) || stranded else !Withdraws(sys, e) && stranded
  }

  lemma StepSound(sys: System, e: Event, n: nat, stranded: bool)
    requires Sound(sys, n, stranded)
    ensures Sound(Step(sys, e).sys, RegistrationsAfter(sys, e, n), StrandedAfter(sys, e, stranded))
  {
    if IsTransition(e) {
      TransitionSound(sys, e, n, stranded);
    } else if e.Request? {
      RequestSound(sys, e.call, e.env, n, stranded);
    }
  }

  lemma TransitionSound(sys: System, e: Event, n: nat, stranded: bool)
    requires Sound(sys, n, stranded) && IsTransition(e)
    ensures Sound(Step(sys, e).sys, RegistrationsAfter(sys, e, n), StrandedAfter(sys, e, stranded))
  {
    match e
    case Configure(env) => if sys.primary.Unconfigured? { ConfigureSound(sys.s, env, n, stranded); }
    case Activate(env) => if sys.primary.Inactive? { ActivateSound(sys.s, env, n, stranded); }
    case Deactivate(env) => if sys.primary.Active? { DeactivateSound(sys.s, env, n, stranded); }
    case Cleanup(env) =>
      if sys.primary.Inactive? { CleanupSound(Inactive, Unconfigured, sys.s, env, n, stranded); }
    case Shutdown(env) =>
      if !sys.primary.Finalized? { CleanupSound(sys.primary, Finalized, sys.s, env, n, stranded); }
  }

  // Every run, whatever the order of transitions, parameter changes, requests, ticks, refusals,
  // raised exceptions and lost links.
  lemma {:induction false} EveryReachableStateIsSound(h: seq<Event>)
    ensures Sound(Run(h), Registrations(h), Stranded(h))
  {
    if h == [] {
    } else {
      var front, e := h[..|h| - 1], h[|h| - 1];
      EveryReachableStateIsSound(front);
      StepSound(Run(front), e, Registrations(front), Stranded(front));
    }
  }

  // The 55 services are advertised, each once, exactly while the node is active: this holds of a
  // run's end exactly when no activation was left half-way by a timer that raised. Timers,
  // activated publishers and a keep-alive outside Active mean such an activation too.
  lemma AdvertisedWhileActiveIff(h: seq<Event>)
    ensures var sys := Run(h);
            && (sys.s.setup.services == (if sys.primary.Active? then AllServices() else []) <==> !Stranded(h))
            && |sys.s.setup.services| == 55 * Registrations(h)
            && (Stranded(h) ==> Registrations(h) > Due(sys.primary))
            && (!Stranded(h) ==> Tidy(sys))
            && (Configured(sys.primary) ==> sys.s.setup.arm.Some?)
  {
    EveryReachableStateIsSound(h);
    CopiesShape(Registrations(h));
    CopiesShape(1);
    assert Copies(1) == [] + AllServices() == AllServices();
  }

  // The node answers requests: it is active, or was left stranded.
  predicate Serving(h: seq<Event>) {
    Run(h).primary.Active? || Stranded(h)
  }

  // A request reaches the node exactly then, and its callback is in the one group.
  lemma ReachableIff(h: seq<Event>, s: Service)
    ensures Offers(Run(h).s, s) <==> Serving(h)
    ensures Offers(Run(h).s, s) ==> GroupOf(Run(h).s.setup.services, s) == Some(SDK_GROUP)
  {
    EveryReachableStateIsSound(h);
    CopiesOffer(Registrations(h), s);
  }

  // A run on which no timer creation raises never strands the node.
  lemma {:induction false} StrandedNeedsAnEscape(h: seq<Event>)
    ensures Stranded(h) ==> exists k :: 0 <= k < |h| && h[k].Activate?
                                        && (h[k].env.escape.AtStatusTimer? || h[k].env.escape.AtDiagTimer?)
  {
    if h == [] {
    } else {
      StrandedNeedsAnEscape(h[..|h| - 1]);
    }
  }

  // So as long as none raises: services are advertised, timers exist, publishers are activated and
  // zero gravity runs only in an active node, and a request is answered exactly by one.
  lemma AdvertisedExactlyWhileActive(h: seq<Event>)
    requires forall k :: 0 <= k < |h| && h[k].Activate?
               ==> !h[k].env.escape.AtStatusTimer? && !h[k].env.escape.AtDiagTimer?
    ensures Run(h).s.setup.services == if Run(h).primary.Active? then AllServices() else []
    ensures Tidy(Run(h)) && (Serving(h) <==> Run(h).primary.Active?)
  {
    StrandedNeedsAnEscape(h);
    AdvertisedWhileActiveIff(h);
  }

  // No run ever has two ports open, not even inside a transition, and an open one is arm_'s.
  lemma OneLinkEver(h: seq<Event>)
    ensures Run(h).s.wire.peak <= 1
    ensures forall id :: id in Run(h).s.wire.open ==> Run(h).s.setup.arm == Some(id)
  {
    EveryReachableStateIsSound(h);
  }
}
