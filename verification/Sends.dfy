// What each event puts on the link, and which event put each logged command there.
module Sends {
  import opened Sdk
  import opened DriverSpec
  import opened Supervisor

  // A request that got past its gates with the link up.
  predicate Forwarded(s: State, call: Call, env: Env) {
    Admission(s, call, env).Pass? && Connected(s, env)
  }

  function ReconnectSends(s: State, env: Env): seq<Command> {
    if s.setup.arm.None? then []
    else if env.outcome.Throws? then [Command.Reopen]
    else [Command.Reopen, Command.ReadLicense]
  }

  function ServeSends(s: State, call: Call, env: Env): seq<Command> {
    if call.Reconnect? then ReconnectSends(s, env)
    else if call.GetFeedforwardCatalog? || !Forwarded(s, call, env) then []
    else CommandOf(s, call, env)
  }

  function ConfigureSends(s: State, env: Env): seq<Command> {
    if env.escape.AtFactory? || !env.factoryReturns then []
    else if env.connect.Throws? || env.escape.AtAxes? || WrongNames(s.setup.params.jointNames, env)
    then [Command.Connect]
    else [Command.Connect, Command.ReadLicense]
  }

  function ActivateSends(s: State): seq<Command> {
    if s.setup.arm.Some? && s.setup.config.autoEnable then [Command.Enable(s.setup.config.enableAttempts)] else []
  }

  function EventSends(sys: System, e: Event): seq<Command> {
    match e
    case Configure(env) => if sys.primary.Unconfigured? then ConfigureSends(sys.s, env) else []
    case Activate(_) => if sys.primary.Inactive? then ActivateSends(sys.s) else []
    case Deactivate(_) => if sys.primary.Active? && ZeroGActive(sys.s) then [Command.LeaveZeroG] else []
    case Cleanup(_) => if sys.primary.Inactive? && sys.s.setup.arm.Some? then [Command.Close] else []
    case Shutdown(_) => if !sys.primary.Finalized? && sys.s.setup.arm.Some? then [Command.Close] else []
    case Request(call, env) => if Offers(sys.s, ServiceOf(call)) then ServeSends(sys.s, call, env) else []
    case _ => []
  }

  lemma EffectFrame(s: State, call: Call, env: Env)
    ensures var t := Effect(s, call, env);
            && t.setup == s.setup && t.wire.nextArm == s.wire.nextArm
            && t.wire.open == s.wire.open && t.wire.peak == s.wire.peak && t.wire.log == s.wire.log
  {
  }

  lemma TwoSent(log: seq<Command>, c: Command, d: Command)
    ensures log + [c] + [d] == log + [c, d]
  {
  }

  lemma ReconnectFrame(s: State, env: Env)
    ensures Reconnecting(s, env).state.setup == s.setup
    ensures Reconnecting(s, env).state.wire.nextArm == s.wire.nextArm
    ensures Reconnecting(s, env).state.wire.log == s.wire.log + ReconnectSends(s, env)
  {
    TwoSent(s.wire.log, Command.Reopen, Command.ReadLicense);
    assert s.wire.log + [] == s.wire.log;
    if s.setup.arm.Some? {
      assert Reopening(s.wire, s.setup.arm.value, env).log == s.wire.log + [Command.Reopen];
    }
  }

  lemma ServeFrame(s: State, call: Call, env: Env)
    ensures Serve(s, call, env).state.setup == s.setup
    ensures Serve(s, call, env).state.wire.nextArm == s.wire.nextArm
    ensures !call.Reconnect? ==> Serve(s, call, env).state.wire.open == s.wire.open
                                 && Serve(s, call, env).state.wire.peak == s.wire.peak
    ensures Serve(s, call, env).state.wire.log == s.wire.log + ServeSends(s, call, env)
  {
    if call.Reconnect? {
      ReconnectFrame(s, env);
    } else {
      EffectFrame(Issue(s, call, env), call, env);
      assert s.wire.log + [] == s.wire.log;
    }
  }

  predicate IsTransition(e: Event) {
    e.Configure? || e.Activate? || e.Deactivate? || e.Cleanup? || e.Shutdown?
  }

  // Outside transitions the setup fields stay, parameters set from outside apart.
  lemma OtherEventsKeepSetup(sys: System, e: Event)
    requires !IsTransition(e)
    ensures var t := Step(sys, e).sys;
            && t.primary == sys.primary
            && t.s.setup == sys.s.setup.(params := if e.SetParam? then Changed(sys.s.setup.params, e.change)
                                                   else sys.s.setup.params)
  {
    if e.Request? {
      ServeFrame(sys.s, e.call, e.env);
    }
  }

  lemma OpeningLog(s: State, env: Env)
    requires s.setup.arm.Some?
    ensures Opening(s, env).state.wire.log
         == if env.connect.Throws? || env.escape.AtAxes? || WrongNames(s.setup.jointNames, env)
            then s.wire.log else s.wire.log + [Command.ReadLicense]
  {
    var licensed := RefreshLicense(NameJoints(s, env), env);
    assert CreatePublishers(licensed, env).wire == licensed.wire;
  }

  lemma ConfigureLog(s: State, env: Env)
    ensures OnConfigure(s, env).state.wire.log == s.wire.log + ConfigureSends(s, env)
  {
    TwoSent(s.wire.log, Command.Connect, Command.ReadLicense);
    assert s.wire.log + [] == s.wire.log;
    var blank := Blank(ReadParameters(s));
    var adopted := AdoptArm(blank, env);
    assert adopted.wire.log == s.wire.log;
    if !env.escape.AtFactory? && adopted.setup.arm.Some? {
      OpeningLog(ConnectArm(adopted, env), env);
      assert ConnectArm(adopted, env).wire.log == s.wire.log + [Command.Connect];
    }
  }

  // Starting timers changes the timers only, whether or not it raises.
  lemma TimersOnly(s: State, env: Env)
    ensures var t := StartTimers(s, env).state;
            t == s.(setup := s.setup.(statusTimer := t.setup.statusTimer, diagTimer := t.setup.diagTimer))
  {
  }

  lemma ActivateLog(s: State, env: Env)
    ensures OnActivate(s, env).state.wire.log == s.wire.log + ActivateSends(s)
  {
    assert s.wire.log + [] == s.wire.log;
    var sent := if s.setup.config.autoEnable then SendEnable(s) else s;
    TimersOnly(ActivatePublishers(Registering(sent, AllServices())), env);
  }

  lemma DeactivateLog(s: State, env: Env)
    ensures OnDeactivate(s, env).state.wire.log == s.wire.log + if ZeroGActive(s) then [Command.LeaveZeroG] else []
  {
    assert s.wire.log + [] == s.wire.log;
  }

  lemma CleanupLog(s: State, env: Env)
    ensures OnCleanup(s, env).state.wire.log == s.wire.log + if s.setup.arm.Some? then [Command.Close] else []
  {
    assert s.wire.log + [] == s.wire.log;
  }

  // The log only grows, and a step adds just what EventSends says.
  lemma StepLog(sys: System, e: Event)
    ensures Step(sys, e).sys.s.wire.log == sys.s.wire.log + EventSends(sys, e)
  {
    match e
    case Configure(env) => ConfigureLog(sys.s, env);
    case Activate(env) => ActivateLog(sys.s, env);
    case Deactivate(env) => DeactivateLog(sys.s, env);
    case Cleanup(env) => CleanupLog(sys.s, env);
    case Shutdown(env) => CleanupLog(sys.s, env);
    case Request(call, env) => ServeFrame(sys.s, call, env);
    case _ =>
  }

  function Log(events: seq<Event>): seq<Command> {
    Run(events).s.wire.log
  }

  // Entry j of the log was put there by event k.
  predicate SentBy(events: seq<Event>, j: nat, k: int) {
    0 <= k < |events| && |Log(events[..k])| <= j < |Log(events[..k + 1])|
  }

  lemma {:induction false} LogGrows(events: seq<Event>, k: nat)
    requires k <= |events|
    ensures Log(events[..k]) <= Log(events)
    decreases |events| - k
  {
    if k == |events| {
      assert events[..k] == events;
    } else {
      LogGrows(events, k + 1);
      assert events[..k + 1] == events[..k] + [events[k]];
      RunSnoc(events[..k], events[k]);
      StepLog(Run(events[..k]), events[k]);
    }
  }

  // Every logged command was sent by exactly one event, and is among what that event sends in the
  // state the events before it lead to.
  lemma {:induction false} EveryCommandHasOneSender(events: seq<Event>, j: nat)
    requires j < |Log(events)|
    ensures exists k :: SentBy(events, j, k)
    ensures forall k, l :: SentBy(events, j, k) && SentBy(events, j, l) ==> k == l
  {
    assert events[..|events|] == events;
    FindSender(events, j, |events|);
    forall k, l | SentBy(events, j, k) && SentBy(events, j, l)
      ensures k == l
    {
      SendersCoincide(events, j, k, l);
      SendersCoincide(events, j, l, k);
    }
  }

  lemma {:induction false} FindSender(events: seq<Event>, j: nat, n: nat)
    requires n <= |events| && j < |Log(events[..n])|
    ensures exists k :: SentBy(events, j, k)
    decreases n
  {
    assert n > 0;
    if |Log(events[..n - 1])| <= j {
      assert SentBy(events, j, n - 1);
    } else {
      FindSender(events, j, n - 1);
    }
  }

  lemma {:induction false} SenderSent(events: seq<Event>, j: nat, k: nat)
    requires SentBy(events, j, k)
    ensures j < |Log(events)| && Log(events)[j] in EventSends(Run(events[..k]), events[k])
  {
    assert events[..k + 1] == events[..k] + [events[k]];
    RunSnoc(events[..k], events[k]);
    StepLog(Run(events[..k]), events[k]);
    LogGrows(events, k + 1);
    var before, sends := Log(events[..k]), EventSends(Run(events[..k]), events[k]);
    assert Log(events[..k + 1]) == before + sends;
    assert Log(events)[j] == (before + sends)[j] == sends[j - |before|];
  }

  lemma PrefixOfPrefix(events: seq<Event>, k: nat, l: nat)
    requires k <= l <= |events|
    ensures |Log(events[..k])| <= |Log(events[..l])|
  {
    LogGrows(events[..l], k);
    assert events[..l][..k] == events[..k];
  }

  lemma {:induction false} SendersCoincide(events: seq<Event>, j: nat, k: nat, l: nat)
    requires SentBy(events, j, k) && SentBy(events, j, l)
    ensures k >= l
  {
    if k < l {
      PrefixOfPrefix(events, k + 1, l);
      assert false;
    }
  }
}
