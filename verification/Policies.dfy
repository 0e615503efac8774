// What the commands of any run obey, traced to the event that sent each one.
module Policies {
  import opened Wrappers
  import opened Doubles
  import opened Waypoints
  import opened Sdk
  import opened DriverSpec
  import opened Supervisor
  import opened Sends
  import opened Handlers
  import opened Lifecycle
  import opened Histories
  import opened Mirrors

  // Requests

  // A deadline the caller left at zero is replaced by the default; any other arrives as given.
  predicate Deadline(asked: Double, sent: Double, default: Double) {
    sent == if asked == ZERO then default else asked
  }

  // A command is the one its request asks for, with the request's own arguments, and with those the
  // parameters p in force and the configured ones decide.
  predicate Answers(call: Call, c: Command, p: Params, config: Params) {
    match call
    case Plain(service, args) => c == Command.Plain(service, args)
    case Enable => c == Command.Enable(config.enableAttempts)
    case Move(m) => c == Command.Move(m)
    case MovePath(flat, speed, wait) =>
      c.MovePath? && Flatten(c.poses) == flat && Regroups(c.poses, flat) && c.speed == speed && c.wait == wait
    case ZeroG(data) => if data then c == Command.EnterZeroG(p.zeroGPeriod) else c == Command.LeaveZeroG
    case SaveParams => c == Command.SaveParams
    case ResetFactoryParams => c == Command.ResetFactoryParams
    case CommitModel(mask) => c.CommitModel? && 0 <= c.mask < 0x1_0000 && (mask - c.mask) % 0x1_0000 == 0
    case EnterDfu => c == Command.EnterDfu
    case GetStatus(timeout) => c == Command.GetStatus(timeout)
    case SetSpeedScaling(percent) => c == Command.SetSpeed(percent)
    case Tune(t) => AnswersTuning(t, c)
    case LogDump(filename, whole, deadline) =>
      && c.LogDump? && c.filename == filename && c.whole == whole
      && Deadline(deadline, c.timeout, Fin(1.0)) && Deadline(deadline, c.total, Fin(-1.0))
    case GetTcp => c == Command.GetTcp
    case _ => false
  }

  predicate AnswersTuning(t: Tuning, c: Command) {
    match t
    case GetJointParams(joint) => c == if joint < 0 then Command.ReadAllJointParams else Command.Adjust(t)
    case KinBench(deadline) => c == if deadline == ZERO then Command.KinBenchByDefault else Command.Adjust(t)
    case InverseKinematics(pose, seed, deadline) =>
      && c.Adjust? && c.tuning.InverseKinematics? && c.tuning.pose == pose && c.tuning.seed == seed
      && Deadline(deadline, c.tuning.deadline, Fin(3.0))
    case _ => c == Command.Adjust(t)
  }

  // A request that makes an SDK call: not the two answered from tables and counters, and not a dump
  // whose directory could not be made.
  predicate UsesTheSdk(call: Call, env: Env) {
    !call.GetDiagnostics? && !call.GetFeedforwardCatalog? && (call.LogDump? ==> env.diskReady)
  }

  // The documented rules, with everything they look at read off the run.
  predicate AdmissibleAfter(h: seq<Event>, call: Call, env: Env) {
    Admits(ParamsIn(h), |NamesIn(h)|, SessionIn(h) && SeenEnabled(env), LinkUp(h, env), call, env.axes)
  }

  lemma AdmissibleIsAfter(h: seq<Event>, call: Call, env: Env)
    ensures Admissible(Run(h).s, call, env) <==> AdmissibleAfter(h, call, env)
  {
    RunRemembers(h);
    SessionFacts(h, env);
  }

  lemma TuneAnswers(t: Tuning, axes: nat)
    requires WellFormedTuning(t, axes)
    ensures AnswersTuning(t, TuningCommand(t))
  {
  }

  lemma CommandAnswers(s: State, call: Call, env: Env)
    requires !call.Reconnect? && Admissible(s, call, env)
    ensures if UsesTheSdk(call, env)
            then var sends := CommandOf(s, call, env);
                 |sends| == 1 && Answers(call, sends[0], s.setup.params, s.setup.config)
            else CommandOf(s, call, env) == []
  {
    if call.Tune? {
      TuneAnswers(call.tuning, env.axes);
    } else if call.MovePath? {
      ReadingIsExact(call.flat);
    }
  }

  lemma ServesIff(s: State, call: Call, env: Env)
    requires !call.Reconnect?
    ensures var sends := ServeSends(s, call, env);
            if Admissible(s, call, env) && Connected(s, env) && UsesTheSdk(call, env)
            then |sends| == 1 && Answers(call, sends[0], s.setup.params, s.setup.config)
            else sends == []
  {
    AdmissionAcceptsExactly(s, call, env);
    if Admissible(s, call, env) {
      CommandAnswers(s, call, env);
    }
  }

  // Any request but reconnect, after any run: exactly one command goes out, and it is the one the
  // request asks for, exactly when the node is serving, the request is admissible by the documented
  // rules, the link is up and the request needs the SDK; otherwise nothing goes out.
  lemma RequestIsForwardedIff(h: seq<Event>, call: Call, env: Env)
    requires !call.Reconnect?
    ensures var sends := EventSends(Run(h), Request(call, env));
            if Serving(h) && AdmissibleAfter(h, call, env) && LinkUp(h, env) && UsesTheSdk(call, env)
            then |sends| == 1 && Answers(call, sends[0], ParamsIn(h), ConfigIn(h))
            else sends == []
  {
    ReachableIff(h, ServiceOf(call));
    ServesIff(Run(h).s, call, env);
    AdmissibleIsAfter(h, call, env);
    FieldsAreAfter(h, env);
  }

  lemma FieldsAreAfter(h: seq<Event>, env: Env)
    ensures Connected(Run(h).s, env) <==> LinkUp(h, env)
    ensures Run(h).s.setup.params == ParamsIn(h) && Run(h).s.setup.config == ConfigIn(h)
  {
    SessionFacts(h, env);
    RunRemembers(h);
  }

  // In particular a service without gates, emergency_stop and disable among them, is always forwarded.
  lemma PlainIsForwardedIff(h: seq<Event>, service: Ungated, args: seq<Double>, env: Env)
    ensures EventSends(Run(h), Request(Call.Plain(service, args), env))
         == if Serving(h) && LinkUp(h, env) then [Command.Plain(service, args)] else []
  {
    RequestIsForwardedIff(h, Call.Plain(service, args), env);
  }

  // reconnect needs a session only.
  lemma ReconnectIsForwardedIff(h: seq<Event>, env: Env)
    ensures EventSends(Run(h), Request(Call.Reconnect, env))
         == if !Serving(h) || !SessionIn(h) then []
            else if env.outcome.Throws? then [Command.Reopen] else [Command.Reopen, Command.ReadLicense]
  {
    ReachableIff(h, Service.Reconnect);
    SessionAndPortFollowTheEvents(h);
    ReconnectIsSent(Run(h), env);
  }

  lemma ReconnectIsSent(sys: System, env: Env)
    ensures EventSends(sys, Request(Call.Reconnect, env))
         == if !Offers(sys.s, Service.Reconnect) || sys.s.setup.arm.None? then []
            else if env.outcome.Throws? then [Command.Reopen] else [Command.Reopen, Command.ReadLicense]
  {
  }

  // What the caller is told, after any run.
  lemma RequestSucceedsIff(h: seq<Event>, call: Call, env: Env)
    requires !call.Reconnect? && !call.GetFeedforwardCatalog?
    ensures var output := Step(Run(h), Request(call, env)).output;
            && (output.Answer? <==> Serving(h))
            && (output.Answer? ==>
                  (output.response.success
                   <==> AdmissibleAfter(h, call, env) && LinkUp(h, env) && Returned(call, env)))
  {
    ReachableIff(h, ServiceOf(call));
    AdmissibleIsAfter(h, call, env);
    FieldsAreAfter(h, env);
    if Serving(h) {
      StepServes(Run(h), call, env);
      SucceedsIff(Run(h).s, call, env);
    }
  }

  // A motion request is forwarded, unchanged, exactly when the node is serving, motion is allowed,
  // the request is well-formed and the link is up.
  lemma MotionIsForwardedIff(h: seq<Event>, m: Motion, env: Env)
    ensures EventSends(Run(h), Request(Call.Move(m), env))
         == if Serving(h) && SwitchSet(h, MotionSwitch, false) && WellFormedMotion(m, |NamesIn(h)|) && LinkUp(h, env)
            then [Command.Move(m)] else []
  {
    RequestIsForwardedIff(h, Call.Move(m), env);
    ParametersAreAsLastSet(h);
  }

  // The same for paths: every non-empty finite list of whole waypoints arrives, waypoint by waypoint.
  lemma PathIsForwardedIff(h: seq<Event>, flat: seq<Double>, speed: Double, wait: bool, env: Env)
    ensures var sends := EventSends(Run(h), Request(Call.MovePath(flat, speed, wait), env));
            if Serving(h) && SwitchSet(h, MotionSwitch, false) && WellFormedPath(flat, speed) && LinkUp(h, env)
            then |sends| == 1 && sends[0].MovePath? && Flatten(sends[0].poses) == flat && Regroups(sends[0].poses, flat)
                 && sends[0].speed == speed && sends[0].wait == wait
            else sends == []
  {
    RequestIsForwardedIff(h, Call.MovePath(flat, speed, wait), env);
    ParametersAreAsLastSet(h);
  }

  // Commands in a run's log

  // Over any run: what a request other than reconnect put on the link is what it asked for. No
  // argument is changed, dropped or exchanged on the way, except where a default is documented, and
  // the request was admissible at that moment.
  lemma EveryCommandAnswersItsRequest(events: seq<Event>, j: nat, k: nat)
    requires SentBy(events, j, k) && j < |Log(events)| && events[k].Request?
    ensures var h, e, c := events[..k], events[k], Log(events)[j];
            && Serving(h)
            && if e.call.Reconnect? then SessionIn(h) && (c == Command.Reopen || c == Command.ReadLicense)
               else && Answers(e.call, c, ParamsIn(h), ConfigIn(h))
                    && AdmissibleAfter(h, e.call, e.env) && LinkUp(h, e.env)
  {
    var h, e := events[..k], events[k];
    SenderSent(events, j, k);
    if e.call.Reconnect? {
      ReconnectIsForwardedIff(h, e.env);
    } else {
      RequestIsForwardedIff(h, e.call, e.env);
    }
  }

  predicate IsMotion(c: Command) {
    c.Move? || c.MovePath?
  }

  // What the motion command on the link has to do with the request that caused it.
  predicate AnswersMotion(call: Call, c: Command, axes: nat) {
    if c.Move? then call == Call.Move(c.motion) && WellFormedMotion(c.motion, axes)
    else c.MovePath? && call == Call.MovePath(Flatten(c.poses), c.speed, c.wait)
         && WellFormedPath(Flatten(c.poses), c.speed)
  }

  lemma MotionAnswers(h: seq<Event>, e: Event, c: Command)
    requires e.Request? && !e.call.Reconnect? && Answers(e.call, c, ParamsIn(h), ConfigIn(h))
    requires AdmissibleAfter(h, e.call, e.env) && IsMotion(c)
    ensures SwitchSet(h, MotionSwitch, false) && AnswersMotion(e.call, c, |NamesIn(h)|)
  {
    ParametersAreAsLastSet(h);
  }

  // Over any run: a motion command was sent only by the motion request that asked for it, with
  // the node serving, allow_motion last set to true (it starts false), the link up, every argument
  // finite, array lengths and axis index matching the joint names in force, of which a configured
  // node has one per axis the firmware reported, and a speed that is a fraction.
  lemma EveryMotionWasAllowed(events: seq<Event>, j: nat, k: nat)
    requires SentBy(events, j, k) && j < |Log(events)| && IsMotion(Log(events)[j])
    ensures var h, e := events[..k], events[k];
            && Serving(h)
            && SwitchSet(h, MotionSwitch, false)
            && e.Request? && LinkUp(h, e.env)
            && AnswersMotion(e.call, Log(events)[j], |NamesIn(h)|)
            && (Configured(Run(h).primary) ==> |NamesIn(h)| == AxesIn(h))
  {
    var h, e := events[..k], events[k];
    if e.Request? {
      EveryCommandAnswersItsRequest(events, j, k);
      MotionAnswers(h, e, Log(events)[j]);
      RunRemembers(h);
    } else {
      TransitionsNeverDropTheArm(events, j, k);
    }
  }

  // Firmware update mode is entered only on request, with allow_dfu last set to true.
  lemma EveryDfuWasAllowed(events: seq<Event>, j: nat, k: nat)
    requires SentBy(events, j, k) && j < |Log(events)| && Log(events)[j].EnterDfu?
    ensures events[k].Request? && events[k].call.EnterDfu? && SwitchSet(events[..k], DfuSwitch, false)
  {
    if events[k].Request? {
      EveryCommandAnswersItsRequest(events, j, k);
      ParametersAreAsLastSet(events[..k]);
    } else {
      TransitionsNeverDropTheArm(events, j, k);
    }
  }

  // Commands that no request asked for

  // Lifecycle transitions connect, read the licence, enable if configured to, leave zero gravity
  // and close. None of them disables the motors; nothing but these events and requests sends at all.
  lemma TransitionsNeverDropTheArm(events: seq<Event>, j: nat, k: nat)
    requires SentBy(events, j, k) && j < |Log(events)| && !events[k].Request?
    ensures var h, c := events[..k], Log(events)[j];
            match events[k]
            case Configure(_) => Run(h).primary.Unconfigured? && (c == Command.Connect || c == Command.ReadLicense)
            case Activate(_) =>
              Run(h).primary.Inactive? && ConfigIn(h).autoEnable && c == Command.Enable(ConfigIn(h).enableAttempts)
            case Deactivate(_) => Run(h).primary.Active? && c == Command.LeaveZeroG
            case Cleanup(_) => c == Command.Close
            case Shutdown(_) => c == Command.Close
            case _ => false
  {
    SenderSent(events, j, k);
    RunRemembers(events[..k]);
  }

  // And exactly what: what each transition, parameter change or tick sends, after any run.
  lemma TransitionsSend(h: seq<Event>, e: Event)
    requires !e.Request?
    ensures EventSends(Run(h), e)
         == match e
            case Configure(env) =>
              if !Run(h).primary.Unconfigured? || env.escape.AtFactory? || !env.factoryReturns then []
              else if Opens(ParamsIn(h), env) then [Command.Connect, Command.ReadLicense]
              else [Command.Connect]
            case Activate(_) =>
              if Run(h).primary.Inactive? && ConfigIn(h).autoEnable
              then [Command.Enable(ConfigIn(h).enableAttempts)] else []
            case Deactivate(_) => if Run(h).primary.Active? && KeepAliveIn(h).Some? then [Command.LeaveZeroG] else []
            case Cleanup(_) => if Run(h).primary.Inactive? then [Command.Close] else []
            case Shutdown(_) => if !Run(h).primary.Finalized? && SessionIn(h) then [Command.Close] else []
            case _ => []
  {
    RunRemembers(h);
    ConfiguredHasSession(h);
    if e.Deactivate? {
      SessionFacts(h, e.env);
    } else if e.Shutdown? {
      SessionAndPortFollowTheEvents(h);
    }
  }

  lemma ConfiguredHasSession(h: seq<Event>)
    ensures Configured(Run(h).primary) ==> Run(h).s.setup.arm.Some?
  {
    EveryReachableStateIsSound(h);
  }

  predicate IsDisable(c: Command) {
    c.Plain? && c.service == Service.Disable
  }

  lemma DisableAnswers(call: Call, c: Command, p: Params, config: Params)
    requires IsDisable(c)
    ensures Answers(call, c, p, config) ==> ServiceOf(call) == Service.Disable
  {
  }

  // Every disable in a run's log comes from a `disable` request.
  lemma EveryDisableWasRequested(events: seq<Event>, j: nat, k: nat)
    requires SentBy(events, j, k) && j < |Log(events)| && IsDisable(Log(events)[j])
    ensures events[k].Request? && ServiceOf(events[k].call) == Service.Disable
  {
    if events[k].Request? {
      EveryCommandAnswersItsRequest(events, j, k);
      DisableAnswers(events[k].call, Log(events)[j], ParamsIn(events[..k]), ConfigIn(events[..k]));
    } else {
      TransitionsNeverDropTheArm(events, j, k);
    }
  }

  // A node that becomes active with auto_enable in force had its ENABLE accepted in that very transition.
  lemma ActiveMeansEnabled(h: seq<Event>, e: Event)
    requires !Run(h).primary.Active? && Run(h + [e]).primary.Active?
    ensures e.Activate? && Run(h).primary.Inactive?
    ensures ConfigIn(h).autoEnable
        ==> EventSends(Run(h), e) == [Command.Enable(ConfigIn(h).enableAttempts)] && e.env.outcome.Returns?
  {
    RunSnoc(h, e);
    RunRemembers(h);
    EveryReachableStateIsSound(h);
  }

  // Flash writes

  predicate WritesFlash(c: Command) {
    c.SaveParams? || c.ResetFactoryParams?
  }

  lemma FlashAnswers(h: seq<Event>, e: Event, c: Command)
    requires e.Request? && !e.call.Reconnect? && Answers(e.call, c, ParamsIn(h), ConfigIn(h))
    requires AdmissibleAfter(h, e.call, e.env) && LinkUp(h, e.env)
    ensures WritesFlash(c) ==> !SeenEnabled(e.env)
    ensures c.CommitModel? ==> SeenEnabled(e.env)
  {
    PortNeedsSession(h);
  }

  // Over any run, parameters reach flash only when the motors were not seen enabled; an absent
  // frame and a read that raised count as "not enabled". The model reaches flash only when they were.
  lemma FlashWritesFollowTheGate(events: seq<Event>, j: nat, k: nat)
    requires SentBy(events, j, k) && j < |Log(events)|
    ensures WritesFlash(Log(events)[j]) ==> events[k].Request? && !SeenEnabled(events[k].env)
    ensures Log(events)[j].CommitModel? ==> events[k].Request? && SeenEnabled(events[k].env)
  {
    if WritesFlash(Log(events)[j]) || Log(events)[j].CommitModel? {
      if events[k].Request? {
        EveryCommandAnswersItsRequest(events, j, k);
        FlashAnswers(events[..k], events[k], Log(events)[j]);
      } else {
        TransitionsNeverDropTheArm(events, j, k);
      }
    }
  }

  // The documented rule for a call that writes flash, after any run: it is forwarded exactly when the
  // node is serving, the link is up and no frame shows the motors on.
  predicate FollowsFlashRule(h: seq<Event>, call: Call, env: Env) {
    EventSends(Run(h), Request(call, env)) != [] <==> Serving(h) && LinkUp(h, env) && !SeenEnabled(env)
  }

  lemma PortNeedsSession(h: seq<Event>)
    requires PortOpenIn(h)
    ensures SessionIn(h)
  {
    OneLinkEver(h);
    SessionAndPortFollowTheEvents(h);
    var id :| id in Run(h).s.wire.open;
  }

  // save_params and reset_factory_params follow it always; commit_model, whose handler negates the
  // question, follows it exactly when the node is not serving or the link is down, that is, when
  // nothing is forwarded anyway.
  lemma FlashRuleHoldsIff(h: seq<Event>, mask: nat, env: Env)
    ensures FollowsFlashRule(h, Call.SaveParams, env)
    ensures FollowsFlashRule(h, Call.ResetFactoryParams, env)
    ensures FollowsFlashRule(h, Call.CommitModel(mask), env) <==> !Serving(h) || !LinkUp(h, env)
  {
    ParameterWritesFollow(h, Call.SaveParams, env);
    ParameterWritesFollow(h, Call.ResetFactoryParams, env);
    RequestIsForwardedIff(h, Call.CommitModel(mask), env);
    if LinkUp(h, env) {
      CommitAdmittedIff(h, mask, env);
    }
  }

  lemma ParameterWritesFollow(h: seq<Event>, call: Call, env: Env)
    requires call.SaveParams? || call.ResetFactoryParams?
    ensures FollowsFlashRule(h, call, env)
  {
    RequestIsForwardedIff(h, call, env);
    if LinkUp(h, env) {
      PortNeedsSession(h);
    }
  }

  // The expected mask travels in sixteen bits: the firmware sees the mask the caller gave exactly
  // when it fits.
  lemma CommitMaskArrivesIff(h: seq<Event>, mask: nat, env: Env)
    requires Serving(h) && LinkUp(h, env) && SeenEnabled(env)
    ensures EventSends(Run(h), Request(Call.CommitModel(mask), env)) == [Command.CommitModel(mask)] <==> mask < 0x1_0000
  {
    CommitAdmittedIff(h, mask, env);
    RequestIsForwardedIff(h, Call.CommitModel(mask), env);
    CommitAnswers(mask, EventSends(Run(h), Request(Call.CommitModel(mask), env))[0], ParamsIn(h), ConfigIn(h));
  }

  lemma CommitAdmittedIff(h: seq<Event>, mask: nat, env: Env)
    requires LinkUp(h, env)
    ensures AdmissibleAfter(h, Call.CommitModel(mask), env) <==> SeenEnabled(env)
  {
    PortNeedsSession(h);
  }

  lemma CommitAnswers(mask: nat, c: Command, p: Params, config: Params)
    requires Answers(Call.CommitModel(mask), c, p, config)
    ensures c == Command.CommitModel(mask) <==> mask < 0x1_0000
  {
  }

  // Zero gravity

  // Zero gravity is entered only on request, with the period parameter of that moment, in range.
  lemma EveryZeroGHadAGoodPeriod(events: seq<Event>, j: nat, k: nat)
    requires SentBy(events, j, k) && j < |Log(events)| && Log(events)[j].EnterZeroG?
    ensures var h, period := events[..k], Log(events)[j].period;
            && events[k].Request? && events[k].call == Call.ZeroG(true)
            && Serving(h)
            && period == ParamsIn(h).zeroGPeriod && GoodPeriod(period)
  {
    if events[k].Request? {
      EveryCommandAnswersItsRequest(events, j, k);
    } else {
      TransitionsNeverDropTheArm(events, j, k);
    }
  }

  // In any run a keep-alive is the current session's, with a period in range, and outside Active
  // it runs only on a stranded node.
  lemma KeepAliveIsSafe(h: seq<Event>)
    ensures var k := Run(h).s.wire.keepAlive;
            k.Some? ==> GoodPeriod(k.value.period) && Run(h).s.setup.arm == Some(k.value.owner) && Serving(h)
  {
    EveryReachableStateIsSound(h);
    AdvertisedWhileActiveIff(h);
  }

  lemma WithdrawingEndsServing(sys: System, e: Event)
    requires Withdraws(sys, e)
    ensures !Step(sys, e).sys.primary.Active?
  {
  }

  // Once a deactivate, cleanup or shutdown is through, none runs, whatever the SDK raised on the
  // way, also on a node that was stranded before.
  lemma StoppingEndsZeroGravity(h: seq<Event>, e: Event)
    requires Withdraws(Run(h), e)
    ensures Run(h + [e]).s.wire.keepAlive.None?
  {
    RunSnoc(h, e);
    assert (h + [e])[..|h|] == h;
    WithdrawingEndsServing(Run(h), e);
    KeepAliveIsSafe(h + [e]);
  }
}
