// The managed-node supervisor: which callbacks run in which primary state, and where a node goes
// after each return value (ROS 2 design article "Managed nodes"). Events arrive in any order.
module Supervisor {
  import opened Wrappers
  import opened Sdk
  import opened DriverSpec
  import LitearmDriverNode

  datatype Primary = Unconfigured | Inactive | Active | Finalized

  // Everything that can happen to the node, with the environment's part of it.
  datatype Event =
    | SetParam(change: ParamChange)
    | Configure(env: Env)
    | Activate(env: Env)
    | Deactivate(env: Env)
    | Cleanup(env: Env)
    | Shutdown(env: Env)
    | Request(call: Call, env: Env)
    | StatusTick(env: Env)
    | DiagnosticsTick(env: Env)
    | KeepAliveDies

  datatype System = System(primary: Primary, s: State)

  datatype Stepped = Stepped(sys: System, output: Output)

  // An erring callback enters ErrorProcessing, where on_error decides; the lifecycle layer treats an
  // exception that leaves a callback as an error.
  function Settle(from: Primary, target: Primary, t: Transition, env: Env): System {
    match t.result
    case SUCCESS => System(target, t.state)
    case FAILURE => System(from, t.state)
    case FATAL => Recover(t.state, env)
    case RAISED => Recover(t.state, env)
  }

  function Recover(s: State, env: Env): System {
    var e := OnError(s, env);
    System(if e.result.SUCCESS? then Unconfigured else Finalized, e.state)
  }

  // A transition is taken only from the state it belongs to; a request reaches the node only
  // while its service is advertised, a tick only while its timer exists.
  function Step(sys: System, e: Event): Stepped {
    var s := sys.s;
    match e
    case SetParam(change) => Stepped(sys.(s := ParameterSet(s, change)), Silent)
    case Configure(env) =>
      Stepped(if sys.primary.Unconfigured?
              then Settle(Unconfigured, Inactive, OnConfigure(s, env), env) else sys, Silent)
    case Activate(env) =>
      Stepped(if sys.primary.Inactive? then Settle(Inactive, Active, OnActivate(s, env), env) else sys, Silent)
    case Deactivate(env) =>
      Stepped(if sys.primary.Active? then Settle(Active, Inactive, OnDeactivate(s, env), env) else sys, Silent)
    case Cleanup(env) =>
      Stepped(if sys.primary.Inactive? then Settle(Inactive, Unconfigured, OnCleanup(s, env), env) else sys, Silent)
    case Shutdown(env) =>
      Stepped(if sys.primary.Finalized? then sys else Settle(sys.primary, Finalized, OnShutdown(s, env), env), Silent)
    case Request(call, env) =>
      if Offers(s, ServiceOf(call))
      then var served := Serve(s, call, env);
           Stepped(sys.(s := served.state), Answer(served.response))
      else Stepped(sys, Silent)
    case StatusTick(env) =>
      if s.setup.statusTimer.Some?
      then var ticked := PublishingStatus(s, env);
           Stepped(sys.(s := ticked.state), ticked.output)
      else Stepped(sys, Silent)
    case DiagnosticsTick(env) => Stepped(sys, if s.setup.diagTimer.Some? then PublishingDiagnostics(s, env) else Silent)
    case KeepAliveDies => Stepped(sys.(s := s.(wire := s.wire.(keepAlive := None))), Silent)
  }

  // The managed-node transition table: where each event leads, by what its callback answered.
  lemma PrimaryFollowsTheTable(sys: System, e: Event)
    ensures Step(sys, e).sys.primary
         == match e
            case Configure(env) =>
              if sys.primary != Unconfigured then sys.primary
              else if OnConfigure(sys.s, env).result.SUCCESS? then Inactive else Unconfigured
            case Activate(env) =>
              if sys.primary != Inactive then sys.primary
              else if OnActivate(sys.s, env).result.SUCCESS? then Active
              else if OnActivate(sys.s, env).result.FAILURE? then Inactive else Unconfigured
            case Deactivate(_) => if sys.primary == Active then Inactive else sys.primary
            case Cleanup(_) => if sys.primary == Inactive then Unconfigured else sys.primary
            case Shutdown(_) => Finalized
            case _ => sys.primary
  {
  }

  lemma StepServes(sys: System, call: Call, env: Env)
    requires Offers(sys.s, ServiceOf(call))
    ensures var served := Serve(sys.s, call, env);
            Step(sys, Request(call, env)) == Stepped(sys.(s := served.state), Answer(served.response))
  {
  }

  const START := System(Unconfigured, INITIAL)

  function Run(events: seq<Event>): System {
    if events == [] then START
    else Step(Run(events[..|events| - 1]), events[|events| - 1]).sys
  }

  lemma RunSnoc(history: seq<Event>, e: Event)
    ensures Run(history + [e]) == Step(Run(history), e).sys
  {
    assert (history + [e])[..|history|] == history;
  }

  // The running node under its supervisor.
  class Process {
    const node: LitearmDriverNode.Node
    var primary: Primary

    ghost predicate Valid()
      reads this, node
    {
      node.Valid()
    }

    ghost function View(): System
      reads this, node, node.bus
    {
      System(primary, node.View())
    }

    constructor ()
      ensures Valid() && View() == START
      ensures fresh(node) && fresh(node.bus)
    {
      var bus := new SerialBus();
      node := new LitearmDriverNode.Node(bus);
      primary := Unconfigured;
    }

    method Conclude(target: Primary, r: CallbackReturn, env: Env)
      requires Valid()
      modifies this
      ensures Valid() && View() == Settle(old(primary), target, Transition(old(View()).s, r), env)
    {
      match r {
        case SUCCESS => primary := target;
        case FAILURE =>
        case _ =>
          var decided := node.OnError(env);
          primary := if decided.SUCCESS? then Unconfigured else Finalized;
      }
    }

    method Change(e: Event)
      requires Valid() && (e.Configure? || e.Activate? || e.Deactivate? || e.Cleanup? || e.Shutdown?)
      modifies this, node, node.bus
      ensures Valid() && View() == Step(old(View()), e).sys
    {
      match e {
        case Configure(env) =>
          if primary.Unconfigured? {
            var r := node.OnConfigure(env);
            Conclude(Inactive, r, env);
          }
        case Activate(env) =>
          if primary.Inactive? {
            var r := node.OnActivate(env);
            Conclude(Active, r, env);
          }
        case Deactivate(env) =>
          if primary.Active? {
            var r := node.OnDeactivate(env);
            Conclude(Inactive, r, env);
          }
        case Cleanup(env) =>
          if primary.Inactive? {
            var r := node.OnCleanup(env);
            Conclude(Unconfigured, r, env);
          }
        case Shutdown(env) =>
          if !primary.Finalized? {
            var r := node.OnShutdown(env);
            Conclude(Finalized, r, env);
          }
      }
    }

    method Deliver(e: Event) returns (output: Output)
      requires Valid()
      modifies this, node, node.bus
      ensures Valid() && Stepped(View(), output) == Step(old(View()), e)
    {
      output := Silent;
      match e {
        case SetParam(change) => node.SetParameter(change);
        case Request(call, env) =>
          if GroupOf(node.services, ServiceOf(call)).Some? {
            var response := node.Handle(call, env);
            output := Answer(response);
          }
        case StatusTick(env) =>
          if node.statusTimer.Some? {
            output := node.PublishStatus(env);
          }
        case DiagnosticsTick(env) =>
          if node.diagTimer.Some? {
            output := node.PublishDiagnostics(env);
          }
        case KeepAliveDies => node.bus.wire := node.bus.wire.(keepAlive := None);
        case _ => Change(e);
      }
    }

    // Whatever the schedule, the node's fields and the link end where Run says.
    method Replay(events: seq<Event>)
      requires Valid() && View() == START
      modifies this, node, node.bus
      ensures Valid() && View() == Run(events)
    {
      for i := 0 to |events|
        invariant Valid() && View() == Run(events[..i])
      {
        RunSnoc(events[..i], events[i]);
        assert events[..i] + [events[i]] == events[..i + 1];
        var _ := Deliver(events[i]);
      }
      assert events[..|events|] == events;
    }
  }
}
