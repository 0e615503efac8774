// The services the node registers: 55 of them, each once, all in one callback group.
module Registry {
  import opened Wrappers
  import opened Sdk
  import opened DriverSpec

  // Position of a service in the registration order, read back by ServiceAt.
  function Place(s: Service): (i: nat)
    ensures i < SERVICE_COUNT && ServiceAt(i) == s
  {
    match s
    case Reconnect => 0 case Home => 1 case RevertModel => 2 case LogStop => 3 case Enable => 4
    case Disable => 5 case Reset => 6 case ClearFaults => 7 case EmergencyStop => 8 case Park => 9
    case SaveParams => 10 case ResetFactoryParams => 11 case EnterDfu => 12 case ZeroG => 13
    case GetTcp => 14 case GetDiagnostics => 15 case KinBench => 16 case MoveJ => 17
    case MoveJSync => 18 case MoveP => 19 case MoveJs => 20 case SendMit => 21 case SendMitAll => 22
    case MoveL => 23 case MoveC => 24 case MovePath => 25 case PollCart => 26
    case InverseKinematics => 27 case GetFeedforwardVector => 28 case GetFeedforwardMask => 29
    case GetFeedforwardCatalog => 30 case SetGravityScale => 31 case SetInertiaScale => 32
    case SetGravityVector => 33 case ProbeModel => 34 case GetModelBody => 35 case SetModelBody => 36
    case GetModelJm => 37 case SetModelJm => 38 case CommitModel => 39 case GetModelStatus => 40
    case LogStart => 41 case LogDump => 42 case GetStatus => 43 case SetSpeedScaling => 44
    case SetMotionMode => 45 case SetPayload => 46 case SetFeedforwardMask => 47
    case SetFeedforwardPreset => 48 case SetFeedforwardScalar => 49 case SetFeedforwardVector => 50
    case GetFeedforwardScalar => 51 case GetJointParams => 52 case SetJointGains => 53
    case SetJointLimits => 54
  }

  lemma PlacesHaveServices(i: nat)
    requires i < SERVICE_COUNT
    ensures Place(ServiceAt(i)) == i
  {
    if 14 <= i < 28 {
      MembersHavePlaces(i - 14);
    } else if 28 <= i < 43 {
      ModelsHavePlaces(i - 28);
    } else if 43 <= i {
      SinglesHavePlaces(i - 43);
    } else {
      PlainsHavePlaces(i);
    }
  }

  lemma PlainsHavePlaces(i: nat)
    requires i < 14
    ensures Place(PlainServiceAt(i)) == i
  {
  }

  lemma MembersHavePlaces(i: nat)
    requires i < 14
    ensures Place(MemberServiceAt(i)) == i + 14
  {
  }

  lemma ModelsHavePlaces(i: nat)
    requires i < 15
    ensures Place(ModelServiceAt(i)) == i + 28
  {
  }

  lemma SinglesHavePlaces(i: nat)
    requires i < 12
    ensures Place(SingleServiceAt(i)) == i + 43
  {
  }

  // Every service has its own place in the list, and every place has the SDK's group.
  lemma EveryServiceIsRegistered(s: Service)
    ensures |AllServices()| == 55
    ensures forall i :: 0 <= i < 55 ==> (AllServices()[i].service == s <==> i == Place(s))
    ensures forall i :: 0 <= i < 55 ==> AllServices()[i].group == SDK_GROUP
  {
    forall i | 0 <= i < 55
      ensures AllServices()[i].service == s <==> i == Place(s)
    {
      PlacesHaveServices(i);
    }
  }

  // Which requests belong to a service, read from the service's side.
  predicate GoesTo(s: Service, call: Call) {
    match s
    case Home => call.Move? && call.motion.Home?
    case MoveJ => call.Move? && call.motion.MoveJ?
    case MoveJSync => call.Move? && call.motion.MoveJSync?
    case MoveP => call.Move? && call.motion.MoveP?
    case MoveJs => call.Move? && call.motion.MoveJs?
    case SendMit => call.Move? && call.motion.SendMit?
    case SendMitAll => call.Move? && call.motion.SendMitAll?
    case MoveL => call.Move? && call.motion.MoveL?
    case MoveC => call.Move? && call.motion.MoveC?
    case MovePath => call.MovePath?
    case Enable => call.Enable?
    case SaveParams => call.SaveParams?
    case ResetFactoryParams => call.ResetFactoryParams?
    case EnterDfu => call.EnterDfu?
    case ZeroG => call.ZeroG?
    case GetTcp => call.GetTcp?
    case GetDiagnostics => call.GetDiagnostics?
    case GetFeedforwardCatalog => call.GetFeedforwardCatalog?
    case CommitModel => call.CommitModel?
    case LogDump => call.LogDump?
    case GetStatus => call.GetStatus?
    case SetSpeedScaling => call.SetSpeedScaling?
    case Reconnect => call.Reconnect?
    case KinBench => call.Tune? && call.tuning.KinBench?
    case InverseKinematics => call.Tune? && call.tuning.InverseKinematics?
    case SetGravityScale => call.Tune? && call.tuning.SetGravityScale?
    case SetInertiaScale => call.Tune? && call.tuning.SetInertiaScale?
    case SetGravityVector => call.Tune? && call.tuning.SetGravityVector?
    case SetModelBody => call.Tune? && call.tuning.SetModelBody?
    case SetModelJm => call.Tune? && call.tuning.SetModelJm?
    case LogStart => call.Tune? && call.tuning.LogStart?
    case SetPayload => call.Tune? && call.tuning.SetPayload?
    case SetFeedforwardPreset => call.Tune? && call.tuning.SetFeedforwardPreset?
    case SetFeedforwardVector => call.Tune? && call.tuning.SetFeedforwardVector?
    case GetJointParams => call.Tune? && call.tuning.GetJointParams?
    case SetJointGains => call.Tune? && call.tuning.SetJointGains?
    case SetJointLimits => call.Tune? && call.tuning.SetJointLimits?
    case _ => call.Plain? && call.service == s
  }

  // Each request reaches the handler of its own service and of no other.
  lemma RequestsGoToTheirService(call: Call, s: Service)
    ensures ServiceOf(call) == s <==> GoesTo(s, call)
  {
    if call.Move? {
      MotionsGoToTheirService(call.motion, s);
    } else if call.Tune? {
      TuningsGoToTheirService(call.tuning, s);
    } else if call.Plain? {
      PlainsGoToTheirService(call.service, call.args, s);
    }
  }

  lemma MotionsGoToTheirService(m: Motion, s: Service)
    ensures MotionService(m) == s <==> GoesTo(s, Call.Move(m))
  {
  }

  lemma TuningsGoToTheirService(t: Tuning, s: Service)
    ensures TuningService(t) == s <==> GoesTo(s, Call.Tune(t))
  {
  }

  lemma PlainsGoToTheirService(u: Ungated, args: seq<Doubles.Double>, s: Service)
    ensures u == s <==> GoesTo(s, Call.Plain(u, args))
  {
  }

  predicate OneGroup(services: seq<Registration>) {
    forall i :: 0 <= i < |services| ==> services[i].group == SDK_GROUP
  }

  lemma {:induction false} GroupIsTheOne(services: seq<Registration>, s: Service)
    requires OneGroup(services)
    ensures GroupOf(services, s).Some? <==> exists i :: 0 <= i < |services| && services[i].service == s
    ensures GroupOf(services, s).Some? ==> GroupOf(services, s).value == SDK_GROUP
  {
    if services == [] {
    } else {
      var front := services[..|services| - 1];
      GroupIsTheOne(front, s);
      assert forall i :: 0 <= i < |front| ==> services[i] == front[i];
    }
  }

  // services_ after n activations without a deactivation between them.
  function Copies(n: nat): seq<Registration> {
    if n == 0 then [] else Copies(n - 1) + AllServices()
  }

  lemma {:induction false} CopiesShape(n: nat)
    ensures |Copies(n)| == 55 * n && OneGroup(Copies(n))
  {
    if n == 0 {
    } else {
      CopiesShape(n - 1);
      EveryServiceIsRegistered(Service.Enable);
    }
  }

  // Once anything is registered, everything is, in the one group.
  lemma CopiesOffer(n: nat, s: Service)
    ensures GroupOf(Copies(n), s) == if n == 0 then None else Some(SDK_GROUP)
  {
    CopiesShape(n);
    GroupIsTheOne(Copies(n), s);
    if n > 0 {
      EveryServiceIsRegistered(s);
      CopiesShape(n - 1);
      assert Copies(n)[|Copies(n - 1)| + Place(s)] == AllServices()[Place(s)];
    }
  }
}
