// The node's callbacks under the executor, command by command. Because every one of them was
// registered in the one group, whatever the executor does amounts to running them whole, one after
// the other, in the order in which they began: what the run theorems take as one event.
module Serializability {
  import opened Wrappers
  import opened Sdk
  import opened DriverSpec
  import opened Supervisor
  import opened Sends
  import opened Lifecycle
  import opened CallbackGroup

  // The group an event's callback was registered with, read off services_ and the timers.
  function GroupIn(setup: Setup, e: Event): Option<Group> {
    match e
    case Request(call, _) => GroupOf(setup.services, ServiceOf(call))
    case StatusTick(_) => setup.statusTimer
    case DiagnosticsTick(_) => setup.diagTimer
    case _ => None
  }

  // A callback under way: what it will leave and answer, and the commands it has yet to send.
  datatype Instance = Instance(result: Stepped, left: seq<Command>)

  // The shared node and link, the callbacks under way, and what the finished ones put out.
  datatype World = World(sys: System, under: map<nat, Instance>, outputs: seq<Output>)

  function Logged(sys: System, log: seq<Command>): System {
    sys.(s := sys.s.(wire := sys.s.wire.(log := log)))
  }

  // A callback reads the node when it begins, sends its commands one at a time, and its effects
  // show when it ends. Whatever other callbacks sent in between stays on the link.
  function Acted(w: World, m: Move<Event>, instance: nat): World {
    match m
    case Begin(e) => w.(under := w.under[instance := Instance(Step(w.sys, e), EventSends(w.sys, e))])
    case Emit(i) =>
      if i in w.under && w.under[i].left != [] then
        w.(sys := Logged(w.sys, w.sys.s.wire.log + [w.under[i].left[0]]),
           under := w.under[i := w.under[i].(left := w.under[i].left[1..])])
      else w
    case End(i) =>
      if i in w.under
      then World(Logged(w.under[i].result.sys, w.sys.s.wire.log), w.under - {i}, w.outputs + [w.under[i].result.output])
      else w
  }

  function Enact(h: seq<Event>, moves: seq<Move<Event>>): World {
    if moves == [] then World(Run(h), map[], [])
    else
      var front := moves[..|moves| - 1];
      Acted(Enact(h, front), moves[|moves| - 1], |Execute(front).begun|)
  }

  // A callback emits just while it has commands left, and ends when it has none.
  predicate Faithful(h: seq<Event>, moves: seq<Move<Event>>) {
    moves == [] ||
    var front, m := moves[..|moves| - 1], moves[|moves| - 1];
    && Faithful(h, front)
    && (m.Emit? && m.instance in Enact(h, front).under ==> Enact(h, front).under[m.instance].left != [])
    && (m.End? && m.instance in Enact(h, front).under ==> Enact(h, front).under[m.instance].left == [])
  }

  // What the events put out when run one after the other.
  function OutputsOf(h: seq<Event>, events: seq<Event>): seq<Output> {
    if events == [] then []
    else
      var front, e := events[..|events| - 1], events[|events| - 1];
      OutputsOf(h, front) + [Step(Run(h + front), e).output]
  }

  lemma AllInOneGroup(h: seq<Event>)
    ensures OneGroup((e: Event) => GroupIn(Run(h).s.setup, e))
  {
    EveryReachableStateIsSound(h);
    forall e: Event
      ensures GroupIn(Run(h).s.setup, e).Some? ==> GroupIn(Run(h).s.setup, e) == Some(SDK_GROUP)
    {
      if e.Request? {
        ReachableIff(h, ServiceOf(e.call));
      }
    }
  }

  // Callbacks leave every registration as it is, so it does not matter when the groups are looked up.
  lemma RegistrationsStay(h: seq<Event>, e: Event, c: Event)
    requires !IsTransition(e)
    ensures GroupIn(Run(h + [e]).s.setup, c) == GroupIn(Run(h).s.setup, c)
  {
    RunSnoc(h, e);
    OtherEventsKeepSetup(Run(h), e);
  }

  // The commands of two service or timer callbacks never interleave, whatever the schedule.
  lemma NodeNeverInterleaves(h: seq<Event>, moves: seq<Move<Event>>)
    requires Legal(moves, (e: Event) => GroupIn(Run(h).s.setup, e))
    ensures InBlocks(Execute(moves).log)
  {
    AllInOneGroup(h);
    OneGroupIsSerial(moves, (e: Event) => GroupIn(Run(h).s.setup, e));
  }

  // Between callbacks the world is where the serial run is. During one it is there but for the
  // commands sent so far, and the callback knows what is left to send and where it will end.
  predicate InStep(h: seq<Event>, x: Executor<Event>, w: World) {
    && w.under.Keys == x.running
    && (x.running == {} ==> AtRest(h, x.begun, w))
    && (x.running != {} ==> x.begun != [] && x.running == {|x.begun| - 1} && InLast(h, x.begun, w))
  }

  predicate AtRest(h: seq<Event>, begun: seq<Event>, w: World) {
    w.sys == Run(h + begun) && w.outputs == OutputsOf(h, begun)
  }

  predicate InLast(h: seq<Event>, begun: seq<Event>, w: World)
    requires begun != []
  {
    var last := |begun| - 1;
    && last in w.under
    && UnderWay(Run(h + begun[..last]), begun[last], w.sys, w.under[last])
    && w.outputs == OutputsOf(h, begun[..last])
  }

  // Callback e, begun in state before, has brought the shared state to now.
  predicate UnderWay(before: System, e: Event, now: System, i: Instance) {
    && i.result == Step(before, e)
    && now == Logged(before, now.s.wire.log)
    && now.s.wire.log + i.left == before.s.wire.log + EventSends(before, e)
  }

  lemma BeginInStep(h: seq<Event>, x: Executor<Event>, w: World, e: Event)
    requires InStep(h, x, w) && x.running == {}
    ensures InStep(h, After(x, Begin(e)), Acted(w, Begin(e), |x.begun|))
  {
    assert (x.begun + [e])[..|x.begun|] == x.begun;
    assert w.under.Keys == {};
    assert Logged(w.sys, w.sys.s.wire.log) == w.sys;
  }

  // Sending the next command moves it from what is left to the link.
  lemma SendingStaysUnderWay(before: System, e: Event, now: System, i: Instance)
    requires UnderWay(before, e, now, i) && i.left != []
    ensures UnderWay(before, e, Logged(now, now.s.wire.log + [i.left[0]]), i.(left := i.left[1..]))
  {
    assert now.s.wire.log + [i.left[0]] + i.left[1..] == now.s.wire.log + i.left;
  }

  lemma LastGoesOn(h: seq<Event>, begun: seq<Event>, w: World)
    requires begun != [] && InLast(h, begun, w) && w.under[|begun| - 1].left != []
    ensures InLast(h, begun, Acted(w, Emit(|begun| - 1), |begun|))
  {
    var last := |begun| - 1;
    SendingStaysUnderWay(Run(h + begun[..last]), begun[last], w.sys, w.under[last]);
  }

  lemma EmitInStep(h: seq<Event>, x: Executor<Event>, w: World, i: nat)
    requires InStep(h, x, w) && i in x.running && w.under[i].left != []
    ensures InStep(h, After(x, Emit(i)), Acted(w, Emit(i), |x.begun|))
  {
    LastGoesOn(h, x.begun, w);
    assert Acted(w, Emit(i), |x.begun|).under.Keys == w.under.Keys;
  }

  lemma EndsWhereItShould(before: System, e: Event, now: System, i: Instance)
    requires UnderWay(before, e, now, i) && i.left == []
    ensures Logged(i.result.sys, now.s.wire.log) == Step(before, e).sys
  {
    StepLog(before, e);
    assert now.s.wire.log + [] == now.s.wire.log;
  }

  lemma RunLast(h: seq<Event>, begun: seq<Event>)
    requires begun != []
    ensures var front, e := begun[..|begun| - 1], begun[|begun| - 1];
            && Run(h + begun) == Step(Run(h + front), e).sys
            && OutputsOf(h, begun) == OutputsOf(h, front) + [Step(Run(h + front), e).output]
  {
    var front, e := begun[..|begun| - 1], begun[|begun| - 1];
    assert h + begun == h + front + [e];
    RunSnoc(h + front, e);
  }

  lemma LastRests(h: seq<Event>, begun: seq<Event>, w: World)
    requires begun != [] && InLast(h, begun, w) && w.under[|begun| - 1].left == []
    ensures AtRest(h, begun, Acted(w, End(|begun| - 1), |begun|))
  {
    var last := |begun| - 1;
    RunLast(h, begun);
    EndsWhereItShould(Run(h + begun[..last]), begun[last], w.sys, w.under[last]);
  }

  lemma EndInStep(h: seq<Event>, x: Executor<Event>, w: World, i: nat)
    requires InStep(h, x, w) && i in x.running && w.under[i].left == []
    ensures InStep(h, After(x, End(i)), Acted(w, End(i), |x.begun|))
  {
    LastRests(h, x.begun, w);
    assert (w.under - {i}).Keys == {};
  }

  lemma {:induction false} ScheduleInStep(h: seq<Event>, moves: seq<Move<Event>>, groupOf: Event -> Option<Group>)
    requires OneGroup(groupOf) && Legal(moves, groupOf) && Faithful(h, moves)
    ensures InStep(h, Execute(moves), Enact(h, moves))
  {
    if moves == [] {
      assert h + [] == h;
    } else {
      var front, m := moves[..|moves| - 1], moves[|moves| - 1];
      ScheduleInStep(h, front, groupOf);
      OneGroupIsSerial(front, groupOf);
      match m
      case Begin(e) =>
        assert Execute(front).running == {};
        BeginInStep(h, Execute(front), Enact(h, front), e);
      case Emit(i) => EmitInStep(h, Execute(front), Enact(h, front), i);
      case End(i) => EndInStep(h, Execute(front), Enact(h, front), i);
    }
  }

  // After any run, under any schedule the executor may choose for the callbacks then registered:
  // once all begun callbacks are through, node, link and every command on it are where running
  // them whole, in the order they began, leads, and they have answered the same.
  lemma EveryScheduleIsSerial(h: seq<Event>, moves: seq<Move<Event>>)
    requires Legal(moves, (e: Event) => GroupIn(Run(h).s.setup, e)) && Faithful(h, moves)
    requires Execute(moves).running == {}
    ensures Enact(h, moves).sys == Run(h + Execute(moves).begun)
    ensures Enact(h, moves).sys.s.wire.log == Log(h + Execute(moves).begun)
    ensures Enact(h, moves).outputs == OutputsOf(h, Execute(moves).begun)
  {
    AllInOneGroup(h);
    ScheduleInStep(h, moves, (e: Event) => GroupIn(Run(h).s.setup, e));
  }

  // Conversely, any callbacks registered after h can be scheduled, one after the other.

  predicate Schedules(h: seq<Event>, moves: seq<Move<Event>>, events: seq<Event>, groupOf: Event -> Option<Group>) {
    && Legal(moves, groupOf) && Faithful(h, moves)
    && Execute(moves).running == {} && Execute(moves).begun == events
  }

  // A schedule whose last callback has n commands left to send.
  predicate InTheMiddle(h: seq<Event>, moves: seq<Move<Event>>, events: seq<Event>, n: nat,
                        groupOf: Event -> Option<Group>) {
    && Legal(moves, groupOf) && Faithful(h, moves) && events != [] && Execute(moves).begun == events
    && Execute(moves).running == {|events| - 1}
    && |events| - 1 in Enact(h, moves).under && |Enact(h, moves).under[|events| - 1].left| == n
  }

  lemma EnactSnoc(h: seq<Event>, moves: seq<Move<Event>>, m: Move<Event>)
    ensures Enact(h, moves + [m]) == Acted(Enact(h, moves), m, |Execute(moves).begun|)
  {
    assert (moves + [m])[..|moves|] == moves;
  }

  lemma FaithfulSnoc(h: seq<Event>, moves: seq<Move<Event>>, m: Move<Event>)
    requires Faithful(h, moves)
    requires m.Emit? && m.instance in Enact(h, moves).under ==> Enact(h, moves).under[m.instance].left != []
    requires m.End? && m.instance in Enact(h, moves).under ==> Enact(h, moves).under[m.instance].left == []
    ensures Faithful(h, moves + [m])
  {
    assert (moves + [m])[..|moves|] == moves;
  }

  lemma BeginNext(h: seq<Event>, moves: seq<Move<Event>>, events: seq<Event>, e: Event, groupOf: Event -> Option<Group>)
    requires Schedules(h, moves, events, groupOf) && groupOf(e).Some?
    ensures exists n :: InTheMiddle(h, moves + [Begin(e)], events + [e], n, groupOf)
  {
    OneMore(moves, Begin(e), groupOf);
    EnactSnoc(h, moves, Begin(e));
    FaithfulSnoc(h, moves, Begin(e));
    var i := Enact(h, moves + [Begin(e)]).under[|events|];
    assert InTheMiddle(h, moves + [Begin(e)], events + [e], |i.left|, groupOf);
  }

  lemma EmitNext(h: seq<Event>, moves: seq<Move<Event>>, events: seq<Event>, n: nat, groupOf: Event -> Option<Group>)
    requires InTheMiddle(h, moves, events, n, groupOf) && n > 0
    ensures InTheMiddle(h, moves + [Emit(|events| - 1)], events, n - 1, groupOf)
  {
    OneMore(moves, Emit(|events| - 1), groupOf);
    EnactSnoc(h, moves, Emit(|events| - 1));
    FaithfulSnoc(h, moves, Emit(|events| - 1));
  }

  lemma EndNext(h: seq<Event>, moves: seq<Move<Event>>, events: seq<Event>, groupOf: Event -> Option<Group>)
    requires InTheMiddle(h, moves, events, 0, groupOf)
    ensures Schedules(h, moves + [End(|events| - 1)], events, groupOf)
  {
    OneMore(moves, End(|events| - 1), groupOf);
    FaithfulSnoc(h, moves, End(|events| - 1));
  }

  lemma {:induction false} RunToTheEnd(h: seq<Event>, moves: seq<Move<Event>>, events: seq<Event>, n: nat,
                                       groupOf: Event -> Option<Group>)
    requires InTheMiddle(h, moves, events, n, groupOf)
    ensures exists more :: Schedules(h, more, events, groupOf)
    decreases n
  {
    if n == 0 {
      EndNext(h, moves, events, groupOf);
    } else {
      EmitNext(h, moves, events, n, groupOf);
      RunToTheEnd(h, moves + [Emit(|events| - 1)], events, n - 1, groupOf);
    }
  }

  lemma OneMoreCallback(h: seq<Event>, moves: seq<Move<Event>>, events: seq<Event>, e: Event,
                        groupOf: Event -> Option<Group>)
    requires Schedules(h, moves, events, groupOf) && groupOf(e).Some?
    ensures exists more :: Schedules(h, more, events + [e], groupOf)
  {
    BeginNext(h, moves, events, e, groupOf);
    var n :| InTheMiddle(h, moves + [Begin(e)], events + [e], n, groupOf);
    RunToTheEnd(h, moves + [Begin(e)], events + [e], n, groupOf);
  }

  lemma {:induction false} EverySerialRunIsASchedule(h: seq<Event>, events: seq<Event>, groupOf: Event -> Option<Group>)
    requires forall i :: 0 <= i < |events| ==> groupOf(events[i]).Some?
    ensures exists moves :: Schedules(h, moves, events, groupOf)
  {
    if events == [] {
      assert Schedules(h, [], [], groupOf);
    } else {
      var front, e := events[..|events| - 1], events[|events| - 1];
      EverySerialRunIsASchedule(h, front, groupOf);
      var moves :| Schedules(h, moves, front, groupOf);
      OneMoreCallback(h, moves, front, e, groupOf);
      assert front + [e] == events;
    }
  }
}
