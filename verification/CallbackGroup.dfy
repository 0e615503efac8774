// Callbacks under a multi-threaded executor, which may interleave them at will except that it never
// runs two callbacks of one mutually exclusive group at once.
module CallbackGroup {
  import opened Wrappers
  import opened DriverSpec

  // The executor's moves. Each begun callback is a new instance, numbered in order.
  datatype Move<T> = Begin(callback: T) | Emit(instance: nat) | End(instance: nat)

  datatype Executor<T> = Executor(begun: seq<T>, running: set<nat>, log: seq<nat>)

  // groupOf says which group a callback was registered with, None for one that was not registered.
  predicate Exclusive<T>(x: Executor<T>, c: T, groupOf: T -> Option<Group>) {
    forall i :: i in x.running && i < |x.begun| ==> groupOf(x.begun[i]) != groupOf(c)
  }

  // The executor begins a registered callback whose group is free, and only running callbacks emit.
  predicate Allowed<T>(x: Executor<T>, m: Move<T>, groupOf: T -> Option<Group>) {
    match m
    case Begin(c) => groupOf(c).Some? && Exclusive(x, c, groupOf)
    case Emit(i) => i in x.running
    case End(i) => i in x.running
  }

  function After<T>(x: Executor<T>, m: Move<T>): Executor<T> {
    match m
    case Begin(c) => Executor(x.begun + [c], x.running + {|x.begun|}, x.log)
    case Emit(i) => x.(log := x.log + [i])
    case End(i) => x.(running := x.running - {i})
  }

  function Execute<T>(moves: seq<Move<T>>): Executor<T> {
    if moves == [] then Executor([], {}, []) else After(Execute(moves[..|moves| - 1]), moves[|moves| - 1])
  }

  predicate Legal<T>(moves: seq<Move<T>>, groupOf: T -> Option<Group>) {
    moves == [] ||
    var front := moves[..|moves| - 1];
    Legal(front, groupOf) && Allowed(Execute(front), moves[|moves| - 1], groupOf)
  }

  // Each instance's emissions form one uninterrupted block.
  predicate InBlocks(log: seq<nat>) {
    forall i, j, k :: 0 <= i < j < k < |log| && log[i] == log[k] ==> log[j] == log[i]
  }

  // With one group, the log is sorted by instance, hence in blocks; the last begun instance is
  // the only one that can be running.
  predicate Serial<T>(x: Executor<T>) {
    && (forall i :: i in x.running ==> i == |x.begun| - 1)
    && (forall i :: 0 <= i < |x.log| ==> x.log[i] < |x.begun|)
    && (forall i, j :: 0 <= i < j < |x.log| ==> x.log[i] <= x.log[j])
  }

  ghost predicate OneGroup<T(!new)>(groupOf: T -> Option<Group>) {
    forall c, d :: groupOf(c).Some? && groupOf(d).Some? ==> groupOf(c) == groupOf(d)
  }

  predicate RunningAreRegistered<T>(x: Executor<T>, groupOf: T -> Option<Group>) {
    forall i :: 0 <= i < |x.begun| ==> groupOf(x.begun[i]).Some?
  }

  lemma MoveStaysSerial<T(!new)>(x: Executor<T>, m: Move<T>, groupOf: T -> Option<Group>)
    requires OneGroup(groupOf)
    requires Serial(x) && RunningAreRegistered(x, groupOf) && Allowed(x, m, groupOf)
    ensures Serial(After(x, m)) && RunningAreRegistered(After(x, m), groupOf)
  {
    if m.Begin? {
      assert x.running == {};
    }
  }

  lemma {:induction false} OneGroupIsSerial<T(!new)>(moves: seq<Move<T>>, groupOf: T -> Option<Group>)
    requires OneGroup(groupOf) && Legal(moves, groupOf)
    ensures Serial(Execute(moves)) && RunningAreRegistered(Execute(moves), groupOf)
  {
    if moves == [] {
    } else {
      var front := moves[..|moves| - 1];
      OneGroupIsSerial(front, groupOf);
      MoveStaysSerial(Execute(front), moves[|moves| - 1], groupOf);
    }
  }

  // The single group is what the guarantee rests on: callbacks never interleave, under every
  // schedule, exactly when all registered callbacks share one group.
  lemma NeverInterleavesIffOneGroup<T(!new)>(groupOf: T -> Option<Group>)
    ensures (forall moves :: Legal(moves, groupOf) ==> InBlocks(Execute(moves).log)) <==> OneGroup(groupOf)
  {
    if OneGroup(groupOf) {
      forall moves | Legal(moves, groupOf)
        ensures InBlocks(Execute(moves).log)
      {
        OneGroupIsSerial(moves, groupOf);
      }
    } else {
      var c, d :| groupOf(c).Some? && groupOf(d).Some? && groupOf(c) != groupOf(d);
      Interleaving(c, d, groupOf);
    }
  }

  lemma OneMore<T>(moves: seq<Move<T>>, m: Move<T>, groupOf: T -> Option<Group>)
    requires Legal(moves, groupOf) && Allowed(Execute(moves), m, groupOf)
    ensures Legal(moves + [m], groupOf) && Execute(moves + [m]) == After(Execute(moves), m)
  {
    assert (moves + [m])[..|moves|] == moves;
  }

  // Both begin, and then the first emits on either side of the second.
  lemma Interleaving<T(!new)>(c: T, d: T, groupOf: T -> Option<Group>)
    requires groupOf(c).Some? && groupOf(d).Some? && groupOf(c) != groupOf(d)
    ensures exists moves :: Legal(moves, groupOf) && !InBlocks(Execute(moves).log)
  {
    OneMore([], Begin(c), groupOf);
    var one := [] + [Begin(c)];
    assert Execute(one) == Executor([c], {0}, []);
    OneMore(one, Begin(d), groupOf);
    assert Execute(one + [Begin(d)]) == Executor([c, d], {0, 1}, []);
    EmittingInterleaves(one + [Begin(d)], groupOf);
  }

  lemma EmittingInterleaves<T(!new)>(moves: seq<Move<T>>, groupOf: T -> Option<Group>)
    requires Legal(moves, groupOf) && Execute(moves).running == {0, 1} && Execute(moves).log == []
    ensures exists more :: Legal(more, groupOf) && !InBlocks(Execute(more).log)
  {
    OneMore(moves, Emit(0), groupOf);
    OneMore(moves + [Emit(0)], Emit(1), groupOf);
    OneMore(moves + [Emit(0)] + [Emit(1)], Emit(0), groupOf);
    var log := Execute(moves + [Emit(0)] + [Emit(1)] + [Emit(0)]).log;
    assert log[0] == log[2] && log[1] != log[0];
  }
}
