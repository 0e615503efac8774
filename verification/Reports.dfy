// The two computations behind what the node publishes: the per-axis part of the status message
// and the aggregated diagnostic (litearm_driver_node.cpp, build_status and publish_diagnostics).
module Reports {
  import opened Wrappers
  import opened Doubles
  import opened Sdk

  // Status projection

  datatype Axes = Axes(mos: seq<Double>, coil: seq<Double>, errors: seq<int>)

  predicate Covered(frame: Option<Frame>, i: nat) {
    frame.Some? && i < |frame.value.joints|
  }

  // One entry per configured axis: the frame's value where the frame has one, NaN/NaN/0 elsewhere.
  predicate Projects(axes: Axes, count: nat, frame: Option<Frame>) {
    |axes.mos| == |axes.coil| == |axes.errors| == count
    && forall i :: 0 <= i < count ==>
         if Covered(frame, i)
         then axes.mos[i] == frame.value.joints[i].tMos && axes.coil[i] == frame.value.joints[i].tCoil
              && axes.errors[i] == frame.value.joints[i].err
         else axes.mos[i] == NaN && axes.coil[i] == NaN && axes.errors[i] == 0
  }

  function Projection(count: nat, frame: Option<Frame>): (axes: Axes) {
    Axes(seq(count, i requires 0 <= i => if Covered(frame, i) then frame.value.joints[i].tMos else NaN),
         seq(count, i requires 0 <= i => if Covered(frame, i) then frame.value.joints[i].tCoil else NaN),
         seq(count, i requires 0 <= i => if Covered(frame, i) then frame.value.joints[i].err else 0))
  }

  // The defaults are assigned first and the common prefix is overwritten; that is total on every
  // pair of lengths and leaves no choice.
  method ProjectAxes(count: nat, frame: Option<Frame>) returns (axes: Axes)
    ensures Projects(axes, count, frame)
    ensures axes == Projection(count, frame)
  {
    axes := Axes(seq(count, _ => NaN), seq(count, _ => NaN), seq(count, _ => 0));
    if frame.Some? {
      var joints := frame.value.joints;
      var common := if count < |joints| then count else |joints|;
      for i := 0 to common
        invariant Projects(axes, count, Some(frame.value.(joints := joints[..i])))
      {
        axes := axes.(mos := axes.mos[i := joints[i].tMos], coil := axes.coil[i := joints[i].tCoil],
                      errors := axes.errors[i := joints[i].err]);
      }
    }
    ProjectionIsUnique(axes, Projection(count, frame), count, frame);
  }

  lemma ProjectionIsUnique(a: Axes, b: Axes, count: nat, frame: Option<Frame>)
    requires Projects(a, count, frame) && Projects(b, count, frame)
    ensures a == b
  {
    assert a.mos == b.mos && a.coil == b.coil && a.errors == b.errors;
  }

  lemma ProjectionProjects(count: nat, frame: Option<Frame>)
    ensures Projects(Projection(count, frame), count, frame)
  {
  }

  // Joint states carry only the axes both sides know.
  datatype JointStates = JointStates(
    names: seq<string>, position: seq<Double>, velocity: seq<Double>, effort: seq<Double>)

  function JointStatesOf(names: seq<string>, frame: Frame): JointStates {
    var common := if |names| < |frame.joints| then |names| else |frame.joints|;
    JointStates(names, seq(common, i requires 0 <= i < common => frame.joints[i].q),
                seq(common, i requires 0 <= i < common => frame.joints[i].dq),
                seq(common, i requires 0 <= i < common => frame.joints[i].tau))
  }

  method CollectJointStates(names: seq<string>, frame: Frame) returns (message: JointStates)
    ensures message == JointStatesOf(names, frame)
  {
    var position, velocity, effort := [], [], [];
    var common := if |names| < |frame.joints| then |names| else |frame.joints|;
    for i := 0 to common
      invariant |position| == |velocity| == |effort| == i
      invariant forall k :: 0 <= k < i ==>
        position[k] == frame.joints[k].q && velocity[k] == frame.joints[k].dq && effort[k] == frame.joints[k].tau
    {
      position := position + [frame.joints[i].q];
      velocity := velocity + [frame.joints[i].dq];
      effort := effort + [frame.joints[i].tau];
    }
    message := JointStates(names, position, velocity, effort);
  }

  // Age of a frame on the SDK's clock, -1 for "none yet".
  function FrameAge(stamp: real, now: real): real {
    if stamp <= 0.0 then -1.0 else now - stamp
  }

  // Diagnostic aggregation

  datatype Level = OK | WARN | ERROR

  function Rank(level: Level): nat {
    match level case OK => 0 case WARN => 1 case ERROR => 2
  }

  datatype Condition = LinkDown | InDfu | Faulted(detail: string) | DropHold | NotLicensed | ZeroGravity

  function Severity(c: Condition): Level {
    match c
    case LinkDown => ERROR
    case InDfu => ERROR
    case Faulted(_) => ERROR
    case DropHold => WARN
    case NotLicensed => WARN
    case ZeroGravity => OK
  }

  const RELEASE_HINT := " (reset or clear_faults to release)"
  const LICENCE_HINT := ": ENABLE will be refused"

  function Text(c: Condition): (text: string)
    ensures text != "" && text[0] != 'o'
  {
    match c
    case LinkDown => "link down"
    case InDfu => "in DFU"
    case Faulted(detail) => "faulted: " + detail
    case DropHold => "rigid-hold latch inferred" + RELEASE_HINT
    case NotLicensed => "licence not activated" + LICENCE_HINT
    case ZeroGravity => "zero gravity active"
  }

  // What the diagnostic is about, in the order it is reported.
  datatype Facts = Facts(linkDown: bool, inDfu: bool, fault: Option<string>, dropHold: bool,
                         notLicensed: bool, zeroG: bool)

  // The diagnostic so far.
  datatype Tally = Tally(level: Level, problems: string)

  function Note(problems: string, text: string): string {
    if problems == "" then text else problems + "; " + text
  }

  function Worse(a: Level, b: Level): Level {
    if Rank(a) < Rank(b) then b else a
  }

  function Noted(t: Tally, holds: bool, c: Condition): Tally {
    if holds then Tally(Worse(t.level, Severity(c)), Note(t.problems, Text(c))) else t
  }

  function FaultOf(f: Facts): Condition {
    Faulted(if f.fault.Some? then f.fault.value else "")
  }

  datatype Diagnostic = Diagnostic(level: Level, message: string)

  function DiagnosticOf(f: Facts): Diagnostic {
    var t1 := Noted(Tally(OK, ""), f.linkDown, LinkDown);
    var t2 := Noted(t1, f.inDfu, InDfu);
    var t3 := Noted(t2, f.fault.Some?, FaultOf(f));
    var t4 := Noted(t3, f.dropHold, DropHold);
    var t5 := Noted(t4, f.notLicensed, NotLicensed);
    var t6 := Noted(t5, f.zeroG, ZeroGravity);
    Diagnostic(t6.level, if t6.problems == "" then "ok" else t6.problems)
  }

  // One `if` of publish_diagnostics: an error overwrites the level, a warning only replaces OK,
  // zero gravity leaves it alone, and the text is appended to the notes so far.
  method Report(t: Tally, holds: bool, c: Condition) returns (t': Tally)
    ensures t' == Noted(t, holds, c)
  {
    t' := t;
    if holds {
      if Severity(c) == ERROR {
        t' := t'.(level := ERROR);
      } else if Severity(c) == WARN && t.level == OK {
        t' := t'.(level := WARN);
      }
      t' := t'.(problems := Note(t.problems, Text(c)));
    }
  }

  method Aggregate(f: Facts) returns (d: Diagnostic)
    ensures d == DiagnosticOf(f)
  {
    var t := Tally(OK, "");
    t := Report(t, f.linkDown, LinkDown);
    t := Report(t, f.inDfu, InDfu);
    t := Report(t, f.fault.Some?, FaultOf(f));
    t := Report(t, f.dropHold, DropHold);
    t := Report(t, f.notLicensed, NotLicensed);
    t := Report(t, f.zeroG, ZeroGravity);
    d := Diagnostic(t.level, if |t.problems| == 0 then "ok" else t.problems);
  }

  // What the updates add up to

  // The conditions publish_diagnostics looks at, in its order, with whether each holds.
  function Checks(f: Facts): seq<(bool, Condition)> {
    [(f.linkDown, LinkDown), (f.inDfu, InDfu), (f.fault.Some?, FaultOf(f)),
     (f.dropHold, DropHold), (f.notLicensed, NotLicensed), (f.zeroG, ZeroGravity)]
  }

  function Tallied(checks: seq<(bool, Condition)>): Tally {
    if checks == [] then Tally(OK, "")
    else
      var last := checks[|checks| - 1];
      Noted(Tallied(checks[..|checks| - 1]), last.0, last.1)
  }

  function Holding(checks: seq<(bool, Condition)>): seq<Condition> {
    if checks == [] then []
    else
      var last := checks[|checks| - 1];
      Holding(checks[..|checks| - 1]) + if last.0 then [last.1] else []
  }

  function Highest(conditions: seq<Condition>): Level {
    if conditions == [] then OK
    else Worse(Highest(conditions[..|conditions| - 1]), Severity(conditions[|conditions| - 1]))
  }

  function Joined(conditions: seq<Condition>): string {
    if conditions == [] then ""
    else if |conditions| == 1 then Text(conditions[0])
    else Joined(conditions[..|conditions| - 1]) + "; " + Text(conditions[|conditions| - 1])
  }

  function Summary(conditions: seq<Condition>): Tally {
    Tally(Highest(conditions), Joined(conditions))
  }

  lemma {:induction false} NotesAreNotEmpty(conditions: seq<Condition>)
    ensures conditions != [] ==> Joined(conditions) != "" && Joined(conditions)[0] != 'o'
  {
    if |conditions| > 1 {
      NotesAreNotEmpty(conditions[..|conditions| - 1]);
    }
  }

  lemma {:induction false} TalliedIsTheSummary(checks: seq<(bool, Condition)>)
    ensures Tallied(checks) == Summary(Holding(checks))
  {
    if checks == [] {
    } else {
      var front, last := checks[..|checks| - 1], checks[|checks| - 1];
      TalliedIsTheSummary(front);
      NotesAreNotEmpty(Holding(front));
      assert (Holding(front) + [last.1])[..|Holding(front)|] == Holding(front);
      assert Holding(front) + [] == Holding(front);
    }
  }

  lemma {:induction false} HoldingIsWhatHolds(checks: seq<(bool, Condition)>, c: Condition)
    ensures c in Holding(checks) <==> (true, c) in checks
  {
    if checks == [] {
    } else {
      var front, last := checks[..|checks| - 1], checks[|checks| - 1];
      HoldingIsWhatHolds(front, c);
      assert checks == front + [last];
    }
  }

  lemma {:induction false} HighestIsTheMaximum(conditions: seq<Condition>)
    ensures forall c :: c in conditions ==> Rank(Severity(c)) <= Rank(Highest(conditions))
    ensures Highest(conditions) != OK ==> exists c :: c in conditions && Severity(c) == Highest(conditions)
  {
    if conditions == [] {
    } else {
      var front, last := conditions[..|conditions| - 1], conditions[|conditions| - 1];
      HighestIsTheMaximum(front);
      assert conditions == front + [last];
    }
  }

  lemma TalliedAppends(checks: seq<(bool, Condition)>, holds: bool, c: Condition)
    ensures Tallied(checks + [(holds, c)]) == Noted(Tallied(checks), holds, c)
  {
    assert (checks + [(holds, c)])[..|checks|] == checks;
  }

  lemma DiagnosticIsTheTally(f: Facts)
    ensures var t := Tallied(Checks(f));
            DiagnosticOf(f) == Diagnostic(t.level, if t.problems == "" then "ok" else t.problems)
  {
    TalliedAppends([], f.linkDown, LinkDown);
    TalliedAppends([(f.linkDown, LinkDown)], f.inDfu, InDfu);
    var three := [(f.linkDown, LinkDown), (f.inDfu, InDfu)] + [(f.fault.Some?, FaultOf(f))];
    TalliedAppends([(f.linkDown, LinkDown), (f.inDfu, InDfu)], f.fault.Some?, FaultOf(f));
    TalliedAppends(three, f.dropHold, DropHold);
    TalliedAppends(three + [(f.dropHold, DropHold)], f.notLicensed, NotLicensed);
    TalliedAppends(three + [(f.dropHold, DropHold)] + [(f.notLicensed, NotLicensed)], f.zeroG, ZeroGravity);
    assert Checks(f) == three + [(f.dropHold, DropHold)] + [(f.notLicensed, NotLicensed)] + [(f.zeroG, ZeroGravity)];
  }

  // The level without the notion of severity: a lost link, update mode and a latched fault are
  // errors, an inferred latch and a missing licence warnings, zero gravity is neither.
  predicate HasLevel(level: Level, error: bool, warning: bool) {
    level == if error then ERROR else if warning then WARN else OK
  }

  lemma LevelIsDecidedBy(f: Facts)
    ensures HasLevel(DiagnosticOf(f).level, f.linkDown || f.inDfu || f.fault.Some?, f.dropHold || f.notLicensed)
  {
  }

  // The words of each note.
  lemma NotesRead(detail: string)
    ensures Text(LinkDown) == "link down" && Text(InDfu) == "in DFU" && Text(Faulted(detail)) == "faulted: " + detail
    ensures Text(ZeroGravity) == "zero gravity active"
    ensures Text(DropHold) == "rigid-hold latch inferred" + " (reset or clear_faults to release)"
    ensures Text(NotLicensed) == "licence not activated" + ": ENABLE will be refused"
  {
  }

  // Joining: each note as it is, with "; " between neighbours and nowhere else.
  lemma {:induction false} JoinedSplits(a: seq<Condition>, b: seq<Condition>)
    requires a != [] && b != []
    ensures Joined(a + b) == Joined(a) + "; " + Joined(b)
  {
    var front, last := b[..|b| - 1], b[|b| - 1];
    assert b == front + [last];
    if |b| == 1 {
      JoinedSnoc(a, last);
    } else {
      JoinedSplits(a, front);
      JoinedStep(a, front, last);
    }
  }

  lemma JoinedStep(a: seq<Condition>, front: seq<Condition>, last: Condition)
    requires a != [] && front != [] && Joined(a + front) == Joined(a) + "; " + Joined(front)
    ensures Joined(a + (front + [last])) == Joined(a) + "; " + Joined(front + [last])
  {
    JoinedSnoc(a + front, last);
    JoinedSnoc(front, last);
    assert a + (front + [last]) == a + front + [last];
    Reassociate(Joined(a), Joined(front), Text(last));
  }

  lemma JoinedSnoc(front: seq<Condition>, c: Condition)
    requires front != []
    ensures Joined(front + [c]) == Joined(front) + "; " + Text(c)
  {
    assert (front + [c])[..|front|] == front;
  }

  lemma Reassociate(a: string, b: string, c: string)
    ensures a + "; " + b + "; " + c == a + "; " + (b + "; " + c)
  {
  }

  lemma JoinedOne(c: Condition)
    ensures Joined([c]) == Text(c) && Joined([]) == ""
  {
  }

  // The published diagnostic: its level is the worst severity among the conditions that hold, its
  // text lists just those, in order, and it reads "ok" exactly when none holds.
  lemma DiagnosticIsFaithful(f: Facts)
    ensures var d, holding := DiagnosticOf(f), Holding(Checks(f));
            && (forall c :: c in holding <==> (true, c) in Checks(f))
            && (forall c :: c in holding ==> Rank(Severity(c)) <= Rank(d.level))
            && (d.level != OK ==> exists c :: c in holding && Severity(c) == d.level)
            && (holding != [] ==> d.message == Joined(holding))
            && (d.message == "ok" <==> holding == [])
  {
    var checks := Checks(f);
    DiagnosticIsTheTally(f);
    TalliedIsTheSummary(checks);
    HighestIsTheMaximum(Holding(checks));
    NotesAreNotEmpty(Holding(checks));
    forall c
      ensures c in Holding(checks) <==> (true, c) in checks
    {
      HoldingIsWhatHolds(checks, c);
    }
  }
}
