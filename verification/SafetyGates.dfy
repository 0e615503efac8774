// Argument validation (safety_gates.cpp). A gate either passes or names why it refused.
module SafetyGates {
  import opened Wrappers
  import opened Doubles

  // The argument, parameter or operation a refusal names.
  datatype Name =
    | Q | Dq | Kp | Kd | Tau | TauFf | MitGains | Pose6 | Vector | Start | Via | End
    | PoseList | Values | Seed | Timeout
    | AllowMotionSwitch | AllowDfuSwitch
    | SavingParams | ResettingParams | CommittingModel

  datatype Reason =
    | PercentRange
    | PresetRange
    | PeriodNotFinite
    | PeriodRange
    | NoAxes
    | IndexRange(count: int)
    | MassNotFinite
    | MassRange
    | ComNotFinite
    | FfEmpty
    | FfNotFinite
    | RequiresDisabled(operation: Name)
    | ParameterOff(name: Name)
    | SpeedNotFinite
    | SpeedRange
    | EmptyList(what: Name)
    | WrongLength(what: Name, got: nat, expected: nat)
    | NotFiniteAt(what: Name, index: nat)
    | NotSixPerWaypoint(got: nat)
    | FilenameEmpty
    | FilenameIsPath
    | TimeoutNotFinite(what: Name)
    | TimeoutNegative(what: Name)
    | TicksNotPositive
    | LinkDown
    | Within(part: Name, inner: Reason)

  datatype GateResult = Pass | Refused(reason: Reason)

  // Gates that are branches only

  function CheckSpeedPercent(percent: int): GateResult {
    if percent < 0 || percent > 100 then Refused(PercentRange) else Pass
  }

  function CheckFfPreset(preset: int): GateResult {
    if preset < 0 || preset > 2 then Refused(PresetRange) else Pass
  }

  const MIN_PERIOD := Fin(0.005)
  const MAX_PERIOD := Fin(0.10)

  function CheckZeroGPeriod(period: Double): GateResult {
    if !IsFinite(period) then Refused(PeriodNotFinite)
    else if Less(period, MIN_PERIOD) || LessEq(MAX_PERIOD, period) then Refused(PeriodRange)
    else Pass
  }

  function CheckJointIndex(index: int, count: int): GateResult {
    if count <= 0 then Refused(NoAxes)
    else if index < 0 || index >= count then Refused(IndexRange(count))
    else Pass
  }

  function CheckMass(mass: Double): GateResult {
    if !IsFinite(mass) then Refused(MassNotFinite)
    else if Less(mass, ZERO) || Less(Fin(20.0), mass) then Refused(MassRange)
    else Pass
  }

  function CheckRequiresDisabled(enabled: bool, operation: Name): GateResult {
    if enabled then Refused(RequiresDisabled(operation)) else Pass
  }

  function CheckParameterAllows(allowed: bool, name: Name): GateResult {
    if !allowed then Refused(ParameterOff(name)) else Pass
  }

  function CheckSpeedFraction(speed: Double): GateResult {
    if !IsFinite(speed) then Refused(SpeedNotFinite)
    else if LessEq(speed, ZERO) || Less(ONE, speed) then Refused(SpeedRange)
    else Pass
  }

  function CheckLogFilename(filename: string): GateResult {
    if filename == "" then Refused(FilenameEmpty)
    else if '/' in filename || '\\' in filename || filename == "." || filename == ".." then Refused(FilenameIsPath)
    else Pass
  }

  function CheckTimeout(timeout: Double, what: Name): GateResult {
    if !IsFinite(timeout) then Refused(TimeoutNotFinite(what))
    else if Less(timeout, ZERO) then Refused(TimeoutNegative(what))
    else Pass
  }

  function CheckConnected(connected: bool): GateResult {
    if !connected then Refused(LinkDown) else Pass
  }

  // The scanning gates: what each loop below has to return

  function FirstNonFinite(values: seq<Double>): Option<nat> {
    if values == [] then None
    else if !IsFinite(values[0]) then Some(0)
    else
      match FirstNonFinite(values[1..])
      case None => None
      case Some(i) => Some(i + 1)
  }

  function CheckFiniteValues(values: seq<Double>, expected: nat, what: Name): GateResult {
    if values == [] then Refused(EmptyList(what))
    else if expected > 0 && |values| != expected then Refused(WrongLength(what, |values|, expected))
    else
      match FirstNonFinite(values)
      case Some(i) => Refused(NotFiniteAt(what, i))
      case None => Pass
  }

  // The overload without a length.
  function CheckFinite(values: seq<Double>, what: Name): GateResult {
    if values == [] then Refused(EmptyList(what))
    else
      match FirstNonFinite(values)
      case Some(i) => Refused(NotFiniteAt(what, i))
      case None => Pass
  }

  function CheckFinitePose(pose: Pose): GateResult {
    CheckFiniteValues(pose, 6, Pose6)
  }

  function CheckFiniteVector3(v: Vector3): GateResult {
    CheckFiniteValues(v, 3, Vector)
  }

  function CheckCom(com: Vector3): GateResult {
    if AllFinite(com) then Pass else Refused(ComNotFinite)
  }

  function CheckFfValues(values: seq<Double>): GateResult {
    if values == [] then Refused(FfEmpty)
    else if AllFinite(values) then Pass
    else Refused(FfNotFinite)
  }

  // The loops themselves, each with the early return of the original

  method ScanFiniteValues(values: seq<Double>, expected: nat, what: Name) returns (gate: GateResult)
    ensures gate == CheckFiniteValues(values, expected, what)
  {
    if |values| == 0 {
      return Refused(EmptyList(what));
    }
    if expected > 0 && |values| != expected {
      return Refused(WrongLength(what, |values|, expected));
    }
    for i := 0 to |values|
      invariant AllFinite(values[..i])
    {
      if !IsFinite(values[i]) {
        LeastNonFinite(values, i);
        return Refused(NotFiniteAt(what, i));
      }
    }
    assert values[..|values|] == values;
    FirstNonFiniteFinds(values);
    return Pass;
  }

  method ScanFinite(values: seq<Double>, what: Name) returns (gate: GateResult)
    ensures gate == CheckFinite(values, what)
  {
    gate := ScanFiniteValues(values, 0, what);
  }

  method ScanCom(com: Vector3) returns (gate: GateResult)
    ensures gate == CheckCom(com)
  {
    for i := 0 to |com|
      invariant AllFinite(com[..i])
    {
      if !IsFinite(com[i]) {
        return Refused(ComNotFinite);
      }
    }
    assert com[..|com|] == com;
    return Pass;
  }

  method ScanFfValues(values: seq<Double>) returns (gate: GateResult)
    ensures gate == CheckFfValues(values)
  {
    if |values| == 0 {
      return Refused(FfEmpty);
    }
    for i := 0 to |values|
      invariant AllFinite(values[..i])
    {
      if !IsFinite(values[i]) {
        return Refused(FfNotFinite);
      }
    }
    assert values[..|values|] == values;
    return Pass;
  }

  lemma {:induction false} FirstNonFiniteFinds(values: seq<Double>)
    ensures FirstNonFinite(values).None? <==> AllFinite(values)
    ensures FirstNonFinite(values).Some?
       ==> var i := FirstNonFinite(values).value;
           i < |values| && !IsFinite(values[i]) && AllFinite(values[..i])
  {
    if values == [] {
    } else {
      FirstNonFiniteFinds(values[1..]);
      assert forall i :: 0 <= i < |values| ==> values[i] == if i == 0 then values[0] else values[1..][i - 1];
      if IsFinite(values[0]) && FirstNonFinite(values).Some? {
        var i := FirstNonFinite(values[1..]).value;
        assert values[..i + 1] == [values[0]] + values[1..][..i];
      }
    }
  }

  lemma LeastNonFinite(values: seq<Double>, i: nat)
    requires i < |values| && !IsFinite(values[i]) && AllFinite(values[..i])
    ensures FirstNonFinite(values) == Some(i)
  {
    FirstNonFiniteFinds(values);
    var first := FirstNonFinite(values).value;
    assert forall k :: 0 <= k < i ==> values[..i][k] == values[k];
    assert forall k :: 0 <= k < first ==> values[..first][k] == values[k];
  }

  // What the gates accept

  // Every range gate accepts exactly the real interval the service documents, and nothing that is not a number.
  lemma RangeGatesAcceptExactly(x: Double)
    ensures CheckSpeedFraction(x).Pass? <==> x.Fin? && 0.0 < x.value <= 1.0
    ensures CheckZeroGPeriod(x).Pass? <==> x.Fin? && 0.005 <= x.value < 0.10
    ensures CheckMass(x).Pass? <==> x.Fin? && 0.0 <= x.value <= 20.0
    ensures forall what :: CheckTimeout(x, what).Pass? <==> x.Fin? && 0.0 <= x.value
  {
  }

  // A refusal says what is wrong: not a number, out of range, or which rule forbids it.
  lemma RangeRefusalsSayWhy(x: Double, what: Name)
    ensures CheckSpeedFraction(x) == if !x.Fin? then Refused(SpeedNotFinite)
                                     else if 0.0 < x.value <= 1.0 then Pass else Refused(SpeedRange)
    ensures CheckZeroGPeriod(x) == if !x.Fin? then Refused(PeriodNotFinite)
                                   else if 0.005 <= x.value < 0.10 then Pass else Refused(PeriodRange)
    ensures CheckMass(x) == if !x.Fin? then Refused(MassNotFinite)
                            else if 0.0 <= x.value <= 20.0 then Pass else Refused(MassRange)
    ensures CheckTimeout(x, what) == if !x.Fin? then Refused(TimeoutNotFinite(what))
                                     else if 0.0 <= x.value then Pass else Refused(TimeoutNegative(what))
  {
  }

  lemma OtherRefusalsSayWhy(n: int, count: int, b: bool, what: Name, name: string)
    ensures CheckSpeedPercent(n) == if 0 <= n <= 100 then Pass else Refused(PercentRange)
    ensures CheckFfPreset(n) == if n == 0 || n == 1 || n == 2 then Pass else Refused(PresetRange)
    ensures CheckJointIndex(n, count) == if count <= 0 then Refused(NoAxes)
                                         else if 0 <= n < count then Pass else Refused(IndexRange(count))
    ensures CheckRequiresDisabled(b, what) == if b then Refused(RequiresDisabled(what)) else Pass
    ensures CheckParameterAllows(b, what) == if b then Pass else Refused(ParameterOff(what))
    ensures CheckConnected(b) == if b then Pass else Refused(LinkDown)
    ensures CheckLogFilename(name).Refused?
       ==> CheckLogFilename(name).reason == if |name| == 0 then FilenameEmpty else FilenameIsPath
  {
  }

  lemma ListRefusalsSayWhy(values: seq<Double>, expected: nat, what: Name)
    ensures values == [] ==> CheckFiniteValues(values, expected, what) == Refused(EmptyList(what))
                             && CheckFinite(values, what) == Refused(EmptyList(what))
                             && CheckFfValues(values) == Refused(FfEmpty)
    ensures values != [] && expected > 0 && |values| != expected
       ==> CheckFiniteValues(values, expected, what) == Refused(WrongLength(what, |values|, expected))
    ensures values != [] && !AllFinite(values)
       ==> CheckFfValues(values) == Refused(FfNotFinite)
           && CheckFinite(values, what).Refused? && CheckFinite(values, what).reason.NotFiniteAt?
           && CheckFinite(values, what).reason.what == what
  {
    FirstNonFiniteFinds(values);
  }

  // The finiteness test of a range gate is not redundant: NaN is the one value for which both
  // comparisons of every range test are false, so without that test the gate would let it through.
  lemma OnlyNaNSlipsThroughTheComparisons(x: Double)
    ensures (!LessEq(x, ZERO) && !Less(ONE, x)) && CheckSpeedFraction(x).Refused? <==> x == NaN
    ensures (!Less(x, MIN_PERIOD) && !LessEq(MAX_PERIOD, x)) && CheckZeroGPeriod(x).Refused? <==> x == NaN
    ensures (!Less(x, ZERO) && !Less(Fin(20.0), x)) && CheckMass(x).Refused? <==> x == NaN
  {
  }

  lemma FiniteGateAcceptsExactly(values: seq<Double>, expected: nat, what: Name)
    ensures CheckFiniteValues(values, expected, what).Pass?
       <==> values != [] && AllFinite(values) && (expected > 0 ==> |values| == expected)
  {
    FirstNonFiniteFinds(values);
  }

  // A non-finite refusal names the least offending index, and only such a list is refused that way.
  lemma RefusalNamesTheLeastOffender(values: seq<Double>, expected: nat, what: Name, i: nat)
    ensures CheckFiniteValues(values, expected, what) == Refused(NotFiniteAt(what, i))
       <==> (expected > 0 ==> |values| == expected)
            && i < |values| && !IsFinite(values[i]) && AllFinite(values[..i])
  {
    FirstNonFiniteFinds(values);
    if i < |values| && !IsFinite(values[i]) && AllFinite(values[..i]) {
      LeastNonFinite(values, i);
    }
  }

  // The length rule is enforced exactly when the expected length is positive.
  lemma LengthEnforcedIff(expected: nat, what: Name)
    ensures (forall values :: CheckFiniteValues(values, expected, what).Pass? ==> |values| == expected)
       <==> expected > 0
  {
    forall values: seq<Double>
      ensures CheckFiniteValues(values, expected, what).Pass? && expected > 0 ==> |values| == expected
    {
      FiniteGateAcceptsExactly(values, expected, what);
    }
    if expected == 0 {
      FiniteGateAcceptsExactly([ZERO], expected, what);
      assert CheckFiniteValues([ZERO], expected, what).Pass?;
    }
  }

  // Gates written separately for one rule accept the same arguments.
  lemma GatesAgree(values: seq<Double>, triple: Vector3, what: Name)
    ensures CheckFfValues(values).Pass? <==> CheckFinite(values, what).Pass?
    ensures CheckCom(triple).Pass? <==> CheckFiniteVector3(triple).Pass?
    ensures CheckFiniteValues(values, 0, what) == CheckFinite(values, what)
    ensures values != [] ==> CheckFiniteValues(values, |values|, what) == CheckFinite(values, what)
  {
    FirstNonFiniteFinds(values);
    FirstNonFiniteFinds(triple);
  }

  // A handler tries its gates in order and stops at the first that refuses.
  function FirstRefusal(gates: seq<GateResult>): GateResult {
    if gates == [] then Pass
    else if gates[0].Refused? then gates[0]
    else FirstRefusal(gates[1..])
  }

  predicate AllPass(gates: seq<GateResult>) {
    forall i :: 0 <= i < |gates| ==> gates[i].Pass?
  }

  // The verdict is the first refusal, whichever place it has; none means every gate passed.
  lemma {:induction false} FirstRefusalIsTheFirst(gates: seq<GateResult>)
    ensures FirstRefusal(gates).Pass? <==> AllPass(gates)
    ensures FirstRefusal(gates).Refused?
       ==> exists i :: 0 <= i < |gates| && FirstRefusal(gates) == gates[i]
                       && forall j :: 0 <= j < i ==> gates[j].Pass?
  {
    if gates == [] {
    } else if gates[0].Refused? {
    } else {
      FirstRefusalIsTheFirst(gates[1..]);
      assert forall i :: 1 <= i < |gates| ==> gates[i] == gates[1..][i - 1];
      if FirstRefusal(gates).Refused? {
        var i :| 0 <= i < |gates[1..]| && FirstRefusal(gates[1..]) == gates[1..][i]
                 && forall j :: 0 <= j < i ==> gates[1..][j].Pass?;
        assert FirstRefusal(gates) == gates[i + 1];
      }
    }
  }

  lemma {:induction false} RefusesAt(gates: seq<GateResult>, i: nat)
    requires i < |gates| && gates[i].Refused? && forall j :: 0 <= j < i ==> gates[j].Pass?
    ensures FirstRefusal(gates) == gates[i]
  {
    if i == 0 {
    } else {
      assert gates[0].Pass?;
      RefusesAt(gates[1..], i - 1);
    }
  }

  // Past the gates before it, the last gate is the verdict.
  lemma LastDecides(gates: seq<GateResult>)
    requires gates != [] && forall i :: 0 <= i < |gates| - 1 ==> gates[i].Pass?
    ensures FirstRefusal(gates) == gates[|gates| - 1]
  {
    FirstRefusalIsTheFirst(gates);
    if gates[|gates| - 1].Refused? {
      RefusesAt(gates, |gates| - 1);
    }
  }
}
