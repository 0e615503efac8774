// The flat waypoint list of move_path turned into the SDK's pose list (litearm_driver_motion.cpp).
module Waypoints {
  import opened Doubles
  import opened SafetyGates

  function Unflatten(flat: seq<Double>): (poses: seq<Pose>)
    requires |flat| % 6 == 0
  {
    if flat == [] then [] else [flat[..6]] + Unflatten(flat[6..])
  }

  function Flatten(poses: seq<Pose>): seq<Double> {
    if poses == [] then [] else poses[0] + Flatten(poses[1..])
  }

  function CheckPoses(flat: seq<Double>): GateResult {
    var gate := CheckFinite(flat, PoseList);
    if gate.Refused? then gate
    else if |flat| % 6 != 0 then Refused(NotSixPerWaypoint(|flat|))
    else Pass
  }

  // What move_path hands the SDK: nothing on a refused list.
  function Poses(flat: seq<Double>): seq<Pose> {
    if CheckPoses(flat).Pass? then Unflatten(flat) else []
  }

  method ReadPoses(flat: seq<Double>) returns (poses: seq<Pose>, gate: GateResult)
    ensures gate == CheckPoses(flat)
    ensures poses == Poses(flat)
  {
    poses := [];
    gate := ScanFinite(flat, PoseList);
    if gate.Refused? {
      return;
    }
    if |flat| % 6 != 0 {
      gate := Refused(NotSixPerWaypoint(|flat|));
      return;
    }
    var i := 0;
    while i < |flat|
      invariant i <= |flat| && i % 6 == 0
      invariant poses == Unflatten(flat[..i])
    {
      var pose: Pose := [flat[i], flat[i + 1], flat[i + 2], flat[i + 3], flat[i + 4], flat[i + 5]];
      AppendWaypoint(flat[..i], pose);
      assert flat[..i] + pose == flat[..i + 6];
      poses := poses + [pose];
      i := i + 6;
    }
    assert flat[..|flat|] == flat;
  }

  lemma {:induction false} AppendWaypoint(flat: seq<Double>, pose: Pose)
    requires |flat| % 6 == 0
    ensures Unflatten(flat + pose) == Unflatten(flat) + [pose]
  {
    if flat == [] {
      assert flat + pose == pose && pose[..6] == pose && pose[6..] == [];
    } else {
      AppendWaypoint(flat[6..], pose);
      assert (flat + pose)[6..] == flat[6..] + pose && (flat + pose)[..6] == flat[..6];
    }
  }

  lemma {:induction false} FlattenUnflatten(flat: seq<Double>)
    requires |flat| % 6 == 0
    ensures Flatten(Unflatten(flat)) == flat
    ensures |Unflatten(flat)| == |flat| / 6
  {
    if flat == [] {
    } else {
      FlattenUnflatten(flat[6..]);
      var poses := Unflatten(flat);
      assert poses[0] == flat[..6] && poses[1..] == Unflatten(flat[6..]);
      assert flat == flat[..6] + flat[6..];
    }
  }

  lemma {:induction false} UnflattenFlatten(poses: seq<Pose>)
    ensures |Flatten(poses)| == 6 * |poses|
    ensures Unflatten(Flatten(poses)) == poses
  {
    if poses == [] {
    } else {
      UnflattenFlatten(poses[1..]);
      var flat := Flatten(poses);
      assert flat[..6] == poses[0] && flat[6..] == Flatten(poses[1..]);
      assert poses == [poses[0]] + poses[1..];
    }
  }

  // The i-th pose is the i-th group of six.
  lemma {:induction false} PoseIsTheGroupOfSix(flat: seq<Double>, i: nat)
    requires |flat| % 6 == 0 && 6 * i < |flat|
    ensures i < |Unflatten(flat)| && 6 * i + 6 <= |flat| && Unflatten(flat)[i] == flat[6 * i..6 * i + 6]
  {
    if i == 0 {
    } else {
      PoseIsTheGroupOfSix(flat[6..], i - 1);
      assert flat[6..][6 * (i - 1)..6 * (i - 1) + 6] == flat[6 * i..6 * i + 6];
    }
  }

  // The poses are the list's groups of six, in order.
  predicate Regroups(poses: seq<Pose>, flat: seq<Double>) {
    && 6 * |poses| == |flat|
    && forall i :: 0 <= i < |poses| ==> poses[i] == flat[6 * i..6 * i + 6]
  }

  // Reading is exact: it succeeds just on non-empty finite lists of whole waypoints, loses and
  // invents nothing, and every non-empty finite pose list is read back from its own flattening.
  lemma ReadingIsExact(flat: seq<Double>)
    ensures CheckPoses(flat).Pass? <==> flat != [] && AllFinite(flat) && |flat| % 6 == 0
    ensures CheckPoses(flat).Pass? ==> Flatten(Poses(flat)) == flat && |Poses(flat)| == |flat| / 6 && Poses(flat) != []
    ensures CheckPoses(flat).Pass? ==> Regroups(Poses(flat), flat)
    ensures CheckPoses(flat).Refused? ==> Poses(flat) == []
  {
    FiniteGateAcceptsExactly(flat, 0, PoseList);
    if CheckPoses(flat).Pass? {
      FlattenUnflatten(flat);
      forall i | 0 <= i < |Poses(flat)|
        ensures Poses(flat)[i] == flat[6 * i..6 * i + 6]
      {
        PoseIsTheGroupOfSix(flat, i);
      }
    }
  }

  lemma {:induction false} EveryFinitePathIsReadable(poses: seq<Pose>)
    requires poses != [] && forall i :: 0 <= i < |poses| ==> AllFinite(poses[i])
    ensures Poses(Flatten(poses)) == poses
  {
    UnflattenFlatten(poses);
    FlatIsFinite(poses);
    var flat := Flatten(poses);
    assert |flat| % 6 == 0;
    ReadingIsExact(flat);
  }

  lemma {:induction false} FlatIsFinite(poses: seq<Pose>)
    requires forall i :: 0 <= i < |poses| ==> AllFinite(poses[i])
    ensures AllFinite(Flatten(poses))
  {
    if poses == [] {
    } else {
      FlatIsFinite(poses[1..]);
    }
  }
}
