/** The direct HTTP load test: a wave of users that ramps up, holds at the
    peak and ramps down, and ten equally weighted tasks that each post a
    prediction request to one deployment under the name "xgb-NN". */
module LocustfileMlEndpointDirect {
  import opened WaveShape
  import opened Text
  import opened Deployments

  const MaxUsers: int := 200
  const RampUpSeconds: int := 100
  const HoldSeconds: int := 120
  const RampDownSeconds: int := 100
  /** The spawn rate every non-stop tick returns. */
  const SpawnRate: int := 2

  // ----- the load shape -----

  /** `WaveLoadShape.tick` at elapsed run time `runTime`: ramp up, hold,
      ramp down, then stop. */
  function Tick(runTime: real): Shape
    requires runTime >= 0.0
  {
    if runTime < RampUpSeconds as real then
      var userCount := Trunc(MaxUsers as real * (runTime / RampUpSeconds as real));
      Target(userCount, SpawnRate)
    else if runTime < (RampUpSeconds + HoldSeconds) as real then
      Target(MaxUsers, SpawnRate)
    else if runTime < (RampUpSeconds + HoldSeconds + RampDownSeconds) as real then
      var timeInRamp := runTime - (RampUpSeconds + HoldSeconds) as real;
      var progress := timeInRamp / RampDownSeconds as real;
      var userCount := Trunc(MaxUsers as real * (1.0 - progress));
      Target(Max(userCount, 0), SpawnRate)
    else
      Stop
  }

  /** The script's wave as a schedule. */
  const Wave := Schedule(MaxUsers, RampUpSeconds as real, HoldSeconds as real, RampDownSeconds as real, SpawnRate)

  /** The script's `tick` is the general wave with a 120-second hold. */
  lemma TickIsWave(t: real)
    requires t >= 0.0
    ensures Wave.Valid() && Wave.End() == 320.0
    ensures Tick(t) == WaveShape.Tick(Wave, t)
  {
  }

  /** Ramp-up, 0 <= t < 100: the target is floor(200 * t / 100), from 0 at
      t = 0 and always below 200. */
  lemma RampUp(t: real)
    requires 0.0 <= t < 100.0
    ensures Tick(t) == Target((200.0 * t / 100.0).Floor, 2)
    ensures 0 <= Tick(t).users < MaxUsers
  {
    TickIsWave(t);
    WaveShape.RampUp(Wave, t);
  }

  /** The ramp-up target never decreases as time goes on. */
  lemma RampUpRises(t1: real, t2: real)
    requires 0.0 <= t1 <= t2 < 100.0
    ensures Tick(t1).users <= Tick(t2).users
  {
    TickIsWave(t1);
    TickIsWave(t2);
    RampUpMonotone(Wave, t1, t2);
  }

  /** Hold, 100 <= t < 220: the target is exactly (200, 2). */
  lemma Hold(t: real)
    requires 100.0 <= t < 220.0
    ensures Tick(t) == Target(MaxUsers, 2)
  {
    TickIsWave(t);
    WaveShape.Hold(Wave, t);
  }

  /** Ramp-down, 220 <= t < 320: the target is
      floor(200 * (1 - (t - 220) / 100)), which is 200 at t = 220 and stays
      within [0, 200]. */
  lemma RampDown(t: real)
    requires 220.0 <= t < 320.0
    ensures Tick(t) == Target((200.0 * (1.0 - (t - 220.0) / 100.0)).Floor, 2)
    ensures 0 <= Tick(t).users <= MaxUsers
    ensures t == 220.0 ==> Tick(t).users == MaxUsers
  {
    TickIsWave(t);
    RampDownFormula(Wave, t);
    WaveShape.RampDown(Wave, t);
    assert RampDownShare(Wave, t) == 200.0 * (320.0 - t) / 100.0;
    assert 200.0 * (1.0 - (t - 220.0) / 100.0) == 200.0 * (320.0 - t) / 100.0;
  }

  /** The ramp-down target never increases as time goes on. */
  lemma RampDownFalls(t1: real, t2: real)
    requires 220.0 <= t1 <= t2 < 320.0
    ensures Tick(t2).users <= Tick(t1).users
  {
    TickIsWave(t1);
    TickIsWave(t2);
    RampDownMonotone(Wave, t1, t2);
  }

  /** The test stops exactly from t = 320 on; every earlier tick is a target
      with spawn rate 2 and between 0 and 200 users, rising until the hold
      ends and falling after the ramp-up. */
  lemma StopsAtThreeTwenty(t1: real, t2: real)
    requires 0.0 <= t1 <= t2
    ensures Tick(t1).Stop? <==> t1 >= 320.0
    ensures Tick(t1).Target? ==> Tick(t1).rate == 2 && 0 <= Tick(t1).users <= MaxUsers
    ensures t2 < 220.0 ==> Tick(t1).users <= Tick(t2).users
    ensures 100.0 <= t1 && t2 < 320.0 ==> Tick(t2).users <= Tick(t1).users
  {
    TickIsWave(t1);
    TickIsWave(t2);
    StopsExactlyAtEnd(Wave, t1);
    if Tick(t1).Target? {
      TargetInRange(Wave, t1);
    }
    if t2 < 320.0 {
      RisesThenFalls(Wave, t1, t2);
    }
  }

  /** Sample ticks along the wave. */
  lemma Samples()
    ensures Tick(0.0) == Target(0, 2)
    ensures Tick(50.0) == Target(100, 2)
    ensures Tick(100.0) == Target(200, 2)
    ensures Tick(150.0) == Target(200, 2)
    ensures Tick(220.0) == Target(200, 2)
    ensures Tick(270.0) == Target(100, 2)
    ensures Tick(320.0) == Stop
  {
  }

  // ----- tasks, request paths and names -----

  /** The index each task `xgb_01` .. `xgb_10` passes. */
  const TaskIndices: seq<nat> := [0, 1, 2, 3, 4, 5, 6, 7, 8, 9]

  /** `f"/{self.BASE_URLS[index]}"`: the path a task posts to. */
  function RequestPath(index: nat): string
    requires index < |BaseUrls|
  {
    "/" + BaseUrls[index]
  }

  /** `f"xgb-{str(index+1).zfill(2)}"`: the name a task reports under. */
  function RequestName(index: nat): string
  {
    "xgb-" + Zfill(NatToString(index + 1), 2)
  }

  /** Task `xgb_NN` posts to entry NN - 1 of the table, and every task's index
      is a valid one. */
  lemma TasksCoverTable()
    ensures |TaskIndices| == |BaseUrls|
    ensures forall k :: 0 <= k < |TaskIndices| ==> TaskIndices[k] == k < |BaseUrls|
  {
    assert |BaseUrls| == 10;
  }

  /** One '/' followed by the endpoint path of a deployment whose id holds
      no '/': split at '/', it reads "", then the path's segments. */
  lemma RootedPathSegments(id: string)
    requires '/' !in id
    ensures Split("/" + DeploymentPath(id), '/') == [""] + PathSegments(id)
  {
    var segs := [""] + PathSegments(id);
    PathIsJoinedSegments(id);
    JoinAppend([""], PathSegments(id), '/');
    assert "/" + DeploymentPath(id) == Join(segs, '/');
    assert '/' !in EndpointSuffix;
    assert SeparatorFree(segs, '/');
    SplitJoin(segs, '/');
  }

  /** The request path is the table entry behind one leading '/', the
      deployment id fourth among the path's segments. */
  lemma RequestPathSegments(index: nat)
    requires index < |BaseUrls|
    ensures Split(RequestPath(index), '/') == [""] + PathSegments(DeploymentIds[index])
  {
    TableDeploymentId(index);
    IdIsSeparatorFree(index);
    RootedPathSegments(DeploymentIds[index]);
  }

  /** For the ten tasks the name is "xgb-" and the two digits of index + 1:
      "xgb-01" through "xgb-10". */
  lemma RequestNameShape(index: nat)
    requires index < |BaseUrls|
    ensures |BaseUrls| == 10
    ensures RequestName(index) == "xgb-" + [DigitChar((index + 1) / 10), DigitChar((index + 1) % 10)]
  {
    TwoDigitPadding(index + 1);
  }

  /** The first and last request names. */
  lemma RequestNameSamples()
    ensures RequestName(0) == "xgb-01"
    ensures RequestName(9) == "xgb-10"
  {
    RequestNameShape(0);
    RequestNameShape(9);
    assert [DigitChar(0), DigitChar(1)] == ['0', '1'];
    assert [DigitChar(1), DigitChar(0)] == ['1', '0'];
  }

  /** The number in a task's name is the task's number, so no two tasks
      share a name. */
  lemma RequestNamesIdentifyTasks(i: nat, j: nat)
    ensures DecimalValue(RequestName(i)[4..]) == i + 1
    ensures RequestName(i) == RequestName(j) ==> i == j
  {
    assert RequestName(i)[4..] == Zfill(NatToString(i + 1), 2);
    assert RequestName(j)[4..] == Zfill(NatToString(j + 1), 2);
    PaddedNumberValue(i + 1, 2);
    PaddedNumberValue(j + 1, 2);
  }
}
