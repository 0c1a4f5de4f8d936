/** The browser-driven load test: a wave of users without a hold phase, and
    ten equally weighted tasks that each open one deployment's page and
    report the wait under a name built from the task number and the
    deployment id. */
module LocustFeTest {
  import opened WaveShape
  import opened Text
  import opened Deployments

  const MaxUsers: int := 200
  const RampUpSeconds: int := 30
  const RampDownSeconds: int := 30
  /** The spawn rate every non-stop tick returns. */
  const SpawnRate: int := 10

  /** The cluster host (written in two pieces to keep proofs about its
      characters small); `BASE_DOMAIN` is "https://" + Host + "/". */
  const Host := "cpd-cpd.apps.690ea4442e6041d6a4c81788" + ".cloud.techzone.ibm.com"
  const BaseDomain := "https://" + Host + "/"

  // ----- the load shape -----

  /** `WaveLoadShape.tick` at elapsed run time `runTime`: ramp up, then ramp
      down, then stop. */
  function Tick(runTime: real): Shape
    requires runTime >= 0.0
  {
    if runTime < RampUpSeconds as real then
      var userCount := Trunc(MaxUsers as real * (runTime / RampUpSeconds as real));
      Target(userCount, SpawnRate)
    else if runTime < (RampUpSeconds + RampDownSeconds) as real then
      var timeInRamp := runTime - RampUpSeconds as real;
      var progress := timeInRamp / RampDownSeconds as real;
      var userCount := Trunc(MaxUsers as real * (1.0 - progress));
      Target(Max(userCount, 0), SpawnRate)
    else
      Stop
  }

  /** The script's wave as a schedule: a hold of zero seconds. */
  const Wave := Schedule(MaxUsers, RampUpSeconds as real, 0.0, RampDownSeconds as real, SpawnRate)

  /** The script's `tick` is the general wave with no hold. */
  lemma TickIsWave(t: real)
    requires t >= 0.0
    ensures Wave.Valid() && Wave.End() == 60.0
    ensures Tick(t) == WaveShape.Tick(Wave, t)
  {
  }

  /** Ramp-up, 0 <= t < 30: the target is floor(200 * t / 30), from 0 at
      t = 0 and always below 200. */
  lemma RampUp(t: real)
    requires 0.0 <= t < 30.0
    ensures Tick(t) == Target((200.0 * t / 30.0).Floor, 10)
    ensures 0 <= Tick(t).users < MaxUsers
  {
    TickIsWave(t);
    WaveShape.RampUp(Wave, t);
  }

  /** The ramp-up target never decreases as time goes on. */
  lemma RampUpRises(t1: real, t2: real)
    requires 0.0 <= t1 <= t2 < 30.0
    ensures Tick(t1).users <= Tick(t2).users
  {
    TickIsWave(t1);
    TickIsWave(t2);
    RampUpMonotone(Wave, t1, t2);
  }

  /** Ramp-down, 30 <= t < 60: the target is floor(200 * (1 - (t - 30) / 30)),
      which is 200 at t = 30 and stays within [0, 200]. */
  lemma RampDown(t: real)
    requires 30.0 <= t < 60.0
    ensures Tick(t) == Target((200.0 * (1.0 - (t - 30.0) / 30.0)).Floor, 10)
    ensures 0 <= Tick(t).users <= MaxUsers
    ensures t == 30.0 ==> Tick(t).users == MaxUsers
  {
    TickIsWave(t);
    RampDownFormula(Wave, t);
    WaveShape.RampDown(Wave, t);
    assert RampDownShare(Wave, t) == 200.0 * (60.0 - t) / 30.0;
    assert 200.0 * (1.0 - (t - 30.0) / 30.0) == 200.0 * (60.0 - t) / 30.0;
  }

  /** The ramp-down target never increases as time goes on. */
  lemma RampDownFalls(t1: real, t2: real)
    requires 30.0 <= t1 <= t2 < 60.0
    ensures Tick(t2).users <= Tick(t1).users
  {
    TickIsWave(t1);
    TickIsWave(t2);
    RampDownMonotone(Wave, t1, t2);
  }

  /** The test stops exactly from t = 60 on; every earlier tick is a target
      with spawn rate 10 and between 0 and 200 users. */
  lemma StopsAtSixty(t: real)
    requires t >= 0.0
    ensures Tick(t).Stop? <==> t >= 60.0
    ensures Tick(t).Target? ==> Tick(t).rate == 10 && 0 <= Tick(t).users <= MaxUsers
  {
    TickIsWave(t);
    StopsExactlyAtEnd(Wave, t);
    if Tick(t).Target? {
      TargetInRange(Wave, t);
    }
  }

  /** Sample ticks along the wave. */
  lemma Samples()
    ensures Tick(0.0) == Target(0, 10)
    ensures Tick(15.0) == Target(100, 10)
    ensures Tick(30.0) == Target(200, 10)
    ensures Tick(45.0) == Target(100, 10)
    ensures Tick(59.0) == Target(6, 10)
    ensures Tick(60.0) == Stop
  {
    assert 200.0 * (1.0 - (59.0 - 30.0) / 30.0) == 20.0 / 3.0;
  }

  // ----- tasks, URLs and request names -----

  /** The index each task `endpoint_01` .. `endpoint_10` passes. */
  const TaskIndices: seq<nat> := [0, 1, 2, 3, 4, 5, 6, 7, 8, 9]

  /** `BASE_DOMAIN + BASE_URLS[index]`: the page a task opens. */
  function Url(index: nat): string
    requires index < |BaseUrls|
  {
    BaseDomain + BaseUrls[index]
  }

  /** The name a page load is reported under, from the task's number and
      the deployment id. */
  function ReportName(number: string, id: string): string
  {
    "app-" + number + " (" + id + ")"
  }

  /** `f"app-{str(index + 1).zfill(2)} ({deployment_id})"` where the id is
      read out of `BASE_URLS[index]`; None where reading it raises
      IndexError. */
  function RequestName(index: nat): Option<string>
    requires index < |BaseUrls|
  {
    match DeploymentId(BaseUrls[index])
    case None => None
    case Some(id) => Some(ReportName(Zfill(NatToString(index + 1), 2), id))
  }

  /** Task `endpoint_NN` opens entry NN - 1 of the table, and every task's
      index is a valid one. */
  lemma TasksCoverTable()
    ensures |TaskIndices| == |BaseUrls|
    ensures forall k :: 0 <= k < |TaskIndices| ==> TaskIndices[k] == k < |BaseUrls|
  {
    assert |BaseUrls| == 10;
  }

  /** The segments of `BASE_DOMAIN` before its final '/'. */
  const DomainSegments: seq<string> := ["https:", "", Host]

  /** The domain is its segments joined with '/', plus a final '/'; none of
      the segments holds a '/'. */
  lemma DomainIsJoinedSegments()
    ensures BaseDomain == Join(DomainSegments, '/') + "/"
    ensures SeparatorFree(DomainSegments, '/')
  {
    var head := DomainSegments;
    assert head[1..] == ["", Host] && head[2..] == [Host];
    calc {
      Join(head, '/');
      "https:" + "/" + Join(head[1..], '/');
      "https:" + "/" + ("" + "/" + Join(head[2..], '/'));
      "https:" + "/" + ("" + "/" + Host);
      "https://" + Host;
    }
    HostHasNoSlash();
  }

  lemma HostHasNoSlash()
    ensures '/' !in Host
  {
  }

  /** The domain, one '/', and the endpoint path of a deployment whose id
      holds no '/': split at '/', it reads "https:", "", the host, then the
      path's segments. */
  lemma DomainPathSegments(id: string)
    requires '/' !in id
    ensures Split(BaseDomain + DeploymentPath(id), '/') == DomainSegments + PathSegments(id)
  {
    var segs := DomainSegments + PathSegments(id);
    DomainIsJoinedSegments();
    PathIsJoinedSegments(id);
    JoinAppend(DomainSegments, PathSegments(id), '/');
    assert BaseDomain + DeploymentPath(id) == Join(segs, '/');
    assert '/' !in EndpointSuffix;
    assert SeparatorFree(segs, '/');
    SplitJoin(segs, '/');
  }

  /** A task's URL is the domain, one '/', and its deployment's endpoint
      path. */
  lemma UrlSegments(index: nat)
    requires index < |BaseUrls|
    ensures Split(Url(index), '/') == DomainSegments + PathSegments(DeploymentIds[index])
  {
    TableDeploymentId(index);
    IdIsSeparatorFree(index);
    DomainPathSegments(DeploymentIds[index]);
  }

  /** The request name of entry `index` is "app-", the two digits of
      index + 1, and the deployment id in parentheses. */
  lemma RequestNameShape(index: nat)
    requires index < |BaseUrls|
    ensures RequestName(index) == Some("app-" + [DigitChar((index + 1) / 10), DigitChar((index + 1) % 10)] + " (" + DeploymentIds[index] + ")")
  {
    TableDeploymentId(index);
    TwoDigitPadding(index + 1);
  }

  /** The first request name: "app-01 (shinyapp01)". */
  lemma FirstRequestName()
    ensures RequestName(0) == Some("app-01 (" + DeploymentIds[0] + ")")
  {
    RequestNameShape(0);
    var digits := [DigitChar(0), DigitChar(1)];
    assert digits == ['0', '1'];
    assert "app-" + digits + " (" == "app-01 (";
  }

  /** The last request name: "app-10 (1a984df3-0f63-451f-bc4f-83a3af5b5d11)". */
  lemma LastRequestName()
    ensures RequestName(9) == Some("app-10 (" + DeploymentIds[9] + ")")
  {
    RequestNameShape(9);
    var digits := [DigitChar(1), DigitChar(0)];
    assert digits == ['1', '0'];
    assert "app-" + digits + " (" == "app-10 (";
  }

  /** Characters 4 and 5 of a report name are its two-character number. */
  lemma ReportNameNumber(number: string, id: string)
    requires |number| == 2
    ensures ReportName(number, id)[4..6] == number
  {
  }

  /** Each task reports under its own name: the number in the name is the
      task's number, so no two tasks share a name. */
  lemma RequestNamesIdentifyTasks(i: nat, j: nat)
    requires i < |BaseUrls| && j < |BaseUrls|
    ensures RequestName(i).Some?
    ensures IsDecimal(RequestName(i).value[4..6])
    ensures DecimalValue(RequestName(i).value[4..6]) == i + 1
    ensures RequestName(i) == RequestName(j) ==> i == j
  {
    TableDeploymentId(i);
    TableDeploymentId(j);
    var a, b := Zfill(NatToString(i + 1), 2), Zfill(NatToString(j + 1), 2);
    TwoDigitPadding(i + 1);
    TwoDigitPadding(j + 1);
    PaddedNumberValue(i + 1, 2);
    PaddedNumberValue(j + 1, 2);
    ReportNameNumber(a, DeploymentIds[i]);
    ReportNameNumber(b, DeploymentIds[j]);
  }
}
