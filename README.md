# Wave load shape and request naming of the Shiny-app load tests

Two Locust load-test scripts drive ten deployed R Shiny apps / model
endpoints on a Cloud Pak for Data cluster:

- `locust_fe_test.py` opens each app's page in a headless browser and reports
  the wait under a name such as `app-01 (shinyapp01)`;
- `locustfile_ml_endpoint_direct.py` posts prediction requests straight to
  each endpoint and reports them as `xgb-01` … `xgb-10`.

Both scripts steer the number of simulated users with a `WaveLoadShape`
whose `tick` maps the elapsed run time to a target `(users, spawn rate)` or
to `None`, which stops the run. This project models, in Dafny:

- **the wave** (`wave.dfy`, module `WaveShape`): one `Tick` over a
  `Schedule` (peak, ramp-up, hold, ramp-down, spawn rate), with the ramp-up,
  hold, ramp-down and stop phases, Python's `int()` as truncation toward zero
  and the `max(…, 0)` clamp. Lemmas give each phase's closed form, the
  bounds `[0, maxUsers]`, the spawn rate, monotonicity inside each ramp, the
  unimodal shape of the whole wave, and that the run stops exactly at
  `rampUp + hold + rampDown`;
- **each script's `tick`** (`fe_test.dfy`, `ml_direct.dfy`), written with
  the script's own constants and proved equal to the general wave:
  no hold, 30 s + 30 s, rate 10 for the browser test; 100 s up, 120 s hold,
  100 s down, rate 2 for the direct test;
- **the endpoint table** (`deployments.dfy`, module `Deployments`): the ten
  `BASE_URLS` entries, which both scripts list identically, and reading a
  deployment id back out of an entry with `split('/')[3].split('?')[0]`;
- **the request URLs and names** (`fe_test.dfy`, `ml_direct.dfy`): the
  browser test's `BASE_DOMAIN + BASE_URLS[index]` and
  `app-NN (<deployment id>)`, the direct test's `"/" + BASE_URLS[index]` and
  `xgb-NN`;
- **the pieces of Python's string library these use** (`text.dfy`, module
  `Text`): `str.split` with a one-character separator, `sep.join`,
  `str(n)` for a natural number and `str.zfill`, with the round trips
  between them.

Elapsed time is a parameter `t >= 0` (a real number). `None` is the
`Stop` case of the `Shape` datatype.

## Model

| member | source | states |
|---|---|---|
| WaveShape.Trunc | locust_fe_test.py:49 | Python's `int()` on a number: for x >= 0 the result is the floor of x, for x < 0 it is the ceiling (truncation toward zero) |
| WaveShape.StopsExactlyAtEnd | locustfile_ml_endpoint_direct.py:21-35 | the phase tests partition t >= 0: the tick is `Stop` exactly when t >= rampUp + hold + rampDown and a target otherwise |
| WaveShape.RampUp | locustfile_ml_endpoint_direct.py:21-23 | during the ramp-up the target is (floor(maxUsers * t / rampUp), spawnRate); it is 0 at t = 0 and stays in [0, maxUsers], strictly below a non-zero peak |
| WaveShape.RampUpMonotone | locustfile_ml_endpoint_direct.py:21-22 | the ramp-up target never decreases as t grows |
| WaveShape.Hold | locustfile_ml_endpoint_direct.py:25-26 | during the hold the target is (maxUsers, spawnRate) |
| WaveShape.RampDownFormula | locustfile_ml_endpoint_direct.py:28-32 | during the ramp-down the target is the floor of maxUsers * (time left) / rampDown; the truncated value is never negative, so the clamp at zero is inert |
| WaveShape.RampDown | locustfile_ml_endpoint_direct.py:28-32 | the ramp-down target is maxUsers when the ramp-down begins and stays in [0, maxUsers] |
| WaveShape.RampDownMonotone | locustfile_ml_endpoint_direct.py:28-32 | the ramp-down target never increases as t grows |
| WaveShape.TargetInRange | locust_fe_test.py:48-57 | every target carries the configured spawn rate and a user count in [0, maxUsers] |
| WaveShape.RisesThenFalls | locustfile_ml_endpoint_direct.py:21-35 | the wave is unimodal: the target never decreases before the hold ends and never increases after the ramp-up |
| WaveShape.ZeroPeak | locustfile_ml_endpoint_direct.py:21-32 | with a peak of 0 every target asks for 0 users |
| WaveShape.SkippedRampUp | locustfile_ml_endpoint_direct.py:21-32 | a ramp-up of length 0 is skipped: in any schedule that lasts at all, t = 0 already gives the peak, through the hold or, without a hold, through the top of the ramp-down; nothing is divided by the zero length |
| WaveShape.EmptyWaveStops | locustfile_ml_endpoint_direct.py:34-35 | a schedule of total length 0 stops at t = 0 |
| LocustFeTest.TickIsWave | locust_fe_test.py:44-61 | the browser test's `tick` is the general wave with peak 200, ramp-up 30 s, no hold, ramp-down 30 s and rate 10, ending at 60 s |
| LocustFeTest.RampUp | locust_fe_test.py:48-50 | for 0 <= t < 30 the tick is (floor(200 * t / 30), 10), below 200 |
| LocustFeTest.RampUpRises | locust_fe_test.py:48-49 | the ramp-up target never decreases in t |
| LocustFeTest.RampDown | locust_fe_test.py:53-57 | for 30 <= t < 60 the tick is (floor(200 * (1 - (t - 30) / 30)), 10), 200 at t = 30, within [0, 200] |
| LocustFeTest.RampDownFalls | locust_fe_test.py:53-57 | the ramp-down target never increases in t |
| LocustFeTest.StopsAtSixty | locust_fe_test.py:48-61 | the tick is `Stop` exactly when t >= 60; every target has rate 10 and a user count in [0, 200] |
| LocustFeTest.Samples | locust_fe_test.py:48-61 | t = 0, 15, 30, 45, 59, 60 give (0, 10), (100, 10), (200, 10), (100, 10), (6, 10) and `Stop` |
| LocustFeTest.TasksCoverTable | locust_fe_test.py:96-134 | the tasks `endpoint_01` … `endpoint_10` pass the indices 0 … 9, one per table entry, each valid for `BASE_URLS` |
| LocustFeTest.UrlSegments | locust_fe_test.py:141 | a task's URL splits at '/' into "https:", "", the host, "ml", "v4", "deployments", the deployment id and "r_shiny?version=2021-05-01" |
| LocustFeTest.RequestNameShape | locust_fe_test.py:145-146 | the request name of entry i is "app-", the two digits of i + 1, and the deployment id of entry i in parentheses |
| LocustFeTest.FirstRequestName | locust_fe_test.py:146 | the first task reports as "app-01 (shinyapp01)" |
| LocustFeTest.LastRequestName | locust_fe_test.py:146 | the last task reports as "app-10 (1a984df3-0f63-451f-bc4f-83a3af5b5d11)" |
| LocustFeTest.RequestNamesIdentifyTasks | locust_fe_test.py:146 | characters 4-5 of a request name read back as the task's number, so two tasks never share a name |
| LocustfileMlEndpointDirect.TickIsWave | locustfile_ml_endpoint_direct.py:18-35 | the direct test's `tick` is the general wave with peak 200, ramp-up 100 s, hold 120 s, ramp-down 100 s and rate 2, ending at 320 s |
| LocustfileMlEndpointDirect.RampUp | locustfile_ml_endpoint_direct.py:21-23 | for 0 <= t < 100 the tick is (floor(200 * t / 100), 2), below 200 |
| LocustfileMlEndpointDirect.RampUpRises | locustfile_ml_endpoint_direct.py:21-22 | the ramp-up target never decreases in t |
| LocustfileMlEndpointDirect.Hold | locustfile_ml_endpoint_direct.py:25-26 | for 100 <= t < 220 the tick is exactly (200, 2) |
| LocustfileMlEndpointDirect.RampDown | locustfile_ml_endpoint_direct.py:28-32 | for 220 <= t < 320 the tick is (floor(200 * (1 - (t - 220) / 100)), 2), 200 at t = 220, within [0, 200] |
| LocustfileMlEndpointDirect.RampDownFalls | locustfile_ml_endpoint_direct.py:28-32 | the ramp-down target never increases in t |
| LocustfileMlEndpointDirect.StopsAtThreeTwenty | locustfile_ml_endpoint_direct.py:21-35 | the tick is `Stop` exactly when t >= 320; every target has rate 2 and a user count in [0, 200]; the target rises until 220 and falls from 100 on |
| LocustfileMlEndpointDirect.Samples | locustfile_ml_endpoint_direct.py:21-35 | t = 0, 50, 100, 150, 220, 270, 320 give (0, 2), (100, 2), (200, 2), (200, 2), (200, 2), (100, 2) and `Stop` |
| LocustfileMlEndpointDirect.TasksCoverTable | locustfile_ml_endpoint_direct.py:101-139 | the tasks `xgb_01` … `xgb_10` pass the indices 0 … 9, one per table entry, each valid for `BASE_URLS` |
| LocustfileMlEndpointDirect.RequestPathSegments | locustfile_ml_endpoint_direct.py:144 | the request path is one '/' and then the table entry: split at '/' it reads "", "ml", "v4", "deployments", the deployment id, "r_shiny?version=2021-05-01" |
| LocustfileMlEndpointDirect.RequestNameShape | locustfile_ml_endpoint_direct.py:148 | the request name of task i is "xgb-" and the two digits of i + 1 |
| LocustfileMlEndpointDirect.RequestNameSamples | locustfile_ml_endpoint_direct.py:148 | the first and last tasks report as "xgb-01" and "xgb-10" |
| LocustfileMlEndpointDirect.RequestNamesIdentifyTasks | locustfile_ml_endpoint_direct.py:148 | the digits after "xgb-" read back as the task's number, so two tasks never share a name |
| Deployments.TableEntry | locustfile_ml_endpoint_direct.py:45-56 | the table has ten entries, entry i being "ml/v4/deployments/" + the i-th deployment id + "/r_shiny?version=2021-05-01" |
| Deployments.DeploymentIdOfPath | locust_fe_test.py:145 | for any id free of '/' and '?', the endpoint path splits into its five segments and reading the id back gives exactly the id |
| Deployments.TableDeploymentId | locust_fe_test.py:145 | the id read out of entry i of the table is the i-th deployment id (no entry makes the indexing raise) |
| Text.Split | locust_fe_test.py:145 | a split always has a first piece, so `split('?')[0]` never raises |
| Text.SplitHead | locust_fe_test.py:145 | the first piece of a split is the prefix of the string up to, not including, its first separator, or the whole string when there is none |
| Text.JoinSplit | locust_fe_test.py:145 | joining the pieces of a split with the separator gives back the string |
| Text.SplitJoin | locust_fe_test.py:145 | splitting the join of separator-free pieces gives back the pieces |
| Text.NatToStringRoundTrip | locust_fe_test.py:146 | `str(n)` is a numeral without leading zeros that reads back as n |
| Text.ZfillNumeral | locust_fe_test.py:146 | `zfill` of a numeral is a numeral of the same value that ends with the original digits |
| Text.TwoDigitPadding | locustfile_ml_endpoint_direct.py:148 | `str(n).zfill(2)` for 1 <= n <= 99 is the two decimal digits of n |
| Text.PaddedNumberValue | locustfile_ml_endpoint_direct.py:148 | `str(n).zfill(width)` reads back as n |

## Left out

- Browser automation: the Selenium driver's start and stop, page navigation, the wait for the SUCCESS badge and the exceptions it raises (locust_fe_test.py:67-91, 147-178) are I/O.
- Timing and reporting: `time.time()` and the response time and event sent through `events.request.fire` (locust_fe_test.py:142, 161-178) depend on a wall clock.
- The HTTP side of the direct test: the login POST, the token read from the reply (with its fallback to ""), the headers, the JSON payload and the prediction POST itself, including its extra `params={"version": ...}` query (locustfile_ml_endpoint_direct.py:58-99, 143-147). These are network I/O against a server that is not part of this model.
- `get_run_time()` is the framework's clock: the elapsed time is the parameter `t`.
- How Locust polls `tick`, spawns and stops users at the spawn rate, picks among the equally weighted tasks at random and applies `constant_pacing`: this is framework scheduling outside the repository.
- WaveShape.Tick: computes on exact reals, not IEEE-754 doubles, so near a phase boundary the floating-point result of `run_time / RAMP_UP_SECONDS` or `MAX_USERS * (1 - progress)` can differ from the model by one user.
- Schedule validation: neither script checks its constants; the model states the conditions (peak and durations non-negative, spawn rate positive) as `Schedule.Valid` and requires them of the general lemmas, and both scripts' schedules are proved valid. No error is raised anywhere.
- Deployments.BaseUrls: each entry is written as `DeploymentPath` of its id, which spells out the same string as the source's literal entry; `TableEntry` states the entries.
- LocustFeTest.Host: written as the concatenation of two string literals that together are the source's host name.
- Distinctness of the ten deployment ids is not stated; the request names are distinct through their task numbers.
- DeploymentId: Python raises IndexError when a path has fewer than four '/'-separated segments; the model returns `None` there instead (no table entry reaches that case).
