# Rancher deploy action, modelled in Dafny

`deploy_to_rancher.py` is a one-shot deployment script. It points a workload
on a Rancher-managed cluster at a new container image. It lists the
projects, walks each project's workload collection in order, and stops at the
first workload whose `name` is the service name, recording:

- the project's workload-collection URL,
- the workload's `links.self`,
- the workload's `namespaceId`.

It then GETs that self link. If the body reports `status == 404`, it POSTs a
fixed create config to the recorded collection. Otherwise it sets
`containers[0].image` and PUTs the whole body back to
`<self link>?action=redeploy`. Every path ends the process: exit 0 after any
create or update attempt, exit 1 on a fatal condition.

The model replaces each HTTP call with its response, given as data:

- Each `Project` carries the response to the GET on its workloads: a status,
  plus a body that is unparsable, lacks `data`, or holds the `data` list.
- The detail GET is a `Detail`: unparsable, or a JSON object.
- A deploy's result is an `Outcome`: `Fatal(reason)`, `Create(url, config)`
  or `Update(url, body)`. `ExitCode` gives the process status for each.

Modules:

- `Json` — parsed JSON values and Python truthiness.
- `RancherApi` — responses, `Outcome` and the exit code.
- `WorkloadSearch` — the search loops as a reference function `Search`, the
  inner loop as the method `FirstNamed`, and lemmas that say by position in
  the project list what the search records.
- `WorkloadReconcile` — the create/update/fatal decision and the image
  update.
- `DeployToRancher` — the class `DeployRancher`, whose `Deploy` method runs
  the loops over the object's three fields and is proved equal to
  `DeploySpec`; `deploy_in_rancher`; and the script entry point.

Terms used in the lemmas, for a project in the listing (`WorkloadSearch`
predicates `Unreadable`, `Hit` and `PassesOver`):

- **Unreadable**: the project has an `id`, and its workloads GET is either
  not 200 or is 200 with a JSON object that has no `data`. The loop does
  `continue` (lines 65-72). The body of a non-200 response is never parsed.
- **Hit**: the project has an `id`, its workloads GET is 200 with `data`,
  every workload before the first one named as the service has a `name`
  (line 77 raises KeyError otherwise), and that first match has a
  non-empty `links.self` and a `namespaceId`. The search records it and
  stops (lines 79-84).
- **Passes over**: the project is unreadable; or it has an `id`, its
  workloads GET is 200 with `data`, and either every workload has a `name`
  other than the service's, or the workloads up to the first match all have
  a `name` and that match has `links.self` equal to `''` and a
  `namespaceId` (line 81 raises KeyError without one). In the last case
  the inner loop breaks and the outer loop goes on (line 83).
- Anything else raises, and the deploy exits 1: a project without `id`, a
  200 workloads body that is not JSON, a workload without `name` before the
  first match, or a first match without `links.self` or `namespaceId`.

What the script does not do, and what it does that a reader might not
expect:

- There is no preferred project or namespace, and no create when the search
  finds nothing. Not finding the service is fatal (lines 86-88).
- When a project's workloads GET returns 200 with a body that is not JSON,
  `rw.json()` raises. That is fatal, not skipped. A non-200 response is
  skipped before its body is read.
- The create POST's status and the update PUT's status are never checked.
- The second deploy, for `DOCKER_IMAGE_LATEST`, is never reached (see
  Findings).

## Model

| member | source | states |
|---|---|---|
| `WorkloadSearch.Scan` | deploy_to_rancher.py:76-82 | A match is the first workload named `service_name`, and every earlier workload has some other name. No match means every workload has some other name. A crash means an earlier-or-equal workload lacks `name` (KeyError). |
| `WorkloadSearch.FirstNamed` | deploy_to_rancher.py:76-82 | The inner `for w in workload['data']` loop returns exactly `Scan`'s verdict. Its invariant is that no earlier workload matched. |
| `WorkloadSearch.UnreadableProjectIsSkipped` | deploy_to_rancher.py:65-72 | A project whose workload listing is not 200 or has no `data` contributes nothing. Deleting it from the list leaves the search result unchanged. |
| `WorkloadSearch.Search` | deploy_to_rancher.py:58-84 | The reference definition of the outer `for p in projects['data']` loop, one `VisitProject` per pass (`continue` on a skipped project, `break` once the deployment path is not `''`). It has no contract of its own; it is characterised by the four lemmas below and `UnreadableProjectIsSkipped` above. |
| `WorkloadSearch.FirstHitIsRecorded` | deploy_to_rancher.py:58-84 | If every project before position i passes over and project i is a hit, the search records project i's workloads URL, self link and namespace. This holds whatever the later projects contain, so they are not examined. |
| `WorkloadSearch.RecordedIsFirstHit` | deploy_to_rancher.py:58-84 | Conversely, a search that records a non-empty self link recorded some hit i, and every project before i passed over. |
| `WorkloadSearch.NotFoundIffAllPassOver` | deploy_to_rancher.py:58-88 | The search ends with the deployment path still `''` if and only if every project passes over. |
| `WorkloadReconcile.Reconcile` | deploy_to_rancher.py:95-122 | Create if and only if the body has `status == 404`, POSTed to the recorded workloads URL with the fixed config (`imagePullPolicy` "Always", the image, the service name, the recorded namespace). If the status is not 404 and `containers` is missing or falsy, the deploy is fatal with `MissingContainers` and no PUT. An update goes to `selfLink + '?action=redeploy'`, and its body equals the fetched body except that `containers[0].image` is the new image. Other fields, other containers and other keys of the first container are unchanged. |
| `DeployToRancher.DeploySpec` | deploy_to_rancher.py:43-56 | A projects listing that is not 200 gives exit 1 (`ProjectsStatusNot200`), and a 200 listing without `data` gives exit 1 (`ProjectsMissingData`), whatever the project entries hold, so no workload listing is consulted. These clauses follow directly from its first branches. Any create or update implies a 200 listing with `data`. The search-dependent behaviour is stated by `DeployActsOnFirstHit`, `DeployNotFoundIsFatal` and `DeployWritesOnlyToFirstHit`. |
| `DeployToRancher.DeployRancher.constructor` | deploy_to_rancher.py:28-37 | Stores the five arguments. The three search fields start as `''`. |
| `DeployToRancher.DeployRancher.Deploy` | deploy_to_rancher.py:39-131 | The nested loops with `continue`/`break` over the object's fields give exactly `DeploySpec` from the fields' old values. When the search completes, the fields hold the record `Search` computes. When the projects listing is not 200 or has no `data`, the method returns before the search and the fields keep their old values. |
| `DeployToRancher.DeployInRancher` | deploy_to_rancher.py:134-138 | A fresh object's deploy equals `DeploySpec` started from three empty fields. |
| `DeployToRancher.RunScript` | deploy_to_rancher.py:141-168 | A missing environment variable, `DOCKER_IMAGE_LATEST` included, gives exit 1 with no deploy. Otherwise exactly one deploy starts, for `DOCKER_IMAGE`, and the exit status is that deploy's. The `DOCKER_IMAGE_LATEST` deploy never starts. |
| `DeployToRancher.RunScriptBothTags` | deploy_to_rancher.py:156-162 | Corrected script. A deploy of `DOCKER_IMAGE_LATEST` follows a non-fatal first deploy exactly when that variable is non-empty, with the same service. Exit 0 means every started deploy was non-fatal. |
| `DeployToRancher.DeployActsOnFirstHit` | deploy_to_rancher.py:76-84 | When project i is the first hit, the deploy's outcome is the reconcile decision on project i's recorded workload. |
| `DeployToRancher.DeployNotFoundIsFatal` | deploy_to_rancher.py:86-88 | If every project passes over, the deploy exits 1 with `ServiceNotFound`, and no create or update is issued. |
| `DeployToRancher.DeployWritesOnlyToFirstHit` | deploy_to_rancher.py:79-84 | Every create or update targets the first hit. A create goes to that project's workloads URL. An update goes to that workload's self link plus `?action=redeploy`. |

## Left out

- HTTP transport, authentication and the access/secret keys' use, and JSON parsing. Each response is an input value. A network error on any call, which the source turns into exit 1, is not modelled separately.
- The status of the create POST and the update PUT. The outcome does not depend on them (lines 111 and 122 only print them).
- All printing and the interpreter and library diagnostics (lines 5-19), and the traceback printing.
- Environment loading is reduced to a map from variable names to values.
- JSON numbers are integers; floats are not modelled. In the source a `status` of `404.0` compares equal to `404` at line 97 and would lead to a create; in the model it has no representation.
- A detail body that parses to something other than a JSON object is not modelled. For example, a list makes `'status' in response` a membership test.
- A collection body that parses to JSON other than an object (a list, a
  string, a number, null) raises at line 51, 52 or 56 (projects listing) or
  at line 70, 71 or 74 (workload listing), depending on the value: the
  `'data' in` test raises on a number or null, `.keys()` on a list or
  string without "data", and the `['data']` subscript on a list or string
  that contains "data" (such as `["data"]` or `"metadata"`). The model has no
  separate variant for it: such a body is given as `Unparsable`, which has
  the same outcome, `Fatal(Exception)`. Likewise a project entry, workload
  entry or `links` value that is not a JSON object is given as an `id`,
  `name` or `selfLink` of `None`, again with the outcome `Fatal(Exception)`.
- A `data` field that is not a list is not modelled. Neither is a `name`, `links.self` or `namespaceId` that is not a string. A missing key is modelled, as `Fatal(Exception)`.
- `Exception` outcomes are not told apart. Each one is the `except Exception` handler's exit 1.

## Findings

| source | as written | input that shows it | evidently intended | confidence | as-written member | corrected member |
|---|---|---|---|---|---|---|
| deploy_to_rancher.py:125 | `deploy` always calls `sys.exit`. The resulting SystemExit is not caught by `except Exception` (line 164), so the `DOCKER_IMAGE_LATEST` deploy at lines 160-162 is unreachable. | All six variables set, with `DOCKER_IMAGE=app:v2` and `DOCKER_IMAGE_LATEST=app:latest`. Only `app:v2` is deployed (`DeployToRancher.LatestTagNeverStarted`). | After a completed first deploy, a non-empty `DOCKER_IMAGE_LATEST` gets its own deploy. | high (not executed) | `DeployToRancher.RunScript` | `DeployToRancher.RunScriptBothTags` |
