# pypsa-app core logic in Dafny

This project models three small pieces of logic from pypsa-app, a web application for uploading, browsing and mapping power-system network files:

- **The network table** (`networks.dfy`, module `Networks`). This is the `/networks` routes' view of the stored networks: the visibility rule applied when authentication is enabled, the listing (filter, count, newest-first order, offset and limit, pagination metadata) and deletion (the 403 rule, unlinking the backing file if it exists, removing the row, the success message). The listing is a pure function over the table. Deletion is a method on the `NetworkStore` class, whose fields are the rows and the set of file paths present on disk.
- **Component-data request validation** (`data_request.dfy`, module `DataRequests`). This covers `DataRequest`'s field bounds and defaults (`offset >= 0`, default 0; `1 <= limit <= 10000`, default 100), the two validators that reject an empty network id or component name, and the report listing every failing field in declaration order.
- **The map page's client logic** (`map_client.dfy`, module `MapClient`). This covers the bounded task-status polling loop, `fetchData`'s choice between a cached payload and a queued task, the assembly of datasets and Kepler layer configurations from the buses and lines payloads, and the missing-id branch. The network is replaced by inputs: a `MapResponse` per map endpoint and, for a task, `replies(i)`, the reply to the i-th status request.

`wrappers.dfy` holds the `Option` and `Result` datatypes.

The authentication switch `settings.enable_auth` is the parameter `enableAuth`. The current user is an `Option<UserId>`. The network handed to the delete route is a parameter that must be one of the stored rows, because the lookup that answers 404 comes before the route and is not part of this model.

## Model

| member | source | states |
|---|---|---|
| `Networks.FilterVisible` | src/pypsa_app/backend/api/routes/networks.py:41-48 | a row is kept iff it is in the table and the caller owns it, it is public, or it has no owner; no row is added |
| `Networks.FilterVisibleCounts` | src/pypsa_app/backend/api/routes/networks.py:41-51 | the filtered set holds each visible row as many times as the table does, and no invisible row at all, so `total` counts exactly the visible rows |
| `Networks.SortByCreatedDescCorrect` | src/pypsa_app/backend/api/routes/networks.py:52 | the ordering is non-increasing in `created_at` and is a permutation of its input (ties are not specified) |
| `Networks.Page` | src/pypsa_app/backend/api/routes/networks.py:52 | offset/limit gives the `[skip, skip+limit)` window: `min(limit, n - skip)` elements (none if `skip >= n`), element `i` being input element `skip + i` |
| `Networks.PageConsecutive` | src/pypsa_app/backend/api/routes/networks.py:52 | the page at `skip` of size `a` followed by the page at `skip + a` of size `b` is the page at `skip` of size `a + b` |
| `Networks.PageSorted` | src/pypsa_app/backend/api/routes/networks.py:52 | a window of a newest-first sequence is newest first |
| `Networks.ListNetworks` | src/pypsa_app/backend/api/routes/networks.py:29-57 | fails exactly when auth is on and there is no user; otherwise `count == len(data)`, `count <= limit`, `count <= total <= len(table)`, and `meta` echoes `skip` and `limit` |
| `Networks.ListOnlyVisible` | src/pypsa_app/backend/api/routes/networks.py:41-48 | with auth on, every listed network is a stored row that is the caller's, public or ownerless; no other user's private network is listed |
| `Networks.ListWithoutAuth` | src/pypsa_app/backend/api/routes/networks.py:38-51 | with auth off no filter applies: `total` is the number of stored networks and `data` is a window of the whole table in order |
| `Networks.ListIsOrderedWindow` | src/pypsa_app/backend/api/routes/networks.py:50-52 | `total` is the size of the filtered set before offset and limit; `data` is the `[skip, skip+limit)` window of a newest-first permutation of that set, and so is non-increasing in `created_at` |
| `Networks.ListReachesEveryVisibleRow` | src/pypsa_app/backend/api/routes/networks.py:41-52 | for one fixed newest-first order, every visible row is on the one-row page at its position; this carries over to successive requests only if the database orders rows with equal `created_at` the same way each time |
| `Networks.DeletePermittedIsVisible` | src/pypsa_app/backend/api/routes/networks.py:77-82 | with auth on and a user present, a network the caller may delete is also visible to the caller |
| `Networks.PublicButNotDeletable` | src/pypsa_app/backend/api/routes/networks.py:77-82 | a public network owned by another user is listed for the caller, but deleting it is forbidden |
| `Networks.DeletedMessageNames` | src/pypsa_app/backend/api/routes/networks.py:101-103 | the success message contains the deleted network's id and its filename |
| `Networks.WithoutId` | src/pypsa_app/backend/api/routes/networks.py:97-99 | after the row is removed, a row remains iff it was in the table and has a different id |
| `Networks.WithoutIdRemovesOne` | src/pypsa_app/backend/api/routes/networks.py:97-99 | with unique ids, removing a present id drops exactly one row, keeps ids unique, and a later lookup of that id finds nothing |
| `Networks.NetworkStore.Delete` | src/pypsa_app/backend/api/routes/networks.py:69-103 | returns 403 exactly when auth is on, a user is present and the network is owned by someone else, and then changes neither rows nor files; otherwise the path leaves the file set (a file that is not there stays absent), only that network's row is removed, and the message names its id and filename |
| `DataRequests.ValidateNetworkId` | src/pypsa_app/backend/schemas/data.py:16-21 | an empty network id is rejected with "Network ID is required"; any other value is accepted unchanged |
| `DataRequests.ValidateComponent` | src/pypsa_app/backend/schemas/data.py:23-28 | an empty component is rejected with "Component name is required"; any other value is accepted unchanged |
| `DataRequests.Validate` | src/pypsa_app/backend/schemas/data.py:4-28 | accepts iff both names are present and non-empty, `offset` is absent or `>= 0` and `limit` is absent or in `1..10000`; an accepted request keeps the given values and otherwise defaults offset to 0 and limit to 100 |
| `DataRequests.ValidateErrors` | src/pypsa_app/backend/schemas/data.py:7-28 | a rejected request reports each failing field with its reason (missing, validator message, `ge`/`le` bound), and reports no such entry for a field that passes |
| `DataRequests.ValidateErrorKinds` | src/pypsa_app/backend/schemas/data.py:7-28 | each field's entries in a rejection carry only that field's own reasons: missing or the validator message for the two names, `ge=0` for offset, `ge=1` or `le=10000` for limit |
| `DataRequests.ValidateIdempotent` | src/pypsa_app/backend/schemas/data.py:4-28 | validating an accepted request's own fields again gives the same request |
| `DataRequests.ValidateDefaults` | src/pypsa_app/backend/schemas/data.py:11-14 | a request with names and no paging fields gets offset 0 and limit 100 |
| `MapClient.PollTaskStatus` | frontend/map/src/App.jsx:61-84 | the loop's outcome and request count are those of the polling function `Poll`, and at most `maxAttempts` requests are made |
| `MapClient.PollSettlesAtFirstDecisive` | frontend/map/src/App.jsx:62-78 | polling stops at the first reply that is a 401, SUCCESS, FAILURE or failed fetch, after exactly that many requests. A 401 redirects to login without data. SUCCESS returns `result.result.data`. FAILURE throws `result.error`, or "Task failed" if that is absent or empty |
| `MapClient.PollTimesOut` | frontend/map/src/App.jsx:62-83 | if none of the first `maxAttempts` replies ends polling, all `maxAttempts` requests are made and the timeout error is thrown |
| `MapClient.PollBounded` | frontend/map/src/App.jsx:62-75 | polling never exceeds `maxAttempts` requests, and it returns a value only when the last reply was a non-401 SUCCESS |
| `MapClient.FetchData` | frontend/map/src/App.jsx:87-111 | polls, with the default 60 attempts, exactly when the response is OK and the body has status "processing" and a task id; returns any other OK body unchanged; a 401 redirects; a 404 throws `Network "<id>" not found`; any other non-OK status throws `Failed to fetch <type>: <statusText>`; a failed fetch throws a type error |
| `MapClient.Datasets` | frontend/map/src/App.jsx:125-153 | there is a buses dataset iff the buses rows are non-empty and a lines dataset iff the lines rows are non-empty. Buses come first. There are no other datasets |
| `MapClient.BuildDatasets` | frontend/map/src/App.jsx:125-153 | the pushed list is `Datasets(buses, lines)` |
| `MapClient.LayersMatchDatasets` | frontend/map/src/App.jsx:172-217 | for buses and lines datasets there is exactly one layer per dataset, in dataset order. Each layer's `dataId` is its dataset's id. Its type is `point` for buses and `line` for lines |
| `MapClient.BuildLayers` | frontend/map/src/App.jsx:172-217 | the `forEach`/`push` loop produces `LayersFor(datasets)` |
| `MapClient.LoadNetworkMap` | frontend/map/src/App.jsx:113-235 | the page's final state is `Loaded(...)`: the missing-id error, the first fetch rejection, a type error for an undefined payload, the no-rows error, or the datasets with a `v1` configuration |
| `MapClient.LoadWithoutId` | frontend/map/src/App.jsx:229-235 | for an absent or empty network id: the error is "No network ID provided", no configuration or datasets are produced, and there is no redirect |
| `MapClient.LoadWithoutRows` | frontend/map/src/App.jsx:155-160 | when both fetches resolve to payloads without rows, the result is "No buses or lines found in this network", with no datasets and no configuration. This holds whether a payload came from the cache or from a polled task |
| `MapClient.LoadedMapLayers` | frontend/map/src/App.jsx:162-221 | when the map is shown, there is no error and no redirect, one or two datasets (buses before lines) and one layer per dataset that points at it with the right type |
| `MapClient.RedirectShowsNoMap` | frontend/map/src/App.jsx:88-94 | if either fetch redirected to login, no configuration is produced and an error is recorded |

## Left out

- `Networks.ListNetworks`: `skip` and `limit` are natural numbers. The route passes negative values to the database unchecked, and what happens then depends on the database engine.
- `Networks.SortByCreatedDesc`: the database does not define how it orders networks with equal `created_at`, and need not order them the same way on every query. The model picks one order and uses it for every request. `Networks.ListReachesEveryVisibleRow` relies on that one order. Across real requests with different `skip`, a row that shares its `created_at` with another can be skipped or shown twice. The other listing properties hold for any tie order.
- `Networks.NetworkStore.Delete`: the network must be a stored row, because the 404 lookup (`get_network_or_404`) is not part of this model. Unlinking the file and committing the row removal are one step here. A failure between the two (an orphaned file or a dangling row) is not modelled.
- `scan_networks` and `get_network` are not modelled: one hands work to the task queue, whose implementation is not part of this model, and the other returns its input unchanged.
- SQLAlchemy query mechanics, FastAPI dependency injection, logging and the real file system are not modelled. Files are a set of paths.
- `DataRequests.Validate`: pydantic's parsing of non-integer and non-string inputs is not modelled, and error kinds stand in for pydantic's message texts. Fields are either present with their declared type or missing.
- `MapClient.FetchData`: a JSON body that fails to parse is not modelled; every reply carries a body of the expected shape. A JavaScript value that is truthy but not a string (as `task_id` or `error`) is not modelled either: absent and empty strings are the falsy cases.
- `MapClient.LoadNetworkMap`: when both fetches reject, `Promise.all` reports whichever rejection came first. The model takes that timing as the parameter `busesSettlesFirst`.
- The status URL itself, `fetch`, the one-second `setTimeout` between polls, `window.location` redirects (an outcome tag and a `redirected` flag), the authentication check on mount, the Mapbox token, the back and login URLs, React rendering and the styles are not modelled.
- The layer opacities 0.8 and 0.6 are stored as tenths (8 and 6), because the model has no floating point.
- The background job state machine (pending, running, succeeded, failed; exclusive claims; unique job ids) is not modelled. Its implementation is not part of this model, and the client sees only the SUCCESS and FAILURE states.
- `cli.py`, `settings.py` and the `map.py` routes are process setup, environment loading and thin forwarding to the task queue, so they are not modelled.
