# Snippy function app: blueprint registration and health checks

This project models the decision logic of `src/function_app.py`, the entry
point of the Snippy Azure Functions app, and proves properties of it in
Dafny 4.11. Two pieces are modelled.

- **Blueprint registration** (`registration.dfy`). At start-up the app tries
  five feature modules in a fixed order: Snippy, Query, Embeddings, Ingestion
  and Multi-agent. Each try loads the module and calls
  `app.register_blueprint`. An `ImportError` is caught and logged as an import
  error. Any other `Exception` is logged as a failed registration. The pass
  then goes on to the next module. The app is a class whose `blueprints`
  sequence grows as registrations succeed. `RegisterAll` loops over module
  descriptors and returns one outcome per module. Loading and attaching are
  abstract steps that either complete or raise an exception of a given class
  with a given text.
- **Health checks** (`config.dfy`, `health.dfy`). `/health` always answers 200
  with `{"status": "ok"}`. `/health_extended` resolves its settings from the
  environment through Python `or` chains, where `None` and `""` both count as
  missing. It then probes blob storage and Cosmos DB. Each probe result starts
  as `{"ok": False}` and is updated in place. The overall status is `ok`, with
  HTTP 200, only when both probes passed; otherwise it is `error` with HTTP 500.
  The body always has `status`, `storage` and `cosmos` entries. The probes
  are modelled twice. `StorageProbe`, `CosmosProbe`, `Aggregate` and `Render`
  give the decision as values. `ProbeStorage`, `ProbeCosmos` and
  `HandleExtended` build the dicts step by step, as the handler does, and are
  proved equal to those values.

The environment is a `map<string, string>`. Storage I/O is a function
parameter: it maps the resolved connection string and container to "reachable
with this account URL" or "raised with this text". Because it is a function,
"no storage call without a connection string" can be stated as "the result
does not depend on that function". Cosmos I/O is a value. Whether the start-up
`from data import cosmos_ops` succeeded is also a value
(`CosmosBinding.ImportFailed`). When that import failed, the name is unbound,
the call at line 159 raises `NameError`, and the probe reports
`name 'cosmos_ops' is not defined`.

Some behaviour of the code that the model follows:
- An exception other than `ImportError` raised while a module is *loaded* is
  caught by the second handler. It is logged as "registration failed", not as
  an import error (`Registration.AttemptOf`).
- The Cosmos probe does not check `COSMOS_DATABASE_NAME` or
  `COSMOS_CONTAINER_NAME` itself. If `cosmos_ops.get_container()` succeeds, the
  result is `ok` even when those settings are absent; they then appear as
  `null` (`Health.Setting`, `Health.CosmosProbe`).
- `AzureWebJobsStorage = ""` with `STORAGE_CONNECTION_STRING` absent yields
  `None` from the `or` chain. The reverse case yields `""`. Both are reported
  as the missing-connection-string failure.

## Model

| member | source | states |
|---|---|---|
| Config.Get | src/function_app.py:133 | `os.environ.get` yields a value exactly when the setting is present, and that value is the setting's |
| Config.ConnectionString | src/function_app.py:133 | the connection string is one of the two lookups, and truthy exactly when one of the two settings is non-empty |
| Config.OrChain | src/function_app.py:133-138 | Python `or` over settings yields one of its operands, and a truthy one exactly when some operand is truthy |
| Config.OrChainPicksFirstTruthy | src/function_app.py:133-138 | the chain yields the first non-empty operand |
| Config.OrChainAllFalsy | src/function_app.py:133 | with every operand missing or empty, the chain yields its last operand |
| Config.IngestionContainer | src/function_app.py:134-138 | the resolved ingestion container name is never empty |
| Config.ConnectionStringResolution | src/function_app.py:133 | a usable connection string exists iff `AzureWebJobsStorage` or `STORAGE_CONNECTION_STRING` is non-empty; `AzureWebJobsStorage` takes precedence |
| Config.IngestionContainerResolution | src/function_app.py:134-138 | the container is `INGESTION_CONTAINER` if non-empty, else `STORAGE_CONTAINER_SNIPPETINPUT` if non-empty, else `snippet-input` |
| Registration.Caught | src/function_app.py:47-50 | an `ImportError` is reported as an import error and any other exception as a runtime error, both carrying the exception text |
| Registration.AttemptOf | src/function_app.py:43-50 | a module registers iff both loading and attaching complete. A failed load decides the failure by its own class and text, so a non-`ImportError` raised while loading is a runtime error. After a successful load, the attach step's class and text decide, so an `ImportError` from `register_blueprint` is still an import error |
| Registration.Outcomes | src/function_app.py:43-90 | the pass yields exactly one outcome per module |
| Registration.Successful | src/function_app.py:43-90 | the registered list is never longer than the list of modules, and every module is registered exactly when every one of them succeeds |
| Registration.Descriptors | src/function_app.py:43-90 | the five descriptors pair the module names, in source order, with the given load and attach behaviour |
| Registration.OutcomeAt | src/function_app.py:43-90 | the outcome of module i is the attempt of module i alone |
| Registration.OtherOutcomesUnaffected | src/function_app.py:43-90 | changing or breaking module i leaves every other module's outcome unchanged |
| Registration.SuccessfulMembers | src/function_app.py:43-90 | a name ends up registered iff some module of that name succeeded |
| Registration.FailureIsTransparent | src/function_app.py:43-90 | a failing module leaves the registered list exactly as if it were absent from the pass |
| Registration.AllSucceed | src/function_app.py:43-90 | when every module succeeds, all are registered in their fixed order |
| Registration.NoneSucceed | src/function_app.py:43-90 | when every module fails, nothing is registered |
| Registration.Log | src/function_app.py:46-50 | success is logged at info level, both failure kinds at error level, and a failure line ends with the exception text |
| Registration.App.constructor | src/function_app.py:38 | a new function app has no blueprints |
| Registration.App.RegisterBlueprint | src/function_app.py:45 | registering appends the blueprint and changes nothing else |
| Registration.Register | src/function_app.py:43-50 | one try block returns the module's outcome; the app gains the module on success and is unchanged on failure |
| Registration.RegisterAll | src/function_app.py:43-90 | every module is tried in order and none is skipped; the outcomes are the per-module outcomes, and the app gains exactly the successful modules in order |
| Registration.Bootstrap | src/function_app.py:38-90 | start-up tries Snippy, Query, Embeddings, Ingestion and Multi-agent in that order, with one outcome each, and the new app holds exactly those that registered |
| Health.ShallowHealthCheck | src/function_app.py:106-112 | `/health` is always 200 with body `{"status": "ok"}`, and it takes no environment and no probe |
| Health.OkEntry | src/function_app.py:174 | the dict's `ok` entry is truthy exactly when the probe passed |
| Health.TruthyEntry | src/function_app.py:174 | a missing `ok` key reads as false, and a boolean entry reads as its own value |
| Health.Failed | src/function_app.py:152-154 | a failed result is not ok, has no details and carries the exception text as its error |
| Health.ToDict | src/function_app.py:145-154 | the dict has `ok`, the detail keys and `error` when there is an error; `ok` holds the pass flag, `error` the text, and each detail its value |
| Health.Setting | src/function_app.py:166-167 | a copied setting is `null` exactly when it is absent from the environment, and otherwise is the setting's string as is |
| Health.StorageProbe | src/function_app.py:131-154 | the storage result either passed or failed; on success its details are exactly `container` (the resolved name) and `account_url`; on failure it has no details |
| Health.CosmosProbe | src/function_app.py:156-172 | the Cosmos result passes iff `cosmos_ops` was imported and its calls succeeded; on success it copies the two settings; on failure it has no details |
| Health.Aggregate | src/function_app.py:174-175 | the overall status is `ok` iff both probes passed, so TT gives ok and TF, FT, FF give error; both results are kept |
| Health.Render | src/function_app.py:176-188 | HTTP 200 iff the status is `ok`, else 500; the body has exactly `status`, `storage` and `cosmos`, holding both probe dicts |
| Health.ExtendedHealthCheck | src/function_app.py:124-188 | the extended response is 200 iff both probes pass, otherwise 500; the body has exactly `status` (`ok` or `error` to match), `storage` and `cosmos`, holding the two probe dicts |
| Health.ProbeStorage | src/function_app.py:128-154 | the dict built from `{"ok": False}` by in-place updates equals the storage probe's result |
| Health.ProbeCosmos | src/function_app.py:129-172 | the dict built from `{"ok": False}` by in-place updates equals the Cosmos probe's result |
| Health.HandleExtended | src/function_app.py:124-188 | the handler's response equals the aggregated report, and it is 200 iff both probes passed |
| Health.UnprobedCountsAsFailed | src/function_app.py:128-129 | the initial `{"ok": False}` reads as not ok, so a probe that never reached its success update makes the aggregate (line 174) an error |
| Health.MissingConnectionString | src/function_app.py:139-140 | with both connection settings missing or empty, storage is `{"ok": false, "error": "Missing AzureWebJobsStorage/ STORAGE_CONNECTION_STRING env var"}` whatever the storage client would do, and the check answers 500 with `error` |
| Health.StorageResultShape | src/function_app.py:142-154 | storage I/O uses the resolved connection string and container; success gives exactly `ok`, `container` and `account_url`; failure gives exactly `ok: false` and `error` |
| Health.CosmosResultShape | src/function_app.py:157-172 | Cosmos success gives `ok`, `database` and `container` from the settings; failure gives `error` with the exception text; a failed start-up import (lines 32-36) gives the `NameError` text |
| Health.ProbesIndependent | src/function_app.py:156-182 | no short-circuit: the storage entry does not depend on Cosmos, and the Cosmos entry does not depend on storage |
| Health.StorageUpCosmosDown | src/function_app.py:131-188 | storage up on the default `snippet-input` container and Cosmos down give 500, `error`, an ok storage entry and a failed Cosmos entry |
| Health.BothUpMatchesShallow | src/function_app.py:174-188 | both probes up give 200 and `ok`, the same status and code as `/health` |

## Left out

- The Azure SDK calls (`BlobServiceClient.from_connection_string`, `get_container_client`, `get_container_properties`, `cosmos_ops.get_container`, `query_items`) are network clients. Each appears only as an abstract outcome: success with the account URL, or failure with an exception text.
- `async`/`await` and the async iterator over the Cosmos query are left out. The probes run in sequence, and their order does not change the result.
- The blueprint modules (`bp_snippy`, `query`, `bp_embeddings`, `bp_ingestion`, `bp_multi_agent`) are not part of this model. Loading each one and `register_blueprint` are opaque steps, and the app records the module's name for its blueprint. Each descriptor's load and attach behaviour is fixed before the pass starts. So `Registration.OtherOutcomesUnaffected` and `Registration.FailureIsTransparent` do not cover a module whose import depends on what earlier modules did, for example through Python's import cache (`sys.modules`) or a shared `functions/__init__.py`.
- Registration.Register: `register_blueprint` is treated as atomic. A call that attaches some routes and then raises would leave a partly changed app in Python. Here a failed step leaves the app unchanged.
- Exceptions that derive from `BaseException` but not from `Exception` (`KeyboardInterrupt`, `SystemExit`) escape both handlers in Python. The model's `ExceptionClass` covers only `Exception` subclasses.
- `logging` output is left out. `Registration.Log` gives the level and text of each registration line, but nothing writes it.
- `json.dumps` byte output, key order, MIME types, route decorators and auth levels are left out. Bodies are structured `Json` values.
- Health.ShallowHealthCheck: the `except` branch of `/health` (lines 113-119) is not modelled. It would be an alternative 500 response with `{"status": "error", "message": ...}`, but building a constant response cannot fail in any way the model can express.
- Storage and Cosmos exceptions are not classified by type. Any `Exception`'s text becomes the `error` entry, just as `str(e)` does.
- Health.HandleExtended: the model assumes that each storage or Cosmos call returns or raises an `Exception`, so the handler always answers 200 or 500. In Python, two cases end `http_health_check_extended` with no response at all. One is a `BaseException` that is not an `Exception`, such as `asyncio.CancelledError` from a host time-out or shutdown at the awaits of lines 144, 159 and 162, or a `KeyboardInterrupt`; it escapes the `except Exception` handlers at lines 152 and 170. The other is a probe await that never completes, since the handler has no timeout of its own.
