/**
 * The two health endpoints: `/health`, a constant liveness answer, and
 * `/health_extended`, which probes blob storage and Cosmos DB, reports one
 * entry per probe and is healthy only when both probes are.
 */
module Health {
  import opened Wrappers
  import opened Config

  /** The JSON values the response bodies hold. */
  datatype Json = JNull | JBool(b: bool) | JStr(s: string) | JObject(fields: map<string, Json>)

  /** A Python dict with string keys. */
  type Dict = map<string, Json>

  /** Python truthiness of `d.get(key)`: a missing key reads as `None`. */
  predicate TruthyEntry(d: Dict, key: string)
    ensures key !in d ==> !TruthyEntry(d, key)
    ensures key in d && d[key].JBool? ==> (TruthyEntry(d, key) <==> d[key].b)
  {
    key in d &&
    match d[key]
    case JNull => false
    case JBool(b) => b
    case JStr(s) => s != ""
    case JObject(f) => f != map[]
  }

  datatype HttpResponse = HttpResponse(statusCode: int, body: Json)

  datatype Status = Healthy | Unhealthy

  /** The `status` entry of a body. */
  function StatusText(s: Status): string {
    match s
    case Healthy => "ok"
    case Unhealthy => "error"
  }

  function HttpCode(s: Status): int {
    match s
    case Healthy => 200
    case Unhealthy => 500
  }

  /** `GET /health`: no probe and no setting is consulted. */
  function ShallowHealthCheck(): (r: HttpResponse)
    ensures r.statusCode == HttpCode(Healthy) && r.statusCode == 200
    ensures r.body == JObject(map["status" := JStr(StatusText(Healthy))])
  {
    HttpResponse(200, JObject(map["status" := JStr("ok")]))
  }

  // ---------------------------------------------------------------------
  // The external calls, as abstract outcomes.

  /**
   * What `BlobServiceClient.from_connection_string`, `get_container_client`
   * and `get_container_properties` do for one connection string and one
   * container: succeed with the client's account URL, or raise.
   */
  datatype StorageIO = StorageReachable(accountUrl: string) | StorageFailure(message: string)

  type StorageClient = (string, string) -> StorageIO

  /** What `cosmos_ops.get_container()` and the top-1 query do: succeed or raise. */
  datatype CosmosIO = CosmosReachable | CosmosFailure(message: string)

  /**
   * Whether the start-up `from data import cosmos_ops` bound the name; when it
   * did not, the health check's call raises a `NameError`.
   */
  datatype CosmosBinding = ImportFailed | Imported(io: CosmosIO)

  const MissingConnectionMessage := "Missing AzureWebJobsStorage/ STORAGE_CONNECTION_STRING env var"
  const UnboundCosmosMessage := "name 'cosmos_ops' is not defined"

  // ---------------------------------------------------------------------
  // Probe results.

  /**
   * One probe's result: whether it passed, the diagnostic fields it adds,
   * and the text of the exception that stopped it, if any.
   */
  datatype ProbeResult = ProbeResult(ok: bool, details: Dict, error: Option<string>)

  /** `{"ok": False}`: the value each result holds before its probe runs. */
  const Unprobed := ProbeResult(false, map[], None)

  /** A result that passed or failed, but not both and not neither. */
  predicate Settled(p: ProbeResult) {
    (p.ok <==> p.error.None?) && "ok" !in p.details && "error" !in p.details
  }

  function Failed(message: string): (p: ProbeResult)
    ensures Settled(p) && !p.ok && p.details == map[] && p.error == Some(message)
  {
    Unprobed.(error := Some(message))
  }

  /** The dict a probe result is made of in the response body. */
  function ToDict(p: ProbeResult): (d: Dict)
    ensures d.Keys == {"ok"} + p.details.Keys + (if p.error.Some? then {"error"} else {})
    ensures "ok" !in p.details ==> d["ok"] == JBool(p.ok)
    ensures p.error.Some? ==> d["error"] == JStr(p.error.value)
    ensures forall k :: k in p.details && !(k == "error" && p.error.Some?) ==> d[k] == p.details[k]
  {
    map["ok" := JBool(p.ok)] + p.details + (if p.error.Some? then map["error" := JStr(p.error.value)] else map[])
  }

  /** The `ok` entry of the dict is truthy exactly when the probe passed. */
  lemma OkEntry(p: ProbeResult)
    requires "ok" !in p.details
    ensures TruthyEntry(ToDict(p), "ok") <==> p.ok
  {
    assert ToDict(p)["ok"] == JBool(p.ok);
  }

  /** A setting copied into a report: its value, or `null` when it is absent. */
  function Setting(env: Env, key: string): (j: Json)
    ensures j == JNull <==> key !in env
    ensures key in env ==> j == JStr(env[key])
  {
    if key in env then JStr(env[key]) else JNull
  }

  /** The storage probe, as a decision over the settings and the client's outcome. */
  function StorageProbe(env: Env, client: StorageClient): (p: ProbeResult)
    ensures Settled(p)
    ensures p.ok ==> p.details.Keys == {"container", "account_url"} &&
                     p.details["container"] == JStr(IngestionContainer(env))
    ensures !p.ok ==> p.details == map[]
  {
    var connStr := ConnectionString(env);
    var container := IngestionContainer(env);
    if !Truthy(connStr) then Failed(MissingConnectionMessage)
    else
      match client(connStr.value, container)
      case StorageReachable(url) =>
        ProbeResult(true, map["container" := JStr(container), "account_url" := JStr(url)], None)
      case StorageFailure(message) => Failed(message)
  }

  /** The Cosmos probe: the database and container settings are copied on success. */
  function CosmosProbe(env: Env, cosmos: CosmosBinding): (p: ProbeResult)
    ensures Settled(p)
    ensures p.ok <==> cosmos == Imported(CosmosReachable)
    ensures p.ok ==> p.details == map["database" := Setting(env, CosmosDatabaseName),
                                      "container" := Setting(env, CosmosContainerName)]
    ensures !p.ok ==> p.details == map[]
  {
    match cosmos
    case ImportFailed => Failed(UnboundCosmosMessage)
    case Imported(CosmosFailure(message)) => Failed(message)
    case Imported(CosmosReachable) =>
      ProbeResult(true, map["database" := Setting(env, CosmosDatabaseName),
                            "container" := Setting(env, CosmosContainerName)], None)
  }

  // ---------------------------------------------------------------------
  // Aggregation.

  datatype HealthReport = HealthReport(status: Status, storage: ProbeResult, cosmos: ProbeResult)

  /** The overall status is healthy exactly when both probes passed. */
  function Aggregate(storage: ProbeResult, cosmos: ProbeResult): (r: HealthReport)
    ensures r.status == Healthy <==> storage.ok && cosmos.ok
    ensures r.storage == storage && r.cosmos == cosmos
  {
    HealthReport(if storage.ok && cosmos.ok then Healthy else Unhealthy, storage, cosmos)
  }

  /** The response for a report: 200 or 500 to match, and every probe's entry. */
  function Render(r: HealthReport): (resp: HttpResponse)
    ensures resp.statusCode == 200 <==> r.status == Healthy
    ensures resp.statusCode == 500 <==> r.status == Unhealthy
    ensures resp.body.JObject? && resp.body.fields.Keys == {"status", "storage", "cosmos"}
    ensures resp.body.fields["storage"] == JObject(ToDict(r.storage))
    ensures resp.body.fields["cosmos"] == JObject(ToDict(r.cosmos))
  {
    HttpResponse(HttpCode(r.status), JObject(map["status" := JStr(StatusText(r.status)),
                                                  "storage" := JObject(ToDict(r.storage)),
                                                  "cosmos" := JObject(ToDict(r.cosmos))]))
  }

  /** `GET /health_extended`, as a value. */
  function ExtendedHealthCheck(env: Env, client: StorageClient, cosmos: CosmosBinding): (resp: HttpResponse)
    ensures resp.statusCode == 200 <==> StorageProbe(env, client).ok && CosmosProbe(env, cosmos).ok
    ensures resp.statusCode == 500 <==> !(StorageProbe(env, client).ok && CosmosProbe(env, cosmos).ok)
    ensures resp.body.JObject? && resp.body.fields.Keys == {"status", "storage", "cosmos"}
    ensures resp.body.fields["status"] ==
              JStr(if StorageProbe(env, client).ok && CosmosProbe(env, cosmos).ok then "ok" else "error")
    ensures resp.body.fields["storage"] == JObject(ToDict(StorageProbe(env, client)))
    ensures resp.body.fields["cosmos"] == JObject(ToDict(CosmosProbe(env, cosmos)))
  {
    Render(Aggregate(StorageProbe(env, client), CosmosProbe(env, cosmos)))
  }

  // ---------------------------------------------------------------------
  // The handler, building the result dicts in place as the source does.

  /** The storage `try` block: start from `{"ok": False}` and `update` it. */
  method ProbeStorage(env: Env, client: StorageClient) returns (result: Dict)
    ensures result == ToDict(StorageProbe(env, client))
  {
    result := map["ok" := JBool(false)];
    var connStr := ConnectionString(env);
    var container := IngestionContainer(env);
    if !Truthy(connStr) {
      result := result + map["error" := JStr(MissingConnectionMessage)];
    } else {
      match client(connStr.value, container) {
        case StorageReachable(url) =>
          result := result + map["ok" := JBool(true), "container" := JStr(container), "account_url" := JStr(url)];
        case StorageFailure(message) =>
          result := result + map["error" := JStr(message)];
      }
    }
  }

  /** The Cosmos `try` block: start from `{"ok": False}` and `update` it. */
  method ProbeCosmos(env: Env, cosmos: CosmosBinding) returns (result: Dict)
    ensures result == ToDict(CosmosProbe(env, cosmos))
  {
    result := map["ok" := JBool(false)];
    match cosmos {
      case ImportFailed =>
        result := result + map["error" := JStr(UnboundCosmosMessage)];
      case Imported(CosmosFailure(message)) =>
        result := result + map["error" := JStr(message)];
      case Imported(CosmosReachable) =>
        result := result + map["ok" := JBool(true),
                               "database" := Setting(env, CosmosDatabaseName),
                               "container" := Setting(env, CosmosContainerName)];
    }
  }

  /**
   * `http_health_check_extended`: both probes run, the overall status is the
   * conjunction of their `ok` entries, and the body carries both entries.
   */
  method HandleExtended(env: Env, client: StorageClient, cosmos: CosmosBinding) returns (resp: HttpResponse)
    ensures resp == ExtendedHealthCheck(env, client, cosmos)
    ensures resp.statusCode == 200 <==> StorageProbe(env, client).ok && CosmosProbe(env, cosmos).ok
  {
    var storageResult := ProbeStorage(env, client);
    var cosmosResult := ProbeCosmos(env, cosmos);
    OkEntry(StorageProbe(env, client));
    OkEntry(CosmosProbe(env, cosmos));
    var overallOk := TruthyEntry(storageResult, "ok") && TruthyEntry(cosmosResult, "ok");
    var status := if overallOk then StatusText(Healthy) else StatusText(Unhealthy);
    var httpStatus := if overallOk then HttpCode(Healthy) else HttpCode(Unhealthy);
    resp := HttpResponse(httpStatus, JObject(map["status" := JStr(status),
                                                 "storage" := JObject(storageResult),
                                                 "cosmos" := JObject(cosmosResult)]));
  }

  // ---------------------------------------------------------------------
  // Properties of the extended check.

  /** A result whose probe never reached its success update counts as failed. */
  lemma UnprobedCountsAsFailed(other: ProbeResult)
    ensures !TruthyEntry(ToDict(Unprobed), "ok")
    ensures Aggregate(Unprobed, other).status == Unhealthy
    ensures Aggregate(other, Unprobed).status == Unhealthy
  {
    OkEntry(Unprobed);
  }

  /**
   * Without a non-empty connection string the storage probe fails with the
   * fixed message before any storage call: its result is the same whatever
   * the storage client would have done, and the check answers 500.
   */
  lemma MissingConnectionString(env: Env, client: StorageClient, other: StorageClient, cosmos: CosmosBinding)
    requires !IsSet(env, AzureWebJobsStorage) && !IsSet(env, StorageConnectionString)
    ensures ToDict(StorageProbe(env, client)) == map["ok" := JBool(false), "error" := JStr(MissingConnectionMessage)]
    ensures StorageProbe(env, client) == StorageProbe(env, other)
    ensures ExtendedHealthCheck(env, client, cosmos).statusCode == 500
    ensures ExtendedHealthCheck(env, client, cosmos).body.fields["status"] == JStr("error")
  {
    ConnectionStringResolution(env);
  }

  /**
   * With a connection string, the storage client is asked about the resolved
   * connection string and container; success gives `ok`, the container and
   * the account URL and no `error`, failure gives the exception text and no
   * `container`.
   */
  lemma StorageResultShape(env: Env, client: StorageClient)
    requires IsSet(env, AzureWebJobsStorage) || IsSet(env, StorageConnectionString)
    ensures var conn := if IsSet(env, AzureWebJobsStorage) then env[AzureWebJobsStorage] else env[StorageConnectionString];
            var container := IngestionContainer(env);
            var d := ToDict(StorageProbe(env, client));
            match client(conn, container)
            case StorageReachable(url) =>
              d == map["ok" := JBool(true), "container" := JStr(container), "account_url" := JStr(url)]
            case StorageFailure(message) =>
              d == map["ok" := JBool(false), "error" := JStr(message)]
  {
    ConnectionStringResolution(env);
  }

  /**
   * The Cosmos result: the two settings (or `null`) on success, the
   * exception text on failure, and the `NameError` text when the start-up
   * import of `cosmos_ops` failed.
   */
  lemma CosmosResultShape(env: Env, cosmos: CosmosBinding)
    ensures var d := ToDict(CosmosProbe(env, cosmos));
            match cosmos
            case ImportFailed =>
              d == map["ok" := JBool(false), "error" := JStr(UnboundCosmosMessage)]
            case Imported(CosmosFailure(message)) =>
              d == map["ok" := JBool(false), "error" := JStr(message)]
            case Imported(CosmosReachable) =>
              d == map["ok" := JBool(true), "database" := Setting(env, CosmosDatabaseName),
                       "container" := Setting(env, CosmosContainerName)]
  {
  }

  /**
   * The two probes do not short-circuit each other: the storage entry does
   * not depend on Cosmos, and the Cosmos entry does not depend on storage.
   */
  lemma ProbesIndependent(env: Env, client1: StorageClient, client2: StorageClient,
                          cosmos1: CosmosBinding, cosmos2: CosmosBinding)
    ensures ExtendedHealthCheck(env, client1, cosmos1).body.fields["storage"] ==
            ExtendedHealthCheck(env, client1, cosmos2).body.fields["storage"]
    ensures ExtendedHealthCheck(env, client1, cosmos1).body.fields["cosmos"] ==
            ExtendedHealthCheck(env, client2, cosmos1).body.fields["cosmos"]
  {
  }

  /**
   * Storage reachable via `AzureWebJobsStorage` with no container setting,
   * Cosmos failing: 500, status `error`, storage `ok` on the default
   * container, Cosmos carrying the exception text.
   */
  lemma StorageUpCosmosDown(env: Env, client: StorageClient, message: string)
    requires IsSet(env, AzureWebJobsStorage)
    requires !IsSet(env, IngestionContainerKey) && !IsSet(env, SnippetInputContainerKey)
    requires client(env[AzureWebJobsStorage], DefaultIngestionContainer).StorageReachable?
    ensures var resp := ExtendedHealthCheck(env, client, Imported(CosmosFailure(message)));
            && resp.statusCode == 500
            && resp.body.fields["status"] == JStr("error")
            && resp.body.fields["storage"] ==
                 JObject(map["ok" := JBool(true), "container" := JStr("snippet-input"),
                             "account_url" := JStr(client(env[AzureWebJobsStorage], DefaultIngestionContainer).accountUrl)])
            && resp.body.fields["cosmos"] == JObject(map["ok" := JBool(false), "error" := JStr(message)])
  {
    ConnectionStringResolution(env);
    IngestionContainerResolution(env);
  }

  /**
   * Both probes passing make the extended check answer like the shallow
   * one: 200 with status `ok`.
   */
  lemma BothUpMatchesShallow(env: Env, client: StorageClient)
    requires IsSet(env, AzureWebJobsStorage) || IsSet(env, StorageConnectionString)
    requires client(if IsSet(env, AzureWebJobsStorage) then env[AzureWebJobsStorage] else env[StorageConnectionString],
                    IngestionContainer(env)).StorageReachable?
    ensures var resp := ExtendedHealthCheck(env, client, Imported(CosmosReachable));
            && resp.statusCode == ShallowHealthCheck().statusCode == 200
            && resp.body.fields["status"] == ShallowHealthCheck().body.fields["status"]
  {
    ConnectionStringResolution(env);
  }
}
