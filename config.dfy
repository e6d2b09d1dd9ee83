/**
 * Resolution of the settings the extended health check reads from the
 * process environment. Python's `or` treats `None` and the empty string as
 * false, so each setting is the first non-empty value of a fallback chain.
 */
module Config {
  import opened Wrappers

  /** The process environment, `os.environ`. */
  type Env = map<string, string>

  const AzureWebJobsStorage := "AzureWebJobsStorage"
  const StorageConnectionString := "STORAGE_CONNECTION_STRING"
  const IngestionContainerKey := "INGESTION_CONTAINER"
  const SnippetInputContainerKey := "STORAGE_CONTAINER_SNIPPETINPUT"
  const CosmosDatabaseName := "COSMOS_DATABASE_NAME"
  const CosmosContainerName := "COSMOS_CONTAINER_NAME"

  /** The container used when neither container setting is given. */
  const DefaultIngestionContainer := "snippet-input"

  /** `os.environ.get(key)`. */
  function Get(env: Env, key: string): (v: Option<string>)
    ensures v.Some? <==> key in env
    ensures v.Some? ==> v.value == env[key]
  {
    if key in env then Some(env[key]) else None
  }

  /** Python truthiness of an optional string: `None` and `""` are false. */
  predicate Truthy(v: Option<string>) {
    v.Some? && v.value != ""
  }

  /** The setting is present with a non-empty value. */
  predicate IsSet(env: Env, key: string) {
    key in env && env[key] != ""
  }

  /**
   * `vs[0] or vs[1] or ... or vs[n-1]`: Python's `or` yields its first
   * truthy operand, or its last operand when none is truthy.
   */
  function OrChain(vs: seq<Option<string>>): (r: Option<string>)
    requires |vs| > 0
    ensures r in vs
    ensures Truthy(r) <==> exists i :: 0 <= i < |vs| && Truthy(vs[i])
    decreases |vs|
  {
    if |vs| == 1 || Truthy(vs[0]) then vs[0]
    else
      var r := OrChain(vs[1..]);
      assert forall i :: 0 <= i < |vs| - 1 ==> vs[1..][i] == vs[i + 1];
      r
  }

  /** The chain picks the first truthy operand. */
  lemma {:induction false} OrChainPicksFirstTruthy(vs: seq<Option<string>>, k: nat)
    requires k < |vs| && Truthy(vs[k])
    requires forall j :: 0 <= j < k ==> !Truthy(vs[j])
    ensures OrChain(vs) == vs[k]
  {
    if k > 0 {
      OrChainPicksFirstTruthy(vs[1..], k - 1);
    }
  }

  /** With no truthy operand the chain yields its last operand. */
  lemma {:induction false} OrChainAllFalsy(vs: seq<Option<string>>)
    requires |vs| > 0
    requires forall j :: 0 <= j < |vs| ==> !Truthy(vs[j])
    ensures OrChain(vs) == vs[|vs| - 1]
  {
    if |vs| > 1 {
      OrChainAllFalsy(vs[1..]);
    }
  }

  /** `AzureWebJobsStorage or STORAGE_CONNECTION_STRING`. */
  function ConnectionString(env: Env): (conn: Option<string>)
    ensures conn == Get(env, AzureWebJobsStorage) || conn == Get(env, StorageConnectionString)
    ensures Truthy(conn) <==> IsSet(env, AzureWebJobsStorage) || IsSet(env, StorageConnectionString)
  {
    var vs := [Get(env, AzureWebJobsStorage), Get(env, StorageConnectionString)];
    assert Truthy(vs[0]) <==> IsSet(env, AzureWebJobsStorage);
    assert Truthy(vs[1]) <==> IsSet(env, StorageConnectionString);
    OrChain(vs)
  }

  /**
   * `INGESTION_CONTAINER or STORAGE_CONTAINER_SNIPPETINPUT or "snippet-input"`;
   * the default is non-empty, so the resolved name never is.
   */
  function IngestionContainer(env: Env): (name: string)
    ensures name != ""
  {
    var vs := [Get(env, IngestionContainerKey), Get(env, SnippetInputContainerKey), Some(DefaultIngestionContainer)];
    assert Truthy(vs[2]);
    OrChain(vs).value
  }

  /**
   * The connection string is usable exactly when one of the two settings is
   * non-empty, and `AzureWebJobsStorage` takes precedence.
   */
  lemma ConnectionStringResolution(env: Env)
    ensures Truthy(ConnectionString(env)) <==> IsSet(env, AzureWebJobsStorage) || IsSet(env, StorageConnectionString)
    ensures IsSet(env, AzureWebJobsStorage) ==> ConnectionString(env) == Some(env[AzureWebJobsStorage])
    ensures !IsSet(env, AzureWebJobsStorage) && IsSet(env, StorageConnectionString) ==>
              ConnectionString(env) == Some(env[StorageConnectionString])
  {
    var vs := [Get(env, AzureWebJobsStorage), Get(env, StorageConnectionString)];
    if IsSet(env, AzureWebJobsStorage) {
      OrChainPicksFirstTruthy(vs, 0);
    } else if IsSet(env, StorageConnectionString) {
      OrChainPicksFirstTruthy(vs, 1);
    }
  }

  /** The container name is the first non-empty setting of the chain, else the default. */
  lemma IngestionContainerResolution(env: Env)
    ensures IsSet(env, IngestionContainerKey) ==> IngestionContainer(env) == env[IngestionContainerKey]
    ensures !IsSet(env, IngestionContainerKey) && IsSet(env, SnippetInputContainerKey) ==>
              IngestionContainer(env) == env[SnippetInputContainerKey]
    ensures !IsSet(env, IngestionContainerKey) && !IsSet(env, SnippetInputContainerKey) ==>
              IngestionContainer(env) == DefaultIngestionContainer
  {
    var vs := [Get(env, IngestionContainerKey), Get(env, SnippetInputContainerKey), Some(DefaultIngestionContainer)];
    if IsSet(env, IngestionContainerKey) {
      OrChainPicksFirstTruthy(vs, 0);
    } else if IsSet(env, SnippetInputContainerKey) {
      OrChainPicksFirstTruthy(vs, 1);
    } else {
      OrChainPicksFirstTruthy(vs, 2);
    }
  }
}
