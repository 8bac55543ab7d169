/** The configuration half of the storage layer: reading the PostgreSQL
    connection settings and the MongoDB URI from the process environment.
    The environment is a map from variable name to value; a variable that
    is not set is absent from the map. */
module DataStore {
  import opened Wrappers
  import opened PyStr

  type Env = map<string, string>

  /** The variables the PostgreSQL connection needs, in the order they are
      checked and reported. */
  const RequiredKeys: seq<string> :=
    ["POSTGRES_HOST", "POSTGRES_DB", "POSTGRES_USER", "POSTGRES_PASSWORD"]

  const MissingPrefix: string := "Brakuje następujących zmiennych środowiskowych: "

  const MongoUriKey: string := "MONGO_URI"
  const DefaultMongoUri: string := "mongodb://localhost:27017"

  /** `not os.getenv(key)`: the variable is unset or set to "". */
  predicate Unset(env: Env, key: string) {
    key !in env || env[key] == ""
  }

  /** `xs` is `ys` with some elements left out and the rest in order. */
  predicate IsSubsequence<T(==)>(xs: seq<T>, ys: seq<T>)
    decreases |ys|
  {
    if xs == [] then true
    else if ys == [] then false
    else if xs[0] == ys[0] then IsSubsequence(xs[1..], ys[1..])
    else IsSubsequence(xs, ys[1..])
  }

  /** The keys among `keys` that are unset in `env`, in the order of `keys`. */
  function MissingAmong(env: Env, keys: seq<string>): (r: seq<string>)
    ensures forall k :: k in r <==> k in keys && Unset(env, k)
    ensures IsSubsequence(r, keys)
    decreases |keys|
  {
    if keys == [] then []
    else
      var rest := MissingAmong(env, keys[1..]);
      assert forall k :: k in keys <==> k == keys[0] || k in keys[1..];
      if Unset(env, keys[0]) then [keys[0]] + rest else rest
  }

  /** The `missing_keys` list of `get_postgres_config`. */
  function MissingKeys(env: Env): (r: seq<string>)
    ensures forall k :: k in r <==> k in RequiredKeys && Unset(env, k)
    ensures IsSubsequence(r, RequiredKeys)
  {
    MissingAmong(env, RequiredKeys)
  }

  /** The `EnvironmentError` raised when variables are missing. */
  datatype EnvironmentError = EnvironmentError(message: string)

  /** `get_postgres_config()`: fails exactly when some required variable is
      unset or empty, with a message naming the missing ones joined by ", ";
      otherwise the four connection parameters, each a non-empty value of
      its variable. */
  function PostgresConfig(env: Env): (r: Result<map<string, string>, EnvironmentError>)
    ensures r.Failure? <==> MissingKeys(env) != []
    ensures r.Failure? ==> r.error.message == MissingPrefix + Join(MissingKeys(env), ", ")
    ensures r.Success? ==>
              && r.value.Keys == {"host", "dbname", "user", "password"}
              && (forall k :: k in RequiredKeys ==> k in env && env[k] != "")
              && r.value["host"] == env["POSTGRES_HOST"]
              && r.value["dbname"] == env["POSTGRES_DB"]
              && r.value["user"] == env["POSTGRES_USER"]
              && r.value["password"] == env["POSTGRES_PASSWORD"]
  {
    var missing := MissingKeys(env);
    if missing != [] then
      Failure(EnvironmentError(MissingPrefix + Join(missing, ", ")))
    else
      assert forall k :: k in RequiredKeys ==> k !in missing;
      Success(map[
        "host" := env["POSTGRES_HOST"],
        "dbname" := env["POSTGRES_DB"],
        "user" := env["POSTGRES_USER"],
        "password" := env["POSTGRES_PASSWORD"]])
  }

  /** `get_mongo_uri()`: the value of MONGO_URI whenever it is set, even to
      "", and the local default only when it is unset. */
  function MongoUri(env: Env): (r: string)
    ensures MongoUriKey in env ==> r == env[MongoUriKey]
    ensures MongoUriKey !in env ==> r == DefaultMongoUri
    ensures r == "" <==> MongoUriKey in env && env[MongoUriKey] == ""
  {
    if MongoUriKey in env then env[MongoUriKey] else DefaultMongoUri
  }
}
