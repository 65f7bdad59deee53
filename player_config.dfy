/**
 * `LoadConfig` of go/player/config.go: the player service's four settings,
 * each taken from its own environment variable or defaulted when that
 * variable is unset or empty.
 */
module PlayerConfig {
  import opened Wrappers
  import opened Environment

  const ListenAddrVar := "LISTEN_ADDR"
  const MongoDBConnStrVar := "MONGODB_CONN_STR"
  const MongoDBDatabaseVar := "MONGODB_DATABASE"
  const MongoDBPlayersCollectionVar := "MONGODB_PLAYERS_COLLECTION"

  const DefaultListenAddr := ":8081"
  const DefaultMongoDBConnStr := "mongodb://localhost:27017"
  const DefaultMongoDBDatabase := "minestom"
  const DefaultMongoDBPlayersCollection := "players"

  datatype Config = Config(listenAddr: string, mongoDBConnStr: string, mongoDBDatabase: string, mongoDBPlayersCollection: string)

  /** The loader has no failure mode; its error result is always nil. */
  datatype ConfigError = ConfigError

  /** One setting: the variable's value when it is non-empty, the default otherwise. */
  function Setting(env: Env, name: string, default: string): string {
    var v := Getenv(env, name);
    if v == "" then default else v
  }

  /** The settings `LoadConfig` produces. */
  function Loaded(env: Env): (cfg: Config)
    ensures cfg.listenAddr == (if Getenv(env, ListenAddrVar) != "" then Getenv(env, ListenAddrVar) else ":8081")
    ensures cfg.mongoDBConnStr == (if Getenv(env, MongoDBConnStrVar) != "" then Getenv(env, MongoDBConnStrVar) else "mongodb://localhost:27017")
    ensures cfg.mongoDBDatabase == (if Getenv(env, MongoDBDatabaseVar) != "" then Getenv(env, MongoDBDatabaseVar) else "minestom")
    ensures cfg.mongoDBPlayersCollection == (if Getenv(env, MongoDBPlayersCollectionVar) != "" then Getenv(env, MongoDBPlayersCollectionVar) else "players")
  {
    Config(Setting(env, ListenAddrVar, DefaultListenAddr),
           Setting(env, MongoDBConnStrVar, DefaultMongoDBConnStr),
           Setting(env, MongoDBDatabaseVar, DefaultMongoDBDatabase),
           Setting(env, MongoDBPlayersCollectionVar, DefaultMongoDBPlayersCollection))
  }

  /** A set, non-empty variable is kept verbatim; an unset or empty one gives that field's default. */
  lemma SettingMeaning(env: Env, name: string, default: string)
    ensures name in env && env[name] != "" ==> Setting(env, name, default) == env[name]
    ensures name !in env || env[name] == "" ==> Setting(env, name, default) == default
  {
  }

  /** No setting is ever empty, since every default is non-empty. */
  lemma SettingsNonEmpty(env: Env)
    ensures var cfg := Loaded(env);
      cfg.listenAddr != "" && cfg.mongoDBConnStr != "" && cfg.mongoDBDatabase != "" && cfg.mongoDBPlayersCollection != ""
  {
  }

  /** With nothing set, the service listens on :8081 and uses the local "minestom" database's "players" collection. */
  lemma EmptyEnvironmentDefaults()
    ensures Loaded(map[]) == Config(":8081", "mongodb://localhost:27017", "minestom", "players")
  {
  }

  /** Each field depends on its own variable only: changing any other variable leaves it unchanged. */
  lemma FieldsIndependent(env: Env, name: string, value: string)
    ensures var before, after := Loaded(env), Loaded(env[name := value]);
      && (name != ListenAddrVar ==> after.listenAddr == before.listenAddr)
      && (name != MongoDBConnStrVar ==> after.mongoDBConnStr == before.mongoDBConnStr)
      && (name != MongoDBDatabaseVar ==> after.mongoDBDatabase == before.mongoDBDatabase)
      && (name != MongoDBPlayersCollectionVar ==> after.mongoDBPlayersCollection == before.mongoDBPlayersCollection)
  {
  }

  /**
   * `LoadConfig`: the fields are read, then each empty one is overwritten by
   * its default in turn; the load never fails.
   */
  method LoadConfig(env: Env) returns (r: Result<Config, ConfigError>)
    ensures r == Ok(Loaded(env))
  {
    var cfg := Config(Getenv(env, ListenAddrVar), Getenv(env, MongoDBConnStrVar),
                      Getenv(env, MongoDBDatabaseVar), Getenv(env, MongoDBPlayersCollectionVar));
    if cfg.listenAddr == "" {
      cfg := cfg.(listenAddr := DefaultListenAddr);
    }
    if cfg.mongoDBConnStr == "" {
      cfg := cfg.(mongoDBConnStr := DefaultMongoDBConnStr);
    }
    if cfg.mongoDBDatabase == "" {
      cfg := cfg.(mongoDBDatabase := DefaultMongoDBDatabase);
    }
    if cfg.mongoDBPlayersCollection == "" {
      cfg := cfg.(mongoDBPlayersCollection := DefaultMongoDBPlayersCollection);
    }
    return Ok(cfg);
  }
}
