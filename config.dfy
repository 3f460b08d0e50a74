/**
 * The process configuration, derived from the environment: two required
 * secrets, two settings with defaults, and an optional numeric owner id.
 */
module Config {
  import opened GoTypes
  import Decimal

  // The environment variable names.
  const TokenVar: GoString := [0x54, 0x45, 0x4C, 0x45, 0x47, 0x52, 0x41, 0x4D, 0x5F, 0x42, 0x4F, 0x54, 0x5F, 0x54, 0x4F, 0x4B, 0x45, 0x4E]  // TELEGRAM_BOT_TOKEN
  const ApiKeyVar: GoString := [0x57, 0x45, 0x42, 0x48, 0x4F, 0x4F, 0x4B, 0x5F, 0x41, 0x50, 0x49, 0x5F, 0x4B, 0x45, 0x59]  // WEBHOOK_API_KEY
  const DatabasePathVar: GoString := [0x44, 0x41, 0x54, 0x41, 0x42, 0x41, 0x53, 0x45, 0x5F, 0x50, 0x41, 0x54, 0x48]  // DATABASE_PATH
  const PortVar: GoString := [0x50, 0x4F, 0x52, 0x54]  // PORT
  const OwnerIdVar: GoString := [0x4F, 0x57, 0x4E, 0x45, 0x52, 0x5F, 0x49, 0x44]  // OWNER_ID

  // The defaults of the two optional settings.
  const DefaultDatabasePath: GoString := [0x2F, 0x64, 0x61, 0x74, 0x61, 0x2F, 0x62, 0x6F, 0x74, 0x2E, 0x64, 0x62]  // /data/bot.db
  const DefaultPort: GoString := [0x38, 0x30, 0x38, 0x30]  // 8080

  /** The process environment: variable name to value. */
  type Environment = map<GoString, GoString>

  datatype Config = Config(
    telegramToken: GoString,
    webhookApiKey: GoString,
    databasePath: GoString,
    port: GoString,
    ownerId: int64)

  /** Why Load refused the environment; the wrapped strconv error is not modelled. */
  datatype ConfigError = MissingToken | MissingApiKey | InvalidOwnerId

  /** os.Getenv: an unset variable reads as the empty string, like a missing map key. */
  function Getenv(env: Environment, name: GoString): GoString {
    Lookup(env, name)
  }

  /** An empty value means "use the default". */
  function OrDefault(v: GoString, default: GoString): (r: GoString)
    ensures v != [] ==> r == v
    ensures v == [] ==> r == default
  {
    if v == [] then default else v
  }

  /** Load: the checks in the order the source makes them, then the defaults and the owner id. */
  function Load(env: Environment): (r: Result<Config, ConfigError>)
    ensures r == Err(MissingToken) <==> Getenv(env, TokenVar) == []
    ensures r == Err(MissingApiKey) <==> Getenv(env, TokenVar) != [] && Getenv(env, ApiKeyVar) == []
    ensures r == Err(InvalidOwnerId) <==>
      && Getenv(env, TokenVar) != [] && Getenv(env, ApiKeyVar) != []
      && Getenv(env, OwnerIdVar) != [] && Decimal.ParseInt64(Getenv(env, OwnerIdVar)).None?
    ensures r.Ok? ==>
      && r.value.telegramToken == Getenv(env, TokenVar) != []
      && r.value.webhookApiKey == Getenv(env, ApiKeyVar) != []
      && r.value.databasePath == OrDefault(Getenv(env, DatabasePathVar), DefaultDatabasePath)
      && r.value.port == OrDefault(Getenv(env, PortVar), DefaultPort)
      && (Getenv(env, OwnerIdVar) == [] ==> r.value.ownerId == 0)
      && (Getenv(env, OwnerIdVar) != [] ==> Decimal.ParseInt64(Getenv(env, OwnerIdVar)) == Some(r.value.ownerId))
  {
    var token := Getenv(env, TokenVar);
    if token == [] then Err(MissingToken)
    else
      var apiKey := Getenv(env, ApiKeyVar);
      if apiKey == [] then Err(MissingApiKey)
      else
        var dbPath := OrDefault(Getenv(env, DatabasePathVar), DefaultDatabasePath);
        var port := OrDefault(Getenv(env, PortVar), DefaultPort);
        var ownerIdStr := Getenv(env, OwnerIdVar);
        if ownerIdStr == [] then Ok(Config(token, apiKey, dbPath, port, 0))
        else
          match Decimal.ParseInt64(ownerIdStr)
          case None => Err(InvalidOwnerId)
          case Some(ownerId) => Ok(Config(token, apiKey, dbPath, port, ownerId))
  }

  /** Load reads the five variables and nothing else. */
  lemma LoadReadsOnlyItsVariables(env1: Environment, env2: Environment)
    requires forall name :: name in {TokenVar, ApiKeyVar, DatabasePathVar, PortVar, OwnerIdVar} ==>
      Getenv(env1, name) == Getenv(env2, name)
    ensures Load(env1) == Load(env2)
  {
    assert TokenVar in {TokenVar, ApiKeyVar, DatabasePathVar, PortVar, OwnerIdVar};
    assert ApiKeyVar in {TokenVar, ApiKeyVar, DatabasePathVar, PortVar, OwnerIdVar};
    assert DatabasePathVar in {TokenVar, ApiKeyVar, DatabasePathVar, PortVar, OwnerIdVar};
    assert PortVar in {TokenVar, ApiKeyVar, DatabasePathVar, PortVar, OwnerIdVar};
    assert OwnerIdVar in {TokenVar, ApiKeyVar, DatabasePathVar, PortVar, OwnerIdVar};
  }

  /** With only the two secrets set, the defaults apply and the owner id is 0. */
  lemma LoadDefaults(token: GoString, apiKey: GoString)
    requires token != [] && apiKey != []
    ensures Load(map[TokenVar := token, ApiKeyVar := apiKey]) == Ok(Config(token, apiKey, DefaultDatabasePath, DefaultPort, 0))
  {
    var env := map[TokenVar := token, ApiKeyVar := apiKey];
    assert Getenv(env, TokenVar) == token && Getenv(env, ApiKeyVar) == apiKey;
    assert DatabasePathVar !in env && PortVar !in env && OwnerIdVar !in env;
  }

  /** The environment that spells out a configuration, with the owner id written in decimal. */
  function EnvFor(c: Config): Environment {
    map[TokenVar := c.telegramToken, ApiKeyVar := c.webhookApiKey, DatabasePathVar := c.databasePath,
        PortVar := c.port, OwnerIdVar := Decimal.FormatInt(c.ownerId)]
  }

  /** Every configuration with non-empty settings is what Load derives from its own environment. */
  lemma LoadEnvFor(c: Config)
    requires c.telegramToken != [] && c.webhookApiKey != [] && c.databasePath != [] && c.port != []
    ensures Load(EnvFor(c)) == Ok(c)
  {
    var env := EnvFor(c);
    assert Getenv(env, TokenVar) == c.telegramToken;
    assert Getenv(env, ApiKeyVar) == c.webhookApiKey;
    assert Getenv(env, DatabasePathVar) == c.databasePath;
    assert Getenv(env, PortVar) == c.port;
    assert Getenv(env, OwnerIdVar) == Decimal.FormatInt(c.ownerId);
    Decimal.ParseFormat(c.ownerId);
  }
}
