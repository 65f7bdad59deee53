/**
 * `LoadConfig` of go/game/config.go: the game service's settings read from
 * the environment, with defaults for unset variables, the listen port derived
 * from the listen address, and a final check of the instance numbering.
 */
module GameConfig {
  import opened Wrappers
  import opened GoStrings
  import opened Environment

  const ListenAddrVar := "GAME_SERVICE_LISTEN_ADDR"
  const PlayerServiceURLVar := "PLAYERS_SERVICE_URL"
  const TickIntervalVar := "GAME_SERVICE_TICK_INTERVAL"
  const PersistenceIntervalVar := "GAME_SERVICE_PERSISTENCE_INTERVAL"
  const RedisOnlineTTLVar := "REDIS_ONLINE_TTL"
  const InstanceIDVar := "GAME_SERVICE_INSTANCE_ID"
  const TotalInstancesVar := "TOTAL_GAME_SERVICE_INSTANCES"
  const RedisAddrsVar := "REDIS_ADDRS"

  /** Durations are Go `time.Duration` values, in nanoseconds. */
  const Millisecond: int := 1_000_000
  const Second: int := 1000 * Millisecond

  const DefaultTickInterval: int := 50 * Millisecond
  const DefaultPersistenceInterval: int := 30 * Second
  const DefaultRedisOnlineTTL: int := 15 * Second
  const DefaultInstanceID: int := 0
  const DefaultTotalInstances: int := 1
  const DefaultListenAddr := ":8082"
  const DefaultPort := "8082"
  const DefaultPlayerServiceURL := "http://localhost:8081"

  /** The seed nodes of a local six-node cluster. */
  const DefaultRedisAddrs: seq<string> := ["127.0.0.1:7000", "127.0.0.1:7001", "127.0.0.1:7002",
                                           "127.0.0.1:7003", "127.0.0.1:7004", "127.0.0.1:7005"]

  datatype Config = Config(
    listenAddr: string,
    serviceRegistrationPort: int,
    redisAddrs: seq<string>,
    tickInterval: int,
    persistenceInterval: int,
    redisOnlineTTL: int,
    gameServiceInstanceID: int,
    totalGameServiceInstances: int,
    playerServiceURL: string)

  datatype ConfigError =
    | InvalidDuration(name: string)
    | InvalidInteger(name: string)
    | InvalidListenAddr(addr: string)
    | InvalidPort(port: string)
    | NonPositiveTotal(total: int)
    | NegativeInstanceID(id: int)
    | InstanceIDOutOfRange(id: int, total: int)

  /**
   * `getDuration`: an unset variable gives the default, a set one must parse.
   * `time.ParseDuration` is the parameter `parseDuration`.
   */
  function GetDuration(env: Env, name: string, default: int, parseDuration: string -> Option<int>): (r: Result<int, ConfigError>)
    ensures Getenv(env, name) == "" ==> r == Ok(default)
    ensures Getenv(env, name) != "" ==> match parseDuration(Getenv(env, name))
                                        case None => r == Err(InvalidDuration(name))
                                        case Some(d) => r == Ok(d)
  {
    var s := Getenv(env, name);
    if s == "" then Ok(default)
    else match parseDuration(s)
      case None => Err(InvalidDuration(name))
      case Some(d) => Ok(d)
  }

  /** `getInt`: an unset variable gives the default, a set one must be a decimal int64. */
  function GetInt(env: Env, name: string, default: int): (r: Result<int, ConfigError>)
    ensures Getenv(env, name) == "" ==> r == Ok(default)
    ensures Getenv(env, name) != "" ==> match Atoi(Getenv(env, name))
                                        case None => r == Err(InvalidInteger(name))
                                        case Some(n) => r == Ok(n)
  {
    var s := Getenv(env, name);
    if s == "" then Ok(default)
    else match Atoi(s)
      case None => Err(InvalidInteger(name))
      case Some(n) => Ok(n)
  }

  /** The parts of a comma-separated address list, each trimmed of white space. */
  function TrimmedParts(raw: string): (addrs: seq<string>)
    ensures |addrs| == |Split(raw, ',')|
    ensures forall i :: 0 <= i < |addrs| ==> addrs[i] == TrimSpace(Split(raw, ',')[i])
  {
    var parts := Split(raw, ',');
    seq(|parts|, i requires 0 <= i < |parts| => TrimSpace(parts[i]))
  }

  /** The cluster addresses: the six seeds when unset, else the trimmed parts of the list. */
  function RedisAddrs(raw: string): seq<string> {
    if raw == "" then DefaultRedisAddrs else TrimmedParts(raw)
  }

  /**
   * The listen address and the registration port: a host with no colon gets
   * the default port appended; any other address must split into host and
   * port, and the port must be a decimal integer.
   */
  function ListenPort(addr: string): (r: Result<(string, int), ConfigError>)
    ensures r.Ok? && ':' in addr ==> && r.value.0 == addr && SplitHostPort(addr).Some?
                                      && Atoi(SplitHostPort(addr).value.1) == Some(r.value.1)
  {
    var (listen, portStr) :=
      match SplitHostPort(addr)
      case Some((_, port)) => (addr, port)
      case None => if ':' !in addr then (addr + ":" + DefaultPort, DefaultPort) else ("", "");
    if SplitHostPort(addr).None? && ':' in addr then Err(InvalidListenAddr(addr))
    else match Atoi(portStr)
      case None => Err(InvalidPort(portStr))
      case Some(port) => Ok((listen, port))
  }

  /** The final check of the instance numbering, in the order the loader makes it. */
  function Validate(id: int, total: int): (r: Outcome<ConfigError>)
    ensures r == Pass <==> 0 <= id < total
  {
    if total <= 0 then Fail(NonPositiveTotal(total))
    else if id < 0 then Fail(NegativeInstanceID(id))
    else if id >= total then Fail(InstanceIDOutOfRange(id, total))
    else Pass
  }

  /** The three durations, read in order: tick, persistence, online TTL. */
  function Durations(env: Env, parseDuration: string -> Option<int>): Result<(int, int, int), ConfigError> {
    var tick := GetDuration(env, TickIntervalVar, DefaultTickInterval, parseDuration);
    var persistence := GetDuration(env, PersistenceIntervalVar, DefaultPersistenceInterval, parseDuration);
    var ttl := GetDuration(env, RedisOnlineTTLVar, DefaultRedisOnlineTTL, parseDuration);
    if tick.Err? then Err(tick.error)
    else if persistence.Err? then Err(persistence.error)
    else if ttl.Err? then Err(ttl.error)
    else Ok((tick.value, persistence.value, ttl.value))
  }

  /** The instance id and the instance count, read in order. */
  function Instances(env: Env): Result<(int, int), ConfigError> {
    var id := GetInt(env, InstanceIDVar, DefaultInstanceID);
    var total := GetInt(env, TotalInstancesVar, DefaultTotalInstances);
    if id.Err? then Err(id.error)
    else if total.Err? then Err(total.error)
    else Ok((id.value, total.value))
  }

  /** The listen address, defaulted when unset, and its port. */
  function Listen(env: Env): Result<(string, int), ConfigError> {
    var raw := Getenv(env, ListenAddrVar);
    ListenPort(if raw == "" then DefaultListenAddr else raw)
  }

  /** The player service URL, defaulted when unset. */
  function PlayerServiceURL(env: Env): (url: string)
    ensures url != ""
  {
    var raw := Getenv(env, PlayerServiceURLVar);
    if raw == "" then DefaultPlayerServiceURL else raw
  }

  /** What `LoadConfig` returns for an environment: the first error in loading order, or the settings. */
  function Load(env: Env, parseDuration: string -> Option<int>): (r: Result<Config, ConfigError>)
    ensures r.Ok? <==> && Durations(env, parseDuration).Ok? && Instances(env).Ok? && Listen(env).Ok?
                       && 0 <= Instances(env).value.0 < Instances(env).value.1
    ensures r.Ok? ==> && r.value.playerServiceURL != ""
                      && (r.value.tickInterval, r.value.persistenceInterval, r.value.redisOnlineTTL) == Durations(env, parseDuration).value
                      && (r.value.gameServiceInstanceID, r.value.totalGameServiceInstances) == Instances(env).value
                      && (r.value.listenAddr, r.value.serviceRegistrationPort) == Listen(env).value
  {
    match Durations(env, parseDuration)
    case Err(e) => Err(e)
    case Ok((tick, persistence, ttl)) =>
      match Instances(env)
      case Err(e) => Err(e)
      case Ok((id, total)) =>
        match Listen(env)
        case Err(e) => Err(e)
        case Ok((listen, port)) =>
          match Validate(id, total)
          case Fail(e) => Err(e)
          case Pass => Ok(Config(listen, port, RedisAddrs(Getenv(env, RedisAddrsVar)),
                                 tick, persistence, ttl, id, total, PlayerServiceURL(env)))
  }

  lemma DefaultPortValue()
    ensures Atoi(DefaultPort) == Some(8082)
  {
    assert "8082"[..3] == "808" && "808"[..2] == "80" && "80"[..1] == "8" && "8"[..0] == "";
    assert DigitsValue("8") == 8;
    assert DigitsValue("80") == 80;
    assert DigitsValue("808") == 808;
    assert DigitsValue("8082") == 8082;
    assert forall i :: 0 <= i < |DefaultPort| ==> IsDigit(DefaultPort[i]);
  }

  /** The default listen address splits into an empty host and the default port text. */
  lemma DefaultListenSplit()
    ensures SplitHostPort(DefaultListenAddr) == Some(("", DefaultPort))
  {
    assert DefaultListenAddr[1..] == DefaultPort && ':' !in DefaultPort;
    assert LastIndexOf(DefaultListenAddr, ':') == 0;
    assert DefaultListenAddr[..0] == "" && DefaultListenAddr[0] == ':';
    assert DefaultListenAddr[0..] == DefaultListenAddr;
    assert '[' !in DefaultListenAddr && ']' !in DefaultListenAddr;
  }

  /** The default listen address splits into an empty host and port 8082. */
  lemma DefaultListenPort()
    ensures ListenPort(DefaultListenAddr) == Ok((DefaultListenAddr, 8082))
  {
    DefaultListenSplit();
    DefaultPortValue();
  }

  /** A bare host, with no colon, listens on the default port. */
  lemma HostOnlyListenPort(host: string)
    requires ':' !in host
    ensures ListenPort(host) == Ok((host + ":8082", 8082))
  {
    assert host + ":" + DefaultPort == host + ":8082";
    DefaultPortValue();
  }

  /** An address with a colon that does not split, such as "::", is rejected rather than defaulted. */
  lemma DoubleColonRejected()
    ensures ListenPort("::") == Err(InvalidListenAddr("::"))
  {
    assert LastIndexOf("::", ':') == 1;
    assert "::"[..1] == ":";
  }

  /**
   * With nothing set, the service listens on :8082, registers port 8082, ticks
   * every 50ms, persists every 30s, gives online keys a 15s TTL, is instance
   * 0 of 1, uses the six local seeds and calls the player service on
   * localhost:8081.
   */
  lemma EmptyEnvironmentDefaults(parseDuration: string -> Option<int>)
    ensures Load(map[], parseDuration) == Ok(Config(
      ":8082", 8082, DefaultRedisAddrs, 50 * Millisecond, 30 * Second, 15 * Second, 0, 1, "http://localhost:8081"))
  {
    DefaultListenPort();
  }

  /** Each address of a set list holds no comma and no white space at either end. */
  lemma TrimmedPartsClean(raw: string)
    ensures forall i :: 0 <= i < |TrimmedParts(raw)| ==>
      ',' !in TrimmedParts(raw)[i] && TrimSpace(TrimmedParts(raw)[i]) == TrimmedParts(raw)[i]
  {
    var addrs := TrimmedParts(raw);
    forall i | 0 <= i < |addrs|
      ensures ',' !in addrs[i] && TrimSpace(addrs[i]) == addrs[i]
    {
      var part := Split(raw, ',')[i];
      var t := TrimSpace(part);
      assert t == part[LeadingSpaces(part)..LeadingSpaces(part) + |t|];
      assert forall c :: c in t ==> c in part;
      TrimSpaceIdempotent(part);
    }
  }

  /**
   * A successful load has a well-formed instance numbering (0 <= id < total),
   * uses each duration variable as parsed or its default when unset, and
   * holds one trimmed address per comma-separated part of a set address list.
   */
  lemma LoadedMeaning(env: Env, parseDuration: string -> Option<int>)
    requires Load(env, parseDuration).Ok?
    ensures var cfg := Load(env, parseDuration).value;
      && 0 <= cfg.gameServiceInstanceID < cfg.totalGameServiceInstances
      && (Getenv(env, TickIntervalVar) == "" ==> cfg.tickInterval == DefaultTickInterval)
      && (Getenv(env, TickIntervalVar) != "" ==> parseDuration(Getenv(env, TickIntervalVar)) == Some(cfg.tickInterval))
      && (Getenv(env, PersistenceIntervalVar) == "" ==> cfg.persistenceInterval == DefaultPersistenceInterval)
      && (Getenv(env, PersistenceIntervalVar) != "" ==> parseDuration(Getenv(env, PersistenceIntervalVar)) == Some(cfg.persistenceInterval))
      && (Getenv(env, RedisOnlineTTLVar) == "" ==> cfg.redisOnlineTTL == DefaultRedisOnlineTTL)
      && (Getenv(env, RedisOnlineTTLVar) != "" ==> parseDuration(Getenv(env, RedisOnlineTTLVar)) == Some(cfg.redisOnlineTTL))
      && (Getenv(env, RedisAddrsVar) != "" ==>
            && |cfg.redisAddrs| == |Split(Getenv(env, RedisAddrsVar), ',')|
            && forall i :: 0 <= i < |cfg.redisAddrs| ==> ',' !in cfg.redisAddrs[i] && TrimSpace(cfg.redisAddrs[i]) == cfg.redisAddrs[i])
      && cfg.playerServiceURL != ""
  {
    var cfg := Load(env, parseDuration).value;
    var raw := Getenv(env, RedisAddrsVar);
    assert Durations(env, parseDuration).Ok? && Instances(env).Ok? && Listen(env).Ok?;
    var (tick, persistence, ttl) := Durations(env, parseDuration).value;
    var (id, total) := Instances(env).value;
    var (listen, port) := Listen(env).value;
    assert Validate(id, total) == Pass;
    assert cfg == Config(listen, port, RedisAddrs(raw), tick, persistence, ttl, id, total, PlayerServiceURL(env));
    if raw != "" {
      TrimmedPartsClean(raw);
    }
  }

  /** Trimming a trimmed string changes nothing. */
  lemma TrimSpaceIdempotent(s: string)
    ensures TrimSpace(TrimSpace(s)) == TrimSpace(s)
  {
    var t := TrimSpace(s);
    if t != [] {
      assert SkipSpaces(t, 0) == 0;
      assert BackSpaces(t, 0, |t|) == |t|;
    }
  }

  /**
   * Every instance-numbering error is reported: a load with integer
   * variables that parse fails when the total is not positive or the id
   * falls outside 0 .. total - 1.
   */
  lemma BadInstanceNumberingFails(env: Env, parseDuration: string -> Option<int>)
    requires GetInt(env, InstanceIDVar, DefaultInstanceID).Ok? && GetInt(env, TotalInstancesVar, DefaultTotalInstances).Ok?
    requires var id, total := GetInt(env, InstanceIDVar, DefaultInstanceID).value, GetInt(env, TotalInstancesVar, DefaultTotalInstances).value;
      !(0 <= id < total)
    ensures Load(env, parseDuration).Err?
  {
  }

  /** A set variable that does not parse as an integer fails the load, whatever else is set. */
  lemma NonIntegerInstanceFails(env: Env, parseDuration: string -> Option<int>)
    requires Getenv(env, InstanceIDVar) != "" && Atoi(Getenv(env, InstanceIDVar)).None?
    ensures Load(env, parseDuration).Err?
  {
  }

  /** A set duration that does not parse fails the load. */
  lemma MalformedDurationFails(env: Env, parseDuration: string -> Option<int>, name: string)
    requires name in {TickIntervalVar, PersistenceIntervalVar, RedisOnlineTTLVar}
    requires Getenv(env, name) != "" && parseDuration(Getenv(env, name)).None?
    ensures Load(env, parseDuration).Err?
  {
  }

  /**
   * `LoadConfig`: the fields are filled in the order the loader reads them,
   * the first error ending the load, and the address list is trimmed in
   * place part by part.
   */
  method LoadConfig(env: Env, parseDuration: string -> Option<int>) returns (r: Result<Config, ConfigError>)
    ensures r == Load(env, parseDuration)
  {
    var listenAddr := Getenv(env, ListenAddrVar);
    var playerServiceURL := Getenv(env, PlayerServiceURLVar);

    var tick := GetDuration(env, TickIntervalVar, DefaultTickInterval, parseDuration);
    if tick.Err? {
      return Err(tick.error);
    }
    var persistence := GetDuration(env, PersistenceIntervalVar, DefaultPersistenceInterval, parseDuration);
    if persistence.Err? {
      return Err(persistence.error);
    }
    var ttl := GetDuration(env, RedisOnlineTTLVar, DefaultRedisOnlineTTL, parseDuration);
    if ttl.Err? {
      return Err(ttl.error);
    }

    var id := GetInt(env, InstanceIDVar, DefaultInstanceID);
    if id.Err? {
      return Err(id.error);
    }
    var total := GetInt(env, TotalInstancesVar, DefaultTotalInstances);
    if total.Err? {
      return Err(total.error);
    }

    var redisAddrsStr := Getenv(env, RedisAddrsVar);
    var redisAddrs: seq<string>;
    if redisAddrsStr == "" {
      redisAddrs := DefaultRedisAddrs;
    } else {
      redisAddrs := Split(redisAddrsStr, ',');
      var i := 0;
      while i < |redisAddrs|
        invariant 0 <= i <= |redisAddrs| == |Split(redisAddrsStr, ',')|
        invariant forall j :: 0 <= j < i ==> redisAddrs[j] == TrimSpace(Split(redisAddrsStr, ',')[j])
        invariant forall j :: i <= j < |redisAddrs| ==> redisAddrs[j] == Split(redisAddrsStr, ',')[j]
      {
        redisAddrs := redisAddrs[i := TrimSpace(redisAddrs[i])];
        i := i + 1;
      }
      assert redisAddrs == TrimmedParts(redisAddrsStr);
    }

    if listenAddr == "" {
      listenAddr := DefaultListenAddr;
    }
    var portStr: string;
    var hostPort := SplitHostPort(listenAddr);
    if hostPort.None? {
      if ':' !in listenAddr {
        listenAddr := listenAddr + ":" + DefaultPort;
        portStr := DefaultPort;
      } else {
        return Err(InvalidListenAddr(listenAddr));
      }
    } else {
      portStr := hostPort.value.1;
    }
    var port := Atoi(portStr);
    if port.None? {
      return Err(InvalidPort(portStr));
    }

    if playerServiceURL == "" {
      playerServiceURL := DefaultPlayerServiceURL;
    }

    if total.value <= 0 {
      return Err(NonPositiveTotal(total.value));
    }
    if id.value < 0 {
      return Err(NegativeInstanceID(id.value));
    }
    if id.value >= total.value {
      return Err(InstanceIDOutOfRange(id.value, total.value));
    }
    return Ok(Config(listenAddr, port.value, redisAddrs, tick.value, persistence.value, ttl.value,
                     id.value, total.value, playerServiceURL));
  }
}
