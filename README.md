# Game backend: cache, tick updater, syncer, handlers and stores

This project models the Go backend of a Minestom game network. It has two services.

The **game service** keeps each online player's session in a Redis Cluster:
- an online flag with a TTL;
- the total playtime and the playtime accrued since the last persist (the "delta");
- the player's team;
- a ban flag;
- one running total per team.

All of a player's keys carry the player's UUID as a Redis hash tag (`online:{uuid}:`). Because of this they live in one cluster slot.

The service has four moving parts:
- a **tick updater** adds each online player's delta to their own total and to their team's total, every tick;
- a **syncer** periodically asks the player service to recompute team totals, and overwrites the cached ones;
- HTTP **handlers** take players online and offline, ban and unban them, and answer counter reads;
- a **service registrar** keeps each instance's heartbeat in a registry hash and removes stale peers.

The **player service** keeps the durable player and team documents in MongoDB. It also recomputes team totals from the players' totals.

Both services read their settings from the environment. The loaders are modelled as well.

Conventions:
- **Time** is an integer number of milliseconds (`now`). Unix seconds are `now / 1000`. Configuration durations are Go `time.Duration` nanoseconds.
- **The cache** is a value `map<string, Entry>` of typed values, each with an optional expiry instant (`Keyspace`).
- **Stores** whose fields the code updates are classes with `modifies` clauses:
  - `GameCache.RedisClient`
  - `LegacyCache.LegacyRedisClient`
  - `Membership.RegistryStore`
  - `PlayerData.PlayerStore`
  - `TeamData.TeamStore`
- **Faults.** Every network call takes a fault input: a `reachable` flag, a `failing` set, a `down` set of cache operations, or, for the team-totals aggregation, the number of rows the cursor delivers before a batch fetch fails. So each error path of the modelled calls is modelled, and no precondition rules one out; the error paths of calls that are not modelled are listed under "## Left out".
- **Other inputs.** The clock, the UUID generator, the player-service response and `time.ParseDuration` are parameters too.

Modules, in dependency order:
- `Wrappers`: Option, Result, Outcome, and the Go zero time.
- `GoStrings`: `strings.Index`, `TrimSpace`, `Split`, `strconv.Atoi` and `net.SplitHostPort` on `seq<char>`.
- `Environment`: `os.Getenv`.
- `Keyspace`: GET, SET with TTL, DEL and INCRBYFLOAT.
- `GameCache`: the hash-tag cache client.
- `LegacyCache`: the older plain-prefix client, which declares the same type as an alternative.
- `Membership`: the registrar.
- `Updater`, `Syncer` and `GameHandlers`: the game-service logic.
- `PlayerData`, `TeamData` and `TeamSync`: the player-service stores and the team-totals handler.
- `PlayerDocs`: the BSON documents behind the player store, under the names the driver writes and under the names the queries use.
- `GameConfig` and `PlayerConfig`: the two configuration loaders.

## Model

| member | source | states |
|---|---|---|
| GameCache.FormatsBraced | go/game/redis.go:25-34 | every one of the six key formats puts the id between a single `{` and the following `}` |
| GameCache.FormatKeyInjective | go/game/redis.go:65-72 | two ids give the same key under one format only when they are equal |
| GameCache.HeadsDiffer | go/game/redis.go:25-34 | the six format prefixes are pairwise distinguished by their first or fifth character |
| GameCache.KeyFamiliesDisjoint | go/game/redis.go:25-34 | keys of two different formats never collide, whatever the ids |
| GameCache.DistinctKeys | go/game/redis.go:65-72 | two keys are equal only when format and id both are |
| GameCache.HashTag | go/game/redis.go:402-407 | a tag extracted from a scanned key never holds a `}` |
| GameCache.HashTagPresent | go/game/redis.go:402-407 | a `{` with no earlier `}` and a later `}` always yields a tag |
| GameCache.HashTagAbsent | go/game/redis.go:402-407 | a key is skipped only when no `{` of it is followed by a `}` without one before it |
| GameCache.HashTagOfFormatKey | go/game/redis.go:65-72 | the tag of any formatted key is exactly its id (for ids with no `}`), so all of a player's keys share one slot |
| GameCache.FormatKeyHead | go/game/redis.go:65-72 | every formatted key starts with its format's text before the id |
| GameCache.SessionKeysSpare | go/game/redis.go:367-381 | clearing a session deletes only that player's online, playtime, delta and team keys; ban flags, team totals and other players' keys survive |
| GameCache.BanRoundTrip | go/game/redis.go:97-144 | after a ban with a given expiry, the player reads as banned exactly while the expiry has not passed, for ever when the expiry is 0 or less |
| GameCache.UnbanRoundTrip | go/game/redis.go:97-113 | after an unban the player never reads as banned |
| GameCache.BanTtl | go/game/redis.go:100-108 | the TTL is never negative; a permanent ban has none; a future expiry second gets the time left to it; an expiry second equal to now gives 0, so no TTL; a past one gets 1 ms |
| GameCache.BanActive | go/game/redis.go:116-144 | a stored flag means banned iff it parses as an integer that is 0 or less or whose second has not yet arrived |
| GameCache.AccrualAddsDelta | go/game/redis.go:214-276 | with a team and a numeric delta present, one accrual adds the delta to the player's total and to that team's total and changes no other key |
| GameCache.AccrualWithoutInputs | go/game/redis.go:214-276 | a player without a team, or without a delta, accrues nothing and the call succeeds; a textual delta is an error that writes nothing |
| GameCache.Accrual | go/game/redis.go:214-276 | an unreachable cache fails with nothing written; an accrual changes no key other than the player and team counters |
| GameCache.ReadCounter | go/game/redis.go:281-304 | a single counter read succeeds iff the cache answers and holds a number, which it returns; `ErrRedisKeyNotFound` iff the cache answers and the key is missing |
| GameCache.PlaytimeAndDelta | go/game/redis.go:309-336 | the corrected pipelined read succeeds iff the cache answers and neither counter holds text; each result is the stored number, or 0 for a missing counter |
| GameCache.PlaytimeAndDeltaAsWritten | go/game/redis.go:309-336 | as written, a missing counter fails the pipeline with redis.Nil, and that is the only case in which it differs from the corrected read |
| GameCache.PlaytimeAndDeltaMatchesSingleReads | go/game/redis.go:309-336 | the corrected pipelined read agrees with the two single reads: a missing counter reads 0, a non-numeric one is an error |
| GameCache.AsWrittenFailsOnMissingDelta | go/game/redis.go:309-336 | with a total but no delta, the pipelined read as written fails with the wrapped redis.Nil error, where the intended result is (total, 0) |
| GameCache.OnlineUUIDsOf | go/game/redis.go:386-430 | every UUID returned is the tag of some scanned key, and there are no more UUIDs than keys |
| GameCache.OnlineUUIDsRoundTrip | go/game/redis.go:386-430 | scanning the online keys of a list of players yields exactly that list, in order |
| GameCache.OnlineUUIDsAppend | go/game/redis.go:386-430 | the scan result of concatenated key batches is the concatenation of their results |
| GameCache.TeamTotalsOf | go/game/redis.go:183-211 | every team in the result has a scanned key with that tag, whose GET did not fail, holding exactly that number |
| GameCache.TotalsByTeam | go/game/redis.go:169-179 | the per-team reads give one total per team, 0 for a missing one |
| GameCache.TeamTotalsRoundTrip | go/game/redis.go:183-211 | scanning the total keys of a list of teams with numeric totals and no failing GET gives the same map as reading each team's total |
| GameCache.RedisClient.SetOnlineStatus | go/game/redis.go:75-78 | writes "true" under the online key with the configured TTL, or reports the outage and writes nothing |
| GameCache.RedisClient.SetOfflineStatus | go/game/redis.go:81-84 | deletes the online key |
| GameCache.RedisClient.IsOnline | go/game/redis.go:87-94 | online iff the online key exists and has not expired |
| GameCache.RedisClient.SetBanStatus | go/game/redis.go:97-113 | a ban stores the expiry with a TTL reaching at least to the next millisecond, except that an expiry second equal to `now` gives a zero duration and so no TTL; a permanent ban has no TTL; an unban deletes the flag |
| GameCache.RedisClient.IsBanned | go/game/redis.go:116-144 | banned iff the flag exists, parses as an integer and its expiry is 0 or still ahead; an unparsable flag reads as not banned |
| GameCache.RedisClient.SetPlayerTeam | go/game/redis.go:147-150 | stores the team id with no expiry |
| GameCache.RedisClient.SetTeamTotal | go/game/redis.go:152-160 | overwrites the team total with no expiry |
| GameCache.RedisClient.IncrementTeamTotalPlaytime | go/game/redis.go:163-166 | adds to the team total; a textual total is an error that changes nothing |
| GameCache.RedisClient.GetTeamTotalPlaytime | go/game/redis.go:169-179 | a missing total reads 0, a textual one is an error, a number is returned |
| GameCache.RedisClient.GetAllTeamTotalPlaytimes | go/game/redis.go:183-211 | the loop over scanned keys computes `TeamTotalsOf`, skipping keys whose GET fails; a scan error discards everything |
| GameCache.RedisClient.IncrementPlayerPlaytime | go/game/redis.go:214-276 | the step-by-step accrual leaves the cache and result of `Accrual` |
| GameCache.RedisClient.GetPlayerPlaytime | go/game/redis.go:281-291 | `ErrRedisKeyNotFound` exactly when the total is missing |
| GameCache.RedisClient.GetDeltaPlaytime | go/game/redis.go:294-304 | `ErrRedisKeyNotFound` exactly when the delta is missing |
| GameCache.RedisClient.GetPlayerPlaytimeAndDelta | go/game/redis.go:309-336 | returns the corrected pipelined read |
| GameCache.RedisClient.SetPlayerPlaytime | go/game/redis.go:339-342 | overwrites the total with no expiry |
| GameCache.RedisClient.SetDeltaPlaytime | go/game/redis.go:345-348 | overwrites the delta with no expiry |
| GameCache.RedisClient.CheckPlaytimeKeysExist | go/game/redis.go:351-364 | each flag is true iff the matching counter exists |
| GameCache.RedisClient.RemovePlayerSessionData | go/game/redis.go:367-381 | deletes exactly the player's four session keys |
| GameCache.RedisClient.GetAllOnlineUUIDs | go/game/redis.go:386-430 | the loop over the scanned keys computes `OnlineUUIDsOf` |
| LegacyCache.Key | go/game/redis_client.go:19-26 | a key is the prefix followed by the id, which can be read back after the prefix |
| LegacyCache.KeyInjective | go/game/redis_client.go:59 | under one prefix, a key names one id (both directions) |
| LegacyCache.KeyFamiliesDisjoint | go/game/redis_client.go:19-26 | keys of two different prefixes never collide |
| LegacyCache.DistinctKeys | go/game/redis_client.go:19-26 | two keys are equal only when prefix and id are |
| LegacyCache.KeysUntagged | go/game/redis_client.go:19-26 | a key has no `{` unless its id does, so it carries no hash tag |
| LegacyCache.OnlineRoundTrip | go/game/redis_client.go:58-80 | after setting online the player is online until the TTL runs out; after setting offline, not online |
| LegacyCache.Banned | go/game/redis_client.go:84-94 | a missing flag is no ban |
| LegacyCache.BannedOnlyByTrue | go/game/redis_client.go:84-94 | a stored flag reads as banned iff it is exactly "true" |
| LegacyCache.TeamOf | go/game/redis_client.go:97-107 | a missing team key is a team-not-found error; a textual value is returned as the team id |
| LegacyCache.TeamTotal | go/game/redis_client.go:128-138 | a missing total reads 0, a textual one is an error, a number is returned |
| LegacyCache.IncrementTouchesOnlyPlaytime | go/game/redis_client.go:110-113 | incrementing a player's playtime leaves every other key of every family as it reads |
| LegacyCache.IncrementKeepsTeamTotals | go/game/redis_client.go:110-125 | team totals do not move when a player's playtime is incremented |
| LegacyCache.ResetReadsZero | go/game/redis_client.go:220-223 | after a reset the delta reads 0 |
| LegacyCache.OnlineSuffixes | go/game/redis_client.go:142-156 | every returned UUID is non-empty and is the text after the prefix length of a scanned key longer than the prefix |
| LegacyCache.OnlineSuffixesRoundTrip | go/game/redis_client.go:142-156 | scanning the online keys of players with non-empty UUIDs yields exactly those UUIDs |
| LegacyCache.BareOnlineKeySkipped | go/game/redis_client.go:148-150 | the bare key "online:" yields nothing |
| LegacyCache.LegacyRedisClient.SetOnlineStatus | go/game/redis_client.go:58-62 | writes "true" with the online TTL |
| LegacyCache.LegacyRedisClient.SetOfflineStatus | go/game/redis_client.go:65-69 | deletes the online key |
| LegacyCache.LegacyRedisClient.IsOnline | go/game/redis_client.go:72-80 | returns `Online` of the cache |
| LegacyCache.LegacyRedisClient.IsBanned | go/game/redis_client.go:84-94 | returns `Banned` of the stored flag |
| LegacyCache.LegacyRedisClient.GetPlayerTeam | go/game/redis_client.go:97-107 | returns `TeamOf` |
| LegacyCache.LegacyRedisClient.Increment | go/game/redis_client.go:110-125 | INCRBYFLOAT of one key, an error on a textual value leaving the cache unchanged |
| LegacyCache.LegacyRedisClient.IncrementPlayerPlaytime | go/game/redis_client.go:110-113 | increments the player's playtime key only |
| LegacyCache.LegacyRedisClient.IncrementPlayerDeltaPlaytime | go/game/redis_client.go:116-119 | increments the player's delta key only |
| LegacyCache.LegacyRedisClient.IncrementTeamTotalPlaytime | go/game/redis_client.go:122-125 | increments the team's total key only |
| LegacyCache.LegacyRedisClient.GetTeamTotalPlaytime | go/game/redis_client.go:128-138 | returns `TeamTotal` |
| LegacyCache.LegacyRedisClient.GetAllOnlineUUIDs | go/game/redis_client.go:142-156 | the loop computes `OnlineSuffixes`; a scan error discards everything |
| LegacyCache.LegacyRedisClient.ResetDeltaPlaytime | go/game/redis_client.go:220-223 | the delta becomes 0 with no expiry |
| LegacyCache.LegacyRedisClient.SetPlayerPlaytime | go/game/redis_client.go:227-230 | overwrites the total with no expiry |
| LegacyCache.LegacyRedisClient.SetTeamTotalPlaytime | go/game/redis_client.go:234-237 | overwrites the team total with no expiry |
| Membership.RegistryKeyInjective | go/shared/cluster/membership.go:274-276 | each service type has its own registry hash |
| Membership.ActiveStalePartition | go/shared/cluster/membership.go:175-249 | every registry field is either stale (for cleanup) or active (for readers), never both; each active service is a well-formed field |
| Membership.StaleIds | go/shared/cluster/membership.go:193-205 | the fields cleanup deletes are registry fields; every malformed field is among them and no well-formed field seen within the TTL is |
| Membership.ActiveServices | go/shared/cluster/membership.go:226-249 | every service readers see is a well-formed field of the hash seen within the TTL |
| Membership.CleanupKeepsActiveView | go/shared/cluster/membership.go:175-249 | removing the stale fields leaves exactly the active ones, and readers see the same services before and after |
| Membership.Defaulted | go/shared/cluster/membership.go:84-99 | each zero interval and an empty id get a default, each set value is kept, and the other settings are untouched |
| Membership.Accepted | go/shared/cluster/membership.go:81-92 | an accepted configuration has a service type; the defaults are accepted; a zero TTL with an interval of 15 s or more is refused |
| Membership.ServiceRegistrar.New | go/shared/cluster/membership.go:77-118 | a nil client or empty type is refused; the registrar is created iff the TTL exceeds the interval once both are defaulted; it keeps the defaulted configuration |
| Membership.ServiceRegistrar.SendHeartbeat | go/shared/cluster/membership.go:138-153 | stamps `lastSeen` with now and writes this instance's own field; once stopped the write is refused |
| Membership.ServiceRegistrar.Register | go/shared/cluster/membership.go:121-135 | sends the first heartbeat and, only if it succeeds, starts the loops |
| Membership.ServiceRegistrar.CleanupPass | go/shared/cluster/membership.go:175-216 | one cleanup pass deletes exactly the stale and malformed fields of its own hash, and nothing when a call fails |
| Membership.ServiceRegistrar.GetActiveServices | go/shared/cluster/membership.go:226-249 | returns the well-formed fields seen within the TTL |
| Membership.ServiceRegistrar.Stop | go/shared/cluster/membership.go:252-271 | the first stop ends the loops and deletes this instance's own field; a second stop does nothing |
| Membership.HeartbeatMakesActive | go/shared/cluster/membership.go:138-153 | right after a heartbeat the instance is active, and not stale, until the TTL has passed |
| Membership.OtherTypesUnaffected | go/shared/cluster/membership.go:274-276 | heartbeats and deletions under one service type leave every other type's hash as it was |
| Membership.DeregisterRemovesOwnField | go/shared/cluster/membership.go:252-271 | deregistering removes exactly this instance's field from its hash |
| Updater.Answering | go/game/updater.go:57-78 | the players whose accrual is attempted without error are exactly the online ones not failing |
| Updater.Tick | go/game/updater.go:57-78 | a tick adds and changes no key other than player and team playtime counters |
| Updater.SessionFlagsNotCounters | go/game/redis.go:25-34 | online, delta, team and ban keys are never playtime counters |
| Updater.TickSparesSessionFlags | go/game/updater.go:57-78 | a tick leaves every online, delta, team and ban key reading as before |
| Updater.TickSkipsFailures | go/game/updater.go:63-75 | a tick in which some players' calls fail equals a fault-free tick over the other players |
| Updater.AccrualOfReadyPlayer | go/game/redis.go:214-276 | for a player with a team and a delta, one accrual sets the player's and the team's counters to their old values plus the delta |
| Updater.AccrualStep | go/game/updater.go:66-72 | one player's accrual raises that player's total and their team's total by the delta, and every other counter and every team and delta entry is kept |
| Updater.ReadyKept | go/game/updater.go:57-78 | accruals keep every player's team and delta entries, so later accruals still find them |
| Updater.UnchangedTransitive | go/game/updater.go:57-78 | successive accruals compose |
| Updater.TickEffect | go/game/updater.go:57-78 | one tick over distinct online players raises each one's total by their own delta and each team's total by the sum of its members' deltas; nothing else moves |
| Updater.TicksKeepReady | go/game/updater.go:33-49 | after any number of ticks every player still has their team and delta |
| Updater.PlayerDeltaOf | go/game/updater.go:72-77 | over distinct online players, one tick adds exactly a listed player's delta to its playtime and nothing to an unlisted player's |
| Updater.TicksPlayer | go/game/updater.go:33-49 | after k ticks a player's total has grown by k times what one tick adds to it |
| Updater.TicksTeam | go/game/updater.go:33-49 | after k ticks a team's total has grown by k times the sum of its members' deltas |
| Updater.RepeatedIsProduct | go/game/updater.go:33-49 | k repeated additions of d equal k·d |
| Updater.ManyTicks | go/game/updater.go:33-78 | the tick loop's overall effect on every player and every team total after k ticks |
| Updater.GameUpdater.PerformGameTick | go/game/updater.go:57-78 | one tick accrues every scanned online player in order, skipping failures; a scan error writes nothing |
| Syncer.TeamKeysInjective | go/game/redis.go:152-160 | each team id has its own cached total |
| Syncer.WriteOf | go/game/syncer.go:76-83 | each written team's key holds its returned total as a number with no expiry |
| Syncer.WritesAreTotals | go/game/syncer.go:76-83 | every key the sync writes is a team-total counter |
| Syncer.Synced | go/game/syncer.go:56-87 | a sync removes no key and changes no key other than playtime counters |
| Syncer.WritesGrow | go/game/syncer.go:76-83 | writing one more team extends the written entries by that team's key only |
| Syncer.SyncOverwrites | go/game/syncer.go:56-87 | each returned team whose write succeeds holds the returned total afterwards, whatever it held before |
| Syncer.StaleTotalReplaced | go/game/syncer.go:56-87 | a cached 12.0 becomes 15.0 when the service returns 15.0, rather than adding up to 27.0 |
| Syncer.SyncTouchesOnlyWrittenTeams | go/game/syncer.go:56-87 | every key other than a written team's total is untouched |
| Syncer.SyncTwice | go/game/syncer.go:56-87 | two syncs with the same response equal one in which only the writes that failed both times are missing |
| Syncer.SyncIdempotent | go/game/syncer.go:56-87 | a fault-free sync repeated changes nothing |
| Syncer.PlaytimeSyncer.TriggerPlayerServiceSync | go/game/syncer.go:56-87 | a failed call or a null map changes nothing; otherwise the loop's writes give `Synced` |
| GameHandlers.OnlineKeepsLiveCounters | go/game/handler.go:131-228 | when both counters are live the handler only marks the player online and answers 200 |
| GameHandlers.OnlineLoadsProfile | go/game/handler.go:131-228 | when a counter is missing, the profile's counters (or 0 and 1 for a not-found profile) and a non-empty team are loaded, the player is marked online, and the answer is 200; every key but the player's four session keys (other players' keys, team totals, the ban key) is unchanged |
| GameHandlers.OnlineLookupFailure | go/game/handler.go:131-228 | when a counter is missing and the profile lookup fails, nothing is written and the answer is 500 |
| GameHandlers.Online | go/game/handler.go:131-228 | a missing UUID answers 400 with nothing written; the answer is 200, 400 or 500; no key is removed; a 200 leaves the online key and both counters live; only the player's four session keys can change |
| GameHandlers.OfflineAsWrittenStrandsSession | go/game/handler.go:233-304 | with a total and no delta, the handler as written answers 500 and leaves the session in the cache; the corrected one answers 200 and clears it |
| GameHandlers.OfflineEffect | go/game/handler.go:233-304 | after a successful read the session keys are deleted and no other key is touched; the counters are pushed to the profile iff either is positive; the answer is 200 |
| GameHandlers.OfflineReadFailure | go/game/handler.go:233-304 | a failed counter read answers 500 and changes nothing |
| GameHandlers.Offline | go/game/handler.go:233-304 | a missing UUID answers 400; keys are only removed, never written; a 200 removes the online key; the ban key stays; the three profile pushes happen only after a successful read with a positive counter, carrying the read values |
| GameHandlers.OfflineAsWritten | go/game/handler.go:233-304 | as written, a missing counter answers 500 and changes nothing; only in that case does it differ from the corrected handler |
| GameHandlers.BanExpiryShifts | go/game/handler.go:373-380 | a timed ban expires the given number of seconds after now, in Unix seconds |
| GameHandlers.BanExpiry | go/game/handler.go:373-385 | a permanent ban gets an expiry second of 0 or less; a positive duration an expiry after now and at most that many seconds ahead; a negative one an expiry already passed |
| GameHandlers.BanEffect | go/game/handler.go:350-415 | a permanent ban reads as banned for ever, and a timed ban until its expiry; the profile receives the ban with no expiry for a permanent one; the answer is 200 |
| GameHandlers.BanRefusesMinusOne | go/game/handler.go:369-372 | a duration of -1 answers 400 and writes nothing |
| GameHandlers.Ban | go/game/handler.go:350-415 | 200 iff a UUID is given, the duration is not -1 and the ban write succeeds; any other answer changes nothing and pushes nothing; after a 200 with a duration of 0 or more the player reads as banned now; a 200 pushes one ban to the profile and changes no key but the player's ban key |
| GameHandlers.BanThenUnban | go/game/handler.go:420-454 | after an unban the player never reads as banned |
| GameHandlers.Unban | go/game/handler.go:420-454 | 200 iff a UUID is given and the delete succeeds; any other answer changes nothing; a 200 removes the ban key and pushes the unban; keys are only removed |
| GameHandlers.MissingCountersAnswer | go/game/handler.go:61-124 | with no counters, the playtime read answers 404 while the delta read answers 200 with 0 |
| GameHandlers.PlaytimeAnswer | go/game/handler.go:61-90 | 200 iff a value is returned, which is the stored number; 404 iff a UUID is given, the cache answers and the total is missing |
| GameHandlers.DeltaAnswer | go/game/handler.go:94-124 | 200 iff a value is returned, which is the stored number or 0 for a missing delta; never 404 |
| GameHandlers.GameService.HandleOnline | go/game/handler.go:131-228 | the step-by-step handler leaves the cache and answer of `Online` |
| GameHandlers.GameService.HandleOffline | go/game/handler.go:233-304 | the handler leaves the cache, profile calls and answer of `Offline` |
| GameHandlers.GameService.HandleBanPlayer | go/game/handler.go:350-415 | the handler leaves the cache, calls and answer of `Ban` |
| GameHandlers.GameService.HandleUnbanPlayer | go/game/handler.go:420-454 | the handler leaves the cache, calls and answer of `Unban` |
| GameHandlers.GameService.HandleGetPlaytime | go/game/handler.go:61-90 | answers as `PlaytimeAnswer`: 404 for a missing total |
| GameHandlers.GameService.HandleGetDeltaPlaytime | go/game/handler.go:94-124 | answers as `DeltaAnswer`: 200 with 0 for a missing delta |
| PlayerData.UpdateTouchesOwnFields | go/player/datastore.go:173-251 | each `$set` update changes only its own fields and never the uuid, team, creation time or boosters |
| PlayerData.UpdatesCompose | go/player/datastore.go:173-251 | updates of different fields commute; a later update of the same fields overrides an earlier one |
| PlayerData.UpdateDoc | go/player/datastore.go:173-251 | an update of a missing player is not-found and writes nothing; otherwise only that player's document changes |
| PlayerData.NewPlayer | go/player/datastore.go:88-112 | a new player starts with zero playtimes, unbanned, with the given team, created and last logged in now |
| PlayerData.LoginUpsert | go/player/datastore.go:88-170 | the login upsert creates the player iff it was missing, with one of the two teams, and otherwise only stamps the last login |
| PlayerData.LoginTwice | go/player/datastore.go:88-170 | a second login creates nothing and only moves the last-login time |
| PlayerData.StampCreatedAt | go/player/datastore.go:55-70 | a missing or zero creation time is set to now; every other field is kept |
| PlayerData.PlayerStore.CreatePlayer | go/player/datastore.go:55-70 | inserts the stamped player, or reports a duplicate key and writes nothing |
| PlayerData.PlayerStore.GetPlayerByUUID | go/player/datastore.go:74-83 | returns the stored document iff it exists, else no-documents; in a store keyed by UUID the player returned has the requested UUID |
| PlayerData.PlayerStore.GetOrCreatePlayer | go/player/datastore.go:88-170 | performs `LoginUpsert` and returns the fetched document with whether it was created; in a store keyed by UUID the player returned has the requested UUID |
| PlayerData.PlayerStore.Update | go/player/datastore.go:173-251 | performs `UpdateDoc` when the store answers |
| PlayerData.PlayerStore.UpdatePlayerUsername | go/player/datastore.go:173-186 | sets the username of an existing player |
| PlayerData.PlayerStore.UpdatePlayerPlaytime | go/player/datastore.go:189-202 | sets the total playtime of an existing player |
| PlayerData.PlayerStore.UpdatePlayerDeltaPlaytime | go/player/datastore.go:205-218 | sets the delta playtime of an existing player |
| PlayerData.PlayerStore.UpdatePlayerBanStatus | go/player/datastore.go:221-234 | sets the ban flag and expiry of an existing player |
| PlayerData.PlayerStore.UpdatePlayerLastLogin | go/player/datastore.go:237-251 | sets the last login of an existing player to now |
| PlayerDocs.Find | go/player/datastore.go:76-78 | the position of the first document whose `_id` is the id, and -1 exactly when no document has it |
| PlayerDocs.FindAppendMiss | go/player/datastore.go:76-78 | appending a document with another `_id` moves no lookup of that id |
| PlayerDocs.FindAppendHit | go/player/datastore.go:76-78 | a document appended with an id nobody has is the one found for it |
| PlayerDocs.FindOne | go/player/datastore.go:74-83 | `FindOne` by `_id` gives the first match iff there is one, else no-documents |
| PlayerDocs.UpdateOne | go/player/datastore.go:173-251 | `UpdateOne` by `_id` changes only the first match, by its `$set` fields, and reports whether anything matched |
| PlayerDocs.UpsertLogin | go/player/datastore.go:88-128 | the login upsert appends the first-login document iff no document has the id, else only stamps the last login of the match |
| PlayerDocs.InsertOne | go/player/datastore.go:55-66 | `InsertOne` gives a document without `_id` the generated ObjectID and refuses an `_id` already present, writing nothing |
| PlayerDocs.CreatePlayerIn | go/player/datastore.go:55-70 | `CreatePlayer` under a field naming passes iff the insert does, and a refused insert is already-exists with the collection unchanged |
| PlayerDocs.GetPlayerIn | go/player/datastore.go:74-83 | `GetPlayerByUUID` under a field naming finds a player iff a document has the `_id`, decoded from the first such document |
| PlayerDocs.UpdateIn | go/player/datastore.go:173-251 | an update method passes iff a document has the `_id`, and otherwise is not-found with the collection unchanged |
| PlayerDocs.LoginIn | go/player/datastore.go:88-134 | `GetOrCreatePlayer` writes what the login upsert writes and reports creation iff no document had the `_id` |
| PlayerDocs.LoginNew | go/player/datastore.go:88-134 | a first login appends the first-login document and returns it decoded, marked as created |
| PlayerDocs.UpdateNewest | go/player/datastore.go:189-202 | an update of the only document with its id changes that document in place and passes |
| PlayerDocs.ReadNewest | go/player/datastore.go:74-83 | a lookup reads the only document with its id |
| PlayerDocs.WithSetKeepsId | go/player/datastore.go:173-251 | no `$set` of the datastore touches `_id` |
| PlayerDocs.FirstLoginDocIsUpserted | go/player/datastore.go:94-118 | the first-login document is the filter `_id`, then the `$setOnInsert` fields, then the `$set` fields |
| PlayerDocs.WithSetIsMerge | go/player/datastore.go:173-251 | each update's effect is the merge of its `$set` document into the matched document |
| PlayerDocs.DriverInsertUnfindable | go/player/datastore.go:55-83 | as written, a created player gets an ObjectID `_id`, so the create passes and no lookup by any UUID changes |
| PlayerDocs.DriverCreateTwice | go/player/datastore.go:55-70 | as written, creating the same player twice passes both times, stores two documents, and neither is found by its UUID |
| PlayerDocs.DriverUpdateUnread | go/player/datastore.go:173-251 | as written, only the username and ban-flag updates are read back; the playtime, delta, ban-expiry and last-login updates change nothing decoded |
| PlayerDocs.DriverKeyUnread | go/shared/models/player.go:18-30 | the snake_case keys of the playtimes, ban expiry and last login are not read by the default struct codec |
| PlayerDocs.DriverUsernameRead | go/shared/models/player.go:18-30 | the `username` key is read by the default struct codec as the username |
| PlayerDocs.DriverBannedRead | go/shared/models/player.go:18-30 | the `banned` key is read by the default struct codec as the ban flag |
| PlayerDocs.DriverFirstLogin | go/player/datastore.go:88-134 | as written, a player made by the login upsert decodes with an empty UUID, zero playtimes and no times |
| PlayerDocs.DriverPushedTotalLost | go/player/datastore.go:88-202 | as written, after a first login and a pushed total the player still reads back with total 0 |
| PlayerDocs.QueryRoundTrip | go/shared/models/player.go:18-30 | under the query names, decoding an encoded player gives the player back |
| PlayerDocs.QuerySetApplies | go/player/datastore.go:173-251 | under the query names, every update reads back as exactly its own fields changed |
| PlayerDocs.QueryUsernameRead | go/player/datastore.go:173-186 | under the query names, the username update reads back |
| PlayerDocs.QueryTotalRead | go/player/datastore.go:189-202 | under the query names, the total-playtime update reads back |
| PlayerDocs.QueryDeltaRead | go/player/datastore.go:205-218 | under the query names, the delta-playtime update reads back |
| PlayerDocs.QueryBanRead | go/player/datastore.go:221-234 | under the query names, the ban flag and expiry update reads back |
| PlayerDocs.QueryLastLoginRead | go/player/datastore.go:237-251 | under the query names, the last-login update reads back |
| PlayerDocs.QueryNewPlayer | go/player/datastore.go:104-112 | under the query names, the first-login document reads back as a new player with the given team, now as creation and login time |
| PlayerDocs.QueryCreate | go/player/datastore.go:55-70 | under the query names, a create refuses a stored UUID and otherwise stores the stamped player where its UUID finds it |
| PlayerDocs.QueryPushedTotalRead | go/player/datastore.go:88-202 | under the query names, a first login followed by a pushed total reads that total back |
| PlayerDocs.NameInjective | go/shared/models/player.go:18-30 | distinct document keys have distinct spellings |
| TeamData.EnsureEffect | go/player/teamstore.go:31-53 | existing teams are untouched, only listed names are added as fresh teams, the pass fails iff a listed name fails, and a passing run leaves every name present |
| TeamData.EnsureIdempotent | go/player/teamstore.go:31-53 | once every team exists, a later pass changes nothing |
| TeamData.Ensure | go/player/teamstore.go:31-53 | a failed pass is an unavailable store; no team is removed and no existing team document changes |
| TeamData.IncCount | go/player/teamstore.go:71-107 | a missing team is not-found; otherwise only that team's count moves by the step and its update time is set |
| TeamData.IncTotal | go/player/teamstore.go:110-126 | a missing team is not-found; otherwise only that team's total grows by the increment |
| TeamData.IncDecRestores | go/player/teamstore.go:71-107 | an increment then a decrement restores the count and every field but the update time |
| TeamData.TotalsAccumulate | go/player/teamstore.go:110-126 | two total updates add up rather than overwrite |
| TeamData.TeamStore.EnsureTeamsExist | go/player/teamstore.go:31-53 | the loop of upserts computes `Ensure` |
| TeamData.TeamStore.GetTeamPlayerCount | go/player/teamstore.go:56-68 | a missing team counts 0 players |
| TeamData.TeamStore.IncrementTeamPlayerCount | go/player/teamstore.go:71-87 | performs `IncCount` with +1 |
| TeamData.TeamStore.DecrementTeamPlayerCount | go/player/teamstore.go:91-107 | performs `IncCount` with -1 |
| TeamData.TeamStore.UpdateTeamTotalPlaytime | go/player/teamstore.go:110-126 | performs `IncTotal` |
| TeamSync.TeamSumAppend | go/player/teamhandlers.go:45-55 | one more player adds their ticks to their own team's sum only |
| TeamSync.TeamSumAbsent | go/player/teamhandlers.go:45-55 | a team no player belongs to sums to 0 |
| TeamSync.TeamSum | go/player/teamhandlers.go:45-55 | non-negative player totals give a non-negative team sum |
| TeamSync.GroupTeams | go/player/teamhandlers.go:45-55 | the group stage yields each team that some player belongs to, once |
| TeamSync.UpsertsStep | go/player/teamhandlers.go:68-93 | one more row adds its team's document iff the row decodes and its write succeeds |
| TeamSync.ResponseStep | go/player/teamhandlers.go:68-93 | one more row adds its team to the response map iff the row decodes and its write succeeds |
| TeamSync.Delivered | go/player/teamhandlers.go:68-98 | the rows processed are a prefix of the grouped rows: all of them when the cursor never fails, the first n when it fails after n |
| TeamSync.PartialResponse | go/player/teamhandlers.go:68-105 | a cursor failing part way answers a sub-map of the full response, with the same value for each team it reports |
| TeamSync.PartialUpserts | go/player/teamhandlers.go:68-92 | a cursor failing part way writes a subset of the full run's team documents, each as the full run writes it |
| TeamSync.RowOrderFree | go/player/teamhandlers.go:68-92 | with no cursor failure, two row orders holding the same teams give the same response and the same team documents |
| TeamSync.ResponseMeaning | go/player/teamhandlers.go:39-105 | the response holds a team iff some player belongs to it and its row decoded and was written, with that team's sum |
| TeamSync.Upserts | go/player/teamhandlers.go:78-92 | each written team document holds its sum and now as update time, and keeps its count and creation time (0 and none when inserted) |
| TeamSync.Response | go/player/teamhandlers.go:39-105 | non-negative player totals give non-negative answered totals; a team no player belongs to answers 0 |
| TeamSync.UpsertMeaning | go/player/teamhandlers.go:78-92 | each written team's document holds its sum and keeps its count (0 when inserted); every other document is unchanged |
| TeamSync.SyncAgain | go/player/teamhandlers.go:39-105 | running the sync again gives the same documents up to the update time |
| TeamSync.TeamService.SyncTeamTotalsHandler | go/player/teamhandlers.go:39-105 | a failed aggregation answers 500 and writes nothing; otherwise 200 with `Response`, and the documents of `Upserts`, over the rows the cursor delivered before any batch fetch failed |
| GameConfig.GetDuration | go/game/config.go:36-46 | an unset variable gives the default; a set one is parsed or is an invalid-duration error |
| GameConfig.GetInt | go/game/config.go:64-74 | an unset variable gives the default; a set one must be a decimal int64 or is an invalid-integer error |
| GameConfig.TrimmedParts | go/game/config.go:100-105 | one trimmed address per comma-separated part |
| GameConfig.TrimmedPartsClean | go/game/config.go:100-105 | every address of a set list holds no comma and no surrounding white space |
| GameConfig.ListenPort | go/game/config.go:113-131 | an address with a colon is kept and its port is the decimal text after the last colon |
| GameConfig.Validate | go/game/config.go:138-146 | the numbering passes iff 0 <= id < total |
| GameConfig.PlayerServiceURL | go/game/config.go:133-135 | the player-service URL is never empty |
| GameConfig.DefaultPortValue | go/game/config.go:119-128 | the default port text parses as 8082 |
| GameConfig.DefaultListenPort | go/game/config.go:109-111 | the default listen address ":8082" registers port 8082 |
| GameConfig.HostOnlyListenPort | go/game/config.go:115-122 | a bare host without a colon becomes host:8082 with port 8082 |
| GameConfig.DoubleColonRejected | go/game/config.go:122-125 | "::" does not split and is rejected, not defaulted |
| GameConfig.EmptyEnvironmentDefaults | go/game/config.go:27-149 | with nothing set: :8082, port 8082, the six local seeds, 50ms, 30s, 15s, instance 0 of 1, http://localhost:8081 |
| GameConfig.LoadedMeaning | go/game/config.go:27-149 | a successful load has 0 <= id < total, each duration parsed or defaulted, and one clean address per part of a set list |
| GameConfig.Load | go/game/config.go:27-149 | the load succeeds iff the durations, the instance numbers and the listen address all read and 0 <= id < total; a success carries exactly those values and a non-empty player-service URL |
| GameConfig.TrimSpaceIdempotent | go/game/config.go:103-105 | trimming an address twice is trimming it once |
| GameConfig.BadInstanceNumberingFails | go/game/config.go:138-146 | a non-positive total or an id outside 0 .. total-1 fails the load |
| GameConfig.NonIntegerInstanceFails | go/game/config.go:69-72 | a set instance id that is not an integer fails the load |
| GameConfig.MalformedDurationFails | go/game/config.go:41-44 | a set duration that does not parse fails the load |
| GameConfig.LoadConfig | go/game/config.go:27-149 | the step-by-step loader, with its in-place trimming loop, returns `Load` |
| PlayerConfig.SettingMeaning | go/player/config.go:19-38 | a non-empty variable is kept verbatim; an unset or empty one gives the default |
| PlayerConfig.Loaded | go/player/config.go:18-41 | each setting is its variable when non-empty, else ":8081", "mongodb://localhost:27017", "minestom" or "players" |
| PlayerConfig.SettingsNonEmpty | go/player/config.go:27-38 | no setting is ever empty |
| PlayerConfig.EmptyEnvironmentDefaults | go/player/config.go:27-38 | with nothing set: ":8081", "mongodb://localhost:27017", "minestom", "players" |
| PlayerConfig.FieldsIndependent | go/player/config.go:27-38 | each field depends only on its own variable |
| PlayerConfig.LoadConfig | go/player/config.go:18-41 | the loader never fails and returns `Loaded` |

## Left out

**Go runtime and concurrency**
- The ticker loops, goroutines and contexts of `GameUpdater.Start`/`Stop`, `PlaytimeSyncer.Start`/`Stop`, `heartbeatLoop` and `cleanupLoop` are left out. Each loop body is modelled as one call, and interleavings are not modelled. Nor is the fact that `NewGameUpdater` (go/game/updater.go:23-31) leaves `ctx` and `cancel` nil, so `Start` would fail at `gu.ctx.Done()` (:41) and `Stop` at `gu.cancel()` (:53).
- A negative ticker interval would make `time.NewTicker` panic. This is not modelled, because the loops themselves are not.
- Timeouts are left out.

**Redis**
- The SCAN cursor and its glob are not modelled. The scanned keys are an input list, in scan order, and every listed key is taken to match the `*` pattern.
- The team-total SCAN pattern in go/game/redis.go:186 is `team_total_playtime:{%s}:*`, with the `%s` left unsubstituted. It matches only the key of a team literally named `%s`, so `GetAllTeamTotalPlaytimes`, and the `GET /game/teams/total` answer built on it (go/game/handler.go:308-319), never contain a real team. The model takes the scanned keys as an input list and does not apply the pattern.
- A pipeline whose commands partly fail is modelled only through the `down` set of operations, one fault per operation.
- Which key of a pipeline fails first is not distinguished.
- Stored values are typed (`Text`/`Num`) instead of the strings Redis keeps. A number stored under a team key therefore cannot be read back as a team id, and becomes `UnreadableTeam`. The code would return the digits.
- The `json.Marshal` failure in `sendHeartbeat` (go/shared/cluster/membership.go:141-144) is left out. `ServiceInfo` holds only strings, an int, a time and a string map, so marshalling it cannot fail in practice; the heartbeat is stored as a well-formed field.
- The asynchronous deletion of an expired ban inside `IsBanned` (go/game/redis.go:116-144) is left out. It changes nothing the reads can observe.
- Client construction and `Close` in both cache clients are left out: they are I/O against the server.
- `GetAllPlaytimeAndDeltaPlaytime` (go/game/redis.go:433-488 and go/game/redis_client.go:158-197) is not modelled, because no caller uses it.
- The legacy `GetAllTeamTotalPlaytimes` (go/game/redis_client.go:200-217) is not modelled. It is a key scan like `GetAllOnlineUUIDs`, which is.

**Numbers and time**
- Floating point is not modelled: playtimes and totals are exact reals, with no IEEE rounding.
- GameHandlers.BanEffect: the timed-ban window is stated only for positive durations and clock values at or after the Unix epoch. The floor division into seconds behaves differently before the epoch. Negative durations other than -1 give an expiry already passed, which the lemma does not state.
- GameHandlers.Ban: the int64 overflow of `time.Duration(req.DurationSec) * time.Second` is not modelled. For durations above about 9.2e9 seconds, Go wraps around there, which can turn a huge negative duration into a permanent-looking ban.
- `time.ParseDuration` is a parameter of `GameConfig.LoadConfig`, not a model of Go's duration grammar.

**HTTP, Mongo and wiring**
- HTTP request decoding, UUID parsing and JSON encoding are left out. The handlers take an already-parsed `Option` UUID, and an invalid one (`None`) answers 400.
- The wire format of the answers is left out.
- `GetTeamTotals` and `GetPlayerOnlineStatus` (go/game/handler.go:308-345) are thin wrappers over `GetAllTeamTotalPlaytimes` and `IsOnline`, which are modelled. They are not modelled separately.
- The Mojang username lookup is left out. It is a foreign HTTP call, and the username it would store is not modelled.
- The player and team documents are keyed by uuid or team name.
- PlayerData.PlayerStore.CreatePlayer: models the store keyed by UUID, as the datastore's `_id` filters expect. As written, the document gets an ObjectID `_id`, so a duplicate UUID is never detected and no lookup finds the player (`PlayerDocs.DriverInsertUnfindable`, `PlayerDocs.DriverCreateTwice`).
- PlayerData.PlayerStore.GetPlayerByUUID: as written, only documents made by the login upsert are found, and they decode with an empty UUID, zero playtimes and no times (`PlayerDocs.DriverFirstLogin`).
- PlayerData.PlayerStore.GetOrCreatePlayer: as written, the returned player has an empty UUID, zero playtimes and no times (`PlayerDocs.DriverPushedTotalLost`).
- PlayerData.PlayerStore.UpdatePlayerPlaytime: as written, the total is stored under `total_playtime_ticks` but decoded from `totalplaytimeticks`, so a pushed total reads back as 0 (`PlayerDocs.DriverPushedTotalLost`).
- PlayerData.PlayerStore.UpdatePlayerDeltaPlaytime: as written, the delta update is never read back (`PlayerDocs.DriverUpdateUnread`).
- PlayerData.PlayerStore.UpdatePlayerBanStatus: as written, the ban expiry is never read back; the ban flag is (`PlayerDocs.DriverUpdateUnread`).
- PlayerData.PlayerStore.UpdatePlayerLastLogin: as written, the last-login update is never read back (`PlayerDocs.DriverUpdateUnread`).
- `models.Team` is not defined in go/shared/models/ (player.go, client.go), and `GetAllTeams` (go/player/teamstore.go:129-141) is not modelled: it only lists the collection.
- TeamSync.Upserts: every row is stamped with one `now`, where go/player/teamhandlers.go:81 calls `time.Now()` once per row, so rows written later carry slightly later `last_updated` times.
- The order in which the aggregation cursor returns team rows is not modelled. The model processes them in the order `GroupTeams` yields, each team at its last appearance among the player documents. When the cursor does not fail, the order does not change the answer or the team documents (`TeamSync.RowOrderFree`). When it fails after n rows, the order decides which teams are answered and written; the model then promises only that they are a sub-map of the full run (`TeamSync.PartialResponse`, `TeamSync.PartialUpserts`).
- The service wiring in go/game/main.go and go/player/main.go is not part of this model.
- No code under go/game/ or go/player/ constructs a `ServiceRegistrar`: go/game/main.go never calls `NewServiceRegistrar`, and its call `NewGameUpdater(redisClient, cfg)` at go/game/main.go:40 passes two arguments where go/game/updater.go:23 takes three. The `registrar` field stored at go/game/updater.go:29 is never read. The model covers the registrar on its own.

## Findings

| source | as written | input that shows it | evidently intended | confidence | as-written member | corrected member |
|---|---|---|---|---|---|---|
| go/game/redis.go:309-336 | The two pipelined GETs are checked with `Exec`, which returns `redis.Nil` when any GET misses. So the later "missing counter reads 0" branches never run, and the read fails with the wrapped `redis.Nil` error. `HandleOffline` (go/game/handler.go:233-304) then answers 500 and leaves the session in the cache. | a player whose total is set and whose delta key is missing | a missing counter reads 0, the profile is pushed, and the session is cleared | not executed | GameCache.PlaytimeAndDeltaAsWritten, GameCache.AsWrittenFailsOnMissingDelta, GameHandlers.OfflineAsWrittenStrandsSession | GameCache.PlaytimeAndDelta, GameHandlers.Offline |
| go/shared/models/player.go:18-30 | `Player` carries no bson tags. The struct codec therefore stores `UUID` as `uuid`, `TotalPlaytimeTicks` as `totalplaytimeticks`, and so on, and `CreatePlayer` adds a generated ObjectID `_id`. Every filter is `{_id: uuid}` and every `$set`/`$setOnInsert` uses snake_case names. So a created player is never found, a duplicate is never refused, a logged-in player reads back with an empty UUID and zero playtimes, and a pushed total reads back as 0. | a first login of a new UUID, then `UpdatePlayerPlaytime` with 5.0, then `GetPlayerByUUID` | fields stored under `_id` and the snake_case names the queries use, so every update reads back | not executed | PlayerDocs.DriverPushedTotalLost, PlayerDocs.DriverCreateTwice, PlayerDocs.DriverInsertUnfindable, PlayerDocs.DriverUpdateUnread | PlayerDocs.QueryPushedTotalRead, PlayerDocs.QueryCreate, PlayerDocs.QueryRoundTrip, PlayerDocs.QuerySetApplies |
