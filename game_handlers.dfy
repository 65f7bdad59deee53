/**
 * The session handlers of go/game/handler.go, without HTTP decoding: a
 * request arrives as the parsed UUID (None for a body or UUID that does not
 * parse), the player service's answers are inputs, and the calls made to it
 * are outputs. Each handler is specified by a function of the cache before
 * the request, and its properties are lemmas about that function.
 */
module GameHandlers {
  import opened Wrappers
  import opened Keyspace
  import opened GameCache

  const StatusOK := 200
  const StatusBadRequest := 400
  const StatusNotFound := 404
  const StatusInternalServerError := 500

  /** The cache calls a handler makes; those in a handler's `down` set fail. */
  datatype CacheOp =
    | CheckKeys | WritePlaytime | WriteDelta | WriteTeam | MarkOnline
    | ReadCounters | ClearSession | MarkOffline | WriteBan

  /** What `GetProfile` answered: the profile, a 404, or any other error. */
  datatype Lookup = Found(totalPlaytimeTicks: real, deltaPlaytimeTicks: real, team: string) | ProfileNotFound | LookupFailed

  /** A call made to the player service; its outcome is only logged. */
  datatype ProfileCall =
    | PushPlaytime(uuid: string, total: real)
    | PushDeltaPlaytime(uuid: string, delta: real)
    | PushLastLogin(uuid: string)
    | PushBanStatus(uuid: string, banned: bool, expiresAt: Option<int>)

  /** The two counters written at session start, or a failed write (with what was written before it). */
  function LoadCounters(ks: Store, uuid: string, total: real, delta: real, down: set<CacheOp>): (Store, bool) {
    if WritePlaytime in down then (ks, false)
    else
      var k1 := SetNoExpiry(ks, FormatKey(PlaytimeKeyPrefix, uuid), Num(total));
      if WriteDelta in down then (k1, false)
      else (SetNoExpiry(k1, FormatKey(DeltaPlaytimeKeyPrefix, uuid), Num(delta)), true)
  }

  /**
   * `HandleOnline`: when either counter is missing the counters are loaded
   * from the profile (0 and 1 when there is none, plus the team when the
   * profile has one); then the online marker is set.
   */
  function Online(ks: Store, playerUUID: Option<string>, lookup: Lookup, now: int, onlineTTL: int, down: set<CacheOp>): (r: (Store, int))
    ensures playerUUID.None? ==> r == (ks, StatusBadRequest)
    ensures r.1 == StatusOK || r.1 == StatusBadRequest || r.1 == StatusInternalServerError
    ensures ks.Keys <= r.0.Keys
    ensures r.1 == StatusOK ==>
      (&& playerUUID.Some?
       && Get(r.0, FormatKey(OnlineKeyPrefix, playerUUID.value), now).Some?
       && Get(r.0, FormatKey(PlaytimeKeyPrefix, playerUUID.value), now).Some?
       && Get(r.0, FormatKey(DeltaPlaytimeKeyPrefix, playerUUID.value), now).Some?)
    ensures playerUUID.Some? ==>
      forall k :: k !in SessionKeys(playerUUID.value) ==> (k in r.0 <==> k in ks) && (k in ks ==> r.0[k] == ks[k])
  {
    if playerUUID.None? then (ks, StatusBadRequest)
    else if CheckKeys in down then (ks, StatusInternalServerError)
    else
      var uuid := playerUUID.value;
      DistinctKeys(OnlineKeyPrefix, PlaytimeKeyPrefix, uuid, uuid);
      DistinctKeys(OnlineKeyPrefix, DeltaPlaytimeKeyPrefix, uuid, uuid);
      DistinctKeys(PlayerTeamKeyPrefix, PlaytimeKeyPrefix, uuid, uuid);
      DistinctKeys(PlayerTeamKeyPrefix, DeltaPlaytimeKeyPrefix, uuid, uuid);
      DistinctKeys(PlaytimeKeyPrefix, DeltaPlaytimeKeyPrefix, uuid, uuid);
      var loaded :=
        if Get(ks, FormatKey(PlaytimeKeyPrefix, uuid), now).Some? && Get(ks, FormatKey(DeltaPlaytimeKeyPrefix, uuid), now).Some? then (ks, true)
        else
          match lookup
          case ProfileNotFound => LoadCounters(ks, uuid, 0.0, 1.0, down)
          case LookupFailed => (ks, false)
          case Found(total, delta, team) =>
            var (k2, ok) := LoadCounters(ks, uuid, total, delta, down);
            if ok && team != "" && WriteTeam !in down then (SetNoExpiry(k2, FormatKey(PlayerTeamKeyPrefix, uuid), Text(team)), ok)
            else (k2, ok);
      if !loaded.1 then (loaded.0, StatusInternalServerError)
      else if MarkOnline in down then (loaded.0, StatusInternalServerError)
      else (Set(loaded.0, FormatKey(OnlineKeyPrefix, uuid), Text("true"), onlineTTL, now), StatusOK)
  }

  /** A returning player whose counters are both live: only the online marker is written. */
  lemma OnlineKeepsLiveCounters(ks: Store, uuid: string, lookup: Lookup, now: int, ttl: int, down: set<CacheOp>)
    requires Get(ks, FormatKey(PlaytimeKeyPrefix, uuid), now).Some? && Get(ks, FormatKey(DeltaPlaytimeKeyPrefix, uuid), now).Some?
    requires CheckKeys !in down && MarkOnline !in down
    ensures Online(ks, Some(uuid), lookup, now, ttl, down) == (Set(ks, FormatKey(OnlineKeyPrefix, uuid), Text("true"), ttl, now), StatusOK)
  {
  }

  /**
   * A fault-free login with a counter missing: the counters come from the
   * profile, the team is stored only when it is non-empty, and a missing
   * profile gives 0 and 1; the marker is then live.
   */
  lemma OnlineLoadsProfile(ks: Store, uuid: string, lookup: Lookup, now: int, ttl: int)
    requires Get(ks, FormatKey(PlaytimeKeyPrefix, uuid), now).None? || Get(ks, FormatKey(DeltaPlaytimeKeyPrefix, uuid), now).None?
    requires !lookup.LookupFailed?
    ensures var (after, status) := Online(ks, Some(uuid), lookup, now, ttl, {});
      var (total, delta) := if lookup.Found? then (lookup.totalPlaytimeTicks, lookup.deltaPlaytimeTicks) else (0.0, 1.0);
      && status == StatusOK
      && Get(after, FormatKey(PlaytimeKeyPrefix, uuid), now) == Some(Num(total))
      && Get(after, FormatKey(DeltaPlaytimeKeyPrefix, uuid), now) == Some(Num(delta))
      && Get(after, FormatKey(PlayerTeamKeyPrefix, uuid), now) ==
           (if lookup.Found? && lookup.team != "" then Some(Text(lookup.team)) else Get(ks, FormatKey(PlayerTeamKeyPrefix, uuid), now))
      && Get(after, FormatKey(OnlineKeyPrefix, uuid), now).Some?
      && forall k :: k !in SessionKeys(uuid) ==> (k in after <==> k in ks) && (k in ks ==> after[k] == ks[k])
  {
    DistinctKeys(OnlineKeyPrefix, PlaytimeKeyPrefix, uuid, uuid);
    DistinctKeys(OnlineKeyPrefix, DeltaPlaytimeKeyPrefix, uuid, uuid);
    DistinctKeys(OnlineKeyPrefix, PlayerTeamKeyPrefix, uuid, uuid);
    DistinctKeys(PlayerTeamKeyPrefix, PlaytimeKeyPrefix, uuid, uuid);
    DistinctKeys(PlayerTeamKeyPrefix, DeltaPlaytimeKeyPrefix, uuid, uuid);
    DistinctKeys(PlaytimeKeyPrefix, DeltaPlaytimeKeyPrefix, uuid, uuid);
  }

  /** A profile error other than 404 answers 500 and writes nothing, the online marker included. */
  lemma OnlineLookupFailure(ks: Store, uuid: string, now: int, ttl: int, down: set<CacheOp>)
    requires Get(ks, FormatKey(PlaytimeKeyPrefix, uuid), now).None? || Get(ks, FormatKey(DeltaPlaytimeKeyPrefix, uuid), now).None?
    ensures Online(ks, Some(uuid), LookupFailed, now, ttl, down) == (ks, StatusInternalServerError)
  {
  }

  /**
   * `HandleOffline` once both counters have been read (or the read failed):
   * a read error answers 500 and does nothing; otherwise the counters are
   * pushed when either is positive, and the session keys and the online
   * marker are removed whatever the pushes did.
   */
  function OfflineAfterRead(ks: Store, uuid: string, read: Result<(real, real), CacheError>, down: set<CacheOp>): (Store, seq<ProfileCall>, int) {
    if read.Err? then (ks, [], StatusInternalServerError)
    else
      var (total, delta) := read.value;
      var calls := if total > 0.0 || delta > 0.0 then [PushPlaytime(uuid, total), PushDeltaPlaytime(uuid, delta), PushLastLogin(uuid)] else [];
      var cleared := if ClearSession in down then ks else Del(ks, SessionKeys(uuid));
      if MarkOffline in down then (cleared, calls, StatusInternalServerError)
      else (Del(cleared, {FormatKey(OnlineKeyPrefix, uuid)}), calls, StatusOK)
  }

  /** `HandleOffline` with the corrected combined read. */
  function Offline(ks: Store, playerUUID: Option<string>, now: int, down: set<CacheOp>): (r: (Store, seq<ProfileCall>, int))
    ensures playerUUID.None? ==> r == (ks, [], StatusBadRequest)
    ensures r.0.Keys <= ks.Keys && forall k :: k in r.0 ==> r.0[k] == ks[k]
    ensures playerUUID.Some? && r.2 == StatusOK ==> FormatKey(OnlineKeyPrefix, playerUUID.value) !in r.0
    ensures playerUUID.Some? && FormatKey(BannedKeyPrefix, playerUUID.value) in ks ==> FormatKey(BannedKeyPrefix, playerUUID.value) in r.0
    ensures r.1 != [] ==>
      (playerUUID.Some? &&
       var read := PlaytimeAndDelta(ks, playerUUID.value, now, ReadCounters !in down);
       && read.Ok? && (read.value.0 > 0.0 || read.value.1 > 0.0)
       && r.1 == [PushPlaytime(playerUUID.value, read.value.0), PushDeltaPlaytime(playerUUID.value, read.value.1), PushLastLogin(playerUUID.value)])
  {
    if playerUUID.None? then (ks, [], StatusBadRequest)
    else
      SessionKeysSpare(playerUUID.value, BannedKeyPrefix, playerUUID.value);
      DistinctKeys(BannedKeyPrefix, OnlineKeyPrefix, playerUUID.value, playerUUID.value);
      OfflineAfterRead(ks, playerUUID.value, PlaytimeAndDelta(ks, playerUUID.value, now, ReadCounters !in down), down)
  }

  /** `HandleOffline` with the combined read as written, which fails on any missing counter. */
  function OfflineAsWritten(ks: Store, playerUUID: Option<string>, now: int, down: set<CacheOp>): (r: (Store, seq<ProfileCall>, int))
    ensures playerUUID.Some? && ReadCounters !in down &&
            (Get(ks, FormatKey(PlaytimeKeyPrefix, playerUUID.value), now).None? || Get(ks, FormatKey(DeltaPlaytimeKeyPrefix, playerUUID.value), now).None?)
            ==> r == (ks, [], StatusInternalServerError)
    ensures r != Offline(ks, playerUUID, now, down) ==>
      (playerUUID.Some? && ReadCounters !in down &&
       (Get(ks, FormatKey(PlaytimeKeyPrefix, playerUUID.value), now).None? || Get(ks, FormatKey(DeltaPlaytimeKeyPrefix, playerUUID.value), now).None?))
  {
    if playerUUID.None? then (ks, [], StatusBadRequest)
    else OfflineAfterRead(ks, playerUUID.value, PlaytimeAndDeltaAsWritten(ks, playerUUID.value, now, ReadCounters !in down), down)
  }

  /**
   * As written, a player whose delta key is missing cannot go offline: the
   * answer is 500 and the session keys stay, where the corrected read
   * clears them.
   */
  lemma OfflineAsWrittenStrandsSession(uuid: string, total: real, now: int)
    ensures var ks := map[FormatKey(PlaytimeKeyPrefix, uuid) := Entry(Num(total), None)];
      && OfflineAsWritten(ks, Some(uuid), now, {}) == (ks, [], StatusInternalServerError)
      && Offline(ks, Some(uuid), now, {}).2 == StatusOK
      && Offline(ks, Some(uuid), now, {}).0 == map[]
  {
    var ks := map[FormatKey(PlaytimeKeyPrefix, uuid) := Entry(Num(total), None)];
    AsWrittenFailsOnMissingDelta(uuid, total, now);
    DistinctKeys(PlaytimeKeyPrefix, DeltaPlaytimeKeyPrefix, uuid, uuid);
    assert FormatKey(PlaytimeKeyPrefix, uuid) in SessionKeys(uuid);
    assert Del(ks, SessionKeys(uuid)) == map[];
  }

  /**
   * After a successful read the pushes happen iff either counter is
   * positive, carrying the values read; every session key is gone and every
   * other key kept once both removals succeed.
   */
  lemma OfflineEffect(ks: Store, uuid: string, now: int, down: set<CacheOp>)
    requires PlaytimeAndDelta(ks, uuid, now, ReadCounters !in down).Ok?
    requires ClearSession !in down && MarkOffline !in down
    ensures var (total, delta) := PlaytimeAndDelta(ks, uuid, now, true).value;
      var (after, calls, status) := Offline(ks, Some(uuid), now, down);
      && status == StatusOK
      && (calls != [] <==> total > 0.0 || delta > 0.0)
      && (calls != [] ==> calls == [PushPlaytime(uuid, total), PushDeltaPlaytime(uuid, delta), PushLastLogin(uuid)])
      && (forall k :: k in SessionKeys(uuid) ==> k !in after)
      && (forall k :: k !in SessionKeys(uuid) ==> (k in after <==> k in ks) && (k in ks ==> after[k] == ks[k]))
  {
    assert FormatKey(OnlineKeyPrefix, uuid) in SessionKeys(uuid);
  }

  /** A failed read answers 500, calls nothing and clears nothing. */
  lemma OfflineReadFailure(ks: Store, uuid: string, now: int, down: set<CacheOp>)
    requires PlaytimeAndDelta(ks, uuid, now, ReadCounters !in down).Err?
    ensures Offline(ks, Some(uuid), now, down) == (ks, [], StatusInternalServerError)
  {
  }

  /** The `expires_at` and `is_permanent` fields of a ban answer. */
  datatype BanAnswer = BanAnswer(expiresAt: int, isPermanent: bool)

  /** `banExpiresAt.Unix()`: the zero time for a permanent ban, otherwise now plus the duration. */
  function BanExpiry(durationSec: int, now: int): (e: int)
    ensures durationSec == 0 ==> e <= 0
    ensures durationSec > 0 ==> now < e * MillisPerSecond <= now + durationSec * MillisPerSecond
    ensures durationSec < 0 ==> e * MillisPerSecond <= now
  {
    if durationSec == 0 then ZeroTimeUnixSeconds else UnixSeconds(now + durationSec * MillisPerSecond)
  }

  /**
   * `HandleBanPlayer`: −1 is refused with 400; otherwise the ban goes to the
   * cache first (a failure answers 500) and then to the player service, whose
   * failure is only logged.
   */
  function Ban(ks: Store, playerUUID: Option<string>, durationSec: int, now: int, down: set<CacheOp>): (r: (Store, seq<ProfileCall>, int, Option<BanAnswer>))
    ensures r.2 == StatusOK <==> playerUUID.Some? && durationSec != -1 && WriteBan !in down
    ensures r.2 != StatusOK ==> r.0 == ks && r.1 == [] && r.3 == None
    ensures r.2 == StatusOK && durationSec >= 0 ==> BanActive(Get(r.0, FormatKey(BannedKeyPrefix, playerUUID.value), now), now)
    ensures r.2 == StatusOK ==> |r.1| == 1 && r.1[0].PushBanStatus? && r.1[0].uuid == playerUUID.value && r.1[0].banned
    ensures r.2 == StatusOK ==>
      forall k :: k != FormatKey(BannedKeyPrefix, playerUUID.value) ==> (k in r.0 <==> k in ks) && (k in ks ==> r.0[k] == ks[k])
  {
    if playerUUID.None? || durationSec == -1 then (ks, [], StatusBadRequest, None)
    else if WriteBan in down then (ks, [], StatusInternalServerError, None)
    else
      var uuid := playerUUID.value;
      BanRoundTrip(ks, FormatKey(BannedKeyPrefix, uuid), BanExpiry(durationSec, now), now, now);
      var permanent := durationSec == 0;
      var expiresAt := BanExpiry(durationSec, now);
      var durable := if permanent then None else Some(now + durationSec * MillisPerSecond);
      (Set(ks, FormatKey(BannedKeyPrefix, uuid), Num(expiresAt as real), BanTtl(expiresAt, now), now),
       [PushBanStatus(uuid, true, durable)], StatusOK, Some(BanAnswer(expiresAt, permanent)))
  }

  /** The expiry second is the current second plus the duration. */
  lemma BanExpiryShifts(durationSec: int, now: int)
    requires durationSec != 0
    ensures BanExpiry(durationSec, now) == UnixSeconds(now) + durationSec
  {
    assert now + durationSec * MillisPerSecond == (now / MillisPerSecond + durationSec) * MillisPerSecond + now % MillisPerSecond;
  }

  /**
   * After a ban that succeeds, the player reads as banned at every later
   * instant when the duration is 0, and for a positive duration (on a clock
   * past the epoch) exactly until the expiry second; the durable copy has no expiry for a permanent
   * ban and the instant `now + duration` otherwise.
   */
  lemma BanEffect(ks: Store, uuid: string, durationSec: int, now: int, t: int)
    requires durationSec != -1 && now <= t
    ensures var (after, calls, status, answer) := Ban(ks, Some(uuid), durationSec, now, {});
      && status == StatusOK && answer.Some?
      && answer.value.isPermanent == (durationSec == 0)
      && (durationSec == 0 ==> BanActive(Get(after, FormatKey(BannedKeyPrefix, uuid), t), t))
      && (durationSec > 0 && now >= 0 ==> (BanActive(Get(after, FormatKey(BannedKeyPrefix, uuid), t), t) <==>
                                t < (UnixSeconds(now) + durationSec) * MillisPerSecond))
      && calls == [PushBanStatus(uuid, true, if durationSec == 0 then None else Some(now + durationSec * MillisPerSecond))]
  {
    var e := BanExpiry(durationSec, now);
    BanRoundTrip(ks, FormatKey(BannedKeyPrefix, uuid), e, now, t);
    if durationSec != 0 {
      BanExpiryShifts(durationSec, now);
    }
  }

  /** Duration −1 is refused without any write or call. */
  lemma BanRefusesMinusOne(ks: Store, uuid: string, now: int, down: set<CacheOp>)
    ensures Ban(ks, Some(uuid), -1, now, down) == (ks, [], StatusBadRequest, None)
  {
  }

  /** `HandleUnbanPlayer`: the ban key is deleted, then the durable ban is cleared. */
  function Unban(ks: Store, playerUUID: Option<string>, down: set<CacheOp>): (r: (Store, seq<ProfileCall>, int))
    ensures r.2 == StatusOK <==> playerUUID.Some? && WriteBan !in down
    ensures r.2 != StatusOK ==> r.0 == ks && r.1 == []
    ensures r.2 == StatusOK ==> FormatKey(BannedKeyPrefix, playerUUID.value) !in r.0 && r.1 == [PushBanStatus(playerUUID.value, false, None)]
    ensures r.0.Keys <= ks.Keys && forall k :: k in r.0 ==> r.0[k] == ks[k]
  {
    if playerUUID.None? then (ks, [], StatusBadRequest)
    else if WriteBan in down then (ks, [], StatusInternalServerError)
    else (Del(ks, {FormatKey(BannedKeyPrefix, playerUUID.value)}), [PushBanStatus(playerUUID.value, false, None)], StatusOK)
  }

  /** A ban undone by an unban reads as not banned at any instant. */
  lemma BanThenUnban(ks: Store, uuid: string, durationSec: int, now: int, t: int)
    requires durationSec != -1
    ensures var banned := Ban(ks, Some(uuid), durationSec, now, {}).0;
      !BanActive(Get(Unban(banned, Some(uuid), {}).0, FormatKey(BannedKeyPrefix, uuid), t), t)
  {
  }

  /** `handleGetPlaytime`: a missing counter is 404. */
  function PlaytimeAnswer(ks: Store, playerUUID: Option<string>, now: int, reachable: bool): (r: (int, Option<real>))
    ensures r.0 == StatusOK <==> r.1.Some?
    ensures r.1.Some? ==> playerUUID.Some? && Get(ks, FormatKey(PlaytimeKeyPrefix, playerUUID.value), now) == Some(Num(r.1.value))
    ensures r.0 == StatusNotFound <==> playerUUID.Some? && reachable && Get(ks, FormatKey(PlaytimeKeyPrefix, playerUUID.value), now).None?
  {
    if playerUUID.None? then (StatusBadRequest, None)
    else
      match ReadCounter(ks, FormatKey(PlaytimeKeyPrefix, playerUUID.value), now, reachable)
      case Ok(x) => (StatusOK, Some(x))
      case Err(KeyNotFound) => (StatusNotFound, None)
      case Err(_) => (StatusInternalServerError, None)
  }

  /** `handleGetDeltaPlaytime`: a missing counter is 0.0 with 200. */
  function DeltaAnswer(ks: Store, playerUUID: Option<string>, now: int, reachable: bool): (r: (int, Option<real>))
    ensures r.0 == StatusOK <==> r.1.Some?
    ensures r.0 != StatusNotFound
    ensures r.1.Some? ==>
      (playerUUID.Some? &&
       (Get(ks, FormatKey(DeltaPlaytimeKeyPrefix, playerUUID.value), now) == Some(Num(r.1.value)) ||
        (Get(ks, FormatKey(DeltaPlaytimeKeyPrefix, playerUUID.value), now).None? && r.1.value == 0.0)))
    ensures playerUUID.Some? && reachable && Get(ks, FormatKey(DeltaPlaytimeKeyPrefix, playerUUID.value), now).None? ==> r == (StatusOK, Some(0.0))
  {
    if playerUUID.None? then (StatusBadRequest, None)
    else
      match ReadCounter(ks, FormatKey(DeltaPlaytimeKeyPrefix, playerUUID.value), now, reachable)
      case Ok(x) => (StatusOK, Some(x))
      case Err(KeyNotFound) => (StatusOK, Some(0.0))
      case Err(_) => (StatusInternalServerError, None)
  }

  /** For a player with neither counter, the playtime is 404 while the delta is 0.0 with 200. */
  lemma MissingCountersAnswer(ks: Store, uuid: string, now: int)
    requires Get(ks, FormatKey(PlaytimeKeyPrefix, uuid), now).None? && Get(ks, FormatKey(DeltaPlaytimeKeyPrefix, uuid), now).None?
    ensures PlaytimeAnswer(ks, Some(uuid), now, true) == (StatusNotFound, None)
    ensures DeltaAnswer(ks, Some(uuid), now, true) == (StatusOK, Some(0.0))
  {
  }

  class GameService {
    const redisClient: RedisClient

    constructor(redisClient: RedisClient)
      ensures this.redisClient == redisClient
    {
      this.redisClient := redisClient;
    }

    method HandleOnline(playerUUID: Option<string>, lookup: Lookup, now: int, down: set<CacheOp>) returns (status: int)
      modifies redisClient
      ensures (redisClient.entries, status) == Online(old(redisClient.entries), playerUUID, lookup, now, redisClient.onlineTTL, down)
    {
      if playerUUID.None? {
        return StatusBadRequest;
      }
      var uuid := playerUUID.value;
      var check := redisClient.CheckPlaytimeKeysExist(uuid, now, CheckKeys !in down);
      if check.Err? {
        return StatusInternalServerError;
      }
      var (playtimeExists, deltaPlaytimeExists) := check.value;
      if !playtimeExists || !deltaPlaytimeExists {
        match lookup {
          case ProfileNotFound =>
            var err := redisClient.SetPlayerPlaytime(uuid, 0.0, WritePlaytime !in down);
            if err.Fail? {
              return StatusInternalServerError;
            }
            err := redisClient.SetDeltaPlaytime(uuid, 1.0, WriteDelta !in down);
            if err.Fail? {
              return StatusInternalServerError;
            }
          case LookupFailed =>
            return StatusInternalServerError;
          case Found(total, delta, team) =>
            var err := redisClient.SetPlayerPlaytime(uuid, total, WritePlaytime !in down);
            if err.Fail? {
              return StatusInternalServerError;
            }
            err := redisClient.SetDeltaPlaytime(uuid, delta, WriteDelta !in down);
            if err.Fail? {
              return StatusInternalServerError;
            }
            if team != "" {
              err := redisClient.SetPlayerTeam(uuid, team, WriteTeam !in down);
            }
        }
      }
      var err := redisClient.SetOnlineStatus(uuid, now, MarkOnline !in down);
      if err.Fail? {
        return StatusInternalServerError;
      }
      return StatusOK;
    }

    method HandleOffline(playerUUID: Option<string>, now: int, down: set<CacheOp>) returns (calls: seq<ProfileCall>, status: int)
      modifies redisClient
      ensures (redisClient.entries, calls, status) == Offline(old(redisClient.entries), playerUUID, now, down)
    {
      if playerUUID.None? {
        return [], StatusBadRequest;
      }
      var uuid := playerUUID.value;
      var read := redisClient.GetPlayerPlaytimeAndDelta(uuid, now, ReadCounters !in down);
      if read.Err? {
        return [], StatusInternalServerError;
      }
      var (totalPlaytime, deltaPlaytime) := read.value;
      calls := [];
      if totalPlaytime > 0.0 || deltaPlaytime > 0.0 {
        calls := [PushPlaytime(uuid, totalPlaytime), PushDeltaPlaytime(uuid, deltaPlaytime), PushLastLogin(uuid)];
      }
      var err := redisClient.RemovePlayerSessionData(uuid, ClearSession !in down);
      err := redisClient.SetOfflineStatus(uuid, MarkOffline !in down);
      if err.Fail? {
        return calls, StatusInternalServerError;
      }
      return calls, StatusOK;
    }

    method HandleBanPlayer(playerUUID: Option<string>, durationSec: int, now: int, down: set<CacheOp>)
      returns (calls: seq<ProfileCall>, status: int, answer: Option<BanAnswer>)
      modifies redisClient
      ensures (redisClient.entries, calls, status, answer) == Ban(old(redisClient.entries), playerUUID, durationSec, now, down)
    {
      if playerUUID.None? {
        return [], StatusBadRequest, None;
      }
      var uuid := playerUUID.value;
      var banExpiresAt: int;
      var isPermanent := false;
      if durationSec == -1 {
        return [], StatusBadRequest, None;
      } else if durationSec == 0 {
        isPermanent := true;
        banExpiresAt := ZeroTimeUnixSeconds;
      } else {
        banExpiresAt := UnixSeconds(now + durationSec * MillisPerSecond);
      }
      var err := redisClient.SetBanStatus(uuid, true, banExpiresAt, now, WriteBan !in down);
      if err.Fail? {
        return [], StatusInternalServerError, None;
      }
      var durable := if isPermanent then None else Some(now + durationSec * MillisPerSecond);
      return [PushBanStatus(uuid, true, durable)], StatusOK, Some(BanAnswer(banExpiresAt, isPermanent));
    }

    method HandleUnbanPlayer(playerUUID: Option<string>, now: int, down: set<CacheOp>) returns (calls: seq<ProfileCall>, status: int)
      modifies redisClient
      ensures (redisClient.entries, calls, status) == Unban(old(redisClient.entries), playerUUID, down)
    {
      if playerUUID.None? {
        return [], StatusBadRequest;
      }
      var err := redisClient.SetBanStatus(playerUUID.value, false, 0, now, WriteBan !in down);
      if err.Fail? {
        return [], StatusInternalServerError;
      }
      return [PushBanStatus(playerUUID.value, false, None)], StatusOK;
    }

    method HandleGetPlaytime(playerUUID: Option<string>, now: int, reachable: bool) returns (status: int, playtime: Option<real>)
      ensures (status, playtime) == PlaytimeAnswer(redisClient.entries, playerUUID, now, reachable)
    {
      if playerUUID.None? {
        return StatusBadRequest, None;
      }
      var r := redisClient.GetPlayerPlaytime(playerUUID.value, now, reachable);
      if r.Err? {
        if r.error == KeyNotFound {
          return StatusNotFound, None;
        }
        return StatusInternalServerError, None;
      }
      return StatusOK, Some(r.value);
    }

    method HandleGetDeltaPlaytime(playerUUID: Option<string>, now: int, reachable: bool) returns (status: int, deltatime: Option<real>)
      ensures (status, deltatime) == DeltaAnswer(redisClient.entries, playerUUID, now, reachable)
    {
      if playerUUID.None? {
        return StatusBadRequest, None;
      }
      var r := redisClient.GetDeltaPlaytime(playerUUID.value, now, reachable);
      if r.Err? {
        if r.error == KeyNotFound {
          return StatusOK, Some(0.0);
        }
        return StatusInternalServerError, None;
      }
      return StatusOK, Some(r.value);
    }
  }
}
