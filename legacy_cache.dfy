/**
 * The older cache client of go/game/redis_client.go, an alternative to the
 * hash-tag client of go/game/redis.go: every key is the plain concatenation of
 * a prefix and an id, with no braces, so the keys of one player hash
 * independently of each other.
 */
module LegacyCache {
  import opened Wrappers
  import opened Keyspace
  import GameCache

  const OnlineKeyPrefix := "online:"
  const PlaytimeKeyPrefix := "playtime:"
  const DeltaPlaytimeKeyPrefix := "deltatime:"
  const BannedKeyPrefix := "banned:"
  const PlayerTeamKeyPrefix := "team:"
  const TeamTotalPlaytimePrefix := "team_total_playtime:"

  const Prefixes: set<string> := {OnlineKeyPrefix, PlaytimeKeyPrefix, DeltaPlaytimeKeyPrefix,
                                  BannedKeyPrefix, PlayerTeamKeyPrefix, TeamTotalPlaytimePrefix}

  datatype LegacyError = Unavailable | TeamNotFound(uuid: string) | NotANumber | UnreadableTeam

  /** A key: the prefix followed by the id. */
  function Key(prefix: string, id: string): (k: string)
    ensures |k| == |prefix| + |id| && k[..|prefix|] == prefix && k[|prefix|..] == id
  {
    prefix + id
  }

  /** The keys of a list of ids under one prefix, in order. */
  function KeysWith(prefix: string, ids: seq<string>): seq<string>
  {
    seq(|ids|, i requires 0 <= i < |ids| => Key(prefix, ids[i]))
  }

  /** Under one prefix, a key names one id. */
  lemma KeyInjective(prefix: string, a: string, b: string)
    ensures Key(prefix, a) == Key(prefix, b) <==> a == b
  {
  }

  /**
   * The six prefixes are pairwise distinguished by their first or their fifth
   * character, so keys of two different families never collide.
   */
  lemma KeyFamiliesDisjoint(p: string, q: string, a: string, b: string)
    requires p in Prefixes && q in Prefixes && p != q
    ensures Key(p, a) != Key(q, b)
  {
    assert p[0] != q[0] || p[4] != q[4];
    assert Key(p, a)[0] == p[0] && Key(p, a)[4] == p[4];
    assert Key(q, b)[0] == q[0] && Key(q, b)[4] == q[4];
  }

  /** Two keys are equal only when prefix and id are. */
  lemma DistinctKeys(p: string, q: string, a: string, b: string)
    requires p in Prefixes && q in Prefixes && (p != q || a != b)
    ensures Key(p, a) != Key(q, b)
  {
    if p != q {
      KeyFamiliesDisjoint(p, q, a, b);
    }
  }

  /**
   * A key holds no `{` unless its id does, so it has no hash tag and the
   * whole key decides its cluster slot.
   */
  lemma KeysUntagged(p: string, id: string)
    requires p in Prefixes && '{' !in id
    ensures '{' !in Key(p, id)
    ensures GameCache.HashTag(Key(p, id)) == None
  {
    assert '{' !in p;
    var k := Key(p, id);
    forall i | 0 <= i < |k| ensures k[i] != '{' {
      if i < |p| {
        assert k[i] == p[i];
      } else {
        assert k[i] == id[i - |p|];
      }
    }
  }

  /** `IsOnline`: the online key exists. */
  function Online(ks: Store, uuid: string, now: int): bool {
    Get(ks, Key(OnlineKeyPrefix, uuid), now).Some?
  }

  /**
   * After `SetOnlineStatus` the player is online until the TTL runs out (for
   * ever when the TTL is not positive); after `SetOfflineStatus` the player is
   * offline at once.
   */
  lemma OnlineRoundTrip(ks: Store, uuid: string, ttl: int, now: int, t: int)
    ensures var on := Set(ks, Key(OnlineKeyPrefix, uuid), Text("true"), ttl, now);
      && (now <= t ==> (Online(on, uuid, t) <==> ttl <= 0 || t < now + ttl))
      && !Online(Del(on, {Key(OnlineKeyPrefix, uuid)}), uuid, t)
  {
  }

  /** `IsBanned` of a stored ban flag: only the exact text "true" is a ban; a missing flag is none. */
  function Banned(stored: Option<Value>): (b: bool)
    ensures stored.None? ==> !b
  {
    stored == Some(Text("true"))
  }

  /** Any value other than "true" (a "false", a number, another word) reads as not banned. */
  lemma BannedOnlyByTrue(ks: Store, uuid: string, v: Value, now: int)
    ensures Banned(Get(SetNoExpiry(ks, Key(BannedKeyPrefix, uuid), v), Key(BannedKeyPrefix, uuid), now)) <==> v == Text("true")
  {
  }

  /** `GetPlayerTeam`: a missing key is an error; a textual value is the team id. */
  function TeamOf(ks: Store, uuid: string, now: int): (r: Result<string, LegacyError>)
    ensures r.Ok? <==> Get(ks, Key(PlayerTeamKeyPrefix, uuid), now).Some? && Get(ks, Key(PlayerTeamKeyPrefix, uuid), now).value.Text?
    ensures Get(ks, Key(PlayerTeamKeyPrefix, uuid), now).None? ==> r == Err(TeamNotFound(uuid))
    ensures r.Ok? ==> ks[Key(PlayerTeamKeyPrefix, uuid)].value == Text(r.value)
  {
    match Get(ks, Key(PlayerTeamKeyPrefix, uuid), now)
    case None => Err(TeamNotFound(uuid))
    case Some(Text(s)) => Ok(s)
    case Some(Num(_)) => Err(UnreadableTeam)
  }

  /** `GetTeamTotalPlaytime`: a missing total reads as 0, a textual one is an error. */
  function TeamTotal(ks: Store, teamId: string, now: int): (r: Result<real, LegacyError>)
    ensures Get(ks, Key(TeamTotalPlaytimePrefix, teamId), now).None? ==> r == Ok(0.0)
    ensures r.Err? <==> Get(ks, Key(TeamTotalPlaytimePrefix, teamId), now).Some? && Get(ks, Key(TeamTotalPlaytimePrefix, teamId), now).value.Text?
    ensures r.Ok? ==> r.value == NumOr0(ks, Key(TeamTotalPlaytimePrefix, teamId), now)
  {
    match Get(ks, Key(TeamTotalPlaytimePrefix, teamId), now)
    case None => Ok(0.0)
    case Some(Text(_)) => Err(NotANumber)
    case Some(Num(x)) => Ok(x)
  }

  /**
   * Incrementing a player's playtime changes that one key: every team, team
   * total, online flag, ban flag and delta reads as before.
   */
  lemma IncrementTouchesOnlyPlaytime(ks: Store, uuid: string, d: real, now: int, p: string, id: string)
    requires IncrByFloat(ks, Key(PlaytimeKeyPrefix, uuid), d, now).Some?
    requires p in Prefixes && (p != PlaytimeKeyPrefix || id != uuid)
    ensures var after := IncrByFloat(ks, Key(PlaytimeKeyPrefix, uuid), d, now).value;
      Get(after, Key(p, id), now) == Get(ks, Key(p, id), now)
  {
    DistinctKeys(p, PlaytimeKeyPrefix, id, uuid);
  }

  /** In particular, team totals move only through `IncrementTeamTotalPlaytime`. */
  lemma IncrementKeepsTeamTotals(ks: Store, uuid: string, d: real, now: int, teamId: string)
    requires IncrByFloat(ks, Key(PlaytimeKeyPrefix, uuid), d, now).Some?
    ensures TeamTotal(IncrByFloat(ks, Key(PlaytimeKeyPrefix, uuid), d, now).value, teamId, now) == TeamTotal(ks, teamId, now)
  {
    IncrementTouchesOnlyPlaytime(ks, uuid, d, now, TeamTotalPlaytimePrefix, teamId);
  }

  /** `ResetDeltaPlaytime`: the delta reads 0 from then on. */
  lemma ResetReadsZero(ks: Store, uuid: string, t: int)
    ensures var after := SetNoExpiry(ks, Key(DeltaPlaytimeKeyPrefix, uuid), Num(0.0));
      Get(after, Key(DeltaPlaytimeKeyPrefix, uuid), t) == Some(Num(0.0))
  {
  }

  /** The UUIDs an online-key scan yields: every key longer than the prefix, with the prefix length cut off. */
  function OnlineSuffixes(keys: seq<string>): (uuids: seq<string>)
    ensures |uuids| <= |keys|
    ensures forall u :: u in uuids ==> u != "" && exists k :: k in keys && |k| > |OnlineKeyPrefix| && k[|OnlineKeyPrefix|..] == u
  {
    if keys == [] then []
    else
      var init := OnlineSuffixes(keys[..|keys| - 1]);
      var last := keys[|keys| - 1];
      assert forall k :: k in keys[..|keys| - 1] ==> k in keys;
      if |last| > |OnlineKeyPrefix| then init + [last[|OnlineKeyPrefix|..]] else init
  }

  /**
   * Scanning the online keys of players with non-empty UUIDs yields exactly
   * their UUIDs; the bare key "online:" yields nothing.
   */
  lemma {:induction false} OnlineSuffixesRoundTrip(uuids: seq<string>)
    requires forall u :: u in uuids ==> u != ""
    ensures OnlineSuffixes(KeysWith(OnlineKeyPrefix, uuids)) == uuids
  {
    if uuids != [] {
      var n := |uuids| - 1;
      assert KeysWith(OnlineKeyPrefix, uuids)[..n] == KeysWith(OnlineKeyPrefix, uuids[..n]);
      assert forall u :: u in uuids[..n] ==> u in uuids;
      OnlineSuffixesRoundTrip(uuids[..n]);
      assert uuids[n] in uuids;
      assert uuids == uuids[..n] + [uuids[n]];
    }
  }

  lemma BareOnlineKeySkipped()
    ensures OnlineSuffixes([OnlineKeyPrefix]) == []
  {
  }

  class LegacyRedisClient {
    var entries: Store
    const onlineTTL: int

    constructor(initial: Store, onlineTTL: int)
      ensures entries == initial && this.onlineTTL == onlineTTL
    {
      entries := initial;
      this.onlineTTL := onlineTTL;
    }

    method SetOnlineStatus(uuid: string, now: int, reachable: bool) returns (r: Outcome<LegacyError>)
      modifies this
      ensures r == if reachable then Pass else Fail(Unavailable)
      ensures entries == if reachable then Set(old(entries), Key(OnlineKeyPrefix, uuid), Text("true"), onlineTTL, now)
                         else old(entries)
    {
      if !reachable {
        return Fail(Unavailable);
      }
      entries := Set(entries, Key(OnlineKeyPrefix, uuid), Text("true"), onlineTTL, now);
      return Pass;
    }

    method SetOfflineStatus(uuid: string, reachable: bool) returns (r: Outcome<LegacyError>)
      modifies this
      ensures r == if reachable then Pass else Fail(Unavailable)
      ensures entries == if reachable then Del(old(entries), {Key(OnlineKeyPrefix, uuid)}) else old(entries)
    {
      if !reachable {
        return Fail(Unavailable);
      }
      entries := Del(entries, {Key(OnlineKeyPrefix, uuid)});
      return Pass;
    }

    method IsOnline(uuid: string, now: int, reachable: bool) returns (r: Result<bool, LegacyError>)
      ensures r == if reachable then Ok(Online(entries, uuid, now)) else Err(Unavailable)
    {
      if !reachable {
        return Err(Unavailable);
      }
      var found := Get(entries, Key(OnlineKeyPrefix, uuid), now);
      return Ok(found.Some?);
    }

    method IsBanned(uuid: string, now: int, reachable: bool) returns (r: Result<bool, LegacyError>)
      ensures r == if reachable then Ok(Banned(Get(entries, Key(BannedKeyPrefix, uuid), now))) else Err(Unavailable)
    {
      if !reachable {
        return Err(Unavailable);
      }
      var status := Get(entries, Key(BannedKeyPrefix, uuid), now);
      if status.None? {
        return Ok(false);
      }
      return Ok(status.value == Text("true"));
    }

    method GetPlayerTeam(uuid: string, now: int, reachable: bool) returns (r: Result<string, LegacyError>)
      ensures r == if reachable then TeamOf(entries, uuid, now) else Err(Unavailable)
    {
      if !reachable {
        return Err(Unavailable);
      }
      var teamId := Get(entries, Key(PlayerTeamKeyPrefix, uuid), now);
      if teamId.None? {
        return Err(TeamNotFound(uuid));
      }
      if teamId.value.Num? {
        return Err(UnreadableTeam);
      }
      return Ok(teamId.value.s);
    }

    /** INCRBYFLOAT of one key; a textual value is an error and leaves the cache as it was. */
    method Increment(key: string, ticks: real, now: int, reachable: bool) returns (r: Outcome<LegacyError>)
      modifies this
      ensures !reachable ==> r == Fail(Unavailable) && entries == old(entries)
      ensures reachable ==> var incr := IncrByFloat(old(entries), key, ticks, now);
        r == (if incr.Some? then Pass else Fail(NotANumber)) && entries == incr.GetOr(old(entries))
    {
      if !reachable {
        return Fail(Unavailable);
      }
      var incr := IncrByFloat(entries, key, ticks, now);
      if incr.None? {
        return Fail(NotANumber);
      }
      entries := incr.value;
      return Pass;
    }

    method IncrementPlayerPlaytime(uuid: string, ticks: real, now: int, reachable: bool) returns (r: Outcome<LegacyError>)
      modifies this
      ensures !reachable ==> r == Fail(Unavailable) && entries == old(entries)
      ensures reachable ==> var incr := IncrByFloat(old(entries), Key(PlaytimeKeyPrefix, uuid), ticks, now);
        r == (if incr.Some? then Pass else Fail(NotANumber)) && entries == incr.GetOr(old(entries))
    {
      r := Increment(Key(PlaytimeKeyPrefix, uuid), ticks, now, reachable);
    }

    method IncrementPlayerDeltaPlaytime(uuid: string, ticks: real, now: int, reachable: bool) returns (r: Outcome<LegacyError>)
      modifies this
      ensures !reachable ==> r == Fail(Unavailable) && entries == old(entries)
      ensures reachable ==> var incr := IncrByFloat(old(entries), Key(DeltaPlaytimeKeyPrefix, uuid), ticks, now);
        r == (if incr.Some? then Pass else Fail(NotANumber)) && entries == incr.GetOr(old(entries))
    {
      r := Increment(Key(DeltaPlaytimeKeyPrefix, uuid), ticks, now, reachable);
    }

    method IncrementTeamTotalPlaytime(teamId: string, ticks: real, now: int, reachable: bool) returns (r: Outcome<LegacyError>)
      modifies this
      ensures !reachable ==> r == Fail(Unavailable) && entries == old(entries)
      ensures reachable ==> var incr := IncrByFloat(old(entries), Key(TeamTotalPlaytimePrefix, teamId), ticks, now);
        r == (if incr.Some? then Pass else Fail(NotANumber)) && entries == incr.GetOr(old(entries))
    {
      r := Increment(Key(TeamTotalPlaytimePrefix, teamId), ticks, now, reachable);
    }

    method GetTeamTotalPlaytime(teamId: string, now: int, reachable: bool) returns (r: Result<real, LegacyError>)
      ensures r == if reachable then TeamTotal(entries, teamId, now) else Err(Unavailable)
    {
      if !reachable {
        return Err(Unavailable);
      }
      var val := Get(entries, Key(TeamTotalPlaytimePrefix, teamId), now);
      if val.None? {
        return Ok(0.0);
      }
      var total := ParseFloat(val.value);
      if total.None? {
        return Err(NotANumber);
      }
      return Ok(total.value);
    }

    /**
     * `GetAllOnlineUUIDs` over the keys the `online:*` scan returned, in scan
     * order; a scan error discards what was collected.
     */
    method GetAllOnlineUUIDs(keys: seq<string>, scanOk: bool) returns (r: Result<seq<string>, LegacyError>)
      ensures r == if scanOk then Ok(OnlineSuffixes(keys)) else Err(Unavailable)
    {
      var uuids: seq<string> := [];
      var i := 0;
      while i < |keys|
        invariant 0 <= i <= |keys|
        invariant uuids == OnlineSuffixes(keys[..i])
      {
        var key := keys[i];
        assert keys[..i + 1][..i] == keys[..i];
        if |key| > |OnlineKeyPrefix| {
          uuids := uuids + [key[|OnlineKeyPrefix|..]];
        }
        i := i + 1;
      }
      assert keys[..i] == keys;
      if !scanOk {
        return Err(Unavailable);
      }
      return Ok(uuids);
    }

    /** `ResetDeltaPlaytime`: the delta becomes 0 with no expiry. */
    method ResetDeltaPlaytime(uuid: string, reachable: bool) returns (r: Outcome<LegacyError>)
      modifies this
      ensures r == if reachable then Pass else Fail(Unavailable)
      ensures entries == if reachable then SetNoExpiry(old(entries), Key(DeltaPlaytimeKeyPrefix, uuid), Num(0.0)) else old(entries)
    {
      if !reachable {
        return Fail(Unavailable);
      }
      entries := SetNoExpiry(entries, Key(DeltaPlaytimeKeyPrefix, uuid), Num(0.0));
      return Pass;
    }

    method SetPlayerPlaytime(uuid: string, ticks: real, reachable: bool) returns (r: Outcome<LegacyError>)
      modifies this
      ensures r == if reachable then Pass else Fail(Unavailable)
      ensures entries == if reachable then SetNoExpiry(old(entries), Key(PlaytimeKeyPrefix, uuid), Num(ticks)) else old(entries)
    {
      if !reachable {
        return Fail(Unavailable);
      }
      entries := SetNoExpiry(entries, Key(PlaytimeKeyPrefix, uuid), Num(ticks));
      return Pass;
    }

    method SetTeamTotalPlaytime(teamId: string, ticks: real, reachable: bool) returns (r: Outcome<LegacyError>)
      modifies this
      ensures r == if reachable then Pass else Fail(Unavailable)
      ensures entries == if reachable then SetNoExpiry(old(entries), Key(TeamTotalPlaytimePrefix, teamId), Num(ticks)) else old(entries)
    {
      if !reachable {
        return Fail(Unavailable);
      }
      entries := SetNoExpiry(entries, Key(TeamTotalPlaytimePrefix, teamId), Num(ticks));
      return Pass;
    }
  }
}
