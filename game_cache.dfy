/**
 * The game service's cache client of go/game/redis.go: every key carries its
 * player's or team's id as a cluster hash tag (`online:{<uuid>}:` and so on),
 * and the client offers the online marker, the ban marker, the team
 * assignment, the per-tick playtime accrual and the scans the tick and the
 * sync handlers use.
 *
 * The cluster is one `Keyspace.Store`. Whether the cache answers a call is an
 * input (`reachable`); a failed call changes nothing. A SCAN is the list of
 * keys it returned (`keys`) and whether its iterator ended in an error
 * (`scanOk`).
 */
module GameCache {
  import opened Wrappers
  import opened GoStrings
  import opened Keyspace

  /** A key format constant, split around its `%s`: a key is `head + id + tail`. */
  datatype KeyFormat = KeyFormat(head: string, tail: string)

  const OnlineKeyPrefix: KeyFormat := KeyFormat("online:{", "}:")
  const PlaytimeKeyPrefix: KeyFormat := KeyFormat("playtime:{", "}:")
  const DeltaPlaytimeKeyPrefix: KeyFormat := KeyFormat("deltatime:{", "}:")
  const BannedKeyPrefix: KeyFormat := KeyFormat("banned:{", "}:")
  const PlayerTeamKeyPrefix: KeyFormat := KeyFormat("team:{", "}:")
  const TeamTotalPlaytimePrefix: KeyFormat := KeyFormat("team_total_playtime:{", "}:")

  const Formats: set<KeyFormat> := {OnlineKeyPrefix, PlaytimeKeyPrefix, DeltaPlaytimeKeyPrefix,
                                    BannedKeyPrefix, PlayerTeamKeyPrefix, TeamTotalPlaytimePrefix}

  /** `playerKey` and `teamKey`: the id substituted for the format's `%s`. */
  function FormatKey(f: KeyFormat, id: string): string {
    f.head + id + f.tail
  }

  /** The keys of a list of ids under one format, in order. */
  function KeysOf(f: KeyFormat, ids: seq<string>): seq<string>
  {
    seq(|ids|, i requires 0 <= i < |ids| => FormatKey(f, ids[i]))
  }

  /** A non-empty sequence is its front followed by its last element. */
  lemma LastSplit<T>(s: seq<T>)
    requires |s| > 0
    ensures s == s[..|s| - 1] + [s[|s| - 1]]
  {
  }

  /** The keys of one more id are the keys before it and then its own key. */
  lemma KeysOfSnoc(f: KeyFormat, ids: seq<string>, id: string)
    ensures KeysOf(f, ids + [id]) == KeysOf(f, ids) + [FormatKey(f, id)]
  {
    var a, b := KeysOf(f, ids + [id]), KeysOf(f, ids) + [FormatKey(f, id)];
    assert |a| == |b|;
    forall i | 0 <= i < |a|
      ensures a[i] == b[i]
    {
      if i < |ids| {
        assert (ids + [id])[i] == ids[i];
      }
    }
  }

  /**
   * The shape all six formats share: the head ends in its only `{`, holds no
   * `}` and has at least five characters, and the tail starts with `}`.
   */
  predicate Braced(f: KeyFormat) {
    |f.head| >= 5 && f.head[|f.head| - 1] == '{' && '{' !in f.head[..|f.head| - 1]
    && '}' !in f.head && |f.tail| >= 1 && f.tail[0] == '}'
  }

  lemma FormatsBraced(f: KeyFormat)
    requires f in Formats
    ensures Braced(f)
  {
    if f == OnlineKeyPrefix {
      OnlineBraced();
    } else if f == PlaytimeKeyPrefix {
      PlaytimeBraced();
    } else if f == DeltaPlaytimeKeyPrefix {
      DeltaBraced();
    } else if f == BannedKeyPrefix {
      BannedBraced();
    } else if f == PlayerTeamKeyPrefix {
      TeamBraced();
    } else {
      TeamTotalBraced();
    }
  }

  /** Each of the six format constants is braced. */
  lemma OnlineBraced()
    ensures Braced(OnlineKeyPrefix)
  {
    HeadBraced("online:");
  }

  lemma PlaytimeBraced()
    ensures Braced(PlaytimeKeyPrefix)
  {
    HeadBraced("playtime:");
  }

  lemma DeltaBraced()
    ensures Braced(DeltaPlaytimeKeyPrefix)
  {
    HeadBraced("deltatime:");
  }

  lemma BannedBraced()
    ensures Braced(BannedKeyPrefix)
  {
    HeadBraced("banned:");
  }

  lemma TeamBraced()
    ensures Braced(PlayerTeamKeyPrefix)
  {
    HeadBraced("team:");
  }

  lemma TeamTotalBraced()
    ensures Braced(TeamTotalPlaytimePrefix)
  {
    HeadBraced("team_total_playtime:");
  }

  /** A format whose head is a brace-free name of four or more characters and `{`, with tail `}:`, is braced. */
  lemma HeadBraced(name: string)
    requires |name| >= 4 && forall i :: 0 <= i < |name| ==> name[i] != '{' && name[i] != '}'
    ensures Braced(KeyFormat(name + "{", "}:"))
  {
    var h := name + "{";
    assert h[..|h| - 1] == name;
  }

  /** Two different ids never share a key of the same format. */
  lemma FormatKeyInjective(f: KeyFormat, a: string, b: string)
    requires FormatKey(f, a) == FormatKey(f, b)
    ensures a == b
  {
    var h := |f.head|;
    assert a == FormatKey(f, a)[h..h + |a|];
    assert b == FormatKey(f, b)[h..h + |b|];
  }

  /** The first and fifth characters of the six heads tell them apart. */
  lemma HeadsDiffer(f: KeyFormat, g: KeyFormat)
    requires f in Formats && g in Formats && f != g
    ensures f.head[0] != g.head[0] || f.head[4] != g.head[4]
  {
  }

  /** Keys of two different formats never collide, whatever the ids. */
  lemma KeyFamiliesDisjoint(f: KeyFormat, g: KeyFormat, a: string, b: string)
    requires f in Formats && g in Formats && f != g
    ensures FormatKey(f, a) != FormatKey(g, b)
  {
    FormatsBraced(f);
    FormatsBraced(g);
    HeadsDiffer(f, g);
    var k1, k2 := FormatKey(f, a), FormatKey(g, b);
    assert k1[0] == f.head[0] && k1[4] == f.head[4];
    assert k2[0] == g.head[0] && k2[4] == g.head[4];
  }

  /** Two keys are equal only when format and id are. */
  lemma DistinctKeys(f: KeyFormat, g: KeyFormat, a: string, b: string)
    requires f in Formats && g in Formats && (f != g || a != b)
    ensures FormatKey(f, a) != FormatKey(g, b)
  {
    if f != g {
      KeyFamiliesDisjoint(f, g, a, b);
    } else if FormatKey(f, a) == FormatKey(g, b) {
      FormatKeyInjective(f, a, b);
    }
  }

  /**
   * The hash tag of a scanned key: the text strictly between the first `{` and
   * the first `}`, or None when one of them is missing or the `}` comes first.
   */
  function HashTag(key: string): (r: Option<string>)
    ensures r.Some? ==> '}' !in r.value
  {
    var start := IndexOf(key, '{');
    var end := IndexOf(key, '}');
    if start != -1 && end != -1 && end > start then
      assert key[start + 1..end] == key[..end][start + 1..];
      Some(key[start + 1..end])
    else None
  }

  /** A `{` with no `}` before it and a `}` after it gives the key a hash tag. */
  lemma HashTagPresent(key: string, i: int)
    requires 0 <= i < |key| && key[i] == '{' && '}' !in key[..i] && '}' in key[i..]
    ensures HashTag(key).Some?
  {
    var j :| 0 <= j < |key[i..]| && key[i..][j] == '}';
    assert key[i + j] == '}';
  }

  /**
   * A key is skipped only when each of its `{` either has a `}` before it or no
   * `}` after it.
   */
  lemma HashTagAbsent(key: string)
    requires HashTag(key).None?
    ensures forall i :: 0 <= i < |key| && key[i] == '{' && '}' in key[i..] ==> '}' in key[..i]
  {
    forall i | 0 <= i < |key| && key[i] == '{' && '}' in key[i..]
      ensures '}' in key[..i]
    {
      if '}' !in key[..i] {
        HashTagPresent(key, i);
      }
    }
  }

  /** The id of a formatted key is its hash tag, whenever the id holds no `}`. */
  lemma HashTagOfFormatKey(f: KeyFormat, id: string)
    requires f in Formats && '}' !in id
    ensures HashTag(FormatKey(f, id)) == Some(id)
  {
    FormatsBraced(f);
    var key := FormatKey(f, id);
    var h := |f.head|;
    assert key[..h - 1] == f.head[..h - 1];
    IndexOfAt(key, '{', h - 1);
    assert key[..h + |id|] == f.head + id;
    IndexOfAt(key, '}', h + |id|);
    assert key[h..h + |id|] == id;
  }

  /**
   * The errors a cache call reports: the cache not answering, a missing key
   * (`ErrRedisKeyNotFound` from the single reads, the wrapped `redis.Nil`
   * from the pipelined read), a value that is not a number, and a team key
   * that cannot be read.
   */
  datatype CacheError = Unavailable | KeyNotFound | NotANumber | UnreadableTeam

  /** A formatted key starts with its format's head. */
  lemma FormatKeyHead(f: KeyFormat, id: string)
    ensures |f.head| <= |FormatKey(f, id)| && FormatKey(f, id)[..|f.head|] == f.head
  {
    assert FormatKey(f, id) == f.head + (id + f.tail);
  }

  /** A playtime counter or a team total: the only keys an accrual writes. */
  predicate CounterKey(k: string) {
    || (|PlaytimeKeyPrefix.head| <= |k| && k[..|PlaytimeKeyPrefix.head|] == PlaytimeKeyPrefix.head)
    || (|TeamTotalPlaytimePrefix.head| <= |k| && k[..|TeamTotalPlaytimePrefix.head|] == TeamTotalPlaytimePrefix.head)
  }

  /** The keys `RemovePlayerSessionData` deletes: all of one player's keys but the ban. */
  function SessionKeys(uuid: string): set<string> {
    {FormatKey(OnlineKeyPrefix, uuid), FormatKey(PlaytimeKeyPrefix, uuid),
     FormatKey(DeltaPlaytimeKeyPrefix, uuid), FormatKey(PlayerTeamKeyPrefix, uuid)}
  }

  /**
   * Clearing a session spares every ban key, every team total and every key
   * of every other player.
   */
  lemma SessionKeysSpare(uuid: string, f: KeyFormat, id: string)
    requires f in Formats
    requires f == BannedKeyPrefix || f == TeamTotalPlaytimePrefix || id != uuid
    ensures FormatKey(f, id) !in SessionKeys(uuid)
  {
    DistinctKeys(f, OnlineKeyPrefix, id, uuid);
    DistinctKeys(f, PlaytimeKeyPrefix, id, uuid);
    DistinctKeys(f, DeltaPlaytimeKeyPrefix, id, uuid);
    DistinctKeys(f, PlayerTeamKeyPrefix, id, uuid);
  }

  /** The TTL `SetBanStatus` gives a ban expiring at `expiresAt` (unix seconds). */
  function BanTtl(expiresAt: int, now: int): (ttl: int)
    ensures ttl >= 0
    ensures expiresAt <= 0 ==> ttl == 0
    ensures expiresAt > 0 && now < expiresAt * MillisPerSecond ==> now + ttl == expiresAt * MillisPerSecond
    ensures expiresAt > 0 && now == expiresAt * MillisPerSecond ==> ttl == 0
    ensures expiresAt > 0 && now > expiresAt * MillisPerSecond ==> ttl == 1
  {
    if expiresAt > 0 then
      var duration := expiresAt * MillisPerSecond - now;
      if duration < 0 then 1 else duration
    else 0
  }

  /**
   * The answer `IsBanned` derives from what the ban key holds at `now`: an
   * integer expiry at or before the epoch is permanent, a later one holds
   * until its second begins.
   */
  function BanActive(stored: Option<Value>, now: int): (active: bool)
    ensures active <==> stored.Some? && ParseInt(stored.value).Some? &&
                        (ParseInt(stored.value).value <= 0 || now < ParseInt(stored.value).value * MillisPerSecond)
  {
    match stored
    case None => false
    case Some(v) =>
      match ParseInt(v)
      case None => false
      case Some(expiresAt) => !(expiresAt > 0 && UnixSeconds(now) >= expiresAt)
  }

  /**
   * A ban written at `now` reads as active at every later instant before its
   * expiry second, and as inactive from then on; a ban expiring at or before the
   * epoch is permanent.
   */
  lemma BanRoundTrip(ks: Store, key: string, expiresAt: int, now: int, t: int)
    requires now <= t
    ensures BanActive(Get(Set(ks, key, Num(expiresAt as real), BanTtl(expiresAt, now), now), key, t), t)
            == (expiresAt <= 0 || t < expiresAt * MillisPerSecond)
  {
    var stored := Get(Set(ks, key, Num(expiresAt as real), BanTtl(expiresAt, now), now), key, t);
    assert ParseInt(Num(expiresAt as real)) == Some(expiresAt);
    if expiresAt > 0 {
      if t < expiresAt * MillisPerSecond {
        assert stored == Some(Num(expiresAt as real));
        assert UnixSeconds(t) < expiresAt;
      } else {
        assert UnixSeconds(t) >= expiresAt;
      }
    }
  }

  /** A removed ban reads as inactive. */
  lemma UnbanRoundTrip(ks: Store, key: string, t: int)
    ensures !BanActive(Get(Del(ks, {key}), key, t), t)
  {
  }

  /**
   * One accrual `IncrementPlayerPlaytime` performs: the new store and the
   * outcome. The team id and the delta are read first; both increments are then
   * sent together and each applies on its own.
   */
  function Accrual(ks: Store, uuid: string, now: int, reachable: bool): (r: (Store, Outcome<CacheError>))
    ensures !reachable ==> r == (ks, Fail(Unavailable))
    ensures forall k :: !CounterKey(k) ==> (k in r.0 <==> k in ks) && (k in ks ==> r.0[k] == ks[k])
  {
    if !reachable then (ks, Fail(Unavailable))
    else
      match Get(ks, FormatKey(PlayerTeamKeyPrefix, uuid), now)
      case None => (ks, Pass)
      case Some(Num(_)) => (ks, Fail(UnreadableTeam))
      case Some(Text(team)) =>
        match Get(ks, FormatKey(DeltaPlaytimeKeyPrefix, uuid), now)
        case None => (ks, Pass)
        case Some(Text(_)) => (ks, Fail(NotANumber))
        case Some(Num(delta)) =>
          FormatKeyHead(PlaytimeKeyPrefix, uuid);
          FormatKeyHead(TeamTotalPlaytimePrefix, team);
          var playerIncr := IncrByFloat(ks, FormatKey(PlaytimeKeyPrefix, uuid), delta, now);
          var afterPlayer := playerIncr.GetOr(ks);
          var teamIncr := IncrByFloat(afterPlayer, FormatKey(TeamTotalPlaytimePrefix, team), delta, now);
          (teamIncr.GetOr(afterPlayer), if playerIncr.Some? && teamIncr.Some? then Pass else Fail(NotANumber))
  }

  /**
   * When the player has a team and a numeric delta, and both counters are
   * numeric or absent, the accrual adds the delta to the player's playtime and to
   * the team's total and changes no other key.
   */
  lemma AccrualAddsDelta(ks: Store, uuid: string, team: string, delta: real, now: int)
    requires Get(ks, FormatKey(PlayerTeamKeyPrefix, uuid), now) == Some(Text(team))
    requires Get(ks, FormatKey(DeltaPlaytimeKeyPrefix, uuid), now) == Some(Num(delta))
    requires !(Get(ks, FormatKey(PlaytimeKeyPrefix, uuid), now).Some? && Get(ks, FormatKey(PlaytimeKeyPrefix, uuid), now).value.Text?)
    requires !(Get(ks, FormatKey(TeamTotalPlaytimePrefix, team), now).Some? && Get(ks, FormatKey(TeamTotalPlaytimePrefix, team), now).value.Text?)
    ensures var (r, outcome) := Accrual(ks, uuid, now, true);
      && outcome == Pass
      && NumOr0(r, FormatKey(PlaytimeKeyPrefix, uuid), now) == NumOr0(ks, FormatKey(PlaytimeKeyPrefix, uuid), now) + delta
      && NumOr0(r, FormatKey(TeamTotalPlaytimePrefix, team), now) == NumOr0(ks, FormatKey(TeamTotalPlaytimePrefix, team), now) + delta
      && r.Keys == ks.Keys + {FormatKey(PlaytimeKeyPrefix, uuid), FormatKey(TeamTotalPlaytimePrefix, team)}
      && forall k :: k in ks && k != FormatKey(PlaytimeKeyPrefix, uuid) && k != FormatKey(TeamTotalPlaytimePrefix, team) ==> r[k] == ks[k]
  {
    var pk := FormatKey(PlaytimeKeyPrefix, uuid);
    var tk := FormatKey(TeamTotalPlaytimePrefix, team);
    KeyFamiliesDisjoint(PlaytimeKeyPrefix, TeamTotalPlaytimePrefix, uuid, team);
    var s1 := IncrByFloat(ks, pk, delta, now).value;
    assert Get(s1, tk, now) == Get(ks, tk, now);
    var s2 := IncrByFloat(s1, tk, delta, now).value;
    assert s2[pk] == s1[pk];
  }

  /**
   * Without a team key or without a delta key the accrual changes nothing and
   * succeeds; a delta that is not a number changes nothing and fails.
   */
  lemma AccrualWithoutInputs(ks: Store, uuid: string, now: int)
    ensures Get(ks, FormatKey(PlayerTeamKeyPrefix, uuid), now).None? ==> Accrual(ks, uuid, now, true) == (ks, Pass)
    ensures (Get(ks, FormatKey(PlayerTeamKeyPrefix, uuid), now).Some? && Get(ks, FormatKey(PlayerTeamKeyPrefix, uuid), now).value.Text? &&
             Get(ks, FormatKey(DeltaPlaytimeKeyPrefix, uuid), now).None?)
            ==> Accrual(ks, uuid, now, true) == (ks, Pass)
    ensures (Get(ks, FormatKey(PlayerTeamKeyPrefix, uuid), now).Some? && Get(ks, FormatKey(PlayerTeamKeyPrefix, uuid), now).value.Text? &&
             Get(ks, FormatKey(DeltaPlaytimeKeyPrefix, uuid), now).Some? && Get(ks, FormatKey(DeltaPlaytimeKeyPrefix, uuid), now).value.Text?)
            ==> Accrual(ks, uuid, now, true) == (ks, Fail(NotANumber))
  {
  }

  /** The reply of `GetPlayerPlaytime` / `GetDeltaPlaytime` for one key. */
  function ReadCounter(ks: Store, key: string, now: int, reachable: bool): (r: Result<real, CacheError>)
    ensures r.Ok? <==> reachable && Get(ks, key, now).Some? && Get(ks, key, now).value.Num?
    ensures r.Ok? ==> Get(ks, key, now) == Some(Num(r.value))
    ensures r == Err(KeyNotFound) <==> reachable && Get(ks, key, now).None?
  {
    if !reachable then Err(Unavailable)
    else
      match Get(ks, key, now)
      case None => Err(KeyNotFound)
      case Some(Text(_)) => Err(NotANumber)
      case Some(Num(x)) => Ok(x)
  }

  /** `GetPlayerPlaytimeAndDelta` read as intended: a missing counter reads as 0. */
  function PlaytimeAndDelta(ks: Store, uuid: string, now: int, reachable: bool): (r: Result<(real, real), CacheError>)
    ensures r.Ok? <==> reachable && !(Get(ks, FormatKey(PlaytimeKeyPrefix, uuid), now).Some? && Get(ks, FormatKey(PlaytimeKeyPrefix, uuid), now).value.Text?)
                                 && !(Get(ks, FormatKey(DeltaPlaytimeKeyPrefix, uuid), now).Some? && Get(ks, FormatKey(DeltaPlaytimeKeyPrefix, uuid), now).value.Text?)
    ensures r.Ok? ==> Get(ks, FormatKey(PlaytimeKeyPrefix, uuid), now) == Some(Num(r.value.0))
                      || (Get(ks, FormatKey(PlaytimeKeyPrefix, uuid), now).None? && r.value.0 == 0.0)
    ensures r.Ok? ==> Get(ks, FormatKey(DeltaPlaytimeKeyPrefix, uuid), now) == Some(Num(r.value.1))
                      || (Get(ks, FormatKey(DeltaPlaytimeKeyPrefix, uuid), now).None? && r.value.1 == 0.0)
  {
    if !reachable then Err(Unavailable)
    else
      var total := Get(ks, FormatKey(PlaytimeKeyPrefix, uuid), now);
      var delta := Get(ks, FormatKey(DeltaPlaytimeKeyPrefix, uuid), now);
      if total.Some? && total.value.Text? then Err(NotANumber)
      else if delta.Some? && delta.value.Text? then Err(NotANumber)
      else Ok((NumOr0(ks, FormatKey(PlaytimeKeyPrefix, uuid), now), NumOr0(ks, FormatKey(DeltaPlaytimeKeyPrefix, uuid), now)))
  }

  /**
   * `GetPlayerPlaytimeAndDelta` as written: the pipeline's `Exec` reports the
   * "no such key" reply of either GET as its own error, so a missing counter
   * fails the whole read before the branches that would read it as 0.
   */
  function PlaytimeAndDeltaAsWritten(ks: Store, uuid: string, now: int, reachable: bool): (r: Result<(real, real), CacheError>)
    ensures reachable && (Get(ks, FormatKey(PlaytimeKeyPrefix, uuid), now).None? || Get(ks, FormatKey(DeltaPlaytimeKeyPrefix, uuid), now).None?)
            ==> r == Err(KeyNotFound)
    ensures r != PlaytimeAndDelta(ks, uuid, now, reachable) ==>
              reachable && (Get(ks, FormatKey(PlaytimeKeyPrefix, uuid), now).None? || Get(ks, FormatKey(DeltaPlaytimeKeyPrefix, uuid), now).None?)
  {
    if !reachable then Err(Unavailable)
    else if Get(ks, FormatKey(PlaytimeKeyPrefix, uuid), now).None? || Get(ks, FormatKey(DeltaPlaytimeKeyPrefix, uuid), now).None? then
      Err(KeyNotFound)
    else PlaytimeAndDelta(ks, uuid, now, reachable)
  }

  /**
   * The combined read agrees with the two single reads, except that a counter
   * those report missing reads as 0 instead of failing.
   */
  lemma PlaytimeAndDeltaMatchesSingleReads(ks: Store, uuid: string, now: int, reachable: bool)
    ensures var total := ReadCounter(ks, FormatKey(PlaytimeKeyPrefix, uuid), now, reachable);
            var delta := ReadCounter(ks, FormatKey(DeltaPlaytimeKeyPrefix, uuid), now, reachable);
            PlaytimeAndDelta(ks, uuid, now, reachable) ==
              if !reachable then Err(Unavailable)
              else if total == Err(NotANumber) || delta == Err(NotANumber) then Err(NotANumber)
              else Ok((if total.Ok? then total.value else 0.0, if delta.Ok? then delta.value else 0.0))
  {
  }

  /**
   * The as-written read fails for a player whose delta key is missing, where the
   * intended read returns the stored playtime and a delta of 0.
   */
  lemma AsWrittenFailsOnMissingDelta(uuid: string, total: real, now: int)
    ensures var ks := map[FormatKey(PlaytimeKeyPrefix, uuid) := Entry(Num(total), None)];
            && PlaytimeAndDeltaAsWritten(ks, uuid, now, true) == Err(KeyNotFound)
            && PlaytimeAndDelta(ks, uuid, now, true) == Ok((total, 0.0))
  {
    KeyFamiliesDisjoint(PlaytimeKeyPrefix, DeltaPlaytimeKeyPrefix, uuid, uuid);
  }

  /** The UUIDs an online-key scan yields: the hash tag of every key that has one, in order. */
  function OnlineUUIDsOf(keys: seq<string>): (uuids: seq<string>)
    ensures |uuids| <= |keys|
    ensures forall u :: u in uuids ==> exists k :: k in keys && HashTag(k) == Some(u)
  {
    if keys == [] then []
    else
      var init := OnlineUUIDsOf(keys[..|keys| - 1]);
      var last := keys[|keys| - 1];
      assert forall k :: k in keys[..|keys| - 1] ==> k in keys;
      match HashTag(last)
      case Some(u) => init + [u]
      case None => init
  }

  /** Scanning the online keys of a list of players yields exactly that list. */
  lemma {:induction false} OnlineUUIDsRoundTrip(uuids: seq<string>)
    requires forall u :: u in uuids ==> '}' !in u
    ensures OnlineUUIDsOf(KeysOf(OnlineKeyPrefix, uuids)) == uuids
  {
    if uuids != [] {
      var n := |uuids| - 1;
      var init := uuids[..n];
      assert forall u :: u in init ==> u in uuids;
      OnlineUUIDsRoundTrip(init);
      var key := FormatKey(OnlineKeyPrefix, uuids[n]);
      HashTagOfFormatKey(OnlineKeyPrefix, uuids[n]);
      LastSplit(uuids);
      KeysOfSnoc(OnlineKeyPrefix, init, uuids[n]);
      OnlineUUIDsSnoc(KeysOf(OnlineKeyPrefix, init), key, uuids[n]);
    }
  }

  /** One more scanned key with a hash tag appends that tag. */
  lemma OnlineUUIDsSnoc(keys: seq<string>, key: string, u: string)
    requires HashTag(key) == Some(u)
    ensures OnlineUUIDsOf(keys + [key]) == OnlineUUIDsOf(keys) + [u]
  {
    assert (keys + [key])[..|keys|] == keys;
  }

  /** A scanned key without a hash tag contributes nothing; one with a tag contributes it. */
  lemma {:induction false} OnlineUUIDsAppend(keys: seq<string>, more: seq<string>)
    ensures OnlineUUIDsOf(keys + more) == OnlineUUIDsOf(keys) + OnlineUUIDsOf(more)
    decreases |more|
  {
    if more == [] {
      assert keys + more == keys;
    } else {
      var n := |more| - 1;
      assert (keys + more)[..|keys + more| - 1] == keys + more[..n];
      OnlineUUIDsAppend(keys, more[..n]);
    }
  }

  /**
   * The team totals a team-total scan yields: each tagged key holding a
   * number, by tag. A key in `failing` is one whose GET errors; it is logged
   * and skipped.
   */
  function TeamTotalsOf(keys: seq<string>, failing: set<string>, ks: Store, now: int): (totals: map<string, real>)
    ensures forall t :: t in totals ==>
      exists k :: k in keys && k !in failing && HashTag(k) == Some(t) && Get(ks, k, now) == Some(Num(totals[t]))
  {
    if keys == [] then map[]
    else
      var init := TeamTotalsOf(keys[..|keys| - 1], failing, ks, now);
      var last := keys[|keys| - 1];
      assert forall k :: k in keys[..|keys| - 1] ==> k in keys;
      match HashTag(last)
      case None => init
      case Some(team) =>
        if last in failing then init
        else
          match Get(ks, last, now)
          case Some(Num(x)) => init[team := x]
          case _ => init
  }

  /** The totals held under the total keys of a list of teams, by team. */
  function TotalsByTeam(teams: seq<string>, ks: Store, now: int): (totals: map<string, real>)
    ensures forall t :: t in totals <==> t in teams
    ensures forall t :: t in totals ==> totals[t] == NumOr0(ks, FormatKey(TeamTotalPlaytimePrefix, t), now)
  {
    if teams == [] then map[]
    else
      assert forall t :: t in teams <==> t in teams[..|teams| - 1] || t == teams[|teams| - 1];
      TotalsByTeam(teams[..|teams| - 1], ks, now)[teams[|teams| - 1] := NumOr0(ks, FormatKey(TeamTotalPlaytimePrefix, teams[|teams| - 1]), now)]
  }

  /**
   * Scanning the total keys of teams that all hold a number, with no GET
   * failing, yields each team's number.
   */
  lemma {:induction false} TeamTotalsRoundTrip(teams: seq<string>, failing: set<string>, ks: Store, now: int)
    requires forall t :: t in teams ==> '}' !in t
    requires forall t :: t in teams ==> FormatKey(TeamTotalPlaytimePrefix, t) !in failing
    requires forall t :: t in teams ==> Get(ks, FormatKey(TeamTotalPlaytimePrefix, t), now).Some? &&
                                        Get(ks, FormatKey(TeamTotalPlaytimePrefix, t), now).value.Num?
    ensures TeamTotalsOf(KeysOf(TeamTotalPlaytimePrefix, teams), failing, ks, now) == TotalsByTeam(teams, ks, now)
  {
    if teams != [] {
      var n := |teams| - 1;
      var last := teams[n];
      var init := KeysOf(TeamTotalPlaytimePrefix, teams[..n]);
      var key := FormatKey(TeamTotalPlaytimePrefix, last);
      var x := NumOr0(ks, key, now);
      LastSplit(teams);
      KeysOfSnoc(TeamTotalPlaytimePrefix, teams[..n], last);
      assert TeamTotalsOf(init, failing, ks, now) == TotalsByTeam(teams[..n], ks, now) by {
        assert forall t :: t in teams[..n] ==> t in teams;
        TeamTotalsRoundTrip(teams[..n], failing, ks, now);
      }
      assert TeamTotalsOf(init + [key], failing, ks, now) == TeamTotalsOf(init, failing, ks, now)[last := x] by {
        HashTagOfFormatKey(TeamTotalPlaytimePrefix, last);
        assert (init + [key])[..|init|] == init;
        assert key !in failing;
        assert Get(ks, key, now) == Some(Num(x));
      }
      assert TotalsByTeam(teams, ks, now) == TotalsByTeam(teams[..n], ks, now)[last := x];
    }
  }

  class RedisClient {
    var entries: Store
    const onlineTTL: int

    constructor(initial: Store, onlineTTL: int)
      ensures entries == initial && this.onlineTTL == onlineTTL
    {
      entries := initial;
      this.onlineTTL := onlineTTL;
    }

    /** Marks the player online for `onlineTTL`. */
    method SetOnlineStatus(uuid: string, now: int, reachable: bool) returns (r: Outcome<CacheError>)
      modifies this
      ensures r == if reachable then Pass else Fail(Unavailable)
      ensures entries == if reachable then Set(old(entries), FormatKey(OnlineKeyPrefix, uuid), Text("true"), onlineTTL, now)
                         else old(entries)
    {
      if !reachable {
        return Fail(Unavailable);
      }
      entries := Set(entries, FormatKey(OnlineKeyPrefix, uuid), Text("true"), onlineTTL, now);
      return Pass;
    }

    /** Removes the online marker. */
    method SetOfflineStatus(uuid: string, reachable: bool) returns (r: Outcome<CacheError>)
      modifies this
      ensures r == if reachable then Pass else Fail(Unavailable)
      ensures entries == if reachable then Del(old(entries), {FormatKey(OnlineKeyPrefix, uuid)}) else old(entries)
    {
      if !reachable {
        return Fail(Unavailable);
      }
      entries := Del(entries, {FormatKey(OnlineKeyPrefix, uuid)});
      return Pass;
    }

    /** True exactly when the online marker is live. */
    method IsOnline(uuid: string, now: int, reachable: bool) returns (r: Result<bool, CacheError>)
      ensures !reachable ==> r == Err(Unavailable)
      ensures reachable ==> r.Ok? && (r.value <==> FormatKey(OnlineKeyPrefix, uuid) in entries &&
                                                    Live(entries[FormatKey(OnlineKeyPrefix, uuid)], now))
    {
      if !reachable {
        return Err(Unavailable);
      }
      var marker := Get(entries, FormatKey(OnlineKeyPrefix, uuid), now);
      return Ok(marker.Some?);
    }

    /**
     * Stores a ban as its expiry second (with a TTL reaching that second, at
     * least 1ms, or none when the expiry is not positive), or removes it.
     */
    method SetBanStatus(uuid: string, banned: bool, banExpiresAt: int, now: int, reachable: bool) returns (r: Outcome<CacheError>)
      modifies this
      ensures r == if reachable then Pass else Fail(Unavailable)
      ensures !reachable ==> entries == old(entries)
      ensures reachable && !banned ==> entries == Del(old(entries), {FormatKey(BannedKeyPrefix, uuid)})
      ensures reachable && banned ==>
        entries == Set(old(entries), FormatKey(BannedKeyPrefix, uuid), Num(banExpiresAt as real), BanTtl(banExpiresAt, now), now)
      ensures reachable && banned && banExpiresAt > 0 && banExpiresAt * MillisPerSecond != now ==>
        entries[FormatKey(BannedKeyPrefix, uuid)].expiresAt.Some? &&
        entries[FormatKey(BannedKeyPrefix, uuid)].expiresAt.value >= now + 1
      ensures reachable && banned && banExpiresAt <= 0 ==> entries[FormatKey(BannedKeyPrefix, uuid)].expiresAt.None?
      ensures reachable && banned && banExpiresAt > 0 && banExpiresAt * MillisPerSecond == now ==>
        entries[FormatKey(BannedKeyPrefix, uuid)].expiresAt.None?
    {
      if !reachable {
        return Fail(Unavailable);
      }
      var key := FormatKey(BannedKeyPrefix, uuid);
      if banned {
        if banExpiresAt > 0 {
          var duration := banExpiresAt * MillisPerSecond - now;
          if duration < 0 {
            duration := 1;
          }
          entries := Set(entries, key, Num(banExpiresAt as real), duration, now);
        } else {
          entries := Set(entries, key, Num(banExpiresAt as real), 0, now);
        }
      } else {
        entries := Del(entries, {key});
      }
      return Pass;
    }

    /**
     * False for a missing key, a value that is not an integer, or an expiry
     * second already reached; true otherwise.
     */
    method IsBanned(uuid: string, now: int, reachable: bool) returns (r: Result<bool, CacheError>)
      ensures r == if reachable then Ok(BanActive(Get(entries, FormatKey(BannedKeyPrefix, uuid), now), now))
                   else Err(Unavailable)
    {
      if !reachable {
        return Err(Unavailable);
      }
      var val := Get(entries, FormatKey(BannedKeyPrefix, uuid), now);
      if val.None? {
        return Ok(false);
      }
      var expiresAt := ParseInt(val.value);
      if expiresAt.None? {
        return Ok(false);
      }
      if expiresAt.value > 0 && UnixSeconds(now) >= expiresAt.value {
        return Ok(false);
      }
      return Ok(true);
    }

    /** Stores the player's team id, with no expiry. */
    method SetPlayerTeam(uuid: string, teamId: string, reachable: bool) returns (r: Outcome<CacheError>)
      modifies this
      ensures r == if reachable then Pass else Fail(Unavailable)
      ensures entries == if reachable then SetNoExpiry(old(entries), FormatKey(PlayerTeamKeyPrefix, uuid), Text(teamId))
                         else old(entries)
    {
      if !reachable {
        return Fail(Unavailable);
      }
      entries := SetNoExpiry(entries, FormatKey(PlayerTeamKeyPrefix, uuid), Text(teamId));
      return Pass;
    }

    /** Overwrites a team's total, with no expiry. */
    method SetTeamTotal(teamId: string, total: real, reachable: bool) returns (r: Outcome<CacheError>)
      modifies this
      ensures r == if reachable then Pass else Fail(Unavailable)
      ensures entries == if reachable then SetNoExpiry(old(entries), FormatKey(TeamTotalPlaytimePrefix, teamId), Num(total))
                         else old(entries)
    {
      if !reachable {
        return Fail(Unavailable);
      }
      entries := SetNoExpiry(entries, FormatKey(TeamTotalPlaytimePrefix, teamId), Num(total));
      return Pass;
    }

    /** Adds to a team's total. */
    method IncrementTeamTotalPlaytime(teamId: string, ticks: real, now: int, reachable: bool) returns (r: Outcome<CacheError>)
      modifies this
      ensures !reachable ==> r == Fail(Unavailable) && entries == old(entries)
      ensures reachable ==> var incr := IncrByFloat(old(entries), FormatKey(TeamTotalPlaytimePrefix, teamId), ticks, now);
        r == (if incr.Some? then Pass else Fail(NotANumber)) && entries == incr.GetOr(old(entries))
    {
      if !reachable {
        return Fail(Unavailable);
      }
      var incr := IncrByFloat(entries, FormatKey(TeamTotalPlaytimePrefix, teamId), ticks, now);
      if incr.None? {
        return Fail(NotANumber);
      }
      entries := incr.value;
      return Pass;
    }

    /** A team's total; a missing total reads as 0. */
    method GetTeamTotalPlaytime(teamId: string, now: int, reachable: bool) returns (r: Result<real, CacheError>)
      ensures !reachable ==> r == Err(Unavailable)
      ensures reachable ==> match Get(entries, FormatKey(TeamTotalPlaytimePrefix, teamId), now)
                            case None => r == Ok(0.0)
                            case Some(Text(_)) => r == Err(NotANumber)
                            case Some(Num(x)) => r == Ok(x)
    {
      if !reachable {
        return Err(Unavailable);
      }
      var val := Get(entries, FormatKey(TeamTotalPlaytimePrefix, teamId), now);
      if val.None? {
        return Ok(0.0);
      }
      var total := ParseFloat(val.value);
      if total.None? {
        return Err(NotANumber);
      }
      return Ok(total.value);
    }

    /**
     * The team totals behind the scanned keys, by hash tag; keys without a tag,
     * whose GET fails or without a numeric value are skipped, and a scan error
     * discards all.
     */
    method GetAllTeamTotalPlaytimes(keys: seq<string>, failing: set<string>, now: int, scanOk: bool) returns (r: Result<map<string, real>, CacheError>)
      ensures r == if scanOk then Ok(TeamTotalsOf(keys, failing, entries, now)) else Err(Unavailable)
    {
      var teamPlaytimes: map<string, real> := map[];
      var i := 0;
      while i < |keys|
        invariant 0 <= i <= |keys|
        invariant teamPlaytimes == TeamTotalsOf(keys[..i], failing, entries, now)
      {
        var key := keys[i];
        assert keys[..i + 1][..i] == keys[..i];
        var teamId := HashTag(key);
        if teamId.Some? && key !in failing {
          var val := Get(entries, key, now);
          if val.Some? && val.value.Num? {
            teamPlaytimes := teamPlaytimes[teamId.value := val.value.x];
          }
        }
        i := i + 1;
      }
      assert keys[..i] == keys;
      if !scanOk {
        return Err(Unavailable);
      }
      return Ok(teamPlaytimes);
    }

    /**
     * One tick's accrual for a player: the delta is added to the player's total
     * and to the total of the player's team.
     */
    method IncrementPlayerPlaytime(uuid: string, now: int, reachable: bool) returns (r: Outcome<CacheError>)
      modifies this
      ensures (entries, r) == Accrual(old(entries), uuid, now, reachable)
    {
      if !reachable {
        return Fail(Unavailable);
      }
      var teamResult := Get(entries, FormatKey(PlayerTeamKeyPrefix, uuid), now);
      if teamResult.None? {
        return Pass;
      }
      if teamResult.value.Num? {
        return Fail(UnreadableTeam);
      }
      var teamId := teamResult.value.s;
      var deltaStr := Get(entries, FormatKey(DeltaPlaytimeKeyPrefix, uuid), now);
      if deltaStr.None? {
        return Pass;
      }
      var deltaFloat := ParseFloat(deltaStr.value);
      if deltaFloat.None? {
        return Fail(NotANumber);
      }
      var playerIncr := IncrByFloat(entries, FormatKey(PlaytimeKeyPrefix, uuid), deltaFloat.value, now);
      if playerIncr.Some? {
        entries := playerIncr.value;
      }
      var teamIncr := IncrByFloat(entries, FormatKey(TeamTotalPlaytimePrefix, teamId), deltaFloat.value, now);
      if teamIncr.Some? {
        entries := teamIncr.value;
      }
      if playerIncr.None? || teamIncr.None? {
        return Fail(NotANumber);
      }
      return Pass;
    }

    /** A player's total playtime; a missing key is `KeyNotFound`. */
    method GetPlayerPlaytime(uuid: string, now: int, reachable: bool) returns (r: Result<real, CacheError>)
      ensures r == ReadCounter(entries, FormatKey(PlaytimeKeyPrefix, uuid), now, reachable)
      ensures r == Err(KeyNotFound) <==> reachable && Get(entries, FormatKey(PlaytimeKeyPrefix, uuid), now).None?
    {
      r := ReadKey(FormatKey(PlaytimeKeyPrefix, uuid), now, reachable);
    }

    /** A player's delta playtime; a missing key is `KeyNotFound`. */
    method GetDeltaPlaytime(uuid: string, now: int, reachable: bool) returns (r: Result<real, CacheError>)
      ensures r == ReadCounter(entries, FormatKey(DeltaPlaytimeKeyPrefix, uuid), now, reachable)
      ensures r == Err(KeyNotFound) <==> reachable && Get(entries, FormatKey(DeltaPlaytimeKeyPrefix, uuid), now).None?
    {
      r := ReadKey(FormatKey(DeltaPlaytimeKeyPrefix, uuid), now, reachable);
    }

    /** GET followed by a float conversion. */
    method ReadKey(key: string, now: int, reachable: bool) returns (r: Result<real, CacheError>)
      ensures r == ReadCounter(entries, key, now, reachable)
    {
      if !reachable {
        return Err(Unavailable);
      }
      var val := Get(entries, key, now);
      if val.None? {
        return Err(KeyNotFound);
      }
      var x := ParseFloat(val.value);
      if x.None? {
        return Err(NotANumber);
      }
      return Ok(x.value);
    }

    /** Both counters of a player in one round trip; a missing counter reads as 0. */
    method GetPlayerPlaytimeAndDelta(uuid: string, now: int, reachable: bool) returns (r: Result<(real, real), CacheError>)
      ensures r == PlaytimeAndDelta(entries, uuid, now, reachable)
    {
      if !reachable {
        return Err(Unavailable);
      }
      var totalCmd := Get(entries, FormatKey(PlaytimeKeyPrefix, uuid), now);
      var deltaCmd := Get(entries, FormatKey(DeltaPlaytimeKeyPrefix, uuid), now);
      var totalPlaytime := 0.0;
      if totalCmd.Some? {
        var x := ParseFloat(totalCmd.value);
        if x.None? {
          return Err(NotANumber);
        }
        totalPlaytime := x.value;
      }
      var deltaPlaytime := 0.0;
      if deltaCmd.Some? {
        var x := ParseFloat(deltaCmd.value);
        if x.None? {
          return Err(NotANumber);
        }
        deltaPlaytime := x.value;
      }
      return Ok((totalPlaytime, deltaPlaytime));
    }

    /** Overwrites a player's total playtime, with no expiry. */
    method SetPlayerPlaytime(uuid: string, playtime: real, reachable: bool) returns (r: Outcome<CacheError>)
      modifies this
      ensures r == if reachable then Pass else Fail(Unavailable)
      ensures entries == if reachable then SetNoExpiry(old(entries), FormatKey(PlaytimeKeyPrefix, uuid), Num(playtime))
                         else old(entries)
    {
      if !reachable {
        return Fail(Unavailable);
      }
      entries := SetNoExpiry(entries, FormatKey(PlaytimeKeyPrefix, uuid), Num(playtime));
      return Pass;
    }

    /** Overwrites a player's delta playtime, with no expiry. */
    method SetDeltaPlaytime(uuid: string, deltaPlaytime: real, reachable: bool) returns (r: Outcome<CacheError>)
      modifies this
      ensures r == if reachable then Pass else Fail(Unavailable)
      ensures entries == if reachable then SetNoExpiry(old(entries), FormatKey(DeltaPlaytimeKeyPrefix, uuid), Num(deltaPlaytime))
                         else old(entries)
    {
      if !reachable {
        return Fail(Unavailable);
      }
      entries := SetNoExpiry(entries, FormatKey(DeltaPlaytimeKeyPrefix, uuid), Num(deltaPlaytime));
      return Pass;
    }

    /** Whether each of the two counters of a player is live. */
    method CheckPlaytimeKeysExist(uuid: string, now: int, reachable: bool) returns (r: Result<(bool, bool), CacheError>)
      ensures !reachable ==> r == Err(Unavailable)
      ensures reachable ==> (r.Ok? &&
        (r.value.0 <==> Get(entries, FormatKey(PlaytimeKeyPrefix, uuid), now).Some?) &&
        (r.value.1 <==> Get(entries, FormatKey(DeltaPlaytimeKeyPrefix, uuid), now).Some?))
    {
      if !reachable {
        return Err(Unavailable);
      }
      var totalExists := Get(entries, FormatKey(PlaytimeKeyPrefix, uuid), now).Some?;
      var deltaExists := Get(entries, FormatKey(DeltaPlaytimeKeyPrefix, uuid), now).Some?;
      return Ok((totalExists, deltaExists));
    }

    /** Deletes the player's online, playtime, delta and team keys in one call. */
    method RemovePlayerSessionData(uuid: string, reachable: bool) returns (r: Outcome<CacheError>)
      modifies this
      ensures r == if reachable then Pass else Fail(Unavailable)
      ensures entries == if reachable then Del(old(entries), SessionKeys(uuid)) else old(entries)
    {
      if !reachable {
        return Fail(Unavailable);
      }
      entries := Del(entries, SessionKeys(uuid));
      return Pass;
    }

    /**
     * The UUIDs behind the scanned online keys, in scan order; keys without a
     * hash tag are skipped, and a scan error discards all.
     */
    method GetAllOnlineUUIDs(keys: seq<string>, scanOk: bool) returns (r: Result<seq<string>, CacheError>)
      ensures r == if scanOk then Ok(OnlineUUIDsOf(keys)) else Err(Unavailable)
    {
      var allOnlineUUIDs: seq<string> := [];
      var i := 0;
      while i < |keys|
        invariant 0 <= i <= |keys|
        invariant allOnlineUUIDs == OnlineUUIDsOf(keys[..i])
      {
        var key := keys[i];
        assert keys[..i + 1][..i] == keys[..i];
        var uuid := HashTag(key);
        if uuid.Some? {
          allOnlineUUIDs := allOnlineUUIDs + [uuid.value];
        }
        i := i + 1;
      }
      assert keys[..i] == keys;
      if !scanOk {
        return Err(Unavailable);
      }
      return Ok(allOnlineUUIDs);
    }
  }
}
