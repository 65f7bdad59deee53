/**
 * The game tick of go/game/updater.go: every tick scans the online markers and
 * runs the playtime accrual once for each UUID found, in scan order. No
 * ownership filter applies: the registrar the updater holds is never
 * consulted.
 */
module Updater {
  import opened Wrappers
  import opened Keyspace
  import opened GameCache
  import Membership

  /**
   * The store after one accrual per UUID, in order; the calls of the players in
   * `failing` fail, and a failure does not stop the others. Only playtime
   * counters and team totals change: online markers, deltas, teams and bans
   * stay as they were.
   */
  function Tick(ks: Store, uuids: seq<string>, now: int, failing: set<string>): (r: Store)
    ensures forall k :: !CounterKey(k) ==> (k in r <==> k in ks) && (k in ks ==> r[k] == ks[k])
    decreases |uuids|
  {
    if uuids == [] then ks
    else Tick(Accrual(ks, uuids[0], now, uuids[0] !in failing).0, uuids[1..], now, failing)
  }

  /** No player's online marker, delta, team or ban is a counter key. */
  lemma SessionFlagsNotCounters(f: KeyFormat, id: string)
    requires f == OnlineKeyPrefix || f == DeltaPlaytimeKeyPrefix || f == PlayerTeamKeyPrefix || f == BannedKeyPrefix
    ensures !CounterKey(FormatKey(f, id))
  {
    var k := FormatKey(f, id);
    FormatKeyHead(f, id);
    assert k[0] == f.head[0];
    if f == PlayerTeamKeyPrefix && |k| >= |TeamTotalPlaytimePrefix.head| {
      assert k[4] == f.head[4];
      assert k[..|TeamTotalPlaytimePrefix.head|][4] == k[4];
    }
  }

  /** A tick leaves every player's online marker, delta, team and ban as it was. */
  lemma TickSparesSessionFlags(ks: Store, uuids: seq<string>, now: int, failing: set<string>, f: KeyFormat, id: string)
    requires f == OnlineKeyPrefix || f == DeltaPlaytimeKeyPrefix || f == PlayerTeamKeyPrefix || f == BannedKeyPrefix
    ensures Get(Tick(ks, uuids, now, failing), FormatKey(f, id), now) == Get(ks, FormatKey(f, id), now)
  {
    SessionFlagsNotCounters(f, id);
  }

  /** The players of a list whose calls do not fail. */
  function Answering(uuids: seq<string>, failing: set<string>): (r: seq<string>)
    ensures forall u :: u in r <==> u in uuids && u !in failing
  {
    if uuids == [] then []
    else (if uuids[0] in failing then [] else [uuids[0]]) + Answering(uuids[1..], failing)
  }

  /** A failed accrual is skipped: the tick is the tick over the answering players alone. */
  lemma {:induction false} TickSkipsFailures(ks: Store, uuids: seq<string>, now: int, failing: set<string>)
    ensures Tick(ks, uuids, now, failing) == Tick(ks, Answering(uuids, failing), now, {})
    decreases |uuids|
  {
    if uuids != [] {
      var u := uuids[0];
      if u in failing {
        TickSkipsFailures(ks, uuids[1..], now, failing);
        assert Answering(uuids, failing) == Answering(uuids[1..], failing);
      } else {
        var next := Accrual(ks, u, now, true).0;
        TickSkipsFailures(next, uuids[1..], now, failing);
        var rest := Answering(uuids[1..], failing);
        assert Answering(uuids, failing) == [u] + rest;
        assert ([u] + rest)[1..] == rest;
      }
    }
  }

  /** A key that is absent, or holds a number and never expires. */
  predicate PersistentNum(ks: Store, key: string) {
    key !in ks || (ks[key].value.Num? && ks[key].expiresAt.None?)
  }

  /** The number a key holds, 0 when it is absent or textual. */
  function Counter(ks: Store, key: string): real {
    if key in ks && ks[key].value.Num? then ks[key].value.x else 0.0
  }

  /**
   * Every listed player has the given team and delta under keys that never
   * expire, and a playtime and a team total that are numeric or absent and never
   * expire.
   */
  predicate Ready(ks: Store, uuids: seq<string>, team: map<string, string>, delta: map<string, real>) {
    forall u :: u in uuids ==>
      && u in team && u in delta
      && FormatKey(PlayerTeamKeyPrefix, u) in ks && ks[FormatKey(PlayerTeamKeyPrefix, u)] == Entry(Text(team[u]), None)
      && FormatKey(DeltaPlaytimeKeyPrefix, u) in ks && ks[FormatKey(DeltaPlaytimeKeyPrefix, u)] == Entry(Num(delta[u]), None)
      && PersistentNum(ks, FormatKey(PlaytimeKeyPrefix, u))
      && PersistentNum(ks, FormatKey(TeamTotalPlaytimePrefix, team[u]))
  }

  /** The sum of the deltas of the listed members of a team. */
  function TeamDelta(uuids: seq<string>, team: map<string, string>, delta: map<string, real>, t: string): real
    requires forall u :: u in uuids ==> u in team && u in delta
  {
    if uuids == [] then 0.0
    else (if team[uuids[0]] == t then delta[uuids[0]] else 0.0) + TeamDelta(uuids[1..], team, delta, t)
  }

  /** The accrual of a ready player, written out: both counters go up by the delta and never expire. */
  lemma AccrualOfReadyPlayer(ks: Store, u: string, team: string, delta: real, now: int)
    requires FormatKey(PlayerTeamKeyPrefix, u) in ks && ks[FormatKey(PlayerTeamKeyPrefix, u)] == Entry(Text(team), None)
    requires FormatKey(DeltaPlaytimeKeyPrefix, u) in ks && ks[FormatKey(DeltaPlaytimeKeyPrefix, u)] == Entry(Num(delta), None)
    requires PersistentNum(ks, FormatKey(PlaytimeKeyPrefix, u))
    requires PersistentNum(ks, FormatKey(TeamTotalPlaytimePrefix, team))
    ensures Accrual(ks, u, now, true) == (Bumped(ks, u, team, delta), Pass)
  {
    KeyFamiliesDisjoint(PlaytimeKeyPrefix, TeamTotalPlaytimePrefix, u, team);
  }

  /**
   * One accrual of a ready player, key by key: only its playtime and its team's
   * total change, each by the delta, and both stay persistent.
   */
  lemma AccrualStep(ks: Store, u: string, team: string, delta: real, now: int)
    requires FormatKey(PlayerTeamKeyPrefix, u) in ks && ks[FormatKey(PlayerTeamKeyPrefix, u)] == Entry(Text(team), None)
    requires FormatKey(DeltaPlaytimeKeyPrefix, u) in ks && ks[FormatKey(DeltaPlaytimeKeyPrefix, u)] == Entry(Num(delta), None)
    requires PersistentNum(ks, FormatKey(PlaytimeKeyPrefix, u))
    requires PersistentNum(ks, FormatKey(TeamTotalPlaytimePrefix, team))
    ensures var next := Accrual(ks, u, now, true).0;
      && Unchanged(ks, next)
      && (forall v :: Counter(next, FormatKey(PlaytimeKeyPrefix, v)) ==
                      Counter(ks, FormatKey(PlaytimeKeyPrefix, v)) + (if v == u then delta else 0.0))
      && (forall t :: Counter(next, FormatKey(TeamTotalPlaytimePrefix, t)) ==
                      Counter(ks, FormatKey(TeamTotalPlaytimePrefix, t)) + (if t == team then delta else 0.0))
  {
    AccrualOfReadyPlayer(ks, u, team, delta, now);
    forall v
      ensures FormatKey(PlayerTeamKeyPrefix, v) in ks ==>
                FormatKey(PlayerTeamKeyPrefix, v) in Bumped(ks, u, team, delta)
                && Bumped(ks, u, team, delta)[FormatKey(PlayerTeamKeyPrefix, v)] == ks[FormatKey(PlayerTeamKeyPrefix, v)]
      ensures FormatKey(DeltaPlaytimeKeyPrefix, v) in ks ==>
                FormatKey(DeltaPlaytimeKeyPrefix, v) in Bumped(ks, u, team, delta)
                && Bumped(ks, u, team, delta)[FormatKey(DeltaPlaytimeKeyPrefix, v)] == ks[FormatKey(DeltaPlaytimeKeyPrefix, v)]
      ensures PersistentNum(ks, FormatKey(PlaytimeKeyPrefix, v)) ==> PersistentNum(Bumped(ks, u, team, delta), FormatKey(PlaytimeKeyPrefix, v))
      ensures Counter(Bumped(ks, u, team, delta), FormatKey(PlaytimeKeyPrefix, v)) ==
              Counter(ks, FormatKey(PlaytimeKeyPrefix, v)) + (if v == u then delta else 0.0)
    {
      PlayerKeysAt(ks, u, team, delta, v);
    }
    forall t
      ensures PersistentNum(ks, FormatKey(TeamTotalPlaytimePrefix, t)) ==> PersistentNum(Bumped(ks, u, team, delta), FormatKey(TeamTotalPlaytimePrefix, t))
      ensures Counter(Bumped(ks, u, team, delta), FormatKey(TeamTotalPlaytimePrefix, t)) ==
              Counter(ks, FormatKey(TeamTotalPlaytimePrefix, t)) + (if t == team then delta else 0.0)
    {
      TeamKeyAt(ks, u, team, delta, t);
    }
  }

  /** The store after a ready player's accrual: its playtime and its team's total raised by the delta. */
  function Bumped(ks: Store, u: string, team: string, delta: real): Store {
    var pk, tk := FormatKey(PlaytimeKeyPrefix, u), FormatKey(TeamTotalPlaytimePrefix, team);
    ks[pk := Entry(Num(Counter(ks, pk) + delta), None)][tk := Entry(Num(Counter(ks, tk) + delta), None)]
  }

  /** `AccrualStep` at the keys of one player `v`. */
  lemma PlayerKeysAt(ks: Store, u: string, team: string, delta: real, v: string)
    ensures var next := Bumped(ks, u, team, delta);
      && (FormatKey(PlayerTeamKeyPrefix, v) in ks ==>
            FormatKey(PlayerTeamKeyPrefix, v) in next && next[FormatKey(PlayerTeamKeyPrefix, v)] == ks[FormatKey(PlayerTeamKeyPrefix, v)])
      && (FormatKey(DeltaPlaytimeKeyPrefix, v) in ks ==>
            FormatKey(DeltaPlaytimeKeyPrefix, v) in next && next[FormatKey(DeltaPlaytimeKeyPrefix, v)] == ks[FormatKey(DeltaPlaytimeKeyPrefix, v)])
      && (PersistentNum(ks, FormatKey(PlaytimeKeyPrefix, v)) ==> PersistentNum(next, FormatKey(PlaytimeKeyPrefix, v)))
      && Counter(next, FormatKey(PlaytimeKeyPrefix, v)) == Counter(ks, FormatKey(PlaytimeKeyPrefix, v)) + (if v == u then delta else 0.0)
  {
    DistinctKeys(PlayerTeamKeyPrefix, PlaytimeKeyPrefix, v, u);
    DistinctKeys(PlayerTeamKeyPrefix, TeamTotalPlaytimePrefix, v, team);
    DistinctKeys(DeltaPlaytimeKeyPrefix, PlaytimeKeyPrefix, v, u);
    DistinctKeys(DeltaPlaytimeKeyPrefix, TeamTotalPlaytimePrefix, v, team);
    DistinctKeys(PlaytimeKeyPrefix, TeamTotalPlaytimePrefix, v, team);
    if v != u {
      DistinctKeys(PlaytimeKeyPrefix, PlaytimeKeyPrefix, v, u);
    }
  }

  /** `AccrualStep` at the total of one team `t`. */
  lemma TeamKeyAt(ks: Store, u: string, team: string, delta: real, t: string)
    ensures var next := Bumped(ks, u, team, delta);
      && (PersistentNum(ks, FormatKey(TeamTotalPlaytimePrefix, t)) ==> PersistentNum(next, FormatKey(TeamTotalPlaytimePrefix, t)))
      && Counter(next, FormatKey(TeamTotalPlaytimePrefix, t)) == Counter(ks, FormatKey(TeamTotalPlaytimePrefix, t)) + (if t == team then delta else 0.0)
  {
    if t != team {
      DistinctKeys(TeamTotalPlaytimePrefix, TeamTotalPlaytimePrefix, t, team);
    }
    DistinctKeys(TeamTotalPlaytimePrefix, PlaytimeKeyPrefix, t, u);
  }

  /**
   * What a tick keeps of a store: team and delta entries as they were, and
   * counters that never expire still never expiring.
   */
  ghost predicate Unchanged(ks: Store, after: Store) {
    && (forall v :: FormatKey(PlayerTeamKeyPrefix, v) in ks ==>
          FormatKey(PlayerTeamKeyPrefix, v) in after && after[FormatKey(PlayerTeamKeyPrefix, v)] == ks[FormatKey(PlayerTeamKeyPrefix, v)])
    && (forall v :: FormatKey(DeltaPlaytimeKeyPrefix, v) in ks ==>
          FormatKey(DeltaPlaytimeKeyPrefix, v) in after && after[FormatKey(DeltaPlaytimeKeyPrefix, v)] == ks[FormatKey(DeltaPlaytimeKeyPrefix, v)])
    && (forall v :: PersistentNum(ks, FormatKey(PlaytimeKeyPrefix, v)) ==> PersistentNum(after, FormatKey(PlaytimeKeyPrefix, v)))
    && (forall t :: PersistentNum(ks, FormatKey(TeamTotalPlaytimePrefix, t)) ==> PersistentNum(after, FormatKey(TeamTotalPlaytimePrefix, t)))
  }

  lemma ReadyKept(ks: Store, after: Store, uuids: seq<string>, team: map<string, string>, delta: map<string, real>)
    requires Ready(ks, uuids, team, delta) && Unchanged(ks, after)
    ensures Ready(after, uuids, team, delta)
  {
  }

  lemma UnchangedTransitive(a: Store, b: Store, c: Store)
    requires Unchanged(a, b) && Unchanged(b, c)
    ensures Unchanged(a, c)
  {
  }

  /**
   * One tick over distinct ready players (none failing): each player's playtime
   * grows by its delta, each team's total by the deltas of its listed members,
   * and team keys, delta keys and the persistence of counters are kept.
   */
  lemma {:induction false} TickEffect(ks: Store, uuids: seq<string>, now: int, team: map<string, string>, delta: map<string, real>)
    requires forall i, j :: 0 <= i < j < |uuids| ==> uuids[i] != uuids[j]
    requires Ready(ks, uuids, team, delta)
    ensures var after := Tick(ks, uuids, now, {});
      && Unchanged(ks, after)
      && (forall v :: Counter(after, FormatKey(PlaytimeKeyPrefix, v)) ==
                      Counter(ks, FormatKey(PlaytimeKeyPrefix, v)) + (if v in uuids then delta[v] else 0.0))
      && (forall t :: Counter(after, FormatKey(TeamTotalPlaytimePrefix, t)) ==
                      Counter(ks, FormatKey(TeamTotalPlaytimePrefix, t)) + TeamDelta(uuids, team, delta, t))
    decreases |uuids|
  {
    if uuids != [] {
      var u, rest := uuids[0], uuids[1..];
      var next := Accrual(ks, u, now, true).0;
      AccrualStep(ks, u, team[u], delta[u], now);
      assert Ready(next, rest, team, delta) by {
        assert Ready(ks, rest, team, delta);
        ReadyKept(ks, next, rest, team, delta);
      }
      assert forall i, j :: 0 <= i < j < |rest| ==> rest[i] != rest[j] by {
        forall i, j | 0 <= i < j < |rest|
          ensures rest[i] != rest[j]
        {
          assert rest[i] == uuids[i + 1] && rest[j] == uuids[j + 1];
        }
      }
      assert u !in rest;
      TickEffect(next, rest, now, team, delta);
      var after := Tick(ks, uuids, now, {});
      assert after == Tick(next, rest, now, {});
      UnchangedTransitive(ks, next, after);
      assert forall v :: v in uuids <==> v == u || v in rest;
    }
  }

  /** The store after a sequence of ticks at the given instants, over one online list. */
  function Ticks(ks: Store, uuids: seq<string>, times: seq<int>): Store
    decreases |times|
  {
    if times == [] then ks
    else Ticks(Tick(ks, uuids, times[0], {}), uuids, times[1..])
  }

  /** Repeated ticks keep every listed player ready. */
  lemma {:induction false} TicksKeepReady(ks: Store, uuids: seq<string>, times: seq<int>, team: map<string, string>, delta: map<string, real>)
    requires forall i, j :: 0 <= i < j < |uuids| ==> uuids[i] != uuids[j]
    requires Ready(ks, uuids, team, delta)
    ensures Ready(Ticks(ks, uuids, times), uuids, team, delta)
    decreases |times|
  {
    if times != [] {
      var next := Tick(ks, uuids, times[0], {});
      TickEffect(ks, uuids, times[0], team, delta);
      ReadyKept(ks, next, uuids, team, delta);
      TicksKeepReady(next, uuids, times[1..], team, delta);
    }
  }

  /** What one tick adds to a player's playtime: the delta of each listed occurrence of the player. */
  function PlayerDelta(uuids: seq<string>, delta: map<string, real>, v: string): real
    requires forall u :: u in uuids ==> u in delta
  {
    if uuids == [] then 0.0
    else (if uuids[0] == v then delta[uuids[0]] else 0.0) + PlayerDelta(uuids[1..], delta, v)
  }

  /** Over distinct players, that is the player's own delta when listed and 0 otherwise. */
  lemma {:induction false} PlayerDeltaOf(uuids: seq<string>, delta: map<string, real>, v: string)
    requires forall i, j :: 0 <= i < j < |uuids| ==> uuids[i] != uuids[j]
    requires forall u :: u in uuids ==> u in delta
    ensures PlayerDelta(uuids, delta, v) == if v in uuids then delta[v] else 0.0
    decreases |uuids|
  {
    if uuids != [] {
      var rest := uuids[1..];
      assert forall i, j :: 0 <= i < j < |rest| ==> rest[i] != rest[j] by {
        forall i, j | 0 <= i < j < |rest|
          ensures rest[i] != rest[j]
        {
          assert rest[i] == uuids[i + 1] && rest[j] == uuids[j + 1];
        }
      }
      PlayerDeltaOf(rest, delta, v);
      assert uuids[0] !in rest;
      assert v in uuids <==> v == uuids[0] || v in rest;
    }
  }

  /** One tick adds its delta to a listed player's playtime and keeps every listed player ready. */
  lemma TickPlayerStep(ks: Store, uuids: seq<string>, now: int, team: map<string, string>, delta: map<string, real>, v: string)
    requires forall i, j :: 0 <= i < j < |uuids| ==> uuids[i] != uuids[j]
    requires Ready(ks, uuids, team, delta)
    ensures Ready(Tick(ks, uuids, now, {}), uuids, team, delta)
    ensures Counter(Tick(ks, uuids, now, {}), FormatKey(PlaytimeKeyPrefix, v)) ==
            Counter(ks, FormatKey(PlaytimeKeyPrefix, v)) + PlayerDelta(uuids, delta, v)
  {
    TickEffect(ks, uuids, now, team, delta);
    ReadyKept(ks, Tick(ks, uuids, now, {}), uuids, team, delta);
    PlayerDeltaOf(uuids, delta, v);
  }

  /** One tick adds its members' deltas to a team's total and keeps every listed player ready. */
  lemma TickTeamStep(ks: Store, uuids: seq<string>, now: int, team: map<string, string>, delta: map<string, real>, t: string)
    requires forall i, j :: 0 <= i < j < |uuids| ==> uuids[i] != uuids[j]
    requires Ready(ks, uuids, team, delta)
    ensures Ready(Tick(ks, uuids, now, {}), uuids, team, delta)
    ensures Counter(Tick(ks, uuids, now, {}), FormatKey(TeamTotalPlaytimePrefix, t)) ==
            Counter(ks, FormatKey(TeamTotalPlaytimePrefix, t)) + TeamDelta(uuids, team, delta, t)
  {
    TickEffect(ks, uuids, now, team, delta);
    ReadyKept(ks, Tick(ks, uuids, now, {}), uuids, team, delta);
  }

  /** k ticks add k times its per-tick delta to a player's playtime. */
  lemma {:induction false} TicksPlayer(ks: Store, uuids: seq<string>, times: seq<int>, team: map<string, string>, delta: map<string, real>, v: string)
    requires forall i, j :: 0 <= i < j < |uuids| ==> uuids[i] != uuids[j]
    requires Ready(ks, uuids, team, delta)
    ensures Counter(Ticks(ks, uuids, times), FormatKey(PlaytimeKeyPrefix, v)) ==
            Counter(ks, FormatKey(PlaytimeKeyPrefix, v)) + Repeated(|times|, PlayerDelta(uuids, delta, v))
    decreases |times|
  {
    if times != [] {
      var next := Tick(ks, uuids, times[0], {});
      TickPlayerStep(ks, uuids, times[0], team, delta, v);
      TicksPlayer(next, uuids, times[1..], team, delta, v);
      RepeatedStep(|times|, PlayerDelta(uuids, delta, v));
    }
  }

  /** k ticks add k times the sum of its listed members' deltas to a team's total. */
  lemma {:induction false} TicksTeam(ks: Store, uuids: seq<string>, times: seq<int>, team: map<string, string>, delta: map<string, real>, t: string)
    requires forall i, j :: 0 <= i < j < |uuids| ==> uuids[i] != uuids[j]
    requires Ready(ks, uuids, team, delta)
    ensures Counter(Ticks(ks, uuids, times), FormatKey(TeamTotalPlaytimePrefix, t)) ==
            Counter(ks, FormatKey(TeamTotalPlaytimePrefix, t)) + Repeated(|times|, TeamDelta(uuids, team, delta, t))
    decreases |times|
  {
    if times != [] {
      var next := Tick(ks, uuids, times[0], {});
      TickTeamStep(ks, uuids, times[0], team, delta, t);
      TicksTeam(next, uuids, times[1..], team, delta, t);
      RepeatedStep(|times|, TeamDelta(uuids, team, delta, t));
    }
  }

  /** k additions of d, which is k·d (lemma RepeatedIsProduct). */
  function Repeated(k: nat, d: real): real {
    if k == 0 then 0.0 else d + Repeated(k - 1, d)
  }

  lemma RepeatedStep(k: nat, d: real)
    requires k > 0
    ensures Repeated(k, d) == d + Repeated(k - 1, d)
  {
  }

  lemma {:induction false} RepeatedIsProduct(k: nat, d: real)
    ensures Repeated(k, d) == (k as real) * d
  {
    if k > 0 {
      RepeatedIsProduct(k - 1, d);
      assert (k as real) * d == ((k - 1) as real) * d + d;
    }
  }

  /**
   * Over k ticks with a fixed online set of distinct ready players, a player
   * with delta d gains k·d, and a team gains k times the sum of its online
   * members' deltas.
   */
  lemma ManyTicks(ks: Store, uuids: seq<string>, times: seq<int>, team: map<string, string>, delta: map<string, real>)
    requires forall i, j :: 0 <= i < j < |uuids| ==> uuids[i] != uuids[j]
    requires Ready(ks, uuids, team, delta)
    ensures var after := Ticks(ks, uuids, times);
      && Ready(after, uuids, team, delta)
      && (forall v :: v in uuids ==>
            Counter(after, FormatKey(PlaytimeKeyPrefix, v)) == Counter(ks, FormatKey(PlaytimeKeyPrefix, v)) + Repeated(|times|, delta[v]))
      && (forall t :: Counter(after, FormatKey(TeamTotalPlaytimePrefix, t)) ==
                      Counter(ks, FormatKey(TeamTotalPlaytimePrefix, t)) + Repeated(|times|, TeamDelta(uuids, team, delta, t)))
  {
    TicksKeepReady(ks, uuids, times, team, delta);
    forall v | v in uuids
      ensures Counter(Ticks(ks, uuids, times), FormatKey(PlaytimeKeyPrefix, v)) ==
              Counter(ks, FormatKey(PlaytimeKeyPrefix, v)) + Repeated(|times|, delta[v])
    {
      TicksPlayer(ks, uuids, times, team, delta, v);
      PlayerDeltaOf(uuids, delta, v);
    }
    forall t
      ensures Counter(Ticks(ks, uuids, times), FormatKey(TeamTotalPlaytimePrefix, t)) ==
              Counter(ks, FormatKey(TeamTotalPlaytimePrefix, t)) + Repeated(|times|, TeamDelta(uuids, team, delta, t))
    {
      TicksTeam(ks, uuids, times, team, delta, t);
    }
  }

  class GameUpdater {
    const redisClient: RedisClient
    /** Stored for an ownership filter that the tick does not apply. */
    const registrar: Membership.ServiceRegistrar?

    constructor(redisClient: RedisClient, registrar: Membership.ServiceRegistrar?)
      ensures this.redisClient == redisClient && this.registrar == registrar
    {
      this.redisClient := redisClient;
      this.registrar := registrar;
    }

    /**
     * `performGameTick`: a scan error or an empty scan changes nothing;
     * otherwise one accrual per scanned UUID, in scan order, each failure logged
     * and skipped.
     */
    method PerformGameTick(onlineKeys: seq<string>, scanOk: bool, now: int, failing: set<string>)
      modifies redisClient
      ensures redisClient.entries == if scanOk then Tick(old(redisClient.entries), OnlineUUIDsOf(onlineKeys), now, failing)
                                     else old(redisClient.entries)
    {
      var scan := redisClient.GetAllOnlineUUIDs(onlineKeys, scanOk);
      if scan.Err? {
        return;
      }
      var onlineUUIDs := scan.value;
      if |onlineUUIDs| == 0 {
        return;
      }
      var i := 0;
      while i < |onlineUUIDs|
        invariant 0 <= i <= |onlineUUIDs|
        invariant Tick(redisClient.entries, onlineUUIDs[i..], now, failing) == Tick(old(redisClient.entries), onlineUUIDs, now, failing)
      {
        var uuid := onlineUUIDs[i];
        assert onlineUUIDs[i..][1..] == onlineUUIDs[i + 1..];
        var err := redisClient.IncrementPlayerPlaytime(uuid, now, uuid !in failing);
        i := i + 1;
      }
    }
  }
}
