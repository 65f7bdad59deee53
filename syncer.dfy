/**
 * The durable-sync step of go/game/syncer.go: the player service recomputes
 * the team totals, and each returned total overwrites the cached team total.
 */
module Syncer {
  import opened Wrappers
  import opened Keyspace
  import opened GameCache

  /** What the player-service call produced: a transport or status error, or a body whose `teamTotals` may be null. */
  datatype SyncCall = CallFailed | Responded(teamTotals: Option<map<string, real>>)

  /** Team-total keys are one per team id. */
  lemma TeamKeysInjective()
    ensures forall a, b :: FormatKey(TeamTotalPlaytimePrefix, a) == FormatKey(TeamTotalPlaytimePrefix, b) ==> a == b
  {
    forall a, b | FormatKey(TeamTotalPlaytimePrefix, a) == FormatKey(TeamTotalPlaytimePrefix, b)
      ensures a == b
    {
      FormatKeyInjective(TeamTotalPlaytimePrefix, a, b);
    }
  }

  /** The cache entries written for the given teams: each total as a number without expiry. */
  function Writes(totals: map<string, real>, teams: set<string>): map<string, Entry> {
    TeamKeysInjective();
    map t | t in teams && t in totals :: FormatKey(TeamTotalPlaytimePrefix, t) := Entry(Num(totals[t]), None)
  }

  /** The entry written for one team. */
  lemma WriteOf(totals: map<string, real>, teams: set<string>, t: string)
    requires t in teams && t in totals
    ensures FormatKey(TeamTotalPlaytimePrefix, t) in Writes(totals, teams)
    ensures Writes(totals, teams)[FormatKey(TeamTotalPlaytimePrefix, t)] == Entry(Num(totals[t]), None)
  {
    TeamKeysInjective();
  }

  /** Writing one more team extends the written entries by that team's key. */
  lemma WritesGrow(ks: Store, totals: map<string, real>, teams: set<string>, t: string)
    requires t in totals
    ensures (ks + Writes(totals, teams))[FormatKey(TeamTotalPlaytimePrefix, t) := Entry(Num(totals[t]), None)] ==
            ks + Writes(totals, teams + {t})
  {
    var lhs := (ks + Writes(totals, teams))[FormatKey(TeamTotalPlaytimePrefix, t) := Entry(Num(totals[t]), None)];
    var rhs := ks + Writes(totals, teams + {t});
    forall key
      ensures (key in lhs <==> key in rhs) && (key in lhs ==> lhs[key] == rhs[key])
    {
      WritesGrowAt(ks, totals, teams, t, key);
    }
  }

  /** `WritesGrow` at one key. */
  lemma WritesGrowAt(ks: Store, totals: map<string, real>, teams: set<string>, t: string, key: string)
    requires t in totals
    ensures var lhs := (ks + Writes(totals, teams))[FormatKey(TeamTotalPlaytimePrefix, t) := Entry(Num(totals[t]), None)];
      var rhs := ks + Writes(totals, teams + {t});
      (key in lhs <==> key in rhs) && (key in lhs ==> lhs[key] == rhs[key])
  {
    var k := FormatKey(TeamTotalPlaytimePrefix, t);
    if key == k {
      WriteOf(totals, teams + {t}, t);
    } else if key in Writes(totals, teams + {t}) {
      TeamKeysInjective();
      var u :| u in teams + {t} && u in totals && key == FormatKey(TeamTotalPlaytimePrefix, u);
      WriteOf(totals, teams, u);
      WriteOf(totals, teams + {t}, u);
    } else {
      assert key !in Writes(totals, teams);
    }
  }

  /** One pass of the write loop: a successful write extends the writes by its team, a failed one changes nothing. */
  lemma SyncStep(ks: Store, totals: map<string, real>, remaining: set<string>, failing: set<string>, t: string)
    requires t in remaining && remaining <= totals.Keys
    ensures t !in failing ==> SetNoExpiry(Synced(ks, totals, failing + remaining), FormatKey(TeamTotalPlaytimePrefix, t), Num(totals[t]))
                              == Synced(ks, totals, failing + (remaining - {t}))
    ensures t in failing ==> Synced(ks, totals, failing + remaining) == Synced(ks, totals, failing + (remaining - {t}))
  {
    var done := totals.Keys - (failing + remaining);
    if t !in failing {
      assert totals.Keys - (failing + (remaining - {t})) == done + {t};
      WritesGrow(ks, totals, done, t);
    } else {
      assert failing + (remaining - {t}) == failing + remaining;
    }
  }

  /** A sync in which every write fails leaves the cache as it was. */
  lemma SyncNothing(ks: Store, totals: map<string, real>, failing: set<string>)
    ensures Synced(ks, totals, failing + totals.Keys) == ks
  {
    assert totals.Keys - (failing + totals.Keys) == {};
    assert Writes(totals, {}) == map[];
  }

  /** The cache after a sync whose writes for the teams in `failing` fail. */
  function Synced(ks: Store, totals: map<string, real>, failing: set<string>): (r: Store)
    ensures ks.Keys <= r.Keys
    ensures forall k :: !CounterKey(k) ==> (k in r <==> k in ks) && (k in ks ==> r[k] == ks[k])
  {
    WritesAreTotals(totals, totals.Keys - failing);
    ks + Writes(totals, totals.Keys - failing)
  }

  /** Every key a sync writes is a team total. */
  lemma WritesAreTotals(totals: map<string, real>, teams: set<string>)
    ensures forall k :: k in Writes(totals, teams) ==> CounterKey(k)
  {
    forall k | k in Writes(totals, teams)
      ensures CounterKey(k)
    {
      var t :| t in teams && t in totals && k == FormatKey(TeamTotalPlaytimePrefix, t);
      FormatKeyHead(TeamTotalPlaytimePrefix, t);
    }
  }

  /**
   * Every returned team whose write succeeds holds the returned total
   * afterwards, as a number that never expires, whatever it held before:
   * the sync overwrites rather than adds.
   */
  lemma SyncOverwrites(ks: Store, totals: map<string, real>, failing: set<string>, t: string, now: int)
    requires t in totals && t !in failing
    ensures Get(Synced(ks, totals, failing), FormatKey(TeamTotalPlaytimePrefix, t), now) == Some(Num(totals[t]))
    ensures Synced(ks, totals, failing)[FormatKey(TeamTotalPlaytimePrefix, t)].expiresAt == None
  {
    WriteOf(totals, totals.Keys - failing, t);
  }

  /** A stale cached total of 12.0 becomes 15.0 when the service returns 15.0. */
  lemma StaleTotalReplaced(t: string, now: int)
    ensures var k := FormatKey(TeamTotalPlaytimePrefix, t);
      Get(Synced(map[k := Entry(Num(12.0), None)], map[t := 15.0], {}), k, now) == Some(Num(15.0))
  {
    SyncOverwrites(map[FormatKey(TeamTotalPlaytimePrefix, t) := Entry(Num(12.0), None)], map[t := 15.0], {}, t, now);
  }

  /**
   * Any key other than the total of a returned team whose write succeeded is
   * untouched: absent teams, teams whose write failed, and every other key.
   */
  lemma SyncTouchesOnlyWrittenTeams(ks: Store, totals: map<string, real>, failing: set<string>, k: string)
    requires forall t :: t in totals && t !in failing ==> k != FormatKey(TeamTotalPlaytimePrefix, t)
    ensures (k in Synced(ks, totals, failing)) == (k in ks)
    ensures k in ks ==> Synced(ks, totals, failing)[k] == ks[k]
  {
    assert k !in Writes(totals, totals.Keys - failing);
  }

  /**
   * Running the sync twice with the same response gives the cache of one run
   * in which only the writes that failed both times are missing; with no
   * failures the second run changes nothing.
   */
  lemma SyncTwice(ks: Store, totals: map<string, real>, failing1: set<string>, failing2: set<string>)
    ensures Synced(Synced(ks, totals, failing1), totals, failing2) == Synced(ks, totals, failing1 * failing2)
  {
    var w1, w2 := Writes(totals, totals.Keys - failing1), Writes(totals, totals.Keys - failing2);
    var w := Writes(totals, totals.Keys - failing1 * failing2);
    assert w1 + w2 == w;
    assert ks + w1 + w2 == ks + (w1 + w2);
  }

  /** The idempotence of a fault-free sync, as the corollary of SyncTwice. */
  lemma SyncIdempotent(ks: Store, totals: map<string, real>)
    ensures Synced(Synced(ks, totals, {}), totals, {}) == Synced(ks, totals, {})
  {
    SyncTwice(ks, totals, {}, {});
  }

  class PlaytimeSyncer {
    const redisClient: RedisClient

    constructor(redisClient: RedisClient)
      ensures this.redisClient == redisClient
    {
      this.redisClient := redisClient;
    }

    /**
     * `triggerPlayerServiceSync`: a failed call or a null map leaves the cache
     * as it was; otherwise every returned team's total is written in some
     * order, a failed write being logged and skipped.
     */
    method TriggerPlayerServiceSync(call: SyncCall, failing: set<string>)
      modifies redisClient
      ensures redisClient.entries ==
                if call.Responded? && call.teamTotals.Some? then Synced(old(redisClient.entries), call.teamTotals.value, failing)
                else old(redisClient.entries)
    {
      if call.CallFailed? {
        return;
      }
      if call.teamTotals.None? {
        return;
      }
      var totals := call.teamTotals.value;
      var remaining := totals.Keys;
      SyncNothing(redisClient.entries, totals, failing);
      while remaining != {}
        invariant remaining <= totals.Keys
        invariant redisClient.entries == Synced(old(redisClient.entries), totals, failing + remaining)
        decreases |remaining|
      {
        var teamId :| teamId in remaining;
        var err := redisClient.SetTeamTotal(teamId, totals[teamId], teamId !in failing);
        SyncStep(old(redisClient.entries), totals, remaining, failing, teamId);
        remaining := remaining - {teamId};
      }
      assert failing + remaining == failing;
    }
  }
}
