/**
 * `SyncTeamTotalsHandler` of go/player/teamhandlers.go: the player
 * documents are grouped by team with their totals summed, each team's
 * document gets that sum by overwrite (inserted if missing), and the
 * response maps every team whose write succeeded to its sum.
 */
module TeamSync {
  import opened Wrappers
  import opened PlayerData
  import opened TeamData

  const StatusOK := 200
  const StatusInternalServerError := 500

  /** The sum of `total_playtime_ticks` over the documents whose team is `t`. */
  function TeamSum(docs: seq<Player>, t: string): (sum: real)
    ensures (forall i :: 0 <= i < |docs| ==> docs[i].totalPlaytimeTicks >= 0.0) ==> sum >= 0.0
  {
    if docs == [] then 0.0
    else (if docs[0].team == t then docs[0].totalPlaytimeTicks else 0.0) + TeamSum(docs[1..], t)
  }

  /** Adding one document adds its ticks to its own team's sum only. */
  lemma {:induction false} TeamSumAppend(docs: seq<Player>, p: Player, t: string)
    ensures TeamSum(docs + [p], t) == TeamSum(docs, t) + (if p.team == t then p.totalPlaytimeTicks else 0.0)
  {
    if docs != [] {
      assert (docs + [p])[1..] == docs[1..] + [p];
      TeamSumAppend(docs[1..], p, t);
    }
  }

  /** A team no document belongs to sums to 0. */
  lemma {:induction false} TeamSumAbsent(docs: seq<Player>, t: string)
    requires t !in TeamsOf(docs)
    ensures TeamSum(docs, t) == 0.0
  {
    if docs != [] {
      TeamSumAbsent(docs[1..], t);
    }
  }

  /** The teams the documents belong to. */
  function TeamsOf(docs: seq<Player>): set<string> {
    set p | p in docs :: p.team
  }

  /** The `_id`s of the `$group` stage: each team of some document, once. */
  function GroupTeams(docs: seq<Player>): (ts: seq<string>)
    ensures forall i, j :: 0 <= i < j < |ts| ==> ts[i] != ts[j]
    ensures forall t :: t in ts <==> t in TeamsOf(docs)
  {
    if docs == [] then []
    else
      var rest := GroupTeams(docs[1..]);
      assert TeamsOf(docs) == {docs[0].team} + TeamsOf(docs[1..]) by {
        assert forall p :: p in docs <==> p == docs[0] || p in docs[1..];
      }
      if docs[0].team in rest then rest else [docs[0].team] + rest
  }

  /** Whether team `t` has a row that decodes and a write that succeeds. */
  predicate Written(t: string, undecodable: set<string>, failing: set<string>) {
    t !in undecodable && t !in failing
  }

  /** The document a row's upsert leaves: the total overwritten, or a new document with only the total. */
  function Upserted(teams: map<string, TeamDoc>, t: string, total: real, now: int): TeamDoc {
    if t in teams then teams[t].(totalPlaytimeTicks := total, lastUpdated := Some(now))
    else TeamDoc(0, total, None, Some(now))
  }

  /** The documents written by the rows of the first teams `ts`. */
  function Upserts(teams: map<string, TeamDoc>, docs: seq<Player>, ts: seq<string>, undecodable: set<string>, failing: set<string>, now: int): (r: map<string, TeamDoc>)
    ensures forall t :: t in r ==> r[t].totalPlaytimeTicks == TeamSum(docs, t) && r[t].lastUpdated == Some(now)
    ensures forall t :: t in r ==> r[t].playerCount == (if t in teams then teams[t].playerCount else 0)
    ensures forall t :: t in r ==> r[t].createdAt == (if t in teams then teams[t].createdAt else None)
  {
    map t | t in ts && Written(t, undecodable, failing) :: Upserted(teams, t, TeamSum(docs, t), now)
  }

  /** The response map of the team rows `ts`. */
  function Response(docs: seq<Player>, ts: seq<string>, undecodable: set<string>, failing: set<string>): (r: map<string, real>)
    ensures (forall i :: 0 <= i < |docs| ==> docs[i].totalPlaytimeTicks >= 0.0) ==> forall t :: t in r ==> r[t] >= 0.0
    ensures forall t :: t in r && t !in TeamsOf(docs) ==> r[t] == 0.0
  {
    forall t | t !in TeamsOf(docs) {
      TeamSumAbsent(docs, t);
    }
    map t | t in ts && Written(t, undecodable, failing) :: TeamSum(docs, t)
  }

  /** One more row: a written team adds its document, any other row adds nothing. */
  lemma UpsertsStep(teams: map<string, TeamDoc>, docs: seq<Player>, ts: seq<string>, t: string, undecodable: set<string>, failing: set<string>, now: int)
    requires t !in ts
    ensures var before, after := Upserts(teams, docs, ts, undecodable, failing, now), Upserts(teams, docs, ts + [t], undecodable, failing, now);
      if Written(t, undecodable, failing) then (teams + before)[t := Upserted(teams, t, TeamSum(docs, t), now)] == teams + after
      else after == before
  {
    var before, after := Upserts(teams, docs, ts, undecodable, failing, now), Upserts(teams, docs, ts + [t], undecodable, failing, now);
    assert forall u :: u in ts + [t] <==> u in ts || u == t;
    if Written(t, undecodable, failing) {
      assert after.Keys == before.Keys + {t};
      var lhs := (teams + before)[t := Upserted(teams, t, TeamSum(docs, t), now)];
      assert lhs.Keys == (teams + after).Keys;
      forall u | u in lhs ensures lhs[u] == (teams + after)[u] {
        if u != t && u in before {
          assert after[u] == before[u];
        }
      }
    } else {
      assert after.Keys == before.Keys;
    }
  }

  lemma ResponseStep(docs: seq<Player>, ts: seq<string>, t: string, undecodable: set<string>, failing: set<string>)
    requires t !in ts
    ensures var before, after := Response(docs, ts, undecodable, failing), Response(docs, ts + [t], undecodable, failing);
      if Written(t, undecodable, failing) then before[t := TeamSum(docs, t)] == after else after == before
  {
    var before, after := Response(docs, ts, undecodable, failing), Response(docs, ts + [t], undecodable, failing);
    assert forall u :: u in ts + [t] <==> u in ts || u == t;
    if Written(t, undecodable, failing) {
      assert after.Keys == before.Keys + {t};
    } else {
      assert after.Keys == before.Keys;
    }
  }

  /**
   * The response holds a team iff some player belongs to it and its row
   * decoded and its write succeeded, and the value is that team's sum.
   */
  lemma ResponseMeaning(docs: seq<Player>, undecodable: set<string>, failing: set<string>, t: string)
    ensures var resp := Response(docs, GroupTeams(docs), undecodable, failing);
      && (t in resp <==> t in TeamsOf(docs) && t !in undecodable && t !in failing)
      && (t in resp ==> resp[t] == TeamSum(docs, t))
  {
  }

  /**
   * After the sync, each written team's document holds its sum, keeps its
   * player count (0 for a document the sync inserted), and every other
   * document is as it was.
   */
  lemma UpsertMeaning(teams: map<string, TeamDoc>, docs: seq<Player>, undecodable: set<string>, failing: set<string>, now: int, t: string)
    ensures var after := teams + Upserts(teams, docs, GroupTeams(docs), undecodable, failing, now);
      && after.Keys >= teams.Keys
      && (t in TeamsOf(docs) && Written(t, undecodable, failing) ==>
            && t in after && after[t].totalPlaytimeTicks == TeamSum(docs, t)
            && after[t].playerCount == (if t in teams then teams[t].playerCount else 0))
      && (t !in TeamsOf(docs) || !Written(t, undecodable, failing) ==>
            (t in after <==> t in teams) && (t in teams ==> after[t] == teams[t]))
  {
  }

  /**
   * Running the sync again over the same players leaves the same team
   * documents, up to the last-update time, and gives the same response.
   */
  lemma SyncAgain(teams: map<string, TeamDoc>, docs: seq<Player>, undecodable: set<string>, failing: set<string>, t1: int, t2: int)
    ensures var ts := GroupTeams(docs);
      var once := teams + Upserts(teams, docs, ts, undecodable, failing, t1);
      var twice := once + Upserts(once, docs, ts, undecodable, failing, t2);
      && twice.Keys == once.Keys
      && (forall t :: t in once ==> twice[t].(lastUpdated := None) == once[t].(lastUpdated := None))
      && (t1 == t2 ==> twice == once)
  {
    var ts := GroupTeams(docs);
    SyncAgainKeys(teams, docs, ts, undecodable, failing, t1, t2);
    SyncAgainKept(teams, docs, ts, undecodable, failing, t1, t2);
    if t1 == t2 {
      SyncAgainSame(teams, docs, ts, undecodable, failing, t1);
    }
  }

  /** A second sync adds no team document. */
  lemma SyncAgainKeys(teams: map<string, TeamDoc>, docs: seq<Player>, ts: seq<string>, undecodable: set<string>, failing: set<string>, t1: int, t2: int)
    ensures var once := teams + Upserts(teams, docs, ts, undecodable, failing, t1);
      (once + Upserts(once, docs, ts, undecodable, failing, t2)).Keys == once.Keys
  {
    forall t {
      SyncAgainAt(teams, docs, ts, undecodable, failing, t1, t2, t);
    }
  }

  /** A second sync changes no document beyond its last-update time. */
  lemma SyncAgainKept(teams: map<string, TeamDoc>, docs: seq<Player>, ts: seq<string>, undecodable: set<string>, failing: set<string>, t1: int, t2: int)
    ensures var once := teams + Upserts(teams, docs, ts, undecodable, failing, t1);
      var twice := once + Upserts(once, docs, ts, undecodable, failing, t2);
      forall t :: t in once ==> t in twice && twice[t].(lastUpdated := None) == once[t].(lastUpdated := None)
  {
    forall t {
      SyncAgainAt(teams, docs, ts, undecodable, failing, t1, t2, t);
    }
  }

  /** A second sync at the same instant changes nothing. */
  lemma SyncAgainSame(teams: map<string, TeamDoc>, docs: seq<Player>, ts: seq<string>, undecodable: set<string>, failing: set<string>, now: int)
    ensures var once := teams + Upserts(teams, docs, ts, undecodable, failing, now);
      once + Upserts(once, docs, ts, undecodable, failing, now) == once
  {
    forall t {
      SyncAgainAt(teams, docs, ts, undecodable, failing, now, now, t);
    }
  }

  /** `SyncAgain` at one team. */
  lemma SyncAgainAt(teams: map<string, TeamDoc>, docs: seq<Player>, ts: seq<string>, undecodable: set<string>, failing: set<string>, t1: int, t2: int, t: string)
    ensures var once := teams + Upserts(teams, docs, ts, undecodable, failing, t1);
      var twice := once + Upserts(once, docs, ts, undecodable, failing, t2);
      && (t in twice <==> t in once)
      && (t in once ==> twice[t].(lastUpdated := None) == once[t].(lastUpdated := None))
      && (t1 == t2 && t in once ==> twice[t] == once[t])
  {
  }

  /**
   * The team rows the cursor delivers: all of them, or, when fetching a
   * later batch fails after `n` rows, only the first `n`.
   */
  function Delivered(rows: seq<string>, cursorFailsAfter: Option<nat>): (d: seq<string>)
    ensures |d| <= |rows| && d == rows[..|d|]
    ensures cursorFailsAfter.None? ==> d == rows
    ensures cursorFailsAfter.Some? && cursorFailsAfter.value < |rows| ==> |d| == cursorFailsAfter.value
  {
    if cursorFailsAfter.None? || cursorFailsAfter.value >= |rows| then rows else rows[..cursorFailsAfter.value]
  }

  /**
   * A cursor that fails part way answers a sub-map of the full response:
   * every team it reports carries the value the full run would report.
   */
  lemma PartialResponse(docs: seq<Player>, ts: seq<string>, n: nat, undecodable: set<string>, failing: set<string>)
    requires n <= |ts|
    ensures var part, full := Response(docs, ts[..n], undecodable, failing), Response(docs, ts, undecodable, failing);
      part.Keys <= full.Keys && forall t :: t in part ==> part[t] == full[t]
  {
    var part, full := Response(docs, ts[..n], undecodable, failing), Response(docs, ts, undecodable, failing);
    forall t | t in part ensures t in full && part[t] == full[t] {
      assert t in ts[..n];
    }
  }

  /**
   * A cursor that fails part way writes a subset of the full run's team
   * documents, each as the full run writes it.
   */
  lemma PartialUpserts(teams: map<string, TeamDoc>, docs: seq<Player>, ts: seq<string>, n: nat, undecodable: set<string>, failing: set<string>, now: int)
    requires n <= |ts|
    ensures var part, full := Upserts(teams, docs, ts[..n], undecodable, failing, now), Upserts(teams, docs, ts, undecodable, failing, now);
      part.Keys <= full.Keys && forall t :: t in part ==> part[t] == full[t]
  {
    var part, full := Upserts(teams, docs, ts[..n], undecodable, failing, now), Upserts(teams, docs, ts, undecodable, failing, now);
    forall t | t in part ensures t in full && part[t] == full[t] {
      assert t in ts[..n];
    }
  }

  /**
   * When the cursor does not fail, the row order does not matter: any two
   * row lists holding the same teams give the same response and the same
   * team documents.
   */
  lemma RowOrderFree(teams: map<string, TeamDoc>, docs: seq<Player>, ts1: seq<string>, ts2: seq<string>, undecodable: set<string>, failing: set<string>, now: int)
    requires forall t :: t in ts1 <==> t in ts2
    ensures Response(docs, ts1, undecodable, failing) == Response(docs, ts2, undecodable, failing)
    ensures Upserts(teams, docs, ts1, undecodable, failing, now) == Upserts(teams, docs, ts2, undecodable, failing, now)
  {
  }

  class TeamService {
    const teamStore: TeamStore

    constructor(teamStore: TeamStore)
      ensures this.teamStore == teamStore
    {
      this.teamStore := teamStore;
    }

    /**
     * A failed aggregation answers 500 and writes nothing. Otherwise every
     * team row is processed in turn: an undecodable row and a failed upsert
     * are logged and skipped, and the answer is 200 with the map of the
     * teams written. A cursor that fails after `cursorFailsAfter` rows ends
     * the loop there; the error is only logged and the answer is still 200,
     * with the teams written so far.
     */
    method SyncTeamTotalsHandler(docs: seq<Player>, aggregationOk: bool, cursorFailsAfter: Option<nat>, undecodable: set<string>, failing: set<string>, now: int)
      returns (status: int, teamTotals: map<string, real>)
      modifies teamStore
      ensures !aggregationOk ==> status == StatusInternalServerError && teamTotals == map[] && teamStore.teams == old(teamStore.teams)
      ensures aggregationOk ==> && status == StatusOK
                                && teamTotals == Response(docs, Delivered(GroupTeams(docs), cursorFailsAfter), undecodable, failing)
                                && teamStore.teams == old(teamStore.teams) + Upserts(old(teamStore.teams), docs, Delivered(GroupTeams(docs), cursorFailsAfter), undecodable, failing, now)
    {
      if !aggregationOk {
        return StatusInternalServerError, map[];
      }
      var rows := GroupTeams(docs);
      var n := |Delivered(rows, cursorFailsAfter)|;
      teamTotals := map[];
      var i := 0;
      while i < n
        invariant 0 <= i <= n <= |rows|
        invariant teamTotals == Response(docs, rows[..i], undecodable, failing)
        invariant teamStore.teams == old(teamStore.teams) + Upserts(old(teamStore.teams), docs, rows[..i], undecodable, failing, now)
      {
        var teamId, calculatedTotal := rows[i], TeamSum(docs, rows[i]);
        assert rows[..i + 1] == rows[..i] + [teamId];
        assert teamId !in rows[..i];
        UpsertsStep(old(teamStore.teams), docs, rows[..i], teamId, undecodable, failing, now);
        ResponseStep(docs, rows[..i], teamId, undecodable, failing);
        if teamId in undecodable {
          i := i + 1;
          continue;
        }
        if teamId !in failing {
          assert teamId !in Upserts(old(teamStore.teams), docs, rows[..i], undecodable, failing, now);
          var written := if teamId in teamStore.teams then teamStore.teams[teamId].(totalPlaytimeTicks := calculatedTotal, lastUpdated := Some(now))
                         else TeamDoc(0, calculatedTotal, None, Some(now));
          teamStore.teams := teamStore.teams[teamId := written];
          teamTotals := teamTotals[teamId := calculatedTotal];
        }
        i := i + 1;
      }
      assert rows[..i] == Delivered(rows, cursorFailsAfter);
      return StatusOK, teamTotals;
    }
  }
}
