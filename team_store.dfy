/**
 * The durable team table of go/player/teamstore.go: one document per team
 * name holding a player count and a total playtime, created by an upsert
 * that sets fields only on insert, and changed by `$inc` updates that report
 * a missing team.
 */
module TeamData {
  import opened Wrappers

  /**
   * A team document. A field the document lacks decodes as zero, so an
   * absent `player_count` is 0; the creation time is absent on documents that
   * the totals sync inserted.
   */
  datatype TeamDoc = TeamDoc(playerCount: int, totalPlaytimeTicks: real, createdAt: Option<int>, lastUpdated: Option<int>)

  datatype TeamError = NotFound(team: string) | Unavailable

  /** The document `EnsureTeamsExist` inserts for a missing team. */
  function FreshTeam(now: int): TeamDoc {
    TeamDoc(0, 0.0, Some(now), Some(now))
  }

  /**
   * `EnsureTeamsExist` on a list of names: one upsert per name in order, the
   * first failing upsert ending the pass with an error.
   */
  function Ensure(teams: map<string, TeamDoc>, names: seq<string>, now: int, failing: set<string>): (r: (map<string, TeamDoc>, Outcome<TeamError>))
    ensures r.1.Fail? ==> r.1 == Fail(Unavailable)
    ensures teams.Keys <= r.0.Keys
    ensures forall n :: n in teams ==> r.0[n] == teams[n]
    decreases |names|
  {
    if names == [] then (teams, Pass)
    else if names[0] in failing then (teams, Fail(Unavailable))
    else
      var n := names[0];
      Ensure(if n in teams then teams else teams[n := FreshTeam(now)], names[1..], now, failing)
  }

  /**
   * The effect of `EnsureTeamsExist`: existing teams are untouched, only
   * listed names are added, each as a fresh team, and a pass that succeeds
   * leaves every listed name present; it fails iff some listed name fails.
   */
  lemma {:induction false} EnsureEffect(teams: map<string, TeamDoc>, names: seq<string>, now: int, failing: set<string>)
    ensures var (after, r) := Ensure(teams, names, now, failing);
      && teams.Keys <= after.Keys
      && (forall n :: n in teams ==> after[n] == teams[n])
      && (forall n :: n in after && n !in teams ==> n in names && after[n] == FreshTeam(now))
      && (r.Pass? <==> (forall n :: n in names ==> n !in failing))
      && (r.Pass? ==> forall n :: n in names ==> n in after)
    decreases |names|
  {
    if names != [] {
      var n := names[0];
      var next := if n in teams then teams else teams[n := FreshTeam(now)];
      if n !in failing {
        EnsureEffect(next, names[1..], now, failing);
        assert forall m :: m in names <==> m == n || m in names[1..];
      }
    }
  }

  /** Once every listed team exists, a fault-free pass at any later time changes nothing. */
  lemma {:induction false} EnsureIdempotent(teams: map<string, TeamDoc>, names: seq<string>, later: int)
    requires forall n :: n in names ==> n in teams
    ensures Ensure(teams, names, later, {}) == (teams, Pass)
    decreases |names|
  {
    if names != [] {
      EnsureIdempotent(teams, names[1..], later);
    }
  }

  /** The `$inc` of a player count or of a total, with `last_updated` set; a missing team is not found. */
  function IncCount(teams: map<string, TeamDoc>, name: string, delta: int, now: int): (r: (map<string, TeamDoc>, Outcome<TeamError>))
    ensures name !in teams ==> r == (teams, Fail(NotFound(name)))
    ensures name in teams ==> && r.1 == Pass && r.0.Keys == teams.Keys
                              && r.0[name] == teams[name].(playerCount := teams[name].playerCount + delta, lastUpdated := Some(now))
    ensures forall n :: n in teams && n != name ==> r.0[n] == teams[n]
  {
    if name in teams then (teams[name := teams[name].(playerCount := teams[name].playerCount + delta, lastUpdated := Some(now))], Pass)
    else (teams, Fail(NotFound(name)))
  }

  function IncTotal(teams: map<string, TeamDoc>, name: string, delta: real, now: int): (r: (map<string, TeamDoc>, Outcome<TeamError>))
    ensures name !in teams ==> r == (teams, Fail(NotFound(name)))
    ensures name in teams ==> && r.1 == Pass && r.0.Keys == teams.Keys
                              && r.0[name] == teams[name].(totalPlaytimeTicks := teams[name].totalPlaytimeTicks + delta, lastUpdated := Some(now))
    ensures forall n :: n in teams && n != name ==> r.0[n] == teams[n]
  {
    if name in teams then (teams[name := teams[name].(totalPlaytimeTicks := teams[name].totalPlaytimeTicks + delta, lastUpdated := Some(now))], Pass)
    else (teams, Fail(NotFound(name)))
  }

  /**
   * An increment followed by a decrement restores the player count, and
   * every other field except the last-update time; the count has no lower
   * bound, so a decrement below zero goes negative.
   */
  lemma IncDecRestores(teams: map<string, TeamDoc>, name: string, t1: int, t2: int)
    requires name in teams
    ensures var after := IncCount(IncCount(teams, name, 1, t1).0, name, -1, t2).0;
      after == teams[name := teams[name].(lastUpdated := Some(t2))]
  {
    var once := IncCount(teams, name, 1, t1).0;
    var twice := IncCount(once, name, -1, t2).0;
    assert twice[name] == teams[name].(lastUpdated := Some(t2));
  }

  /** Two total updates add up: the total is incremented, never overwritten. */
  lemma TotalsAccumulate(teams: map<string, TeamDoc>, name: string, a: real, b: real, t1: int, t2: int)
    requires name in teams
    ensures var after := IncTotal(IncTotal(teams, name, a, t1).0, name, b, t2).0;
      after[name].totalPlaytimeTicks == teams[name].totalPlaytimeTicks + a + b
  {
  }

  class TeamStore {
    /** The teams collection, by team name. */
    var teams: map<string, TeamDoc>

    constructor(initial: map<string, TeamDoc>)
      ensures teams == initial
    {
      teams := initial;
    }

    /** `EnsureTeamsExist`: one `$setOnInsert` upsert per name, stopping at the first error. */
    method EnsureTeamsExist(names: seq<string>, now: int, failing: set<string>) returns (r: Outcome<TeamError>)
      modifies this
      ensures (teams, r) == Ensure(old(teams), names, now, failing)
    {
      var i := 0;
      while i < |names|
        invariant 0 <= i <= |names|
        invariant Ensure(teams, names[i..], now, failing) == Ensure(old(teams), names, now, failing)
      {
        var teamName := names[i];
        assert names[i..][1..] == names[i + 1..];
        if teamName in failing {
          return Fail(Unavailable);
        }
        if teamName !in teams {
          teams := teams[teamName := FreshTeam(now)];
        }
        i := i + 1;
      }
      return Pass;
    }

    /** `GetTeamPlayerCount`: a missing team counts 0 players, without error. */
    method GetTeamPlayerCount(name: string, reachable: bool) returns (r: Result<int, TeamError>)
      ensures !reachable ==> r == Err(Unavailable)
      ensures reachable ==> r == Ok(if name in teams then teams[name].playerCount else 0)
    {
      if !reachable {
        return Err(Unavailable);
      }
      if name !in teams {
        return Ok(0);
      }
      return Ok(teams[name].playerCount);
    }

    method IncrementTeamPlayerCount(name: string, now: int, reachable: bool) returns (r: Outcome<TeamError>)
      modifies this
      ensures !reachable ==> teams == old(teams) && r == Fail(Unavailable)
      ensures reachable ==> (teams, r) == IncCount(old(teams), name, 1, now)
    {
      if !reachable {
        return Fail(Unavailable);
      }
      if name !in teams {
        return Fail(NotFound(name));
      }
      teams := teams[name := teams[name].(playerCount := teams[name].playerCount + 1, lastUpdated := Some(now))];
      return Pass;
    }

    method DecrementTeamPlayerCount(name: string, now: int, reachable: bool) returns (r: Outcome<TeamError>)
      modifies this
      ensures !reachable ==> teams == old(teams) && r == Fail(Unavailable)
      ensures reachable ==> (teams, r) == IncCount(old(teams), name, -1, now)
    {
      if !reachable {
        return Fail(Unavailable);
      }
      if name !in teams {
        return Fail(NotFound(name));
      }
      teams := teams[name := teams[name].(playerCount := teams[name].playerCount - 1, lastUpdated := Some(now))];
      return Pass;
    }

    /** `UpdateTeamTotalPlaytime`: adds the increment to the stored total. */
    method UpdateTeamTotalPlaytime(name: string, increment: real, now: int, reachable: bool) returns (r: Outcome<TeamError>)
      modifies this
      ensures !reachable ==> teams == old(teams) && r == Fail(Unavailable)
      ensures reachable ==> (teams, r) == IncTotal(old(teams), name, increment, now)
    {
      if !reachable {
        return Fail(Unavailable);
      }
      if name !in teams {
        return Fail(NotFound(name));
      }
      teams := teams[name := teams[name].(totalPlaytimeTicks := teams[name].totalPlaytimeTicks + increment, lastUpdated := Some(now))];
      return Pass;
    }
  }
}
