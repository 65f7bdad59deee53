/**
 * The durable player table of go/player/datastore.go: one document per player
 * UUID, created by an insert or by a login upsert, and changed one field
 * group at a time by `$set` updates that report a missing player.
 */
module PlayerData {
  import opened Wrappers

  /** The two teams a new player can be assigned to. */
  const Teams: seq<string> := ["AQUA_CREEPERS", "PURPLE_SWORDERS"]

  /**
   * models.Player; every time is in milliseconds and a nil pointer is None.
   * Boosters are kept as a plain list of names, as nothing here reads them.
   */
  datatype Player = Player(
    uuid: string,
    username: string,
    team: string,
    totalPlaytimeTicks: real,
    deltaPlaytimeTicks: real,
    banned: bool,
    banExpiresAt: Option<int>,
    activeBoosters: seq<string>,
    lastLoginAt: Option<int>,
    createdAt: Option<int>)

  datatype StoreError =
    | AlreadyExists(uuid: string)
    | NotFound(uuid: string)
    | NoDocuments
    | Unavailable

  /** One `$set` of the update methods; each names its own fields. */
  datatype PlayerUpdate =
    | SetUsername(username: string)
    | SetPlaytime(total: real)
    | SetDeltaPlaytime(delta: real)
    | SetBanStatus(banned: bool, expiresAt: Option<int>)
    | SetLastLogin(at: int)

  /** The document after a `$set`: exactly the update's fields take its values. */
  function Apply(p: Player, u: PlayerUpdate): Player {
    match u
    case SetUsername(name) => p.(username := name)
    case SetPlaytime(total) => p.(totalPlaytimeTicks := total)
    case SetDeltaPlaytime(delta) => p.(deltaPlaytimeTicks := delta)
    case SetBanStatus(banned, expiresAt) => p.(banned := banned, banExpiresAt := expiresAt)
    case SetLastLogin(at) => p.(lastLoginAt := Some(at))
  }

  /** A field changes only under the update that names it. */
  lemma UpdateTouchesOwnFields(p: Player, u: PlayerUpdate)
    ensures var q := Apply(p, u);
      && q.uuid == p.uuid && q.team == p.team && q.createdAt == p.createdAt && q.activeBoosters == p.activeBoosters
      && (q.username != p.username ==> u.SetUsername?)
      && (q.totalPlaytimeTicks != p.totalPlaytimeTicks ==> u.SetPlaytime?)
      && (q.deltaPlaytimeTicks != p.deltaPlaytimeTicks ==> u.SetDeltaPlaytime?)
      && (q.banned != p.banned || q.banExpiresAt != p.banExpiresAt ==> u.SetBanStatus?)
      && (q.lastLoginAt != p.lastLoginAt ==> u.SetLastLogin?)
  {
  }

  /** Whether two updates write a common field. */
  predicate SameFields(u: PlayerUpdate, v: PlayerUpdate) {
    (u.SetUsername? && v.SetUsername?) || (u.SetPlaytime? && v.SetPlaytime?) ||
    (u.SetDeltaPlaytime? && v.SetDeltaPlaytime?) || (u.SetBanStatus? && v.SetBanStatus?) ||
    (u.SetLastLogin? && v.SetLastLogin?)
  }

  /** Updates of different fields commute, and of the same fields the later one wins. */
  lemma UpdatesCompose(p: Player, u: PlayerUpdate, v: PlayerUpdate)
    ensures !SameFields(u, v) ==> Apply(Apply(p, u), v) == Apply(Apply(p, v), u)
    ensures SameFields(u, v) ==> Apply(Apply(p, u), v) == Apply(p, v)
  {
  }

  /**
   * An `UpdateOne` without upsert: a missing player is reported as not found
   * with the table unchanged; otherwise only that player's document changes.
   */
  function UpdateDoc(players: map<string, Player>, uuid: string, u: PlayerUpdate): (r: (map<string, Player>, Outcome<StoreError>))
    ensures uuid !in players ==> r == (players, Fail(NotFound(uuid)))
    ensures uuid in players ==> r.1 == Pass && r.0.Keys == players.Keys && r.0[uuid] == Apply(players[uuid], u)
    ensures forall v :: v in players && v != uuid ==> v in r.0 && r.0[v] == players[v]
  {
    if uuid in players then (players[uuid := Apply(players[uuid], u)], Pass)
    else (players, Fail(NotFound(uuid)))
  }

  /** The document inserted by the upsert of a first login (`$setOnInsert` plus `$set`). */
  function NewPlayer(uuid: string, team: string, now: int): (p: Player)
    ensures p.uuid == uuid && p.username == "" && p.team == team
    ensures p.totalPlaytimeTicks == 0.0 && p.deltaPlaytimeTicks == 0.0 && !p.banned && p.banExpiresAt.None?
    ensures p.createdAt == Some(now) && p.lastLoginAt == Some(now)
  {
    Player(uuid, "", team, 0.0, 0.0, false, None, [], Some(now), Some(now))
  }

  /**
   * The upsert of `GetOrCreatePlayer`: an existing player gets only a new
   * last-login time; a new one is inserted with the team at `teamIndex`.
   */
  function LoginUpsert(players: map<string, Player>, uuid: string, teamIndex: nat, now: int): (r: (map<string, Player>, bool))
    requires teamIndex < |Teams|
    ensures r.1 <==> uuid !in players
    ensures r.0.Keys == players.Keys + {uuid}
    ensures uuid in players ==> r.0[uuid] == players[uuid].(lastLoginAt := Some(now))
    ensures uuid !in players ==> r.0[uuid] == NewPlayer(uuid, Teams[teamIndex], now) && r.0[uuid].team in Teams
    ensures forall v :: v in players && v != uuid ==> r.0[v] == players[v]
  {
    if uuid in players then (UpdateDoc(players, uuid, SetLastLogin(now)).0, false)
    else (players[uuid := NewPlayer(uuid, Teams[teamIndex], now)], true)
  }

  /** A second login upsert only moves the last-login time again and reports no creation. */
  lemma LoginTwice(players: map<string, Player>, uuid: string, i: nat, j: nat, t1: int, t2: int)
    requires i < |Teams| && j < |Teams|
    ensures var once := LoginUpsert(players, uuid, i, t1).0;
      && !LoginUpsert(once, uuid, j, t2).1
      && LoginUpsert(once, uuid, j, t2).0 == once[uuid := once[uuid].(lastLoginAt := Some(t2))]
  {
  }

  /** `CreatePlayer` stamps the creation time only when it is nil or the zero time. */
  function StampCreatedAt(p: Player, now: int): (q: Player)
    ensures q == p.(createdAt := q.createdAt)
    ensures q.createdAt == if p.createdAt.None? || p.createdAt == Some(ZeroTimeMillis) then Some(now) else p.createdAt
  {
    if p.createdAt.None? || p.createdAt.value == ZeroTimeMillis then p.(createdAt := Some(now)) else p
  }

  class PlayerStore {
    /** The players collection, by UUID. */
    var players: map<string, Player>

    ghost predicate Valid()
      reads this
    {
      forall u :: u in players ==> players[u].uuid == u
    }

    constructor(initial: map<string, Player>)
      ensures players == initial
    {
      players := initial;
    }

    /**
     * `CreatePlayer`: the given document, creation time stamped, is returned
     * (the source mutates it in place) and inserted unless its UUID is taken.
     */
    method CreatePlayer(player: Player, now: int, reachable: bool) returns (stamped: Player, r: Outcome<StoreError>)
      modifies this
      ensures stamped == StampCreatedAt(player, now)
      ensures r == if !reachable then Fail(Unavailable)
                   else if player.uuid in old(players) then Fail(AlreadyExists(player.uuid))
                   else Pass
      ensures players == if r.Pass? then old(players)[player.uuid := stamped] else old(players)
      ensures old(Valid()) ==> Valid()
    {
      stamped := player;
      if stamped.createdAt.None? || stamped.createdAt.value == ZeroTimeMillis {
        stamped := stamped.(createdAt := Some(now));
      }
      if !reachable {
        return stamped, Fail(Unavailable);
      }
      if stamped.uuid in players {
        return stamped, Fail(AlreadyExists(stamped.uuid));
      }
      players := players[stamped.uuid := stamped];
      return stamped, Pass;
    }

    /** `GetPlayerByUUID`: the stored document, or the driver's no-documents error. */
    method GetPlayerByUUID(uuid: string, reachable: bool) returns (r: Result<Player, StoreError>)
      ensures !reachable ==> r == Err(Unavailable)
      ensures reachable ==> (r.Ok? <==> uuid in players)
      ensures reachable && uuid in players ==> r.value == players[uuid]
      ensures reachable && uuid !in players ==> r == Err(NoDocuments)
      ensures Valid() && r.Ok? ==> r.value.uuid == uuid
    {
      if !reachable {
        return Err(Unavailable);
      }
      if uuid !in players {
        return Err(NoDocuments);
      }
      return Ok(players[uuid]);
    }

    /**
     * `GetOrCreatePlayer`: the login upsert, then a read of the document; a
     * failed read reports an error although the upsert has happened.
     * `teamIndex` is the value drawn by `rand.Intn(2)`.
     */
    method GetOrCreatePlayer(uuid: string, teamIndex: nat, now: int, upsertOk: bool, fetchOk: bool)
      returns (r: Result<(Player, bool), StoreError>)
      requires teamIndex < |Teams|
      modifies this
      ensures !upsertOk ==> players == old(players) && r == Err(Unavailable)
      ensures upsertOk ==> players == LoginUpsert(old(players), uuid, teamIndex, now).0
      ensures upsertOk && !fetchOk ==> r == Err(Unavailable)
      ensures upsertOk && fetchOk ==> r == Ok((players[uuid], LoginUpsert(old(players), uuid, teamIndex, now).1))
      ensures old(Valid()) ==> Valid()
      ensures old(Valid()) && r.Ok? ==> r.value.0.uuid == uuid
    {
      if !upsertOk {
        return Err(Unavailable);
      }
      var wasCreated := uuid !in players;
      if wasCreated {
        players := players[uuid := NewPlayer(uuid, Teams[teamIndex], now)];
      } else {
        players := players[uuid := players[uuid].(lastLoginAt := Some(now))];
      }
      if !fetchOk {
        return Err(Unavailable);
      }
      return Ok((players[uuid], wasCreated));
    }

    /** The shared shape of the five single-field updates. */
    method Update(uuid: string, u: PlayerUpdate, reachable: bool) returns (r: Outcome<StoreError>)
      modifies this
      ensures !reachable ==> players == old(players) && r == Fail(Unavailable)
      ensures reachable ==> (players, r) == UpdateDoc(old(players), uuid, u)
      ensures old(Valid()) ==> Valid()
    {
      if !reachable {
        return Fail(Unavailable);
      }
      if uuid !in players {
        return Fail(NotFound(uuid));
      }
      players := players[uuid := Apply(players[uuid], u)];
      return Pass;
    }

    method UpdatePlayerUsername(uuid: string, username: string, reachable: bool) returns (r: Outcome<StoreError>)
      modifies this
      ensures !reachable ==> players == old(players) && r == Fail(Unavailable)
      ensures reachable ==> (players, r) == UpdateDoc(old(players), uuid, SetUsername(username))
      ensures old(Valid()) ==> Valid()
    {
      r := Update(uuid, SetUsername(username), reachable);
    }

    method UpdatePlayerPlaytime(uuid: string, newTotalPlaytime: real, reachable: bool) returns (r: Outcome<StoreError>)
      modifies this
      ensures !reachable ==> players == old(players) && r == Fail(Unavailable)
      ensures reachable ==> (players, r) == UpdateDoc(old(players), uuid, SetPlaytime(newTotalPlaytime))
      ensures old(Valid()) ==> Valid()
    {
      r := Update(uuid, SetPlaytime(newTotalPlaytime), reachable);
    }

    method UpdatePlayerDeltaPlaytime(uuid: string, newDeltaPlaytime: real, reachable: bool) returns (r: Outcome<StoreError>)
      modifies this
      ensures !reachable ==> players == old(players) && r == Fail(Unavailable)
      ensures reachable ==> (players, r) == UpdateDoc(old(players), uuid, SetDeltaPlaytime(newDeltaPlaytime))
      ensures old(Valid()) ==> Valid()
    {
      r := Update(uuid, SetDeltaPlaytime(newDeltaPlaytime), reachable);
    }

    method UpdatePlayerBanStatus(uuid: string, banned: bool, expiresAt: Option<int>, reachable: bool) returns (r: Outcome<StoreError>)
      modifies this
      ensures !reachable ==> players == old(players) && r == Fail(Unavailable)
      ensures reachable ==> (players, r) == UpdateDoc(old(players), uuid, SetBanStatus(banned, expiresAt))
      ensures old(Valid()) ==> Valid()
    {
      r := Update(uuid, SetBanStatus(banned, expiresAt), reachable);
    }

    method UpdatePlayerLastLogin(uuid: string, now: int, reachable: bool) returns (r: Outcome<StoreError>)
      modifies this
      ensures !reachable ==> players == old(players) && r == Fail(Unavailable)
      ensures reachable ==> (players, r) == UpdateDoc(old(players), uuid, SetLastLogin(now))
      ensures old(Valid()) ==> Valid()
    {
      r := Update(uuid, SetLastLogin(now), reachable);
    }
  }
}
