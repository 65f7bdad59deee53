/**
 * The BSON documents behind go/player/datastore.go. `models.Player` carries
 * no bson tags, so the driver's default struct codec stores each field under
 * its Go name lower-cased, and `InsertOne` adds a generated ObjectID `_id`.
 * The filters and updates of the datastore name `_id` and snake_case fields
 * instead. Both namings are modelled: `DriverNames` is what the code writes
 * and reads, `QueryNames` is what the updates evidently expect.
 */
module PlayerDocs {
  import opened Wrappers
  import opened PlayerData

  /** The BSON values the player documents hold. */
  datatype Bson =
    | Str(s: string)
    | Dbl(x: real)
    | Bool(b: bool)
    | Time(ms: int)
    | Null
    | Names(names: seq<string>)
    | ObjectId(n: nat)

  /**
   * The document keys the player collection sees: `_id`, the lower-cased Go
   * field names the struct codec writes, and the snake_case names of the
   * filters and updates. `username`, `team` and `banned` are spelt the same
   * both ways.
   */
  datatype Key =
    | Id | Uuid | Username | Team | Banned
    | LowerTotalPlaytimeTicks | LowerDeltaPlaytimeTicks | LowerBanExpiresAt | LowerActiveBoosters | LowerLastLoginAt | LowerCreatedAt
    | SnakeTotalPlaytimeTicks | SnakeDeltaPlaytimeTicks | SnakeBanExpiresAt | SnakeActiveBoosters | SnakeLastLoginAt | SnakeCreatedAt

  /** The key as the document spells it. */
  function Name(k: Key): string {
    match k
    case Id => "_id"
    case Uuid => "uuid"
    case Username => "username"
    case Team => "team"
    case Banned => "banned"
    case LowerTotalPlaytimeTicks => "totalplaytimeticks"
    case LowerDeltaPlaytimeTicks => "deltaplaytimeticks"
    case LowerBanExpiresAt => "banexpiresat"
    case LowerActiveBoosters => "activeboosters"
    case LowerLastLoginAt => "lastloginat"
    case LowerCreatedAt => "createdat"
    case SnakeTotalPlaytimeTicks => "total_playtime_ticks"
    case SnakeDeltaPlaytimeTicks => "delta_playtime_ticks"
    case SnakeBanExpiresAt => "ban_expires_at"
    case SnakeActiveBoosters => "active_boosters"
    case SnakeLastLoginAt => "last_login_at"
    case SnakeCreatedAt => "created_at"
  }

  type Doc = map<Key, Bson>

  /** The document key of each `models.Player` field. */
  datatype FieldNames = FieldNames(
    uuid: Key,
    username: Key,
    team: Key,
    total: Key,
    delta: Key,
    banned: Key,
    banExpiresAt: Key,
    boosters: Key,
    lastLoginAt: Key,
    createdAt: Key)

  /** The default struct codec: the Go field name, lower-cased. */
  const DriverNames := FieldNames(Uuid, Username, Team, LowerTotalPlaytimeTicks, LowerDeltaPlaytimeTicks,
                                  Banned, LowerBanExpiresAt, LowerActiveBoosters, LowerLastLoginAt, LowerCreatedAt)

  /**
   * The names the filters and `$set`/`$setOnInsert` documents use; no query
   * names the boosters, which get the same snake_case form.
   */
  const QueryNames := FieldNames(Id, Username, Team, SnakeTotalPlaytimeTicks, SnakeDeltaPlaytimeTicks,
                                 Banned, SnakeBanExpiresAt, SnakeActiveBoosters, SnakeLastLoginAt, SnakeCreatedAt)

  /** A `*time.Time`: a date-time, or null for a nil pointer. */
  function TimeOrNull(t: Option<int>): Bson {
    if t.Some? then Time(t.value) else Null
  }

  /** The document the struct codec writes for a player under the naming `k`. */
  function Encode(k: FieldNames, p: Player): Doc {
    map[k.uuid := Str(p.uuid), k.username := Str(p.username), k.team := Str(p.team),
        k.total := Dbl(p.totalPlaytimeTicks), k.delta := Dbl(p.deltaPlaytimeTicks),
        k.banned := Bool(p.banned), k.banExpiresAt := TimeOrNull(p.banExpiresAt),
        k.boosters := Names(p.activeBoosters), k.lastLoginAt := TimeOrNull(p.lastLoginAt),
        k.createdAt := TimeOrNull(p.createdAt)]
  }

  function StrAt(d: Doc, key: Key): string {
    if key in d && d[key].Str? then d[key].s else ""
  }

  function DblAt(d: Doc, key: Key): real {
    if key in d && d[key].Dbl? then d[key].x else 0.0
  }

  function BoolAt(d: Doc, key: Key): bool {
    key in d && d[key].Bool? && d[key].b
  }

  function TimeAt(d: Doc, key: Key): Option<int> {
    if key in d && d[key].Time? then Some(d[key].ms) else None
  }

  function NamesAt(d: Doc, key: Key): seq<string> {
    if key in d && d[key].Names? then d[key].names else []
  }

  /**
   * Decoding into `models.Player` under the naming `k`: each field from its
   * key, and the Go zero value (empty, 0, false, nil) when the key is absent.
   * Keys of no field are ignored.
   */
  function Decode(k: FieldNames, d: Doc): Player {
    Player(StrAt(d, k.uuid), StrAt(d, k.username), StrAt(d, k.team), DblAt(d, k.total), DblAt(d, k.delta),
           BoolAt(d, k.banned), TimeAt(d, k.banExpiresAt), NamesAt(d, k.boosters), TimeAt(d, k.lastLoginAt),
           TimeAt(d, k.createdAt))
  }

  /** Whether a document's `_id` is `id`. */
  predicate HasId(d: Doc, id: Bson) {
    Id in d && d[Id] == id
  }

  /** The position of the first document whose `_id` is `id`, -1 when there is none. */
  function Find(coll: seq<Doc>, id: Bson): (i: int)
    ensures -1 <= i < |coll|
    ensures i == -1 <==> forall j :: 0 <= j < |coll| ==> !HasId(coll[j], id)
    ensures i >= 0 ==> HasId(coll[i], id) && forall j :: 0 <= j < i ==> !HasId(coll[j], id)
    decreases |coll|
  {
    if coll == [] then -1
    else if HasId(coll[0], id) then 0
    else
      var r := Find(coll[1..], id);
      assert forall j :: 1 <= j < |coll| ==> coll[j] == coll[1..][j - 1];
      if r == -1 then -1 else r + 1
  }

  /** A document appended without the id leaves every lookup of that id where it was. */
  lemma {:induction false} FindAppendMiss(coll: seq<Doc>, d: Doc, id: Bson)
    requires !HasId(d, id)
    ensures Find(coll + [d], id) == Find(coll, id)
    decreases |coll|
  {
    if coll != [] && !HasId(coll[0], id) {
      assert (coll + [d])[1..] == coll[1..] + [d];
      FindAppendMiss(coll[1..], d, id);
    }
  }

  /** A document appended with a new id is the one found for it. */
  lemma {:induction false} FindAppendHit(coll: seq<Doc>, d: Doc, id: Bson)
    requires HasId(d, id) && Find(coll, id) == -1
    ensures Find(coll + [d], id) == |coll|
    decreases |coll|
  {
    if coll != [] {
      assert (coll + [d])[1..] == coll[1..] + [d];
      FindAppendHit(coll[1..], d, id);
    }
  }

  /** `FindOne({_id: uuid})` decoded: the first match, or the no-documents error. */
  function FindOne(coll: seq<Doc>, uuid: string): (r: Result<Doc, StoreError>)
    ensures r.Ok? <==> Find(coll, Str(uuid)) != -1
    ensures r.Ok? ==> r.value == coll[Find(coll, Str(uuid))]
    ensures r.Err? ==> r.error == NoDocuments
  {
    var i := Find(coll, Str(uuid));
    if i == -1 then Err(NoDocuments) else Ok(coll[i])
  }

  /**
   * `UpdateOne({_id: uuid}, {$set: SetOf(u)})`: the first match takes the
   * fields of the `$set` document (`WithSet`, which `WithSetIsMerge` shows is
   * that merge); with no match nothing changes. The flag is `MatchedCount > 0`.
   */
  function UpdateOne(coll: seq<Doc>, uuid: string, u: PlayerUpdate): (r: (seq<Doc>, bool))
    ensures r.1 <==> Find(coll, Str(uuid)) != -1
    ensures |r.0| == |coll|
    ensures !r.1 ==> r.0 == coll
    ensures r.1 ==> r.0 == coll[Find(coll, Str(uuid)) := WithSet(coll[Find(coll, Str(uuid))], u)]
  {
    var i := Find(coll, Str(uuid));
    if i == -1 then (coll, false) else (coll[i := WithSet(coll[i], u)], true)
  }

  /**
   * The login upsert of `GetOrCreatePlayer`: with no match a new document is
   * appended (`FirstLoginDoc`, which `FirstLoginDocIsUpserted` shows is the
   * filter's `_id`, then the `$setOnInsert` fields, then the `$set` fields);
   * otherwise the match takes the new login time. The flag is
   * `UpsertedID != nil`.
   */
  function UpsertLogin(coll: seq<Doc>, uuid: string, team: string, now: int): (r: (seq<Doc>, bool))
    ensures r.1 <==> Find(coll, Str(uuid)) == -1
    ensures r.1 ==> r.0 == coll + [FirstLoginDoc(uuid, team, now)]
    ensures !r.1 ==> r.0 == UpdateOne(coll, uuid, SetLastLogin(now)).0
  {
    var i := Find(coll, Str(uuid));
    if i == -1 then (coll + [FirstLoginDoc(uuid, team, now)], true)
    else (coll[i := WithSet(coll[i], SetLastLogin(now))], false)
  }

  /**
   * `InsertOne`: a document without `_id` is given the generated ObjectID
   * `oid`; an `_id` already in the collection is a duplicate-key error (the
   * only unique index, as the source creates no other).
   */
  function InsertOne(coll: seq<Doc>, d: Doc, oid: nat): (r: (seq<Doc>, bool))
    ensures var id := if Id in d then d[Id] else ObjectId(oid);
      && (r.1 <==> Find(coll, id) == -1)
      && (r.1 ==> r.0 == coll + [d[Id := id]])
      && (!r.1 ==> r.0 == coll)
  {
    var id := if Id in d then d[Id] else ObjectId(oid);
    if Find(coll, id) == -1 then (coll + [d[Id := id]], true) else (coll, false)
  }

  /** The `$set` document of each update method, with the field names the source writes. */
  function SetOf(u: PlayerUpdate): Doc {
    match u
    case SetUsername(name) => map[Username := Str(name)]
    case SetPlaytime(total) => map[SnakeTotalPlaytimeTicks := Dbl(total)]
    case SetDeltaPlaytime(delta) => map[SnakeDeltaPlaytimeTicks := Dbl(delta)]
    case SetBanStatus(banned, expiresAt) => map[Banned := Bool(banned), SnakeBanExpiresAt := TimeOrNull(expiresAt)]
    case SetLastLogin(at) => map[SnakeLastLoginAt := Time(at)]
  }

  /** The `$setOnInsert` document of the login upsert. */
  function OnInsert(team: string, now: int): Doc {
    map[Username := Str(""), Team := Str(team), SnakeTotalPlaytimeTicks := Dbl(0.0),
        SnakeDeltaPlaytimeTicks := Dbl(0.0), Banned := Bool(false), SnakeCreatedAt := Time(now)]
  }

  /** The document the login upsert inserts for a new player, written out. */
  function FirstLoginDoc(uuid: string, team: string, now: int): Doc {
    map[Id := Str(uuid), Username := Str(""), Team := Str(team), SnakeTotalPlaytimeTicks := Dbl(0.0),
        SnakeDeltaPlaytimeTicks := Dbl(0.0), Banned := Bool(false), SnakeCreatedAt := Time(now), SnakeLastLoginAt := Time(now)]
  }

  /** It is the filter's `_id`, then the `$setOnInsert` fields, then the `$set` fields. */
  lemma FirstLoginDocIsUpserted(uuid: string, team: string, now: int)
    ensures map[Id := Str(uuid)] + OnInsert(team, now) + SetOf(SetLastLogin(now)) == FirstLoginDoc(uuid, team, now)
  {
  }

  /** A document after the `$set` of `u`, written as map updates. */
  function WithSet(d: Doc, u: PlayerUpdate): Doc {
    match u
    case SetUsername(name) => d[Username := Str(name)]
    case SetPlaytime(total) => d[SnakeTotalPlaytimeTicks := Dbl(total)]
    case SetDeltaPlaytime(delta) => d[SnakeDeltaPlaytimeTicks := Dbl(delta)]
    case SetBanStatus(banned, expiresAt) => d[Banned := Bool(banned)][SnakeBanExpiresAt := TimeOrNull(expiresAt)]
    case SetLastLogin(at) => d[SnakeLastLoginAt := Time(at)]
  }

  /** Merging the `$set` document is those updates. */
  lemma WithSetIsMerge(d: Doc, u: PlayerUpdate)
    ensures d + SetOf(u) == WithSet(d, u)
  {
  }

  /** `CreatePlayer` under the naming `k`: the stamped player encoded and inserted. */
  function CreatePlayerIn(k: FieldNames, coll: seq<Doc>, p: Player, now: int, oid: nat): (r: (seq<Doc>, Outcome<StoreError>))
    ensures r.1.Pass? <==> InsertOne(coll, Encode(k, StampCreatedAt(p, now)), oid).1
    ensures r.1.Fail? ==> r == (coll, Fail(AlreadyExists(p.uuid)))
  {
    var ins := InsertOne(coll, Encode(k, StampCreatedAt(p, now)), oid);
    if ins.1 then (ins.0, Pass) else (coll, Fail(AlreadyExists(p.uuid)))
  }

  /** `GetPlayerByUUID` under the naming `k`. */
  function GetPlayerIn(k: FieldNames, coll: seq<Doc>, uuid: string): (r: Result<Player, StoreError>)
    ensures r.Ok? <==> Find(coll, Str(uuid)) != -1
    ensures r.Ok? ==> r.value == Decode(k, coll[Find(coll, Str(uuid))])
  {
    var f := FindOne(coll, uuid);
    if f.Ok? then Ok(Decode(k, f.value)) else Err(f.error)
  }

  /** An update method: the `$set` of `u`, not-found when no document has the id. */
  function UpdateIn(coll: seq<Doc>, uuid: string, u: PlayerUpdate): (r: (seq<Doc>, Outcome<StoreError>))
    ensures r.1 == Pass <==> Find(coll, Str(uuid)) != -1
    ensures r.1.Fail? ==> r == (coll, Fail(NotFound(uuid)))
  {
    var upd := UpdateOne(coll, uuid, u);
    if upd.1 then (upd.0, Pass) else (coll, Fail(NotFound(uuid)))
  }

  /** `GetOrCreatePlayer` under the naming `k`: the login upsert, then the fetch. */
  function LoginIn(k: FieldNames, coll: seq<Doc>, uuid: string, team: string, now: int): (r: (seq<Doc>, Result<(Player, bool), StoreError>))
    ensures r.0 == UpsertLogin(coll, uuid, team, now).0
    ensures r.1.Ok? ==> (r.1.value.1 <==> Find(coll, Str(uuid)) == -1)
  {
    var up := UpsertLogin(coll, uuid, team, now);
    var got := GetPlayerIn(k, up.0, uuid);
    (up.0, if got.Ok? then Ok((got.value, up.1)) else Err(got.error))
  }

  /** A first login appends the upserted document and reads it back as a new player. */
  lemma LoginNew(k: FieldNames, coll: seq<Doc>, uuid: string, team: string, now: int)
    requires Find(coll, Str(uuid)) == -1
    ensures LoginIn(k, coll, uuid, team, now)
      == (coll + [FirstLoginDoc(uuid, team, now)], Ok((Decode(k, FirstLoginDoc(uuid, team, now)), true)))
  {
    FindAppendHit(coll, FirstLoginDoc(uuid, team, now), Str(uuid));
  }

  /** An update of the newest document, the only one with its id, changes it in place. */
  lemma UpdateNewest(coll: seq<Doc>, d: Doc, uuid: string, u: PlayerUpdate)
    requires Find(coll, Str(uuid)) == -1 && HasId(d, Str(uuid))
    ensures UpdateIn(coll + [d], uuid, u) == (coll + [WithSet(d, u)], Pass)
  {
    FindAppendHit(coll, d, Str(uuid));
    assert (coll + [d])[|coll| := WithSet(d, u)] == coll + [WithSet(d, u)];
  }

  /** The newest document, the only one with its id, is what a lookup of it reads. */
  lemma ReadNewest(k: FieldNames, coll: seq<Doc>, d: Doc, uuid: string)
    requires Find(coll, Str(uuid)) == -1 && HasId(d, Str(uuid))
    ensures GetPlayerIn(k, coll + [d], uuid) == Ok(Decode(k, d))
  {
    FindAppendHit(coll, d, Str(uuid));
  }

  /** No `$set` touches `_id`. */
  lemma WithSetKeepsId(d: Doc, u: PlayerUpdate, id: Bson)
    ensures HasId(WithSet(d, u), id) <==> HasId(d, id)
  {
  }

  // ----- As written: the driver's names -----

  /**
   * A player inserted by `CreatePlayer` gets an ObjectID `_id`, so no lookup
   * by UUID ever finds it, and inserting the same UUID again succeeds.
   */
  lemma DriverInsertUnfindable(coll: seq<Doc>, p: Player, now: int, oid: nat, uuid: string)
    requires Find(coll, ObjectId(oid)) == -1
    ensures var r := CreatePlayerIn(DriverNames, coll, p, now, oid);
      && r.1 == Pass
      && GetPlayerIn(DriverNames, r.0, uuid) == GetPlayerIn(DriverNames, coll, uuid)
  {
    var d := Encode(DriverNames, StampCreatedAt(p, now));
    assert Id !in d;
    FindAppendMiss(coll, d[Id := ObjectId(oid)], Str(uuid));
  }

  /** Creating the same player twice stores two documents, and neither is found by its UUID. */
  lemma DriverCreateTwice(p: Player, now: int)
    ensures var once := CreatePlayerIn(DriverNames, [], p, now, 0);
      var twice := CreatePlayerIn(DriverNames, once.0, p, now, 1);
      && once.1 == Pass && twice.1 == Pass && |twice.0| == 2
      && GetPlayerIn(DriverNames, twice.0, p.uuid) == Err(NoDocuments)
  {
    var d := Encode(DriverNames, StampCreatedAt(p, now));
    assert Id !in d;
    var once := CreatePlayerIn(DriverNames, [], p, now, 0);
    assert once.0 == [d[Id := ObjectId(0)]];
    assert !HasId(once.0[0], ObjectId(1));
    assert Find(once.0, ObjectId(1)) == -1;
    DriverInsertUnfindable(once.0, p, now, 1, p.uuid);
  }

  /**
   * Under the driver's names an update of the playtime, the delta, the ban
   * expiry or the last login is never read back; only the username and the
   * ban flag are.
   */
  lemma DriverUpdateUnread(d: Doc, u: PlayerUpdate)
    ensures var p, q := Decode(DriverNames, d), Decode(DriverNames, WithSet(d, u));
      match u
      case SetUsername(name) => q == Apply(p, u)
      case SetBanStatus(banned, _) => q == p.(banned := banned)
      case _ => q == p
  {
    match u
    case SetUsername(name) => DriverUsernameRead(d, name);
    case SetPlaytime(total) => DriverKeyUnread(d, SnakeTotalPlaytimeTicks, Dbl(total));
    case SetDeltaPlaytime(delta) => DriverKeyUnread(d, SnakeDeltaPlaytimeTicks, Dbl(delta));
    case SetBanStatus(banned, expiresAt) =>
      DriverBannedRead(d, banned);
      DriverKeyUnread(d[Banned := Bool(banned)], SnakeBanExpiresAt, TimeOrNull(expiresAt));
    case SetLastLogin(at) => DriverKeyUnread(d, SnakeLastLoginAt, Time(at));
  }

  /** The snake_case keys are not among the driver's names, so setting one changes nothing read. */
  lemma DriverKeyUnread(d: Doc, key: Key, v: Bson)
    requires key.SnakeTotalPlaytimeTicks? || key.SnakeDeltaPlaytimeTicks? || key.SnakeBanExpiresAt? || key.SnakeLastLoginAt?
    ensures Decode(DriverNames, d[key := v]) == Decode(DriverNames, d)
  {
  }

  lemma DriverUsernameRead(d: Doc, name: string)
    ensures Decode(DriverNames, d[Username := Str(name)]) == Decode(DriverNames, d).(username := name)
  {
  }

  lemma DriverBannedRead(d: Doc, banned: bool)
    ensures Decode(DriverNames, d[Banned := Bool(banned)]) == Decode(DriverNames, d).(banned := banned)
  {
  }

  /** Under the driver's names that document decodes without its UUID, playtimes' keys or times. */
  lemma DriverFirstLogin(uuid: string, team: string, now: int)
    ensures Decode(DriverNames, FirstLoginDoc(uuid, team, now)) == Player("", "", team, 0.0, 0.0, false, None, [], None, None)
  {
  }

  /**
   * A player made by the login upsert reads back with an empty UUID, zero
   * playtimes and no times, and a total pushed afterwards still reads 0.
   */
  lemma DriverPushedTotalLost(coll: seq<Doc>, uuid: string, team: string, now: int, total: real)
    requires Find(coll, Str(uuid)) == -1
    ensures var login := LoginIn(DriverNames, coll, uuid, team, now);
      var push := UpdateIn(login.0, uuid, SetPlaytime(total));
      && login.1 == Ok((Player("", "", team, 0.0, 0.0, false, None, [], None, None), true))
      && push.1 == Pass
      && GetPlayerIn(DriverNames, push.0, uuid) == Ok(Player("", "", team, 0.0, 0.0, false, None, [], None, None))
  {
    LoginNew(DriverNames, coll, uuid, team, now);
    DriverFirstLogin(uuid, team, now);
    UpdateNewest(coll, FirstLoginDoc(uuid, team, now), uuid, SetPlaytime(total));
    WithSetKeepsId(FirstLoginDoc(uuid, team, now), SetPlaytime(total), Str(uuid));
    ReadNewest(DriverNames, coll, WithSet(FirstLoginDoc(uuid, team, now), SetPlaytime(total)), uuid);
    DriverUpdateUnread(FirstLoginDoc(uuid, team, now), SetPlaytime(total));
  }

  // ----- Corrected: the names the queries use -----

  /** Under the query names, decoding an encoded player gives it back. */
  lemma QueryRoundTrip(p: Player)
    ensures Decode(QueryNames, Encode(QueryNames, p)) == p
  {
  }

  /** Under the query names, every `$set` is read back as exactly the update's fields. */
  lemma QuerySetApplies(d: Doc, u: PlayerUpdate)
    ensures Decode(QueryNames, WithSet(d, u)) == Apply(Decode(QueryNames, d), u)
  {
    match u
    case SetUsername(name) => QueryUsernameRead(d, name);
    case SetPlaytime(total) => QueryTotalRead(d, total);
    case SetDeltaPlaytime(delta) => QueryDeltaRead(d, delta);
    case SetBanStatus(banned, expiresAt) => QueryBanRead(d, banned, expiresAt);
    case SetLastLogin(at) => QueryLastLoginRead(d, at);
  }

  lemma QueryUsernameRead(d: Doc, name: string)
    ensures Decode(QueryNames, d[Username := Str(name)]) == Decode(QueryNames, d).(username := name)
  {
  }

  lemma QueryTotalRead(d: Doc, total: real)
    ensures Decode(QueryNames, d[SnakeTotalPlaytimeTicks := Dbl(total)]) == Decode(QueryNames, d).(totalPlaytimeTicks := total)
  {
  }

  lemma QueryDeltaRead(d: Doc, delta: real)
    ensures Decode(QueryNames, d[SnakeDeltaPlaytimeTicks := Dbl(delta)]) == Decode(QueryNames, d).(deltaPlaytimeTicks := delta)
  {
  }

  lemma QueryBanRead(d: Doc, banned: bool, expiresAt: Option<int>)
    ensures Decode(QueryNames, d[Banned := Bool(banned)][SnakeBanExpiresAt := TimeOrNull(expiresAt)])
         == Decode(QueryNames, d).(banned := banned, banExpiresAt := expiresAt)
  {
  }

  lemma QueryLastLoginRead(d: Doc, at: int)
    ensures Decode(QueryNames, d[SnakeLastLoginAt := Time(at)]) == Decode(QueryNames, d).(lastLoginAt := Some(at))
  {
  }

  /** Under the query names, the document of a first login reads back as `NewPlayer`. */
  lemma QueryNewPlayer(uuid: string, team: string, now: int)
    ensures Decode(QueryNames, FirstLoginDoc(uuid, team, now)) == NewPlayer(uuid, team, now)
  {
  }

  /**
   * Under the query names, `CreatePlayer` refuses a UUID already stored and
   * otherwise stores the stamped player where a lookup by its UUID finds it.
   */
  lemma QueryCreate(coll: seq<Doc>, p: Player, now: int, oid: nat)
    ensures var r := CreatePlayerIn(QueryNames, coll, p, now, oid);
      && (Find(coll, Str(p.uuid)) != -1 ==> r == (coll, Fail(AlreadyExists(p.uuid))))
      && (Find(coll, Str(p.uuid)) == -1 ==> r.1 == Pass && GetPlayerIn(QueryNames, r.0, p.uuid) == Ok(StampCreatedAt(p, now)))
  {
    var q := StampCreatedAt(p, now);
    var d := Encode(QueryNames, q);
    assert Id in d && d[Id] == Str(p.uuid);
    assert d[Id := d[Id]] == d;
    if Find(coll, Str(p.uuid)) == -1 {
      FindAppendHit(coll, d, Str(p.uuid));
      QueryRoundTrip(q);
    }
  }

  /** Under the query names, a first login followed by a pushed total reads that total back. */
  lemma QueryPushedTotalRead(coll: seq<Doc>, uuid: string, team: string, now: int, total: real)
    requires Find(coll, Str(uuid)) == -1
    ensures var login := LoginIn(QueryNames, coll, uuid, team, now);
      var push := UpdateIn(login.0, uuid, SetPlaytime(total));
      && login.1 == Ok((NewPlayer(uuid, team, now), true))
      && push.1 == Pass
      && GetPlayerIn(QueryNames, push.0, uuid) == Ok(NewPlayer(uuid, team, now).(totalPlaytimeTicks := total))
  {
    LoginNew(QueryNames, coll, uuid, team, now);
    QueryNewPlayer(uuid, team, now);
    UpdateNewest(coll, FirstLoginDoc(uuid, team, now), uuid, SetPlaytime(total));
    WithSetKeepsId(FirstLoginDoc(uuid, team, now), SetPlaytime(total), Str(uuid));
    ReadNewest(QueryNames, coll, WithSet(FirstLoginDoc(uuid, team, now), SetPlaytime(total)), uuid);
    QuerySetApplies(FirstLoginDoc(uuid, team, now), SetPlaytime(total));
  }

  /** Distinct keys are spelt differently, so the key datatype loses nothing. */
  lemma NameInjective(k: Key, j: Key)
    requires Name(k) == Name(j)
    ensures k == j
  {
  }
}
