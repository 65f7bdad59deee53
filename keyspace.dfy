/**
 * The key-value cache the game service writes to, as a value: every key holds a
 * string value and an optional expiry instant (milliseconds). A key whose expiry
 * has passed is invisible, as in the cache itself.
 *
 * A stored value is either numeric (`Num`, any string that parses as a float, such
 * as the text written for a float64 or an int64) or textual (`Text`, a string that
 * does not parse as a number, such as "true" or a team name).
 */
module Keyspace {
  import opened Wrappers

  datatype Value = Text(s: string) | Num(x: real)

  datatype Entry = Entry(value: Value, expiresAt: Option<int>)

  type Store = map<string, Entry>

  predicate Live(e: Entry, now: int) {
    e.expiresAt.None? || now < e.expiresAt.value
  }

  /** GET / EXISTS: the value of a live key, None for a missing or expired key. */
  function Get(ks: Store, key: string, now: int): (r: Option<Value>)
    ensures r.Some? <==> key in ks && Live(ks[key], now)
    ensures r.Some? ==> r.value == ks[key].value
  {
    if key in ks && Live(ks[key], now) then Some(ks[key].value) else None
  }

  /** SET with an expiration: a positive TTL sets an expiry, zero or less keeps none. */
  function Set(ks: Store, key: string, v: Value, ttl: int, now: int): (r: Store)
    ensures r.Keys == ks.Keys + {key}
    ensures r[key].value == v
    ensures r[key].expiresAt == if ttl > 0 then Some(now + ttl) else None
    ensures forall k :: k in ks && k != key ==> r[k] == ks[k]
  {
    ks[key := Entry(v, if ttl > 0 then Some(now + ttl) else None)]
  }

  /** SET with no expiration. */
  function SetNoExpiry(ks: Store, key: string, v: Value): (r: Store)
    ensures r == Set(ks, key, v, 0, 0)
  {
    ks[key := Entry(v, None)]
  }

  /** DEL of several keys at once. */
  function Del(ks: Store, keys: set<string>): (r: Store)
    ensures r.Keys == ks.Keys - keys
    ensures forall k :: k in r ==> r[k] == ks[k]
  {
    ks - keys
  }

  /** `strconv.ParseFloat` of the stored text. */
  function ParseFloat(v: Value): Option<real> {
    if v.Num? then Some(v.x) else None
  }

  /** `strconv.ParseInt(_, 10, 64)` of the stored text: only integral numbers parse. */
  function ParseInt(v: Value): (r: Option<int>)
    ensures r.Some? ==> v == Num(r.value as real)
  {
    if v.Num? && v.x == v.x.Floor as real then Some(v.x.Floor) else None
  }

  /**
   * INCRBYFLOAT: a missing or expired key counts as 0 and is created with no expiry;
   * a live numeric key keeps its expiry; a live textual key is an error (None).
   */
  function IncrByFloat(ks: Store, key: string, d: real, now: int): (r: Option<Store>)
    ensures r.None? <==> Get(ks, key, now).Some? && Get(ks, key, now).value.Text?
    ensures r.Some? ==> r.value.Keys == ks.Keys + {key}
    ensures r.Some? ==> r.value[key].value == Num(NumOr0(ks, key, now) + d)
    ensures r.Some? ==> forall k :: k in ks && k != key ==> r.value[k] == ks[k]
  {
    match Get(ks, key, now)
    case None => Some(ks[key := Entry(Num(d), None)])
    case Some(Text(_)) => None
    case Some(Num(x)) => Some(ks[key := Entry(Num(x + d), ks[key].expiresAt)])
  }

  /** The number a key holds, 0 when it is missing, expired or textual. */
  function NumOr0(ks: Store, key: string, now: int): real {
    match Get(ks, key, now)
    case Some(Num(x)) => x
    case _ => 0.0
  }
}
