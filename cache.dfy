/**
 * The bounded conversation cache: a key/value store that maps
 * `conv:{businessAccountId}:{clientAccountId}` to an oldest-first list of at
 * most `MaxMessages` compact records, each key expiring `CacheTtl` seconds
 * after its last write.
 *
 * The Redis store is a map from key to entry; an entry remembers its records
 * and the instant (in store seconds) at which it expires. Every operation takes
 * the store's clock `now` as a parameter. An expired entry may still sit in the
 * map, as Redis expires lazily, but every command treats it as absent.
 */
module Cache {

  const CachePrefix := "conv:"
  /** Length bound of every cached list (`LTRIM key -20 -1`). */
  const MaxMessages := 20
  /** `config.cacheTTL`: seconds a key lives after its last write. */
  const CacheTtl := 7200
  /** What Redis `TTL` answers for a key that does not exist. */
  const NoSuchKey := -2

  /** `r: 'u' | 'b'`: the client (user) or the business wrote the message. */
  datatype Role = User | Business

  /** `CachedMessage {r, t, ts}`: role, text, timestamp in milliseconds. */
  datatype Record = Record(r: Role, t: string, ts: int)

  datatype Entry = Entry(records: seq<Record>, expiresAt: int)

  type Store = map<string, Entry>

  /** `getKey`: the prefix, the business id, a colon, the client id. */
  function GetKey(businessAccountId: string, clientAccountId: string): (key: string)
    ensures |key| == |CachePrefix| + |businessAccountId| + 1 + |clientAccountId|
  {
    CachePrefix + businessAccountId + ":" + clientAccountId
  }

  /** Where each part of the id pair sits inside its key. */
  lemma GetKeyLayout(businessAccountId: string, clientAccountId: string)
    ensures var key, n, b := GetKey(businessAccountId, clientAccountId), |CachePrefix|, |businessAccountId|;
      && |key| == n + b + 1 + |clientAccountId|
      && key[..n] == CachePrefix
      && key[n..n + b] == businessAccountId
      && key[n + b] == ':'
      && key[n + b + 1..] == clientAccountId
  {
  }

  /** Distinct id pairs get distinct keys as long as business ids carry no colon. */
  lemma {:induction false} GetKeyInjective(b1: string, c1: string, b2: string, c2: string)
    requires ':' !in b1 && ':' !in b2
    requires GetKey(b1, c1) == GetKey(b2, c2)
    ensures b1 == b2 && c1 == c2
  {
    GetKeyLayout(b1, c1);
    GetKeyLayout(b2, c2);
    if |b1| < |b2| {
      assert false;
    } else if |b2| < |b1| {
      assert false;
    }
  }

  /** Without that restriction two different pairs can share one key. */
  lemma GetKeyCollision()
    ensures GetKey("1:2", "3") == GetKey("1", "2:3")
  {
  }

  /** `EXISTS key`: the key holds an entry that has not expired. */
  predicate IsLive(s: Store, key: string, now: int) {
    key in s && now < s[key].expiresAt
  }

  /** `LRANGE key 0 -1`: the stored list, empty when the key is absent or expired. */
  function Lookup(s: Store, key: string, now: int): seq<Record> {
    if IsLive(s, key, now) then s[key].records else []
  }

  /** `TTL key`: seconds left, or `NoSuchKey` when absent or expired. */
  function Ttl(s: Store, key: string, now: int): int {
    if IsLive(s, key, now) then s[key].expiresAt - now else NoSuchKey
  }

  /** What Redis keeps of a list: never an empty list, never more than `MaxMessages`. */
  ghost predicate WellFormed(s: Store) {
    forall k :: k in s ==> 0 < |s[k].records| <= MaxMessages
  }

  /** `LTRIM -20 -1` / `slice(-20)`: the longest suffix of `s` of at most `MaxMessages` records. */
  function KeepLast(s: seq<Record>): seq<Record> {
    s[TrimStart(|s|)..]
  }

  /** Where `LTRIM -20 -1` starts keeping in a list of length `n`. */
  function TrimStart(n: nat): nat {
    if n <= MaxMessages then 0 else n - MaxMessages
  }

  /** `KeepLast` keeps a suffix of exactly `min(|s|, MaxMessages)` records. */
  lemma KeepLastIsSuffix(s: seq<Record>)
    ensures |KeepLast(s)| == if |s| <= MaxMessages then |s| else MaxMessages
    ensures KeepLast(s) == s[|s| - |KeepLast(s)|..]
  {
  }

  /** Trimming early does not change what trimming at the end keeps. */
  lemma {:induction false} KeepLastAppend(s: seq<Record>, t: seq<Record>)
    ensures KeepLast(KeepLast(s) + t) == KeepLast(s + t)
  {
    var a := TrimStart(|s|);
    var b := TrimStart(|s| - a + |t|);
    assert a + b == TrimStart(|s| + |t|);
    assert s[a..] + t == (s + t)[a..];
    assert (s + t)[a..][b..] == (s + t)[a + b..];
  }

  /** The store after `RPUSH key m; LTRIM key -20 -1; EXPIRE key CacheTtl`. */
  function Appended(s: Store, key: string, m: Record, now: int): (r: Store)
    ensures Lookup(r, key, now) == KeepLast(Lookup(s, key, now) + [m])
    ensures Ttl(r, key, now) == CacheTtl
    ensures r - {key} == s - {key}
  {
    var e := Entry(KeepLast(Lookup(s, key, now) + [m]), now + CacheTtl);
    assert 0 < |e.records| <= MaxMessages;
    var r := s[key := e];
    assert r[key] == e && IsLive(r, key, now);
    r
  }

  /** Appending, replacing and deleting keep every list non-empty and within the bound. */
  lemma StaysWellFormed(s: Store, key: string, m: Record, ms: seq<Record>, now: int)
    requires WellFormed(s)
    ensures WellFormed(Appended(s, key, m, now))
    ensures WellFormed(Replaced(s, key, ms, now))
    ensures WellFormed(Deleted(s, key))
  {
    var a := Appended(s, key, m, now);
    assert a == s[key := a[key]];
    var r := Replaced(s, key, ms, now);
    assert |ms| > 0 ==> r == s[key := r[key]];
  }

  /** After an append the new record is last, the list is within bounds, and a cold key holds only that record. */
  lemma AppendedLast(s: Store, key: string, m: Record, now: int)
    ensures var l := Lookup(Appended(s, key, m, now), key, now);
      0 < |l| <= MaxMessages && l[|l| - 1] == m
      && |l| == if |Lookup(s, key, now)| < MaxMessages then |Lookup(s, key, now)| + 1 else MaxMessages
    ensures !IsLive(s, key, now) ==> Lookup(Appended(s, key, m, now), key, now) == [m]
  {
    var l0 := Lookup(s, key, now) + [m];
    var l := KeepLast(l0);
    assert l[|l| - 1] == l0[|l0| - 1];
  }

  /** The store after `DEL key` and, for a non-empty `ms`, `RPUSH key ...ms.slice(-20); EXPIRE key CacheTtl`. */
  function Replaced(s: Store, key: string, ms: seq<Record>, now: int): (r: Store)
    ensures Lookup(r, key, now) == KeepLast(ms)
    ensures |ms| == 0 <==> key !in r
    ensures |ms| > 0 ==> Ttl(r, key, now) == CacheTtl
    ensures r - {key} == s - {key}
  {
    if |ms| == 0 then s - {key}
    else
      var e := Entry(KeepLast(ms), now + CacheTtl);
      var r := s[key := e];
      assert r[key] == e && IsLive(r, key, now);
      r
  }

  /** The store after `DEL key`. */
  function Deleted(s: Store, key: string): (r: Store)
    ensures key !in r
    ensures r - {key} == s - {key}
  {
    s - {key}
  }

  /** `ms` appended one after another, each append trimming and refreshing the key. */
  function AppendedAll(s: Store, key: string, ms: seq<Record>, now: int): Store
    decreases |ms|
  {
    if ms == [] then s else AppendedAll(Appended(s, key, ms[0], now), key, ms[1..], now)
  }

  /** The list a run of appends leaves, computed on the list alone. */
  function PushedAll(l: seq<Record>, ms: seq<Record>): seq<Record>
    decreases |ms|
  {
    if ms == [] then l else PushedAll(KeepLast(l + [ms[0]]), ms[1..])
  }

  /** A run of appends on the store does to the key's list what `PushedAll` does. */
  lemma {:induction false} AppendedAllPushes(s: Store, key: string, ms: seq<Record>, now: int)
    ensures Lookup(AppendedAll(s, key, ms, now), key, now) == PushedAll(Lookup(s, key, now), ms)
    decreases |ms|
  {
    if ms != [] {
      AppendedAllPushes(Appended(s, key, ms[0], now), key, ms[1..], now);
    }
  }

  /** Pushing records one at a time, trimming each time, keeps the tail of everything pushed. */
  lemma {:induction false} PushedAllKeepsLast(l: seq<Record>, ms: seq<Record>)
    requires |l| <= MaxMessages
    ensures PushedAll(l, ms) == KeepLast(l + ms)
    decreases |ms|
  {
    if ms == [] {
      assert l + ms == l;
    } else {
      var l1 := KeepLast(l + [ms[0]]);
      KeepLastIsSuffix(l + [ms[0]]);
      PushedAllKeepsLast(l1, ms[1..]);
      KeepLastAppend(l + [ms[0]], ms[1..]);
      calc {
        PushedAll(l, ms);
        PushedAll(l1, ms[1..]);
        KeepLast(l1 + ms[1..]);
        KeepLast(l + [ms[0]] + ms[1..]);
        { assert l + [ms[0]] + ms[1..] == l + ms; }
        KeepLast(l + ms);
      }
    }
  }

  /** Any run of appends leaves the last `MaxMessages` of the old list followed by the appended records. */
  lemma AppendedAllKeepsLast(s: Store, key: string, ms: seq<Record>, now: int)
    requires |Lookup(s, key, now)| <= MaxMessages
    ensures Lookup(AppendedAll(s, key, ms, now), key, now) == KeepLast(Lookup(s, key, now) + ms)
  {
    AppendedAllPushes(s, key, ms, now);
    PushedAllKeepsLast(Lookup(s, key, now), ms);
  }

  /** After at least `MaxMessages` appends the key holds exactly the last `MaxMessages` of them, in append order. */
  lemma ManyAppendsKeepLastTwenty(s: Store, key: string, ms: seq<Record>, now: int)
    requires |Lookup(s, key, now)| <= MaxMessages
    requires |ms| >= MaxMessages
    ensures Lookup(AppendedAll(s, key, ms, now), key, now) == ms[|ms| - MaxMessages..]
  {
    AppendedAllKeepsLast(s, key, ms, now);
    var l := Lookup(s, key, now);
    var all := l + ms;
    var k := |ms| - MaxMessages;
    assert TrimStart(|all|) == |l| + k;
    assert all[|l|..] == ms;
    assert all[|l| + k..] == all[|l|..][k..];
  }

  /**
   * The `CacheService` singleton. Its one field is the whole Redis keyspace the
   * service touches; each method is one command or one pipeline, applied as a
   * single step.
   */
  class CacheService {
    var store: Store

    ghost predicate Valid()
      reads this
    {
      WellFormed(store)
    }

    constructor ()
      ensures Valid() && store == map[]
    {
      store := map[];
    }

    /** `hasConversation`: `EXISTS` answered 1. */
    method HasConversation(businessAccountId: string, clientAccountId: string, now: int) returns (exists_: bool)
      ensures exists_ <==> GetKey(businessAccountId, clientAccountId) in store
                           && now < store[GetKey(businessAccountId, clientAccountId)].expiresAt
    {
      var key := GetKey(businessAccountId, clientAccountId);
      exists_ := key in store && now < store[key].expiresAt;
    }

    /** `getMessages`: the whole list, oldest first; empty for an absent or expired key. */
    method GetMessages(businessAccountId: string, clientAccountId: string, now: int) returns (messages: seq<Record>)
      requires Valid()
      ensures messages == Lookup(store, GetKey(businessAccountId, clientAccountId), now)
      ensures |messages| <= MaxMessages
      ensures !IsLive(store, GetKey(businessAccountId, clientAccountId), now) ==> messages == []
    {
      var key := GetKey(businessAccountId, clientAccountId);
      if key in store && now < store[key].expiresAt {
        messages := store[key].records;
      } else {
        messages := [];
      }
    }

    /** `addMessage`: the `rpush`, `ltrim`, `expire` pipeline. */
    method AddMessage(businessAccountId: string, clientAccountId: string, message: Record, now: int)
      requires Valid()
      modifies this
      ensures Valid()
      ensures store == Appended(old(store), GetKey(businessAccountId, clientAccountId), message, now)
    {
      var key := GetKey(businessAccountId, clientAccountId);
      var current := if key in store && now < store[key].expiresAt then store[key].records else [];
      var pushed := current + [message];
      var trimmed := KeepLast(pushed);
      StaysWellFormed(store, key, message, [], now);
      store := store[key := Entry(trimmed, now + CacheTtl)];
    }

    /** `setMessages`: `del`, then for a non-empty list the `rpush` of its last 20 and `expire`. */
    method SetMessages(businessAccountId: string, clientAccountId: string, messages: seq<Record>, now: int)
      requires Valid()
      modifies this
      ensures Valid()
      ensures store == Replaced(old(store), GetKey(businessAccountId, clientAccountId), messages, now)
    {
      var key := GetKey(businessAccountId, clientAccountId);
      StaysWellFormed(store, key, Record(User, "", 0), messages, now);
      store := store - {key};
      if |messages| == 0 {
        return;
      }
      var trimmed := KeepLast(messages);
      store := store[key := Entry(trimmed, now + CacheTtl)];
    }

    /** `addBusinessMessage`: appends `{r: 'b', t: text, ts}`. */
    method AddBusinessMessage(businessAccountId: string, clientAccountId: string, text: string, now: int, ts: int)
      requires Valid()
      modifies this
      ensures Valid()
      ensures store == Appended(old(store), GetKey(businessAccountId, clientAccountId), Record(Business, text, ts), now)
    {
      AddMessage(businessAccountId, clientAccountId, Record(Business, text, ts), now);
    }

    /** `addUserMessage`: appends `{r: 'u', t: text, ts}`. */
    method AddUserMessage(businessAccountId: string, clientAccountId: string, text: string, now: int, ts: int)
      requires Valid()
      modifies this
      ensures Valid()
      ensures store == Appended(old(store), GetKey(businessAccountId, clientAccountId), Record(User, text, ts), now)
    {
      AddMessage(businessAccountId, clientAccountId, Record(User, text, ts), now);
    }

    /** `deleteConversation`: `DEL key`. */
    method DeleteConversation(businessAccountId: string, clientAccountId: string)
      requires Valid()
      modifies this
      ensures Valid()
      ensures store == Deleted(old(store), GetKey(businessAccountId, clientAccountId))
    {
      StaysWellFormed(store, GetKey(businessAccountId, clientAccountId), Record(User, "", 0), [], 0);
      store := store - {GetKey(businessAccountId, clientAccountId)};
    }

    /** `getTTL`: the seconds a live key has left, or `NoSuchKey`. */
    method GetTtl(businessAccountId: string, clientAccountId: string, now: int) returns (ttl: int)
      ensures ttl == Ttl(store, GetKey(businessAccountId, clientAccountId), now)
      ensures ttl == NoSuchKey <==> !IsLive(store, GetKey(businessAccountId, clientAccountId), now)
    {
      var key := GetKey(businessAccountId, clientAccountId);
      ttl := if key in store && now < store[key].expiresAt then store[key].expiresAt - now else NoSuchKey;
    }
  }
}
