/** The per-user daily quota cache: an insertion-ordered dictionary from
    `"<user>_<day>_<service>"` to a usage count, used as an LRU cache of at
    most 1000 entries by the limit check, and bumped by the usage update. */
module Quota {
  import opened Wrappers
  import opened Text

  /** One cache entry, in the dictionary's order. */
  datatype Slot = Slot(key: string, count: int)

  const MaxCacheSize: nat := 1000

  const ChatService: string := "ai_chat"
  const ImageService: string := "image_gen"
  const VideoService: string := "video_gen"

  /** The daily per-user limits, read from the environment at each check. */
  datatype UserLimits = UserLimits(chat: int, image: int, video: int)

  const DefaultUserLimits := UserLimits(20, 5, 2)

  /** `limits_config.get(service_type, 20)`. */
  function LimitFor(limits: UserLimits, service: string): (r: int)
    ensures service == ChatService ==> r == limits.chat
    ensures service == ImageService ==> r == limits.image
    ensures service == VideoService ==> r == limits.video
    ensures service !in {ChatService, ImageService, VideoService} ==> r == 20
  {
    if service == ChatService then limits.chat
    else if service == ImageService then limits.image
    else if service == VideoService then limits.video
    else 20
  }

  function CacheKey(user: int, day: string, service: string): string {
    IntToString(user) + "_" + day + "_" + service
  }

  /** Dictionary keys are unique. */
  predicate Keyed(cache: seq<Slot>) {
    forall i, j :: 0 <= i < j < |cache| ==> cache[i].key != cache[j].key
  }

  function Keys(cache: seq<Slot>): (r: seq<string>)
    ensures |r| == |cache| && forall i :: 0 <= i < |cache| ==> r[i] == cache[i].key
  {
    if cache == [] then [] else [cache[0].key] + Keys(cache[1..])
  }

  function Lookup(cache: seq<Slot>, key: string): (r: Option<int>)
    ensures r.None? <==> key !in Keys(cache)
    ensures forall i :: 0 <= i < |cache| && cache[i].key == key && (forall j :: 0 <= j < i ==> cache[j].key != key)
                        ==> r == Some(cache[i].count)
  {
    if cache == [] then None
    else if cache[0].key == key then Some(cache[0].count)
    else Lookup(cache[1..], key)
  }

  /** `cache.get(key, 0)`. */
  function Count(cache: seq<Slot>, key: string): int {
    match Lookup(cache, key) case Some(c) => c case None => 0
  }

  /** The cache with `key` removed, the other entries in order. */
  function Without(cache: seq<Slot>, key: string): (r: seq<Slot>)
    ensures |r| <= |cache|
    ensures key !in Keys(r)
  {
    if cache == [] then []
    else (if cache[0].key == key then [] else [cache[0]]) + Without(cache[1..], key)
  }

  /** The check's lookup: a hit moves the entry to the end (most recent); a miss
      appends the count read from the database. */
  function Touch(cache: seq<Slot>, key: string, stored: int): seq<Slot> {
    match Lookup(cache, key)
    case Some(c) => Without(cache, key) + [Slot(key, c)]
    case None => cache + [Slot(key, stored)]
  }

  /** `popitem(last=False)` once when the cache is over capacity. */
  function Evict(cache: seq<Slot>): seq<Slot> {
    if |cache| > MaxCacheSize then cache[1..] else cache
  }

  /** The cache after `check_user_limit`. */
  function CheckCache(cache: seq<Slot>, key: string, stored: int): seq<Slot> {
    Evict(Touch(cache, key, stored))
  }

  /** The usage the check compares with the limit. */
  function Usage(cache: seq<Slot>, key: string, stored: int): int {
    match Lookup(cache, key) case Some(c) => c case None => stored
  }

  datatype Verdict = Verdict(allowed: bool, remaining: int)

  /** Allowed with `limit - usage` left while under the limit; otherwise refused with 0. */
  function Decide(usage: int, limit: int): (v: Verdict)
    ensures v.allowed <==> usage < limit
    ensures v.allowed ==> v.remaining > 0 && v.remaining + usage == limit
    ensures !v.allowed ==> v.remaining == 0
  {
    if usage >= limit then Verdict(false, 0) else Verdict(true, limit - usage)
  }

  /** The cache with the count of `key` set to `v`, in place. */
  function Replace(cache: seq<Slot>, key: string, v: int): (r: seq<Slot>)
    ensures Keys(r) == Keys(cache)
  {
    if cache == [] then []
    else [if cache[0].key == key then Slot(key, v) else cache[0]] + Replace(cache[1..], key, v)
  }

  /** `cache[key] = v` on an ordered dictionary: an existing key keeps its
      place, a new key is appended. */
  function Put(cache: seq<Slot>, key: string, v: int): seq<Slot> {
    if key in Keys(cache) then Replace(cache, key, v) else cache + [Slot(key, v)]
  }

  /** `update_user_usage`: `cache.get(key, 0) + 1` stored under the key; nothing
      is evicted. */
  function Bump(cache: seq<Slot>, key: string): seq<Slot> {
    Put(cache, key, Count(cache, key) + 1)
  }

  // ------------------------------------------------------------------ lemmas

  lemma {:induction false} LookupAppend(cache: seq<Slot>, s: Slot, key: string)
    ensures Lookup(cache + [s], key)
         == if key in Keys(cache) then Lookup(cache, key) else if s.key == key then Some(s.count) else None
    decreases |cache|
  {
    if cache != [] {
      assert (cache + [s])[1..] == cache[1..] + [s];
      LookupAppend(cache[1..], s, key);
      assert Keys(cache) == [cache[0].key] + Keys(cache[1..]);
    } else {
      assert [s][1..] == [];
    }
  }

  lemma {:induction false} LookupWithout(cache: seq<Slot>, key: string, other: string)
    requires other != key
    ensures Lookup(Without(cache, key), other) == Lookup(cache, other)
    decreases |cache|
  {
    if cache != [] {
      var rest := Without(cache[1..], key);
      LookupWithout(cache[1..], key, other);
      if cache[0].key == key {
        assert Without(cache, key) == rest;
      } else {
        var w := [cache[0]] + rest;
        assert Without(cache, key) == w;
        assert w[0] == cache[0] && w[1..] == rest;
        if cache[0].key != other {
          assert Lookup(w, other) == Lookup(rest, other);
        }
      }
    }
  }

  lemma {:induction false} KeysWithout(cache: seq<Slot>, key: string, other: string)
    requires other != key
    ensures other in Keys(Without(cache, key)) <==> other in Keys(cache)
    decreases |cache|
  {
    if cache != [] {
      KeysWithout(cache[1..], key, other);
      assert Keys(cache) == [cache[0].key] + Keys(cache[1..]);
      var w := Without(cache, key);
      if cache[0].key != key {
        assert w == [cache[0]] + Without(cache[1..], key);
        assert Keys(w) == [cache[0].key] + Keys(Without(cache[1..], key));
      } else {
        assert w == Without(cache[1..], key);
      }
    }
  }

  lemma {:induction false} WithoutPresent(cache: seq<Slot>, key: string)
    requires Keyed(cache) && key in Keys(cache)
    ensures |Without(cache, key)| == |cache| - 1
    ensures Keyed(Without(cache, key))
    decreases |cache|
  {
    assert Keys(cache) == [cache[0].key] + Keys(cache[1..]);
    assert Keyed(cache[1..]);
    if cache[0].key == key {
      assert key !in Keys(cache[1..]);
      WithoutAbsent(cache[1..], key);
    } else {
      WithoutPresent(cache[1..], key);
      var w := Without(cache[1..], key);
      forall i | 0 <= i < |w| ensures w[i].key != cache[0].key {
        assert w[i].key in Keys(w);
        KeysWithout(cache[1..], key, w[i].key);
      }
    }
  }

  lemma {:induction false} WithoutAbsent(cache: seq<Slot>, key: string)
    requires key !in Keys(cache)
    ensures Without(cache, key) == cache
    decreases |cache|
  {
    if cache != [] {
      assert Keys(cache) == [cache[0].key] + Keys(cache[1..]);
      WithoutAbsent(cache[1..], key);
    }
  }

  lemma KeyedAppend(cache: seq<Slot>, s: Slot)
    requires Keyed(cache) && s.key !in Keys(cache)
    ensures Keyed(cache + [s])
  {
  }

  /** The check keeps keys unique, leaves `key` as the most recent entry with
      the usage it compared, keeps every other entry and their order, and grows
      the cache by one entry exactly on a miss. */
  lemma TouchSpec(cache: seq<Slot>, key: string, stored: int)
    requires Keyed(cache)
    ensures var t := Touch(cache, key, stored);
            && Keyed(t)
            && t != [] && t[|t| - 1] == Slot(key, Usage(cache, key, stored))
            && Without(t, key) == Without(cache, key)
            && |t| == (if key in Keys(cache) then |cache| else |cache| + 1)
  {
    var t := Touch(cache, key, stored);
    var w := Without(cache, key);
    if key in Keys(cache) {
      WithoutPresent(cache, key);
      KeyedAppend(w, Slot(key, Usage(cache, key, stored)));
      WithoutAppendSame(w, key, Usage(cache, key, stored));
      WithoutAbsent(w, key);
    } else {
      KeyedAppend(cache, Slot(key, stored));
      WithoutAppendSame(cache, key, stored);
    }
  }

  lemma {:induction false} WithoutAppendSame(cache: seq<Slot>, key: string, c: int)
    ensures Without(cache + [Slot(key, c)], key) == Without(cache, key)
    decreases |cache|
  {
    if cache == [] {
      assert Without([Slot(key, c)], key) == [] + Without([], key);
    } else {
      assert (cache + [Slot(key, c)])[1..] == cache[1..] + [Slot(key, c)];
      WithoutAppendSame(cache[1..], key, c);
    }
  }

  /** The check never lets a cache within capacity grow past it, and never
      grows an over-full cache. */
  lemma CheckCacheBound(cache: seq<Slot>, key: string, stored: int)
    requires Keyed(cache)
    ensures |CheckCache(cache, key, stored)| <= if |cache| <= MaxCacheSize then MaxCacheSize else |cache|
  {
    TouchSpec(cache, key, stored);
  }

  /** The key just checked survives the eviction with the usage that was compared. */
  lemma CheckCacheKeepsKey(cache: seq<Slot>, key: string, stored: int)
    requires Keyed(cache)
    ensures Lookup(CheckCache(cache, key, stored), key) == Some(Usage(cache, key, stored))
  {
    TouchSpec(cache, key, stored);
    var t := Touch(cache, key, stored);
    var e := Evict(t);
    assert e[|e| - 1] == Slot(key, Usage(cache, key, stored));
    assert Keyed(e);
    KeyedLookupLast(e);
  }

  lemma {:induction false} KeyedLookupLast(cache: seq<Slot>)
    requires Keyed(cache) && cache != []
    ensures Lookup(cache, cache[|cache| - 1].key) == Some(cache[|cache| - 1].count)
    decreases |cache|
  {
    if |cache| > 1 {
      assert Keyed(cache[1..]);
      KeyedLookupLast(cache[1..]);
    }
  }

  lemma {:induction false} LookupReplace(cache: seq<Slot>, key: string, v: int, other: string)
    ensures Lookup(Replace(cache, key, v), other)
         == if other == key && key in Keys(cache) then Some(v) else Lookup(cache, other)
    decreases |cache|
  {
    if cache != [] {
      LookupReplace(cache[1..], key, v, other);
      assert Keys(cache) == [cache[0].key] + Keys(cache[1..]);
    }
  }

  /** The usage update adds one to the count of `key`, leaves every other
      count alone, keeps an existing key in its place, appends a new key, and
      never evicts. */
  lemma BumpSpec(cache: seq<Slot>, key: string, other: string)
    requires other != key
    ensures Count(Bump(cache, key), key) == Count(cache, key) + 1
    ensures Count(Bump(cache, key), other) == Count(cache, other)
    ensures Keys(Bump(cache, key)) == if key in Keys(cache) then Keys(cache) else Keys(cache) + [key]
  {
    LookupPut(cache, key, Count(cache, key) + 1, key);
    LookupPut(cache, key, Count(cache, key) + 1, other);
  }

  /** After `cache[key] = v`, `key` maps to `v` and every other key keeps its
      count. */
  lemma LookupPut(cache: seq<Slot>, key: string, v: int, other: string)
    ensures Lookup(Put(cache, key, v), other) == if other == key then Some(v) else Lookup(cache, other)
    ensures Keys(Put(cache, key, v)) == if key in Keys(cache) then Keys(cache) else Keys(cache) + [key]
  {
    if key in Keys(cache) {
      LookupReplace(cache, key, v, other);
    } else {
      LookupAppend(cache, Slot(key, v), other);
      KeysAppend(cache, Slot(key, v));
    }
  }

  lemma {:induction false} KeysAppend(cache: seq<Slot>, s: Slot)
    ensures Keys(cache + [s]) == Keys(cache) + [s.key]
  {
  }

  /** The check keeps the keys unique. */
  lemma CheckCacheKeyed(cache: seq<Slot>, key: string, stored: int)
    requires Keyed(cache)
    ensures Keyed(CheckCache(cache, key, stored))
  {
    TouchSpec(cache, key, stored);
  }

  /** The usage update keeps the keys unique. */
  lemma BumpKeyed(cache: seq<Slot>, key: string)
    requires Keyed(cache)
    ensures Keyed(Bump(cache, key))
  {
    LookupPut(cache, key, Count(cache, key) + 1, key);
    if key !in Keys(cache) {
      KeyedAppend(cache, Slot(key, Count(cache, key) + 1));
    }
  }

  /** `n` usage updates in a row: the count of `key` goes up by `n`. */
  function BumpTimes(cache: seq<Slot>, key: string, n: nat): (r: seq<Slot>)
    ensures Count(r, key) == Count(cache, key) + n
  {
    if n == 0 then cache
    else
      var b := BumpTimes(cache, key, n - 1);
      BumpCount(b, key);
      Bump(b, key)
  }

  lemma BumpHit(cache: seq<Slot>, key: string, c: int)
    requires Lookup(cache, key) == Some(c)
    ensures Lookup(Bump(cache, key), key) == Some(c + 1)
  {
    LookupPut(cache, key, c + 1, key);
  }

  lemma BumpMiss(cache: seq<Slot>, key: string)
    requires key !in Keys(cache)
    ensures Lookup(Bump(cache, key), key) == Some(1)
  {
    LookupPut(cache, key, 1, key);
  }

  lemma BumpCount(cache: seq<Slot>, key: string)
    ensures Count(Bump(cache, key), key) == Count(cache, key) + 1
  {
    LookupPut(cache, key, Count(cache, key) + 1, key);
  }

  /** `n` usage updates in a row, with no check (and so no eviction) in
      between: each lowers the remaining quota by one until it reaches zero,
      after which the check refuses. */
  lemma QuotaRunsOut(cache: seq<Slot>, key: string, n: nat, limit: int)
    ensures Count(cache, key) + n >= limit ==> !Decide(Count(BumpTimes(cache, key, n), key), limit).allowed
    ensures Count(cache, key) + n < limit ==>
              Decide(Count(BumpTimes(cache, key, n), key), limit).remaining == limit - Count(cache, key) - n
  {
  }

  // ---------------------------------------------------------------- the reset

  /** A `%Y-%m-%d` date. */
  predicate IsDate(d: string) {
    |d| == 10 && d[4] == '-' && d[7] == '-'
    && forall i :: 0 <= i < 10 && i != 4 && i != 7 ==> IsDigit(d[i])
  }

  /** The entries `reset_daily_counts` keeps: keys ending with today's date. */
  function SweepDay(cache: seq<Slot>, today: string): (r: seq<Slot>)
    ensures forall s :: s in r <==> s in cache && EndsWith(s.key, today)
  {
    if cache == [] then []
    else (if EndsWith(cache[0].key, today) then [cache[0]] else []) + SweepDay(cache[1..], today)
  }

  lemma {:induction false} SweepDayAppend(cache: seq<Slot>, s: Slot, today: string)
    ensures SweepDay(cache + [s], today) == SweepDay(cache, today) + (if EndsWith(s.key, today) then [s] else [])
    decreases |cache|
  {
    if cache == [] {
      assert SweepDay([s], today) == (if EndsWith(s.key, today) then [s] else []) + SweepDay([], today);
    } else {
      assert (cache + [s])[1..] == cache[1..] + [s];
      SweepDayAppend(cache[1..], s, today);
    }
  }

  /** The reset keeps the keys unique. */
  lemma {:induction false} SweepDayKeyed(cache: seq<Slot>, today: string)
    requires Keyed(cache)
    ensures Keyed(SweepDay(cache, today))
    decreases |cache|
  {
    if cache != [] {
      var rest := SweepDay(cache[1..], today);
      SweepDayKeyed(cache[1..], today);
      forall j | 0 <= j < |rest| ensures rest[j].key != cache[0].key {
        assert rest[j] in cache[1..];
      }
    }
  }

  /** A key built by the check for one of the three services. */
  predicate ServiceKey(key: string) {
    EndsWith(key, ChatService) || EndsWith(key, ImageService) || EndsWith(key, VideoService)
  }

  /** Keys end with the service name, never with the date, so no service key
      ends with today's date. */
  lemma ServiceKeyNotToday(key: string, today: string)
    requires ServiceKey(key) && IsDate(today)
    ensures !EndsWith(key, today)
  {
    assert IsDigit(today[9]);
    if EndsWith(key, today) {
      EndsWithLast(key, today);
      if EndsWith(key, ChatService) { EndsWithLast(key, ChatService); }
      else if EndsWith(key, ImageService) { EndsWithLast(key, ImageService); }
      else { EndsWithLast(key, VideoService); }
    }
  }

  lemma CacheKeyIsServiceKey(user: int, day: string, service: string)
    requires service in {ChatService, ImageService, VideoService}
    ensures ServiceKey(CacheKey(user, day, service))
  {
    var k := CacheKey(user, day, service);
    assert k[|k| - |service|..] == service;
  }

  /** The reset therefore empties a cache of service keys, whatever today is. */
  lemma ResetDropsEverything(cache: seq<Slot>, today: string)
    requires IsDate(today)
    requires forall s :: s in cache ==> ServiceKey(s.key)
    ensures SweepDay(cache, today) == []
  {
    if SweepDay(cache, today) != [] {
      var s := SweepDay(cache, today)[0];
      ServiceKeyNotToday(s.key, today);
    }
  }

  /** `get_user_stats`: today's cached counts for the three services, 0 when absent. */
  function UserStats(cache: seq<Slot>, user: int, today: string): (r: map<string, int>)
    ensures r.Keys == {ChatService, ImageService, VideoService}
    ensures forall svc :: svc in r ==> r[svc] == Count(cache, CacheKey(user, today, svc))
  {
    map[ChatService := Count(cache, CacheKey(user, today, ChatService)),
        ImageService := Count(cache, CacheKey(user, today, ImageService)),
        VideoService := Count(cache, CacheKey(user, today, VideoService))]
  }

  /** Keys of one user and day for two different services differ. */
  lemma CacheKeyServices(user: int, day: string, a: string, b: string)
    requires a != b
    ensures CacheKey(user, day, a) != CacheKey(user, day, b)
  {
    var p := IntToString(user) + "_" + day + "_";
    assert CacheKey(user, day, a) == p + a && CacheKey(user, day, b) == p + b;
    assert (p + a)[|p|..] == a && (p + b)[|p|..] == b;
  }

  /** The usage update of one service shows in the stats as one more use of
      that service; the other two services keep their counts. */
  lemma UserStatsBump(cache: seq<Slot>, user: int, today: string, svc: string)
    requires svc in {ChatService, ImageService, VideoService}
    ensures var before := UserStats(cache, user, today);
            var after := UserStats(Bump(cache, CacheKey(user, today, svc)), user, today);
            && after[svc] == before[svc] + 1
            && forall o :: o in after && o != svc ==> after[o] == before[o]
  {
    var key := CacheKey(user, today, svc);
    BumpCount(cache, key);
    forall o | o in {ChatService, ImageService, VideoService} && o != svc
      ensures Count(Bump(cache, key), CacheKey(user, today, o)) == Count(cache, CacheKey(user, today, o))
    {
      CacheKeyServices(user, today, o, svc);
      BumpSpec(cache, key, CacheKey(user, today, o));
    }
  }

  /** After the daily reset, a cache holding only service keys reports no use
      of any service. */
  lemma UserStatsAfterReset(cache: seq<Slot>, user: int, today: string)
    requires IsDate(today)
    requires forall s :: s in cache ==> ServiceKey(s.key)
    ensures UserStats(SweepDay(cache, today), user, today) == map[ChatService := 0, ImageService := 0, VideoService := 0]
  {
    ResetDropsEverything(cache, today);
  }
}
