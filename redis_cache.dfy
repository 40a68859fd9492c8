/**
 * The Redis cache: a key-value store whose entries expire, read and written
 * through methods that never pass a backend error on to the caller.
 */
module RedisCache {
  import opened Strings
  import opened Values

  /** `self.default_ttl`: one hour. */
  const DefaultTtl: int := 3600
  /** Default ttl of `cache_player`: two hours. */
  const PlayerTtl: int := 7200
  /** Default ttl of `cache_query_result`: thirty minutes. */
  const QueryTtl: int := 1800
  /** Expiry refreshed by `increment_search`: thirty days. */
  const SearchTtl: int := 86400 * 30
  const SearchPrefix: string := "search_count:"

  /** A stored value and the clock reading from which it is gone. */
  datatype Entry = Entry(value: Json, expiry: int)

  function PlayerKey(id: int): string {
    "player:" + IntToString(id)
  }

  /** The key of a query result: `query:` and the query's hash. */
  function QueryKey(hash: int): string {
    "query:" + IntToString(hash)
  }

  /** Search counters are kept per lower-cased player name. */
  function SearchKey(name: string): string {
    SearchPrefix + ToLower(name)
  }

  /** `ttl or self.default_ttl`: a missing or zero ttl means one hour. */
  function EffectiveTtl(ttl: Option<int>): (t: int)
    ensures ttl.None? ==> t == DefaultTtl
    ensures ttl.Some? ==> t == if ttl.value == 0 then DefaultTtl else ttl.value
    ensures ttl.Some? && ttl.value > 0 ==> t == ttl.value
  {
    if ttl.None? || ttl.value == 0 then DefaultTtl else ttl.value
  }

  /**
   * The key spaces never meet: player entries, query results, the SQL
   * entries of the text-to-SQL service and search counters all differ.
   */
  lemma NamespacesDisjoint(id: int, h: int, q: string, name: string)
    ensures PlayerKey(id) != QueryKey(h)
    ensures PlayerKey(id) != SearchKey(name) && QueryKey(h) != SearchKey(name)
    ensures "sql:" + q != PlayerKey(id) && "sql:" + q != QueryKey(h)
    ensures "sql:" + q != SearchKey(name)
  {
    assert PlayerKey(id)[0] == 'p';
    assert QueryKey(h)[0] == 'q';
    assert SearchKey(name)[0] == 's' && SearchKey(name)[1] == 'e';
    assert ("sql:" + q)[0] == 's' && ("sql:" + q)[1] == 'q';
  }

  /** Player entries of different players never collide. */
  lemma PlayerKeyInjective(a: int, b: int)
    requires PlayerKey(a) == PlayerKey(b)
    ensures a == b
  {
    assert IntToString(a) == PlayerKey(a)[7..] == PlayerKey(b)[7..] == IntToString(b);
    IntToStringInjective(a, b);
  }

  /** A query result is never stored under the query text itself. */
  lemma QueryKeyIsNotQuery(query: string, h: int)
    requires !StartsWith(query, "query:")
    ensures QueryKey(h) != query
  {
    assert QueryKey(h)[..6] == "query:";
  }

  /** Counting ignores case: a name and its lower-case form share a counter. */
  lemma SearchKeyIgnoresCase(name: string)
    ensures SearchKey(ToLower(name)) == SearchKey(name)
  {
    ToLowerIdempotent(name);
  }

  /** Stripping the prefix from a counter's key gives back the lower-cased name. */
  lemma NameOfSearchKey(name: string)
    requires !Contains(ToLower(name), SearchPrefix)
    ensures RemoveAll(SearchKey(name), SearchPrefix) == ToLower(name)
  {
    RemoveAllLeading(SearchPrefix, ToLower(name));
    RemoveAllAbsent(ToLower(name), SearchPrefix);
  }

  /** Two stores that agree on every key outside `keys`. */
  ghost predicate SameExcept(a: map<string, Entry>, b: map<string, Entry>, keys: set<string>) {
    forall k | k !in keys :: (k in a <==> k in b) && (k in a ==> a[k] == b[k])
  }

  /** Agreement outside some keys is agreement outside any more keys. */
  lemma SameExceptWiden(a: map<string, Entry>, b: map<string, Entry>, keys: set<string>, more: set<string>)
    requires SameExcept(a, b, keys) && keys <= more
    ensures SameExcept(a, b, more)
  {
  }

  /** Two stores that agree on every key outside the `player:` keys. */
  ghost predicate SameOutsidePlayers(a: map<string, Entry>, b: map<string, Entry>) {
    forall k | !StartsWith(k, "player:") :: (k in a <==> k in b) && (k in a ==> a[k] == b[k])
  }

  /** Changing one player's entry leaves everything outside the `player:` keys as it was. */
  lemma OnePlayerChanged(a: map<string, Entry>, b: map<string, Entry>, id: int)
    requires SameExcept(a, b, {PlayerKey(id)})
    ensures SameOutsidePlayers(a, b)
  {
    assert PlayerKey(id)[..7] == "player:";
  }

  /** A (name, count) pair of `get_popular_players`. */
  type Popular = (string, int)

  /** The length of `s[:limit]` for a list of `n` elements. */
  function SliceLength(n: nat, limit: int): nat {
    if limit >= 0 then (if limit < n then limit else n)
    else if n + limit > 0 then n + limit else 0
  }

  predicate SortedDesc(s: seq<Popular>) {
    forall i, j | 0 <= i < j < |s| :: s[i].1 >= s[j].1
  }

  /** Put `x` after every element whose count is at least its own. */
  function InsertDesc(x: Popular, s: seq<Popular>): (r: seq<Popular>)
    ensures |r| == |s| + 1 && multiset(r) == multiset(s) + multiset{x}
  {
    if |s| == 0 then [x]
    else if s[0].1 >= x.1 then
      assert s == [s[0]] + s[1..];
      [s[0]] + InsertDesc(x, s[1..])
    else [x] + s
  }

  lemma {:induction false} InsertKeepsOrder(x: Popular, s: seq<Popular>)
    requires SortedDesc(s)
    ensures SortedDesc(InsertDesc(x, s))
    decreases |s|
  {
    if |s| > 0 && s[0].1 >= x.1 {
      var rest := InsertDesc(x, s[1..]);
      InsertKeepsOrder(x, s[1..]);
      forall k | 0 <= k < |rest|
        ensures rest[k].1 <= s[0].1
      {
        assert rest[k] in multiset(rest);
        if rest[k] != x {
          assert rest[k] in multiset(s[1..]);
          var m :| 0 <= m < |s[1..]| && s[1..][m] == rest[k];
          assert rest[k] == s[m + 1];
        }
      }
    }
  }

  /** `list.sort(key=count, reverse=True)`: the same pairs, by count non-increasing. */
  function SortDesc(s: seq<Popular>): (r: seq<Popular>)
    ensures SortedDesc(r) && multiset(r) == multiset(s)
    ensures |r| == |s|
  {
    if |s| == 0 then []
    else
      assert s == s[..|s| - 1] + [s[|s| - 1]];
      var sorted := SortDesc(s[..|s| - 1]);
      InsertKeepsOrder(s[|s| - 1], sorted);
      InsertDesc(s[|s| - 1], sorted)
  }

  /**
   * The first `limit` pairs of a sorted list are the most searched ones:
   * a pair left out counts no more than the last pair kept.
   */
  lemma TakeSorted(all: seq<Popular>, limit: int)
    requires SortedDesc(all)
    ensures SortedDesc(Take(all, limit))
    ensures forall p <- all :: p !in Take(all, limit) ==>
      |Take(all, limit)| == 0 || p.1 <= Take(all, limit)[|Take(all, limit)| - 1].1
  {
    var r := Take(all, limit);
    forall p | p in all && p !in r && |r| > 0
      ensures p.1 <= r[|r| - 1].1
    {
      var i :| 0 <= i < |all| && all[i] == p;
      assert r[|r| - 1] == all[|r| - 1];
    }
  }

  /** `order` lists each key of `keys` exactly once. */
  predicate Lists(order: seq<string>, keys: set<string>) {
    (forall k <- order :: k in keys) && (forall k <- keys :: k in order)
    && forall i, j | 0 <= i < j < |order| :: order[i] != order[j]
  }

  class Cache {
    /** What Redis holds; an entry past its expiry is no longer visible. */
    var store: map<string, Entry>
    /** The clock, in seconds. */
    var now: int
    /** Whether the Redis server answers; when it does not, every call fails. */
    var up: bool
    /** Python's `hash()` on strings, fixed for one run of the process. */
    const hash: string -> int

    constructor (hash: string -> int, now: int, up: bool)
      ensures this.store == map[] && this.now == now && this.up == up && this.hash == hash
    {
      this.store := map[];
      this.now := now;
      this.up := up;
      this.hash := hash;
    }

    /** Time passes; an entry whose expiry has been reached is no longer seen. */
    method Tick(seconds: nat)
      modifies this
      ensures now == old(now) + seconds && store == old(store) && up == old(up)
      ensures forall k | k in store && store[k].expiry <= now :: Get(k) == None
    {
      now := now + seconds;
    }

    /** The Redis server goes away or comes back. */
    method SetReachable(reachable: bool)
      modifies this
      ensures up == reachable && store == old(store) && now == old(now)
    {
      up := reachable;
    }

    /** A key whose entry has not expired. */
    predicate Live(key: string)
      reads this
    {
      key in store && now < store[key].expiry
    }

    /**
     * `get`: the stored value while it lives, else None; an unreachable
     * server gives None too. (`Some(JNull)` is a stored JSON null, which
     * Python also sees as None.)
     */
    function Get(key: string): (r: Option<Json>)
      reads this
      ensures r.Some? <==> up && Live(key)
      ensures r.Some? ==> r.value == store[key].value
    {
      if up && Live(key) then Some(store[key].value) else None
    }

    /**
     * `set`: stores `value` under `key` for the effective ttl. A ttl below
     * zero is refused by Redis; that error, like an unreachable server,
     * gives False and leaves the store as it was.
     */
    method Set(key: string, value: Json, ttl: Option<int>) returns (ok: bool)
      modifies this
      ensures ok <==> old(up) && EffectiveTtl(ttl) > 0
      ensures ok ==> store == old(store)[key := Entry(value, old(now) + EffectiveTtl(ttl))]
      ensures !ok ==> store == old(store)
      ensures now == old(now) && up == old(up)
      ensures ok ==> Get(key) == Some(value)
      ensures forall k | k != key :: Get(k) == old(Get(k))
    {
      var t := EffectiveTtl(ttl);
      if !up || t <= 0 {
        return false;
      }
      store := store[key := Entry(value, now + t)];
      return true;
    }

    /** `delete`: True and the key gone, or False when the server is unreachable. */
    method Delete(key: string) returns (ok: bool)
      modifies this
      ensures ok == old(up)
      ensures ok ==> store == old(store) - {key}
      ensures !ok ==> store == old(store)
      ensures now == old(now) && up == old(up)
      ensures ok ==> Get(key) == None
    {
      if !up {
        return false;
      }
      store := store - {key};
      return true;
    }

    /** `cache_player`: the player's data under `player:{id}`. */
    method CachePlayer(id: int, data: Json, ttl: int) returns (ok: bool)
      modifies this
      ensures ok <==> old(up) && EffectiveTtl(Some(ttl)) > 0
      ensures ok ==> store == old(store)[PlayerKey(id) := Entry(data, old(now) + EffectiveTtl(Some(ttl)))]
      ensures !ok ==> store == old(store)
      ensures now == old(now) && up == old(up)
      ensures ok ==> GetPlayer(id) == Some(data)
    {
      ok := Set(PlayerKey(id), data, Some(ttl));
    }

    function GetPlayer(id: int): (r: Option<Json>)
      reads this
      ensures r == Get(PlayerKey(id))
    {
      Get(PlayerKey(id))
    }

    /** `cache_query_result`: the result under `query:{hash(query)}`. */
    method CacheQueryResult(query: string, result: Json, ttl: int) returns (ok: bool)
      modifies this
      ensures ok <==> old(up) && EffectiveTtl(Some(ttl)) > 0
      ensures ok ==> store == old(store)[QueryKey(hash(query)) := Entry(result, old(now) + EffectiveTtl(Some(ttl)))]
      ensures !ok ==> store == old(store)
      ensures now == old(now) && up == old(up)
      ensures ok ==> GetQueryResult(query) == Some(result)
    {
      ok := Set(QueryKey(hash(query)), result, Some(ttl));
    }

    function GetQueryResult(query: string): (r: Option<Json>)
      reads this
      ensures r == Get(QueryKey(hash(query)))
    {
      Get(QueryKey(hash(query)))
    }

    /**
     * `increment_search`: Redis INCR on the player's counter (a missing or
     * expired counter counts from 0), then a fresh thirty-day expiry. A
     * counter holding anything but an integer makes INCR fail; that, and an
     * unreachable server, give 0 and change nothing.
     */
    method IncrementSearch(name: string) returns (count: int)
      modifies this
      ensures var key := SearchKey(name);
        var current := if old(Live(key)) then old(store[key].value) else JInt(0);
        if old(up) && current.JInt? then
          count == current.i + 1 && store == old(store)[key := Entry(JInt(count), old(now) + SearchTtl)]
        else
          count == 0 && store == old(store)
      ensures now == old(now) && up == old(up)
    {
      var key := SearchKey(name);
      if !up {
        return 0;
      }
      var current := if Live(key) then store[key].value else JInt(0);
      if !current.JInt? {
        return 0;
      }
      count := current.i + 1;
      store := store[key := Entry(JInt(count), now + SearchTtl)];
    }

    /** The live counters, as Redis `KEYS search_count:*` lists them. */
    function SearchKeys(): (ks: set<string>)
      reads this
      ensures forall k <- ks :: Live(k) && StartsWith(k, SearchPrefix)
    {
      set k | k in store && Live(k) && StartsWith(k, SearchPrefix)
    }

    /** The name and count reported for a counter whose value is an integer. */
    function PairOf(k: string): Popular
      reads this
      requires k in store && store[k].value.JInt?
    {
      (RemoveAll(k, SearchPrefix), store[k].value.i)
    }

    /** Every live counter holds an integer, so `int()` can read each one. */
    predicate CountersReadable()
      reads this
    {
      forall k <- SearchKeys() :: store[k].value.JInt?
    }

    /** The (name, count) pairs of the counters `order` lists, in that order. */
    function PairsOf(order: seq<string>): (ps: seq<Popular>)
      reads this
      requires forall k <- order :: k in store && store[k].value.JInt?
      ensures |ps| == |order| && forall i | 0 <= i < |order| :: ps[i] == PairOf(order[i])
    {
      if |order| == 0 then [] else PairsOf(order[..|order| - 1]) + [PairOf(order[|order| - 1])]
    }

    lemma PairsOfSnoc(order: seq<string>, k: string)
      requires forall k <- order :: k in store && store[k].value.JInt?
      requires k in store && store[k].value.JInt?
      ensures PairsOf(order + [k]) == PairsOf(order) + [PairOf(k)]
    {
      assert (order + [k])[..|order|] == order;
    }

    /**
     * The loop of `get_popular_players`: one (name, count) pair per live
     * counter, in the order `KEYS` lists them; False as soon as one counter
     * is not an integer.
     */
    method CollectCounts(keys: set<string>) returns (ok: bool, order: seq<string>, players: seq<Popular>)
      requires keys == SearchKeys()
      ensures ok <==> CountersReadable()
      ensures ok ==> |players| == |keys| && Lists(order, keys)
      ensures ok ==> players == PairsOf(order)
    {
      players, order := [], [];
      var remaining := keys;
      while remaining != {}
        invariant remaining <= keys && |order| + |remaining| == |keys|
        invariant forall k <- order :: k in keys && k !in remaining && store[k].value.JInt?
        invariant forall k <- keys :: k in order || k in remaining
        invariant forall i, j | 0 <= i < j < |order| :: order[i] != order[j]
        invariant players == PairsOf(order)
        decreases remaining
      {
        var k :| k in remaining;
        if !store[k].value.JInt? {
          return false, [], [];
        }
        PairsOfSnoc(order, k);
        players := players + [PairOf(k)];
        order := order + [k];
        remaining := remaining - {k};
      }
      return true, order, players;
    }

    /**
     * `get_popular_players`: (name, count) for every live counter, sorted
     * by count non-increasing, cut to `limit` with Python's slice rule. A
     * counter that `int()` cannot read, or an unreachable server, gives [].
     */
    method GetPopularPlayers(limit: int) returns (r: seq<Popular>)
      ensures !up || !CountersReadable() ==> r == []
      ensures up && CountersReadable() ==>
        exists order: seq<string> | Lists(order, SearchKeys()) ::
          r == Take(SortDesc(PairsOf(order)), limit)
      ensures up && CountersReadable() ==>
        |r| == SliceLength(|SearchKeys()|, limit)
        && SortedDesc(r)
        && (forall p <- r :: exists k <- SearchKeys() :: p == PairOf(k))
        && (forall k <- SearchKeys() :: PairOf(k) !in r ==> |r| == 0 || PairOf(k).1 <= r[|r| - 1].1)
    {
      if !up {
        return [];
      }
      var keys := SearchKeys();
      var ok, order, players := CollectCounts(keys);
      if !ok {
        return [];
      }
      r := Take(SortDesc(players), limit);
      PopularFromCounters(order, players, r, limit);
    }

    /** The facts `get_popular_players` offers, from the pairs it collected. */
    lemma PopularFromCounters(order: seq<string>, players: seq<Popular>, r: seq<Popular>, limit: int)
      requires CountersReadable() && Lists(order, SearchKeys())
      requires players == PairsOf(order) && |players| == |SearchKeys()|
      requires r == Take(SortDesc(players), limit)
      ensures |r| == SliceLength(|SearchKeys()|, limit) && SortedDesc(r)
      ensures forall p <- r :: exists k <- SearchKeys() :: p == PairOf(k)
      ensures forall k <- SearchKeys() :: PairOf(k) !in r ==> |r| == 0 || PairOf(k).1 <= r[|r| - 1].1
    {
      var sorted := SortDesc(players);
      TakeSorted(sorted, limit);
      forall k | k in SearchKeys()
        ensures PairOf(k) in sorted
      {
        CountedKeyListed(order, players, sorted, k);
      }
      forall p | p in r
        ensures exists k <- SearchKeys() :: p == PairOf(k)
      {
        ListedPairCounted(order, players, sorted, r, p);
      }
    }

    /** Every live counter's pair is among the sorted pairs. */
    lemma CountedKeyListed(order: seq<string>, players: seq<Popular>, sorted: seq<Popular>, k: string)
      requires CountersReadable() && Lists(order, SearchKeys())
      requires players == PairsOf(order) && multiset(sorted) == multiset(players)
      requires k in SearchKeys()
      ensures PairOf(k) in sorted
    {
      var i :| 0 <= i < |order| && order[i] == k;
      assert players[i] == PairOf(k);
      assert PairOf(k) in multiset(players);
    }

    /** Every reported pair is the pair of a live counter. */
    lemma ListedPairCounted(order: seq<string>, players: seq<Popular>, sorted: seq<Popular>, r: seq<Popular>, p: Popular)
      requires CountersReadable() && Lists(order, SearchKeys())
      requires players == PairsOf(order) && multiset(sorted) == multiset(players)
      requires |r| <= |sorted| && r == sorted[..|r|] && p in r
      ensures exists k <- SearchKeys() :: p == PairOf(k)
    {
      var j :| 0 <= j < |r| && r[j] == p;
      assert sorted[j] == p;
      assert p in multiset(sorted);
      assert p in players;
      var i :| 0 <= i < |players| && players[i] == p;
      assert order[i] in SearchKeys();
    }
  }
}
