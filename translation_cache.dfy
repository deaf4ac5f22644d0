/**
 * The expiring LRU translation cache: (message, language) -> translated text.
 *
 * The source keeps an access-ordered hash map whose "remove eldest" hook runs after
 * every insertion of a new key. Here the map (`entries`) and its recency order
 * (`order`, least recently used first) are kept side by side; `PutStep` and
 * `GetStep` say what one `put` or `get` does to both, and the class methods are
 * proved to perform exactly those steps.
 */
module Cache {
  import opened Base
  import opened Text

  /** The separator between message and language inside a composite key. */
  const Separator: char := '\U{1}'

  /** The smallest entry bound and time-to-live the constructor lets through. */
  const MinEntries: int := 100
  const MinTtlSeconds: int := 10

  /** One cached translation and the epoch second it was written. */
  datatype Entry = Entry(value: string, timestamp: int)

  /** The cache's contents: the map and the recency order of its keys. */
  datatype CacheState = CacheState(entries: map<string, Entry>, order: seq<string>)

  /** What a `get` leaves behind and what it answers. */
  datatype Lookup = Lookup(state: CacheState, hit: Option<string>)

  /** `Math.max(floor, requested)`: the bound the constructor stores. */
  function Clamp(requested: int, floor: int): (r: int)
    ensures r >= floor && r >= requested
    ensures r == floor || r == requested
  {
    if requested < floor then floor else requested
  }

  /**
   * `keyOf(message, lang)`: the message (null as ""), the separator, then the
   * language lower-cased (null as "").
   */
  function KeyOf(message: Option<string>, lang: Option<string>): string {
    message.GetOr("") + [Separator] + ToLower(lang.GetOr(""))
  }

  /** `s` with every occurrence of `k` taken out, the rest in order. */
  function Without(s: seq<string>, k: string): (r: seq<string>)
    ensures forall x :: x in r <==> x in s && x != k
    ensures Distinct(s) ==> Distinct(r)
    ensures |r| <= |s|
  {
    if s == [] then []
    else
      assert Distinct(s) ==> Distinct(s[1..]) && s[0] !in s[1..];
      if s[0] == k then Without(s[1..], k)
    else [s[0]] + Without(s[1..], k)
  }

  /**
   * The state invariant: the order lists each key of the map exactly once, and the
   * map holds at most `maxEntries` entries.
   */
  ghost predicate WellFormed(st: CacheState, maxEntries: int) {
    && Distinct(st.order)
    && (forall k :: k in st.entries <==> k in st.order)
    && |st.entries| <= maxEntries
  }

  /** An entry still within its time-to-live at `now` (the source's test is a strict `>`). */
  predicate IsFresh(st: CacheState, key: string, now: int, ttlSeconds: int) {
    key in st.entries && now - st.entries[key].timestamp <= ttlSeconds
  }

  /**
   * `map.put(key, entry)` on the access-ordered map: the key becomes most recently
   * used; a new key that makes the size exceed `maxEntries` evicts the eldest key.
   */
  function PutStep(st: CacheState, key: string, entry: Entry, maxEntries: int): CacheState {
    if key in st.entries then
      CacheState(st.entries[key := entry], Without(st.order, key) + [key])
    else
      var entries := st.entries[key := entry];
      var order := st.order + [key];
      if |entries| > maxEntries then CacheState(entries - {order[0]}, order[1..])
      else CacheState(entries, order)
  }

  /**
   * `get(key)`: an absent key changes nothing; an expired entry is removed and
   * reported absent; a live entry is returned and becomes most recently used.
   */
  function GetStep(st: CacheState, key: string, now: int, ttlSeconds: int): Lookup {
    if key !in st.entries then Lookup(st, None)
    else if now - st.entries[key].timestamp > ttlSeconds then
      Lookup(CacheState(st.entries - {key}, Without(st.order, key)), None)
    else
      Lookup(CacheState(st.entries, Without(st.order, key) + [key]), Some(st.entries[key].value))
  }

  // ---------- the class ----------

  /** `TranslationCache`: the shared cache with a fixed bound and time-to-live. */
  class TranslationCache {
    const maxEntries: int
    const ttlSeconds: int
    var entries: map<string, Entry>
    var order: seq<string>

    ghost predicate Valid()
      reads this
    {
      maxEntries >= MinEntries && ttlSeconds >= MinTtlSeconds
      && WellFormed(CacheState(entries, order), maxEntries)
    }

    function State(): CacheState
      reads this
    {
      CacheState(entries, order)
    }

    /** Both bounds are clamped to their floors; the cache starts empty. */
    constructor (maxEntries: int, ttlSeconds: int)
      ensures Valid()
      ensures this.maxEntries == Clamp(maxEntries, MinEntries)
      ensures this.ttlSeconds == Clamp(ttlSeconds, MinTtlSeconds)
      ensures State() == CacheState(map[], [])
    {
      this.maxEntries := Clamp(maxEntries, MinEntries);
      this.ttlSeconds := Clamp(ttlSeconds, MinTtlSeconds);
      this.entries := map[];
      this.order := [];
    }

    /** `put(message, lang, translated)` at epoch second `now`. */
    method Put(message: Option<string>, lang: Option<string>, translated: string, now: int)
      requires Valid()
      modifies this
      ensures Valid()
      ensures State() == PutStep(old(State()), KeyOf(message, lang), Entry(translated, now), maxEntries)
    {
      var key := KeyOf(message, lang);
      PutPreservesWellFormed(State(), key, Entry(translated, now), maxEntries);
      if key in entries {
        entries := entries[key := Entry(translated, now)];
        order := Without(order, key) + [key];
      } else {
        entries := entries[key := Entry(translated, now)];
        order := order + [key];
        if |entries| > maxEntries {
          var eldest := order[0];
          entries := entries - {eldest};
          order := order[1..];
        }
      }
    }

    /** `get(message, lang)` at epoch second `now`. */
    method Get(message: Option<string>, lang: Option<string>, now: int) returns (r: Option<string>)
      requires Valid()
      modifies this
      ensures Valid()
      ensures State() == GetStep(old(State()), KeyOf(message, lang), now, ttlSeconds).state
      ensures r == GetStep(old(State()), KeyOf(message, lang), now, ttlSeconds).hit
    {
      var key := KeyOf(message, lang);
      GetPreservesWellFormed(State(), key, now, ttlSeconds, maxEntries);
      if key !in entries {
        return None;
      }
      var e := entries[key];
      order := Without(order, key) + [key];
      if now - e.timestamp > ttlSeconds {
        entries := entries - {key};
        order := Without(order, key);
        WithoutTwice(old(order), key);
        return None;
      }
      return Some(e.value);
    }
  }

  // ---------- properties of the steps ----------

  /** A distinct sequence has as many elements as its set of elements. */
  lemma {:induction false} DistinctCard(s: seq<string>)
    requires Distinct(s)
    ensures |Elements(s)| == |s|
  {
    if s != [] {
      DistinctCard(s[1..]);
      assert Elements(s) == {s[0]} + Elements(s[1..]);
      assert s[0] !in Elements(s[1..]);
    }
  }

  /** In a well-formed state the map has exactly as many keys as the order. */
  lemma SizeIsOrderLength(st: CacheState, maxEntries: int)
    requires WellFormed(st, maxEntries)
    ensures |st.entries| == |st.order|
  {
    DistinctCard(st.order);
    assert st.entries.Keys == Elements(st.order);
  }

  lemma {:induction false} WithoutTwice(s: seq<string>, k: string)
    ensures Without(Without(s, k) + [k], k) == Without(s, k)
  {
    WithoutAppend(Without(s, k), k);
    WithoutAbsent(Without(s, k), k);
  }

  lemma {:induction false} WithoutAppend(s: seq<string>, k: string)
    ensures Without(s + [k], k) == Without(s, k)
  {
    if s != [] {
      assert (s + [k])[1..] == s[1..] + [k];
      WithoutAppend(s[1..], k);
    }
  }

  lemma {:induction false} WithoutAbsent(s: seq<string>, k: string)
    requires k !in s
    ensures Without(s, k) == s
  {
    if s != [] {
      WithoutAbsent(s[1..], k);
    }
  }

  /** `put` keeps the invariant: in particular the size never exceeds the bound. */
  lemma PutPreservesWellFormed(st: CacheState, key: string, entry: Entry, maxEntries: int)
    requires WellFormed(st, maxEntries) && maxEntries >= 1
    ensures WellFormed(PutStep(st, key, entry, maxEntries), maxEntries)
  {
    SizeIsOrderLength(st, maxEntries);
    var r := PutStep(st, key, entry, maxEntries);
    if key !in st.entries {
      var order := st.order + [key];
      assert Distinct(order);
      if |st.entries[key := entry]| > maxEntries {
        assert order[0] in st.entries[key := entry];
        assert Distinct(order[1..]) && order[0] !in order[1..];
        assert forall k :: k in order <==> k == order[0] || k in order[1..];
        assert forall k :: k in st.entries[key := entry] - {order[0]} <==> k in order[1..];
      }
    }
  }

  /** `get` keeps the invariant. */
  lemma GetPreservesWellFormed(st: CacheState, key: string, now: int, ttlSeconds: int, maxEntries: int)
    requires WellFormed(st, maxEntries)
    ensures WellFormed(GetStep(st, key, now, ttlSeconds).state, maxEntries)
  {
    if key in st.entries {
      assert Distinct(Without(st.order, key) + [key]);
    }
  }

  /**
   * Capacity and eviction: a new key added to a full cache evicts exactly the least
   * recently used key; otherwise no key is lost. The size stays within the bound.
   */
  lemma PutEvictsLeastRecentlyUsed(st: CacheState, key: string, entry: Entry, maxEntries: int)
    requires WellFormed(st, maxEntries) && maxEntries >= 1
    ensures var r := PutStep(st, key, entry, maxEntries);
      && |r.entries| <= maxEntries
      && (if key !in st.entries && |st.entries| == maxEntries
          then r.entries.Keys == st.entries.Keys - {st.order[0]} + {key}
          else r.entries.Keys == st.entries.Keys + {key})
  {
    PutPreservesWellFormed(st, key, entry, maxEntries);
    if key !in st.entries {
      if |st.entries| == maxEntries {
        PutIntoFull(st, key, entry, maxEntries);
      } else {
        PutIntoRoom(st, key, entry, maxEntries);
      }
    }
  }

  /**
   * The key put becomes the most recently used and carries the new entry; every
   * other key still present keeps its entry.
   */
  lemma PutMakesMostRecent(st: CacheState, key: string, entry: Entry, maxEntries: int)
    requires WellFormed(st, maxEntries) && maxEntries >= 1
    ensures var r := PutStep(st, key, entry, maxEntries);
      && key in r.entries && r.entries[key] == entry
      && r.order[|r.order| - 1] == key
      && (forall k :: k in r.entries && k != key ==> r.entries[k] == st.entries[k])
  {
    if key !in st.entries {
      if |st.entries| == maxEntries {
        PutIntoFull(st, key, entry, maxEntries);
      } else {
        PutIntoRoom(st, key, entry, maxEntries);
      }
    }
  }

  /** A new key put into a full cache: the eldest key goes, the new one comes last. */
  lemma PutIntoFull(st: CacheState, key: string, entry: Entry, maxEntries: int)
    requires WellFormed(st, maxEntries) && maxEntries >= 1
    requires key !in st.entries && |st.entries| == maxEntries
    ensures |st.order| >= 1 && st.order[0] in st.entries && st.order[0] != key
    ensures PutStep(st, key, entry, maxEntries) == CacheState(st.entries[key := entry] - {st.order[0]}, st.order[1..] + [key])
  {
    SizeIsOrderLength(st, maxEntries);
    assert |st.entries[key := entry]| == maxEntries + 1;
    assert (st.order + [key])[1..] == st.order[1..] + [key];
  }

  /** A new key put into a cache with room: nothing goes, the new key comes last. */
  lemma PutIntoRoom(st: CacheState, key: string, entry: Entry, maxEntries: int)
    requires WellFormed(st, maxEntries)
    requires key !in st.entries && |st.entries| < maxEntries
    ensures PutStep(st, key, entry, maxEntries) == CacheState(st.entries[key := entry], st.order + [key])
  {
    assert |st.entries[key := entry]| == |st.entries| + 1;
  }

  /** Overwriting a present key replaces its entry wholesale and keeps the size. */
  lemma PutExistingKeepsSize(st: CacheState, key: string, entry: Entry, maxEntries: int)
    requires WellFormed(st, maxEntries) && key in st.entries
    ensures var r := PutStep(st, key, entry, maxEntries);
      |r.entries| == |st.entries| && r.entries == st.entries[key := entry]
  {
  }

  /**
   * Put, then get at `now`: the value comes back while `now - written <= ttl`
   * (an entry exactly `ttl` seconds old is still served), and not afterwards.
   */
  lemma PutThenGet(st: CacheState, key: string, v: string, written: int, now: int,
                   ttlSeconds: int, maxEntries: int)
    requires WellFormed(st, maxEntries) && maxEntries >= 1
    ensures var after := PutStep(st, key, Entry(v, written), maxEntries);
      GetStep(after, key, now, ttlSeconds).hit == if now - written <= ttlSeconds then Some(v) else None
  {
    PutMakesMostRecent(st, key, Entry(v, written), maxEntries);
  }

  /** An expired entry is reported absent and removed; no other key changes. */
  lemma GetExpiredRemovesOnlyThatKey(st: CacheState, key: string, now: int, ttlSeconds: int)
    requires key in st.entries && now - st.entries[key].timestamp > ttlSeconds
    ensures var l := GetStep(st, key, now, ttlSeconds);
      l.hit == None && key !in l.state.entries
      && (forall k :: k != key ==> (k in l.state.entries <==> k in st.entries))
      && (forall k :: k in l.state.entries ==> l.state.entries[k] == st.entries[k])
  {
  }

  /** A successful `get` answers the stored value and makes the key most recently used. */
  lemma GetHitRefreshesRecency(st: CacheState, key: string, now: int, ttlSeconds: int, maxEntries: int)
    requires WellFormed(st, maxEntries) && IsFresh(st, key, now, ttlSeconds)
    ensures var l := GetStep(st, key, now, ttlSeconds);
      && l.hit == Some(st.entries[key].value)
      && l.state.entries == st.entries
      && l.state.order[|l.state.order| - 1] == key
      && Elements(l.state.order) == Elements(st.order)
  {
  }

  /** `get` hits exactly when the entry is present and within its time-to-live. */
  lemma GetHitIffFresh(st: CacheState, key: string, now: int, ttlSeconds: int)
    ensures GetStep(st, key, now, ttlSeconds).hit.Some? <==> IsFresh(st, key, now, ttlSeconds)
    ensures IsFresh(st, key, now, ttlSeconds) ==>
      GetStep(st, key, now, ttlSeconds).hit == Some(st.entries[key].value)
  {
  }

  /** A `get` at `now` leaves every key as fresh, and with the same value, as it found it. */
  lemma GetKeepsFreshness(st: CacheState, key: string, other: string, now: int, ttlSeconds: int)
    ensures var s := GetStep(st, key, now, ttlSeconds).state;
      && (IsFresh(s, other, now, ttlSeconds) <==> IsFresh(st, other, now, ttlSeconds))
      && (IsFresh(st, other, now, ttlSeconds) ==> s.entries[other] == st.entries[other])
  {
  }

  /**
   * LRU in action: in a full cache, a key that has just been read survives the
   * insertion of a new key (the eviction takes the least recently used one instead).
   */
  lemma ReadKeyOutlivesNextEviction(st: CacheState, read: string, added: string, e: Entry,
                                     now: int, ttlSeconds: int, maxEntries: int)
    requires WellFormed(st, maxEntries) && maxEntries >= 2 && |st.entries| == maxEntries
    requires IsFresh(st, read, now, ttlSeconds)
    requires added !in st.entries
    ensures var afterGet := GetStep(st, read, now, ttlSeconds).state;
      var afterPut := PutStep(afterGet, added, e, maxEntries);
      read in afterPut.entries && added in afterPut.entries
      && afterPut.entries[read] == st.entries[read]
  {
    var afterGet := GetStep(st, read, now, ttlSeconds).state;
    GetPreservesWellFormed(st, read, now, ttlSeconds, maxEntries);
    SizeIsOrderLength(afterGet, maxEntries);
    var o := afterGet.order;
    assert o[|o| - 1] == read;
    assert o[0] != read;
    PutEvictsLeastRecentlyUsed(afterGet, added, e, maxEntries);
    PutMakesMostRecent(afterGet, added, e, maxEntries);
  }

  // ---------- properties of the key ----------

  /** A null message and a null language count as the empty string. */
  lemma KeyOfNullIsEmpty(message: Option<string>, lang: Option<string>)
    ensures KeyOf(None, lang) == KeyOf(Some(""), lang)
    ensures KeyOf(message, None) == KeyOf(message, Some(""))
  {
  }

  /** The language is compared ignoring case: "(m, ES)" and "(m, es)" share a key. */
  lemma KeyOfIgnoresLangCase(message: Option<string>, lang: string)
    ensures KeyOf(message, Some(lang)) == KeyOf(message, Some(ToLower(lang)))
  {
    ToLowerIdempotent(lang);
  }

  /**
   * The key is injective: two (message, language) pairs whose languages hold no
   * separator share a key exactly when the messages are equal and the languages
   * are equal ignoring case.
   */
  lemma KeyOfInjective(m1: string, l1: string, m2: string, l2: string)
    requires Separator !in l1 && Separator !in l2
    ensures KeyOf(Some(m1), Some(l1)) == KeyOf(Some(m2), Some(l2))
        <==> m1 == m2 && ToLower(l1) == ToLower(l2)
  {
    var a, b := ToLower(l1), ToLower(l2);
    ToLowerKeepsOut(l1, Separator);
    ToLowerKeepsOut(l2, Separator);
    var k1, k2 := m1 + [Separator] + a, m2 + [Separator] + b;
    assert k1[..|m1|] == m1 && k1[|m1|] == Separator && k1[|m1| + 1..] == a;
    assert k2[..|m2|] == m2 && k2[|m2|] == Separator && k2[|m2| + 1..] == b;
    if k1 == k2 {
      assert |m1| <= |m2| by {
        assert k1[|m1|] !in k2[|m2| + 1..];
      }
      assert |m2| <= |m1| by {
        assert k2[|m2|] !in k1[|m1| + 1..];
      }
    }
  }

  // ---------- a client ----------

  /**
   * A put under "es" is found by a get under "ES" while the entry is within its
   * time-to-live, including exactly at the boundary, and is gone one second later.
   */
  method CaseAndBoundaryScenario() returns (atBoundary: Option<string>, late: Option<string>)
    ensures atBoundary == Some("hola") && late == None
  {
    assert ToLower("ES") == "es" && ToLower("Es") == "es" && ToLower("es") == "es";
    var c := new TranslationCache(1000, 300);
    c.Put(Some("hello"), Some("es"), "hola", 1000);
    atBoundary := c.Get(Some("hello"), Some("ES"), 1300);
    late := c.Get(Some("hello"), Some("Es"), 1301);
  }
}
