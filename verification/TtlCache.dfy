/** The TTL cache, what it agrees on with its history, and the URL resolution that uses it. */
module TtlCache {
  import opened Support

  datatype Entry<V> = Entry(value: V, expiresAt: nat)

  datatype SetCall<V> = SetCall(key: string, value: V, ttl: nat, at: nat)

  predicate IsFresh<V>(e: Entry<V>, now: nat) { now <= e.expiresAt }

  function Purged<V>(m: map<string, Entry<V>>, now: nat): map<string, Entry<V>> {
    map k | k in m && IsFresh(m[k], now) :: m[k]
  }

  /** The entries after one set. */
  function Put<V>(m: map<string, Entry<V>>, limit: Option<nat>, c: SetCall<V>): map<string, Entry<V>> {
    var entry := Entry(c.value, c.at + c.ttl);
    if limit.Some? && |m| >= limit.value && c.key !in m then
      var kept := Purged(m, c.at);
      if |kept| >= limit.value then kept else kept[c.key := entry]
    else m[c.key := entry]
  }

  /** The entries after a history of sets. */
  function Held<V>(h: seq<SetCall<V>>, limit: Option<nat>): map<string, Entry<V>> {
    if |h| == 0 then map[] else Put(Held(h[..|h| - 1], limit), limit, h[|h| - 1])
  }

  lemma {:induction false} HeldGrows<V>(h: seq<SetCall<V>>, limit: Option<nat>, c: SetCall<V>)
    ensures Held(h + [c], limit) == Put(Held(h, limit), limit, c)
  {
    assert (h + [c])[..|h|] == h;
  }

  function Lookup<V>(m: map<string, Entry<V>>, key: string, now: nat): Option<V> {
    if key in m && IsFresh(m[key], now) then Some(m[key].value) else None
  }

  class Cache<V> {
    const limit: Option<nat>
    var entries: map<string, Entry<V>>
    ghost var history: seq<SetCall<V>>

    ghost predicate Valid()
      reads this
    {
      entries == Held(history, limit)
    }

    constructor (limit: Option<nat>)
      ensures Valid() && this.limit == limit && history == []
    {
      this.limit := limit;
      entries := map[];
      history := [];
    }

    /** Expired entries are not evicted here. */
    method Get(key: string, now: nat) returns (r: Option<V>)
      requires Valid()
      ensures r == Lookup(Held(history, limit), key, now)
    {
      if key in entries && now <= entries[key].expiresAt {
        return Some(entries[key].value);
      }
      return None;
    }

    method Set(key: string, value: V, ttl: nat, now: nat)
      requires Valid()
      modifies this
      ensures Valid() && history == old(history) + [SetCall(key, value, ttl, now)]
    {
      ghost var call := SetCall(key, value, ttl, now);
      HeldGrows(history, limit, call);
      history := history + [call];
      if limit.Some? && |entries| >= limit.value && key !in entries {
        entries := Purged(entries, now);
        if |entries| >= limit.value {
          return;
        }
      }
      entries := entries[key := Entry(value, now + ttl)];
    }
  }

  // ── agreement with the history ────────────────────────────────────────

  /** The most recent set of a key, by its place in the history. */
  function LastSet<V>(h: seq<SetCall<V>>, key: string): (i: Option<nat>)
    ensures i.Some? ==> i.value < |h| && h[i.value].key == key
    ensures i.Some? ==> forall k :: i.value < k < |h| ==> h[k].key != key
    ensures i.None? ==> forall k :: 0 <= k < |h| ==> h[k].key != key
  {
    if |h| == 0 then None
    else if h[|h| - 1].key == key then Some(|h| - 1)
    else LastSet(h[..|h| - 1], key)
  }

  predicate InOrder<V>(h: seq<SetCall<V>>) {
    forall i, k :: 0 <= i <= k < |h| ==> h[i].at <= h[k].at
  }

  /** The set found as many unexpired entries of other keys as the cache may hold. */
  predicate IsDropped<V>(h: seq<SetCall<V>>, limit: Option<nat>, i: nat)
    requires i < |h|
  {
    && limit.Some?
    && h[i].key !in Held(h[..i], limit)
    && |Purged(Held(h[..i], limit), h[i].at)| >= limit.value
  }

  lemma {:induction false} PurgedIsSmaller<V>(m: map<string, Entry<V>>, now: nat)
    ensures |Purged(m, now)| <= |m|
  {
    var p := Purged(m, now);
    assert p.Keys <= m.Keys;
    SubsetSize(p.Keys, m.Keys);
  }

  lemma {:induction false} SubsetSize<T>(a: set<T>, b: set<T>)
    requires a <= b
    ensures |a| <= |b|
  {
    assert b == a + (b - a);
  }

  /** The cache never holds more than its bound. */
  lemma {:induction false} SizeBounded<V>(h: seq<SetCall<V>>, limit: Option<nat>)
    requires limit.Some?
    ensures |Held(h, limit)| <= limit.value
  {
    if |h| > 0 {
      var m, c := Held(h[..|h| - 1], limit), h[|h| - 1];
      SizeBounded(h[..|h| - 1], limit);
      PurgedIsSmaller(m, c.at);
      if c.key in m { assert m[c.key := Entry(c.value, c.at + c.ttl)].Keys == m.Keys; }
    }
  }

  lemma {:induction false} DroppedAtOnce<V>(h: seq<SetCall<V>>, limit: Option<nat>)
    requires |h| > 0
    ensures var n := |h| - 1;
            h[n].key !in Held(h, limit) <==> IsDropped(h, limit, n)
  {
    var n := |h| - 1;
    PurgedIsSmaller(Held(h[..n], limit), h[n].at);
  }

  /**
   * What the cache holds for a key is its most recent set; and if it holds nothing,
   * there was no set, the most recent one was dropped, or it has expired by the
   * time of the latest set of any key.
   */
  lemma {:induction false} HeldIsLastSet<V>(h: seq<SetCall<V>>, limit: Option<nat>, key: string)
    requires InOrder(h)
    ensures var last := LastSet(h, key);
            var m := Held(h, limit);
            && (key in m ==> last.Some? && m[key] == Entry(h[last.value].value, h[last.value].at + h[last.value].ttl))
            && (key !in m && last.Some? ==>
                  IsDropped(h, limit, last.value) || h[last.value].at + h[last.value].ttl < h[|h| - 1].at)
  {
    if |h| > 0 {
      var n := |h| - 1;
      var front := h[..n];
      HeldIsLastSet(front, limit, key);
      DroppedAtOnce(h, limit);
      if h[n].key != key {
        var last := LastSet(h, key);
        assert last == LastSet(front, key);
        if last.Some? {
          assert h[..last.value] == front[..last.value];
          assert IsDropped(h, limit, last.value) <==> IsDropped(front, limit, last.value);
        }
      }
    }
  }

  lemma {:induction false} HitFromHeld<V>(h: seq<SetCall<V>>, limit: Option<nat>, key: string, now: nat)
    requires InOrder(h) && (|h| > 0 ==> h[|h| - 1].at <= now)
    ensures var last := LastSet(h, key);
            && (last.None? ==> Lookup(Held(h, limit), key, now) == None)
            && (last.Some? ==>
                  Lookup(Held(h, limit), key, now)
                  == if now <= h[last.value].at + h[last.value].ttl && !IsDropped(h, limit, last.value)
                     then Some(h[last.value].value) else None)
  {
    HeldIsLastSet(h, limit, key);
    if LastSet(h, key).Some? { DroppedStaysOut(h, limit, key); }
  }

  /** A dropped set leaves the key absent until the next set of it. */
  lemma {:induction false} DroppedStaysOut<V>(h: seq<SetCall<V>>, limit: Option<nat>, key: string)
    requires LastSet(h, key).Some?
    ensures IsDropped(h, limit, LastSet(h, key).value) ==> key !in Held(h, limit)
  {
    var n := |h| - 1;
    if h[n].key == key {
      DroppedAtOnce(h, limit);
    } else {
      var front := h[..n];
      var last := LastSet(h, key).value;
      assert LastSet(front, key) == Some(last);
      assert h[..last] == front[..last];
      assert IsDropped(h, limit, last) <==> IsDropped(front, limit, last);
      DroppedStaysOut(front, limit, key);
    }
  }

  // ── what was dropped, told from the calls alone ───────────────────────

  /** The keys but this call's own whose latest call was kept and has not expired by the time of this call. */
  ghost function LiveOthers<V>(h: seq<SetCall<V>>, limit: Option<nat>, i: nat): set<string>
    requires i < |h|
    decreases i, 0
  {
    set k | 0 <= k < i && h[k].key != h[i].key && (forall l :: k < l < i ==> h[l].key != h[k].key)
            && h[k].at + h[k].ttl >= h[i].at && !WasDropped(h, limit, k) :: h[k].key
  }

  /** The call found as many of them as the cache may hold. */
  ghost predicate WasDropped<V>(h: seq<SetCall<V>>, limit: Option<nat>, i: nat)
    requires i < |h|
    decreases i, 1
  {
    limit.Some? && |LiveOthers(h, limit, i)| >= limit.value
  }

  lemma {:induction false} UnpurgedHit<V>(m: map<string, Entry<V>>, key: string, now: nat)
    ensures key in Purged(m, now) <==> Lookup(m, key, now).Some?
  {
  }

  lemma {:induction false} LastOfPrefix<V>(h: seq<SetCall<V>>, i: nat, key: string)
    requires i <= |h|
    ensures match LastSet(h[..i], key)
            case None => forall k :: 0 <= k < i ==> h[k].key != key
            case Some(k) => k < i && h[k].key == key && forall l :: k < l < i ==> h[l].key != key
  {
  }

  /** What has not expired is what was kept. */
  lemma {:induction false} LiveIsUnpurged<V>(h: seq<SetCall<V>>, limit: Option<nat>, i: nat, key: string)
    requires InOrder(h) && i < |h| && key != h[i].key
    requires forall k :: 0 <= k < i ==> (WasDropped(h, limit, k) <==> IsDropped(h, limit, k))
    ensures key in LiveOthers(h, limit, i) <==> key in Purged(Held(h[..i], limit), h[i].at)
  {
    var front := h[..i];
    LastOfPrefix(h, i, key);
    HitFromHeld(front, limit, key, h[i].at);
    UnpurgedHit(Held(front, limit), key, h[i].at);
    match LastSet(front, key)
    case None =>
    case Some(k) =>
      assert front[..k] == h[..k];
      assert IsDropped(front, limit, k) <==> IsDropped(h, limit, k);
  }

  lemma {:induction false} OthersCount<V>(h: seq<SetCall<V>>, limit: Option<nat>, i: nat)
    requires InOrder(h) && i < |h| && limit.Some?
    requires forall k :: 0 <= k < i ==> (WasDropped(h, limit, k) <==> IsDropped(h, limit, k))
    ensures WasDropped(h, limit, i) <==> IsDropped(h, limit, i)
  {
    var m, key := Held(h[..i], limit), h[i].key;
    var p := Purged(m, h[i].at);
    assert LiveOthers(h, limit, i) == p.Keys - {key} by {
      forall k ensures k in LiveOthers(h, limit, i) <==> k in p.Keys - {key} {
        if k != key { LiveIsUnpurged(h, limit, i, k); }
      }
    }
    if key in m {
      SizeBounded(h[..i], limit);
      SubsetSize(p.Keys - {key}, m.Keys - {key});
      assert |m.Keys - {key}| == |m.Keys| - 1;
    } else {
      assert p.Keys - {key} == p.Keys;
    }
  }

  /** The two ways to say it agree. */
  lemma {:induction false} DroppedIsTold<V>(h: seq<SetCall<V>>, limit: Option<nat>, i: nat)
    requires InOrder(h) && i < |h|
    ensures WasDropped(h, limit, i) <==> IsDropped(h, limit, i)
    decreases i
  {
    forall k | 0 <= k < i ensures WasDropped(h, limit, k) <==> IsDropped(h, limit, k) { DroppedIsTold(h, limit, k); }
    if limit.Some? { OthersCount(h, limit, i); }
  }

  /**
   * A set is dropped exactly when the bound is used up by other keys: as many as the
   * cache may hold whose latest set was not dropped and has not expired.
   */
  lemma {:induction false} DroppedExactlyWhenFull<V>(h: seq<SetCall<V>>, limit: Option<nat>)
    requires InOrder(h) && |h| > 0
    ensures var n := |h| - 1; h[n].key !in Held(h, limit) <==> WasDropped(h, limit, n)
  {
    DroppedAtOnce(h, limit);
    DroppedIsTold(h, limit, |h| - 1);
  }

  /**
   * TTL cache agrees with its history: a hit is the value of the most recent set of
   * that key while its TTL holds; a miss means there is no such set, or it has
   * expired, or it was dropped for want of room.
   */
  lemma {:induction false} HitIsLatest<V>(h: seq<SetCall<V>>, limit: Option<nat>, key: string, now: nat)
    requires InOrder(h) && (|h| > 0 ==> h[|h| - 1].at <= now)
    ensures var last := LastSet(h, key);
            && (last.None? ==> Lookup(Held(h, limit), key, now) == None)
            && (last.Some? ==>
                  Lookup(Held(h, limit), key, now)
                  == if now <= h[last.value].at + h[last.value].ttl && !WasDropped(h, limit, last.value)
                     then Some(h[last.value].value) else None)
  {
    HitFromHeld(h, limit, key, now);
    if LastSet(h, key).Some? { DroppedIsTold(h, limit, LastSet(h, key).value); }
  }

  /** An unbounded cache drops nothing, so a lookup is exactly the latest set within its TTL. */
  lemma {:induction false} UnboundedDropsNothing<V>(h: seq<SetCall<V>>, key: string, now: nat)
    requires InOrder(h) && (|h| > 0 ==> h[|h| - 1].at <= now)
    ensures Lookup(Held(h, None), key, now)
            == match LastSet(h, key)
               case None => None
               case Some(i) => if now <= h[i].at + h[i].ttl then Some(h[i].value) else None
  {
    HitIsLatest(h, None, key, now);
  }

  // ── URL resolution ────────────────────────────────────────────────────

  const HOUR: nat := 3_600_000_000_000
  const URL_TTL: nat := 4 * HOUR

  /** What .well-known discovery came back with. */
  datatype Discovery = Failed(error: string) | NoRecord | Found(url: string)

  datatype Resolution = Url(url: string) | Unresolved(error: string)

  /** A non-empty URL that discovery returned for a server at some time. */
  datatype Finding = Finding(server: string, url: string, at: nat)

  /** The entry was discovered for this server and expires four hours later. */
  ghost predicate IsDiscovered(findings: seq<Finding>, server: string, e: Entry<string>) {
    exists i :: 0 <= i < |findings| && findings[i].server == server
      && findings[i].url == e.value != "" && e.expiresAt == findings[i].at + URL_TTL
  }

  ghost predicate AllDiscovered(findings: seq<Finding>, entries: map<string, Entry<string>>) {
    forall k :: k in entries ==> IsDiscovered(findings, k, entries[k])
  }

  lemma {:induction false} DiscoveredStays(findings: seq<Finding>, more: seq<Finding>, server: string, e: Entry<string>)
    requires findings <= more && IsDiscovered(findings, server, e)
    ensures IsDiscovered(more, server, e)
  {
    var i :| 0 <= i < |findings| && findings[i].server == server
      && findings[i].url == e.value && e.expiresAt == findings[i].at + URL_TTL;
    assert more[i] == findings[i];
  }

  /** One more set keeps the cache to discovered entries. */
  lemma {:induction false} SetKeepsDiscovered(h: seq<SetCall<string>>, limit: Option<nat>,
      findings: seq<Finding>, f: Finding)
    requires |h| > 0 && h[|h| - 1] == SetCall(f.server, f.url, URL_TTL, f.at) && f.url != ""
    requires AllDiscovered(findings, Held(h[..|h| - 1], limit))
    ensures AllDiscovered(findings + [f], Held(h, limit))
  {
    var before, after := Held(h[..|h| - 1], limit), Held(h, limit);
    SetKeepsOthers(h, limit);
    forall k | k in after ensures IsDiscovered(findings + [f], k, after[k]) {
      if k in before && after[k] == before[k] {
        DiscoveredStays(findings, findings + [f], k, after[k]);
      } else {
        assert (findings + [f])[|findings|] == f;
      }
    }
  }

  class Resolver {
    const overrides: map<string, string>
    const cache: Cache?<string>
    ghost var findings: seq<Finding>

    /** Everything in the cache was discovered for its server and expires four hours later. */
    ghost predicate Valid()
      reads this, cache
    {
      cache != null ==> cache.Valid() && AllDiscovered(findings, cache.entries)
    }

    constructor (overrides: map<string, string>, cache: Cache?<string>)
      requires cache != null ==> cache.Valid() && cache.entries == map[]
      ensures Valid() && this.overrides == overrides && this.cache == cache && findings == []
    {
      this.overrides, this.cache := overrides, cache;
      findings := [];
    }

    predicate HasOverride(server: string) {
      server in overrides && overrides[server] != ""
    }

    function Cached(server: string, now: nat): Option<string>
      reads this, cache
    {
      if cache == null then None else Lookup(cache.entries, server, now)
    }

    /**
     * Overrides win over the cache, which wins over discovery. `asked` is the time
     * of the call, `answered` when discovery (if it was needed) came back. A URL that
     * is returned is never empty: it is this server's override, or was discovered
     * for this server at most four hours before the call, or just now.
     */
    method Resolve(server: string, asked: nat, discovered: Discovery, answered: nat) returns (r: Resolution)
      requires Valid() && asked <= answered
      modifies this, cache
      ensures Valid()
      ensures r.Url? ==>
                && r.url != ""
                && (|| (HasOverride(server) && overrides[server] == r.url)
                    || (exists i :: 0 <= i < |findings| && findings[i].server == server
                                    && findings[i].url == r.url && asked <= findings[i].at + URL_TTL))
      ensures HasOverride(server) ==> r == Url(overrides[server])
      ensures !HasOverride(server) && old(Cached(server, asked)).Some? ==> r == Url(old(Cached(server, asked)).value)
      ensures !HasOverride(server) && old(Cached(server, asked)).None? ==>
                if discovered.Found? && discovered.url != ""
                then r == Url(discovered.url) && findings == old(findings) + [Finding(server, discovered.url, answered)]
                else r.Unresolved? && findings == old(findings)
      ensures r.Unresolved? ==>
                r.error == if discovered.Failed? then discovered.error
                           else "no .well-known/matrix/client record found for " + server
      ensures HasOverride(server) || old(Cached(server, asked)).Some? ==> findings == old(findings)
      ensures cache != null ==>
                cache.history == old(cache.history)
                + if findings == old(findings) then [] else [SetCall(server, r.url, 14_400_000_000_000, answered)]
      ensures findings != old(findings) && cache != null
              && (cache.limit.None? || |old(cache.entries)| < cache.limit.value || server in old(cache.entries))
              ==> forall t :: answered <= t <= answered + 14_400_000_000_000 ==> Cached(server, t) == Some(r.url)
    {
      if HasOverride(server) {
        return Url(overrides[server]);
      }
      if cache != null {
        var hit := cache.Get(server, asked);
        if hit.Some? {
          assert IsDiscovered(findings, server, cache.entries[server]);
          return Url(hit.value);
        }
      }
      match discovered
      case Failed(error) => return Unresolved(error);
      case NoRecord => return Unresolved("no .well-known/matrix/client record found for " + server);
      case Found(url) => {
        if url == "" {
          return Unresolved("no .well-known/matrix/client record found for " + server);
        }
        Remember(server, url, answered);
        assert findings[|findings| - 1] == Finding(server, url, answered);
        return Url(url);
      }
    }

    method Remember(server: string, url: string, now: nat)
      requires Valid() && url != ""
      modifies this, cache
      ensures Valid() && findings == old(findings) + [Finding(server, url, now)]
      ensures cache != null ==> cache.history == old(cache.history) + [SetCall(server, url, URL_TTL, now)]
      ensures cache != null
              && (cache.limit.None? || |old(cache.entries)| < cache.limit.value || server in old(cache.entries))
              ==> server in cache.entries && cache.entries[server] == Entry(url, now + URL_TTL)
    {
      ghost var f := Finding(server, url, now);
      if cache != null {
        cache.Set(server, url, URL_TTL, now);
        SetKeepsDiscovered(cache.history, cache.limit, findings, f);
      }
      findings := findings + [f];
    }
  }

  /**
   * One discovery serves four hours: when a first call had to discover the URL and
   * the cache had room for it, a second call within that time returns the same URL,
   * whatever discovery would say by then.
   */
  method ResolveTwice(resolver: Resolver, server: string, asked: nat, url: string, answered: nat,
      later: nat, discovered: Discovery, end: nat) returns (first: Resolution, second: Resolution)
    requires resolver.Valid() && !resolver.HasOverride(server) && resolver.Cached(server, asked) == None && url != ""
    requires asked <= answered <= later <= answered + 4 * 3600 * 1_000_000_000 && later <= end
    requires var c := resolver.cache;
             c != null && (c.limit.None? || |c.entries| < c.limit.value || server in c.entries)
    modifies resolver, resolver.cache
    ensures first == second == Url(url)
  {
    first := resolver.Resolve(server, asked, Found(url), answered);
    second := resolver.Resolve(server, later, discovered, end);
  }

  /** A set changes no entry but its own. */
  lemma {:induction false} SetKeepsOthers<V>(h: seq<SetCall<V>>, limit: Option<nat>)
    requires |h| > 0
    ensures var n := |h| - 1;
            var before, after := Held(h[..n], limit), Held(h, limit);
            forall k :: k in after ==>
              (k in before && after[k] == before[k])
              || (k == h[n].key && after[k] == Entry(h[n].value, h[n].at + h[n].ttl))
  {
  }
}
