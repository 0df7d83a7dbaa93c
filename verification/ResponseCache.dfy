/** The in-process response cache: exact-match entries that lapse a fixed time after they were written. */
module ResponseCache {
  import opened Ledger

  /** What an entry is keyed by besides its tenant; the digest is read as the request it identifies. */
  datatype CacheKey = CacheKey(provider: string, model: string, payload: string)

  datatype Content = Text(text: string) | Structured(encoded: string)

  datatype CachedResponse = CachedResponse(provider: string, model: string, content: Option<Content>)

  datatype Entry = Entry(response: CachedResponse, expiresAt: int)

  type Store = map<(Org, CacheKey), Entry>

  datatype Found = Hit(response: CachedResponse) | Miss | CacheUnavailable

  function Fresh(store: Store, org: Org, key: CacheKey, now: int): Found {
    if (org, key) in store && now < store[(org, key)].expiresAt then Hit(store[(org, key)].response) else Miss
  }

  /** The store once other requests have written so much more; an unavailable one takes nothing. */
  function Grown(store: Store, unavailable: bool, entries: Store): Store {
    if unavailable then store else store + entries
  }

  class InMemoryResponseCache {
    const ttl: int
    const unavailable: bool
    var store: Store

    constructor (ttl: int, unavailable: bool)
      ensures this.ttl == ttl && this.unavailable == unavailable && store == map[]
    {
      this.ttl, this.unavailable := ttl, unavailable;
      store := map[];
    }

    method Get(org: Org, key: CacheKey, now: int) returns (found: Found)
      ensures found == if unavailable then CacheUnavailable else Fresh(store, org, key, now)
    {
      if unavailable { return CacheUnavailable; }
      if (org, key) !in store { return Miss; }
      var entry := store[(org, key)];
      if entry.expiresAt <= now { return Miss; }
      found := Hit(entry.response);
    }

    method Put(org: Org, key: CacheKey, response: CachedResponse, now: int) returns (stored: bool)
      modifies this
      ensures stored == !unavailable
      ensures store == if stored then old(store)[(org, key) := Entry(response, now + ttl)] else old(store)
    {
      if unavailable { return false; }
      store := store[(org, key) := Entry(response, now + ttl)];
      stored := true;
    }

    /** What other requests write in the meantime. */
    method Elsewhere(entries: Store)
      modifies this
      ensures store == Grown(old(store), unavailable, entries)
    {
      if !unavailable {
        store := store + entries;
      }
    }
  }

  // ---------------------------------------------------------------- what a lookup says about the writes

  datatype Write = Write(org: Org, key: CacheKey, response: CachedResponse, at: int)

  function Written(ttl: int, writes: seq<Write>): Store {
    if writes == [] then map[]
    else
      var w := writes[|writes| - 1];
      Written(ttl, writes[..|writes| - 1])[(w.org, w.key) := Entry(w.response, w.at + ttl)]
  }

  /** Write `i` is the tenant's last one under that key. */
  predicate LastWrite(writes: seq<Write>, org: Org, key: CacheKey, i: int) {
    && 0 <= i < |writes| && writes[i].org == org && writes[i].key == key
    && forall j :: i < j < |writes| ==> writes[j].org != org || writes[j].key != key
  }

  /** A last write is the newest one, or was the last before it. */
  lemma LastWriteBefore(writes: seq<Write>, org: Org, key: CacheKey, i: int)
    requires writes != []
    ensures var n := |writes| - 1;
            LastWrite(writes, org, key, i) <==>
            if writes[n].org == org && writes[n].key == key then i == n else LastWrite(writes[..n], org, key, i)
  {
    var n := |writes| - 1;
    assert forall j :: 0 <= j < n ==> writes[..n][j] == writes[j];
    if writes[n].org != org || writes[n].key != key {
      if LastWrite(writes[..n], org, key, i) {
        assert forall j :: i < j < |writes| ==> j == n || writes[j] == writes[..n][j];
      }
    }
  }

  /** A lookup hits exactly when the tenant's own last write under that very key is younger than the lifetime, and
      then returns what it wrote. */
  lemma {:induction false} HitIsTheLastWrite(ttl: int, writes: seq<Write>, org: Org, key: CacheKey, now: int,
                                             response: CachedResponse)
    ensures Fresh(Written(ttl, writes), org, key, now) == Hit(response) <==>
            exists i :: LastWrite(writes, org, key, i) && now < writes[i].at + ttl && writes[i].response == response
  {
    if writes != [] {
      var n := |writes| - 1;
      HitIsTheLastWrite(ttl, writes[..n], org, key, now, response);
      forall i ensures LastWrite(writes, org, key, i) <==>
                       if writes[n].org == org && writes[n].key == key then i == n
                       else LastWrite(writes[..n], org, key, i)
      {
        LastWriteBefore(writes, org, key, i);
      }
      if i :| LastWrite(writes[..n], org, key, i) && now < writes[..n][i].at + ttl &&
              writes[..n][i].response == response
      {
        assert writes[..n][i] == writes[i];
      }
    }
  }
}
