/** The decision cache of a client: answers are kept only at the epoch and revision the client is
    synchronized to. */
module DecisionCache {
  import opened Types
  import K = Pack

  const CAPACITY := 64

  /** What the cache reads in a reply or an event; `revision` is -1 where it is missing or
      malformed. `rows` are the decisions of the single requirements. */
  datatype Answer = Answer(
    epoch: string, revision: int, authority: bool, success: bool, allowed: bool, cacheable: bool,
    ttl: int, session: string, generation: string, rows: seq<Row>)

  /** A request of the client: its fields, and when it was admitted. */
  datatype Asked = Asked(fields: map<string, string>, admitted: int)

  datatype Entry = Entry(answer: Answer, expires: int, lastUsed: int)

  function Get(fields: map<string, string>, key: string): string {
    if key in fields then fields[key] else ""
  }

  /** A request for a decision without a versioned approval: only these are repeated. */
  predicate Unversioned(q: Asked) {
    Get(q.fields, "method") == "request" && "approval_version" !in q.fields
  }

  const NAMES: set<string> := {"id", "client_request_id", "operation_id", "deadline_ms"}

  /** `CacheKey`: all fields but those that name the request. */
  function CacheKey(fields: map<string, string>): string {
    K.Packed(fields - NAMES)
  }

  /** Two requests share a key exactly when they agree on every other field. */
  lemma KeyIsExact(a: map<string, string>, b: map<string, string>)
    ensures CacheKey(a) == CacheKey(b) <==> a - NAMES == b - NAMES
  {
    if CacheKey(a) == CacheKey(b) { K.PackedIsInjective(a - NAMES, b - NAMES); }
  }

  /** An answer worth repeating: an ALLOWED decision to a plain request that the daemon marked
      cacheable, in the session generation asked about, whose time is not yet over. */
  predicate Repeatable(q: Asked, a: Answer, now: int) {
    && a.success && a.allowed && a.cacheable && a.ttl > 0 && Unversioned(q) && Made(q, a, now).expires > now
    && (Get(q.fields, "session") != "" ==>
          && a.session == Get(q.fields, "session")
          && a.generation == Get(q.fields, "generation") != "")
  }

  /** It is kept for its time to live, but at most a second, counted from the admission. */
  function Made(q: Asked, a: Answer, now: int): Entry {
    Entry(a, q.admitted + (if a.ttl < 1000 then a.ttl else 1000) * 1000, now)
  }

  // ----- the cache as a value -----

  /** The epoch and revision the client last saw, whether it is in step with them, whether the
      daemon ever had profile authority, and the entries. */
  datatype Cache = Cache(epoch: string, revision: int, synced: bool, authority: bool, entries: map<string, Entry>)

  const UNSYNCED := Cache("", -1, false, false, map[])

  /** Whatever is kept was answered at the present epoch and revision, to a client in step. */
  ghost predicate Coherent(c: Cache) {
    && (forall k :: k in c.entries ==>
          c.entries[k].answer.epoch == c.epoch && c.entries[k].answer.revision == c.revision)
    && (c.entries != map[] ==> c.synced && !c.authority)
    && (c.synced ==> c.epoch != "" && c.revision >= 0)
    && |c.entries| <= CAPACITY
  }

  /** After an event of the daemon. */
  function Emptied(c: Cache, a: Answer): Cache {
    Cache(a.epoch, a.revision, a.epoch != "" && a.revision >= 0, c.authority || a.authority, map[])
  }

  /** A reply without a place in time, of another epoch, or from the past. */
  predicate Behind(c: Cache, a: Answer) {
    || a.epoch == "" || a.revision < 0 || (c.epoch != "" && a.epoch != c.epoch)
    || (a.epoch == c.epoch && a.revision < c.revision)
  }

  /** A reply moves the client forward, or, if it is from the past, out of step. */
  function Synchronized(c: Cache, a: Answer): Cache {
    if Behind(c, a) then c.(synced := false, authority := c.authority || a.authority, entries := map[])
    else Cache(a.epoch, a.revision, true, c.authority || a.authority,
               if a.authority || a.revision != c.revision then map[] else c.entries)
  }

  /** One entry more; a full cache loses one that was used no later than any other. */
  ghost predicate Kept(before: map<string, Entry>, after: map<string, Entry>, key: string, e: Entry) {
    if |before| < CAPACITY then after == before[key := e]
    else exists o :: o in before && after == (before - {o})[key := e]
                     && forall k :: k in before ==> before[o].lastUsed <= before[k].lastUsed
  }

  /** An answer is kept exactly if it is worth it and the client is in step. */
  ghost predicate Remembered(c: Cache, d: Cache, q: Asked, a: Answer, now: int) {
    if c.synced && !c.authority && Repeatable(q, a, now)
    then d == c.(entries := d.entries) && Kept(c.entries, d.entries, CacheKey(q.fields), Made(q, a, now))
    else d == c
  }

  ghost predicate Received(c: Cache, d: Cache, q: Asked, a: Answer, now: int) {
    Remembered(Synchronized(c, a), d, q, a, now)
  }

  /** The answer to repeat for a request, if there is one. */
  function Found(c: Cache, q: Asked, now: int): Option<Answer> {
    var key := CacheKey(q.fields);
    if c.synced && !c.authority && Unversioned(q) && key in c.entries && c.entries[key].expires > now
    then Some(c.entries[key].answer) else None
  }

  /** Repeating an answer only moves its last use. */
  function Used(c: Cache, q: Asked, now: int): Cache {
    if Found(c, q, now).None? then c
    else
      var key := CacheKey(q.fields);
      c.(entries := c.entries[key := c.entries[key].(lastUsed := now)])
  }

  class DecisionCache {
    var epoch: string
    var revision: int
    var synced: bool
    var authority: bool
    var cache: map<string, Entry>

    ghost function View(): Cache
      reads this
    {
      Cache(epoch, revision, synced, authority, cache)
    }

    ghost predicate Valid()
      reads this
    {
      Coherent(View())
    }

    constructor ()
      ensures Valid() && View() == UNSYNCED
    {
      epoch, revision, synced, authority, cache := "", -1, false, false, map[];
    }

    /** An event of the daemon. */
    method Invalidate(a: Answer)
      requires Valid()
      modifies this
      ensures Valid() && View() == Emptied(old(View()), a)
    {
      authority := authority || a.authority;
      cache, epoch, revision := map[], a.epoch, a.revision;
      synced := epoch != "" && revision >= 0;
    }

    method Synchronize(a: Answer)
      requires Valid()
      modifies this
      ensures Valid() && View() == Synchronized(old(View()), a)
    {
      if a.authority {
        authority := true;
        cache := map[];
      }
      if a.epoch == "" || a.revision < 0 || (epoch != "" && a.epoch != epoch)
         || (a.epoch == epoch && a.revision < revision) {
        cache := map[];
        synced := false;
      } else {
        if a.revision != revision { cache := map[]; }
        epoch, revision, synced := a.epoch, a.revision, true;
      }
    }

    /** The key used longest ago. */
    method Oldest() returns (oldest: string)
      requires cache != map[]
      ensures oldest in cache && forall k :: k in cache ==> cache[oldest].lastUsed <= cache[k].lastUsed
    {
      oldest :| oldest in cache;
      var left := cache.Keys - {oldest};
      while left != {}
        invariant oldest in cache && left <= cache.Keys
        invariant forall k :: k in cache && k !in left ==> cache[oldest].lastUsed <= cache[k].lastUsed
        decreases left
      {
        var k :| k in left;
        left := left - {k};
        if cache[k].lastUsed < cache[oldest].lastUsed { oldest := k; }
      }
    }

    /** Makes room for an entry, if need be by dropping the one used longest ago. */
    method Keep(key: string, e: Entry)
      requires Valid() && synced && !authority && e.answer.epoch == epoch && e.answer.revision == revision
      modifies this`cache
      ensures Valid() && Kept(old(cache), cache, key, e)
    {
      if |cache| >= CAPACITY {
        var oldest := Oldest();
        Smaller(cache, oldest);
        cache := cache - {oldest};
      }
      Larger(cache, key, e);
      cache := cache[key := e];
    }

    /** Keeps an answer that is worth it. */
    method Remember(q: Asked, a: Answer, now: int)
      requires Valid() && (synced ==> epoch == a.epoch && revision == a.revision)
      modifies this`cache
      ensures Valid() && Remembered(old(View()), View(), q, a, now)
    {
      hide CacheKey;
      var session, generation := Get(q.fields, "session"), Get(q.fields, "generation");
      if !(a.success && Unversioned(q) && a.allowed && !authority && a.cacheable
           && (session == "" || (a.session == session && generation != "" && a.generation == generation))) {
        return;
      }
      var ttl := if a.ttl < 1000 then a.ttl else 1000;
      var expires := q.admitted + (if ttl > 0 then ttl else 0) * 1000;
      if ttl > 0 && expires > now && synced { Keep(CacheKey(q.fields), Entry(a, expires, now)); }
    }

    /** A reply to a request of this client. */
    method Receive(q: Asked, a: Answer, now: int)
      requires Valid()
      modifies this
      ensures Valid() && Received(old(View()), View(), q, a, now)
    {
      hide Remembered;
      Synchronize(a);
      Remember(q, a, now);
    }

    /** The answer to repeat for a request, if there is one. */
    method Lookup(q: Asked, now: int) returns (r: Option<Answer>)
      requires Valid()
      modifies this`cache
      ensures Valid() && r == Found(old(View()), q, now) && View() == Used(old(View()), q, now)
      ensures r.Some? ==> r.value.epoch == epoch && r.value.revision == revision
    {
      if !synced || authority || !Unversioned(q) { return None; }
      var key := CacheKey(q.fields);
      if key !in cache || cache[key].expires <= now { return None; }
      r := Some(cache[key].answer);
      cache := cache[key := cache[key].(lastUsed := now)];
      Larger(old(cache), key, cache[key]);
    }
  }

  /** What an event or a reply does keeps the cache coherent. */
  lemma ReceivedCoherent(c: Cache, d: Cache, q: Asked, a: Answer, now: int)
    requires Coherent(c) && Received(c, d, q, a, now)
    ensures Coherent(d)
  {
    hide CacheKey, Repeatable;
    SynchronizedCoherent(c, a);
    var s := Synchronized(c, a);
    if d != s { KeptCoherent(s, d, CacheKey(q.fields), Made(q, a, now)); }
  }

  lemma SynchronizedCoherent(c: Cache, a: Answer)
    requires Coherent(c)
    ensures Coherent(Synchronized(c, a))
  {
  }

  lemma KeptCoherent(s: Cache, d: Cache, key: string, e: Entry)
    requires Coherent(s) && s.synced && !s.authority && d == s.(entries := d.entries)
    requires Kept(s.entries, d.entries, key, e) && e.answer.epoch == s.epoch && e.answer.revision == s.revision
    ensures Coherent(d)
  {
    hide Kept;
    KeptSmall(s.entries, d.entries, key, e);
    KeptFrom(s.entries, d.entries, key, e);
  }

  lemma KeptFrom(before: map<string, Entry>, after: map<string, Entry>, key: string, e: Entry)
    requires Kept(before, after, key, e)
    ensures forall k :: k in after ==> if k == key then after[k] == e else k in before && after[k] == before[k]
  {
  }

  lemma KeptSmall(before: map<string, Entry>, after: map<string, Entry>, key: string, e: Entry)
    requires Kept(before, after, key, e) && |before| <= CAPACITY
    ensures |after| <= CAPACITY
  {
    if |before| < CAPACITY {
      Larger(before, key, e);
    } else {
      var o :| o in before && after == (before - {o})[key := e];
      Smaller(before, o);
      Larger(before - {o}, key, e);
    }
  }

  lemma Smaller(m: map<string, Entry>, k: string)
    requires k in m
    ensures |m - {k}| == |m| - 1
  {
    assert (m - {k}).Keys == m.Keys - {k};
    assert |(m - {k}).Keys| == |m - {k}| && |m.Keys| == |m|;
  }

  lemma Larger(m: map<string, Entry>, k: string, e: Entry)
    ensures |m[k := e]| <= |m| + 1
    ensures k in m ==> |m[k := e]| == |m|
  {
    assert m[k := e].Keys == m.Keys + {k};
    assert |m[k := e].Keys| == |m[k := e]| && |m.Keys| == |m|;
    if k in m { assert m.Keys + {k} == m.Keys; }
  }
}
