/**
 The LDAP source used by one caller at a time: the object with its map of entries,
 written in place, and what the sequential cache guarantees.  LdapCacheTheorems
 relates the concurrent system to the same functions.
 */
module LdapSource {
  import opened Wrappers
  import opened LdapCache
  import opened LdapCacheProofs
  import opened LdapCacheTheorems

  // ----- the source as an object -----

  class CacheEntry {
    const keys: Option<seq<Key>>
    const fetchedAt: int
    var lastErrAt: Option<int>

    constructor (keys: Option<seq<Key>>, fetchedAt: int)
      ensures this.keys == keys && this.fetchedAt == fetchedAt && lastErrAt == None
    {
      this.keys := keys;
      this.fetchedAt := fetchedAt;
      lastErrAt := None;
    }

    function Value(): Entry
      reads this
    {
      Entry(keys, fetchedAt, lastErrAt)
    }
  }

  /** negativeTtl for an entry without keys, ttl for one with; grace more once marked. */
  predicate Serves(cfg: Config, e: Entry, now: int) {
    match (e.keys, e.lastErrAt)
    case (None, None) => now - e.fetchedAt < cfg.negativeTtl
    case (Some(_), None) => now - e.fetchedAt < cfg.ttl
    case (None, Some(_)) => now - e.fetchedAt < cfg.negativeTtl + cfg.grace
    case (Some(_), Some(_)) => now - e.fetchedAt < cfg.ttl + cfg.grace
  }

  function Served(e: Entry, stale: bool): Resolved {
    if e.keys.None? then NotFound(stale) else Found(e.keys.value, stale)
  }

  /** The sequential cache asks exactly when the entry does not serve; a failed lookup
      marks the entry and falls back on it exactly while it then serves. */
  lemma ServedIff(cfg: Config, e: Option<Entry>, now: int, live: Live)
    ensures var step := ResolveAlone(cfg, e, now, live);
      && (!step.looked <==> e.Some? && Serves(cfg, e.value, now))
      && (!step.looked ==> step.entry == e && step.result == Served(e.value, e.value.lastErrAt.Some?))
      && (step.looked && live.Live? ==> step.entry == Some(Entry(live.keys, now, None)) && step.result == Served(step.entry.value, false))
      && (step.looked && live.LiveError? && e.None? ==> step.entry == None && step.result == LookupFailed(live.error))
      && (step.looked && live.LiveError? && e.Some? ==>
            step.entry == Some(Entry(e.value.keys, e.value.fetchedAt, Some(now))) &&
            step.result == if Serves(cfg, step.entry.value, now) then Served(e.value, true) else LookupFailed(live.error))
  {
  }

  class Source {
    const cfg: Config
    var cache: map<string, CacheEntry>

    constructor (cfg: Config)
      ensures Valid() && this.cfg == cfg && forall u :: EntryOfUser(u) == None
    {
      this.cfg := cfg;
      cache := map[];
    }

    /** No two users share an entry, so marking one marks no other. */
    ghost predicate Valid()
      reads this
    {
      forall u, v :: u in cache && v in cache && cache[u] == cache[v] ==> u == v
    }

    ghost function EntryOfUser(u: string): Option<Entry>
      reads this, cache.Values
    {
      if u in cache then Some(cache[u].Value()) else None
    }

    /** Resolve at clock reading now; live is what a live lookup would bring back. */
    method Resolve(user: string, now: int, live: Live) returns (r: Resolved, looked: bool)
      requires Valid()
      modifies this, cache.Values
      ensures Valid()
      ensures Step(EntryOfUser(user), r, looked) == ResolveAlone(cfg, old(EntryOfUser(user)), now, live)
      ensures forall v :: v != user ==> EntryOfUser(v) == old(EntryOfUser(v))
      ensures !looked <==> old(EntryOfUser(user)).Some? && old(Serves(cfg, EntryOfUser(user).value, now))
      ensures !looked ==> r == Served(old(EntryOfUser(user)).value, old(EntryOfUser(user)).value.lastErrAt.Some?)
      ensures looked && live.LiveError? ==>
        var e := EntryOfUser(user);
        && e.Some? == old(EntryOfUser(user)).Some?
        && r == if e.Some? && Serves(cfg, e.value, now) then Served(e.value, true) else LookupFailed(live.error)
    {
      ServedIff(cfg, EntryOfUser(user), now, live);
      if user in cache {
        var e := cache[user];
        var ttl := if e.keys.None? then cfg.negativeTtl else cfg.ttl;
        var age := now - e.fetchedAt;
        if e.lastErrAt.None? && age < ttl {
          return ResultFromEntry(e.keys, false), false;
        }
        if e.lastErrAt.Some? && age < ttl + cfg.grace {
          return ResultFromEntry(e.keys, true), false;
        }
      }
      looked := true;
      match live {
        case LiveError(err) =>
          if user in cache {
            var existing := cache[user];
            existing.lastErrAt := Some(now);
            var age := now - existing.fetchedAt;
            var ttl := if existing.keys.None? then cfg.negativeTtl else cfg.ttl;
            if age < ttl + cfg.grace {
              return ResultFromEntry(existing.keys, true), true;
            }
          }
          return LookupFailed(err), true;
        case Live(keys) =>
          var fetched := new CacheEntry(keys, now);
          cache := cache[user := fetched];
          if keys.None? {
            return NotFound(false), true;
          }
          return Found(keys.value, false), true;
      }
    }
  }

  // ----- a sequence of calls for one user -----

  datatype Request = Request(now: int, live: Live)

  function EntryAfter(cfg: Config, e: Option<Entry>, reqs: seq<Request>): Option<Entry> {
    if reqs == [] then e
    else
      var last := reqs[|reqs|-1];
      ResolveAlone(cfg, EntryAfter(cfg, e, reqs[..|reqs|-1]), last.now, last.live).entry
  }

  /** Does request i ask the directory? */
  predicate Looks(cfg: Config, e: Option<Entry>, reqs: seq<Request>, i: nat)
    requires i < |reqs|
  {
    ResolveAlone(cfg, EntryAfter(cfg, e, reqs[..i]), reqs[i].now, reqs[i].live).looked
  }

  lemma EntryAfterPrefix(cfg: Config, e: Option<Entry>, reqs: seq<Request>, i: nat)
    requires i < |reqs|
    ensures EntryAfter(cfg, e, reqs[..i+1]) ==
            ResolveAlone(cfg, EntryAfter(cfg, e, reqs[..i]), reqs[i].now, reqs[i].live).entry
  {
    assert reqs[..i+1][..i] == reqs[..i];
  }

  /** Requests that ask nothing change nothing. */
  lemma {:induction false} SilentKeeps(cfg: Config, e: Option<Entry>, reqs: seq<Request>, i: nat, j: nat)
    requires i <= j <= |reqs| && forall m :: i <= m < j ==> !Looks(cfg, e, reqs, m)
    ensures EntryAfter(cfg, e, reqs[..j]) == EntryAfter(cfg, e, reqs[..i])
    decreases j - i
  {
    if i < j {
      SilentKeeps(cfg, e, reqs, i, j - 1);
      assert !Looks(cfg, e, reqs, j - 1);
      EntryAfterPrefix(cfg, e, reqs, j - 1);
    }
  }

  /** Two successive live lookups for a user are at least a ttl apart, the negative
      one if the first found nobody; and after a failed one with an entry still in
      grace, the next waits until that entry's ttl + grace has run out. */
  lemma LookupsAreSpaced(cfg: Config, e: Option<Entry>, reqs: seq<Request>, i: nat, j: nat)
    requires i < j < |reqs| && Looks(cfg, e, reqs, i) && Looks(cfg, e, reqs, j)
    requires forall m :: i < m < j ==> !Looks(cfg, e, reqs, m)
    ensures reqs[i].live.Live? ==>
      reqs[j].now - reqs[i].now >= if reqs[i].live.keys.None? then cfg.negativeTtl else cfg.ttl
    ensures reqs[i].live.LiveError? && EntryAfter(cfg, e, reqs[..i]).Some? ==>
      var old_ := EntryAfter(cfg, e, reqs[..i]).value;
      reqs[j].now >= old_.fetchedAt + (if old_.keys.None? then cfg.negativeTtl else cfg.ttl) + cfg.grace
  {
    SilentKeeps(cfg, e, reqs, i + 1, j);
    EntryAfterPrefix(cfg, e, reqs, i);
  }

  // ----- the concurrent system decides as the object does -----

  lemma CheckDecides(s: System, k: nat, live: Live)
    requires WellFormed(s) && Enabled(s, Check(k))
    ensures var step := ResolveAlone(s.cfg, EntryFor(s, s.calls[k].user), s.calls[k].now, live);
      && (step.looked <==> DoCheck(s, k).calls[k].stage.Missed?)
      && (!step.looked ==>
            match DoCheck(s, k).calls[k].stage
            case Fresh(id) => id < |s.heap| && step.result == ResultFromEntry(s.heap[id].keys, false)
            case Stale(id) => id < |s.heap| && step.result == ResultFromEntry(s.heap[id].keys, true)
            case _ => false)
  {
    hide Ttl, InGrace, StageFormed, ResultFromEntry;
  }

  /** The check under the read lock: it answers exactly when the sequential cache
      would, with the same result, and never touches an entry.  With InstallRefines
      this makes every call, however interleaved, one read or one AfterLive of the
      sequential cache. */
  lemma CheckRefines(s: System, k: nat, live: Live)
    requires Reachable(s) && WellFormed(s) && Enabled(s, Check(k))
    ensures var t, step := DoCheck(s, k), ResolveAlone(s.cfg, EntryFor(s, s.calls[k].user), s.calls[k].now, live);
      && WellFormed(t) && t.cache == s.cache && t.heap == s.heap
      && (step.looked <==> t.calls[k].stage.Missed?)
      && (!step.looked ==> Done(t.calls[k].stage) && ResultOf(t, k) == step.result)
  {
    InvReachable(s);
    CheckKeeps(s, k);
    CheckDecides(s, k, live);
    OnlyInstallWrites(s, Check(k));
    hide Sourced, Past, CacheOk, CallsOk, FlightsOk, ResolveAlone, DoCheck;
    assert StageFormed(DoCheck(s, k), DoCheck(s, k).calls[k].stage);
  }
}
