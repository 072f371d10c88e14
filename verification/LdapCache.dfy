/**
 The LDAP identity source (internal/gateway/ldap.go): a cache that serves stale
 entries while the directory fails, in front of one live lookup per user at a time.

 Calls run concurrently.  A call reads the clock, checks the cache under the read
 lock, and on a miss enters the singleflight group; the leader looks the user up
 and installs the outcome under the write lock.  Each of these is one Action.
 Entries live on a heap, as in the original, because an error mark is written into
 an entry that other calls may hold.  The singleflight group behaves as its package
 documents: one execution per key at a time, duplicates wait for its value.
 */
module LdapCache {
  import opened Wrappers

  type Key = string

  datatype Config = Config(ttl: int, negativeTtl: int, grace: int)

  /** keys is None for a user the directory does not know. */
  datatype Entry = Entry(keys: Option<seq<Key>>, fetchedAt: int, lastErrAt: Option<int>)

  datatype Resolved =
    | Found(keys: seq<Key>, stale: bool)
    | NotFound(stale: bool)
    | LookupFailed(error: string)

  // ----- the cache of one user -----

  function Ttl(cfg: Config, keys: Option<seq<Key>>): int {
    if keys.None? then cfg.negativeTtl else cfg.ttl
  }

  datatype Decision = ServeFresh | ServeStale | GoLive

  function Decide(cfg: Config, e: Entry, now: int): Decision {
    var age := now - e.fetchedAt;
    if e.lastErrAt.None? && age < Ttl(cfg, e.keys) then ServeFresh
    else if e.lastErrAt.Some? && age < Ttl(cfg, e.keys) + cfg.grace then ServeStale
    else GoLive
  }

  predicate InGrace(cfg: Config, e: Entry, now: int) {
    now - e.fetchedAt < Ttl(cfg, e.keys) + cfg.grace
  }

  function ResultFromEntry(keys: Option<seq<Key>>, stale: bool): Resolved {
    match keys
    case None => NotFound(stale)
    case Some(ks) => Found(ks, stale)
  }

  // ----- the concurrent system -----

  /** What a flight's closure returns: a value of one of three dynamic types, or an error. */
  datatype Value = Nil | Keys(keys: seq<Key>) | Cached(id: nat)
  datatype FlightError = NoError | IdentityNotFound | Failure(error: string)
  datatype Outcome = Outcome(value: Value, error: FlightError)

  /** What liveLookup brought back: the answer with this number, or an error. */
  datatype Lookup = Answered(answer: nat) | Broke(error: string)

  datatype Stage =
    | Begun
    | Fresh(id: nat)
    | Stale(id: nat)
    | Missed
    | Leading
    | LookedUp(got: Lookup)
    | Returned(out: Outcome, broke: bool)
    | Ended(out: Outcome, broke: bool)
    | Waiting(leader: nat)
    | Joined(leader: nat)

  datatype Call = Call(user: string, now: int, stage: Stage)

  /** The directory knew user by these keys at time at. */
  datatype Answer = Answer(user: string, at: int, keys: Option<seq<Key>>)

  datatype Counts = Counts(cacheFresh: nat, cacheStale: nat, hit: nat, miss: nat, error: nat)

  /** answers and origin are histories: every answer the directory gave, and which
      of them each entry was made from. */
  datatype System = System(
    cfg: Config,
    clock: int,
    directory: map<string, seq<Key>>,
    answers: seq<Answer>,
    heap: seq<Entry>,
    origin: seq<nat>,
    cache: map<string, nat>,
    flights: map<string, nat>,
    calls: seq<Call>,
    counts: Counts)

  datatype Action =
    | Begin(user: string)
    | Check(call: nat)
    | Enter(call: nat)
    | Look(call: nat)
    | LookFails(call: nat, error: string)
    | Install(call: nat)
    | Finish(call: nat)
    | Collect(call: nat)
    | Tick(to: int)
    | Publish(user: string, keys: seq<Key>)
    | Remove(user: string)

  /** Ids refer to what exists. */
  predicate WellFormed(s: System) {
    && |s.origin| == |s.heap|
    && (forall u :: u in s.cache ==> s.cache[u] < |s.heap|)
    && (forall k :: 0 <= k < |s.calls| ==> StageFormed(s, s.calls[k].stage))
  }

  predicate StageFormed(s: System, st: Stage) {
    match st
    case Fresh(id) => id < |s.heap|
    case Stale(id) => id < |s.heap|
    case LookedUp(Answered(a)) => a < |s.answers|
    case Returned(out, _) => out.value.Cached? ==> out.value.id < |s.heap|
    case Ended(out, _) => out.value.Cached? ==> out.value.id < |s.heap|
    case Waiting(l) => l < |s.calls|
    case Joined(l) => l < |s.calls| && s.calls[l].stage.Ended?
    case _ => true
  }

  predicate Enabled(s: System, a: Action) {
    match a
    case Begin(_) => true
    case Check(k) => k < |s.calls| && s.calls[k].stage.Begun?
    case Enter(k) => k < |s.calls| && s.calls[k].stage.Missed?
    case Look(k) => k < |s.calls| && s.calls[k].stage.Leading?
    case LookFails(k, _) => k < |s.calls| && s.calls[k].stage.Leading?
    case Install(k) => k < |s.calls| && s.calls[k].stage.LookedUp?
    case Finish(k) => k < |s.calls| && s.calls[k].stage.Returned?
    case Collect(k) =>
      k < |s.calls| && s.calls[k].stage.Waiting? && s.calls[k].stage.leader < |s.calls| &&
      s.calls[s.calls[k].stage.leader].stage.Ended?
    case Tick(t) => s.clock <= t
    case Publish(_, _) => true
    case Remove(_) => true
  }

  function SetStage(calls: seq<Call>, k: nat, st: Stage): seq<Call>
    requires k < |calls|
  {
    calls[k := calls[k].(stage := st)]
  }

  function DoCheck(s: System, k: nat): System
    requires WellFormed(s) && k < |s.calls|
  {
    var u := s.calls[k].user;
    if u !in s.cache then s.(calls := SetStage(s.calls, k, Missed))
    else
      match Decide(s.cfg, s.heap[s.cache[u]], s.calls[k].now)
      case ServeFresh =>
        s.(calls := SetStage(s.calls, k, Fresh(s.cache[u])), counts := s.counts.(cacheFresh := s.counts.cacheFresh + 1))
      case ServeStale =>
        s.(calls := SetStage(s.calls, k, Stale(s.cache[u])), counts := s.counts.(cacheStale := s.counts.cacheStale + 1))
      case GoLive => s.(calls := SetStage(s.calls, k, Missed))
  }

  function DoEnter(s: System, k: nat): System
    requires k < |s.calls|
  {
    var u := s.calls[k].user;
    if u in s.flights then s.(calls := SetStage(s.calls, k, Waiting(s.flights[u])))
    else s.(calls := SetStage(s.calls, k, Leading), flights := s.flights[u := k])
  }

  function DoLook(s: System, k: nat): System
    requires k < |s.calls|
  {
    var u := s.calls[k].user;
    s.(answers := s.answers + [Answer(u, s.clock, if u in s.directory then Some(s.directory[u]) else None)],
       calls := SetStage(s.calls, k, LookedUp(Answered(|s.answers|))))
  }

  /** The answer becomes a new entry. */
  function InstallAnswer(s: System, k: nat, a: nat): System
    requires WellFormed(s) && k < |s.calls| && a < |s.answers|
  {
    var u, keys := s.calls[k].user, s.answers[a].keys;
    var out := if keys.None? then Outcome(Nil, IdentityNotFound) else Outcome(Keys(keys.value), NoError);
    s.(heap := s.heap + [Entry(keys, s.calls[k].now, None)],
       origin := s.origin + [a],
       cache := s.cache[u := |s.heap|],
       calls := SetStage(s.calls, k, Returned(out, false)),
       counts := if keys.None? then s.counts.(miss := s.counts.miss + 1) else s.counts.(hit := s.counts.hit + 1))
  }

  /** The error marks the entry there is, and serves it if it is young enough. */
  function InstallError(s: System, k: nat, err: string): System
    requires WellFormed(s) && k < |s.calls|
  {
    var u, now := s.calls[k].user, s.calls[k].now;
    var counts := s.counts.(error := s.counts.error + 1);
    if u !in s.cache then
      s.(calls := SetStage(s.calls, k, Returned(Outcome(Nil, Failure(err)), true)), counts := counts)
    else
      var id := s.cache[u];
      var marked := s.heap[id := s.heap[id].(lastErrAt := Some(now))];
      if InGrace(s.cfg, s.heap[id], now) then
        s.(heap := marked,
           calls := SetStage(s.calls, k, Returned(Outcome(Cached(id), NoError), true)),
           counts := counts.(cacheStale := counts.cacheStale + 1))
      else
        s.(heap := marked, calls := SetStage(s.calls, k, Returned(Outcome(Nil, Failure(err)), true)), counts := counts)
  }

  function DoInstall(s: System, k: nat): System
    requires WellFormed(s) && Enabled(s, Install(k))
  {
    match s.calls[k].stage.got
    case Answered(a) => assert StageFormed(s, s.calls[k].stage); InstallAnswer(s, k, a)
    case Broke(err) => InstallError(s, k, err)
  }

  /** The flight is over: waiting duplicates get its value, the next call starts a new one. */
  function DoFinish(s: System, k: nat): System
    requires Enabled(s, Finish(k))
  {
    s.(flights := s.flights - {s.calls[k].user},
       calls := SetStage(s.calls, k, Ended(s.calls[k].stage.out, s.calls[k].stage.broke)))
  }

  function Apply(s: System, a: Action): System
    requires WellFormed(s) && Enabled(s, a)
  {
    match a
    case Begin(u) => s.(calls := s.calls + [Call(u, s.clock, Begun)])
    case Check(k) => DoCheck(s, k)
    case Enter(k) => DoEnter(s, k)
    case Look(k) => DoLook(s, k)
    case LookFails(k, err) => s.(calls := SetStage(s.calls, k, LookedUp(Broke(err))))
    case Install(k) => DoInstall(s, k)
    case Finish(k) => DoFinish(s, k)
    case Collect(k) => s.(calls := SetStage(s.calls, k, Joined(s.calls[k].stage.leader)))
    case Tick(t) => s.(clock := t)
    case Publish(u, keys) => s.(directory := s.directory[u := keys])
    case Remove(u) => s.(directory := s.directory - {u})
  }

  function Init(cfg: Config, directory: map<string, seq<Key>>): System {
    System(cfg, 0, directory, [], [], [], map[], map[], [], Counts(0, 0, 0, 0, 0))
  }

  ghost predicate Runs(s: System, acts: seq<Action>, t: System)
    decreases |acts|
  {
    if acts == [] then s == t
    else
      var n := |acts| - 1;
      exists m :: Runs(s, acts[..n], m) && WellFormed(m) && Enabled(m, acts[n]) && Apply(m, acts[n]) == t
  }

  ghost predicate Reachable(s: System) {
    exists cfg, directory, acts :: Runs(Init(cfg, directory), acts, s)
  }

  // ----- what a call returns -----

  /** The end of Resolve: the type switch on the flight's value. */
  function FromFlight(heap: seq<Entry>, out: Outcome): Resolved
    requires out.value.Cached? ==> out.value.id < |heap|
  {
    match out.error
    case IdentityNotFound => NotFound(false)
    case Failure(err) => LookupFailed(err)
    case NoError =>
      match out.value
      case Keys(ks) => Found(ks, false)
      case Cached(id) => ResultFromEntry(heap[id].keys, true)
      case Nil => NotFound(false)
  }

  predicate Done(st: Stage) { st.Fresh? || st.Stale? || st.Ended? || st.Joined? }

  function ResultOf(s: System, k: nat): Resolved
    requires WellFormed(s) && k < |s.calls| && Done(s.calls[k].stage)
  {
    assert StageFormed(s, s.calls[k].stage);
    match s.calls[k].stage
    case Fresh(id) => ResultFromEntry(s.heap[id].keys, false)
    case Stale(id) => ResultFromEntry(s.heap[id].keys, true)
    case Ended(out, _) => FromFlight(s.heap, out)
    case Joined(l) => assert StageFormed(s, s.calls[l].stage); FromFlight(s.heap, s.calls[l].stage.out)
  }

  // ----- one user's cache, run sequentially -----

  /** Resolve with nothing beside it: the entry it leaves, its result, and whether
      it made a live lookup (whose outcome is given). */
  datatype Step = Step(entry: Option<Entry>, result: Resolved, looked: bool)

  datatype Live = Live(keys: Option<seq<Key>>) | LiveError(error: string)

  /** What a live lookup does to the entry, and what it serves. */
  function AfterLive(cfg: Config, e: Option<Entry>, now: int, live: Live): Step {
    match live
    case Live(keys) => Step(Some(Entry(keys, now, None)), ResultFromEntry(keys, false), true)
    case LiveError(err) =>
      if e.None? then Step(None, LookupFailed(err), true)
      else
        Step(Some(e.value.(lastErrAt := Some(now))),
             if InGrace(cfg, e.value, now) then ResultFromEntry(e.value.keys, true) else LookupFailed(err), true)
  }

  function ResolveAlone(cfg: Config, e: Option<Entry>, now: int, live: Live): Step {
    if e.Some? && Decide(cfg, e.value, now).ServeFresh? then Step(e, ResultFromEntry(e.value.keys, false), false)
    else if e.Some? && Decide(cfg, e.value, now).ServeStale? then Step(e, ResultFromEntry(e.value.keys, true), false)
    else AfterLive(cfg, e, now, live)
  }
}
