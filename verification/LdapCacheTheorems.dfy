/** What the LDAP cache promises over all concurrent runs. */
module LdapCacheTheorems {
  import opened Wrappers
  import opened LdapCache
  import opened LdapCacheProofs

  // ----- bounded staleness -----

  function KeysOf(r: Resolved): Option<seq<Key>> { if r.Found? then Some(r.keys) else None }

  /** The clock reading a result is measured against: that of the call, or of the
      leader whose flight it joined. */
  function Reading(s: System, k: nat): int
    requires WellFormed(s) && k < |s.calls|
  {
    assert StageFormed(s, s.calls[k].stage);
    if s.calls[k].stage.Joined? then s.calls[s.calls[k].stage.leader].now else s.calls[k].now
  }

  /** Answer a of the directory is what r says, was given no earlier than fetchedAt,
      and fetchedAt is recent enough at the reading. */
  predicate Warrant(s: System, user: string, r: Resolved, reading: int, a: nat, fetchedAt: int)
    requires !r.LookupFailed?
  {
    && a < |s.answers| && s.answers[a].user == user && s.answers[a].keys == KeysOf(r)
    && fetchedAt <= s.answers[a].at <= s.clock
    && (r.stale ==> reading - fetchedAt < (if r.Found? then s.cfg.ttl else s.cfg.negativeTtl) + s.cfg.grace)
    && (!r.stale ==> reading == fetchedAt || reading - fetchedAt < if r.Found? then s.cfg.ttl else s.cfg.negativeTtl)
  }

  ghost predicate Warranted(s: System, user: string, r: Resolved, reading: int)
    requires !r.LookupFailed?
  {
    exists a: nat, f: int :: Warrant(s, user, r, reading, a, f)
  }

  /** In real time: the answer is younger than the bound at the reading, as the clock
      was read before the directory was asked. */
  ghost predicate RecentAnswer(s: System, user: string, r: Resolved, reading: int)
    requires !r.LookupFailed?
  {
    var ttl := if r.Found? then s.cfg.ttl else s.cfg.negativeTtl;
    exists a: nat :: a < |s.answers| && s.answers[a].user == user && s.answers[a].keys == KeysOf(r) &&
      (if r.stale then reading - s.answers[a].at < ttl + s.cfg.grace
       else reading <= s.answers[a].at || reading - s.answers[a].at < ttl)
  }

  lemma WarrantRecent(s: System, user: string, r: Resolved, reading: int)
    requires !r.LookupFailed? && Warranted(s, user, r, reading)
    ensures RecentAnswer(s, user, r, reading)
  {
    var a: nat, f: int :| Warrant(s, user, r, reading, a, f);
  }

  lemma EntryWarrant(s: System, user: string, id: nat, reading: int, stale: bool)
    requires Sourced(s) && Past(s) && EntryOf(s, id, user)
    requires stale ==> InGrace(s.cfg, s.heap[id], reading)
    requires !stale ==> reading - s.heap[id].fetchedAt < Ttl(s.cfg, s.heap[id].keys)
    ensures Warrant(s, user, ResultFromEntry(s.heap[id].keys, stale), reading, s.origin[id], s.heap[id].fetchedAt)
  {
  }

  lemma FlightWarrant(s: System, user: string, now: int, out: Outcome, broke: bool)
    requires Sourced(s) && Past(s) && Grounded(s, user, now, out, broke)
    requires out.value.Cached? ==> out.value.id < |s.heap|
    requires !FromFlight(s.heap, out).LookupFailed?
    ensures Warranted(s, user, FromFlight(s.heap, out), now)
  {
    match out.error
    case NoError =>
      if out.value.Cached? {
        EntryWarrant(s, user, out.value.id, now, true);
      } else {
        var a :| Supports(s, a, user, now, Some(out.value.keys));
        assert Warrant(s, user, FromFlight(s.heap, out), now, a, now);
      }
    case IdentityNotFound =>
      var a :| Supports(s, a, user, now, None);
      assert Warrant(s, user, FromFlight(s.heap, out), now, a, now);
    case Failure(_) =>
  }

  /** Whatever Resolve returns, other than an error, the directory itself said of
      that user; that was no longer ago than the measured age, which is below ttl
      (or ttl + grace when marked stale) unless this flight just asked. */
  lemma BoundedStaleness(s: System, k: nat)
    requires Reachable(s) && k < |s.calls| && Done(s.calls[k].stage)
    ensures WellFormed(s)
    ensures var r := ResultOf(s, k);
      !r.LookupFailed? ==> Warranted(s, s.calls[k].user, r, Reading(s, k)) && RecentAnswer(s, s.calls[k].user, r, Reading(s, k))
  {
    HasWarrant(s, k);
    hide Warranted, RecentAnswer, Reading, Reachable;
    if !ResultOf(s, k).LookupFailed? { WarrantRecent(s, s.calls[k].user, ResultOf(s, k), Reading(s, k)); }
  }

  lemma HasWarrant(s: System, k: nat)
    requires Reachable(s) && k < |s.calls| && Done(s.calls[k].stage)
    ensures WellFormed(s)
    ensures var r := ResultOf(s, k);
      !r.LookupFailed? ==> Warranted(s, s.calls[k].user, r, Reading(s, k))
  {
    InvReachable(s);
    hide Warrant, Sourced, Past, CacheOk, FlightsOk, Grounded;
    InvCall(s, k);
    var c := s.calls[k];
    assert StageFormed(s, c.stage);
    match c.stage
    case Fresh(id) =>
      EntryWarrant(s, c.user, id, c.now, false);
      assert Warrant(s, c.user, ResultOf(s, k), Reading(s, k), s.origin[id], s.heap[id].fetchedAt);
    case Stale(id) =>
      EntryWarrant(s, c.user, id, c.now, true);
      assert Warrant(s, c.user, ResultOf(s, k), Reading(s, k), s.origin[id], s.heap[id].fetchedAt);
    case Ended(out, broke) =>
      if !ResultOf(s, k).LookupFailed? { FlightWarrant(s, c.user, c.now, out, broke); }
    case Joined(l) =>
      InvCall(s, l);
      assert StageFormed(s, s.calls[l].stage);
      if !ResultOf(s, k).LookupFailed? {
        FlightWarrant(s, c.user, s.calls[l].now, s.calls[l].stage.out, s.calls[l].stage.broke);
      }
  }

  // ----- one lookup at a time, and what flights return -----

  lemma OneLookupPerUser(s: System, i: nat, j: nat)
    requires Reachable(s) && i < |s.calls| && j < |s.calls| && s.calls[i].user == s.calls[j].user
    requires InFlight(s.calls[i].stage) && InFlight(s.calls[j].stage)
    ensures i == j
  {
    InvReachable(s);
  }

  /** The nil and default branches of the type switch are never taken: a flight
      without error carries keys or an entry. */
  lemma FlightNeverNil(s: System, k: nat)
    requires Reachable(s) && k < |s.calls| && s.calls[k].stage.Ended? && s.calls[k].stage.out.error.NoError?
    ensures !s.calls[k].stage.out.value.Nil?
  {
    InvReachable(s);
    InvCall(s, k);
  }

  // ----- the abstract cache -----

  /** The cache as a value: the entry of each user. */
  function EntryFor(s: System, u: string): Option<Entry>
    requires WellFormed(s)
  {
    if u in s.cache then Some(s.heap[s.cache[u]]) else None
  }

  function LiveOf(s: System, k: nat): Live
    requires WellFormed(s) && k < |s.calls| && s.calls[k].stage.LookedUp?
  {
    assert StageFormed(s, s.calls[k].stage);
    match s.calls[k].stage.got
    case Answered(a) => Live(s.answers[a].keys)
    case Broke(err) => LiveError(err)
  }

  lemma DistinctEntries(s: System, u: string, v: string)
    requires CacheOk(s) && u in s.cache && v in s.cache && s.cache[u] == s.cache[v]
    ensures u == v
  {
    assert EntryOf(s, s.cache[u], u) && EntryOf(s, s.cache[v], v);
  }

  lemma AnswerRefines(s: System, k: nat, a: nat)
    requires WellFormed(s) && k < |s.calls| && a < |s.answers| && WellFormed(InstallAnswer(s, k, a))
    ensures var t, u := InstallAnswer(s, k, a), s.calls[k].user;
      var step := AfterLive(s.cfg, EntryFor(s, u), s.calls[k].now, Live(s.answers[a].keys));
      && EntryFor(t, u) == step.entry
      && (forall v :: v != u ==> EntryFor(t, v) == EntryFor(s, v))
      && t.calls[k].stage.Returned? && !t.calls[k].stage.out.value.Cached?
      && FromFlight(t.heap, t.calls[k].stage.out) == step.result
  {
    hide StageFormed, InGrace;
  }

  lemma ErrorRefines(s: System, k: nat, err: string)
    requires WellFormed(s) && CacheOk(s) && k < |s.calls| && WellFormed(InstallError(s, k, err))
    ensures var t, u := InstallError(s, k, err), s.calls[k].user;
      var step := AfterLive(s.cfg, EntryFor(s, u), s.calls[k].now, LiveError(err));
      && EntryFor(t, u) == step.entry
      && (forall v :: v != u ==> EntryFor(t, v) == EntryFor(s, v))
      && t.calls[k].stage.Returned? && StageFormed(t, t.calls[k].stage)
      && FromFlight(t.heap, t.calls[k].stage.out) == step.result
  {
    hide CacheOk, InGrace;
    var t, u := InstallError(s, k, err), s.calls[k].user;
    assert StageFormed(t, t.calls[k].stage);
    forall v | v != u
      ensures EntryFor(t, v) == EntryFor(s, v)
    {
      if u in s.cache && v in s.cache && s.cache[u] == s.cache[v] { DistinctEntries(s, u, v); }
    }
  }

  /** Installing an outcome changes that user's entry as the sequential cache would,
      and the leader takes back what the sequential cache would serve. */
  lemma InstallRefines(s: System, k: nat)
    requires Reachable(s) && WellFormed(s) && Enabled(s, Install(k))
    ensures var t, u := DoInstall(s, k), s.calls[k].user;
      && WellFormed(t) && t.calls[k].stage.Returned? && StageFormed(t, t.calls[k].stage)
      && var step := AfterLive(s.cfg, EntryFor(s, u), s.calls[k].now, LiveOf(s, k));
      && EntryFor(t, u) == step.entry
      && (forall v :: v != u ==> EntryFor(t, v) == EntryFor(s, v))
      && FromFlight(t.heap, t.calls[k].stage.out) == step.result
  {
    InvReachable(s);
    InstallKeeps(s, k);
    hide Sourced, Past, CallsOk, FlightsOk, CacheOk, InGrace, AfterLive, InstallAnswer, InstallError, EntryFor, FromFlight;
    assert StageFormed(s, s.calls[k].stage);
    match s.calls[k].stage.got
    case Answered(a) => AnswerRefines(s, k, a);
    case Broke(err) => ErrorRefines(s, k, err);
  }

  /** No other step touches the cache. */
  lemma OnlyInstallWrites(s: System, a: Action)
    requires WellFormed(s) && Enabled(s, a) && !a.Install?
    ensures Apply(s, a).cache == s.cache && Apply(s, a).heap == s.heap
  {
    hide Decide;
  }

  /** An entry's keys and age never change, in any run; a failed lookup can only mark it. */
  lemma EntriesNeverChange(s: System, acts: seq<Action>, t: System, id: nat)
    requires Reachable(s) && Runs(s, acts, t) && id < |s.heap|
    ensures id < |t.heap| && t.heap[id].keys == s.heap[id].keys && t.heap[id].fetchedAt == s.heap[id].fetchedAt
  {
    InvReachable(s);
    InvRun(s, acts, t);
  }

  // ----- how long an entry serves -----

  /** The check answers from an entry without keys for negativeTtl, from one with keys for
      ttl, and from a marked one for grace longer; otherwise the call goes on to ask. */
  lemma CheckServesIff(s: System, k: nat)
    requires WellFormed(s) && Enabled(s, Check(k))
    ensures var u, now, st := s.calls[k].user, s.calls[k].now, DoCheck(s, k).calls[k].stage;
      if u !in s.cache then st == Missed
      else
        var id := s.cache[u];
        var e := s.heap[id];
        && (e.lastErrAt.None? && e.keys.None? ==> st == if now - e.fetchedAt < s.cfg.negativeTtl then Fresh(id) else Missed)
        && (e.lastErrAt.None? && e.keys.Some? ==> st == if now - e.fetchedAt < s.cfg.ttl then Fresh(id) else Missed)
        && (e.lastErrAt.Some? && e.keys.None? ==>
              st == if now - e.fetchedAt < s.cfg.negativeTtl + s.cfg.grace then Stale(id) else Missed)
        && (e.lastErrAt.Some? && e.keys.Some? ==>
              st == if now - e.fetchedAt < s.cfg.ttl + s.cfg.grace then Stale(id) else Missed)
  {
    hide StageFormed;
  }

  /** A failed lookup falls back on the entry for the same grace, and on nothing else. */
  lemma ErrorServesIff(s: System, k: nat, err: string)
    requires WellFormed(s) && Enabled(s, Install(k)) && s.calls[k].stage == LookedUp(Broke(err))
    ensures var u, now, st := s.calls[k].user, s.calls[k].now, DoInstall(s, k).calls[k].stage;
      if u !in s.cache then st == Returned(Outcome(Nil, Failure(err)), true)
      else
        var id := s.cache[u];
        var e := s.heap[id];
        var serves := now - e.fetchedAt < (if e.keys.None? then s.cfg.negativeTtl else s.cfg.ttl) + s.cfg.grace;
        && DoInstall(s, k).heap == s.heap[id := Entry(e.keys, e.fetchedAt, Some(now))]
        && st == Returned(if serves then Outcome(Cached(id), NoError) else Outcome(Nil, Failure(err)), true)
  {
    hide StageFormed;
  }

  // ----- after an error -----

  /** No call of this user is on its way to a live lookup or holds its answer. */
  predicate Quiet(s: System, u: string) {
    forall k :: 0 <= k < |s.calls| && s.calls[k].user == u ==> !OnItsWay(s.calls[k].stage)
  }

  predicate OnItsWay(st: Stage) { WillAsk(st) || HasAnswer(st) }

  predicate WillAsk(st: Stage) { st.Missed? || st.Leading? }

  predicate HasAnswer(st: Stage) { st.LookedUp? && st.got.Answered? }

  predicate Marked(s: System, u: string, id: nat) {
    u in s.cache && s.cache[u] == id < |s.heap| && s.heap[id].lastErrAt.Some?
  }

  predicate LooksUp(s: System, a: Action, u: string) {
    (a.Look? || a.LookFails?) && a.call < |s.calls| && s.calls[a.call].user == u
  }

  lemma GraceCheck(s: System, k: nat, u: string, id: nat)
    requires Inv(s) && Marked(s, u, id) && Quiet(s, u) && Enabled(s, Check(k)) && InGrace(s.cfg, s.heap[id], s.clock)
    ensures Marked(DoCheck(s, k), u, id) && Quiet(DoCheck(s, k), u)
  {
    hide Sourced, Past, CacheOk, FlightsOk, StageFormed;
    InvCall(s, k);
    assert s.calls[k].now <= s.clock;
  }

  lemma GraceInstall(s: System, k: nat, u: string, id: nat)
    requires Inv(s) && Marked(s, u, id) && Quiet(s, u) && Enabled(s, Install(k))
    ensures Marked(DoInstall(s, k), u, id) && Quiet(DoInstall(s, k), u)
  {
    hide Sourced, Past, FlightsOk, CallsOk, InGrace, CacheOk;
    if s.calls[k].user != u && s.calls[k].user in s.cache && s.cache[s.calls[k].user] == id {
      DistinctEntries(s, u, s.calls[k].user);
    }
  }

  lemma GraceStep(s: System, a: Action, u: string, id: nat)
    requires Inv(s) && Marked(s, u, id) && Quiet(s, u) && Enabled(s, a) && InGrace(s.cfg, s.heap[id], s.clock)
    ensures Marked(Apply(s, a), u, id) && Quiet(Apply(s, a), u) && !LooksUp(s, a, u)
  {
    hide Sourced, Past, FlightsOk, CallsOk, InGrace, CacheOk, DoCheck, DoInstall, StageFormed;
    match a
    case Check(k) => GraceCheck(s, k, u, id);
    case Install(k) => GraceInstall(s, k, u, id);
    case _ =>
  }

  /** Once an entry is marked and no call is already on its way, nobody asks the
      directory about that user until fetchedAt + ttl + grace, recovered or not. */
  lemma {:induction false} NoLookupInGrace(s: System, acts: seq<Action>, t: System, u: string, id: nat)
    requires Reachable(s) && Runs(s, acts, t) && Marked(s, u, id) && Quiet(s, u)
    requires t.clock < s.heap[id].fetchedAt + (if s.heap[id].keys.None? then s.cfg.negativeTtl else s.cfg.ttl) + s.cfg.grace
    ensures Marked(t, u, id) && Quiet(t, u)
    ensures forall n :: 0 <= n < |acts| && (acts[n].Look? || acts[n].LookFails?) ==> acts[n].call < |t.calls|
    ensures forall n :: 0 <= n < |acts| ==> !LooksUp(t, acts[n], u)
    decreases |acts|
  {
    hide Inv, Enabled, Apply, Quiet, InGrace, Marked, LooksUp, Grows, Reachable;
    InvReachable(s);
    if acts != [] {
      var n := |acts| - 1;
      var m :| Runs(s, acts[..n], m) && WellFormed(m) && Enabled(m, acts[n]) && Apply(m, acts[n]) == t;
      InvRun(s, acts[..n], m);
      GrowsStep(m, acts[n]);
      GrowsClock(m, t);
      NoLookupInGrace(s, acts[..n], m, u, id);
      MarkedExists(s, u, id);
      GraceNow(s, m, id);
      EntriesNeverChange(s, acts[..n], m, id);
      GraceStep(m, acts[n], u, id);
      LooksExtend(m, acts[..n], acts[n], t, u);
      assert acts == acts[..n] + [acts[n]];
    }
  }

  lemma MarkedExists(s: System, u: string, id: nat)
    requires Marked(s, u, id)
    ensures id < |s.heap|
  {
  }

  lemma GrowsClock(s: System, t: System)
    requires Grows(s, t)
    ensures s.clock <= t.clock
  {
  }

  lemma LooksExtend(m: System, before: seq<Action>, last: Action, t: System, u: string)
    requires WellFormed(m) && Enabled(m, last) && Apply(m, last) == t && Grows(m, t) && !LooksUp(m, last, u)
    requires forall i :: 0 <= i < |before| && (before[i].Look? || before[i].LookFails?) ==> before[i].call < |m.calls|
    requires forall i :: 0 <= i < |before| ==> !LooksUp(m, before[i], u)
    ensures var acts := before + [last];
      && (forall i :: 0 <= i < |acts| && (acts[i].Look? || acts[i].LookFails?) ==> acts[i].call < |t.calls|)
      && (forall i :: 0 <= i < |acts| ==> !LooksUp(t, acts[i], u))
  {
    hide Enabled, Apply, LooksUp, WellFormed;
    LookingCall(m, last);
    forall i | 0 <= i <= |before|
      ensures var b := (before + [last])[i];
        (b.Look? || b.LookFails? ==> b.call < |t.calls|) && !LooksUp(t, b, u)
    {
      StillLooks(m, last, t, (before + [last])[i], u);
    }
  }

  lemma GraceNow(s: System, m: System, id: nat)
    requires Grows(s, m) && id < |s.heap|
    requires m.clock < s.heap[id].fetchedAt + Ttl(s.cfg, s.heap[id].keys) + s.cfg.grace
    ensures InGrace(m.cfg, m.heap[id], m.clock)
  {
  }

  lemma LookingCall(m: System, a: Action)
    requires WellFormed(m) && Enabled(m, a)
    ensures a.Look? || a.LookFails? ==> a.call < |m.calls| && |Apply(m, a).calls| == |m.calls|
  {
  }

  /** A call keeps its user; only a Begin makes a new one. */
  lemma StillLooks(m: System, a: Action, t: System, b: Action, u: string)
    requires WellFormed(m) && Enabled(m, a) && Apply(m, a) == t && Grows(m, t) && !LooksUp(m, b, u)
    requires (b.Look? || b.LookFails?) ==> b.call < |m.calls|
    ensures !LooksUp(t, b, u)
  {
  }

  /** A run from s without a tick in which the directory is asked about u. */
  ghost predicate CanAsk(s: System, u: string) {
    exists acts, t :: Asks(s, acts, t, u)
  }

  ghost predicate Asks(s: System, acts: seq<Action>, t: System, u: string) {
    Runs(s, acts, t) && t.clock == s.clock && exists n :: 0 <= n < |acts| && LooksUp(t, acts[n], u)
  }

  lemma RunSnoc(s: System, acts: seq<Action>, m: System, a: Action)
    requires Runs(s, acts, m) && WellFormed(m) && Enabled(m, a)
    ensures Runs(s, acts + [a], Apply(m, a))
  {
    assert (acts + [a])[..|acts|] == acts;
  }

  lemma LeaderAsks(s: System, k: nat)
    requires Reachable(s) && k < |s.calls| && s.calls[k].stage.Leading?
    ensures CanAsk(s, s.calls[k].user)
  {
    InvReachable(s);
    assert Runs(s, [], s);
    RunSnoc(s, [], s, Look(k));
    assert LooksUp(DoLook(s, k), ([] + [Look(k)])[0], s.calls[k].user);
    assert Asks(s, [] + [Look(k)], DoLook(s, k), s.calls[k].user);
  }

  /** A step without a tick, before a run that asks. */
  lemma AsksAfter(s: System, a: Action, u: string)
    requires Reachable(s) && WellFormed(s) && Enabled(s, a) && Apply(s, a).clock == s.clock && CanAsk(Apply(s, a), u)
    ensures CanAsk(s, u)
  {
    hide Enabled, Apply, LooksUp;
    var acts, t :| Asks(Apply(s, a), acts, t, u);
    RunCons(s, a, acts, t);
    var n :| 0 <= n < |acts| && LooksUp(t, acts[n], u);
    assert ([a] + acts)[n + 1] == acts[n];
    assert Asks(s, [a] + acts, t, u);
  }

  lemma {:induction false} RunCons(s: System, a: Action, acts: seq<Action>, t: System)
    requires WellFormed(s) && Enabled(s, a) && Runs(Apply(s, a), acts, t)
    ensures Runs(s, [a] + acts, t)
    decreases |acts|
  {
    hide Enabled, Apply, WellFormed;
    var all := [a] + acts;
    if acts == [] {
      assert all[..0] == [];
      assert Runs(s, [], s);
    } else {
      var k := |acts| - 1;
      var m :| Runs(Apply(s, a), acts[..k], m) && WellFormed(m) && Enabled(m, acts[k]) && Apply(m, acts[k]) == t;
      RunCons(s, a, acts[..k], m);
      assert all[..|all| - 1] == [a] + acts[..k];
      assert all[|all| - 1] == acts[k];
    }
  }

  lemma ReachableStep(s: System, a: Action)
    requires Reachable(s) && WellFormed(s) && Enabled(s, a)
    ensures Reachable(Apply(s, a)) && WellFormed(Apply(s, a))
  {
    InvReachable(s);
    InvStep(s, a);
    hide Enabled, Apply, WellFormed, Inv;
    var cfg, directory, acts :| Runs(Init(cfg, directory), acts, s);
    RunSnoc(Init(cfg, directory), acts, s, a);
  }

  /** A call past its check with no flight in the way. */
  lemma MissedAsksFree(s: System, k: nat)
    requires Reachable(s) && k < |s.calls| && s.calls[k].stage.Missed? && s.calls[k].user !in s.flights
    ensures CanAsk(s, s.calls[k].user)
  {
    InvReachable(s);
    hide Reachable, Inv, CanAsk;
    ReachableStep(s, Enter(k));
    LeaderAsks(Apply(s, Enter(k)), k);
    AsksAfter(s, Enter(k), s.calls[k].user);
  }

  /** A call past its check waits at most for the flight before it. */
  lemma MissedAsks(s: System, k: nat)
    requires Reachable(s) && k < |s.calls| && s.calls[k].stage.Missed?
    ensures CanAsk(s, s.calls[k].user)
  {
    var u := s.calls[k].user;
    if u !in s.flights {
      MissedAsksFree(s, k);
    } else {
      InvReachable(s);
      hide Reachable, CanAsk, Sourced, Past, CacheOk, CallsOk, InstallAnswer, InstallError, WellFormed;
      var f := s.flights[u];
      assert InFlight(s.calls[f].stage) && s.calls[f].user == u && f != k;
      if s.calls[f].stage.Leading? {
        LeaderAsks(s, f);
      } else if s.calls[f].stage.Returned? {
        LandedThenAsks(s, f, k);
      } else {
        ReachableStep(s, Install(f));
        InstallOne(s, f, k);
        LandedThenAsks(Apply(s, Install(f)), f, k);
        AsksAfter(s, Install(f), u);
      }
    }
  }

  lemma InstallOne(s: System, f: nat, k: nat)
    requires WellFormed(s) && Enabled(s, Install(f)) && k < |s.calls| && k != f
    ensures var t := Apply(s, Install(f));
      t.clock == s.clock && |t.calls| == |s.calls| && t.calls[k] == s.calls[k] && t.calls[f].stage.Returned? &&
      t.calls[f].user == s.calls[f].user
  {
    hide InGrace;
  }

  lemma LandedThenAsks(s: System, f: nat, k: nat)
    requires Reachable(s) && WellFormed(s) && f < |s.calls| && k < |s.calls| && f != k
    requires s.calls[f].stage.Returned? && s.calls[k].stage.Missed? && s.calls[f].user == s.calls[k].user
    ensures CanAsk(s, s.calls[k].user)
  {
    hide Reachable, CanAsk, WellFormed;
    ReachableStep(s, Finish(f));
    MissedAsksFree(Apply(s, Finish(f)), k);
    AsksAfter(s, Finish(f), s.calls[k].user);
  }

  /** The entry does not serve at the present time, or there is none. */
  predicate Expired(s: System, u: string)
    requires WellFormed(s)
  {
    EntryFor(s, u).None? || Decide(s.cfg, EntryFor(s, u).value, s.clock).GoLive?
  }

  /** The call is past its check, or what it brought back will not serve: an answer read
      a ttl ago, or an error when the entry is out of its grace window. */
  predicate Reopens(s: System, k: nat)
    requires WellFormed(s) && k < |s.calls|
  {
    assert StageFormed(s, s.calls[k].stage);
    match s.calls[k].stage
    case Missed => true
    case Leading => true
    case LookedUp(Answered(a)) => s.clock - s.calls[k].now >= Ttl(s.cfg, s.answers[a].keys)
    case LookedUp(Broke(_)) => EntryFor(s, s.calls[k].user).Some? && !InGrace(s.cfg, EntryFor(s, s.calls[k].user).value, s.clock)
    case _ => false
  }

  predicate Reopened(s: System, u: string)
    requires WellFormed(s)
  {
    exists k :: 0 <= k < |s.calls| && s.calls[k].user == u && Reopens(s, k)
  }

  predicate Askable(s: System, u: string)
    requires WellFormed(s)
  {
    Expired(s, u) || Reopened(s, u)
  }

  /** Exactly when the directory can be asked about a user before the clock moves: there
      is no entry that serves, or one of the user's calls reopens the way. */
  lemma AskedIff(s: System, u: string)
    requires Reachable(s)
    ensures WellFormed(s) && (CanAsk(s, u) <==> Askable(s, u))
  {
    InvReachable(s);
    hide CanAsk, Reachable, Expired, Reopens, Inv;
    if Expired(s, u) {
      ExpiredAsks(s, u);
    } else if Reopened(s, u) {
      var k :| 0 <= k < |s.calls| && s.calls[k].user == u && Reopens(s, k);
      ReopensAsks(s, k);
    } else {
      NobodyAsks(s, u);
    }
  }

  /** The call is past its check, or holds an answer whose reading is a ttl old. */
  predicate Late(s: System, k: nat)
    requires WellFormed(s) && k < |s.calls|
  {
    assert StageFormed(s, s.calls[k].stage);
    WillAsk(s.calls[k].stage) ||
    (HasAnswer(s.calls[k].stage) && s.clock - s.calls[k].now >= Ttl(s.cfg, s.answers[s.calls[k].stage.got.answer].keys))
  }

  /** So after an error mark the grace window stops lookups exactly when no call of that
      user is late. */
  lemma LateCallStillAsks(s: System, u: string, id: nat)
    requires Reachable(s) && Marked(s, u, id) && InGrace(s.cfg, s.heap[id], s.clock)
    ensures WellFormed(s)
    ensures CanAsk(s, u) <==> exists k :: 0 <= k < |s.calls| && s.calls[k].user == u && Late(s, k)
  {
    hide CanAsk, Reachable;
    AskedIff(s, u);
    forall k | 0 <= k < |s.calls| && s.calls[k].user == u
      ensures Reopens(s, k) <==> Late(s, k)
    {
    }
  }

  /** A new call finds no entry that serves, and asks. */
  lemma ExpiredAsks(s: System, u: string)
    requires Reachable(s) && WellFormed(s) && Expired(s, u)
    ensures CanAsk(s, u)
  {
    hide Reachable, CanAsk, StageFormed;
    ReachableStep(s, Begin(u));
    var m, k := Apply(s, Begin(u)), |s.calls|;
    ReachableStep(m, Check(k));
    MissedAsks(Apply(m, Check(k)), k);
    AsksAfter(m, Check(k), u);
    AsksAfter(s, Begin(u), u);
  }

  lemma ReopensAsks(s: System, k: nat)
    requires Reachable(s) && WellFormed(s) && k < |s.calls| && Reopens(s, k)
    ensures CanAsk(s, s.calls[k].user)
  {
    hide Reachable, CanAsk, WellFormed, StageFormed, InstallAnswer, InstallError;
    if s.calls[k].stage.Leading? {
      LeaderAsks(s, k);
    } else if s.calls[k].stage.Missed? {
      MissedAsks(s, k);
    } else {
      InstallRefines(s, k);
      ReachableStep(s, Install(k));
      InstallClock(s, k);
      ExpiredAsks(Apply(s, Install(k)), s.calls[k].user);
      AsksAfter(s, Install(k), s.calls[k].user);
    }
  }

  lemma InstallClock(s: System, k: nat)
    requires WellFormed(s) && Enabled(s, Install(k))
    ensures var t := Apply(s, Install(k)); t.clock == s.clock && t.cfg == s.cfg && t.answers == s.answers
    ensures var t := Apply(s, Install(k));
      |t.calls| == |s.calls| && t.calls[k].stage.Returned? && forall j :: 0 <= j < |s.calls| && j != k ==> t.calls[j] == s.calls[j]
  {
    hide InGrace;
  }

  // ----- and nobody does otherwise -----

  /** What served at the clock serves every earlier reading. */
  lemma ServesEarlier(cfg: Config, e: Entry, now: int, clock: int)
    requires now <= clock && !Decide(cfg, e, clock).GoLive?
    ensures !Decide(cfg, e, now).GoLive?
  {
  }

  lemma ShutCheck(s: System, k: nat, u: string)
    requires Inv(s) && !Askable(s, u) && Enabled(s, Check(k)) && WellFormed(Apply(s, Check(k)))
    ensures !Askable(Apply(s, Check(k)), u)
  {
    hide Sourced, Past, CacheOk, FlightsOk, Decide, InGrace, StageFormed;
    InvCall(s, k);
    if s.calls[k].user == u { ServesEarlier(s.cfg, EntryFor(s, u).value, s.calls[k].now, s.clock); }
    var t := Apply(s, Check(k));
    forall j | 0 <= j < |t.calls| && t.calls[j].user == u
      ensures !Reopens(t, j)
    {
      assert !Reopens(s, j);
    }
  }

  /** Only one call of the user is inside the closure, so its outcome is the last. */
  lemma ShutInstall(s: System, k: nat, u: string)
    requires Reachable(s) && Inv(s) && !Askable(s, u) && Enabled(s, Install(k)) && WellFormed(Apply(s, Install(k)))
    ensures !Askable(Apply(s, Install(k)), u)
  {
    hide Sourced, Past, CacheOk, CallsOk, WellFormed, StageFormed, InstallAnswer, InstallError, Reachable;
    InstallRefines(s, k);
    InstallClock(s, k);
    var t := Apply(s, Install(k));
    forall j | 0 <= j < |t.calls| && t.calls[j].user == u
      ensures !Reopens(t, j)
    {
      if j != k {
        assert !Reopens(s, j);
        assert s.calls[k].user == u ==> !s.calls[j].stage.LookedUp?;
      }
    }
    if s.calls[k].user == u { assert !Reopens(s, k); }
  }

  lemma ShutEnter(s: System, k: nat, u: string)
    requires WellFormed(s) && !Askable(s, u) && Enabled(s, Enter(k)) && WellFormed(Apply(s, Enter(k)))
    ensures !Askable(Apply(s, Enter(k)), u)
  {
    hide Decide, InGrace, StageFormed;
    var t := Apply(s, Enter(k));
    assert Reopens(s, k);
    forall j | 0 <= j < |t.calls| && t.calls[j].user == u
      ensures !Reopens(t, j)
    {
      assert !Reopens(s, j);
    }
  }

  lemma ShutLook(s: System, a: Action, u: string)
    requires WellFormed(s) && !Askable(s, u) && Enabled(s, a) && (a.Look? || a.LookFails?) && WellFormed(Apply(s, a))
    ensures !Askable(Apply(s, a), u) && !LooksUp(s, a, u)
  {
    hide Decide, InGrace;
    var t := Apply(s, a);
    assert Reopens(s, a.call);
    forall j | 0 <= j < |t.calls| && t.calls[j].user == u
      ensures !Reopens(t, j)
    {
      assert !Reopens(s, j);
    }
  }

  lemma ShutOther(s: System, a: Action, u: string)
    requires WellFormed(s) && !Askable(s, u) && Enabled(s, a) && Apply(s, a).clock == s.clock && WellFormed(Apply(s, a))
    requires !a.Check? && !a.Enter? && !a.Install? && !a.Look? && !a.LookFails?
    ensures !Askable(Apply(s, a), u)
  {
    hide Decide, InGrace, StageFormed;
    var t := Apply(s, a);
    forall j | 0 <= j < |t.calls| && t.calls[j].user == u
      ensures !Reopens(t, j)
    {
      if j < |s.calls| { assert !Reopens(s, j); }
    }
  }

  lemma ShutStep(s: System, a: Action, u: string)
    requires Reachable(s) && Inv(s) && !Askable(s, u) && Enabled(s, a) && Apply(s, a).clock == s.clock
    ensures WellFormed(Apply(s, a)) && !Askable(Apply(s, a), u) && !LooksUp(s, a, u)
  {
    InvStep(s, a);
    hide Reachable, Inv, Enabled, Apply, WellFormed, Askable;
    match a
    case Check(k) => ShutCheck(s, k, u);
    case Enter(k) => ShutEnter(s, k, u);
    case Install(k) => ShutInstall(s, k, u);
    case Look(_) => ShutLook(s, a, u);
    case LookFails(_, _) => ShutLook(s, a, u);
    case _ => ShutOther(s, a, u);
  }

  lemma {:induction false} StaysShut(s: System, acts: seq<Action>, t: System, u: string)
    requires Reachable(s) && WellFormed(s) && !Askable(s, u) && Runs(s, acts, t) && t.clock == s.clock
    ensures WellFormed(t) && !Askable(t, u) && Reachable(t)
    ensures forall n :: 0 <= n < |acts| && (acts[n].Look? || acts[n].LookFails?) ==> acts[n].call < |t.calls|
    ensures forall n :: 0 <= n < |acts| ==> !LooksUp(t, acts[n], u)
    decreases |acts|
  {
    hide Inv, Enabled, Apply, Askable, LooksUp, Grows, Reachable, WellFormed;
    InvReachable(s);
    if acts != [] {
      var n := |acts| - 1;
      var m :| Runs(s, acts[..n], m) && WellFormed(m) && Enabled(m, acts[n]) && Apply(m, acts[n]) == t;
      InvRun(s, acts[..n], m);
      GrowsStep(m, acts[n]);
      GrowsClock(m, t);
      GrowsClock(s, m);
      StaysShut(s, acts[..n], m, u);
      ShutStep(m, acts[n], u);
      ReachableStep(m, acts[n]);
      LooksExtend(m, acts[..n], acts[n], t, u);
      assert acts == acts[..n] + [acts[n]];
    }
  }

  lemma NobodyAsks(s: System, u: string)
    requires Reachable(s) && WellFormed(s) && !Askable(s, u)
    ensures !CanAsk(s, u)
  {
    hide Reachable, LooksUp, Askable, WellFormed;
    if CanAsk(s, u) {
      var acts, t :| Asks(s, acts, t, u);
      StaysShut(s, acts, t, u);
      assert false;
    }
  }

  // ----- a run that leads there -----

  /** User u was known by ks at time 0; at time ttl two calls have found the entry
      expired, and the lookup of the first has failed. */
  function LateState(cfg: Config, u: string, ks: seq<Key>): System {
    var served := Ended(Outcome(Cached(0), NoError), true);
    System(cfg, cfg.ttl, map[u := ks], [Answer(u, 0, Some(ks))], [Entry(Some(ks), 0, Some(cfg.ttl))], [0], map[u := 0], map[],
           [Call(u, 0, Ended(Outcome(Keys(ks), NoError), false)), Call(u, cfg.ttl, served), Call(u, cfg.ttl, Missed)],
           Counts(0, 1, 1, 0, 1))
  }

  /** The first half of that run: one call that asks and installs. */
  lemma FilledReachable(cfg: Config, u: string, ks: seq<Key>) returns (s: System)
    ensures Reachable(s) && WellFormed(s)
    ensures s == System(cfg, 0, map[u := ks], [Answer(u, 0, Some(ks))], [Entry(Some(ks), 0, None)], [0], map[u := 0], map[],
                        [Call(u, 0, Ended(Outcome(Keys(ks), NoError), false))], Counts(0, 0, 1, 0, 0))
  {
    hide Reachable;
    s := Init(cfg, map[u := ks]);
    InitReachable(cfg, map[u := ks]);
    s := Did(s, Begin(u));
    s := Did(s, Check(0));
    s := Did(s, Enter(0));
    s := Did(s, Look(0));
    s := Did(s, Install(0));
    s := Did(s, Finish(0));
  }

  lemma Did(s: System, a: Action) returns (t: System)
    requires Reachable(s) && WellFormed(s) && Enabled(s, a)
    ensures t == Apply(s, a) && Reachable(t) && WellFormed(t)
  {
    ReachableStep(s, a);
    t := Apply(s, a);
  }

  lemma InitReachable(cfg: Config, directory: map<string, seq<Key>>)
    ensures Reachable(Init(cfg, directory)) && WellFormed(Init(cfg, directory))
  {
    assert Runs(Init(cfg, directory), [], Init(cfg, directory));
  }

  /** Two calls have found the entry expired. */
  lemma ExpiredReachable(cfg: Config, u: string, ks: seq<Key>) returns (s: System)
    requires 0 <= cfg.ttl
    ensures Reachable(s) && WellFormed(s)
    ensures s == System(cfg, cfg.ttl, map[u := ks], [Answer(u, 0, Some(ks))], [Entry(Some(ks), 0, None)], [0], map[u := 0], map[],
                        [Call(u, 0, Ended(Outcome(Keys(ks), NoError), false)), Call(u, cfg.ttl, Missed), Call(u, cfg.ttl, Missed)],
                        Counts(0, 0, 1, 0, 0))
  {
    hide Reachable;
    s := FilledReachable(cfg, u, ks);
    s := Did(s, Tick(cfg.ttl));
    s := Did(s, Begin(u));
    s := Did(s, Begin(u));
    s := Did(s, Check(1));
    s := Did(s, Check(2));
  }

  lemma LateReachable(cfg: Config, u: string, ks: seq<Key>, err: string)
    requires 0 <= cfg.ttl && 0 < cfg.grace
    ensures Reachable(LateState(cfg, u, ks))
  {
    hide Reachable;
    var s := ExpiredReachable(cfg, u, ks);
    s := Did(s, Enter(1));
    s := Did(s, LookFails(1, err));
    s := Did(s, Install(1));
    s := Did(s, Finish(1));
    assert s == LateState(cfg, u, ks);
  }

  /** Under every configuration with a grace window the error mark fails to stop a
      lookup in some run: the call behind the failed one asks again at once. */
  lemma MarkDoesNotStop(cfg: Config, u: string, ks: seq<Key>)
    requires 0 <= cfg.ttl && 0 < cfg.grace
    ensures exists s, id: nat :: Reachable(s) && s.cfg == cfg && Marked(s, u, id) && InGrace(s.cfg, s.heap[id], s.clock) && CanAsk(s, u)
  {
    hide Reachable, CanAsk;
    LateReachable(cfg, u, ks, "");
    var s := LateState(cfg, u, ks);
    MissedAsksFree(s, 2);
    assert Marked(s, u, 0);
  }

  // ----- the counters -----

  /** How many calls are at a stage of this kind. */
  function Count(calls: seq<Call>, p: Stage -> bool): nat {
    if calls == [] then 0 else (if p(calls[0].stage) then 1 else 0) + Count(calls[1..], p)
  }

  lemma {:induction false} CountSet(calls: seq<Call>, k: nat, st: Stage, p: Stage -> bool)
    requires k < |calls|
    ensures Count(SetStage(calls, k, st), p) + (if p(calls[k].stage) then 1 else 0) ==
            Count(calls, p) + (if p(st) then 1 else 0)
  {
    var after := SetStage(calls, k, st);
    if k == 0 {
      assert after[1..] == calls[1..];
    } else {
      assert after[1..] == SetStage(calls[1..], k - 1, st);
      CountSet(calls[1..], k - 1, st, p);
    }
  }

  lemma {:induction false} CountSnoc(calls: seq<Call>, c: Call, p: Stage -> bool)
    ensures Count(calls + [c], p) == Count(calls, p) + (if p(c.stage) then 1 else 0)
  {
    if calls == [] {
      assert calls + [c] == [c];
    } else {
      assert (calls + [c])[1..] == calls[1..] + [c];
      CountSnoc(calls[1..], c, p);
    }
  }

  predicate IsFresh(st: Stage) { st.Fresh? }
  predicate IsStale(st: Stage) { st.Stale? }
  predicate IsLanded(st: Stage) { st.Returned? || st.Ended? }
  predicate IsFallback(st: Stage) { IsLanded(st) && st.out.value.Cached? }
  predicate IsHit(st: Stage) { IsLanded(st) && st.out.value.Keys? }
  predicate IsMiss(st: Stage) { IsLanded(st) && st.out.error.IdentityNotFound? }
  predicate IsError(st: Stage) { IsLanded(st) && st.broke }
  predicate IsFlown(st: Stage) { IsLanded(st) || st.Leading? || st.LookedUp? || st.Waiting? || st.Joined? }
  predicate IsEarly(st: Stage) { st.Begun? || st.Missed? }

  /** The counters are the numbers of calls that ended each way. */
  predicate Counted(s: System) {
    && s.counts.cacheFresh == Count(s.calls, IsFresh)
    && s.counts.cacheStale == Count(s.calls, IsStale) + Count(s.calls, IsFallback)
    && s.counts.hit == Count(s.calls, IsHit)
    && s.counts.miss == Count(s.calls, IsMiss)
    && s.counts.error == Count(s.calls, IsError)
  }

  lemma CountAll(calls: seq<Call>, k: nat, st: Stage)
    requires k < |calls|
    ensures forall p :: p == IsFresh || p == IsStale || p == IsFallback || p == IsHit || p == IsMiss || p == IsError ==>
      Count(SetStage(calls, k, st), p) + (if p(calls[k].stage) then 1 else 0) == Count(calls, p) + (if p(st) then 1 else 0)
  {
    CountSet(calls, k, st, IsFresh);
    CountSet(calls, k, st, IsStale);
    CountSet(calls, k, st, IsFallback);
    CountSet(calls, k, st, IsHit);
    CountSet(calls, k, st, IsMiss);
    CountSet(calls, k, st, IsError);
  }

  lemma CountedMove(s: System, t: System, k: nat, st: Stage)
    requires Counted(s) && k < |s.calls| && t.calls == SetStage(s.calls, k, st)
    requires !IsLanded(s.calls[k].stage) && !s.calls[k].stage.Fresh? && !s.calls[k].stage.Stale?
    requires t.counts.cacheFresh == s.counts.cacheFresh + (if IsFresh(st) then 1 else 0)
    requires t.counts.cacheStale == s.counts.cacheStale + (if IsStale(st) || IsFallback(st) then 1 else 0)
    requires t.counts.hit == s.counts.hit + (if IsHit(st) then 1 else 0)
    requires t.counts.miss == s.counts.miss + (if IsMiss(st) then 1 else 0)
    requires t.counts.error == s.counts.error + (if IsError(st) then 1 else 0)
    ensures Counted(t)
  {
    CountAll(s.calls, k, st);
  }

  lemma CountedFinish(s: System, k: nat)
    requires Counted(s) && Enabled(s, Finish(k))
    ensures Counted(DoFinish(s, k))
  {
    CountAll(s.calls, k, Ended(s.calls[k].stage.out, s.calls[k].stage.broke));
  }

  lemma CountedBegin(s: System, c: Call, t: System)
    requires Counted(s) && c.stage.Begun? && t.counts == s.counts && t.calls == s.calls + [c]
    ensures Counted(t)
  {
    CountSnoc(s.calls, c, IsFresh);
    CountSnoc(s.calls, c, IsStale);
    CountSnoc(s.calls, c, IsFallback);
    CountSnoc(s.calls, c, IsHit);
    CountSnoc(s.calls, c, IsMiss);
    CountSnoc(s.calls, c, IsError);
  }

  lemma CountedCheck(s: System, k: nat)
    requires WellFormed(s) && Counted(s) && Enabled(s, Check(k))
    ensures Counted(DoCheck(s, k))
  {
    hide Counted, StageFormed, Decide;
    var t := DoCheck(s, k);
    CountedMove(s, t, k, t.calls[k].stage);
  }

  lemma CountedInstall(s: System, k: nat)
    requires WellFormed(s) && Counted(s) && Enabled(s, Install(k))
    ensures Counted(DoInstall(s, k))
  {
    hide Counted, InGrace;
    var t := DoInstall(s, k);
    assert StageFormed(s, s.calls[k].stage);
    CountedMove(s, t, k, t.calls[k].stage);
  }

  lemma CountedStep(s: System, a: Action)
    requires WellFormed(s) && Counted(s) && Enabled(s, a)
    ensures Counted(Apply(s, a))
  {
    hide Counted, StageFormed, DoCheck, DoInstall, DoFinish;
    var t := Apply(s, a);
    match a
    case Begin(u) => CountedBegin(s, Call(u, s.clock, Begun), t);
    case Check(k) => CountedCheck(s, k);
    case Enter(k) => CountedMove(s, t, k, t.calls[k].stage);
    case Look(k) => CountedMove(s, t, k, t.calls[k].stage);
    case LookFails(k, _) => CountedMove(s, t, k, t.calls[k].stage);
    case Install(k) => CountedInstall(s, k);
    case Finish(k) => CountedFinish(s, k);
    case Collect(k) => CountedMove(s, t, k, t.calls[k].stage);
    case _ => CountedSame(s, t);
  }

  lemma CountedSame(s: System, t: System)
    requires Counted(s) && t.calls == s.calls && t.counts == s.counts
    ensures Counted(t)
  {
  }

  lemma {:induction false} CountedRun(cfg: Config, directory: map<string, seq<Key>>, acts: seq<Action>, s: System)
    requires Runs(Init(cfg, directory), acts, s)
    ensures Counted(s)
    decreases |acts|
  {
    hide Enabled, Apply;
    if acts != [] {
      var n := |acts| - 1;
      var m :| Runs(Init(cfg, directory), acts[..n], m) && WellFormed(m) && Enabled(m, acts[n]) && Apply(m, acts[n]) == s;
      CountedRun(cfg, directory, acts[..n], m);
      CountedStep(m, acts[n]);
    }
  }

  /** A landed flight was exactly one of hit, miss and error. */
  lemma {:induction false} LandedSplits(s: System, calls: seq<Call>)
    requires forall c :: c in calls ==> CallOk(s, c)
    ensures Count(calls, IsHit) + Count(calls, IsMiss) + Count(calls, IsError) == Count(calls, IsLanded)
  {
    if calls != [] {
      LandedSplits(s, calls[1..]);
      assert CallOk(s, calls[0]);
    }
  }

  /** Every call is early, served up front, or in a flight as leader or duplicate. */
  lemma {:induction false} CallsSplit(calls: seq<Call>)
    ensures Count(calls, IsEarly) + Count(calls, IsFresh) + Count(calls, IsStale) + Count(calls, IsFlown) == |calls|
  {
    if calls != [] {
      CallsSplit(calls[1..]);
    }
  }

  /** hit + miss + error is the number of flights that landed; cache_fresh plus the
      up-front cache_stale plus the calls that joined a flight is the number of
      calls past their check. */
  lemma CountersAddUp(s: System)
    requires Reachable(s)
    ensures s.counts.hit + s.counts.miss + s.counts.error == Count(s.calls, IsLanded)
    ensures s.counts.cacheFresh + (s.counts.cacheStale - Count(s.calls, IsFallback)) + Count(s.calls, IsFlown) ==
            |s.calls| - Count(s.calls, IsEarly)
    ensures Count(s.calls, IsFallback) <= s.counts.error
  {
    var cfg, directory, acts :| Runs(Init(cfg, directory), acts, s);
    CountedRun(cfg, directory, acts, s);
    InvReachable(s);
    LandedSplits(s, s.calls);
    CallsSplit(s.calls);
    FallbacksBroke(s, s.calls);
  }

  lemma {:induction false} FallbacksBroke(s: System, calls: seq<Call>)
    requires forall c :: c in calls ==> CallOk(s, c)
    ensures Count(calls, IsFallback) <= Count(calls, IsError)
  {
    if calls != [] {
      FallbacksBroke(s, calls[1..]);
      assert CallOk(s, calls[0]);
    }
  }
}
