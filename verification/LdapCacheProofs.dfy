/** What holds in every reachable state of the LDAP cache. */
module LdapCacheProofs {
  import opened Wrappers
  import opened LdapCache

  /** Every entry was made from an answer that is no older than it claims. */
  predicate Sourced(s: System) {
    && |s.origin| == |s.heap|
    && forall id :: 0 <= id < |s.heap| ==>
         s.origin[id] < |s.answers| &&
         s.answers[s.origin[id]].keys == s.heap[id].keys &&
         s.heap[id].fetchedAt <= s.answers[s.origin[id]].at
  }

  /** Answers are in the past. */
  predicate Past(s: System) {
    forall a :: 0 <= a < |s.answers| ==> s.answers[a].at <= s.clock
  }

  predicate EntryOf(s: System, id: nat, user: string) {
    id < |s.heap| && id < |s.origin| && s.origin[id] < |s.answers| && s.answers[s.origin[id]].user == user
  }

  predicate CacheOk(s: System) {
    forall u :: u in s.cache ==> EntryOf(s, s.cache[u], u)
  }

  /** What a flight's outcome rests on; now is its leader's clock reading. */
  ghost predicate Grounded(s: System, user: string, now: int, out: Outcome, broke: bool) {
    match out.error
    case NoError =>
      && !out.value.Nil?
      && (out.value.Keys? ==> !broke && exists a :: Supports(s, a, user, now, Some(out.value.keys)))
      && (out.value.Cached? ==>
            broke && EntryOf(s, out.value.id, user) && InGrace(s.cfg, s.heap[out.value.id], now))
    case IdentityNotFound => !broke && out.value.Nil? && exists a :: Supports(s, a, user, now, None)
    case Failure(_) => broke && out.value.Nil?
  }

  predicate Supports(s: System, a: nat, user: string, now: int, keys: Option<seq<Key>>) {
    a < |s.answers| && s.answers[a].user == user && now <= s.answers[a].at && s.answers[a].keys == keys
  }

  ghost predicate CallOk(s: System, c: Call) {
    c.now <= s.clock &&
    match c.stage
    case Fresh(id) => EntryOf(s, id, c.user) && c.now - s.heap[id].fetchedAt < Ttl(s.cfg, s.heap[id].keys)
    case Stale(id) => EntryOf(s, id, c.user) && InGrace(s.cfg, s.heap[id], c.now)
    case LookedUp(Answered(a)) => Supports(s, a, c.user, c.now, if a < |s.answers| then s.answers[a].keys else None)
    case Returned(out, broke) => Grounded(s, c.user, c.now, out, broke)
    case Ended(out, broke) => Grounded(s, c.user, c.now, out, broke)
    case Waiting(l) => l < |s.calls| && s.calls[l].user == c.user && LeadStage(s.calls[l].stage)
    case Joined(l) => l < |s.calls| && s.calls[l].user == c.user && s.calls[l].stage.Ended?
    case _ => true
  }

  predicate InFlight(st: Stage) { st.Leading? || st.LookedUp? || st.Returned? }
  predicate LeadStage(st: Stage) { InFlight(st) || st.Ended? }

  ghost predicate CallsOk(s: System) { forall k :: 0 <= k < |s.calls| ==> CallOk(s, s.calls[k]) }

  /** A user's flight is the one call of that user that is inside the closure. */
  predicate FlightsOk(s: System) {
    && (forall u :: u in s.flights ==>
          s.flights[u] < |s.calls| && s.calls[s.flights[u]].user == u && InFlight(s.calls[s.flights[u]].stage))
    && (forall k :: 0 <= k < |s.calls| && InFlight(s.calls[k].stage) ==>
          s.calls[k].user in s.flights && s.flights[s.calls[k].user] == k)
  }

  ghost predicate Inv(s: System) { WellFormed(s) && Sourced(s) && Past(s) && CacheOk(s) && CallsOk(s) && FlightsOk(s) }

  // ----- what a step may do to the entries -----

  /** Histories only grow, and entries keep their keys and their age. */
  predicate Grows(s: System, t: System) {
    && t.cfg == s.cfg && s.clock <= t.clock
    && |s.answers| <= |t.answers| && |s.heap| <= |t.heap| && |s.origin| <= |t.origin| && |s.calls| <= |t.calls|
    && (forall a :: 0 <= a < |s.answers| ==> t.answers[a] == s.answers[a])
    && (forall id :: 0 <= id < |s.heap| ==> t.heap[id].keys == s.heap[id].keys && t.heap[id].fetchedAt == s.heap[id].fetchedAt)
    && (forall id :: 0 <= id < |s.origin| ==> t.origin[id] == s.origin[id])
    && (forall k :: 0 <= k < |s.calls| ==> CallMoves(s.calls[k], t.calls[k]))
  }

  predicate CallMoves(c: Call, c': Call) {
    c'.user == c.user && c'.now == c.now && StageMoves(c.stage, c'.stage)
  }

  /** Leaders stay leaders; an outcome never changes; who is done stays done. */
  predicate StageMoves(st: Stage, st': Stage) {
    && (LeadStage(st) ==> LeadStage(st'))
    && (st.Ended? || st.Fresh? || st.Stale? || st.Joined? ==> st' == st)
    && (st.Returned? ==> st' == st || (st'.Ended? && st'.out == st.out && st'.broke == st.broke))
  }

  lemma GrowsNew(s: System, t: System, k: nat, st: Stage)
    requires k < |s.calls| && t.cfg == s.cfg && t.clock == s.clock && t.heap == s.heap && t.origin == s.origin
    requires |s.answers| <= |t.answers| && t.answers[..|s.answers|] == s.answers
    requires t.calls == SetStage(s.calls, k, st) && StageMoves(s.calls[k].stage, st)
    ensures Grows(s, t)
  {
    assert forall a :: 0 <= a < |s.answers| ==> t.answers[a] == t.answers[..|s.answers|][a];
  }

  lemma GrowsInstall(s: System, k: nat)
    requires WellFormed(s) && Enabled(s, Install(k))
    ensures Grows(s, DoInstall(s, k))
  {
    hide InGrace;
    var t, st := DoInstall(s, k), s.calls[k].stage;
    assert StageFormed(s, st);
    assert StageMoves(st, t.calls[k].stage);
    forall j | 0 <= j < |s.calls|
      ensures CallMoves(s.calls[j], t.calls[j])
    {
    }
  }

  lemma GrowsCheck(s: System, k: nat)
    requires WellFormed(s) && Enabled(s, Check(k))
    ensures Grows(s, DoCheck(s, k))
  {
    hide Decide, Grows, WellFormed;
    GrowsNew(s, DoCheck(s, k), k, DoCheck(s, k).calls[k].stage);
  }

  lemma GrowsStep(s: System, a: Action)
    requires WellFormed(s) && Enabled(s, a)
    ensures Grows(s, Apply(s, a))
  {
    hide DoInstall, DoCheck;
    var t := Apply(s, a);
    match a
    case Check(k) => GrowsCheck(s, k);
    case Enter(k) => GrowsNew(s, t, k, t.calls[k].stage);
    case Look(k) => GrowsNew(s, t, k, t.calls[k].stage);
    case LookFails(k, _) => GrowsNew(s, t, k, t.calls[k].stage);
    case Finish(k) => GrowsNew(s, t, k, t.calls[k].stage);
    case Collect(k) => GrowsNew(s, t, k, t.calls[k].stage);
    case Install(k) => GrowsInstall(s, k);
    case _ =>
  }

  // ----- facts that survive growth -----

  lemma GroundedGrows(s: System, t: System, u: string, now: int, out: Outcome, broke: bool)
    requires Grows(s, t) && Grounded(s, u, now, out, broke)
    ensures Grounded(t, u, now, out, broke)
  {
    if out.value.Keys? && out.error.NoError? {
      var a :| Supports(s, a, u, now, Some(out.value.keys));
      assert Supports(t, a, u, now, Some(out.value.keys));
    } else if out.error.IdentityNotFound? {
      var a :| Supports(s, a, u, now, None);
      assert Supports(t, a, u, now, None);
    }
  }

  lemma CallOkGrows(s: System, t: System, c: Call)
    requires Grows(s, t) && CallOk(s, c)
    ensures CallOk(t, c)
  {
    hide Grounded;
    if c.stage.Returned? || c.stage.Ended? {
      GroundedGrows(s, t, c.user, c.now, c.stage.out, c.stage.broke);
    }
  }

  /** Stages name what exists; growth keeps that, as done calls stay done. */
  lemma FormedFromOk(s: System, c: Call)
    requires CallOk(s, c)
    ensures StageFormed(s, c.stage)
  {
  }

  /** A step that moves one call and leaves cache and entries alone. */
  predicate Moves(s: System, t: System, k: nat) {
    && t.heap == s.heap && t.origin == s.origin && t.cache == s.cache && t.answers == s.answers && t.clock == s.clock
    && |t.calls| == |s.calls| && k < |s.calls| && forall j :: 0 <= j < |s.calls| && j != k ==> t.calls[j] == s.calls[j]
  }

  lemma CallsOkMove(s: System, t: System, k: nat)
    requires Grows(s, t) && CallsOk(s) && |t.calls| == |s.calls| && k < |s.calls|
    requires forall j :: 0 <= j < |s.calls| && j != k ==> t.calls[j] == s.calls[j]
    requires CallOk(t, t.calls[k])
    ensures CallsOk(t)
  {
    hide CallOk, Grows;
    forall j | 0 <= j < |t.calls|
      ensures CallOk(t, t.calls[j])
    {
      if j != k { CallOkGrows(s, t, s.calls[j]); }
    }
  }

  lemma FormedAll(t: System)
    requires |t.origin| == |t.heap| && CacheOk(t) && CallsOk(t)
    ensures WellFormed(t)
  {
    hide CallOk, StageFormed;
    forall k | 0 <= k < |t.calls|
      ensures StageFormed(t, t.calls[k].stage)
    {
      FormedFromOk(t, t.calls[k]);
    }
  }

  lemma MoveKeeps(s: System, t: System, k: nat)
    requires Inv(s) && Grows(s, t) && Moves(s, t, k) && CallOk(t, t.calls[k]) && FlightsOk(t)
    ensures Inv(t)
  {
    hide CallOk, Grows, FlightsOk, CallsOk;
    CallsOkMove(s, t, k);
    FormedAll(t);
  }

  /** A flight is as it was when no call entered or left it. */
  lemma FlightsSame(s: System, t: System)
    requires FlightsOk(s) && t.flights == s.flights && |t.calls| == |s.calls|
    requires forall j :: 0 <= j < |s.calls| ==>
      t.calls[j].user == s.calls[j].user && InFlight(t.calls[j].stage) == InFlight(s.calls[j].stage)
    ensures FlightsOk(t)
  {
    hide InFlight;
  }

  lemma CheckKeeps(s: System, k: nat)
    requires Inv(s) && Enabled(s, Check(k))
    ensures Inv(DoCheck(s, k))
  {
    hide Grows, FlightsOk, CallsOk;
    var t := DoCheck(s, k);
    GrowsStep(s, Check(k));
    FlightsSame(s, t);
    assert CallOk(s, s.calls[k]) by { InvCall(s, k); }
    MoveKeeps(s, t, k);
  }

  lemma InvCall(s: System, k: nat)
    requires CallsOk(s) && k < |s.calls|
    ensures CallOk(s, s.calls[k])
  {
  }

  lemma EnterFlights(s: System, k: nat)
    requires FlightsOk(s) && Enabled(s, Enter(k))
    ensures FlightsOk(DoEnter(s, k))
  {
  }

  lemma EnterCall(s: System, k: nat)
    requires FlightsOk(s) && Enabled(s, Enter(k)) && CallOk(s, s.calls[k])
    ensures CallOk(DoEnter(s, k), DoEnter(s, k).calls[k])
  {
  }

  lemma EnterKeeps(s: System, k: nat)
    requires Inv(s) && Enabled(s, Enter(k))
    ensures Inv(DoEnter(s, k))
  {
    hide Grows, CallsOk, FlightsOk;
    var t := DoEnter(s, k);
    GrowsStep(s, Enter(k));
    InvCall(s, k);
    EnterFlights(s, k);
    EnterCall(s, k);
    MoveKeeps(s, t, k);
  }

  lemma FinishKeeps(s: System, k: nat)
    requires Inv(s) && Enabled(s, Finish(k))
    ensures Inv(DoFinish(s, k))
  {
    hide Grows, CallsOk, Grounded;
    var t := DoFinish(s, k);
    GrowsStep(s, Finish(k));
    InvCall(s, k);
    GroundedGrows(s, t, s.calls[k].user, s.calls[k].now, s.calls[k].stage.out, s.calls[k].stage.broke);
    MoveKeeps(s, t, k);
  }

  lemma LookFailsKeeps(s: System, k: nat, err: string)
    requires Inv(s) && Enabled(s, LookFails(k, err))
    ensures Inv(Apply(s, LookFails(k, err)))
  {
    hide Grows, CallsOk, FlightsOk;
    var t := Apply(s, LookFails(k, err));
    GrowsStep(s, LookFails(k, err));
    InvCall(s, k);
    FlightsSame(s, t);
    MoveKeeps(s, t, k);
  }

  lemma CollectKeeps(s: System, k: nat)
    requires Inv(s) && Enabled(s, Collect(k))
    ensures Inv(Apply(s, Collect(k)))
  {
    hide Grows, CallsOk, FlightsOk;
    var t := Apply(s, Collect(k));
    GrowsStep(s, Collect(k));
    InvCall(s, k);
    FlightsSame(s, t);
    MoveKeeps(s, t, k);
  }

  lemma LookKeeps(s: System, k: nat)
    requires Inv(s) && Enabled(s, Look(k))
    ensures Inv(DoLook(s, k))
  {
    hide Grows, CallsOk, FlightsOk;
    var t := DoLook(s, k);
    GrowsStep(s, Look(k));
    InvCall(s, k);
    FlightsSame(s, t);
    CallsOkMove(s, t, k);
    FormedAll(t);
  }

  lemma AnswerKeeps(s: System, k: nat, a: nat)
    requires Inv(s) && k < |s.calls| && s.calls[k].stage == LookedUp(Answered(a)) && a < |s.answers|
    ensures Inv(InstallAnswer(s, k, a))
  {
    hide Grows, CallsOk, FlightsOk;
    var t := InstallAnswer(s, k, a);
    GrowsInstall(s, k);
    InvCall(s, k);
    FlightsSame(s, t);
    assert Supports(t, a, s.calls[k].user, s.calls[k].now, s.answers[a].keys);
    CallsOkMove(s, t, k);
    FormedAll(t);
  }

  lemma ErrorCall(s: System, k: nat, err: string)
    requires Inv(s) && k < |s.calls| && s.calls[k].stage == LookedUp(Broke(err))
    ensures CallOk(InstallError(s, k, err), InstallError(s, k, err).calls[k])
  {
    hide CallsOk, FlightsOk, Past;
    InvCall(s, k);
  }

  lemma ErrorKeeps(s: System, k: nat, err: string)
    requires Inv(s) && k < |s.calls| && s.calls[k].stage == LookedUp(Broke(err))
    ensures Inv(InstallError(s, k, err))
  {
    hide Grows, CallsOk, FlightsOk, CallOk;
    var t := InstallError(s, k, err);
    GrowsInstall(s, k);
    FlightsSame(s, t);
    ErrorCall(s, k, err);
    CallsOkMove(s, t, k);
    FormedAll(t);
  }

  lemma InstallKeeps(s: System, k: nat)
    requires Inv(s) && Enabled(s, Install(k))
    ensures Inv(DoInstall(s, k))
  {
    hide InstallAnswer, InstallError, Grows, Sourced, Past, CacheOk, FlightsOk;
    match s.calls[k].stage.got
    case Answered(a) => InvCall(s, k); AnswerKeeps(s, k, a);
    case Broke(err) => ErrorKeeps(s, k, err);
  }

  /** Steps outside all calls. */
  lemma OutsideKeeps(s: System, a: Action)
    requires Inv(s) && Enabled(s, a) && (a.Tick? || a.Publish? || a.Remove?)
    ensures Inv(Apply(s, a))
  {
    hide Grows, CallOk, FlightsOk;
    var t := Apply(s, a);
    GrowsStep(s, a);
    forall k | 0 <= k < |t.calls|
      ensures CallOk(t, t.calls[k])
    {
      CallOkGrows(s, t, s.calls[k]);
    }
    FlightsSame(s, t);
    FormedAll(t);
  }

  lemma BeginKeeps(s: System, u: string)
    requires Inv(s)
    ensures Inv(Apply(s, Begin(u)))
  {
    hide Grows, CallsOk;
    var t := Apply(s, Begin(u));
    GrowsStep(s, Begin(u));
    BeginCalls(s, t);
    FormedAll(t);
  }

  lemma BeginCalls(s: System, t: System)
    requires CallsOk(s) && Grows(s, t) && |t.calls| == |s.calls| + 1 && t.calls[..|s.calls|] == s.calls
    requires CallOk(t, t.calls[|s.calls|])
    ensures CallsOk(t)
  {
    hide CallOk, Grows;
    forall k | 0 <= k < |t.calls|
      ensures CallOk(t, t.calls[k])
    {
      if k < |s.calls| {
        assert t.calls[k] == t.calls[..|s.calls|][k];
        CallOkGrows(s, t, s.calls[k]);
      }
    }
  }

  lemma InvStep(s: System, a: Action)
    requires Inv(s) && Enabled(s, a)
    ensures Inv(Apply(s, a))
  {
    hide Sourced, Past, CacheOk, CallsOk, FlightsOk, DoCheck, DoEnter, DoLook, DoInstall, DoFinish;
    match a
    case Begin(u) => BeginKeeps(s, u);
    case Check(k) => CheckKeeps(s, k);
    case Enter(k) => EnterKeeps(s, k);
    case Look(k) => LookKeeps(s, k);
    case LookFails(k, err) => LookFailsKeeps(s, k, err);
    case Install(k) => InstallKeeps(s, k);
    case Finish(k) => FinishKeeps(s, k);
    case Collect(k) => CollectKeeps(s, k);
    case _ => OutsideKeeps(s, a);
  }

  lemma {:induction false} InvRun(s: System, acts: seq<Action>, t: System)
    requires Inv(s) && Runs(s, acts, t)
    ensures Inv(t) && Grows(s, t)
    decreases |acts|
  {
    hide Inv, Enabled, Apply, Grows;
    if acts == [] {
      GrowsSelf(s);
    } else {
      var n := |acts| - 1;
      var m :| Runs(s, acts[..n], m) && WellFormed(m) && Enabled(m, acts[n]) && Apply(m, acts[n]) == t;
      InvRun(s, acts[..n], m);
      InvStep(m, acts[n]);
      GrowsStep(m, acts[n]);
      GrowsTrans(s, m, t);
    }
  }

  lemma GrowsSelf(s: System)
    ensures Grows(s, s)
  {
  }

  lemma GrowsTrans(s: System, m: System, t: System)
    requires Grows(s, m) && Grows(m, t)
    ensures Grows(s, t)
  {
    forall k | 0 <= k < |s.calls|
      ensures CallMoves(s.calls[k], t.calls[k])
    {
      assert CallMoves(s.calls[k], m.calls[k]) && CallMoves(m.calls[k], t.calls[k]);
    }
  }

  lemma InvReachable(s: System)
    requires Reachable(s)
    ensures Inv(s)
  {
    var cfg, directory, acts :| Runs(Init(cfg, directory), acts, s);
    InvRun(Init(cfg, directory), acts, s);
  }
}
