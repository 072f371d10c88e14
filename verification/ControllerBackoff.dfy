/** The failure backoff: no Pod is created while the mark in status still blocks. */
module ControllerBackoff {
  import opened Wrappers
  import opened Render
  import opened Controller
  import opened ControllerInvariants
  import opened ControllerFrames

  /** While a stored status blocks, a Pod of that name can only be a failed one. */
  predicate Marks(c: Cluster) {
    forall n :: n in c.devpods && n in c.pods && BackoffBlocks(c.devpods[n].status, c.now) ==> c.pods[n].phase == PodFailed
  }

  predicate Gated(c: Cluster) {
    c.worker.Busy? && c.worker.call.PodApply? ==> !BackoffBlocks(c.worker.dp.status, c.now)
  }

  /** The same of the status about to be written. */
  predicate Sighted(c: Cluster) {
    c.worker.Busy? && c.worker.call.StatusPatch? && c.worker.name in c.pods && BackoffBlocks(c.worker.call.desired, c.now) ==>
      c.pods[c.worker.name].phase == PodFailed
  }

  predicate SawFailed(seen: Option<Pod>) { seen.Some? && seen.value.phase == PodFailed }

  /** A mark is wanted again exactly when the Pod was seen failed. */
  predicate Wanted(c: Cluster) {
    c.worker.Busy? && c.worker.call.StatusPatch? ==>
      var desired, st := c.worker.call.desired, c.worker.dp.status;
      if SawFailed(c.worker.call.seen) then desired.lastFailureAt == st.lastFailureAt && desired.retryCount == st.retryCount
      else desired.lastFailureAt == None && desired.retryCount == 0
  }

  predicate Gate(c: Cluster) { Marks(c) && Gated(c) && Sighted(c) && Wanted(c) }

  /** The copy's status is the stored one, except before the finalizer is written. */
  lemma CopyIsStored(c: Cluster)
    requires Coherent(c) && c.worker.Busy? && !c.worker.call.AddFinalizer?
    ensures c.worker.name in c.devpods && c.devpods[c.worker.name].status == c.worker.dp.status
  {
    hide Fresh;
  }

  lemma KnownBroken(c: Cluster)
    requires Knowledge(c) && c.worker.Busy? && c.worker.call.FailPatch?
    ensures c.worker.name in c.pods ==> c.pods[c.worker.name].phase == PodFailed
  {
  }

  /** A mark is wanted only of a Pod seen failed. */
  lemma DesiredMark(n: string, dp: DevPod, pod: Option<Pod>, now: int, cfg: Config, at: int)
    requires BackoffBlocks(Desired(n, dp, pod, now, cfg), at)
    ensures pod.Some? && pod.value.phase == PodFailed
  {
    hide BackendPort;
  }

  lemma MarksWork(c: Cluster, c': Cluster)
    requires Coherent(c) && Knowledge(c) && Gate(c) && c.worker.Busy? && Framed(c, c')
    ensures Marks(c')
  {
    hide BackoffBlocks, Coherent, Knowledge, OwnersKept, NextApply, NextPatch;
    if c.worker.call.FailPatch? { KnownBroken(c); }
    if c.worker.call.PodApply? { CopyIsStored(c); }
    forall n | n in c'.devpods && n in c'.pods && BackoffBlocks(c'.devpods[n].status, c'.now)
      ensures c'.pods[n].phase == PodFailed
    {
      assert StatusStep(c, n, c'.devpods[n].status);
    }
  }

  lemma GatedWork(c: Cluster, c': Cluster)
    requires Coherent(c) && Marks(c) && c.worker.Busy? && Framed(c, c')
    ensures Gated(c')
  {
    hide BackoffBlocks, Coherent, OwnersKept, NextPatch, StatusStep;
    if c'.worker.Busy? && c'.worker.call.PodApply? { CopyIsStored(c); }
  }

  lemma SightedWork(c: Cluster, c': Cluster)
    requires c.worker.Busy? && Framed(c, c')
    ensures Sighted(c')
  {
    hide BackoffBlocks, OwnersKept, NextApply, StatusStep, Desired;
    if c'.worker.Busy? && c'.worker.call.StatusPatch? && BackoffBlocks(c'.worker.call.desired, c'.now) {
      var n, dp := c.worker.name, c.worker.dp;
      DesiredMark(n, dp, Seen(c, n, dp), c.now, c.cfg, c'.now);
    }
  }

  lemma DesiredWanted(n: string, dp: DevPod, pod: Option<Pod>, now: int, cfg: Config)
    requires pod.Some? ==> dp.spec.running
    ensures var st := Desired(n, dp, pod, now, cfg);
      if SawFailed(pod) then st.lastFailureAt == dp.status.lastFailureAt && st.retryCount == dp.status.retryCount
      else st.lastFailureAt == None && st.retryCount == 0
  {
    hide BackendPort;
  }

  lemma WantedWork(c: Cluster, c': Cluster)
    requires c.worker.Busy? && Framed(c, c')
    ensures Wanted(c')
  {
    hide OwnersKept, NextApply, StatusStep, Desired, SawFailed;
    var n, dp := c.worker.name, c.worker.dp;
    DesiredWanted(n, dp, Seen(c, n, dp), c.now, c.cfg);
  }

  lemma LaterUnblocks(st: Status, now: int, later: int)
    requires now <= later
    ensures !BackoffBlocks(st, now) ==> !BackoffBlocks(st, later)
  {
  }

  lemma GateTick(c: Cluster, to: int)
    requires Gate(c) && c.now <= to
    ensures Gate(c.(now := to))
  {
    hide BackoffBlocks;
    if c.worker.Busy? { LaterUnblocks(c.worker.dp.status, c.now, to); }
    if c.worker.Busy? && c.worker.call.StatusPatch? { LaterUnblocks(c.worker.call.desired, c.now, to); }
    forall n | n in c.devpods
      ensures !BackoffBlocks(c.devpods[n].status, c.now) ==> !BackoffBlocks(c.devpods[n].status, to)
    {
      LaterUnblocks(c.devpods[n].status, c.now, to);
    }
  }

  lemma NewUnmarked(now: int)
    ensures !BackoffBlocks(NewStatus, now)
  {
  }

  lemma GateEnv(c: Cluster, a: Action)
    requires Gate(c) && Enabled(c, a) && !a.DoWork? && !a.Tick?
    ensures Gate(Apply(c, a))
  {
    hide BackoffBlocks;
    NewUnmarked(c.now);
  }

  lemma GateStep(c: Cluster, a: Action)
    requires Inv(c) && Gate(c) && Enabled(c, a)
    ensures Gate(Apply(c, a))
  {
    hide Work, Gate, Framed, Uids, Coherent, Statuses, Knowledge, Covered, Detaching;
    match a
    case DoWork(key) =>
      WorkFramed(c, key);
      WorkGate(c, Work(c, key));
    case Tick(to) => GateTick(c, to);
    case _ => GateEnv(c, a);
  }

  lemma WorkGate(c: Cluster, c': Cluster)
    requires Coherent(c) && Knowledge(c) && Gate(c) && c.worker.Busy? && Framed(c, c')
    ensures Gate(c')
  {
    MarksWork(c, c');
    GatedWork(c, c');
    SightedWork(c, c');
    WantedWork(c, c');
    hide Marks, Gated, Sighted, Wanted, Framed, Coherent, Knowledge;
  }

  lemma {:induction false} GateRun(cfg: Config, acts: seq<Action>, d: Cluster)
    requires Runs(Init(cfg), acts, d)
    ensures Inv(d) && Gate(d)
    decreases |acts|
  {
    hide Enabled, Apply, Inv;
    if acts == [] {
      InvReachable(d);
    } else {
      var k := |acts| - 1;
      var m :| Runs(Init(cfg), acts[..k], m) && Enabled(m, acts[k]) && Apply(m, acts[k]) == d;
      GateRun(cfg, acts[..k], m);
      InvStep(m, acts[k]);
      GateStep(m, acts[k]);
    }
  }

  lemma GateReachable(c: Cluster)
    requires Reachable(c)
    ensures Inv(c) && Gate(c)
  {
    hide Inv, Gate;
    var cfg, acts :| Runs(Init(cfg), acts, c);
    GateRun(cfg, acts, c);
  }

  /** Whatever step creates a Pod is the apply call of a reconcile, whether its lookup
      found no Pod or one that has vanished since; and for as long as a failure is
      marked in the stored status, at least min(10 * 2^(max(n,1)-1), 300) seconds have
      passed since then. */
  lemma CreationWaitsForBackoff(c: Cluster, a: Action, n: string)
    requires Reachable(c) && Enabled(c, a)
    requires n !in c.pods && n in Apply(c, a).pods
    ensures a.DoWork? && c.worker.Busy? && c.worker.call.PodApply? && c.worker.name == n && n in c.devpods
    ensures var st := c.devpods[n].status;
      st.lastFailureAt.Some? ==>
        var raw := 10 * Pow2(if st.retryCount <= 1 then 0 else st.retryCount - 1);
        c.now - st.lastFailureAt.value >= if raw > MaxBackoff then MaxBackoff else raw
  {
    hide Enabled, Apply, Reachable, Backoff, Pow2, Uids, Coherent, Statuses, Knowledge, Covered, Detaching;
    OnlyApplyCreates(c, a, n);
    GateReachable(c);
    CopyIsStored(c);
    BackoffClosedForm(c.devpods[n].status.retryCount);
  }

  lemma OnlyApplyCreates(c: Cluster, a: Action, n: string)
    requires Enabled(c, a) && n !in c.pods && n in Apply(c, a).pods
    ensures a.DoWork? && c.worker.Busy? && c.worker.call.PodApply? && c.worker.name == n
  {
    hide Work, OwnersKept, NextApply, NextPatch;
    if a.DoWork? { WorkFramed(c, a.key); }
  }

  /** Exactly which steps erase a stored mark: the status patches wanted of no Pod, or
      of one that was not seen failed.  Nothing asks whether the backoff has passed. */
  lemma MarkErasedIff(c: Cluster, a: Action, n: string)
    requires Reachable(c) && Enabled(c, a) && n in c.devpods && n in Apply(c, a).devpods
    requires c.devpods[n].status.lastFailureAt.Some?
    ensures Apply(c, a).devpods[n].status.lastFailureAt == None <==>
      a.DoWork? && c.worker.Busy? && c.worker.call.StatusPatch? && c.worker.name == n && !SawFailed(c.worker.call.seen)
  {
    hide Work, Reachable, Uids, Coherent, Statuses, Knowledge, Covered, Detaching, Marks, Gated, Sighted, SawFailed, Framed;
    GateReachable(c);
    if a.DoWork? {
      WorkMark(c, a.key, n);
    } else {
      StatusUntouched(c, a, n);
    }
  }

  lemma StatusUntouched(c: Cluster, a: Action, n: string)
    requires Enabled(c, a) && !a.DoWork? && n in c.devpods && n in Apply(c, a).devpods
    ensures Apply(c, a).devpods[n].status == c.devpods[n].status
  {
  }

  lemma WorkMark(c: Cluster, key: string, n: string)
    requires Inv(c) && Wanted(c) && c.worker.Busy? && n in c.devpods && n in Work(c, key).devpods
    requires c.devpods[n].status.lastFailureAt.Some?
    ensures Work(c, key).devpods[n].status.lastFailureAt == None <==>
      c.worker.call.StatusPatch? && c.worker.name == n && !SawFailed(c.worker.call.seen)
  {
    hide Uids, Coherent, Statuses, Knowledge, Covered, Detaching, SawFailed, Work, OwnersKept, NextApply, NextPatch;
    WorkFramed(c, key);
    if c.worker.call.StatusPatch? && c.worker.name == n {
      CopyIsStored(c);
      PatchWrites(c, key);
    }
  }

  lemma PatchWrites(c: Cluster, key: string)
    requires c.worker.Busy? && c.worker.call.StatusPatch? && c.worker.name in c.devpods
    ensures Work(c, key).devpods == c.devpods[c.worker.name := Touch(c.devpods[c.worker.name].(status := c.worker.call.desired))]
  {
  }

  /** How the failure count moves: the failure patch dates the failure, counts one more and
      takes the Pod's message; a status patch wanted of a failed Pod keeps count and date,
      any other one clears both; nothing else touches them. */
  lemma RetryStep(c: Cluster, a: Action, n: string)
    requires Reachable(c) && Enabled(c, a) && n in c.devpods && n in Apply(c, a).devpods
    ensures var before, after := c.devpods[n].status, Apply(c, a).devpods[n].status;
      if a.DoWork? && c.worker.Busy? && c.worker.name == n && c.worker.call.FailPatch? then
        && after.phase == Failed && after.retryCount == before.retryCount + 1 && after.lastFailureAt == Some(c.now)
        && after.message == c.worker.call.pod.message && c.worker.call.pod.phase == PodFailed
      else if a.DoWork? && c.worker.Busy? && c.worker.name == n && c.worker.call.StatusPatch? then
        if SawFailed(c.worker.call.seen) then after.retryCount == before.retryCount && after.lastFailureAt == before.lastFailureAt
        else after.retryCount == 0 && after.lastFailureAt == None
      else after.retryCount == before.retryCount && after.lastFailureAt == before.lastFailureAt
  {
    hide Work, Reachable, Uids, Coherent, Statuses, Knowledge, Covered, Detaching, Marks, Gated, Sighted, Wanted, SawFailed;
    GateReachable(c);
    if a.DoWork? {
      RetryWork(c, a.key, n);
    } else {
      StatusUntouched(c, a, n);
    }
  }

  lemma RetryWork(c: Cluster, key: string, n: string)
    requires Inv(c) && Wanted(c) && c.worker.Busy? && n in c.devpods && n in Work(c, key).devpods
    ensures var before, after, call := c.devpods[n].status, Work(c, key).devpods[n].status, c.worker.call;
      if c.worker.name == n && call.FailPatch? then
        && after.phase == Failed && after.retryCount == before.retryCount + 1 && after.lastFailureAt == Some(c.now)
        && after.message == call.pod.message && call.pod.phase == PodFailed
      else if c.worker.name == n && call.StatusPatch? then
        if SawFailed(call.seen) then after.retryCount == before.retryCount && after.lastFailureAt == before.lastFailureAt
        else after.retryCount == 0 && after.lastFailureAt == None
      else after.retryCount == before.retryCount && after.lastFailureAt == before.lastFailureAt
  {
    hide Uids, Coherent, Statuses, Covered, Detaching, SawFailed, Work, OwnersKept, NextApply, NextPatch, NextFail;
    WorkFramed(c, key);
    if c.worker.name == n && c.worker.call.FailPatch? {
      CopyIsStored(c);
      FailWrites(c, key);
    } else if c.worker.name == n && c.worker.call.StatusPatch? {
      CopyIsStored(c);
      PatchWrites(c, key);
    }
  }

  lemma FailWrites(c: Cluster, key: string)
    requires c.worker.Busy? && c.worker.call.FailPatch? && c.worker.name in c.devpods
    ensures Work(c, key).devpods == c.devpods[c.worker.name :=
      Touch(c.devpods[c.worker.name].(status := FailureStatus(c.worker.dp.status, c.now, c.worker.call.pod.message)))]
  {
  }
}
