/** A measure bounds the reconciles until a DevPod is settled; settled DevPods stay as they are. */
module ControllerSettling {
  import opened Wrappers
  import opened Render
  import opened Controller
  import opened ControllerInvariants
  import opened ControllerConvergence

  /** A DevPod that is meant to run, whose Pod has not failed, and whose names
      are not taken by objects of someone else. */
  predicate Ready(c: Cluster, n: string) {
    c.worker.Idle? && n in c.devpods && Runnable(c.cfg, c.devpods[n]) && Ours(c, n, c.devpods[n])
  }

  predicate Runnable(cfg: Config, d: DevPod) {
    !d.deleting && d.spec.running && !d.spec.vm && d.spec.pod.Some? && Rendered(cfg, d).Ok?
  }

  predicate Ours(c: Cluster, n: string, d: DevPod) {
    PodOk(c, n, d) && PvcOk(c.pvcs, n, d) && SecretOk(c, n, d.uid)
  }

  /** Only status and finalizer may differ. */
  predicate SameIdentity(d: DevPod, d': DevPod) {
    d'.uid == d.uid && d'.spec == d.spec && d'.deleting == d.deleting
  }

  lemma RunnableKept(cfg: Config, d: DevPod, d': DevPod)
    requires SameIdentity(d, d') && Runnable(cfg, d)
    ensures Runnable(cfg, d') && Rendered(cfg, d') == Rendered(cfg, d)
  {
    hide RenderPod;
  }

  // ----- what one reconcile achieves -----

  lemma NextPodsOk(c: Cluster, r: Cluster, n: string, d: DevPod)
    requires Rendered(c.cfg, d).Ok? && PodOk(c, n, d) && r.pods == NextPods(c, n, d)
    ensures PodOk(r, n, d)
  {
    hide Rendered, Matches, BackoffBlocks;
  }

  lemma OursKept(c: Cluster, r: Cluster, n: string, d: DevPod, d': DevPod)
    requires PodOk(r, n, d) && Provisioned(c, r, n, d) && SameIdentity(d, d')
    ensures Ours(r, n, d')
  {
    hide HasForeign, NamesSelf;
  }

  lemma WrittenAt(devpods: map<string, DevPod>, n: string, dp: DevPod, st: Status)
    requires n in devpods && devpods[n] == dp
    ensures var w := Written(devpods, n, dp, st);
      n in w && SameIdentity(dp, w[n]) && w[n].finalizer == dp.finalizer && StatusEqual(w[n].status, st)
  {
  }

  /** One uninterrupted reconcile: the Pod map moves as NextPods says and the
      status is exactly what the resulting Pod calls for. */
  lemma ReconcileRunning(c: Cluster, n: string, key: string)
    requires Ready(c, n) && c.devpods[n].finalizer && key != ""
    ensures var d, r := c.devpods[n], Reconcile(c, n, key);
      && r.cfg == c.cfg && r.now == c.now && r.pods == NextPods(c, n, d)
      && r.devpods == Written(c.devpods, n, d, Desired(n, d, Found(n, d, r.pods), c.now, c.cfg))
      && Ready(r, n) && r.devpods[n].finalizer && SameIdentity(d, r.devpods[n])
      && StatusEqual(r.devpods[n].status, Desired(n, d, Found(n, d, r.pods), c.now, c.cfg))
      && Provisioned(c, r, n, d)
  {
    hide Finish, NextPods, Desired, Rendered, PodOk, PvcOk, SecretOk, Written, StatusEqual, Provisioned;
    var d, r, c1 := c.devpods[n], Reconcile(c, n, key), DoStart(c, n);
    StartsAtSecret(c, n);
    EndSecretGet(c1, key);
    var st := Desired(n, d, Found(n, d, r.pods), c.now, c.cfg);
    WrittenAt(c.devpods, n, d, st);
    RunnableKept(c.cfg, d, r.devpods[n]);
    StartPrepared(c, c1, r, n);
    NextPodsOk(c, r, n, d);
    OursKept(c, r, n, d, r.devpods[n]);
  }

  /** The status a reconcile wants, case by case. */
  lemma WantedStatus(n: string, dp: DevPod, pod: Option<Pod>, now: int, cfg: Config)
    requires dp.spec.running
    ensures var st := Desired(n, dp, pod, now, cfg);
      && (st.phase == Running <==> pod.Some? && pod.value.phase == PodRunning && pod.value.ip != "")
      && (st.phase == Failed <==> pod.Some? && pod.value.phase == PodFailed)
      && (st.phase == Pending <==>
            pod.None? || (pod.value.phase != PodFailed && !(pod.value.phase == PodRunning && pod.value.ip != "")))
      && st.endpoint == (if st.phase == Running then Endpoint(pod.value.ip, BackendPort(UidText(dp.uid), dp.spec, cfg)) else NoEndpoint)
      && st.workloadRef == (if pod.Some? then Some(n) else None)
      && st.pvcRef == (if dp.spec.persistence.Some? then Some(n + "-home") else None) && st.hibernatedAt == None
      && (st.phase != Failed ==> st.retryCount == 0 && st.lastFailureAt == None && st.message == "")
      && (st.phase == Failed ==> st.retryCount == dp.status.retryCount && st.message == dp.status.message)
      && (st.phase == Failed ==> st.lastFailureAt == dp.status.lastFailureAt)
  {
    hide BackendPort;
  }

  lemma SameStatus(a: Status, b: Status)
    ensures StatusEqual(a, b) <==> a == b
  {
  }

  /** What a reconcile leaves in the status of a running DevPod, read off the Pod there is
      then: Running with its address and port, Failed, or Pending. */
  lemma StatusFollowsPod(c: Cluster, n: string, key: string)
    requires Ready(c, n) && c.devpods[n].finalizer && key != ""
    ensures FirstCall(c.devpods[n]).Some?
    ensures var d, r := c.devpods[n], Reconcile(c, n, key);
      && n in r.devpods
      && var st, pod := r.devpods[n].status, if n in r.pods then Some(r.pods[n]) else None;
      && (st.phase == Running <==> pod.Some? && pod.value.phase == PodRunning && pod.value.ip != "")
      && (st.phase == Failed <==> pod.Some? && pod.value.phase == PodFailed)
      && (st.phase == Pending <==>
            pod.None? || (pod.value.phase != PodFailed && !(pod.value.phase == PodRunning && pod.value.ip != "")))
      && st.endpoint == (if st.phase == Running then Endpoint(pod.value.ip, BackendPort(UidText(d.uid), d.spec, c.cfg)) else NoEndpoint)
      && st.workloadRef == (if pod.Some? then Some(n) else None)
      && st.pvcRef == (if d.spec.persistence.Some? then Some(n + "-home") else None)
      && st.hibernatedAt == None && st.retryCount == 0 && st.lastFailureAt == None && st.message == ""
  {
    hide Finish, Rendered, HasForeign, Backoff, BackoffBlocks, Matches, Desired, StatusEqual, Written, Provisioned, BackendPort;
    ReadyStarts(c, n);
    ReconcileRunning(c, n, key);
    var d, r := c.devpods[n], Reconcile(c, n, key);
    WantedStatus(n, d, Found(n, d, r.pods), c.now, c.cfg);
    SameStatus(r.devpods[n].status, Desired(n, d, Found(n, d, r.pods), c.now, c.cfg));
  }

  // ----- when the reconciler asks to come back -----

  /** Calls that leave the requeue time alone, and lead only to such calls. */
  predicate Trailing(call: Call) {
    call.DriftDelete? || call.PodApply? || call.ServiceApply? || call.DenyApply? || call.AllowApply? || call.StatusGet? || call.StatusPatch?
  }

  predicate Trails(c: Cluster, c': Cluster) {
    c'.requeueAfter == c.requeueAfter && (c'.worker.Busy? ==> Trailing(c'.worker.call))
  }

  lemma TrailsAt(c: Cluster, c1: Cluster, next: Call)
    requires c1.worker.Busy? && c1.requeueAfter == c.requeueAfter && Trailing(next)
    ensures Trails(c, At(c1, next))
  {
  }

  lemma TrailsPodApply(c: Cluster)
    requires c.worker.Busy? && c.worker.call.PodApply?
    ensures Trails(c, RunPodApply(c, c.worker.name, c.worker.dp))
  {
    hide Rendered, NewPod, At;
    TrailsAt(c, c, ServiceApply(Same));
    if Rendered(c.cfg, c.worker.dp).Ok? {
      TrailsAt(c, c.(pods := c.pods[c.worker.name := NewPod(c.cfg, c.worker.dp)]), ServiceApply(Same));
    }
  }

  lemma TrailsDrift(c: Cluster)
    requires c.worker.Busy?
    ensures Trails(c, RunDriftDelete(c, c.worker.name))
  {
  }

  lemma TrailingStep(c: Cluster, key: string)
    requires c.worker.Busy? && Trailing(c.worker.call)
    ensures Trails(c, Work(c, key))
  {
    hide BackendPort, Touch, Desired, StatusEqual, Seen, RunDriftDelete, RunPodApply;
    if c.worker.call.DriftDelete? { TrailsDrift(c); }
    if c.worker.call.PodApply? { TrailsPodApply(c); }
  }

  lemma {:induction false} TrailingFinish(c: Cluster, key: string)
    requires c.worker.Busy? ==> Trailing(c.worker.call)
    ensures Finish(c, key).requeueAfter == c.requeueAfter
    decreases Remaining(c)
  {
    hide Work;
    if c.worker.Busy? {
      TrailingStep(c, key);
      WorkLowers(c, key);
      LowerRemaining(c, Work(c, key));
      TrailingFinish(Work(c, key), key);
    }
  }

  /** The first calls of a reconcile that meets no foreign objects. */
  lemma ToPodGet(c: Cluster, n: string, key: string) returns (p: Cluster)
    requires c.worker.Idle? && n in c.devpods && Runnable(c.cfg, c.devpods[n]) && c.devpods[n].finalizer && key != ""
    requires PvcOk(c.pvcs, n, c.devpods[n]) && SecretOk(c, n, c.devpods[n].uid)
    ensures FirstCall(c.devpods[n]).Some? && Finish(p, key) == Reconcile(c, n, key)
    ensures p.worker == Busy(n, c.devpods[n], PodGet) && p.pods == c.pods && p.devpods == c.devpods && p.now == c.now && p.cfg == c.cfg
    ensures p.requeueAfter == 0
  {
    hide Finish, Rendered, HasForeign, NamesSelf, RunPvcApply, NextPvcs;
    var c1 := DoStart(c, n);
    FinishStep(c1, key);
    var c2 := Work(c1, key);
    var c3 := c2;
    if c2.worker.call.SecretCreate? {
      FinishStep(c2, key);
      c3 := Work(c2, key);
    }
    FinishStep(c3, key);
    PvcApplied(c3);
    p := Work(c3, key);
  }

  function Wait(retryCount: int): int {
    var raw := 10 * Pow2(if retryCount <= 1 then 0 else retryCount - 1);
    if raw > MaxBackoff then MaxBackoff else raw
  }

  /** A reconcile asks to come back after the time that is left of a backoff, after the
      whole next backoff when it met a failed Pod, and otherwise not at all. */
  lemma RequeueExact(c: Cluster, n: string, key: string)
    requires c.worker.Idle? && n in c.devpods && Runnable(c.cfg, c.devpods[n]) && c.devpods[n].finalizer && key != ""
    requires PvcOk(c.pvcs, n, c.devpods[n]) && SecretOk(c, n, c.devpods[n].uid)
    ensures FirstCall(c.devpods[n]).Some?
    ensures var st := c.devpods[n].status;
      Reconcile(c, n, key).requeueAfter ==
        if n in c.pods then (if c.pods[n].phase == PodFailed then Wait(st.retryCount + 1) else 0)
        else if st.lastFailureAt.Some? && c.now < st.lastFailureAt.value + Wait(st.retryCount) then
          st.lastFailureAt.value + Wait(st.retryCount) - c.now
        else 0
  {
    hide Finish, Rendered, HasForeign, Matches, Backoff, Pow2, RunFailPatch, RunFailDelete;
    var p := ToPodGet(c, n, key);
    var st := c.devpods[n].status;
    BackoffClosedForm(st.retryCount);
    FinishStep(p, key);
    var q := Work(p, key);
    if n in c.pods && c.pods[n].phase == PodFailed {
      FailedRequeue(q, key);
    } else {
      TrailingFinish(q, key);
    }
  }

  lemma FailedRequeue(c: Cluster, key: string)
    requires c.worker.Busy? && c.worker.call.FailPatch? && c.worker.name in c.devpods && c.worker.name in c.pods
    ensures Finish(c, key).requeueAfter == Wait(c.worker.dp.status.retryCount + 1)
  {
    hide Finish, Backoff, Pow2;
    FinishStep(c, key);
    var c1 := Work(c, key);
    FinishStep(c1, key);
    TrailingFinish(Work(c1, key), key);
    BackoffClosedForm(c.worker.dp.status.retryCount + 1);
  }

  lemma StartPrepared(c: Cluster, c1: Cluster, r: Cluster, n: string)
    requires n in c.devpods && FirstCall(c.devpods[n]).Some? && c1 == DoStart(c, n)
    requires Rendered(c.cfg, c.devpods[n]).Ok?
    ensures Provisioned(c1, r, n, c.devpods[n]) == Provisioned(c, r, n, c.devpods[n])
    ensures NextPods(c1, n, c.devpods[n]) == NextPods(c, n, c.devpods[n])
  {
    hide NamesSelf, HasForeign, Rendered, Matches, BackoffBlocks, FirstCall;
  }

  lemma StartsAtSecret(c: Cluster, n: string)
    requires Ready(c, n) && c.devpods[n].finalizer
    ensures FirstCall(c.devpods[n]) == Some(SecretGet)
    ensures var c1 := DoStart(c, n);
      && c1.worker == Busy(n, c.devpods[n], SecretGet) && c1.devpods == c.devpods && c1.pods == c.pods
      && c1.cfg == c.cfg && c1.now == c.now && c1.pvcs == c.pvcs && c1.secrets == c.secrets
      && PodOk(c1, n, c.devpods[n]) && SecretOk(c1, n, c.devpods[n].uid) && PvcOk(c1.pvcs, n, c.devpods[n])
  {
    hide Rendered, HasForeign;
  }

  lemma ReconcileNew(c: Cluster, n: string, key: string)
    requires Ready(c, n) && !c.devpods[n].finalizer
    ensures FirstCall(c.devpods[n]).Some?
    ensures var r := Reconcile(c, n, key);
      && r.cfg == c.cfg && r.now == c.now && r.pods == c.pods && r.pvcs == c.pvcs && r.secrets == c.secrets
      && n in r.devpods && SameIdentity(c.devpods[n], r.devpods[n]) && r.devpods[n].finalizer && r.worker.Idle?
  {
    hide Rendered, HasForeign, Finish;
    var c1 := DoStart(c, n);
    FinishStep(c1, key);
    FinishIdle(Work(c1, key), key);
  }

  // ----- the measure -----

  /** Reconciles to go until the live Pod is the one the spec renders to; a
      terminating Pod also has to finish first. */
  function RoundsLeft(c: Cluster, n: string): nat
    requires n in c.devpods
  {
    var d := c.devpods[n];
    if !d.finalizer then 4
    else if n in c.pods then
      if c.pods[n].terminating then 2
      else if Matches(c.cfg, d, c.pods[n]) then 0
      else 3
    else if BackoffBlocks(d.status, c.now) then 2
    else 1
  }

  /** The Pod's deletion completes, if one is under way. */
  function Completed(c: Cluster, n: string): Cluster {
    if n in c.pods && c.pods[n].terminating then DoPodGone(c, n) else c
  }

  lemma CompletedReady(c: Cluster, n: string)
    requires Ready(c, n)
    ensures Ready(Completed(c, n), n) && Completed(c, n).devpods == c.devpods
    ensures n in Completed(c, n).pods ==> !Completed(c, n).pods[n].terminating
    ensures RoundsLeft(Completed(c, n), n) <= RoundsLeft(c, n)
  {
    hide Rendered, HasForeign, BackoffBlocks, Matches;
  }

  lemma ReadyStarts(c: Cluster, n: string)
    requires Ready(c, n)
    ensures FirstCall(c.devpods[n]).Some?
  {
    hide Rendered, Ours;
  }

  function Round(c: Cluster, n: string, key: string): Cluster
    requires Ready(c, n)
  {
    CompletedReady(c, n);
    ReadyStarts(Completed(c, n), n);
    Reconcile(Completed(c, n), n, key)
  }

  /** The mark of a failure is gone once a reconcile has seen no failed Pod. */
  lemma MarkWiped(st: Status, n: string, d: DevPod, pod: Option<Pod>, now: int, cfg: Config)
    requires StatusEqual(st, Desired(n, d, pod, now, cfg)) && (pod.Some? ==> pod.value.phase != PodFailed)
    ensures st.lastFailureAt == None && st.retryCount == 0
  {
    hide BackendPort;
  }

  lemma MatchesIdentity(cfg: Config, d: DevPod, d': DevPod, p: Pod)
    requires SameIdentity(d, d')
    ensures Matches(cfg, d', p) == Matches(cfg, d, p)
  {
    hide RenderPod;
  }

  lemma ReconcileLowers(c: Cluster, n: string, key: string)
    requires Ready(c, n) && key != "" && (n in c.pods ==> !c.pods[n].terminating)
    ensures FirstCall(c.devpods[n]).Some?
    ensures var r := Reconcile(c, n, key);
      && Ready(r, n) && SameIdentity(c.devpods[n], r.devpods[n])
      && (RoundsLeft(r, n) < RoundsLeft(c, n) || RoundsLeft(r, n) == RoundsLeft(c, n) == 0)
  {
    hide Finish, Rendered, HasForeign, BackoffBlocks, Matches, Desired, StatusEqual, Written, Provisioned;
    ReadyStarts(c, n);
    var d, r := c.devpods[n], Reconcile(c, n, key);
    if !d.finalizer {
      ReconcileNew(c, n, key);
      RunnableKept(c.cfg, d, r.devpods[n]);
    } else {
      ReconcileRunning(c, n, key);
      var e := r.devpods[n];
      if n in c.pods {
        MatchesIdentity(c.cfg, d, e, c.pods[n]);
      } else if BackoffBlocks(d.status, c.now) {
        MarkWiped(e.status, n, d, Found(n, d, r.pods), c.now, c.cfg);
        Unmarked(e.status, c.now);
      } else {
        NewPodMatches(c.cfg, d);
        MatchesIdentity(c.cfg, d, e, NewPod(c.cfg, d));
        assert !NewPod(c.cfg, d).terminating;
      }
    }
  }

  lemma Unmarked(st: Status, now: int)
    requires st.lastFailureAt == None
    ensures !BackoffBlocks(st, now)
  {
  }

  lemma RoundLowers(c: Cluster, n: string, key: string)
    requires Ready(c, n) && key != ""
    ensures var r := Round(c, n, key);
      && Ready(r, n) && SameIdentity(c.devpods[n], r.devpods[n])
      && (RoundsLeft(r, n) < RoundsLeft(c, n) || RoundsLeft(r, n) == 0)
  {
    hide Finish, RoundsLeft, Completed, Ready;
    CompletedReady(c, n);
    ReconcileLowers(Completed(c, n), n, key);
  }

  function Rounds(c: Cluster, n: string, key: string, k: nat): Cluster
    requires Ready(c, n) && key != ""
    ensures k > 0 || Rounds(c, n, key, k) == c
    decreases k
  {
    if k == 0 then c
    else
      RoundLowers(c, n, key);
      Rounds(Round(c, n, key), n, key, k - 1)
  }

  /** Whatever state the DevPod is in, four reconciles and the end of its deletions
      bring up the Pod its spec renders to. */
  lemma {:induction false} Converges(c: Cluster, n: string, key: string, k: nat)
    requires Ready(c, n) && key != "" && RoundsLeft(c, n) <= k
    ensures var r := Rounds(c, n, key, k);
      && Ready(r, n) && SameIdentity(c.devpods[n], r.devpods[n]) && r.devpods[n].finalizer
      && n in r.pods && !r.pods[n].terminating && Matches(r.cfg, r.devpods[n], r.pods[n])
    decreases k
  {
    hide Round, Ready, Matches, BackoffBlocks, Finish;
    if k > 0 {
      RoundLowers(c, n, key);
      Converges(Round(c, n, key), n, key, k - 1);
    }
  }

  lemma FourRoundsSuffice(c: Cluster, n: string)
    requires n in c.devpods
    ensures RoundsLeft(c, n) <= 4
  {
  }

  /** What the kubelet and the clock do between reconciles never sets a DevPod back. */
  lemma KubeletNeverSetsBack(c: Cluster, n: string, a: Action)
    requires Ready(c, n) && Enabled(c, a)
    requires a.PodGone? || a.Tick? || (a.PodProgress? && a.phase != PodFailed)
    ensures Ready(Apply(c, a), n) && RoundsLeft(Apply(c, a), n) <= RoundsLeft(c, n)
  {
    hide Rendered, HasForeign, Backoff;
  }

  // ----- settled -----

  /** The live Pod is the rendered one and the status says what the Pod calls for. */
  predicate Settled(c: Cluster, n: string) {
    && Ready(c, n) && RoundsLeft(c, n) == 0
    && StatusEqual(c.devpods[n].status, Desired(n, c.devpods[n], Found(n, c.devpods[n], c.pods), c.now, c.cfg))
    && PvcDone(c.pvcs, n, c.devpods[n]) && n in c.secrets
  }

  /** For a Pod that has not failed the wanted status is a function of Pod and spec. */
  lemma DesiredSteady(n: string, d: DevPod, d': DevPod, p: Pod, now: int, later: int, cfg: Config)
    requires SameIdentity(d, d') && d.spec.running && p.phase != PodFailed
    ensures Desired(n, d', Some(p), later, cfg) == Desired(n, d, Some(p), now, cfg)
  {
    hide BackendPort;
  }

  lemma ReconcileSettles(c: Cluster, n: string, key: string)
    requires Ready(c, n) && key != "" && RoundsLeft(c, n) == 0
    ensures FirstCall(c.devpods[n]).Some?
    ensures Settled(Reconcile(c, n, key), n) && Reconcile(c, n, key).pods == c.pods
  {
    hide Finish, Rendered, HasForeign, BackoffBlocks, Matches, Desired, StatusEqual, Written, NamesSelf;
    ReadyStarts(c, n);
    ReconcileRunning(c, n, key);
    var d, r := c.devpods[n], Reconcile(c, n, key);
    MatchesIdentity(c.cfg, d, r.devpods[n], c.pods[n]);
    DesiredSteady(n, d, r.devpods[n], c.pods[n], c.now, r.now, c.cfg);
  }

  /** From there a reconcile, at any later time, changes no Pod, no Secret and no
      volume, and writes no status. */
  lemma SettledIsQuiet(c: Cluster, n: string, key: string, later: int)
    requires Settled(c, n) && key != "" && c.now <= later
    ensures var c1 := c.(now := later);
      && n in c1.devpods && FirstCall(c1.devpods[n]).Some?
      && var r := Reconcile(c1, n, key);
         r.pods == c.pods && r.devpods == c.devpods && r.secrets == c.secrets && r.pvcs == c.pvcs && Settled(r, n)
  {
    hide Finish, Rendered, HasForeign, Backoff, BackoffBlocks, Matches, Desired, StatusEqual, NamesSelf;
    var c1 := c.(now := later);
    ReadyStarts(c1, n);
    ReconcileRunning(c1, n, key);
    DesiredSteady(n, c.devpods[n], c.devpods[n], c.pods[n], c.now, later, c.cfg);
  }

  // ----- hibernation -----

  predicate Hibernating(c: Cluster, n: string) {
    && c.worker.Idle? && n in c.devpods && !c.devpods[n].deleting && c.devpods[n].finalizer && !c.devpods[n].spec.running
  }

  predicate Asleep(c: Cluster, n: string) {
    && Hibernating(c, n) && (n in c.pods ==> c.pods[n].terminating)
    && var st := c.devpods[n].status;
       st.phase == Stopped && st.hibernatedAt.Some? && StatusEqual(st, Desired(n, c.devpods[n], None, c.now, c.cfg))
  }

  lemma EndHibernate(c: Cluster, n: string, key: string)
    requires Hibernating(c, n)
    ensures FirstCall(c.devpods[n]).Some?
    ensures var r := Reconcile(c, n, key);
      && r.cfg == c.cfg && r.now == c.now && r.worker.Idle? && r.pvcs == c.pvcs && r.secrets == c.secrets
      && r.pods == DeletePod(c, n).pods
      && r.devpods == Written(c.devpods, n, c.devpods[n], Desired(n, c.devpods[n], None, c.now, c.cfg))
  {
    hide Finish, Desired, Written;
    var c1 := DoStart(c, n);
    FinishStep(c1, key);
    EndStatus(RunHibernateDelete(c1, n), key);
  }

  /** A wanted hibernation time, once taken, is kept. */
  lemma AsleepSteady(n: string, d: DevPod, d': DevPod, now: int, later: int, cfg: Config)
    requires !d.spec.running && SameIdentity(d, d') && StatusEqual(d'.status, Desired(n, d, None, now, cfg))
    ensures d'.status.phase == Stopped && d'.status.hibernatedAt.Some?
    ensures Desired(n, d', None, later, cfg) == Desired(n, d, None, now, cfg)
  {
  }

  /** Of a DevPod that is not to run: since when it has been stopped, and nothing else but
      its volume. */
  lemma WantedStopped(n: string, dp: DevPod, pod: Option<Pod>, now: int, cfg: Config)
    requires !dp.spec.running
    ensures var st := Desired(n, dp, pod, now, cfg);
      && st.phase == Stopped && st.endpoint == NoEndpoint && st.workloadRef == None
      && st.pvcRef == (if dp.spec.persistence.Some? then Some(n + "-home") else None)
      && st.hibernatedAt == (if dp.status.phase == Stopped && dp.status.hibernatedAt.Some? then dp.status.hibernatedAt else Some(now))
      && st.retryCount == 0 && st.lastFailureAt == None && st.message == ""
  {
  }

  /** One reconcile puts a hibernated DevPod to sleep, and dates it unless it was stopped
      already ... */
  lemma FallsAsleep(c: Cluster, n: string, key: string)
    requires Hibernating(c, n)
    ensures FirstCall(c.devpods[n]).Some? && Asleep(Reconcile(c, n, key), n)
    ensures var before, r := c.devpods[n].status, Reconcile(c, n, key);
      n in r.devpods && r.devpods[n].status.hibernatedAt == if before.phase == Stopped && before.hibernatedAt.Some? then before.hibernatedAt else Some(c.now)
    ensures n in Reconcile(c, n, key).pods ==> Reconcile(c, n, key).pods[n].terminating
  {
    hide Finish, Desired, StatusEqual, Written;
    EndHibernate(c, n, key);
    var d, r, st := c.devpods[n], Reconcile(c, n, key), Desired(n, c.devpods[n], None, c.now, c.cfg);
    WrittenAt(c.devpods, n, d, st);
    WantedStopped(n, d, None, c.now, c.cfg);
    SameStatus(r.devpods[n].status, st);
    AsleepSteady(n, d, r.devpods[n], c.now, r.now, c.cfg);
  }

  /** ... and later ones, whether or not its Pod is gone by then, write nothing. */
  lemma AsleepIsQuiet(c: Cluster, n: string, key: string, later: int)
    requires Asleep(c, n) && c.now <= later
    ensures var c1 := Completed(c, n).(now := later);
      && FirstCall(c1.devpods[n]).Some?
      && var r := Reconcile(c1, n, key);
         n !in r.pods && r.pods == c1.pods && r.devpods == c.devpods && Asleep(r, n)
  {
    hide Finish, Desired, StatusEqual;
    var c1 := Completed(c, n).(now := later);
    EndHibernate(c1, n, key);
    AsleepSteady(n, c.devpods[n], c.devpods[n], c.now, later, c.cfg);
  }

  // ----- what the code does not promise -----

  /** The gate delays one reconcile, not the backoff.  With the Pod gone a reconcile
      creates one unless the mark blocks; if it blocks the reconcile wipes the mark, and
      the next one, at whatever later time, creates the Pod.  So the Pod comes back no
      earlier than min(10 * 2^(max(n,1)-1), 300) seconds after the failure if and only if
      that next reconcile comes no earlier. */
  lemma BackoffKeptIff(c: Cluster, n: string, key: string, later: int)
    requires Ready(c, n) && c.devpods[n].finalizer && key != "" && n !in c.pods && c.now <= later
    requires c.devpods[n].status.lastFailureAt.Some?
    ensures FirstCall(c.devpods[n]).Some?
    ensures var st, r1 := c.devpods[n].status, Reconcile(c, n, key);
      && (n in r1.pods <==> !BackoffBlocks(st, c.now)) && r1.now == c.now && n in r1.devpods
      && r1.devpods[n].status.lastFailureAt == None && r1.devpods[n].status.retryCount == 0
      && FirstCall(r1.devpods[n]).Some?
      && var r2 := Reconcile(r1.(now := later), n, key);
         && n in r2.pods && r2.pods[n].phase == PodPending && r2.now == later
         && var created := if n in r1.pods then c.now else later;
            var raw := 10 * Pow2(if st.retryCount <= 1 then 0 else st.retryCount - 1);
            var wait := if raw > MaxBackoff then MaxBackoff else raw;
            created - st.lastFailureAt.value >= wait <==> later - st.lastFailureAt.value >= wait
  {
    hide Finish, Rendered, HasForeign, Backoff, Pow2, Matches, Desired, StatusEqual, Written, Provisioned;
    ReadyStarts(c, n);
    ReconcileRunning(c, n, key);
    var d, r1 := c.devpods[n], Reconcile(c, n, key);
    MarkWiped(r1.devpods[n].status, n, d, Found(n, d, r1.pods), c.now, c.cfg);
    ReadyStarts(r1, n);
    var c1 := r1.(now := later);
    Unmarked(r1.devpods[n].status, later);
    ReconcileRunning(c1, n, key);
    BackoffClosedForm(d.status.retryCount);
  }

  /** Deleting a running Pod for drift leaves status Running with the port of the
      new spec, although the Pod still serves the port it was created with. */
  lemma DriftReportsNewPort(c: Cluster, n: string, key: string)
    requires Ready(c, n) && c.devpods[n].finalizer && key != ""
    requires n in c.pods && !Matches(c.cfg, c.devpods[n], c.pods[n]) && c.pods[n].phase == PodRunning && c.pods[n].ip != ""
    ensures FirstCall(c.devpods[n]).Some?
    ensures var d, r := c.devpods[n], Reconcile(c, n, key);
      && n in r.pods && r.pods[n].terminating && r.pods[n].hash == c.pods[n].hash && n in r.devpods
      && r.devpods[n].status.phase == Running
      && r.devpods[n].status.endpoint == Endpoint(c.pods[n].ip, BackendPort(UidText(d.uid), d.spec, c.cfg))
  {
    hide Finish, Rendered, HasForeign, Backoff, Matches, Written, Provisioned, BackendPort;
    ReadyStarts(c, n);
    ReconcileRunning(c, n, key);
  }

  /** So when the port changed, the reported endpoint is one that nobody serves: the
      Pod's supervisor was told the old port. */
  lemma DriftEndpointIsDead(c: Cluster, n: string, key: string, before: Spec)
    requires Ready(c, n) && c.devpods[n].finalizer && key != ""
    requires n in c.pods && !Matches(c.cfg, c.devpods[n], c.pods[n]) && c.pods[n].phase == PodRunning && c.pods[n].ip != ""
    requires RenderPod(UidText(c.devpods[n].uid), before, c.cfg) == Ok(c.pods[n].hash)
    requires var uid := UidText(c.devpods[n].uid); BackendPort(uid, before, c.cfg) != BackendPort(uid, c.devpods[n].spec, c.cfg)
    ensures FirstCall(c.devpods[n]).Some?
    ensures var r := Reconcile(c, n, key);
      && n in r.devpods && n in r.pods && r.devpods[n].status.phase == Running && r.devpods[n].status.endpoint.Endpoint?
      && SupervisorPort(r.pods[n].hash, before).Some?
      && SupervisorPort(r.pods[n].hash, before) != Some(Itoa(r.devpods[n].status.endpoint.port))
  {
    hide Reconcile, Ours, Runnable, Matches, BackendPort, RenderPod, SupervisorPort, FirstCall, Itoa;
    DriftReportsNewPort(c, n, key);
    var uid := UidText(c.devpods[n].uid);
    RenderedPodServesPort(uid, before, c.cfg);
    ItoaInjective(BackendPort(uid, before, c.cfg), BackendPort(uid, c.devpods[n].spec, c.cfg));
  }
}
