/** Runs that lead to the states in which the reconciler does less than one expects. */
module ControllerWitnesses {
  import opened Wrappers
  import opened Render
  import opened Controller
  import opened ControllerInvariants
  import opened ControllerConvergence
  import opened ControllerSettling
  import ControllerFrames
  import ControllerPorts
  import ControllerTheorems

  // ----- building runs -----

  lemma {:induction false} RunsTrans(s: Cluster, a: seq<Action>, m: Cluster, b: seq<Action>, t: Cluster)
    requires Runs(s, a, m) && Runs(m, b, t)
    ensures Runs(s, a + b, t)
    decreases |b|
  {
    hide Enabled, Apply;
    if b == [] {
      assert a + b == a;
    } else {
      var k := |b| - 1;
      var n :| Runs(m, b[..k], n) && Enabled(n, b[k]) && Apply(n, b[k]) == t;
      RunsTrans(s, a, m, b[..k], n);
      assert (a + b)[..|a + b| - 1] == a + b[..k];
      assert (a + b)[|a + b| - 1] == b[k];
    }
  }

  lemma Did(c: Cluster, a: Action) returns (d: Cluster)
    requires Reachable(c) && Enabled(c, a)
    ensures d == Apply(c, a) && Reachable(d)
  {
    hide Enabled, Apply, Reachable;
    ControllerTheorems.ReachableStep(c, a);
    d := Apply(c, a);
  }

  lemma {:induction false} FinishUids(c: Cluster, key: string)
    ensures Finish(c, key).usedUids == c.usedUids
    decreases Remaining(c)
  {
    hide Work, ControllerFrames.PodsKept, ControllerFrames.OwnersKept, ControllerFrames.NextApply, ControllerFrames.NextPatch;
    if c.worker.Busy? {
      WorkLowers(c, key);
      LowerRemaining(c, Work(c, key));
      ControllerFrames.WorkFramed(c, key);
      FinishUids(Work(c, key), key);
    }
  }

  lemma FinishReachable(c: Cluster, key: string)
    requires Reachable(c) && key != ""
    ensures Reachable(Finish(c, key))
  {
    hide Enabled, Apply, Finish;
    FinishRuns(c, key);
    var acts :| Runs(c, acts, Finish(c, key));
    var cfg, before :| Runs(Init(cfg), before, c);
    RunsTrans(Init(cfg), before, c, acts, Finish(c, key));
  }

  lemma ReconcileReachable(c: Cluster, n: string, key: string)
    requires Reachable(c) && c.worker.Idle? && n in c.devpods && FirstCall(c.devpods[n]).Some? && key != ""
    ensures Reachable(Reconcile(c, n, key))
  {
    hide Reachable, Finish;
    var c1 := Did(c, Start(n));
    FinishReachable(c1, key);
  }

  // ----- a DevPod that has just been brought up -----

  /** The only DevPod is n, with this UID and spec, and its Pod is as created. */
  predicate Alone(c: Cluster, cfg: Config, n: string, uid: Uid, spec: Spec) {
    && c.cfg == cfg && c.worker.Idle? && c.devpods.Keys == {n} && c.devpods[n].uid == uid && c.devpods[n].spec == spec
    && !c.devpods[n].deleting
  }

  predicate Startable(cfg: Config, uid: Uid, spec: Spec) {
    spec.running && !spec.vm && spec.pod.Some? && RenderPod(UidText(uid), spec, cfg).Ok?
  }

  lemma BornReady(cfg: Config, n: string, uid: Uid, spec: Spec)
    requires Startable(cfg, uid, spec)
    ensures Ready(DoUserCreate(Init(cfg), n, uid, spec), n) && Alone(DoUserCreate(Init(cfg), n, uid, spec), cfg, n, uid, spec)
  {
    hide RenderPod;
  }

  /** Created, and the finalizer written. */
  lemma Adopted(cfg: Config, n: string, uid: Uid, spec: Spec, key: string) returns (c: Cluster)
    requires Startable(cfg, uid, spec) && key != ""
    ensures Reachable(c) && Alone(c, cfg, n, uid, spec) && Ready(c, n) && c.devpods[n].finalizer
    ensures c.pods == map[] && c.pvcs == map[] && c.devpods[n].status == NewStatus && c.usedUids == {uid}
  {
    hide Reachable, RenderPod, Finish, Ours, Runnable;
    ControllerTheorems.InitReachable(cfg);
    var c0 := Did(Init(cfg), UserCreate(n, uid, spec));
    BornReady(cfg, n, uid, spec);
    ReadyStarts(c0, n);
    ReconcileReachable(c0, n, key);
    FinalizerOnly(c0, n, key);
    c := Reconcile(c0, n, key);
    StillReady(c0, c, n);
  }

  /** The first reconcile writes the finalizer and nothing else. */
  lemma FinalizerOnly(c: Cluster, n: string, key: string)
    requires c.worker.Idle? && n in c.devpods && !c.devpods[n].deleting && !c.devpods[n].finalizer
    ensures FirstCall(c.devpods[n]).Some?
    ensures Reconcile(c, n, key) ==
      c.(devpods := c.devpods[n := Touch(c.devpods[n].(finalizer := true))], requeueAfter := 0)
  {
    hide Finish;
    var c1 := DoStart(c, n);
    FinishStep(c1, key);
    FinishIdle(RunAddFinalizer(c1, n, c.devpods[n]), key);
  }

  /** Being ready is about Pods, Secrets, volumes and the spec. */
  lemma StillReady(c: Cluster, d: Cluster, n: string)
    requires Ready(c, n) && d.worker.Idle? && n in d.devpods && SameIdentity(c.devpods[n], d.devpods[n])
    requires d.cfg == c.cfg && d.pods == c.pods && d.pvcs == c.pvcs && d.secrets == c.secrets
    ensures Ready(d, n)
  {
    hide RenderPod, HasForeign;
  }

  /** ... and the second one creates Secret, volume and Pod. */
  lemma Launched(cfg: Config, n: string, uid: Uid, spec: Spec, key: string) returns (c: Cluster)
    requires Startable(cfg, uid, spec) && key != ""
    ensures Reachable(c) && Alone(c, cfg, n, uid, spec) && Ready(c, n) && c.devpods[n].finalizer && n in c.secrets
    ensures c.pods.Keys == {n} && c.pods[n].owner == uid && Ok(c.pods[n].hash) == RenderPod(UidText(uid), spec, cfg)
    ensures c.pods[n].phase == PodPending && !c.pods[n].terminating
    ensures c.pvcs == if spec.persistence.Some? then map[n := [SelfRef(uid)]] else map[]
    ensures c.devpods[n].status.lastFailureAt == None && c.usedUids == {uid}
  {
    hide Reachable, RenderPod, Finish, Ours, Runnable, Desired, StatusEqual, Backoff, BackoffBlocks;
    var c1 := Adopted(cfg, n, uid, spec, key);
    FinishUids(DoStart(c1, n), key);
    ReadyStarts(c1, n);
    ReconcileReachable(c1, n, key);
    ReconcileRunning(c1, n, key);
    c := Reconcile(c1, n, key);
    var d := c1.devpods[n];
    Unmarked(d.status, c1.now);
    ReadyRenders(c1, n);
    assert c.pods == map[n := NewPod(cfg, d)];
    LaunchedPvc(d, n);
    MarkWiped(c.devpods[n].status, n, d, Found(n, d, c.pods), c1.now, cfg);
  }

  lemma ReadyRenders(c: Cluster, n: string)
    requires Ready(c, n)
    ensures Rendered(c.cfg, c.devpods[n]).Ok?
  {
    hide RenderPod, Ours;
  }

  lemma LaunchedPvc(d: DevPod, n: string)
    ensures NextPvcs(map[], n, d) == if d.spec.persistence.Some? then map[n := [SelfRef(d.uid)]] else map[]
  {
    assert [] + [SelfRef(d.uid)] == [SelfRef(d.uid)];
  }

  // ----- the backoff -----

  lemma {:induction false} BackoffPositive(n: int)
    ensures Backoff(n) >= 10
    decreases if n > 0 then n else 0
  {
    if n > 1 { BackoffPositive(n - 1); }
  }

  lemma JustFailedBlocks(st: Status, now: int)
    requires st.lastFailureAt == Some(now)
    ensures BackoffBlocks(st, now)
  {
    BackoffPositive(st.retryCount);
  }

  /** A reconcile of a launched DevPod whose Pod has failed. */
  lemma ReconcileFailed(c: Cluster, n: string, key: string)
    requires c.worker.Idle? && n in c.devpods && Runnable(c.cfg, c.devpods[n]) && c.devpods[n].finalizer
    requires n in c.pods && c.pods[n].phase == PodFailed && n in c.secrets && SecretOk(c, n, c.devpods[n].uid)
    requires PvcOk(c.pvcs, n, c.devpods[n]) && PvcDone(c.pvcs, n, c.devpods[n])
    ensures FirstCall(c.devpods[n]) == Some(SecretGet)
    ensures Counted(DoStart(c, n), Reconcile(c, n, key))
  {
    hide Finish, RenderPod, HasForeign, NamesSelf;
    var c1 := DoStart(c, n);
    FinishStep(c1, key);
    var c2 := At(c1, PvcApply);
    FinishStep(c2, key);
    PvcApplied(c2);
    var c3 := At(c2, PodGet);
    EndFailedGet(c3, key);
    SamePods(c1, c3, Finish(c3, key));
  }

  lemma SamePods(c: Cluster, c3: Cluster, r: Cluster)
    requires c.worker.Busy? && c.worker.name in c.devpods && c.worker.name in c.pods
    requires c3 == At(At(c, PvcApply), PodGet) && Counted(c3, r)
    ensures Counted(c, r)
  {
    hide Finish;
  }

  /** For every DevPod that renders, a run ends with no Pod and a failure that still
      blocks: what BackoffKeptIff starts from. */
  lemma BlockedReachable(cfg: Config, n: string, uid: Uid, spec: Spec, key: string) returns (c: Cluster)
    requires Startable(cfg, uid, spec) && key != ""
    ensures Reachable(c) && c.cfg == cfg && Ready(c, n) && c.devpods[n].finalizer && c.devpods[n].spec == spec
    ensures n !in c.pods && BackoffBlocks(c.devpods[n].status, c.now)
  {
    hide Reachable, RenderPod, Finish, Runnable, BackoffBlocks, HasForeign;
    var c1 := Launched(cfg, n, uid, spec, key);
    var c2 := Did(c1, PodProgress(n, PodFailed, "", "exit 1"));
    LaunchedPvcDone(c1, n, uid, spec);
    ReconcileFailed(c2, n, key);
    ReconcileReachable(c2, n, key);
    var c3 := Reconcile(c2, n, key);
    c := Did(c3, PodGone(n));
    JustFailedBlocks(c.devpods[n].status, c.now);
    RunnableKept(cfg, c1.devpods[n], c.devpods[n]);
  }

  lemma LaunchedPvcDone(c: Cluster, n: string, uid: Uid, spec: Spec)
    requires n in c.devpods && c.devpods[n].uid == uid && c.devpods[n].spec == spec
    requires c.pvcs == if spec.persistence.Some? then map[n := [SelfRef(uid)]] else map[]
    ensures PvcDone(c.pvcs, n, c.devpods[n]) && PvcOk(c.pvcs, n, c.devpods[n])
  {
    assert IsSelf([SelfRef(uid)][0], uid);
  }

  /** So in some run of every such DevPod a Pod is created with no time passed since
      the failure that deleted the one before it. */
  lemma BackoffDefeatedInSomeRun(cfg: Config, n: string, uid: Uid, spec: Spec, key: string)
    requires Startable(cfg, uid, spec) && key != ""
    ensures exists c, d :: Reachable(c) && Reachable(d) && d.now == c.now && n in c.devpods && c.devpods[n].spec == spec &&
              BackoffBlocks(c.devpods[n].status, c.now) && n !in c.pods && n in d.pods
  {
    hide Reachable, RenderPod, Finish, Ours, Runnable, BackoffBlocks;
    var c := BlockedReachable(cfg, n, uid, spec, key);
    BlockedHasMark(c.devpods[n].status, c.now);
    BackoffKeptIff(c, n, key, c.now);
    ReadyIdle(c, n, key);
    ReconcileReachable(c, n, key);
    var r1 := Reconcile(c, n, key);
    assert r1 == r1.(now := c.now);
    ReconcileReachable(r1, n, key);
    var d := Reconcile(r1, n, key);
    assert Reachable(c) && Reachable(d);
  }

  lemma ReadyIdle(c: Cluster, n: string, key: string)
    requires Ready(c, n) && c.devpods[n].finalizer && key != ""
    ensures c.worker.Idle? && FirstCall(c.devpods[n]).Some? && Reconcile(c, n, key).worker.Idle?
  {
    hide Finish, Ours, Runnable, Desired, StatusEqual, NextPods, Provisioned;
    ReadyStarts(c, n);
    ReconcileRunning(c, n, key);
  }

  // ----- the port -----

  /** A running DevPod whose spec is edited to one that renders differently. */
  lemma EditedReachable(cfg: Config, n: string, uid: Uid, before: Spec, after: Spec, ip: string, key: string) returns (c: Cluster)
    requires Startable(cfg, uid, before) && Startable(cfg, uid, after) && key != "" && ip != "" && after.owner == before.owner
    requires RenderPod(UidText(uid), before, cfg) != RenderPod(UidText(uid), after, cfg)
    ensures Reachable(c) && c.cfg == cfg && Ready(c, n) && c.devpods[n].finalizer && c.devpods[n].uid == uid
    ensures c.devpods[n].spec == after && n in c.pods && c.pods[n].owner == uid && c.pods[n].phase == PodRunning && c.pods[n].ip == ip
    ensures RenderPod(UidText(uid), before, cfg) == Ok(c.pods[n].hash) && !Matches(cfg, c.devpods[n], c.pods[n])
  {
    hide Reachable, RenderPod, Finish, BackoffBlocks, HasForeign;
    var c1 := Launched(cfg, n, uid, before, key);
    var c2 := Did(c1, PodProgress(n, PodRunning, ip, ""));
    c := Did(c2, UserEdit(n, after));
    LaunchedForeign(c1, n, uid, before);
  }

  lemma LaunchedForeign(c: Cluster, n: string, uid: Uid, spec: Spec)
    requires c.pvcs == if spec.persistence.Some? then map[n := [SelfRef(uid)]] else map[]
    ensures n in c.pvcs ==> !HasForeign(c.pvcs[n], uid)
  {
  }

  /** In some run the reported endpoint is one the Pod does not serve: for every pair of
      specs of one owner that render but ask for different ports. */
  lemma DeadEndpointReachable(cfg: Config, n: string, uid: Uid, before: Spec, after: Spec, key: string) returns (c: Cluster)
    requires Startable(cfg, uid, before) && Startable(cfg, uid, after) && key != "" && after.owner == before.owner
    requires RenderPod(UidText(uid), before, cfg) != RenderPod(UidText(uid), after, cfg)
    requires BackendPort(UidText(uid), before, cfg) != BackendPort(UidText(uid), after, cfg)
    ensures Reachable(c) && c.cfg == cfg && n in c.devpods && c.devpods[n].status.phase == Running && n in c.pods
    ensures c.devpods[n].status.endpoint.Endpoint? && c.devpods[n].status.endpoint.ip == c.pods[n].ip
    ensures RenderPod(UidText(c.pods[n].owner), before, cfg) == Ok(c.pods[n].hash)
    ensures SupervisorPort(c.pods[n].hash, before) != Some(Itoa(c.devpods[n].status.endpoint.port))
  {
    hide Reachable, RenderPod, Finish, BackoffBlocks, HasForeign, BackendPort, SupervisorPort, Itoa, Matches, Ours, Runnable;
    var c1 := EditedReachable(cfg, n, uid, before, after, "10.0.0.1", key);
    DriftReportsNewPort(c1, n, key);
    ReadyIdle(c1, n, key);
    ReconcileReachable(c1, n, key);
    c := Reconcile(c1, n, key);
    RenderedPodServesPort(UidText(uid), before, cfg);
    ItoaInjective(BackendPort(UidText(uid), before, cfg), BackendPort(UidText(uid), after, cfg));
    DriftKeepsOwner(c1, n, key);
  }

  lemma DriftKeepsOwner(c: Cluster, n: string, key: string)
    requires Ready(c, n) && c.devpods[n].finalizer && key != "" && n in c.pods && !Matches(c.cfg, c.devpods[n], c.pods[n])
    ensures FirstCall(c.devpods[n]).Some?
    ensures var r := Reconcile(c, n, key); r.cfg == c.cfg && n in r.pods && r.pods[n].owner == c.pods[n].owner && r.pods[n].ip == c.pods[n].ip
  {
    hide Finish, Ours, Desired, StatusEqual, Provisioned, Matches, RenderPod;
    ReadyStarts(c, n);
    ReconcileRunning(c, n, key);
  }

  function OnHostNetwork(spec: Spec): Spec
    requires spec.pod.Some?
  {
    spec.(pod := Some(spec.pod.value.(hostNetwork := true)))
  }

  /** Moving any DevPod to the host network is such a pair, whenever the configured port
      is not one of the derived ones. */
  lemma HostNetworkSwitches(cfg: Config, uid: Uid, spec: Spec)
    requires Startable(cfg, uid, spec) && !spec.pod.value.hostNetwork && cfg.backendPort < 65000
    ensures var after := OnHostNetwork(spec);
      && Startable(cfg, uid, after) && after.owner == spec.owner
      && RenderPod(UidText(uid), spec, cfg) != RenderPod(UidText(uid), after, cfg)
      && BackendPort(UidText(uid), spec, cfg) != BackendPort(UidText(uid), after, cfg)
  {
    hide Fnv32a;
    ItoaDigits(uid);
    var after := OnHostNetwork(spec);
    BackendPortRange(UidText(uid), after, after, cfg, cfg);
    RenderOkIff(UidText(uid), spec, cfg);
    RenderOkIff(UidText(uid), after, cfg);
    HostNetworkKept(UidText(uid), spec, cfg);
    HostNetworkKept(UidText(uid), after, cfg);
  }

  lemma HostNetworkKept(uid: string, spec: Spec, cfg: Config)
    requires RenderPod(uid, spec, cfg).Ok?
    ensures RenderPod(uid, spec, cfg).value.hostNetwork == spec.pod.value.hostNetwork
  {
    hide BackendPort, Itoa, IndexOf;
  }

  /** For every configuration and DevPod like that, some run reports a port nobody serves. */
  lemma EndpointDeadInSomeRun(cfg: Config, n: string, uid: Uid, spec: Spec, key: string)
    requires Startable(cfg, uid, spec) && !spec.pod.value.hostNetwork && cfg.backendPort < 65000 && key != ""
    ensures exists c :: Reachable(c) && c.cfg == cfg && n in c.devpods && c.devpods[n].status.phase == Running && n in c.pods &&
              ControllerPorts.RenderedFrom(cfg, c.pods[n], spec) && c.devpods[n].status.endpoint.Endpoint? &&
              SupervisorPort(c.pods[n].hash, spec) != Some(Itoa(c.devpods[n].status.endpoint.port))
  {
    hide Reachable, RenderPod, BackendPort, SupervisorPort, Itoa;
    HostNetworkSwitches(cfg, uid, spec);
    var c := DeadEndpointReachable(cfg, n, uid, spec, OnHostNetwork(spec), key);
  }

  // ----- the owner's policy -----

  /** A first reconcile of n, up to the Pod ... */
  lemma Keyed(c: Cluster, n: string, key: string) returns (d: Cluster)
    requires Reachable(c) && Ready(c, n) && c.devpods[n].finalizer && key != "" && n !in c.secrets
    ensures Reachable(d) && d.cfg == c.cfg && d.devpods == c.devpods && d.net == c.net && d.applied == c.applied
    ensures d.worker == Busy(n, c.devpods[n], PvcApply) && d.pods == c.pods && d.now == c.now && d.pvcs == c.pvcs
    ensures d.secrets.Keys == c.secrets.Keys + {n} && d.usedUids == c.usedUids
  {
    hide Reachable, RenderPod, Ours;
    var c1 := Did(c, Start(n));
    var c2 := Did(c1, DoWork(key));
    d := Did(c2, DoWork(key));
  }

  lemma Supplied(c: Cluster, n: string, key: string) returns (d: Cluster)
    requires Reachable(c) && Ready(c, n) && c.devpods[n].finalizer && key != ""
    requires n !in c.pvcs && n !in c.secrets
    ensures Reachable(d) && d.cfg == c.cfg && d.devpods == c.devpods && d.net == c.net && d.applied == c.applied
    ensures d.worker == Busy(n, c.devpods[n], PodGet) && d.pods == c.pods && d.now == c.now
    ensures d.pvcs.Keys <= c.pvcs.Keys + {n} && d.secrets.Keys == c.secrets.Keys + {n} && d.usedUids == c.usedUids
  {
    hide Reachable, RenderPod, Ours, Runnable, RunPvcApply;
    var c3 := Keyed(c, n, key);
    PvcApplied(c3);
    d := Did(c3, DoWork(key));
  }

  /** ... the Service ... */
  lemma Created(c: Cluster, n: string, key: string) returns (d: Cluster)
    requires Reachable(c) && Ready(c, n) && c.devpods[n].finalizer && key != ""
    requires n !in c.pods && n !in c.pvcs && n !in c.secrets && !BackoffBlocks(c.devpods[n].status, c.now)
    ensures Reachable(d) && d.cfg == c.cfg && d.devpods == c.devpods && d.net == c.net && d.applied == c.applied
    ensures d.worker == Busy(n, c.devpods[n], ServiceApply(Same))
    ensures d.pods.Keys == c.pods.Keys + {n} && d.pvcs.Keys <= c.pvcs.Keys + {n} && d.secrets.Keys == c.secrets.Keys + {n}
    ensures d.usedUids == c.usedUids
  {
    hide Reachable, Rendered, RenderPod, BackoffBlocks, Backoff, NewPod, Ready;
    ReadyRenders(c, n);
    var c1 := Supplied(c, n, key);
    var c2 := Did(c1, DoWork(key));
    d := Did(c2, DoWork(key));
  }

  /** ... and on to the allow policy, where the worker crashes. */
  lemma Opened(c: Cluster, n: string, key: string) returns (d: Cluster)
    requires Reachable(c) && Ready(c, n) && c.devpods[n].finalizer && key != "" && c.cfg.isolateNetwork
    requires n !in c.pods && n !in c.pvcs && n !in c.secrets && !BackoffBlocks(c.devpods[n].status, c.now)
    ensures Reachable(d) && d.cfg == c.cfg && d.devpods == c.devpods && d.worker.Idle? && d.usedUids == c.usedUids
    ensures var dp := c.devpods[n];
      d.net.policies == c.net.policies[dp.spec.owner := BackendPort(UidText(dp.uid), dp.spec, c.cfg)] &&
      d.applied == c.applied + {dp.uid}
    ensures d.pods.Keys == c.pods.Keys + {n} && d.pvcs.Keys <= c.pvcs.Keys + {n} && d.secrets.Keys == c.secrets.Keys + {n}
  {
    hide Reachable, RenderPod, BackoffBlocks, BackendPort, Ready;
    var c1 := Created(c, n, key);
    var c2 := Did(c1, DoWork(key));
    var c3 := Did(c2, DoWork(key));
    var c4 := Did(c3, DoWork(key));
    d := Did(c4, Crash);
  }

  /** A second DevPod of the same owner, its finalizer written. */
  lemma Joined(c: Cluster, m: string, uid: Uid, spec: Spec, key: string) returns (d: Cluster)
    requires Reachable(c) && c.worker.Idle? && m !in c.devpods && uid !in c.usedUids && Startable(c.cfg, uid, spec) && key != ""
    requires m !in c.pods && m !in c.pvcs && m !in c.secrets
    ensures Reachable(d) && d.cfg == c.cfg && Ready(d, m) && d.devpods[m].finalizer && d.devpods[m].uid == uid && d.devpods[m].spec == spec
    ensures d.devpods.Keys == c.devpods.Keys + {m} && (forall n :: n in c.devpods ==> d.devpods[n] == c.devpods[n])
    ensures d.pods == c.pods && d.pvcs == c.pvcs && d.secrets == c.secrets && d.net == c.net && d.applied == c.applied
    ensures d.devpods[m].status == NewStatus && d.usedUids == c.usedUids + {uid}
  {
    hide Reachable, RenderPod, Finish;
    var c1 := Did(c, UserCreate(m, uid, spec));
    FinalizerOnly(c1, m, key);
    ReconcileReachable(c1, m, key);
    d := Reconcile(c1, m, key);
  }

  /** Under isolation, for any two specs of one owner that ask for different ports, some
      run leaves a live DevPod that has applied its objects with a policy that opens
      only the other one's port. */
  lemma PortClosedInSomeRun(cfg: Config, n: string, m: string, a: Spec, b: Spec, key: string)
    requires cfg.isolateNetwork && n != m && key != "" && a.owner == b.owner
    requires Startable(cfg, 1, a) && Startable(cfg, 2, b) && BackendPort(UidText(1), a, cfg) != BackendPort(UidText(2), b, cfg)
    ensures exists c :: Reachable(c) && c.cfg == cfg && n in c.devpods && c.devpods[n].spec == a && !c.devpods[n].deleting &&
              c.devpods[n].uid in c.applied && a.owner in c.net.policies &&
              c.net.policies[a.owner] != BackendPort(UidText(c.devpods[n].uid), a, cfg)
  {
    hide Reachable, RenderPod, BackendPort, BackoffBlocks, Ours;
    ControllerTheorems.InitReachable(cfg);
    var c1 := Joined(Init(cfg), n, 1, a, key);
    Unmarked(c1.devpods[n].status, c1.now);
    var c2 := Opened(c1, n, key);
    var c3 := Joined(c2, m, 2, b, key);
    Unmarked(c3.devpods[m].status, c3.now);
    var c4 := Opened(c3, m, key);
    assert Reachable(c4) && c4.devpods[n] == c1.devpods[n];
  }

  /** Such a pair is any DevPod and its copy on the host network. */
  lemma PlainPortClosed(cfg: Config, n: string, m: string, spec: Spec, key: string)
    requires cfg.isolateNetwork && n != m && key != "" && cfg.backendPort < 65000
    requires Startable(cfg, 1, spec) && !spec.pod.value.hostNetwork
    ensures exists c :: Reachable(c) && c.cfg == cfg && n in c.devpods && c.devpods[n].spec == spec && !c.devpods[n].deleting &&
              c.devpods[n].uid in c.applied && spec.owner in c.net.policies &&
              c.net.policies[spec.owner] != BackendPort(UidText(c.devpods[n].uid), spec, cfg)
  {
    hide Reachable, RenderPod, Fnv32a;
    RenderOkIff(UidText(1), spec, cfg);
    RenderOkIff(UidText(2), spec, cfg);
    HostNetworkSwitches(cfg, 2, spec);
    assert BackendPort(UidText(1), spec, cfg) == BackendPort(UidText(2), spec, cfg);
    PortClosedInSomeRun(cfg, n, m, spec, OnHostNetwork(spec), key);
  }

  // ----- the home volume -----

  /** A DevPod whose persistence was switched off before it was deleted, about to lose
      its finalizer. */
  lemma AbandonedReachable(cfg: Config, n: string, uid: Uid, spec: Spec, key: string) returns (c: Cluster)
    requires Startable(cfg, uid, spec) && spec.persistence.Some? && key != ""
    ensures Reachable(c) && c.cfg == cfg && c.worker.Busy? && c.worker.call.ClearFinalizer? && c.worker.name == n
    ensures Current(c, n, c.worker.dp) && c.devpods.Keys == {n} && c.worker.dp.uid == uid
    ensures c.worker.dp.spec == spec.(persistence := None) && n in c.pvcs && c.pvcs[n] == [SelfRef(uid)]
  {
    hide Reachable, RenderPod, Ours, Runnable;
    var c1 := Launched(cfg, n, uid, spec, key);
    var c2 := Did(c1, UserEdit(n, spec.(persistence := None)));
    var c3 := Did(c2, UserDelete(n));
    var c4 := Did(c3, Start(n));
    var c5 := Did(c4, DoWork(key));
    var c6 := Did(c5, DoWork(key));
    c := Did(c6, DoWork(key));
  }

  /** So for every DevPod with a home volume some run collects it. */
  lemma HomeLostInSomeRun(cfg: Config, n: string, uid: Uid, spec: Spec, key: string)
    requires Startable(cfg, uid, spec) && spec.persistence.Some? && key != ""
    ensures exists c :: Reachable(c) && c.cfg == cfg && n in c.pvcs && c.pvcs[n] == [SelfRef(uid)] &&
              Enabled(c, CollectPvc(n)) && n !in c.devpods
  {
    hide Reachable, RenderPod;
    var c := AbandonedReachable(cfg, n, uid, spec, key);
    var d := Did(c, DoWork(key));
    assert LiveUids(d) == {};
    assert Reachable(d) && Enabled(d, CollectPvc(n));
  }

  /** A persistent DevPod being deleted, the owners of its volume still to be read. */
  lemma DetachingReachable(c: Cluster, n: string, key: string) returns (d: Cluster)
    requires Reachable(c) && c.worker.Idle? && n in c.devpods && c.devpods[n].finalizer && !c.devpods[n].deleting
    requires c.devpods[n].spec.persistence.Some? && n in c.pvcs && NamesSelf(c.pvcs[n], c.devpods[n].uid) && key != ""
    ensures Reachable(d) && d.worker.Busy? && d.worker.name == n && d.worker.call == DetachPatch(c.pvcs[n])
    ensures d.worker.dp.uid == c.devpods[n].uid && d.pvcs == c.pvcs && d.cfg == c.cfg && d.usedUids == c.usedUids
    ensures d.devpods.Keys == c.devpods.Keys && n in d.devpods && d.devpods[n].uid == c.devpods[n].uid && d.devpods[n].spec == c.devpods[n].spec
    ensures forall m :: m in c.devpods && m != n ==> d.devpods[m] == c.devpods[m]
  {
    hide Reachable, RenderPod, NamesSelf;
    var c1 := Did(c, UserDelete(n));
    var c2 := Did(c1, Start(n));
    d := Did(c2, DoWork(key));
  }

  /** For every such DevPod, and every reference but a controller's that somebody may add
      to the volume of a live one, some run loses it: added between lookup and patch. */
  lemma OwnerLostInSomeRun(cfg: Config, n: string, uid: Uid, spec: Spec, r: OwnerRef, key: string)
    requires Startable(cfg, uid, spec) && spec.persistence.Some? && key != "" && r.kind != "DevPod" && !r.controller
    ensures exists c :: Reachable(c) && c.cfg == cfg && n in c.pvcs && r in c.pvcs[n] && Enabled(c, DoWork(key)) &&
              n in Apply(c, DoWork(key)).pvcs && r !in Apply(c, DoWork(key)).pvcs[n]
  {
    hide Reachable, RenderPod, Ours, Runnable;
    var c1 := Launched(cfg, n, uid, spec, key);
    NamesAppended([], uid);
    var c2 := DetachingReachable(c1, n, key);
    var c3 := Did(c2, AddOwner(n, r));
    assert r == c3.pvcs[n][1];
    SelfOnlyDetached(c3, n, key, uid);
  }

  lemma SelfOnlyDetached(c: Cluster, n: string, key: string, uid: Uid)
    requires c.worker.Busy? && c.worker.name == n && c.worker.call == DetachPatch([SelfRef(uid)]) && c.worker.dp.uid == uid
    requires n in c.pvcs
    ensures Work(c, key).pvcs == c.pvcs[n := []]
  {
    assert [SelfRef(uid)][1..] == [];
    assert OtherOwners([], uid) == [];
    assert OtherOwners([SelfRef(uid)], uid) == [];
  }

  /** A volume that also names a DevPod which is gone. */
  lemma SharedReachable(cfg: Config, n: string, m: string, uid: Uid, other: Uid, spec: Spec, key: string) returns (c: Cluster)
    requires Startable(cfg, uid, spec) && spec.persistence.Some? && key != "" && n != m && uid != other
    ensures Reachable(c) && c.cfg == cfg && c.worker.Idle? && c.devpods.Keys == {n} && c.devpods[n].uid == uid
    ensures c.devpods[n].finalizer && !c.devpods[n].deleting && c.devpods[n].spec == spec
    ensures n in c.pvcs && c.pvcs[n] == [SelfRef(uid), OwnerRef("DevPod", other, false)] && NamesSelf(c.pvcs[n], uid)
  {
    hide Reachable, RenderPod, Ours, Runnable;
    var c1 := Launched(cfg, n, uid, spec, key);
    var c2 := Did(c1, UserCreate(m, other, spec));
    var c3 := Did(c2, AddOwner(n, OwnerRef("DevPod", other, false)));
    c := Did(c3, UserDelete(m));
    assert IsSelf(c.pvcs[n][0], uid);
  }

  /** And in some run it is the detach itself that gives the volume to the collector,
      while the DevPod is still stored: the other owner, m, is gone by then. */
  lemma HomeLostByDetachInSomeRun(cfg: Config, n: string, m: string, uid: Uid, other: Uid, spec: Spec, key: string)
    requires Startable(cfg, uid, spec) && spec.persistence.Some? && key != "" && n != m && uid != other
    ensures exists c :: Reachable(c) && c.cfg == cfg && n in c.devpods && c.devpods[n].uid == uid &&
              c.devpods[n].spec.persistence.Some? && Enabled(c, CollectPvc(n))
  {
    hide Reachable, RenderPod, Ours, Runnable;
    var c1 := SharedReachable(cfg, n, m, uid, other, spec, key);
    var c2 := DetachingReachable(c1, n, key);
    var c := Did(c2, DoWork(key));
    OtherKept(uid, OwnerRef("DevPod", other, false));
    assert LiveUids(c) == {uid};
    assert Reachable(c) && Enabled(c, CollectPvc(n));
  }

  lemma OtherKept(uid: Uid, r: OwnerRef)
    requires !IsSelf(r, uid)
    ensures OtherOwners([SelfRef(uid), r], uid) == [r]
  {
    assert [SelfRef(uid), r][1..] == [r] && [r][1..] == [];
    assert OtherOwners([], uid) == [] && OtherOwners([r], uid) == [r];
  }
}
