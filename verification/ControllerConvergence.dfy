/**
 Reconciles that nothing interrupts: how many it takes until the live Pod is the
 rendered one, and what a settled DevPod looks like to the next reconcile.
 */
module ControllerConvergence {
  import opened Wrappers
  import opened Render
  import opened Controller
  import opened ControllerInvariants

  // ----- one uninterrupted reconcile -----

  function Rank(call: Call): nat {
    match call
    case DetachGet => 4
    case DetachPatch(_) => 3
    case ListSiblings => 2
    case DropPolicy => 1
    case ClearFinalizer => 0
    case AddFinalizer => 0
    case HibernateDelete => 2
    case SecretGet => 10
    case SecretCreate => 9
    case PvcApply => 8
    case PodGet => 7
    case FailPatch(_) => 6
    case FailDelete => 5
    case DriftDelete => 5
    case PodApply(_) => 5
    case ServiceApply(_) => 4
    case DenyApply(_) => 3
    case AllowApply(_) => 2
    case StatusGet(_) => 1
    case StatusPatch(_, _, _) => 0
  }

  predicate Lower(c: Cluster, c': Cluster) {
    c.worker.Busy? && (c'.worker.Idle? || Rank(c'.worker.call) < Rank(c.worker.call))
  }

  lemma AtLower(c: Cluster, c1: Cluster, next: Call)
    requires c.worker.Busy? && c1.worker.Busy? && Rank(next) < Rank(c.worker.call)
    ensures Lower(c, At(c1, next))
  {
  }

  lemma StopLower(c: Cluster, c1: Cluster)
    requires c.worker.Busy?
    ensures Lower(c, Stop(c1))
  {
  }

  lemma LowerDetach(c: Cluster, key: string)
    requires c.worker.Busy? && (c.worker.call.DetachGet? || c.worker.call.DetachPatch?)
    ensures Lower(c, Work(c, key))
  {
    hide NamesSelf, OtherOwners;
  }

  lemma LowerDeleting(c: Cluster, key: string)
    requires c.worker.Busy? && (c.worker.call.ListSiblings? || c.worker.call.DropPolicy? || c.worker.call.ClearFinalizer?)
    ensures Lower(c, Work(c, key))
  {
    hide LiveSibling, Current, Touch;
  }

  lemma LowerSetup(c: Cluster, key: string)
    requires c.worker.Busy?
    requires c.worker.call.AddFinalizer? || c.worker.call.HibernateDelete? || c.worker.call.SecretGet? || c.worker.call.SecretCreate?
    ensures Lower(c, Work(c, key))
  {
    hide Current, Touch;
  }

  lemma LowerPvc(c: Cluster)
    requires c.worker.Busy? && c.worker.call.PvcApply?
    ensures Lower(c, RunPvcApply(c, c.worker.name, c.worker.dp))
  {
    hide NamesSelf;
  }

  lemma LowerPodGet(c: Cluster)
    requires c.worker.Busy? && c.worker.call.PodGet?
    ensures Lower(c, RunPodGet(c, c.worker.name, c.worker.dp))
  {
    hide Rendered, Matches, Backoff, BackoffBlocks, Lower, At, Stop;
    var name, dp := c.worker.name, c.worker.dp;
    StopLower(c, c);
    AtLower(c, c, PodApply(Same));
    AtLower(c, c, PodApply(Absent));
    AtLower(c, c, DriftDelete);
    if name in c.pods {
      AtLower(c, c, FailPatch(c.pods[name]));
    } else if BackoffBlocks(dp.status, c.now) {
      BlockedHasMark(dp.status, c.now);
      AtLower(c, c.(requeueAfter := Backoff(dp.status.retryCount) - (c.now - dp.status.lastFailureAt.value)), ServiceApply(Absent));
    }
  }

  lemma LowerPods(c: Cluster, key: string)
    requires c.worker.Busy?
    requires c.worker.call.FailPatch? || c.worker.call.FailDelete? || c.worker.call.DriftDelete? || c.worker.call.PodApply?
    ensures Lower(c, Work(c, key))
  {
    hide Rendered, NewPod, Backoff, FailureStatus, Touch;
  }

  lemma LowerRest(c: Cluster, key: string)
    requires c.worker.Busy?
    requires c.worker.call.ServiceApply? || c.worker.call.DenyApply? || c.worker.call.AllowApply?
          || c.worker.call.StatusGet? || c.worker.call.StatusPatch?
    ensures Lower(c, Work(c, key))
  {
    hide Desired, StatusEqual, Seen, Touch;
  }

  lemma WorkLowers(c: Cluster, key: string)
    requires c.worker.Busy?
    ensures Lower(c, Work(c, key))
  {
    hide Lower, RunDetachGet, RunDetachPatch, RunListSiblings, RunDropPolicy, RunClearFinalizer, RunAddFinalizer;
    hide RunHibernateDelete, RunSecretGet, RunSecretCreate, RunPvcApply, RunPodGet, RunFailPatch, RunFailDelete;
    hide RunDriftDelete, RunPodApply, RunServiceApply, RunDenyApply, RunAllowApply, RunStatusGet, RunStatusPatch;
    match c.worker.call
    case PvcApply => LowerPvc(c);
    case PodGet => LowerPodGet(c);
    case AddFinalizer => LowerSetup(c, key);
    case HibernateDelete => LowerSetup(c, key);
    case SecretGet => LowerSetup(c, key);
    case SecretCreate => LowerSetup(c, key);
    case FailPatch(_) => LowerPods(c, key);
    case FailDelete => LowerPods(c, key);
    case DriftDelete => LowerPods(c, key);
    case PodApply(_) => LowerPods(c, key);
    case ServiceApply(_) => LowerRest(c, key);
    case DenyApply(_) => LowerRest(c, key);
    case AllowApply(_) => LowerRest(c, key);
    case StatusGet(_) => LowerRest(c, key);
    case StatusPatch(_, _, _) => LowerRest(c, key);
    case DetachGet => LowerDetach(c, key);
    case DetachPatch(_) => LowerDetach(c, key);
    case _ => LowerDeleting(c, key);
  }

  function Remaining(c: Cluster): nat { if c.worker.Idle? then 0 else Rank(c.worker.call) + 1 }

  /** The rest of a reconcile. */
  function Finish(c: Cluster, key: string): Cluster
    decreases Remaining(c)
  {
    if c.worker.Idle? then c
    else
      WorkLowers(c, key);
      LowerRemaining(c, Work(c, key));
      Finish(Work(c, key), key)
  }

  lemma LowerRemaining(c: Cluster, c': Cluster)
    requires Lower(c, c')
    ensures Remaining(c') < Remaining(c)
  {
  }

  function Reconcile(c: Cluster, n: string, key: string): Cluster
    requires n in c.devpods && FirstCall(c.devpods[n]).Some?
  {
    Finish(DoStart(c, n), key)
  }

  lemma {:induction false} FinishRuns(c: Cluster, key: string)
    requires key != ""
    ensures Finish(c, key).worker.Idle?
    ensures exists acts :: Runs(c, acts, Finish(c, key))
    decreases Remaining(c)
  {
    hide Work, Rank;
    if c.worker.Idle? {
      assert Runs(c, [], c);
    } else {
      WorkLowers(c, key);
      LowerRemaining(c, Work(c, key));
      FinishRuns(Work(c, key), key);
      var acts :| Runs(Work(c, key), acts, Finish(Work(c, key), key));
      RunsCons(c, DoWork(key), acts, Finish(c, key));
    }
  }

  lemma {:induction false} RunsCons(c: Cluster, a: Action, acts: seq<Action>, d: Cluster)
    requires Enabled(c, a) && Runs(Apply(c, a), acts, d)
    ensures Runs(c, [a] + acts, d)
    decreases |acts|
  {
    hide Enabled, Apply;
    var all := [a] + acts;
    if acts == [] {
      assert all[..0] == [];
      assert Runs(c, [], c);
    } else {
      var k := |acts| - 1;
      var m :| Runs(Apply(c, a), acts[..k], m) && Enabled(m, acts[k]) && Apply(m, acts[k]) == d;
      RunsCons(c, a, acts[..k], m);
      assert all[..|all| - 1] == [a] + acts[..k];
      assert all[|all| - 1] == acts[k];
    }
  }

  // ----- what a reconcile of a running DevPod does -----

  function Found(n: string, dp: DevPod, pods: map<string, Pod>): Option<Pod> {
    if dp.spec.running && n in pods then Some(pods[n]) else None
  }

  function Written(devpods: map<string, DevPod>, n: string, dp: DevPod, st: Status): map<string, DevPod>
    requires n in devpods
  {
    if StatusEqual(dp.status, st) then devpods else devpods[n := Touch(devpods[n].(status := st))]
  }

  /** The reconcile is over, the Pods are these, and the status was taken from them. */
  predicate Ended(c: Cluster, r: Cluster, pods: map<string, Pod>)
    requires c.worker.Busy? && c.worker.name in c.devpods
  {
    var n, dp := c.worker.name, c.worker.dp;
    && r.worker.Idle? && r.cfg == c.cfg && r.now == c.now && r.pods == pods
    && r.devpods == Written(c.devpods, n, dp, Desired(n, dp, Found(n, dp, pods), c.now, c.cfg))
  }

  predicate SameRest(c: Cluster, r: Cluster) { r.secrets == c.secrets && r.pvcs == c.pvcs }

  lemma FinishStep(c: Cluster, key: string)
    requires c.worker.Busy?
    ensures Finish(c, key) == Finish(Work(c, key), key)
  {
    hide Work;
  }

  lemma FinishIdle(c: Cluster, key: string)
    requires c.worker.Idle?
    ensures Finish(c, key) == c
  {
  }

  lemma EndStatusPatch(c: Cluster, key: string)
    requires c.worker.Busy? && c.worker.call.StatusPatch? && c.worker.name in c.devpods
    ensures var n, r := c.worker.name, Finish(c, key);
      && r.worker.Idle? && r.cfg == c.cfg && r.now == c.now && r.pods == c.pods && SameRest(c, r)
      && r.devpods == c.devpods[n := Touch(c.devpods[n].(status := c.worker.call.desired))]
  {
    hide Finish, Touch;
    FinishStep(c, key);
    FinishIdle(Work(c, key), key);
  }

  lemma EndStatus(c: Cluster, key: string)
    requires c.worker.Busy? && c.worker.call.StatusGet? && c.worker.name in c.devpods
    ensures Ended(c, Finish(c, key), c.pods) && SameRest(c, Finish(c, key))
  {
    hide Finish, Desired, StatusEqual, Touch;
    FinishStep(c, key);
    var c1 := RunStatusGet(c, c.worker.name, c.worker.dp, c.worker.call.found);
    if c1.worker.Busy? {
      EndStatusPatch(c1, key);
    } else {
      FinishIdle(c1, key);
    }
  }

  /** The same copy in the same store, a few calls further on. */
  predicate Onward(c: Cluster, c1: Cluster) {
    && c.worker.Busy? && c1.worker.Busy? && c1.worker.name == c.worker.name && c1.worker.dp == c.worker.dp
    && c1.cfg == c.cfg && c1.now == c.now && c1.devpods == c.devpods
  }

  lemma EndedFrom(c: Cluster, c1: Cluster, r: Cluster, pods: map<string, Pod>)
    requires Onward(c, c1) && c.worker.name in c.devpods && Ended(c1, r, pods)
    ensures Ended(c, r, pods)
  {
    hide Desired, Written, Found;
  }

  lemma EndAllow(c: Cluster, key: string)
    requires c.worker.Busy? && c.worker.call.AllowApply? && c.worker.name in c.devpods
    ensures Ended(c, Finish(c, key), c.pods) && SameRest(c, Finish(c, key))
  {
    hide Finish, Ended;
    FinishStep(c, key);
    EndStatus(Work(c, key), key);
    EndedFrom(c, Work(c, key), Finish(c, key), c.pods);
  }

  lemma EndDeny(c: Cluster, key: string)
    requires c.worker.Busy? && c.worker.call.DenyApply? && c.worker.name in c.devpods
    ensures Ended(c, Finish(c, key), c.pods) && SameRest(c, Finish(c, key))
  {
    hide Finish, Ended;
    FinishStep(c, key);
    EndAllow(Work(c, key), key);
    EndedFrom(c, Work(c, key), Finish(c, key), c.pods);
  }

  lemma EndService(c: Cluster, key: string)
    requires c.worker.Busy? && c.worker.call.ServiceApply? && c.worker.name in c.devpods
    ensures Ended(c, Finish(c, key), c.pods) && SameRest(c, Finish(c, key))
  {
    hide Finish, Ended;
    FinishStep(c, key);
    if c.cfg.isolateNetwork {
      EndDeny(Work(c, key), key);
    } else {
      EndStatus(Work(c, key), key);
    }
    EndedFrom(c, Work(c, key), Finish(c, key), c.pods);
  }

  function Terminated(pods: map<string, Pod>, n: string): map<string, Pod>
    requires n in pods
  {
    pods[n := pods[n].(terminating := true)]
  }

  /** The Pods after one reconcile of a DevPod whose Pod has not failed. */
  function NextPods(c: Cluster, n: string, dp: DevPod): map<string, Pod>
    requires Rendered(c.cfg, dp).Ok?
  {
    if n in c.pods then
      if Matches(c.cfg, dp, c.pods[n]) then c.pods else Terminated(c.pods, n)
    else if BackoffBlocks(dp.status, c.now) then c.pods
    else c.pods[n := NewPod(c.cfg, dp)]
  }

  predicate PodOk(c: Cluster, n: string, dp: DevPod) {
    n in c.pods ==> c.pods[n].owner == dp.uid && c.pods[n].phase != PodFailed
  }

  lemma EndPodApply(c: Cluster, key: string)
    requires c.worker.Busy? && c.worker.call.PodApply? && c.worker.name in c.devpods
    requires Rendered(c.cfg, c.worker.dp).Ok? && PodOk(c, c.worker.name, c.worker.dp)
    ensures var n := c.worker.name;
      Ended(c, Finish(c, key), if n in c.pods then c.pods else c.pods[n := NewPod(c.cfg, c.worker.dp)])
    ensures SameRest(c, Finish(c, key))
  {
    hide Finish, Ended, NewPod, Rendered;
    FinishStep(c, key);
    EndService(Work(c, key), key);
    EndedFrom(c, Work(c, key), Finish(c, key), Work(c, key).pods);
  }

  lemma EndDrift(c: Cluster, key: string)
    requires c.worker.Busy? && c.worker.call.DriftDelete? && c.worker.name in c.devpods && c.worker.name in c.pods
    ensures Ended(c, Finish(c, key), Terminated(c.pods, c.worker.name)) && SameRest(c, Finish(c, key))
  {
    hide Finish, Ended;
    FinishStep(c, key);
    EndService(Work(c, key), key);
    EndedFrom(c, Work(c, key), Finish(c, key), Work(c, key).pods);
  }

  lemma EndPodGet(c: Cluster, key: string)
    requires c.worker.Busy? && c.worker.call.PodGet? && c.worker.name in c.devpods
    requires Rendered(c.cfg, c.worker.dp).Ok? && PodOk(c, c.worker.name, c.worker.dp)
    ensures Ended(c, Finish(c, key), NextPods(c, c.worker.name, c.worker.dp))
    ensures SameRest(c, Finish(c, key))
  {
    hide Finish, Ended, NewPod, Rendered, Matches, Backoff, BackoffBlocks;
    var n, dp := c.worker.name, c.worker.dp;
    if BackoffBlocks(dp.status, c.now) { BlockedHasMark(dp.status, c.now); }
    FinishStep(c, key);
    var c1 := Work(c, key);
    if n in c.pods {
      if Matches(c.cfg, dp, c.pods[n]) {
        EndPodApply(c1, key);
      } else {
        EndDrift(c1, key);
      }
    } else if BackoffBlocks(dp.status, c.now) {
      EndService(c1, key);
    } else {
      EndPodApply(c1, key);
    }
    EndedFrom(c, c1, Finish(c, key), NextPods(c, n, dp));
  }

  // ----- Secret and volume -----

  predicate SecretOk(c: Cluster, n: string, uid: Uid) {
    n in c.secrets ==> c.secrets[n].owner == uid && c.secrets[n].key != ""
  }

  predicate PvcOk(pvcs: map<string, seq<OwnerRef>>, n: string, dp: DevPod) {
    dp.spec.persistence.Some? && n in pvcs ==> !HasForeign(pvcs[n], dp.uid)
  }


  /** Applying it again would change nothing. */
  predicate PvcDone(pvcs: map<string, seq<OwnerRef>>, n: string, dp: DevPod) {
    dp.spec.persistence.Some? ==> n in pvcs && NamesSelf(pvcs[n], dp.uid)
  }

  function NextPvcs(pvcs: map<string, seq<OwnerRef>>, n: string, dp: DevPod): map<string, seq<OwnerRef>> {
    if PvcDone(pvcs, n, dp) then pvcs
    else pvcs[n := (if n in pvcs then pvcs[n] else []) + [SelfRef(dp.uid)]]
  }

  lemma NextPvcsDone(pvcs: map<string, seq<OwnerRef>>, n: string, dp: DevPod)
    requires PvcOk(pvcs, n, dp)
    ensures PvcOk(NextPvcs(pvcs, n, dp), n, dp) && PvcDone(NextPvcs(pvcs, n, dp), n, dp)
  {
    NamesAppended(if n in pvcs then pvcs[n] else [], dp.uid);
    hide NamesSelf;
  }

  lemma PvcApplied(c: Cluster)
    requires c.worker.Busy? && c.worker.call.PvcApply? && PvcOk(c.pvcs, c.worker.name, c.worker.dp)
    ensures RunPvcApply(c, c.worker.name, c.worker.dp) == At(c.(pvcs := NextPvcs(c.pvcs, c.worker.name, c.worker.dp)), PodGet)
  {
    hide NamesSelf;
    var self := SelfRef(c.worker.dp.uid);
    assert [] + [self] == [self];
  }

  lemma NamesAppended(refs: seq<OwnerRef>, uid: Uid)
    ensures NamesSelf(refs + [SelfRef(uid)], uid)
  {
    assert (refs + [SelfRef(uid)])[|refs|] == SelfRef(uid);
    assert IsSelf(SelfRef(uid), uid);
  }

  predicate Provisioned(c: Cluster, r: Cluster, n: string, dp: DevPod) {
    && PvcOk(r.pvcs, n, dp) && PvcDone(r.pvcs, n, dp)
    && r.pvcs == NextPvcs(c.pvcs, n, dp)
    && (n in c.secrets ==> r.secrets == c.secrets)
    && n in r.secrets && SecretOk(r, n, dp.uid)
  }

  lemma EndPvc(c: Cluster, key: string)
    requires c.worker.Busy? && c.worker.call.PvcApply? && c.worker.name in c.devpods
    requires Rendered(c.cfg, c.worker.dp).Ok? && PodOk(c, c.worker.name, c.worker.dp)
    requires PvcOk(c.pvcs, c.worker.name, c.worker.dp) && c.worker.name in c.secrets && SecretOk(c, c.worker.name, c.worker.dp.uid)
    ensures Ended(c, Finish(c, key), NextPods(c, c.worker.name, c.worker.dp))
    ensures Provisioned(c, Finish(c, key), c.worker.name, c.worker.dp)
  {
    hide Finish, Ended, NewPod, Rendered, Matches, BackoffBlocks, RunPvcApply, NamesSelf;
    FinishStep(c, key);
    var c1 := RunPvcApply(c, c.worker.name, c.worker.dp);
    PvcApplied(c);
    NextPvcsDone(c.pvcs, c.worker.name, c.worker.dp);
    EndPodGet(c1, key);
    EndedFrom(c, c1, Finish(c, key), NextPods(c, c.worker.name, c.worker.dp));
  }

  lemma EndSecretCreate(c: Cluster, key: string)
    requires c.worker.Busy? && c.worker.call.SecretCreate? && c.worker.name in c.devpods && key != ""
    requires Rendered(c.cfg, c.worker.dp).Ok? && PodOk(c, c.worker.name, c.worker.dp)
    requires PvcOk(c.pvcs, c.worker.name, c.worker.dp) && SecretOk(c, c.worker.name, c.worker.dp.uid)
    ensures Ended(c, Finish(c, key), NextPods(c, c.worker.name, c.worker.dp))
    ensures Provisioned(c, Finish(c, key), c.worker.name, c.worker.dp)
  {
    hide Finish, Ended, NewPod, Rendered, Matches, BackoffBlocks, NamesSelf;
    FinishStep(c, key);
    EndPvc(Work(c, key), key);
    EndedFrom(c, Work(c, key), Finish(c, key), NextPods(c, c.worker.name, c.worker.dp));
  }

  lemma EndSecretGet(c: Cluster, key: string)
    requires c.worker.Busy? && c.worker.call.SecretGet? && c.worker.name in c.devpods && key != ""
    requires Rendered(c.cfg, c.worker.dp).Ok? && PodOk(c, c.worker.name, c.worker.dp)
    requires PvcOk(c.pvcs, c.worker.name, c.worker.dp) && SecretOk(c, c.worker.name, c.worker.dp.uid)
    ensures Ended(c, Finish(c, key), NextPods(c, c.worker.name, c.worker.dp))
    ensures Provisioned(c, Finish(c, key), c.worker.name, c.worker.dp)
  {
    hide Finish, Ended, NewPod, Rendered, Matches, BackoffBlocks, NamesSelf;
    FinishStep(c, key);
    if c.worker.name in c.secrets {
      EndPvc(Work(c, key), key);
    } else {
      EndSecretCreate(Work(c, key), key);
    }
    EndedFrom(c, Work(c, key), Finish(c, key), NextPods(c, c.worker.name, c.worker.dp));
  }

  // ----- a failed Pod -----

  /** Handling a failed Pod: it is deleted and the failure is counted and dated. */
  predicate Counted(c: Cluster, r: Cluster)
    requires c.worker.Busy? && c.worker.name in c.devpods && c.worker.name in c.pods
  {
    var n, dp := c.worker.name, c.worker.dp;
    && r.worker.Idle? && r.cfg == c.cfg && r.now == c.now && r.pods == Terminated(c.pods, n) && SameRest(c, r)
    && n in r.devpods && r.devpods[n].uid == c.devpods[n].uid && r.devpods[n].spec == c.devpods[n].spec
    && r.devpods[n].deleting == c.devpods[n].deleting && r.devpods[n].finalizer == c.devpods[n].finalizer
    && r.devpods.Keys == c.devpods.Keys
    && r.devpods[n].status.lastFailureAt == Some(c.now) && r.devpods[n].status.retryCount == dp.status.retryCount + 1
    && r.devpods[n].status.phase == Failed && r.devpods[n].status.endpoint == NoEndpoint
    && r.devpods[n].status.message == c.pods[n].message
  }

  lemma FailedStatus(n: string, dp: DevPod, p: Pod, now: int, cfg: Config)
    requires p.phase == PodFailed && dp.spec.running
    ensures var st := Desired(n, dp, Some(p), now, cfg);
      st.lastFailureAt == dp.status.lastFailureAt && st.retryCount == dp.status.retryCount && st.phase == Failed &&
      st.endpoint == NoEndpoint && st.message == dp.status.message
  {
    hide BackendPort;
  }

  lemma EndFailDelete(c: Cluster, key: string)
    requires c.worker.Busy? && c.worker.call.FailDelete? && c.worker.name in c.devpods && c.worker.name in c.pods
    ensures Ended(c, Finish(c, key), Terminated(c.pods, c.worker.name)) && SameRest(c, Finish(c, key))
  {
    hide Finish, Ended, Backoff;
    FinishStep(c, key);
    EndService(Work(c, key), key);
    EndedFrom(c, Work(c, key), Finish(c, key), Work(c, key).pods);
  }

  lemma EndFailPatch(c: Cluster, key: string)
    requires c.worker.Busy? && c.worker.call.FailPatch? && c.worker.name in c.devpods && c.worker.name in c.pods
    requires c.pods[c.worker.name].phase == PodFailed && c.devpods[c.worker.name].spec.running
    requires c.worker.call.pod == c.pods[c.worker.name]
    ensures Counted(c, Finish(c, key))
  {
    hide Finish, Desired;
    FinishStep(c, key);
    var n := c.worker.name;
    var c1 := RunFailPatch(c, n, c.worker.dp, c.worker.call.pod);
    EndFailDelete(c1, key);
    var dp := c1.devpods[n];
    FailedStatus(n, dp, Terminated(c.pods, n)[n], c.now, c.cfg);
  }

  lemma EndFailedGet(c: Cluster, key: string)
    requires c.worker.Busy? && c.worker.call.PodGet? && c.worker.name in c.devpods && c.worker.name in c.pods
    requires Rendered(c.cfg, c.worker.dp).Ok?
    requires c.pods[c.worker.name].phase == PodFailed && c.devpods[c.worker.name].spec.running
    ensures Counted(c, Finish(c, key))
  {
    hide Finish, Counted, Rendered, Backoff, BackoffBlocks;
    FinishStep(c, key);
    EndFailPatch(Work(c, key), key);
    CountedFrom(c, Work(c, key), Finish(c, key));
  }

  lemma CountedFrom(c: Cluster, c1: Cluster, r: Cluster)
    requires Onward(c, c1) && c.worker.name in c.devpods && c.worker.name in c.pods && c1.pods == c.pods
    requires c1.pvcs == c.pvcs && c1.secrets == c.secrets && Counted(c1, r)
    ensures Counted(c, r)
  {
  }
}
