/** What every reachable store satisfies, whatever users, kubelet and collector interleave. */
module ControllerInvariants {
  import opened Wrappers
  import opened Render
  import opened Controller

  predicate Deleting(call: Call) {
    call.DetachGet? || call.DetachPatch? || call.ListSiblings? || call.DropPolicy? || call.ClearFinalizer?
  }

  // ----- the parts of the invariant -----

  ghost predicate Uids(c: Cluster) {
    && (forall n :: n in c.devpods ==> c.devpods[n].uid in c.usedUids)
    && (forall m, n :: m in c.devpods && n in c.devpods && c.devpods[m].uid == c.devpods[n].uid ==> m == n)
    && c.applied <= c.usedUids
    && (c.worker.Busy? ==> c.worker.dp.uid in c.usedUids)
  }

  /** The reconciler's copy and the stored object: only the worker writes status
      and removes finalizers, so the object stays and keeps its status. */
  predicate Backed(d: DevPod, dp: DevPod) {
    && d.uid == dp.uid
    && d.finalizer
    && d.status == dp.status
    && d.spec.owner == dp.spec.owner
    && (dp.deleting ==> d.deleting)
  }

  /** The copy is the stored object unless the store has moved on. */
  predicate Fresh(d: DevPod, dp: DevPod) {
    dp.version <= d.version && (dp.version == d.version ==> d == dp)
  }

  ghost predicate Coherent(c: Cluster) {
    && (forall n :: n in c.devpods && c.devpods[n].deleting ==> c.devpods[n].finalizer)
    && (c.worker.Busy? ==>
          var name, dp, call := c.worker.name, c.worker.dp, c.worker.call;
          && (Deleting(call) ==> dp.deleting)
          && (call.AddFinalizer? ==> !dp.deleting)
          && (name in c.devpods && c.devpods[name].uid == dp.uid ==>
                Fresh(c.devpods[name], dp))
          && (!call.AddFinalizer? ==> name in c.devpods && Backed(c.devpods[name], dp)))
  }

  /** The phase that what a reconcile saw calls for. */
  function PhaseOf(e: Evidence): Phase {
    match e.pod
    case None => if e.spec.running then Pending else Stopped
    case Some(p) =>
      if p.phase == PodRunning && p.ip != "" then Running
      else if p.phase == PodFailed then Failed
      else Pending
  }

  /** What each phase says about the rest of the status, and what it was seen from. */
  predicate StatusOk(cfg: Config, name: string, uid: Uid, st: Status, e: Option<Evidence>) {
    && (st.phase != NoPhase ==> e.Some? && st.phase == PhaseOf(e.value))
    && (st.phase == Stopped ==>
          st.endpoint == NoEndpoint && st.workloadRef == None && st.hibernatedAt.Some? &&
          st.retryCount == 0 && st.lastFailureAt == None && st.message == "")
    && (st.phase == Pending ==> st.endpoint == NoEndpoint && st.hibernatedAt == None && st.lastFailureAt == None)
    && (st.phase == Running ==>
          && st.hibernatedAt == None && st.retryCount == 0 && st.lastFailureAt == None && st.message == ""
          && st.workloadRef == Some(name)
          && e.Some? && e.value.pod.Some? && e.value.spec.running
          && e.value.pod.value.phase == PodRunning && e.value.pod.value.ip != ""
          && st.endpoint == Endpoint(e.value.pod.value.ip, BackendPort(UidText(uid), e.value.spec, cfg))
          && (e.value.found == Same ==> e.value.pod.value.owner == uid)
          && (e.value.found != Drifted ==> RenderPod(UidText(uid), e.value.spec, cfg) == Ok(e.value.pod.value.hash)))
  }

  function EvidenceOf(c: Cluster, uid: Uid): Option<Evidence> {
    if uid in c.evidence then Some(c.evidence[uid]) else None
  }

  ghost predicate Statuses(c: Cluster) {
    forall n :: n in c.devpods ==>
      StatusOk(c.cfg, n, c.devpods[n].uid, c.devpods[n].status, EvidenceOf(c, c.devpods[n].uid))
  }

  /** Sound knowledge about the Pod, carried from one call to the next. */
  predicate LookupOk(cfg: Config, pods: map<string, Pod>, name: string, dp: DevPod, found: Lookup) {
    match found
    case Skipped => !dp.spec.running
    case Absent => name !in pods
    case Same => name in pods ==> Matches(cfg, dp, pods[name])
    case Drifted => true
    case Broken => name in pods ==> pods[name].phase == PodFailed
  }

  /** A Pod that was applied is this DevPod's own. */
  predicate OwnPod(pods: map<string, Pod>, name: string, dp: DevPod, found: Lookup) {
    found == Same && name in pods ==> pods[name].owner == dp.uid
  }

  predicate KeepsHibernation(before: Status, after: Status) {
    before.phase == Stopped && after.phase == Stopped ==> after.hibernatedAt == before.hibernatedAt
  }

  predicate Knows(cfg: Config, pods: map<string, Pod>, name: string, dp: DevPod, call: Call) {
    match call
    case FailPatch(p) => LookupOk(cfg, pods, name, dp, Broken) && p.phase == PodFailed
    case FailDelete => LookupOk(cfg, pods, name, dp, Broken)
    case PodApply(found) => (found == Same || found == Absent) && LookupOk(cfg, pods, name, dp, found)
    case ServiceApply(found) => LookupOk(cfg, pods, name, dp, found) && OwnPod(pods, name, dp, found)
    case DenyApply(found) => LookupOk(cfg, pods, name, dp, found) && OwnPod(pods, name, dp, found)
    case AllowApply(found) => LookupOk(cfg, pods, name, dp, found) && OwnPod(pods, name, dp, found)
    case StatusGet(found) => LookupOk(cfg, pods, name, dp, found) && OwnPod(pods, name, dp, found)
    case HibernateDelete => !dp.spec.running
    case StatusPatch(desired, seen, found) =>
      StatusOk(cfg, name, dp.uid, desired, Some(Evidence(seen, dp.spec, found))) &&
      KeepsHibernation(dp.status, desired)
    case _ => true
  }

  predicate Knowledge(c: Cluster) {
    c.worker.Busy? ==> Knows(c.cfg, c.pods, c.worker.name, c.worker.dp, c.worker.call)
  }

  ghost predicate NoneApplied(c: Cluster, owner: string) {
    forall n :: n in c.devpods && !c.devpods[n].deleting && c.devpods[n].uid in c.applied ==>
      c.devpods[n].spec.owner != owner
  }

  /** The owner's allow policy is there for every live DevPod that applied it. */
  ghost predicate Covered(c: Cluster) {
    && (forall n :: n in c.devpods && !c.devpods[n].deleting && c.devpods[n].uid in c.applied ==>
          c.devpods[n].spec.owner in c.net.policies)
    && (c.worker.Busy? && c.worker.call.DropPolicy? ==> NoneApplied(c, c.worker.dp.spec.owner))
  }

  /** The detach patch goes out only to drop a reference to this DevPod, which holds the
      volume until then; by the time the finalizer goes the volume no longer names it. */
  predicate Detaching(c: Cluster) {
    c.worker.Busy? ==>
      var name, dp, call := c.worker.name, c.worker.dp, c.worker.call;
      && (call.DetachPatch? ==> name in c.pvcs && NamesSelf(c.pvcs[name], dp.uid))
      && (call.ListSiblings? || call.DropPolicy? || call.ClearFinalizer? ==>
            dp.spec.persistence.Some? && name in c.pvcs ==> !NamesSelf(c.pvcs[name], dp.uid))
  }

  ghost predicate Inv(c: Cluster) {
    Uids(c) && Coherent(c) && Statuses(c) && Knowledge(c) && Covered(c) && Detaching(c)
  }

  // ----- calls that leave the DevPods and their histories alone -----

  predicate SameDevPods(c: Cluster, c': Cluster) {
    c'.devpods == c.devpods && c'.usedUids == c.usedUids && c'.evidence == c.evidence && c'.cfg == c.cfg
  }

  /** The worker went on to another call of the same reconcile, or stopped. */
  predicate SameReconcile(c: Cluster, c': Cluster) {
    c.worker.Busy? &&
    (c'.worker.Idle? ||
      (&& c'.worker.name == c.worker.name && c'.worker.dp == c.worker.dp
       && !c'.worker.call.AddFinalizer? && !c.worker.call.AddFinalizer?
       && (Deleting(c'.worker.call) ==> Deleting(c.worker.call))))
  }

  lemma FrameUids(c: Cluster, c': Cluster)
    requires Uids(c) && SameDevPods(c, c') && SameReconcile(c, c')
    requires c'.applied <= c.applied + {c.worker.dp.uid}
    ensures Uids(c')
  {
  }

  lemma FrameCoherent(c: Cluster, c': Cluster)
    requires Coherent(c) && SameDevPods(c, c') && SameReconcile(c, c')
    ensures Coherent(c')
  {
  }

  lemma FrameStatuses(c: Cluster, c': Cluster)
    requires Statuses(c) && SameDevPods(c, c')
    ensures Statuses(c')
  {
    hide StatusOk;
  }

  lemma StopKeeps(c: Cluster, c1: Cluster)
    requires Inv(c) && SameDevPods(c, c1) && c1.net.policies == c.net.policies && c1.applied == c.applied
    ensures Inv(Stop(c1))
  {
    hide StatusOk, Fresh, Backed, Knows, NamesSelf;
  }

  /** A call that touches neither DevPods nor policies and goes on to one that does not delete. */
  lemma QuietAt(c: Cluster, c1: Cluster, next: Call)
    requires Inv(c) && c.worker.Busy? && !c.worker.call.AddFinalizer?
    requires SameDevPods(c, c1) && c1.worker == c.worker && c1.net.policies == c.net.policies && c1.applied == c.applied
    requires !Deleting(next) && !next.AddFinalizer? && Knows(c1.cfg, c1.pods, c.worker.name, c.worker.dp, next)
    ensures Inv(At(c1, next))
  {
    hide Uids, Coherent, Statuses, LookupOk, StatusOk;
    var c' := At(c1, next);
    FrameUids(c, c');
    FrameCoherent(c, c');
    FrameStatuses(c, c');
  }

  // ----- applying the objects -----

  lemma KnowsAfterStatusGet(c: Cluster, name: string, dp: DevPod, found: Lookup)
    requires LookupOk(c.cfg, c.pods, name, dp, found) && OwnPod(c.pods, name, dp, found) && StatusOk(c.cfg, name, dp.uid, dp.status, EvidenceOf(c, dp.uid))
    ensures var desired := Desired(name, dp, Seen(c, name, dp), c.now, c.cfg);
            Knows(c.cfg, c.pods, name, dp, StatusPatch(desired, Seen(c, name, dp), found))
  {
    hide BackendPort, RenderPod;
  }

  lemma StatusGetKeeps(c: Cluster)
    requires Inv(c) && c.worker.Busy? && c.worker.call.StatusGet?
    ensures Inv(RunStatusGet(c, c.worker.name, c.worker.dp, c.worker.call.found))
  {
    hide Uids, Covered, Desired, StatusEqual, StatusOk, LookupOk, Seen, Fresh, Backed, At, Stop;
    var name, dp, found := c.worker.name, c.worker.dp, c.worker.call.found;
    BackedStatusOk(c);
    KnowsAfterStatusGet(c, name, dp, found);
    var desired := Desired(name, dp, Seen(c, name, dp), c.now, c.cfg);
    StopKeeps(c, c);
    QuietAt(c, c, StatusPatch(desired, Seen(c, name, dp), found));
  }

  lemma BackedStatusOk(c: Cluster)
    requires Coherent(c) && Statuses(c) && c.worker.Busy? && !c.worker.call.AddFinalizer?
    ensures StatusOk(c.cfg, c.worker.name, c.worker.dp.uid, c.worker.dp.status, EvidenceOf(c, c.worker.dp.uid))
  {
    hide StatusOk;
  }

  lemma NewPodMatches(cfg: Config, dp: DevPod)
    requires Rendered(cfg, dp).Ok?
    ensures Matches(cfg, dp, NewPod(cfg, dp)) && NewPod(cfg, dp).owner == dp.uid
  {
  }

  lemma PodGetKeeps(c: Cluster)
    requires Inv(c) && c.worker.Busy? && c.worker.call.PodGet?
    ensures Inv(RunPodGet(c, c.worker.name, c.worker.dp))
  {
    hide Inv, StatusOk, Backoff, BackoffBlocks, Rendered, Matches, At, Stop;
    var name, dp := c.worker.name, c.worker.dp;
    if Rendered(c.cfg, dp).Err? {
      StopKeeps(c, c);
    } else if name in c.pods {
      if c.pods[name].phase == PodFailed {
        QuietAt(c, c, FailPatch(c.pods[name]));
      } else if !Matches(c.cfg, dp, c.pods[name]) {
        QuietAt(c, c, DriftDelete);
      } else {
        QuietAt(c, c, PodApply(Same));
      }
    } else if BackoffBlocks(dp.status, c.now) {
      BlockedHasMark(dp.status, c.now);
      QuietAt(c, c.(requeueAfter := Backoff(dp.status.retryCount) - (c.now - dp.status.lastFailureAt.value)),
              ServiceApply(Absent));
    } else {
      QuietAt(c, c, PodApply(Absent));
    }
  }

  lemma BlockedHasMark(st: Status, now: int)
    requires BackoffBlocks(st, now)
    ensures st.lastFailureAt.Some?
  {
  }

  lemma PodApplyKeeps(c: Cluster)
    requires Inv(c) && c.worker.Busy? && c.worker.call.PodApply?
    ensures Inv(RunPodApply(c, c.worker.name, c.worker.dp))
  {
    hide Uids, Coherent, Statuses, Covered, Detaching, StatusOk, Rendered, Matches, NewPod, At, Stop;
    var name, dp := c.worker.name, c.worker.dp;
    if Rendered(c.cfg, dp).Err? {
      StopKeeps(c, c);
    } else if name !in c.pods {
      NewPodMatches(c.cfg, dp);
      QuietAt(c, c.(pods := c.pods[name := NewPod(c.cfg, dp)]), ServiceApply(Same));
    } else if c.pods[name].owner != dp.uid {
      StopKeeps(c, c);
    } else {
      QuietAt(c, c, ServiceApply(Same));
    }
  }

  lemma SecretGetKeeps(c: Cluster)
    requires Inv(c) && c.worker.Busy? && c.worker.call.SecretGet?
    ensures Inv(RunSecretGet(c, c.worker.name, c.worker.dp))
  {
    hide Inv, At, Stop;
    StopKeeps(c, c);
    QuietAt(c, c, SecretCreate);
    QuietAt(c, c, PvcApply);
  }

  lemma SecretCreateKeeps(c: Cluster, key: string)
    requires Inv(c) && c.worker.Busy? && c.worker.call.SecretCreate?
    ensures Inv(RunSecretCreate(c, c.worker.name, c.worker.dp, key))
  {
    hide Inv, At, Stop;
    QuietAt(c, c, PvcApply);
    QuietAt(c, c.(secrets := c.secrets[c.worker.name := Secret(c.worker.dp.uid, key)]), PvcApply);
  }

  lemma PvcApplyKeeps(c: Cluster)
    requires Inv(c) && c.worker.Busy? && c.worker.call.PvcApply?
    ensures Inv(RunPvcApply(c, c.worker.name, c.worker.dp))
  {
    hide Inv, At, Stop, NamesSelf;
    var name, dp := c.worker.name, c.worker.dp;
    var self := SelfRef(dp.uid);
    StopKeeps(c, c);
    QuietAt(c, c, PodGet);
    QuietAt(c, c.(pvcs := c.pvcs[name := [self]]), PodGet);
    if name in c.pvcs {
      QuietAt(c, c.(pvcs := c.pvcs[name := c.pvcs[name] + [self]]), PodGet);
    }
  }

  lemma DriftDeleteKeeps(c: Cluster)
    requires Inv(c) && c.worker.Busy? && c.worker.call.DriftDelete?
    ensures Inv(RunDriftDelete(c, c.worker.name))
  {
    hide Inv, At;
    QuietAt(c, DeletePod(c, c.worker.name), ServiceApply(Drifted));
  }

  lemma FailDeleteKeeps(c: Cluster)
    requires Inv(c) && c.worker.Busy? && c.worker.call.FailDelete?
    ensures Inv(RunFailDelete(c, c.worker.name, c.worker.dp))
  {
    hide Uids, Coherent, Statuses, Covered, Detaching, At, Backoff;
    QuietAt(c, DeletePod(c, c.worker.name).(requeueAfter := Backoff(c.worker.dp.status.retryCount)), ServiceApply(Broken));
  }

  lemma HibernateKeeps(c: Cluster)
    requires Inv(c) && c.worker.Busy? && c.worker.call.HibernateDelete?
    ensures Inv(RunHibernateDelete(c, c.worker.name))
  {
    hide Uids, Coherent, Statuses, Covered, Detaching, At;
    QuietAt(c, DeletePod(c, c.worker.name), StatusGet(Skipped));
  }

  lemma ServiceApplyKeeps(c: Cluster)
    requires Inv(c) && c.worker.Busy? && c.worker.call.ServiceApply?
    ensures Inv(RunServiceApply(c, c.worker.name, c.worker.call.found))
  {
    hide Uids, Coherent, Statuses, Covered, Detaching, At, Matches;
    var c1 := c.(net := c.net.(services := c.net.services + {c.worker.name}));
    QuietAt(c, c1, if c.cfg.isolateNetwork then DenyApply(c.worker.call.found) else StatusGet(c.worker.call.found));
  }

  lemma DenyApplyKeeps(c: Cluster)
    requires Inv(c) && c.worker.Busy? && c.worker.call.DenyApply?
    ensures Inv(RunDenyApply(c, c.worker.call.found))
  {
    hide Uids, Coherent, Statuses, Covered, Detaching, At, Matches;
    QuietAt(c, c.(net := c.net.(defaultDeny := true)), AllowApply(c.worker.call.found));
  }

  // ----- policies -----

  lemma AllowApplyKeeps(c: Cluster)
    requires Inv(c) && c.worker.Busy? && c.worker.call.AllowApply?
    ensures Inv(RunAllowApply(c, c.worker.dp, c.worker.call.found))
  {
    var c' := RunAllowApply(c, c.worker.dp, c.worker.call.found);
    FrameUids(c, c');
    FrameCoherent(c, c');
    FrameStatuses(c, c');
    CoveredAfterAllow(c);
    hide Uids, Statuses, Coherent, Covered, StatusOk, Matches;
  }

  lemma CoveredAfterAllow(c: Cluster)
    requires Uids(c) && Coherent(c) && Covered(c) && c.worker.Busy? && c.worker.call.AllowApply?
    ensures Covered(RunAllowApply(c, c.worker.dp, c.worker.call.found))
  {
    hide Fresh;
    var c', dp := RunAllowApply(c, c.worker.dp, c.worker.call.found), c.worker.dp;
    forall n | n in c'.devpods && !c'.devpods[n].deleting && c'.devpods[n].uid in c'.applied
      ensures c'.devpods[n].spec.owner in c'.net.policies
    {
      if c.devpods[n].uid == dp.uid {
        assert c.devpods[c.worker.name].uid == dp.uid;
        assert n == c.worker.name;
      }
    }
  }

  lemma NobodyApplied(c: Cluster)
    requires Coherent(c) && Uids(c) && c.worker.Busy? && c.worker.call.ListSiblings?
    requires !LiveSibling(c.devpods, c.worker.dp.spec.owner, c.worker.dp.uid)
    ensures NoneApplied(c, c.worker.dp.spec.owner)
  {
    hide Fresh;
    forall n | n in c.devpods && !c.devpods[n].deleting && c.devpods[n].uid in c.applied
      ensures c.devpods[n].spec.owner != c.worker.dp.spec.owner
    {
      assert c.devpods[c.worker.name].deleting;
    }
  }

  /** Going on after the sibling list, or after the drop. */
  lemma SiblingsAt(c: Cluster, c1: Cluster, next: Call)
    requires Inv(c) && c.worker.Busy? && (c.worker.call.ListSiblings? || c.worker.call.DropPolicy?)
    requires SameDevPods(c, c1) && c1.worker == c.worker && c1.applied == c.applied && c1.pvcs == c.pvcs
    requires next.DropPolicy? || next.ClearFinalizer?
    requires Covered(At(c1, next))
    ensures Inv(At(c1, next))
  {
    hide Uids, Coherent, Statuses, Covered, NamesSelf;
    var c' := At(c1, next);
    FrameUids(c, c');
    FrameCoherent(c, c');
    FrameStatuses(c, c');
  }

  lemma ListSiblingsKeeps(c: Cluster)
    requires Inv(c) && c.worker.Busy? && c.worker.call.ListSiblings?
    ensures Inv(RunListSiblings(c, c.worker.dp))
  {
    hide Uids, Coherent, Statuses, Knowledge, Detaching, LiveSibling, At;
    if LiveSibling(c.devpods, c.worker.dp.spec.owner, c.worker.dp.uid) {
      SiblingsCovered(c, ClearFinalizer);
      SiblingsAt(c, c, ClearFinalizer);
    } else {
      NobodyApplied(c);
      SiblingsCovered(c, DropPolicy);
      SiblingsAt(c, c, DropPolicy);
    }
  }

  lemma SiblingsCovered(c: Cluster, next: Call)
    requires Covered(c) && c.worker.Busy? && (next.DropPolicy? ==> NoneApplied(c, c.worker.dp.spec.owner))
    ensures Covered(At(c, next))
  {
  }

  lemma DropPolicyKeeps(c: Cluster)
    requires Inv(c) && c.worker.Busy? && c.worker.call.DropPolicy?
    ensures Inv(RunDropPolicy(c, c.worker.dp))
  {
    hide StatusOk, Matches, NamesSelf, Statuses, Fresh, Backed;
    var c' := RunDropPolicy(c, c.worker.dp);
    FrameUids(c, c');
    FrameCoherent(c, c');
    FrameStatuses(c, c');
  }

  // ----- deletion -----

  lemma DetachKeeps(c: Cluster)
    requires Inv(c) && c.worker.Busy? && c.worker.call.DetachGet?
    ensures Inv(RunDetachGet(c, c.worker.name, c.worker.dp))
  {
    hide StatusOk, NamesSelf, Statuses, Uids, Coherent;
    var c' := RunDetachGet(c, c.worker.name, c.worker.dp);
    FrameUids(c, c');
    FrameCoherent(c, c');
    FrameStatuses(c, c');
  }

  lemma OthersDoNotNameSelf(refs: seq<OwnerRef>, uid: Uid)
    ensures !NamesSelf(OtherOwners(refs, uid), uid)
  {
    OtherOwnersExact(refs, uid);
  }

  lemma DetachPatchKeeps(c: Cluster)
    requires Inv(c) && c.worker.Busy? && c.worker.call.DetachPatch?
    ensures Inv(RunDetachPatch(c, c.worker.name, c.worker.dp, c.worker.call.refs))
  {
    hide StatusOk, NamesSelf, Statuses, Uids, Coherent, OtherOwners;
    var c' := RunDetachPatch(c, c.worker.name, c.worker.dp, c.worker.call.refs);
    OthersDoNotNameSelf(c.worker.call.refs, c.worker.dp.uid);
    FrameUids(c, c');
    FrameCoherent(c, c');
    FrameStatuses(c, c');
  }

  // ----- steps that write or remove one DevPod -----

  /** Some DevPods may be gone; the others keep what the predicate names. */
  ghost predicate Fewer(c: Cluster, c': Cluster) {
    && c'.usedUids == c.usedUids && c'.applied == c.applied && c'.evidence == c.evidence && c'.cfg == c.cfg
    && c'.net.policies == c.net.policies && c'.pods == c.pods && c'.pvcs == c.pvcs
    && forall n :: n in c'.devpods ==>
         n in c.devpods && c'.devpods[n].uid == c.devpods[n].uid && c'.devpods[n].spec.owner == c.devpods[n].spec.owner &&
         (c.devpods[n].deleting ==> c'.devpods[n].deleting)
  }

  lemma FewerUids(c: Cluster, c': Cluster)
    requires Uids(c) && Fewer(c, c') && (c'.worker == c.worker || c'.worker.Idle?)
    ensures Uids(c')
  {
  }

  lemma FewerCovered(c: Cluster, c': Cluster)
    requires Covered(c) && Fewer(c, c') && (c'.worker == c.worker || c'.worker.Idle?)
    ensures Covered(c')
  {
  }

  lemma FewerStatuses(c: Cluster, c': Cluster)
    requires Statuses(c) && Fewer(c, c')
    requires forall n :: n in c'.devpods ==> c'.devpods[n].status == c.devpods[n].status
    ensures Statuses(c')
  {
    hide StatusOk;
    forall n | n in c'.devpods
      ensures StatusOk(c'.cfg, n, c'.devpods[n].uid, c'.devpods[n].status, EvidenceOf(c', c'.devpods[n].uid))
    {
      assert StatusOk(c.cfg, n, c.devpods[n].uid, c.devpods[n].status, EvidenceOf(c, c.devpods[n].uid));
    }
  }

  /** What Fewer steps leave to show: the worker's copy and the finalizers. */
  lemma FewerKeeps(c: Cluster, c': Cluster)
    requires Inv(c) && Fewer(c, c') && Coherent(c') && (c'.worker == c.worker || c'.worker.Idle?)
    requires forall n :: n in c'.devpods ==> c'.devpods[n].status == c.devpods[n].status
    ensures Inv(c')
  {
    FewerUids(c, c');
    FewerCovered(c, c');
    FewerStatuses(c, c');
    hide Uids, Coherent, Covered, Statuses, Fewer;
    FewerLocal(c, c');
  }

  lemma FewerLocal(c: Cluster, c': Cluster)
    requires Knowledge(c) && Detaching(c) && Fewer(c, c') && (c'.worker == c.worker || c'.worker.Idle?)
    ensures Knowledge(c') && Detaching(c')
  {
    hide Knows, NamesSelf;
  }

  lemma ClearFinalizerKeeps(c: Cluster)
    requires Inv(c) && c.worker.Busy? && c.worker.call.ClearFinalizer?
    ensures Inv(RunClearFinalizer(c, c.worker.name, c.worker.dp))
  {
    hide Uids, Statuses, Covered, Knowledge, Detaching, Fresh, Backed;
    FewerKeeps(c, RunClearFinalizer(c, c.worker.name, c.worker.dp));
  }

  lemma AddFinalizerCoherent(c: Cluster)
    requires Coherent(c) && c.worker.Busy? && c.worker.call.AddFinalizer?
    ensures Coherent(RunAddFinalizer(c, c.worker.name, c.worker.dp))
  {
    hide Fresh, Backed;
  }

  lemma AddFinalizerKeeps(c: Cluster)
    requires Inv(c) && c.worker.Busy? && c.worker.call.AddFinalizer?
    ensures Inv(RunAddFinalizer(c, c.worker.name, c.worker.dp))
  {
    hide Uids, Statuses, Covered, Knowledge, Detaching, Coherent;
    AddFinalizerCoherent(c);
    FewerKeeps(c, RunAddFinalizer(c, c.worker.name, c.worker.dp));
  }

  lemma EditKeeps(c: Cluster, n: string, spec: Spec)
    requires Inv(c) && Enabled(c, UserEdit(n, spec))
    ensures Inv(DoUserEdit(c, n, spec))
  {
    hide Uids, Statuses, Covered, Knowledge, Detaching;
    FewerKeeps(c, DoUserEdit(c, n, spec));
  }

  lemma DeleteCoherent(c: Cluster, n: string)
    requires Coherent(c) && n in c.devpods && !c.devpods[n].deleting
    ensures Coherent(DoUserDelete(c, n))
  {
  }

  lemma DeleteKeeps(c: Cluster, n: string)
    requires Inv(c) && n in c.devpods && !c.devpods[n].deleting
    ensures Inv(DoUserDelete(c, n))
  {
    hide Uids, Statuses, Covered, Knowledge, Detaching, Coherent;
    DeleteCoherent(c, n);
    FewerKeeps(c, DoUserDelete(c, n));
  }

  // ----- status writes -----

  lemma FailPatchKeeps(c: Cluster)
    requires Inv(c) && c.worker.Busy? && c.worker.call.FailPatch?
    ensures Inv(RunFailPatch(c, c.worker.name, c.worker.dp, c.worker.call.pod))
  {
    hide NamesSelf, StatusOk, Statuses, Matches, Rendered;
    FailPatchStatuses(c);
  }

  lemma FailPatchStatuses(c: Cluster)
    requires Inv(c) && c.worker.Busy? && c.worker.call.FailPatch?
    ensures Statuses(RunFailPatch(c, c.worker.name, c.worker.dp, c.worker.call.pod))
  {
    hide NamesSelf, RenderPod, BackendPort, Matches, Covered, Detaching;
  }

  lemma StatusPatchKeeps(c: Cluster)
    requires Inv(c) && c.worker.Busy? && c.worker.call.StatusPatch?
    ensures var call := c.worker.call;
      Inv(RunStatusPatch(c, c.worker.name, c.worker.dp, call.desired, Evidence(call.seen, c.worker.dp.spec, call.found)))
  {
    hide NamesSelf, StatusOk, Fresh, Matches;
  }

  // ----- users, kubelet, collector -----

  lemma CreateKeeps(c: Cluster, n: string, uid: Uid, spec: Spec)
    requires Inv(c) && Enabled(c, UserCreate(n, uid, spec))
    ensures Inv(DoUserCreate(c, n, uid, spec))
  {
    hide Knows, NamesSelf, Fresh, Backed;
  }

  lemma StartKeeps(c: Cluster, n: string)
    requires Inv(c) && Enabled(c, Start(n))
    ensures Inv(DoStart(c, n))
  {
    hide StatusOk, NamesSelf;
  }

  /** Steps that only move Pods, Secrets, volumes or the clock. */
  lemma ObjectsKeep(c: Cluster, c': Cluster)
    requires Inv(c) && SameDevPods(c, c') && c'.worker == c.worker && c'.net.policies == c.net.policies && c'.applied == c.applied
    requires Knowledge(c') && Detaching(c')
    ensures Inv(c')
  {
    hide StatusOk, Knowledge, Detaching, Fresh, Backed;
  }

  /** A Pod may disappear or change, but never comes back from failure and keeps its hash. */
  lemma PodsKeep(c: Cluster, c': Cluster)
    requires Inv(c) && c' == c.(pods := c'.pods)
    requires forall n :: n in c'.pods ==> n in c.pods && c'.pods[n].hash == c.pods[n].hash && c'.pods[n].owner == c.pods[n].owner
    requires forall n :: n in c'.pods && c.pods[n].phase == PodFailed ==> c'.pods[n].phase == PodFailed
    ensures Inv(c')
  {
    hide Uids, Coherent, Statuses, Covered, StatusOk, Rendered;
    ObjectsKeep(c, c');
  }

  lemma ProgressKeeps(c: Cluster, n: string, phase: PodPhase, ip: string, msg: string)
    requires Inv(c) && Enabled(c, PodProgress(n, phase, ip, msg))
    ensures Inv(DoPodProgress(c, n, phase, ip, msg))
  {
    hide Inv;
    PodsKeep(c, DoPodProgress(c, n, phase, ip, msg));
  }

  lemma GoneKeeps(c: Cluster, n: string)
    requires Inv(c)
    ensures Inv(DoPodGone(c, n))
  {
    hide Inv;
    PodsKeep(c, DoPodGone(c, n));
  }

  lemma EvictKeeps(c: Cluster, n: string)
    requires Inv(c)
    ensures Inv(DeletePod(c, n))
  {
    hide Inv;
    PodsKeep(c, DeletePod(c, n));
  }

  lemma CollectKeeps(c: Cluster, a: Action)
    requires Inv(c) && Enabled(c, a) && (a.CollectSecret? || a.Tick?)
    ensures Inv(Apply(c, a))
  {
    hide Uids, Coherent, Statuses, Covered, Knows;
    ObjectsKeep(c, Apply(c, a));
  }

  lemma CollectPvcKeeps(c: Cluster, n: string)
    requires Inv(c) && Enabled(c, CollectPvc(n))
    ensures Inv(DoCollectPvc(c, n))
  {
    hide Uids, Statuses, Covered, Knows, Fresh;
    var c' := DoCollectPvc(c, n);
    ObjectsKeep(c, c');
  }

  lemma {:induction false} WithoutExact(refs: seq<OwnerRef>, r: OwnerRef)
    ensures forall o :: o in Without(refs, r) <==> o in refs && o != r
  {
    if refs != [] { WithoutExact(refs[1..], r); }
  }

  /** Others may edit the owners as long as they leave this DevPod's reference alone. */
  lemma SetOwnersKeeps(c: Cluster, n: string, refs: seq<OwnerRef>)
    requires Inv(c) && n in c.pvcs && (forall r :: OwnRef(c, n, r) ==> (r in refs <==> r in c.pvcs[n]))
    ensures Inv(SetOwners(c, n, refs))
  {
    hide Uids, Statuses, Covered, Knows, Fresh;
    if n in c.devpods {
      var uid := c.devpods[n].uid;
      assert forall r :: IsSelf(r, uid) ==> OwnRef(c, n, r);
      assert NamesSelf(refs, uid) <==> NamesSelf(c.pvcs[n], uid);
    }
    ObjectsKeep(c, SetOwners(c, n, refs));
  }

  lemma OwnersKeep(c: Cluster, a: Action)
    requires Inv(c) && Enabled(c, a) && (a.AddOwner? || a.RemoveOwner?)
    ensures Inv(Apply(c, a))
  {
    hide Inv, IsSelf;
    match a
    case AddOwner(n, r) => SetOwnersKeeps(c, n, c.pvcs[n] + [r]);
    case RemoveOwner(n, r) => WithoutExact(c.pvcs[n], r); SetOwnersKeeps(c, n, Without(c.pvcs[n], r));
  }

  // ----- every step, every run -----

  lemma WorkKeeps(c: Cluster, key: string)
    requires Inv(c) && c.worker.Busy?
    ensures Inv(Work(c, key))
  {
    hide Inv, RunDetachGet, RunDetachPatch, RunListSiblings, RunDropPolicy, RunClearFinalizer, RunAddFinalizer;
    hide RunHibernateDelete, RunSecretGet, RunSecretCreate, RunPvcApply, RunPodGet, RunFailPatch, RunFailDelete;
    hide RunDriftDelete, RunPodApply, RunServiceApply, RunDenyApply, RunAllowApply, RunStatusGet, RunStatusPatch;
    match c.worker.call
    case DetachGet => DetachKeeps(c);
    case DetachPatch(_) => DetachPatchKeeps(c);
    case ListSiblings => ListSiblingsKeeps(c);
    case DropPolicy => DropPolicyKeeps(c);
    case ClearFinalizer => ClearFinalizerKeeps(c);
    case AddFinalizer => AddFinalizerKeeps(c);
    case HibernateDelete => HibernateKeeps(c);
    case SecretGet => SecretGetKeeps(c);
    case SecretCreate => SecretCreateKeeps(c, key);
    case PvcApply => PvcApplyKeeps(c);
    case PodGet => PodGetKeeps(c);
    case FailPatch(_) => FailPatchKeeps(c);
    case FailDelete => FailDeleteKeeps(c);
    case DriftDelete => DriftDeleteKeeps(c);
    case PodApply(_) => PodApplyKeeps(c);
    case ServiceApply(_) => ServiceApplyKeeps(c);
    case DenyApply(_) => DenyApplyKeeps(c);
    case AllowApply(_) => AllowApplyKeeps(c);
    case StatusGet(_) => StatusGetKeeps(c);
    case StatusPatch(_, _, _) => StatusPatchKeeps(c);
  }

  lemma InvStep(c: Cluster, a: Action)
    requires Inv(c) && Enabled(c, a)
    ensures Inv(Apply(c, a))
  {
    hide Inv, Work, Stop, DoStart, DoUserCreate, DoUserEdit, DoUserDelete, DoPodProgress, DoPodGone;
    hide DoCollectSecret, DoCollectPvc, DeletePod;
    match a
    case Start(n) => StartKeeps(c, n);
    case DoWork(key) => BusyToWork(c, key); WorkKeeps(c, key);
    case Crash => StopKeeps(c, c);
    case UserCreate(n, uid, spec) => CreateKeeps(c, n, uid, spec);
    case UserEdit(n, spec) => EditKeeps(c, n, spec);
    case UserDelete(n) => DeleteKeeps(c, n);
    case CollectSecret(_) => CollectKeeps(c, a);
    case Tick(_) => CollectKeeps(c, a);
    case CollectPvc(n) => CollectPvcKeeps(c, n);
    case AddOwner(_, _) => OwnersKeep(c, a);
    case RemoveOwner(_, _) => OwnersKeep(c, a);
    case PodProgress(n, phase, ip, msg) => ProgressKeeps(c, n, phase, ip, msg);
    case PodGone(n) => GoneKeeps(c, n);
    case EvictPod(n) => EvictKeeps(c, n);
  }

  lemma BusyToWork(c: Cluster, key: string)
    requires Enabled(c, DoWork(key))
    ensures c.worker.Busy?
  {
  }

  lemma {:induction false} InvRun(c: Cluster, acts: seq<Action>, d: Cluster)
    requires Inv(c) && Runs(c, acts, d)
    ensures Inv(d)
    decreases |acts|
  {
    hide Inv, Enabled, Apply;
    if acts != [] {
      var k := |acts| - 1;
      var m :| Runs(c, acts[..k], m) && Enabled(m, acts[k]) && Apply(m, acts[k]) == d;
      InvRun(c, acts[..k], m);
      InvStep(m, acts[k]);
    }
  }

  lemma InvReachable(c: Cluster)
    requires Reachable(c)
    ensures Inv(c)
  {
    var cfg, acts :| Runs(Init(cfg), acts, c);
    InvRun(Init(cfg), acts, c);
  }
}
