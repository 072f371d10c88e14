/** What a single API call of the reconciler may change in the store. */
module ControllerFrames {
  import opened Wrappers
  import opened Render
  import opened Controller
  import opened ControllerInvariants

  /** Everything a call can change in the parts of the store the theorems speak of. */
  ghost predicate Framed(c: Cluster, c': Cluster)
    requires c.worker.Busy?
  {
    var call := c.worker.call;
    && c'.cfg == c.cfg && EvidenceStep(c, c')
    && c'.usedUids == c.usedUids && c'.now == c.now
    && (forall n :: n in c.secrets ==> n in c'.secrets && c'.secrets[n] == c.secrets[n])
    && (forall n :: n in c'.pods && n !in c.pods ==> Created(c, c', n))
    && PodsKept(c, c')
    && PolicyStep(c, c')
    && (!call.ClearFinalizer? ==> OwnersKept(c, c'))
    && (forall n :: n in c'.devpods ==> n in c.devpods && c'.devpods[n].uid == c.devpods[n].uid)
    && (forall n :: n in c'.devpods && n in c.devpods ==> StatusStep(c, n, c'.devpods[n].status))
    && (c'.worker.Busy? && c'.worker.call.ClearFinalizer? ==> call.ListSiblings? || call.DropPolicy?)
    && NextApply(c, c')
    && NextPatch(c, c')
    && NextFail(c, c')
  }

  /** Only the lookup leads to the failure patch, with the Pod it found. */
  predicate NextFail(c: Cluster, c': Cluster)
    requires c.worker.Busy?
  {
    c'.worker.Busy? && c'.worker.call.FailPatch? ==>
      c.worker.call.PodGet? && c.worker.name in c.pods && c'.worker.call.pod == c.pods[c.worker.name]
  }

  /** Pods that stay keep their origin, and a failed one stays failed. */
  predicate PodsKept(c: Cluster, c': Cluster) {
    forall n :: n in c'.pods && n in c.pods ==> SamePod(c.pods[n], c'.pods[n])
  }

  predicate SamePod(p: Pod, p': Pod) {
    p'.owner == p.owner && p'.hash == p.hash && (p.phase == PodFailed ==> p'.phase == PodFailed)
  }

  /** A created Pod is the rendered one. */
  predicate Created(c: Cluster, c': Cluster, n: string)
    requires c.worker.Busy? && n in c'.pods
  {
    c.worker.call.PodApply? && n == c.worker.name && Rendered(c.cfg, c.worker.dp).Ok? && c'.pods[n] == NewPod(c.cfg, c.worker.dp)
  }

  /** Only the two status patches add evidence: what they were taken from. */
  predicate EvidenceStep(c: Cluster, c': Cluster)
    requires c.worker.Busy?
  {
    c'.evidence == c.evidence ||
    (c.worker.call.StatusPatch? &&
      c'.evidence == c.evidence[c.worker.dp.uid := Evidence(c.worker.call.seen, c.worker.dp.spec, c.worker.call.found)]) ||
    (c.worker.call.FailPatch? &&
      c'.evidence == c.evidence[c.worker.dp.uid := Evidence(Some(c.worker.call.pod), c.worker.dp.spec, Broken)])
  }

  /** Policies go only when dropped, and only the allow call opens one, for its own port. */
  predicate PolicyStep(c: Cluster, c': Cluster)
    requires c.worker.Busy?
  {
    forall o :: o in c'.net.policies ==>
      (o in c.net.policies && c'.net.policies[o] == c.net.policies[o]) ||
      (c.worker.call.AllowApply? && o == c.worker.dp.spec.owner &&
        c'.net.policies[o] == BackendPort(UidText(c.worker.dp.uid), c.worker.dp.spec, c.cfg))
  }

  predicate SameCopy(c: Cluster, c': Cluster) {
    c.worker.Busy? && c'.worker.Busy? && c'.worker.name == c.worker.name && c'.worker.dp == c.worker.dp
  }

  /** Only the lookup leads to the apply: from a Pod that has not failed, or past the backoff. */
  predicate NextApply(c: Cluster, c': Cluster)
    requires c.worker.Busy?
  {
    c'.worker.Busy? && c'.worker.call.PodApply? ==>
      c.worker.call.PodGet? && SameCopy(c, c') && MayApply(c)
  }

  predicate MayApply(c: Cluster)
    requires c.worker.Busy?
  {
    !BackoffBlocks(c.worker.dp.status, c.now) || (c.worker.name in c.pods && c.pods[c.worker.name].phase != PodFailed)
  }

  /** Only updateStatus leads to its patch, with the status it wants of the Pod it saw. */
  predicate NextPatch(c: Cluster, c': Cluster)
    requires c.worker.Busy?
  {
    c'.worker.Busy? && c'.worker.call.StatusPatch? ==>
      && c.worker.call.StatusGet? && SameCopy(c, c')
      && var n, dp := c.worker.name, c.worker.dp;
         c'.worker.call.desired == Desired(n, dp, Seen(c, n, dp), c.now, c.cfg) && c'.worker.call.seen == Seen(c, n, dp)
  }

  /** Only the two status patches write a status, and only of the worker's DevPod. */
  predicate StatusStep(c: Cluster, n: string, st: Status)
    requires n in c.devpods && c.worker.Busy?
  {
    || st == c.devpods[n].status
    || (n == c.worker.name && c.worker.call.FailPatch? && st == FailureStatus(c.worker.dp.status, c.now, c.worker.call.pod.message))
    || (n == c.worker.name && c.worker.call.StatusPatch? && st == c.worker.call.desired)
  }

  /** Most calls change none of these parts. */
  ghost predicate Calm(c: Cluster, c': Cluster)
    requires c.worker.Busy?
  {
    && c'.cfg == c.cfg && c'.evidence == c.evidence
    && c'.usedUids == c.usedUids && c'.now == c.now && c'.secrets == c.secrets && c'.pods.Keys == c.pods.Keys && PodsKept(c, c')
    && c'.net.policies == c.net.policies && c'.devpods == c.devpods
    && (c'.worker.Busy? && c'.worker.call.ClearFinalizer? ==> c.worker.call.ListSiblings?)
    && NextApply(c, c')
    && NextPatch(c, c')
    && NextFail(c, c')
  }

  lemma CalmFramed(c: Cluster, c': Cluster)
    requires c.worker.Busy? && Calm(c, c')
    ensures Framed(c, c')
  {
    hide BackoffBlocks, Rendered, NewPod, Desired, Seen, Created;
    assert forall n :: n in c'.pods <==> n in c.pods.Keys;
  }

  lemma CalmStop(c: Cluster)
    requires c.worker.Busy?
    ensures Calm(c, Stop(c))
  {
  }

  /** Going on with another call after touching other objects only. */
  lemma CalmAt(c: Cluster, c1: Cluster, next: Call)
    requires c.worker.Busy? && c1.worker == c.worker && c1.usedUids == c.usedUids && c1.now == c.now
    requires c1.secrets == c.secrets && c1.pods == c.pods && c1.net.policies == c.net.policies && c1.devpods == c.devpods
    requires c1.cfg == c.cfg && c1.evidence == c.evidence
    requires !next.ClearFinalizer? && !next.StatusPatch?
    requires next.PodApply? ==> c.worker.call.PodGet? && MayApply(c)
    requires next.FailPatch? ==> c.worker.call.PodGet? && c.worker.name in c.pods && next.pod == c.pods[c.worker.name]
    ensures Calm(c, At(c1, next))
  {
    hide BackoffBlocks, Rendered, NewPod, Desired, Seen, Created;
  }

  lemma CalmDetachGet(c: Cluster)
    requires c.worker.Busy? && c.worker.call.DetachGet?
    ensures Calm(c, RunDetachGet(c, c.worker.name, c.worker.dp))
  {
    hide NamesSelf, BackoffBlocks;
  }

  lemma CalmDetachPatch(c: Cluster)
    requires c.worker.Busy? && c.worker.call.DetachPatch?
    ensures Calm(c, RunDetachPatch(c, c.worker.name, c.worker.dp, c.worker.call.refs))
  {
    hide OtherOwners, BackoffBlocks;
  }

  lemma CalmClears(c: Cluster)
    requires c.worker.Busy? && c.worker.call.ListSiblings?
    ensures Calm(c, At(c, ClearFinalizer))
  {
    hide BackoffBlocks, Rendered, NewPod, Desired, Seen, Created;
  }

  lemma CalmSiblings(c: Cluster)
    requires c.worker.Busy? && c.worker.call.ListSiblings?
    ensures Calm(c, RunListSiblings(c, c.worker.dp))
  {
    hide LiveSibling, Calm, At;
    CalmAt(c, c, DropPolicy);
    CalmClears(c);
  }

  lemma CalmDelete(c: Cluster, requeue: int, next: Call)
    requires c.worker.Busy? && !next.ClearFinalizer? && !next.StatusPatch? && !next.PodApply? && !next.FailPatch?
    ensures Calm(c, At(DeletePod(c, c.worker.name).(requeueAfter := requeue), next))
  {
    hide BackoffBlocks, Rendered, NewPod, Desired, Seen, Created;
    assert c.worker.name in c.pods ==> c.pods.Keys + {c.worker.name} == c.pods.Keys;
  }

  lemma CalmDeletes(c: Cluster)
    requires c.worker.Busy?
    ensures Calm(c, RunHibernateDelete(c, c.worker.name))
    ensures Calm(c, RunDriftDelete(c, c.worker.name))
    ensures Calm(c, RunFailDelete(c, c.worker.name, c.worker.dp))
  {
    hide Calm, Backoff;
    CalmDelete(c, c.requeueAfter, StatusGet(Skipped));
    CalmDelete(c, c.requeueAfter, ServiceApply(Drifted));
    CalmDelete(c, Backoff(c.worker.dp.status.retryCount), ServiceApply(Broken));
  }

  lemma CalmSecretGet(c: Cluster)
    requires c.worker.Busy?
    ensures Calm(c, RunSecretGet(c, c.worker.name, c.worker.dp))
  {
    hide Calm, At, Stop;
    CalmStop(c);
    CalmAt(c, c, SecretCreate);
    CalmAt(c, c, PvcApply);
  }

  lemma CalmPvc(c: Cluster)
    requires c.worker.Busy?
    ensures Calm(c, RunPvcApply(c, c.worker.name, c.worker.dp))
  {
    hide NamesSelf, Calm, At, Stop;
    var name, self := c.worker.name, SelfRef(c.worker.dp.uid);
    CalmStop(c);
    CalmAt(c, c, PodGet);
    CalmAt(c, c.(pvcs := c.pvcs[name := [self]]), PodGet);
    if name in c.pvcs { CalmAt(c, c.(pvcs := c.pvcs[name := c.pvcs[name] + [self]]), PodGet); }
  }

  lemma CalmService(c: Cluster)
    requires c.worker.Busy?
    ensures forall found :: Calm(c, RunServiceApply(c, c.worker.name, found)) && Calm(c, RunDenyApply(c, found))
  {
    hide BackoffBlocks, Rendered, NewPod, Desired, Seen, Created;
  }

  lemma CalmPodGet(c: Cluster)
    requires c.worker.Busy? && c.worker.call.PodGet?
    ensures Calm(c, RunPodGet(c, c.worker.name, c.worker.dp))
  {
    hide Rendered, Matches, Backoff, BackoffBlocks, Calm, At, Stop;
    var name, dp := c.worker.name, c.worker.dp;
    CalmStop(c);
    if name in c.pods {
      CalmAt(c, c, FailPatch(c.pods[name]));
      CalmAt(c, c, DriftDelete);
      if c.pods[name].phase != PodFailed { CalmAt(c, c, PodApply(Same)); }
    } else if BackoffBlocks(dp.status, c.now) {
      BlockedHasMark(dp.status, c.now);
      CalmAt(c, c.(requeueAfter := Backoff(dp.status.retryCount) - (c.now - dp.status.lastFailureAt.value)),
             ServiceApply(Absent));
    } else {
      CalmAt(c, c, PodApply(Absent));
    }
  }

  lemma CalmPatches(c: Cluster, next: Call)
    requires c.worker.Busy? && c.worker.call.StatusGet? && next.StatusPatch?
    requires var n, dp := c.worker.name, c.worker.dp;
      next.desired == Desired(n, dp, Seen(c, n, dp), c.now, c.cfg) && next.seen == Seen(c, n, dp)
    ensures Calm(c, At(c, next))
  {
    hide BackoffBlocks, Desired, Seen;
  }

  lemma CalmStatusGet(c: Cluster)
    requires c.worker.Busy? && c.worker.call.StatusGet?
    ensures Calm(c, RunStatusGet(c, c.worker.name, c.worker.dp, c.worker.call.found))
  {
    hide Desired, StatusEqual, Seen, Calm, At, Stop;
    var n, dp := c.worker.name, c.worker.dp;
    CalmStop(c);
    CalmPatches(c, StatusPatch(Desired(n, dp, Seen(c, n, dp), c.now, c.cfg), Seen(c, n, dp), c.worker.call.found));
  }

  lemma FramedGone(c: Cluster, c': Cluster)
    requires c.worker.Busy? && c.worker.call.ClearFinalizer? && c' == Stop(c.(devpods := c.devpods - {c.worker.name}))
    ensures Framed(c, c')
  {
    hide BackoffBlocks, OwnersKept, Rendered, NewPod, Desired, Seen, Created;
  }

  lemma FramedClear(c: Cluster)
    requires c.worker.Busy? && c.worker.call.ClearFinalizer?
    ensures Framed(c, RunClearFinalizer(c, c.worker.name, c.worker.dp))
  {
    hide Framed, Calm, Current, Stop;
    CalmStop(c);
    CalmFramed(c, Stop(c));
    FramedGone(c, Stop(c.(devpods := c.devpods - {c.worker.name})));
  }

  lemma FramedTouch(c: Cluster, c': Cluster, d: DevPod)
    requires c.worker.Busy? && c.worker.name in c.devpods && c'.usedUids == c.usedUids && c'.now == c.now
    requires c'.secrets == c.secrets && c'.net.policies == c.net.policies && c'.pods == c.pods
    requires c'.devpods == c.devpods[c.worker.name := d] && c'.cfg == c.cfg && c'.evidence == c.evidence
    requires var b := c.devpods[c.worker.name]; d.uid == b.uid && d.spec == b.spec && d.status == b.status
    requires c'.worker.Idle?
    ensures Framed(c, c')
  {
    hide BackoffBlocks, Rendered, NewPod, Desired, Seen, Created;
  }

  lemma FramedAdd(c: Cluster)
    requires c.worker.Busy? && c.worker.call.AddFinalizer?
    ensures Framed(c, RunAddFinalizer(c, c.worker.name, c.worker.dp))
  {
    hide BackoffBlocks, Framed, Calm;
    var c', name := RunAddFinalizer(c, c.worker.name, c.worker.dp), c.worker.name;
    if Current(c, name, c.worker.dp) {
      FramedTouch(c, c', Touch(c.devpods[name].(finalizer := true)));
    } else {
      CalmStop(c);
      CalmFramed(c, c');
    }
  }

  lemma FramedDrop(c: Cluster)
    requires c.worker.Busy? && c.worker.call.DropPolicy?
    ensures Framed(c, RunDropPolicy(c, c.worker.dp))
  {
    hide BackoffBlocks, Rendered, NewPod, Desired, Seen, Created;
  }

  lemma FramedAllow(c: Cluster)
    requires c.worker.Busy? && c.worker.call.AllowApply?
    ensures Framed(c, RunAllowApply(c, c.worker.dp, c.worker.call.found))
  {
    hide BackoffBlocks, Rendered, NewPod, Desired, Seen, Created;
  }

  lemma FramedKey(c: Cluster, sec: Secret)
    requires c.worker.Busy? && c.worker.call.SecretCreate?
    ensures c.worker.name !in c.secrets ==> Framed(c, At(c.(secrets := c.secrets[c.worker.name := sec]), PvcApply))
  {
    hide BackoffBlocks, Rendered, NewPod, Desired, Seen, Created;
  }

  lemma FramedSecret(c: Cluster, key: string)
    requires c.worker.Busy? && c.worker.call.SecretCreate?
    ensures Framed(c, RunSecretCreate(c, c.worker.name, c.worker.dp, key))
  {
    hide Framed, Calm, At;
    CalmAt(c, c, PvcApply);
    CalmFramed(c, At(c, PvcApply));
    FramedKey(c, Secret(c.worker.dp.uid, key));
  }

  lemma FramedCreate(c: Cluster, c': Cluster)
    requires c.worker.Busy? && c.worker.call.PodApply? && c'.usedUids == c.usedUids && c'.now == c.now
    requires c'.devpods == c.devpods && c'.secrets == c.secrets && c'.net.policies == c.net.policies
    requires forall n :: n in c'.pods && n !in c.pods ==> Created(c, c', n)
    requires PodsKept(c, c') && c'.cfg == c.cfg && c'.evidence == c.evidence
    requires c'.worker.Idle? || c'.worker.call.ServiceApply?
    ensures Framed(c, c')
  {
    hide BackoffBlocks, Rendered, NewPod, Desired, Seen, Created;
  }

  /** One DevPod's status is written. */
  lemma FramedWrite(c: Cluster, c': Cluster, st: Status)
    requires c.worker.Busy? && c.worker.name in c.devpods && c'.usedUids == c.usedUids && c'.now == c.now
    requires c'.secrets == c.secrets && c'.net.policies == c.net.policies && c'.pods == c.pods
    requires c'.devpods == c.devpods[c.worker.name := Touch(c.devpods[c.worker.name].(status := st))]
    requires StatusStep(c, c.worker.name, st) && c'.cfg == c.cfg && EvidenceStep(c, c')
    requires c'.worker.Idle? || c'.worker.call.FailDelete?
    ensures Framed(c, c')
  {
    hide BackoffBlocks, Rendered, NewPod, Desired, Seen, Created;
  }

  lemma FramedNewPod(c: Cluster)
    requires c.worker.Busy? && c.worker.call.PodApply? && Rendered(c.cfg, c.worker.dp).Ok? && c.worker.name !in c.pods
    ensures Framed(c, At(c.(pods := c.pods[c.worker.name := NewPod(c.cfg, c.worker.dp)]), ServiceApply(Same)))
  {
    hide Rendered, NewPod, Framed;
    FramedCreate(c, At(c.(pods := c.pods[c.worker.name := NewPod(c.cfg, c.worker.dp)]), ServiceApply(Same)));
  }

  lemma FramedPod(c: Cluster)
    requires c.worker.Busy? && c.worker.call.PodApply?
    ensures Framed(c, RunPodApply(c, c.worker.name, c.worker.dp))
  {
    hide Rendered, NewPod, Framed, Calm, At, Stop;
    CalmStop(c);
    CalmFramed(c, Stop(c));
    CalmAt(c, c, ServiceApply(Same));
    CalmFramed(c, At(c, ServiceApply(Same)));
    if Rendered(c.cfg, c.worker.dp).Ok? && c.worker.name !in c.pods { FramedNewPod(c); }
  }

  lemma FramedFailPatch(c: Cluster)
    requires c.worker.Busy? && c.worker.call.FailPatch?
    ensures Framed(c, RunFailPatch(c, c.worker.name, c.worker.dp, c.worker.call.pod))
  {
    hide Framed, Calm;
    var c' := RunFailPatch(c, c.worker.name, c.worker.dp, c.worker.call.pod);
    if c.worker.name in c.devpods {
      FramedWrite(c, c', FailureStatus(c.worker.dp.status, c.now, c.worker.call.pod.message));
    } else {
      CalmStop(c);
      CalmFramed(c, c');
    }
  }

  lemma FramedStatusPatch(c: Cluster, e: Evidence)
    requires c.worker.Busy? && c.worker.call.StatusPatch?
    requires e == Evidence(c.worker.call.seen, c.worker.dp.spec, c.worker.call.found)
    ensures Framed(c, RunStatusPatch(c, c.worker.name, c.worker.dp, c.worker.call.desired, e))
  {
    hide Framed, Calm;
    var c' := RunStatusPatch(c, c.worker.name, c.worker.dp, c.worker.call.desired, e);
    if c.worker.name in c.devpods {
      FramedWrite(c, c', c.worker.call.desired);
    } else {
      CalmStop(c);
      CalmFramed(c, c');
    }
  }

  lemma WorkFramed(c: Cluster, key: string)
    requires c.worker.Busy?
    ensures Framed(c, Work(c, key))
  {
    hide Framed, Calm, RunDetachGet, RunDetachPatch, RunListSiblings, RunDropPolicy, RunClearFinalizer, RunAddFinalizer;
    hide RunHibernateDelete, RunSecretGet, RunSecretCreate, RunPvcApply, RunPodGet, RunFailPatch, RunFailDelete;
    hide RunDriftDelete, RunPodApply, RunServiceApply, RunDenyApply, RunAllowApply, RunStatusGet, RunStatusPatch;
    var c' := Work(c, key);
    match c.worker.call
    case DetachGet => CalmDetachGet(c); CalmFramed(c, c');
    case DetachPatch(_) => CalmDetachPatch(c); CalmFramed(c, c');
    case ListSiblings => CalmSiblings(c); CalmFramed(c, c');
    case DropPolicy => FramedDrop(c);
    case ClearFinalizer => FramedClear(c);
    case AddFinalizer => FramedAdd(c);
    case HibernateDelete => CalmDeletes(c); CalmFramed(c, c');
    case SecretGet => CalmSecretGet(c); CalmFramed(c, c');
    case SecretCreate => FramedSecret(c, key);
    case PvcApply => CalmPvc(c); CalmFramed(c, c');
    case PodGet => CalmPodGet(c); CalmFramed(c, c');
    case FailPatch(_) => FramedFailPatch(c);
    case FailDelete => CalmDeletes(c); CalmFramed(c, c');
    case DriftDelete => CalmDeletes(c); CalmFramed(c, c');
    case PodApply(_) => FramedPod(c);
    case ServiceApply(found) => CalmService(c); CalmFramed(c, c');
    case DenyApply(found) => CalmService(c); CalmFramed(c, c');
    case AllowApply(_) => FramedAllow(c);
    case StatusGet(_) => CalmStatusGet(c); CalmFramed(c, c');
    case StatusPatch(_, seen, found) => FramedStatusPatch(c, Evidence(seen, c.worker.dp.spec, found));
  }

  /** The same owners, name by name, at least. */
  ghost predicate OwnersKept(c: Cluster, c': Cluster) {
    forall n :: n in c.devpods ==> n in c'.devpods && c'.devpods[n].spec.owner == c.devpods[n].spec.owner
  }
}
