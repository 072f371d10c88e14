/**
 Convergence with everything interleaved: between any two API calls of a reconcile
 Pods progress and go, time passes, the worker crashes or turns to other DevPods, and
 users change those.  Only completed reconciles count.
 */
module ControllerProgress {
  import opened Wrappers
  import opened Render
  import opened Controller
  import opened ControllerInvariants
  import opened ControllerConvergence
  import opened ControllerSettling
  import ControllerBackoff

  predicate OnIt(c: Cluster, n: string) { c.worker.Busy? && c.worker.name == n }

  /** Meant to run, nothing in its way, no failure that blocks while its Pod is there,
      and the copy at work is the stored object. */
  predicate Going(c: Cluster, n: string) {
    && n in c.devpods && Runnable(c.cfg, c.devpods[n]) && Ours(c, n, c.devpods[n]) && Clear(c, n)
    && (OnIt(c, n) ==> c.worker.dp == c.devpods[n])
  }

  predicate Clear(c: Cluster, n: string)
    requires n in c.devpods
  {
    n in c.pods ==> !BackoffBlocks(c.devpods[n].status, c.now)
  }

  /** What may happen: anything but giving n another spec, deleting it, evicting its Pod,
      that Pod failing, or somebody else taking control of its volume. */
  predicate Benign(n: string, a: Action) {
    match a
    case UserEdit(m, _) => m != n
    case UserDelete(m) => m != n
    case EvictPod(m) => m != n
    case PodProgress(m, phase, _, _) => m != n || phase != PodFailed
    case AddOwner(m, r) => m != n || !r.controller
    case _ => true
  }

  // ----- one reconcile of n, call by call -----

  /** The Pod has been dealt with; it can be missing only if one was there to remove,
      or the backoff held it back. */
  predicate Acted(c: Cluster, n: string, before: nat)
    requires n in c.devpods
  {
    if n in c.pods then c.pods[n].terminating || Matches(c.cfg, c.devpods[n], c.pods[n]) else before >= 2
  }

  /** before is the measure when this reconcile started. */
  predicate Stage(c: Cluster, n: string, before: nat)
    requires n in c.devpods && c.worker.Busy?
  {
    var d := c.devpods[n];
    RoundsLeft(c, n) <= before &&
    match c.worker.call
    case AddFinalizer => !d.finalizer
    case SecretGet => d.finalizer
    case SecretCreate => d.finalizer
    case PvcApply => d.finalizer
    case PodGet => d.finalizer
    case DriftDelete => d.finalizer && before >= 2 && (n in c.pods ==> c.pods[n].terminating || !Matches(c.cfg, d, c.pods[n]))
    case PodApply(_) => d.finalizer && !BackoffBlocks(d.status, c.now) && (n in c.pods ==> Matches(c.cfg, d, c.pods[n]))
    case ServiceApply(_) => d.finalizer && Acted(c, n, before)
    case DenyApply(_) => d.finalizer && Acted(c, n, before)
    case AllowApply(_) => d.finalizer && Acted(c, n, before)
    case StatusGet(_) => d.finalizer && Acted(c, n, before)
    case StatusPatch(desired, _, _) => d.finalizer && Acted(c, n, before) && desired.lastFailureAt == None
    case _ => false
  }

  /** A completed reconcile is a step forward, unless a Pod is still terminating. */
  predicate Outcome(c: Cluster, n: string, before: nat)
    requires n in c.devpods
  {
    RoundsLeft(c, n) == 0 || RoundsLeft(c, n) < before || (n in c.pods && c.pods[n].terminating)
  }

  predicate Onwards(c: Cluster, c': Cluster, n: string, before: nat)
    requires n in c.devpods
  {
    && Going(c', n) && RoundsLeft(c', n) <= RoundsLeft(c, n)
    && if c'.worker.Busy? then OnIt(c', n) && Stage(c', n, before) else Outcome(c', n, before)
  }

  /** A call that leaves DevPods and Pods alone and goes on. */
  lemma PassOn(c: Cluster, c': Cluster, n: string, before: nat)
    requires Going(c, n) && OnIt(c, n) && Stage(c, n, before)
    requires c'.devpods == c.devpods && c'.pods == c.pods && c'.cfg == c.cfg && c'.now == c.now
    requires c'.worker.Busy? && c'.worker.name == n && c'.worker.dp == c.worker.dp && Stage(c', n, before)
    requires PvcOk(c'.pvcs, n, c.devpods[n]) && SecretOk(c', n, c.devpods[n].uid)
    ensures Onwards(c, c', n, before)
  {
    hide RenderPod, HasForeign, BackoffBlocks, Matches, Stage;
  }

  lemma GoingParts(c: Cluster, n: string)
    requires Going(c, n)
    ensures n in c.devpods && Rendered(c.cfg, c.devpods[n]).Ok? && PodOk(c, n, c.devpods[n])
    ensures PvcOk(c.pvcs, n, c.devpods[n]) && SecretOk(c, n, c.devpods[n].uid)
    ensures c.devpods[n].spec.running && !c.devpods[n].deleting && Clear(c, n)
    ensures OnIt(c, n) ==> c.worker.dp == c.devpods[n]
  {
    hide RenderPod, HasForeign;
  }

  lemma SecretSteps(c: Cluster, n: string, before: nat, key: string)
    requires Going(c, n) && OnIt(c, n) && Stage(c, n, before) && key != ""
    requires c.worker.call.SecretGet? || c.worker.call.SecretCreate?
    ensures Onwards(c, Work(c, key), n, before)
  {
    hide RenderPod, HasForeign, BackoffBlocks, Matches, Onwards, Runnable, PodOk, PvcOk;
    GoingParts(c, n);
    PassOn(c, Work(c, key), n, before);
  }

  lemma PvcStep(c: Cluster, n: string, before: nat)
    requires Going(c, n) && OnIt(c, n) && Stage(c, n, before) && c.worker.call.PvcApply?
    ensures Onwards(c, RunPvcApply(c, n, c.worker.dp), n, before)
  {
    hide RenderPod, HasForeign, BackoffBlocks, Matches, Onwards, Runnable, PodOk, PvcOk, NextPvcs, RunPvcApply, Going;
    GoingParts(c, n);
    PvcApplied(c);
    NextPvcsDone(c.pvcs, n, c.devpods[n]);
    PassOn(c, At(c.(pvcs := NextPvcs(c.pvcs, n, c.devpods[n])), PodGet), n, before);
  }

  lemma PodGetStep(c: Cluster, n: string, before: nat)
    requires Going(c, n) && OnIt(c, n) && Stage(c, n, before) && c.worker.call.PodGet?
    ensures Onwards(c, RunPodGet(c, n, c.worker.dp), n, before)
  {
    hide Rendered, HasForeign, Backoff, BackoffBlocks, Matches, Onwards, Runnable, PvcOk, Going;
    GoingParts(c, n);
    if BackoffBlocks(c.worker.dp.status, c.now) { BlockedHasMark(c.worker.dp.status, c.now); }
    var c' := RunPodGet(c, n, c.worker.dp);
    PassOn(c, c', n, before);
  }

  lemma DriftStep(c: Cluster, n: string, before: nat)
    requires Going(c, n) && OnIt(c, n) && Stage(c, n, before) && c.worker.call.DriftDelete?
    ensures Onwards(c, RunDriftDelete(c, n), n, before)
  {
    hide Rendered, RenderPod, HasForeign, BackoffBlocks, Matches;
  }

  lemma PodApplyStep(c: Cluster, n: string, before: nat)
    requires Going(c, n) && OnIt(c, n) && Stage(c, n, before) && c.worker.call.PodApply?
    ensures Onwards(c, RunPodApply(c, n, c.worker.dp), n, before)
  {
    hide RenderPod, HasForeign, BackoffBlocks, Matches, PvcOk, Rendered;
    NewPodMatches(c.cfg, c.devpods[n]);
  }

  lemma ObjectStep(c: Cluster, n: string, before: nat, key: string)
    requires Going(c, n) && OnIt(c, n) && Stage(c, n, before)
    requires c.worker.call.ServiceApply? || c.worker.call.DenyApply? || c.worker.call.AllowApply?
    ensures Onwards(c, Work(c, key), n, before)
  {
    hide RenderPod, HasForeign, BackoffBlocks, Matches, Onwards, Runnable, PodOk, PvcOk, Clear;
    GoingParts(c, n);
    PassOn(c, Work(c, key), n, before);
  }

  /** The wanted status of a Pod that has not failed has no mark. */
  lemma DesiredClear(n: string, d: DevPod, pod: Option<Pod>, now: int, cfg: Config)
    requires pod.Some? ==> pod.value.phase != PodFailed
    ensures Desired(n, d, pod, now, cfg).lastFailureAt == None
  {
    hide BackendPort;
  }

  lemma EqualClear(a: Status, b: Status, now: int)
    requires b.lastFailureAt == None
    ensures StatusEqual(a, b) ==> a.lastFailureAt == None && !BackoffBlocks(a, now)
    ensures !BackoffBlocks(b, now)
  {
  }

  lemma StatusGetStep(c: Cluster, n: string, before: nat)
    requires Going(c, n) && OnIt(c, n) && Stage(c, n, before) && c.worker.call.StatusGet?
    ensures Onwards(c, RunStatusGet(c, n, c.worker.dp, c.worker.call.found), n, before)
  {
    hide RenderPod, HasForeign, BackoffBlocks, Matches, Desired, StatusEqual, PvcOk, Runnable;
    var desired := Desired(n, c.worker.dp, Seen(c, n, c.worker.dp), c.now, c.cfg);
    DesiredClear(n, c.worker.dp, Seen(c, n, c.worker.dp), c.now, c.cfg);
    EqualClear(c.worker.dp.status, desired, c.now);
  }

  lemma StatusPatchStep(c: Cluster, n: string, before: nat, e: Evidence)
    requires Going(c, n) && OnIt(c, n) && Stage(c, n, before) && c.worker.call.StatusPatch?
    ensures Onwards(c, RunStatusPatch(c, n, c.worker.dp, c.worker.call.desired, e), n, before)
  {
    hide RenderPod, HasForeign, BackoffBlocks, Matches, StatusEqual, Runnable;
    var desired, c' := c.worker.call.desired, RunStatusPatch(c, n, c.worker.dp, c.worker.call.desired, e);
    EqualClear(desired, desired, c.now);
    RunnableKept(c.cfg, c.devpods[n], c'.devpods[n]);
    if n in c.pods { MatchesIdentity(c.cfg, c.devpods[n], c'.devpods[n], c.pods[n]); }
  }

  lemma FinalizerStep(c: Cluster, n: string, before: nat)
    requires Going(c, n) && OnIt(c, n) && Stage(c, n, before) && c.worker.call.AddFinalizer?
    ensures Onwards(c, RunAddFinalizer(c, n, c.worker.dp), n, before)
  {
    hide RenderPod, HasForeign, BackoffBlocks, Matches, Runnable;
    var c' := RunAddFinalizer(c, n, c.worker.dp);
    RunnableKept(c.cfg, c.devpods[n], c'.devpods[n]);
  }

  lemma OwnStep(c: Cluster, n: string, before: nat, key: string)
    requires Going(c, n) && OnIt(c, n) && Stage(c, n, before) && key != ""
    ensures Onwards(c, Work(c, key), n, before)
  {
    hide Onwards, Going, RunSecretGet, RunSecretCreate, RunPvcApply, RunPodGet, RunDriftDelete, RunPodApply;
    hide RunServiceApply, RunDenyApply, RunAllowApply, RunStatusGet, RunStatusPatch, RunAddFinalizer;
    hide RoundsLeft, Acted, BackoffBlocks, Matches;
    match c.worker.call
    case AddFinalizer => FinalizerStep(c, n, before);
    case SecretGet => SecretSteps(c, n, before, key);
    case SecretCreate => SecretSteps(c, n, before, key);
    case PvcApply => PvcStep(c, n, before);
    case PodGet => PodGetStep(c, n, before);
    case DriftDelete => DriftStep(c, n, before);
    case PodApply(_) => PodApplyStep(c, n, before);
    case ServiceApply(_) => ObjectStep(c, n, before, key);
    case DenyApply(_) => ObjectStep(c, n, before, key);
    case AllowApply(_) => ObjectStep(c, n, before, key);
    case StatusGet(_) => StatusGetStep(c, n, before);
    case StatusPatch(_, seen, found) => StatusPatchStep(c, n, before, Evidence(seen, c.worker.dp.spec, found));
    case _ =>
  }

  // ----- everything else -----

  predicate SameAt<T(==)>(m: map<string, T>, m': map<string, T>, n: string) {
    (n in m <==> n in m') && (n in m ==> m'[n] == m[n])
  }

  /** Nothing of n's own changed. */
  predicate Untouched(c: Cluster, c': Cluster, n: string) {
    && SameAt(c.devpods, c'.devpods, n) && SameAt(c.pods, c'.pods, n) && SameAt(c.pvcs, c'.pvcs, n)
    && SameAt(c.secrets, c'.secrets, n) && c'.cfg == c.cfg && c'.now == c.now
  }

  predicate Off(c': Cluster, n: string) { c'.worker.Busy? ==> c'.worker.name != n }

  /** The step was about another name. */
  predicate Aside(c: Cluster, c': Cluster, n: string) { Untouched(c, c', n) && Off(c', n) }

  lemma AsideStop(c: Cluster, c1: Cluster, n: string)
    requires Untouched(c, c1, n)
    ensures Aside(c, Stop(c1), n)
  {
  }

  lemma AsideAt(c: Cluster, c1: Cluster, next: Call, n: string)
    requires Untouched(c, c1, n) && c1.worker.Busy? && c1.worker.name != n
    ensures Aside(c, At(c1, next), n)
  {
  }

  lemma UntouchedSelf(c: Cluster, n: string)
    ensures Untouched(c, c, n)
  {
  }

  lemma UntouchedDevPods(c: Cluster, n: string, m: string, d: DevPod)
    requires m != n
    ensures Untouched(c, c.(devpods := c.devpods[m := d]), n) && Untouched(c, c.(devpods := c.devpods - {m}), n)
  {
  }

  lemma UntouchedPods(c: Cluster, n: string, m: string, p: Pod)
    requires m != n
    ensures Untouched(c, c.(pods := c.pods[m := p]), n)
  {
  }

  lemma UntouchedPvcs(c: Cluster, n: string, m: string, refs: seq<OwnerRef>)
    requires m != n
    ensures Untouched(c, c.(pvcs := c.pvcs[m := refs]), n)
  {
  }

  lemma AsideDetachGet(c: Cluster, n: string)
    requires c.worker.Busy? && c.worker.name != n
    ensures Aside(c, RunDetachGet(c, c.worker.name, c.worker.dp), n)
  {
    hide NamesSelf, Aside, Untouched, At;
    UntouchedSelf(c, n);
    AsideAt(c, c, ListSiblings, n);
    if c.worker.name in c.pvcs { AsideAt(c, c, DetachPatch(c.pvcs[c.worker.name]), n); }
  }

  lemma AsideDetachPatch(c: Cluster, n: string, refs: seq<OwnerRef>)
    requires c.worker.Busy? && c.worker.name != n
    ensures Aside(c, RunDetachPatch(c, c.worker.name, c.worker.dp, refs), n)
  {
    hide OtherOwners, Aside, Untouched, At, Stop;
    var name, kept := c.worker.name, OtherOwners(refs, c.worker.dp.uid);
    UntouchedSelf(c, n);
    AsideStop(c, c, n);
    UntouchedPvcs(c, n, name, kept);
    AsideAt(c, c.(pvcs := c.pvcs[name := kept]), ListSiblings, n);
  }

  lemma AsideSiblings(c: Cluster, n: string)
    requires c.worker.Busy? && c.worker.name != n
    ensures Aside(c, RunListSiblings(c, c.worker.dp), n)
  {
    hide LiveSibling, Aside, Untouched, At;
    UntouchedSelf(c, n);
    AsideAt(c, c, ClearFinalizer, n);
    AsideAt(c, c, DropPolicy, n);
  }

  lemma AsideDrop(c: Cluster, n: string)
    requires c.worker.Busy? && c.worker.name != n
    ensures Aside(c, RunDropPolicy(c, c.worker.dp), n)
  {
    hide LiveSibling;
  }

  lemma AsideClear(c: Cluster, n: string)
    requires c.worker.Busy? && c.worker.name != n
    ensures Aside(c, RunClearFinalizer(c, c.worker.name, c.worker.dp), n)
  {
    hide Aside, Untouched, Stop, Current;
    UntouchedSelf(c, n);
    AsideStop(c, c, n);
    UntouchedDevPods(c, n, c.worker.name, c.worker.dp);
    AsideStop(c, c.(devpods := c.devpods - {c.worker.name}), n);
  }

  lemma AsideAdd(c: Cluster, n: string)
    requires c.worker.Busy? && c.worker.name != n
    ensures Aside(c, RunAddFinalizer(c, c.worker.name, c.worker.dp), n)
  {
    hide Aside, Untouched, Stop, Touch;
    var name := c.worker.name;
    UntouchedSelf(c, n);
    AsideStop(c, c, n);
    if name in c.devpods {
      var d := Touch(c.devpods[name].(finalizer := true));
      UntouchedDevPods(c, n, name, d);
      AsideStop(c, c.(devpods := c.devpods[name := d]), n);
    }
  }

  lemma RequeueAfter(c: Cluster, c1: Cluster, n: string, requeue: int)
    requires Untouched(c, c1, n)
    ensures Untouched(c, c1.(requeueAfter := requeue), n)
  {
  }

  lemma AsideDelete(c: Cluster, n: string, requeue: int, next: Call)
    requires c.worker.Busy? && c.worker.name != n
    ensures Aside(c, At(DeletePod(c, c.worker.name).(requeueAfter := requeue), next), n)
  {
    hide Aside, At, Untouched;
    var name := c.worker.name;
    if name in c.pods {
      UntouchedPods(c, n, name, c.pods[name].(terminating := true));
    } else {
      UntouchedSelf(c, n);
    }
    RequeueAfter(c, DeletePod(c, name), n, requeue);
    AsideAt(c, DeletePod(c, name).(requeueAfter := requeue), next, n);
  }

  lemma AsideDeletes(c: Cluster, n: string)
    requires c.worker.Busy? && c.worker.name != n
    ensures Aside(c, RunHibernateDelete(c, c.worker.name), n)
    ensures Aside(c, RunDriftDelete(c, c.worker.name), n)
    ensures Aside(c, RunFailDelete(c, c.worker.name, c.worker.dp), n)
  {
    hide Aside, At, Backoff;
    AsideDelete(c, n, c.requeueAfter, StatusGet(Skipped));
    AsideDelete(c, n, c.requeueAfter, ServiceApply(Drifted));
    AsideDelete(c, n, Backoff(c.worker.dp.status.retryCount), ServiceApply(Broken));
  }

  lemma AsideSecretGet(c: Cluster, n: string)
    requires c.worker.Busy? && c.worker.name != n
    ensures Aside(c, RunSecretGet(c, c.worker.name, c.worker.dp), n)
  {
    hide Aside, Untouched, At, Stop;
    UntouchedSelf(c, n);
    AsideStop(c, c, n);
    AsideAt(c, c, SecretCreate, n);
    AsideAt(c, c, PvcApply, n);
  }

  lemma AsideSecretCreate(c: Cluster, n: string, key: string)
    requires c.worker.Busy? && c.worker.name != n
    ensures Aside(c, RunSecretCreate(c, c.worker.name, c.worker.dp, key), n)
  {
    hide RenderPod;
  }

  lemma AsidePvc(c: Cluster, n: string)
    requires c.worker.Busy? && c.worker.name != n
    ensures Aside(c, RunPvcApply(c, c.worker.name, c.worker.dp), n)
  {
    hide NamesSelf, Aside, Untouched, At, Stop;
    var name, self := c.worker.name, SelfRef(c.worker.dp.uid);
    UntouchedSelf(c, n);
    AsideStop(c, c, n);
    AsideAt(c, c, PodGet, n);
    UntouchedPvcs(c, n, name, [self]);
    AsideAt(c, c.(pvcs := c.pvcs[name := [self]]), PodGet, n);
    if name in c.pvcs {
      UntouchedPvcs(c, n, name, c.pvcs[name] + [self]);
      AsideAt(c, c.(pvcs := c.pvcs[name := c.pvcs[name] + [self]]), PodGet, n);
    }
  }

  lemma UntouchedRequeue(c: Cluster, n: string, requeue: int)
    ensures Untouched(c, c.(requeueAfter := requeue), n)
  {
  }

  lemma AsidePodGet(c: Cluster, n: string)
    requires c.worker.Busy? && c.worker.name != n
    ensures Aside(c, RunPodGet(c, c.worker.name, c.worker.dp), n)
  {
    hide Rendered, Matches, Backoff, BackoffBlocks, Aside, Untouched, At, Stop;
    var name, dp := c.worker.name, c.worker.dp;
    UntouchedSelf(c, n);
    AsideStop(c, c, n);
    if name in c.pods {
      AsideAt(c, c, FailPatch(c.pods[name]), n);
      AsideAt(c, c, DriftDelete, n);
      AsideAt(c, c, PodApply(Same), n);
    } else if BackoffBlocks(dp.status, c.now) {
      BlockedHasMark(dp.status, c.now);
      var wait := Backoff(dp.status.retryCount) - (c.now - dp.status.lastFailureAt.value);
      UntouchedRequeue(c, n, wait);
      AsideAt(c, c.(requeueAfter := wait), ServiceApply(Absent), n);
    } else {
      AsideAt(c, c, PodApply(Absent), n);
    }
  }

  lemma AsidePodApply(c: Cluster, n: string)
    requires c.worker.Busy? && c.worker.name != n
    ensures Aside(c, RunPodApply(c, c.worker.name, c.worker.dp), n)
  {
    hide Rendered, NewPod, Aside, Untouched, At, Stop;
    UntouchedSelf(c, n);
    AsideStop(c, c, n);
    AsideAt(c, c, ServiceApply(Same), n);
    if Rendered(c.cfg, c.worker.dp).Ok? {
      var p := NewPod(c.cfg, c.worker.dp);
      UntouchedPods(c, n, c.worker.name, p);
      AsideAt(c, c.(pods := c.pods[c.worker.name := p]), ServiceApply(Same), n);
    }
  }

  lemma AsideFailPatch(c: Cluster, n: string, pod: Pod)
    requires c.worker.Busy? && c.worker.name != n
    ensures Aside(c, RunFailPatch(c, c.worker.name, c.worker.dp, pod), n)
  {
    hide FailureStatus, Touch;
  }

  lemma AsideService(c: Cluster, n: string, found: Lookup)
    requires c.worker.Busy? && c.worker.name != n
    ensures Aside(c, RunServiceApply(c, c.worker.name, found), n)
    ensures Aside(c, RunDenyApply(c, found), n)
    ensures Aside(c, RunAllowApply(c, c.worker.dp, found), n)
  {
    hide RenderPod;
  }

  lemma AsideStatusGet(c: Cluster, n: string, found: Lookup)
    requires c.worker.Busy? && c.worker.name != n
    ensures Aside(c, RunStatusGet(c, c.worker.name, c.worker.dp, found), n)
  {
    hide Desired, StatusEqual, Seen, Aside, Untouched, At, Stop;
    UntouchedSelf(c, n);
    AsideStop(c, c, n);
    var name, dp := c.worker.name, c.worker.dp;
    AsideAt(c, c, StatusPatch(Desired(name, dp, Seen(c, name, dp), c.now, c.cfg), Seen(c, name, dp), found), n);
  }

  lemma AsideStatusPatch(c: Cluster, n: string, st: Status, e: Evidence)
    requires c.worker.Busy? && c.worker.name != n
    ensures Aside(c, RunStatusPatch(c, c.worker.name, c.worker.dp, st, e), n)
  {
    hide Touch;
  }

  lemma ElsewhereWork(c: Cluster, n: string, key: string)
    requires c.worker.Busy? && c.worker.name != n
    ensures Aside(c, Work(c, key), n)
  {
    hide Aside, RunDetachGet, RunDetachPatch, RunListSiblings, RunDropPolicy, RunClearFinalizer, RunAddFinalizer;
    hide RunHibernateDelete, RunSecretGet, RunSecretCreate, RunPvcApply, RunPodGet, RunFailPatch, RunFailDelete;
    hide RunDriftDelete, RunPodApply, RunServiceApply, RunDenyApply, RunAllowApply, RunStatusGet, RunStatusPatch;
    match c.worker.call
    case DetachGet => AsideDetachGet(c, n);
    case DetachPatch(refs) => AsideDetachPatch(c, n, refs);
    case ListSiblings => AsideSiblings(c, n);
    case DropPolicy => AsideDrop(c, n);
    case ClearFinalizer => AsideClear(c, n);
    case AddFinalizer => AsideAdd(c, n);
    case HibernateDelete => AsideDeletes(c, n);
    case SecretGet => AsideSecretGet(c, n);
    case SecretCreate => AsideSecretCreate(c, n, key);
    case PvcApply => AsidePvc(c, n);
    case PodGet => AsidePodGet(c, n);
    case FailPatch(pod) => AsideFailPatch(c, n, pod);
    case FailDelete => AsideDeletes(c, n);
    case DriftDelete => AsideDeletes(c, n);
    case PodApply(_) => AsidePodApply(c, n);
    case ServiceApply(found) => AsideService(c, n, found);
    case DenyApply(found) => AsideService(c, n, found);
    case AllowApply(found) => AsideService(c, n, found);
    case StatusGet(found) => AsideStatusGet(c, n, found);
    case StatusPatch(st, seen, found) => AsideStatusPatch(c, n, st, Evidence(seen, c.worker.dp.spec, found));
  }

  lemma UntouchedGoing(c: Cluster, c': Cluster, n: string)
    requires Going(c, n) && Untouched(c, c', n) && (c'.worker == c.worker || Off(c', n))
    ensures Going(c', n) && RoundsLeft(c', n) == RoundsLeft(c, n)
  {
    hide RenderPod, HasForeign, BackoffBlocks, Matches, Rendered;
  }

  lemma UntouchedStage(c: Cluster, c': Cluster, n: string, before: nat)
    requires Going(c, n) && OnIt(c, n) && Stage(c, n, before) && Untouched(c, c', n) && c'.worker == c.worker
    ensures Going(c', n) && Stage(c', n, before)
  {
    hide RenderPod, HasForeign, BackoffBlocks, Matches, Rendered;
  }

  /** The measure at the start of the reconcile of n that is under way. */
  function Since(c: Cluster, n: string, a: Action, before: nat): nat
    requires n in c.devpods
  {
    if a == Start(n) then RoundsLeft(c, n) else before
  }

  /** The step ends a reconcile of n, and it was not a crash. */
  predicate Completes(c: Cluster, n: string, a: Action)
    requires Enabled(c, a)
  {
    a.DoWork? && OnIt(c, n) && Apply(c, a).worker.Idle?
  }

  /** What one step does to n's progress. */
  ghost predicate Carried(c: Cluster, c': Cluster, n: string, before: nat) {
    n in c.devpods && Going(c', n) && RoundsLeft(c', n) <= RoundsLeft(c, n) && (OnIt(c', n) ==> Stage(c', n, before))
  }

  predicate OwnPod(n: string, a: Action) { (a.PodProgress? || a.PodGone?) && a.name == n }

  /** Users with other DevPods in mind. */
  lemma UsersStep(c: Cluster, n: string, a: Action)
    requires n in c.devpods && Enabled(c, a) && Benign(n, a) && (a.UserCreate? || a.UserEdit? || a.UserDelete?)
    ensures Untouched(c, Apply(c, a), n) && Apply(c, a).worker == c.worker
  {
    hide Touch;
  }

  lemma SecretIsNeeded(c: Cluster, n: string)
    requires Going(c, n)
    ensures n in c.secrets ==> c.secrets[n].owner in LiveUids(c)
  {
    hide RenderPod, HasForeign, BackoffBlocks, Runnable, PodOk, PvcOk;
  }

  /** Kubelet and evictions, of other Pods. */
  lemma PodsStep(c: Cluster, n: string, a: Action)
    requires Enabled(c, a) && (a.PodProgress? || a.PodGone? || a.EvictPod?) && a.name != n
    ensures Untouched(c, Apply(c, a), n) && Apply(c, a).worker == c.worker
  {
  }

  /** The collector, elsewhere. */
  lemma CollectStep(c: Cluster, n: string, a: Action)
    requires Enabled(c, a) && (a.CollectSecret? || a.CollectPvc?) && a.name != n
    ensures Untouched(c, Apply(c, a), n) && Apply(c, a).worker == c.worker
  {
    hide Collectable;
  }

  /** Owners of other volumes. */
  lemma OwnersStep(c: Cluster, n: string, a: Action)
    requires Enabled(c, a) && (a.AddOwner? || a.RemoveOwner?) && a.name != n
    ensures Untouched(c, Apply(c, a), n) && Apply(c, a).worker == c.worker
  {
    hide MayAdd, OwnRef;
  }

  predicate OwnVolume(n: string, a: Action) { (a.CollectPvc? || a.AddOwner? || a.RemoveOwner?) && a.name == n }

  /** Turning to another DevPod, or falling over. */
  lemma WorkerStep(c: Cluster, n: string, a: Action)
    requires Enabled(c, a) && (a.Crash? || (a.Start? && a.name != n))
    ensures Aside(c, Apply(c, a), n)
  {
    hide FirstCall;
  }

  lemma OthersStep(c: Cluster, n: string, a: Action)
    requires Going(c, n) && Enabled(c, a) && Benign(n, a)
    requires !a.DoWork? && !a.Tick? && !OwnPod(n, a) && a != Start(n) && !OwnVolume(n, a)
    ensures Untouched(c, Apply(c, a), n)
    ensures Apply(c, a).worker == c.worker || Off(Apply(c, a), n)
  {
    hide Going, Apply, Untouched, Off, Collectable, FirstCall;
    GoingParts(c, n);
    SecretIsNeeded(c, n);
    match a
    case Start(_) => WorkerStep(c, n, a);
    case Crash => WorkerStep(c, n, a);
    case PodProgress(_, _, _, _) => PodsStep(c, n, a);
    case PodGone(_) => PodsStep(c, n, a);
    case EvictPod(_) => PodsStep(c, n, a);
    case CollectSecret(_) => CollectStep(c, n, a);
    case CollectPvc(_) => CollectStep(c, n, a);
    case AddOwner(_, _) => OwnersStep(c, n, a);
    case RemoveOwner(_, _) => OwnersStep(c, n, a);
    case _ => UsersStep(c, n, a);
  }

  lemma OtherCarried(c: Cluster, n: string, a: Action, before: nat)
    requires Going(c, n) && Enabled(c, a) && Benign(n, a) && (OnIt(c, n) ==> Stage(c, n, before))
    requires !a.DoWork? && !a.Tick? && !OwnPod(n, a) && a != Start(n) && !OwnVolume(n, a)
    ensures Carried(c, Apply(c, a), n, before)
  {
    hide Enabled, Apply, Going, Stage, RoundsLeft, Untouched;
    OthersStep(c, n, a);
    GoingParts(c, n);
    UntouchedGoing(c, Apply(c, a), n);
    if OnIt(c, n) && Apply(c, a).worker == c.worker { UntouchedStage(c, Apply(c, a), n, before); }
  }

  lemma PvcCarried(c: Cluster, n: string, before: nat)
    requires Going(c, n) && (OnIt(c, n) ==> Stage(c, n, before))
    ensures Carried(c, DoCollectPvc(c, n), n, before)
  {
    hide RenderPod, HasForeign, BackoffBlocks, Matches, Rendered;
  }

  lemma SetOwnersCarried(c: Cluster, n: string, refs: seq<OwnerRef>, before: nat)
    requires Going(c, n) && (OnIt(c, n) ==> Stage(c, n, before)) && n in c.pvcs
    requires !HasForeign(c.pvcs[n], c.devpods[n].uid) ==> !HasForeign(refs, c.devpods[n].uid)
    ensures Carried(c, SetOwners(c, n, refs), n, before)
  {
    hide RenderPod, HasForeign, BackoffBlocks, Matches, Rendered;
  }

  lemma OwnersCarried(c: Cluster, n: string, a: Action, before: nat)
    requires Going(c, n) && (OnIt(c, n) ==> Stage(c, n, before)) && Enabled(c, a) && Benign(n, a)
    requires (a.AddOwner? || a.RemoveOwner?) && a.name == n
    ensures Carried(c, Apply(c, a), n, before)
  {
    hide Going, Stage, Carried, MayAdd, OwnRef;
    GoingParts(c, n);
    match a
    case AddOwner(_, r) => SetOwnersCarried(c, n, c.pvcs[n] + [r], before);
    case RemoveOwner(_, r) => WithoutExact(c.pvcs[n], r); SetOwnersCarried(c, n, Without(c.pvcs[n], r), before);
  }

  lemma ProgressCarried(c: Cluster, n: string, phase: PodPhase, ip: string, msg: string, before: nat)
    requires Going(c, n) && (OnIt(c, n) ==> Stage(c, n, before)) && n in c.pods && phase != PodFailed
    ensures Carried(c, DoPodProgress(c, n, phase, ip, msg), n, before)
  {
    hide RenderPod, HasForeign, BackoffBlocks, Rendered;
  }

  lemma GoneCarried(c: Cluster, n: string, before: nat)
    requires Going(c, n) && (OnIt(c, n) ==> Stage(c, n, before)) && n in c.pods && c.pods[n].terminating
    ensures Carried(c, DoPodGone(c, n), n, before)
  {
    hide RenderPod, HasForeign, BackoffBlocks, Rendered, Matches;
  }

  lemma TickCarried(c: Cluster, n: string, to: int, before: nat)
    requires Going(c, n) && (OnIt(c, n) ==> Stage(c, n, before)) && c.now <= to
    ensures Carried(c, c.(now := to), n, before)
  {
    hide RenderPod, HasForeign, BackoffBlocks, Rendered, Matches;
    ControllerBackoff.LaterUnblocks(c.devpods[n].status, c.now, to);
  }

  lemma StartCarried(c: Cluster, n: string)
    requires Going(c, n) && Enabled(c, Start(n))
    ensures Carried(c, DoStart(c, n), n, RoundsLeft(c, n))
  {
    hide RenderPod, HasForeign, BackoffBlocks, Rendered, Matches;
  }

  lemma WorkCarried(c: Cluster, n: string, key: string, before: nat)
    requires Going(c, n) && c.worker.Busy? && key != "" && (OnIt(c, n) ==> Stage(c, n, before))
    ensures Carried(c, Work(c, key), n, before)
    ensures OnIt(c, n) && Work(c, key).worker.Idle? ==> Outcome(Work(c, key), n, before)
  {
    hide Going, Stage, RoundsLeft, Untouched, Work, Outcome;
    GoingParts(c, n);
    if OnIt(c, n) {
      OwnStep(c, n, before, key);
    } else {
      ElsewhereWork(c, n, key);
      UntouchedGoing(c, Work(c, key), n);
    }
  }

  lemma BenignStep(c: Cluster, n: string, a: Action, before: nat)
    requires Going(c, n) && Enabled(c, a) && Benign(n, a) && (OnIt(c, n) ==> Stage(c, n, before))
    ensures n in c.devpods && Carried(c, Apply(c, a), n, Since(c, n, a, before))
    ensures Completes(c, n, a) ==> n in Apply(c, a).devpods && Outcome(Apply(c, a), n, before)
  {
    hide Going, Stage, RoundsLeft, Work, Outcome, Carried;
    GoingParts(c, n);
    match a
    case Start(m) => if m == n { StartCarried(c, n); } else { OtherCarried(c, n, a, before); }
    case DoWork(key) => WorkCarried(c, n, key, before); CarriedIn(c, Work(c, key), n, before);
    case Tick(to) => TickCarried(c, n, to, before);
    case PodGone(m) => if m == n { GoneCarried(c, n, before); } else { OtherCarried(c, n, a, before); }
    case PodProgress(m, phase, ip, msg) =>
      if m == n { ProgressCarried(c, n, phase, ip, msg, before); } else { OtherCarried(c, n, a, before); }
    case CollectPvc(m) => if m == n { PvcCarried(c, n, before); } else { OtherCarried(c, n, a, before); }
    case AddOwner(m, _) => if m == n { OwnersCarried(c, n, a, before); } else { OtherCarried(c, n, a, before); }
    case RemoveOwner(m, _) => if m == n { OwnersCarried(c, n, a, before); } else { OtherCarried(c, n, a, before); }
    case _ => OtherCarried(c, n, a, before);
  }

  lemma CarriedIn(c: Cluster, c': Cluster, n: string, before: nat)
    requires Carried(c, c', n, before)
    ensures n in c'.devpods
  {
    hide Stage, RoundsLeft, Ours, Runnable;
  }

  // ----- every run -----

  /** A benign run in which k reconciles of n complete with no Pod of n left terminating. */
  ghost predicate Journey(c: Cluster, acts: seq<Action>, d: Cluster, n: string, k: nat)
    decreases |acts|
  {
    if acts == [] then c == d && k == 0
    else
      var i := |acts| - 1;
      exists m, j: nat :: Journey(c, acts[..i], m, n, j) && Leg(m, acts[i], d, n) && k == j + Useful(m, acts[i], n)
  }

  ghost predicate Leg(m: Cluster, a: Action, d: Cluster, n: string) {
    Enabled(m, a) && Benign(n, a) && Apply(m, a) == d
  }

  function Useful(c: Cluster, a: Action, n: string): nat {
    if Enabled(c, a) && Completes(c, n, a) && !(n in Apply(c, a).pods && Apply(c, a).pods[n].terminating) then 1 else 0
  }

  function Minus(a: nat, b: nat): nat { if a < b then 0 else a - b }

  /** After k such reconciles the measure has come down by k. */
  ghost predicate Ahead(d: Cluster, n: string, left: nat) {
    Going(d, n) && RoundsLeft(d, n) <= left && (OnIt(d, n) ==> exists before: nat :: before <= left && Stage(d, n, before))
  }

  lemma LegAhead(m: Cluster, a: Action, d: Cluster, n: string, left: nat)
    requires Ahead(m, n, left) && Leg(m, a, d, n)
    ensures Ahead(d, n, Minus(left, Useful(m, a, n)))
  {
    hide Going, Stage, RoundsLeft, Enabled, Apply, Benign, Ours, Runnable;
    GoingParts(m, n);
    var before: nat := 0;
    if OnIt(m, n) { before :| before <= left && Stage(m, n, before); }
    BenignStep(m, n, a, before);
    CarriedFacts(m, d, n, Since(m, n, a, before));
    if Useful(m, a, n) == 1 {
      OutcomeFacts(d, n, before);
      StageBound(m, n, before);
    }
  }

  lemma StageBound(c: Cluster, n: string, before: nat)
    requires n in c.devpods && c.worker.Busy? && Stage(c, n, before)
    ensures RoundsLeft(c, n) <= before
  {
    hide BackoffBlocks, Matches;
  }

  lemma CarriedFacts(c: Cluster, d: Cluster, n: string, before: nat)
    requires Carried(c, d, n, before)
    ensures n in c.devpods && n in d.devpods && Going(d, n) && RoundsLeft(d, n) <= RoundsLeft(c, n) && (OnIt(d, n) ==> Stage(d, n, before))
  {
    hide Stage, RoundsLeft, Ours, Runnable;
  }

  lemma OutcomeFacts(d: Cluster, n: string, before: nat)
    requires n in d.devpods && Outcome(d, n, before) && !(n in d.pods && d.pods[n].terminating)
    ensures RoundsLeft(d, n) == 0 || RoundsLeft(d, n) < before
  {
    hide RoundsLeft;
  }

  lemma {:induction false} JourneyAhead(c: Cluster, acts: seq<Action>, d: Cluster, n: string, k: nat)
    requires Going(c, n) && !OnIt(c, n) && Journey(c, acts, d, n, k)
    ensures n in c.devpods && Ahead(d, n, Minus(RoundsLeft(c, n), k))
    decreases |acts|
  {
    hide Going, Stage, RoundsLeft, Leg, Useful;
    GoingParts(c, n);
    if acts != [] {
      var i := |acts| - 1;
      var m, j: nat :| Journey(c, acts[..i], m, n, j) && Leg(m, acts[i], d, n) && k == j + Useful(m, acts[i], n);
      JourneyAhead(c, acts[..i], m, n, j);
      LegAhead(m, acts[i], d, n, Minus(RoundsLeft(c, n), j));
      UsefulOne(m, acts[i], n);
    }
  }

  lemma UsefulOne(c: Cluster, a: Action, n: string)
    ensures Useful(c, a, n) <= 1
  {
    hide Enabled, Apply, Completes;
  }

  /** Between reconciles every reachable store with n ready is such a start. */
  lemma ReadyGoes(c: Cluster, n: string)
    requires Reachable(c) && Ready(c, n)
    ensures Going(c, n) && !OnIt(c, n)
  {
    hide Reachable, RenderPod, HasForeign, BackoffBlocks, Inv, Runnable, ControllerBackoff.Gated, ControllerBackoff.Sighted;
    ControllerBackoff.GateReachable(c);
  }

  /** Over every benign run, whatever is interleaved with the API calls, as many
      completed reconciles as the measure counts (four at most) bring the live Pod to
      the rendered spec; a reconcile that ends with a Pod still terminating does not
      count. */
  lemma ConvergesInterleaved(c: Cluster, acts: seq<Action>, d: Cluster, n: string, k: nat)
    requires Reachable(c) && Ready(c, n) && Journey(c, acts, d, n, k) && RoundsLeft(c, n) <= k
    ensures n in d.devpods && d.devpods[n].finalizer && n in d.pods && !d.pods[n].terminating
    ensures Matches(d.cfg, d.devpods[n], d.pods[n]) && Rendered(d.cfg, d.devpods[n]).Ok?
  {
    hide Stage, Ours, Journey, Clear, Reachable;
    ReadyGoes(c, n);
    JourneyAhead(c, acts, d, n, k);
    GoingParts(d, n);
  }

  /** And no step of such a run ever sets n back. */
  lemma NeverSetBack(c: Cluster, acts: seq<Action>, d: Cluster, n: string, k: nat)
    requires Reachable(c) && Ready(c, n) && Journey(c, acts, d, n, k)
    ensures n in d.devpods && RoundsLeft(d, n) <= Minus(RoundsLeft(c, n), k)
  {
    hide Stage, Ours, Journey, Clear, Reachable, RoundsLeft;
    ReadyGoes(c, n);
    JourneyAhead(c, acts, d, n, k);
    GoingParts(d, n);
  }
}
