/**
 The DevPod reconciler (internal/controllers/devpod_controller.go) against a
 store of objects that users, the kubelet and the garbage collector change too.

 There is one worker.  A reconcile is a sequence of API calls; each call is one
 atomic Work step on the store, and between any two of them anything else may
 happen, a crash or a failed call included.  Pods, Secrets, PVCs and Services
 are keyed by the name of their DevPod (Render.NamesInjective: derived names
 never collide); a rendered Pod spec stands for its own SHA-256.
 */
module Controller {
  import opened Wrappers
  import opened Render

  /** UIDs are compared and written out, nothing else: numbers stand for them. */
  type Uid = nat

  function UidText(uid: Uid): string { Itoa(uid) }

  datatype Phase = NoPhase | Pending | Running | Stopped | Failed

  /** The empty endpoint, or ip:port. */
  datatype Endpoint = NoEndpoint | Endpoint(ip: string, port: int)

  datatype Status = Status(
    phase: Phase,
    endpoint: Endpoint,
    workloadRef: Option<string>,
    pvcRef: Option<string>,
    hibernatedAt: Option<int>,
    retryCount: int,
    lastFailureAt: Option<int>,
    message: string)

  const NewStatus := Status(NoPhase, NoEndpoint, None, None, None, 0, None, "")

  /** version is the resource version; it grows with every write of the object. */
  datatype DevPod = DevPod(
    uid: Uid,
    spec: Spec,
    deleting: bool,
    finalizer: bool,
    version: nat,
    status: Status)

  datatype PodPhase = PodPending | PodRunning | PodSucceeded | PodFailed

  datatype Pod = Pod(owner: Uid, hash: PodSpec, phase: PodPhase, ip: string, message: string, terminating: bool)

  datatype Secret = Secret(owner: Uid, key: string)

  /** controller marks the managing owner; an object has at most one. */
  datatype OwnerRef = OwnerRef(kind: string, uid: Uid, controller: bool)

  /** How this reconcile left the Pod: not looked at, missing and not created,
      as rendered, deleted because its spec hash differs, deleted because it failed. */
  datatype Lookup = Skipped | Absent | Same | Drifted | Broken

  datatype Call =
    | DetachGet
    | DetachPatch(refs: seq<OwnerRef>)
    | ListSiblings
    | DropPolicy
    | ClearFinalizer
    | AddFinalizer
    | HibernateDelete
    | SecretGet
    | SecretCreate
    | PvcApply
    | PodGet
    | FailPatch(pod: Pod)
    | FailDelete
    | DriftDelete
    | PodApply(found: Lookup)
    | ServiceApply(found: Lookup)
    | DenyApply(found: Lookup)
    | AllowApply(found: Lookup)
    | StatusGet(found: Lookup)
    | StatusPatch(desired: Status, seen: Option<Pod>, found: Lookup)

  /** dp is the reconciler's own copy, read when the reconcile started. */
  datatype Worker = Idle | Busy(name: string, dp: DevPod, call: Call)

  /** Services by name, the default-deny policy, and for each owner with an allow policy
      the port it opens. */
  datatype Network = Network(services: set<string>, defaultDeny: bool, policies: map<string, int>)

  /** applied and evidence are histories: the UIDs whose owner policy was applied
      by their own reconcile, and the Pod and spec behind each DevPod's status. */
  datatype Cluster = Cluster(
    cfg: Config,
    now: int,
    devpods: map<string, DevPod>,
    pods: map<string, Pod>,
    secrets: map<string, Secret>,
    pvcs: map<string, seq<OwnerRef>>,
    net: Network,
    usedUids: set<Uid>,
    worker: Worker,
    requeueAfter: int,
    applied: set<Uid>,
    evidence: map<Uid, Evidence>)

  datatype Evidence = Evidence(pod: Option<Pod>, spec: Spec, found: Lookup)

  // ----- failure backoff -----

  const MaxBackoff := 300

  /** 10, 20, 40, ... seconds, capped. */
  function Backoff(retryCount: int): int
    decreases if retryCount > 0 then retryCount else 0
  {
    if retryCount <= 1 then 10
    else if 2 * Backoff(retryCount - 1) > MaxBackoff then MaxBackoff
    else 2 * Backoff(retryCount - 1)
  }

  method FailureBackoff(retryCount: int) returns (d: int)
    ensures d == Backoff(retryCount)
  {
    d := 10;
    var i := 0;
    while i < retryCount - 1 && d < MaxBackoff
      invariant 0 <= i && (i == 0 || i <= retryCount - 1)
      invariant 10 <= d && (d <= MaxBackoff || d / 2 < MaxBackoff)
      invariant (if d > MaxBackoff then MaxBackoff else d) == Backoff(i + 1)
      decreases retryCount - i
    {
      d := d * 2;
      i := i + 1;
    }
    if d > MaxBackoff {
      d := MaxBackoff;
    }
    if i < retryCount - 1 {
      BackoffFlat(i + 1, retryCount);
    }
  }

  lemma {:induction false} BackoffFlat(m: int, n: int)
    requires 1 <= m <= n && Backoff(m) == MaxBackoff
    ensures Backoff(n) == MaxBackoff
    decreases n - m
  {
    if m < n { BackoffFlat(m, n - 1); }
  }

  function Pow2(n: nat): nat { if n == 0 then 1 else 2 * Pow2(n - 1) }

  /** min(10 * 2^(max(n,1)-1), 300) */
  lemma {:induction false} BackoffClosedForm(n: int)
    ensures Backoff(n) == (var raw := 10 * Pow2(if n <= 1 then 0 else n - 1); if raw > MaxBackoff then MaxBackoff else raw)
    decreases if n > 0 then n else 0
  {
    if n > 1 { BackoffClosedForm(n - 1); }
  }

  // ----- pieces of a reconcile -----

  predicate IsSelf(r: OwnerRef, uid: Uid) { r.kind == "DevPod" && r.uid == uid }

  function OtherOwners(refs: seq<OwnerRef>, uid: Uid): seq<OwnerRef> {
    if refs == [] then []
    else if IsSelf(refs[0], uid) then OtherOwners(refs[1..], uid)
    else [refs[0]] + OtherOwners(refs[1..], uid)
  }

  /** The filter loop of detachPVC. */
  method FilterOwners(refs: seq<OwnerRef>, uid: Uid) returns (filtered: seq<OwnerRef>, changed: bool)
    ensures filtered == OtherOwners(refs, uid)
    ensures changed <==> exists r :: r in refs && IsSelf(r, uid)
  {
    filtered := [];
    changed := false;
    for i := 0 to |refs|
      invariant filtered + OtherOwners(refs[i..], uid) == OtherOwners(refs, uid)
      invariant changed <==> exists j :: 0 <= j < i && IsSelf(refs[j], uid)
    {
      assert refs[i..][1..] == refs[i+1..];
      if IsSelf(refs[i], uid) {
        changed := true;
        continue;
      }
      assert filtered + ([refs[i]] + OtherOwners(refs[i+1..], uid)) == (filtered + [refs[i]]) + OtherOwners(refs[i+1..], uid);
      filtered := filtered + [refs[i]];
    }
    assert refs[|refs|..] == [];
    assert filtered + [] == filtered;
  }

  /** Exactly the references of others remain, in order and with their multiplicity. */
  lemma {:induction false} OtherOwnersExact(refs: seq<OwnerRef>, uid: Uid)
    ensures forall r :: r in OtherOwners(refs, uid) <==> r in refs && !IsSelf(r, uid)
    ensures forall r :: !IsSelf(r, uid) ==> multiset(OtherOwners(refs, uid))[r] == multiset(refs)[r]
    ensures (forall r :: r in refs ==> !IsSelf(r, uid)) ==> OtherOwners(refs, uid) == refs
  {
    if refs != [] {
      OtherOwnersExact(refs[1..], uid);
      assert refs == [refs[0]] + refs[1..];
    }
  }

  /** Is there a DevPod of this owner, other than uid, that is not being deleted? */
  predicate LiveSibling(devpods: map<string, DevPod>, owner: string, uid: Uid) {
    exists n | n in devpods :: devpods[n].uid != uid && devpods[n].spec.owner == owner && !devpods[n].deleting
  }

  /** The sibling loop of cleanupOwnerNetPolIfLast, over a listing of the DevPods. */
  method HasLiveSibling(items: seq<DevPod>, owner: string, uid: Uid, ghost devpods: map<string, DevPod>)
    returns (live: bool)
    requires forall d :: d in items <==> d in devpods.Values
    ensures live == LiveSibling(devpods, owner, uid)
  {
    for i := 0 to |items|
      invariant forall j :: 0 <= j < i ==> items[j].uid == uid || items[j].spec.owner != owner || items[j].deleting
    {
      if items[i].uid == uid { continue; }
      if items[i].spec.owner != owner { continue; }
      if !items[i].deleting {
        assert items[i] in devpods.Values;
        return true;
      }
    }
    forall n | n in devpods
      ensures devpods[n].uid == uid || devpods[n].spec.owner != owner || devpods[n].deleting
    {
      assert devpods[n] in items;
    }
    return false;
  }

  /** The status updateStatus wants, given the Pod it found. */
  function Desired(name: string, dp: DevPod, pod: Option<Pod>, now: int, cfg: Config): Status {
    var pvcRef := if dp.spec.persistence.Some? then Some(HomePVCName(name)) else None;
    if !dp.spec.running then
      Status(Stopped, NoEndpoint, None, pvcRef,
             if dp.status.hibernatedAt.Some? && dp.status.phase == Stopped then dp.status.hibernatedAt else Some(now),
             0, None, "")
    else
      match pod
      case None => Status(Pending, NoEndpoint, None, pvcRef, None, 0, None, "")
      case Some(p) =>
        if p.phase == PodRunning && p.ip != "" then
          Status(Running, Endpoint(p.ip, BackendPort(UidText(dp.uid), dp.spec, cfg)), Some(name), pvcRef, None, 0, None, "")
        else if p.phase == PodFailed then
          Status(Failed, NoEndpoint, Some(name), pvcRef, None, dp.status.retryCount, dp.status.lastFailureAt, dp.status.message)
        else
          Status(Pending, NoEndpoint, Some(name), pvcRef, None, 0, None, "")
  }

  predicate StatusEqual(a: Status, b: Status) {
    && a.phase == b.phase
    && a.endpoint == b.endpoint
    && a.retryCount == b.retryCount
    && a.message == b.message
    && a.workloadRef == b.workloadRef
    && a.pvcRef == b.pvcRef
    && a.hibernatedAt == b.hibernatedAt
    && a.lastFailureAt == b.lastFailureAt
  }

  predicate BackoffBlocks(st: Status, now: int) {
    st.lastFailureAt.Some? && now - st.lastFailureAt.value < Backoff(st.retryCount)
  }

  // ----- one API call of the worker -----

  function At(c: Cluster, call: Call): Cluster
    requires c.worker.Busy?
  {
    c.(worker := c.worker.(call := call))
  }

  /** The end of a reconcile, or an error return. */
  function Stop(c: Cluster): Cluster { c.(worker := Idle) }

  /** Does the store still hold the version this reconcile read? */
  predicate Current(c: Cluster, name: string, dp: DevPod) {
    name in c.devpods && c.devpods[name].uid == dp.uid && c.devpods[name].version == dp.version
  }

  /** Every write of the object gives it a new version. */
  function Touch(d: DevPod): DevPod { d.(version := d.version + 1) }

  /** A status patch checks no version. */
  function PatchStatus(c: Cluster, name: string, st: Status): Cluster
    requires name in c.devpods
  {
    c.(devpods := c.devpods[name := Touch(c.devpods[name].(status := st))])
  }

  /** Deleting a Pod starts its termination; the kubelet ends it. */
  function DeletePod(c: Cluster, name: string): Cluster {
    if name in c.pods then c.(pods := c.pods[name := c.pods[name].(terminating := true)]) else c
  }

  function Rendered(cfg: Config, dp: DevPod): Result<PodSpec, RenderError> {
    RenderPod(UidText(dp.uid), dp.spec, cfg)
  }

  /** Does the Pod carry the hash of what this DevPod renders to now? */
  predicate Matches(cfg: Config, dp: DevPod, pod: Pod) { Rendered(cfg, dp) == Ok(pod.hash) }

  function NewPod(cfg: Config, dp: DevPod): Pod
    requires Rendered(cfg, dp).Ok?
  {
    Pod(dp.uid, Rendered(cfg, dp).value, PodPending, "", "", false)
  }

  predicate NamesSelf(refs: seq<OwnerRef>, uid: Uid) {
    exists r :: r in refs && IsSelf(r, uid)
  }

  /** The reference that applying the volume asks for. */
  function SelfRef(uid: Uid): OwnerRef { OwnerRef("DevPod", uid, true) }

  predicate HasForeign(refs: seq<OwnerRef>, uid: Uid) { exists r :: r in refs && r.controller && !IsSelf(r, uid) }

  // detachPVC

  function RunDetachGet(c: Cluster, name: string, dp: DevPod): Cluster
    requires c.worker.Busy?
  {
    if dp.spec.persistence.None? || name !in c.pvcs || !NamesSelf(c.pvcs[name], dp.uid) then At(c, ListSiblings)
    else At(c, DetachPatch(c.pvcs[name]))
  }

  function RunDetachPatch(c: Cluster, name: string, dp: DevPod, refs: seq<OwnerRef>): Cluster
    requires c.worker.Busy?
  {
    if name in c.pvcs then At(c.(pvcs := c.pvcs[name := OtherOwners(refs, dp.uid)]), ListSiblings) else Stop(c)
  }

  // cleanupOwnerNetPolIfLast

  function RunListSiblings(c: Cluster, dp: DevPod): Cluster
    requires c.worker.Busy?
  {
    if LiveSibling(c.devpods, dp.spec.owner, dp.uid) then At(c, ClearFinalizer) else At(c, DropPolicy)
  }

  function RunDropPolicy(c: Cluster, dp: DevPod): Cluster
    requires c.worker.Busy?
  {
    At(c.(net := c.net.(policies := c.net.policies - {dp.spec.owner})), ClearFinalizer)
  }

  // the finalizer

  function RunClearFinalizer(c: Cluster, name: string, dp: DevPod): Cluster {
    if Current(c, name, dp) then Stop(c.(devpods := c.devpods - {name})) else Stop(c)
  }

  function RunAddFinalizer(c: Cluster, name: string, dp: DevPod): Cluster {
    if Current(c, name, dp) then
      Stop(c.(devpods := c.devpods[name := Touch(c.devpods[name].(finalizer := true))]))
    else Stop(c)
  }

  // hibernate

  function RunHibernateDelete(c: Cluster, name: string): Cluster
    requires c.worker.Busy?
  {
    At(DeletePod(c, name), StatusGet(Skipped))
  }

  // ensureHostKeySecret; key is freshly generated

  function RunSecretGet(c: Cluster, name: string, dp: DevPod): Cluster
    requires c.worker.Busy?
  {
    if name !in c.secrets then At(c, SecretCreate)
    else if c.secrets[name].owner != dp.uid || c.secrets[name].key == "" then Stop(c)
    else At(c, PvcApply)
  }

  function RunSecretCreate(c: Cluster, name: string, dp: DevPod, key: string): Cluster
    requires c.worker.Busy?
  {
    if name in c.secrets then At(c, PvcApply)
    else At(c.(secrets := c.secrets[name := Secret(dp.uid, key)]), PvcApply)
  }

  // applyPVC: server-side apply merges the owner reference in, and the API
  // server refuses a second controller

  function RunPvcApply(c: Cluster, name: string, dp: DevPod): Cluster
    requires c.worker.Busy?
  {
    if dp.spec.persistence.None? then At(c, PodGet)
    else if name !in c.pvcs then At(c.(pvcs := c.pvcs[name := [SelfRef(dp.uid)]]), PodGet)
    else if HasForeign(c.pvcs[name], dp.uid) then Stop(c)
    else if NamesSelf(c.pvcs[name], dp.uid) then At(c, PodGet)
    else At(c.(pvcs := c.pvcs[name := c.pvcs[name] + [SelfRef(dp.uid)]]), PodGet)
  }

  // applyPodWithDriftRecreate

  function RunPodGet(c: Cluster, name: string, dp: DevPod): Cluster
    requires c.worker.Busy?
  {
    if Rendered(c.cfg, dp).Err? then Stop(c)
    else if name in c.pods then
      if c.pods[name].phase == PodFailed then At(c, FailPatch(c.pods[name]))
      else if !Matches(c.cfg, dp, c.pods[name]) then At(c, DriftDelete)
      else At(c, PodApply(Same))
    else if BackoffBlocks(dp.status, c.now) then
      At(c.(requeueAfter := Backoff(dp.status.retryCount) - (c.now - dp.status.lastFailureAt.value)),
         ServiceApply(Absent))
    else At(c, PodApply(Absent))
  }

  function RunDriftDelete(c: Cluster, name: string): Cluster
    requires c.worker.Busy?
  {
    At(DeletePod(c, name), ServiceApply(Drifted))
  }

  function RunPodApply(c: Cluster, name: string, dp: DevPod): Cluster
    requires c.worker.Busy?
  {
    if Rendered(c.cfg, dp).Err? then Stop(c)
    else if name !in c.pods then At(c.(pods := c.pods[name := NewPod(c.cfg, dp)]), ServiceApply(Same))
    else if c.pods[name].owner != dp.uid then Stop(c)
    else At(c, ServiceApply(Same))
  }

  // handleFailedPod; the patch refreshes the reconciler's copy from the server

  function FailureStatus(st: Status, now: int, msg: string): Status {
    st.(phase := Failed, retryCount := st.retryCount + 1, lastFailureAt := Some(now), message := msg)
  }

  function RunFailPatch(c: Cluster, name: string, dp: DevPod, pod: Pod): Cluster
    requires c.worker.Busy?
  {
    if name !in c.devpods then Stop(c)
    else
      var c1 := PatchStatus(c, name, FailureStatus(dp.status, c.now, pod.message));
      c1.(worker := Busy(name, c1.devpods[name], FailDelete),
          evidence := c.evidence[dp.uid := Evidence(Some(pod), dp.spec, Broken)])
  }

  function RunFailDelete(c: Cluster, name: string, dp: DevPod): Cluster
    requires c.worker.Busy?
  {
    At(DeletePod(c, name).(requeueAfter := Backoff(dp.status.retryCount)), ServiceApply(Broken))
  }

  // Service and NetworkPolicies

  function RunServiceApply(c: Cluster, name: string, found: Lookup): Cluster
    requires c.worker.Busy?
  {
    At(c.(net := c.net.(services := c.net.services + {name})),
       if c.cfg.isolateNetwork then DenyApply(found) else StatusGet(found))
  }

  function RunDenyApply(c: Cluster, found: Lookup): Cluster
    requires c.worker.Busy?
  {
    At(c.(net := c.net.(defaultDeny := true)), AllowApply(found))
  }

  function RunAllowApply(c: Cluster, dp: DevPod, found: Lookup): Cluster
    requires c.worker.Busy?
  {
    At(c.(net := c.net.(policies := c.net.policies[dp.spec.owner := BackendPort(UidText(dp.uid), dp.spec, c.cfg)]),
          applied := c.applied + {dp.uid}),
       StatusGet(found))
  }

  // updateStatus

  function Seen(c: Cluster, name: string, dp: DevPod): Option<Pod> {
    if dp.spec.running && name in c.pods then Some(c.pods[name]) else None
  }

  function RunStatusGet(c: Cluster, name: string, dp: DevPod, found: Lookup): Cluster
    requires c.worker.Busy?
  {
    var desired := Desired(name, dp, Seen(c, name, dp), c.now, c.cfg);
    if StatusEqual(dp.status, desired) then Stop(c) else At(c, StatusPatch(desired, Seen(c, name, dp), found))
  }

  function RunStatusPatch(c: Cluster, name: string, dp: DevPod, desired: Status, e: Evidence): Cluster {
    if name !in c.devpods then Stop(c)
    else Stop(PatchStatus(c, name, desired).(evidence := c.evidence[dp.uid := e]))
  }

  function Work(c: Cluster, key: string): Cluster
    requires c.worker.Busy?
  {
    var name, dp := c.worker.name, c.worker.dp;
    match c.worker.call
    case DetachGet => RunDetachGet(c, name, dp)
    case DetachPatch(refs) => RunDetachPatch(c, name, dp, refs)
    case ListSiblings => RunListSiblings(c, dp)
    case DropPolicy => RunDropPolicy(c, dp)
    case ClearFinalizer => RunClearFinalizer(c, name, dp)
    case AddFinalizer => RunAddFinalizer(c, name, dp)
    case HibernateDelete => RunHibernateDelete(c, name)
    case SecretGet => RunSecretGet(c, name, dp)
    case SecretCreate => RunSecretCreate(c, name, dp, key)
    case PvcApply => RunPvcApply(c, name, dp)
    case PodGet => RunPodGet(c, name, dp)
    case FailPatch(pod) => RunFailPatch(c, name, dp, pod)
    case FailDelete => RunFailDelete(c, name, dp)
    case DriftDelete => RunDriftDelete(c, name)
    case PodApply(_) => RunPodApply(c, name, dp)
    case ServiceApply(found) => RunServiceApply(c, name, found)
    case DenyApply(found) => RunDenyApply(c, found)
    case AllowApply(found) => RunAllowApply(c, dp, found)
    case StatusGet(found) => RunStatusGet(c, name, dp, found)
    case StatusPatch(desired, seen, found) => RunStatusPatch(c, name, dp, desired, Evidence(seen, dp.spec, found))
  }

  /** Where a reconcile of the stored DevPod goes first. */
  function FirstCall(dp: DevPod): Option<Call> {
    if dp.deleting then Some(DetachGet)
    else if !dp.finalizer then Some(AddFinalizer)
    else if !dp.spec.running then Some(HibernateDelete)
    else if dp.spec.vm || dp.spec.pod.None? then None
    else Some(SecretGet)
  }

  // ----- everything that can happen -----

  datatype Action =
    | Start(name: string)
    | DoWork(key: string)
    | Crash
    | UserCreate(name: string, uid: Uid, spec: Spec)
    | UserEdit(name: string, spec: Spec)
    | UserDelete(name: string)
    | PodProgress(name: string, phase: PodPhase, ip: string, message: string)
    | PodGone(name: string)
    | EvictPod(name: string)
    | CollectSecret(name: string)
    | CollectPvc(name: string)
    | AddOwner(name: string, owner: OwnerRef)
    | RemoveOwner(name: string, owner: OwnerRef)
    | Tick(to: int)

  function LiveUids(c: Cluster): set<Uid> { set n | n in c.devpods :: c.devpods[n].uid }

  predicate Enabled(c: Cluster, a: Action) {
    match a
    case Start(n) => c.worker.Idle? && n in c.devpods && FirstCall(c.devpods[n]).Some?
    case DoWork(key) => c.worker.Busy? && key != ""
    case Crash => c.worker.Busy?
    case UserCreate(n, uid, _) => n !in c.devpods && uid !in c.usedUids
    case UserEdit(n, spec) => n in c.devpods && spec.owner == c.devpods[n].spec.owner
    case UserDelete(n) => n in c.devpods && !c.devpods[n].deleting
    case PodProgress(n, _, _, _) => n in c.pods && !c.pods[n].phase.PodFailed? && !c.pods[n].phase.PodSucceeded?
    case PodGone(n) => n in c.pods && c.pods[n].terminating
    case EvictPod(n) => n in c.pods
    case CollectSecret(n) => n in c.secrets && c.secrets[n].owner !in LiveUids(c)
    case CollectPvc(n) => n in c.pvcs && Collectable(c, c.pvcs[n])
    case AddOwner(n, r) => n in c.pvcs && MayAdd(c, n, r)
    case RemoveOwner(n, r) => n in c.pvcs && r in c.pvcs[n] && !OwnRef(c, n, r)
    case Tick(t) => c.now <= t
  }

  /** The collector takes an object once all the owners it names are gone. */
  predicate Collectable(c: Cluster, refs: seq<OwnerRef>) {
    refs != [] && forall r :: r in refs ==> r.kind == "DevPod" && r.uid !in LiveUids(c)
  }

  /** Others write their own references only, not that of the DevPod stored under this name. */
  predicate OwnRef(c: Cluster, n: string, r: OwnerRef) { n in c.devpods && IsSelf(r, c.devpods[n].uid) }

  /** UIDs are known once given out, and there is no second controller. */
  predicate MayAdd(c: Cluster, n: string, r: OwnerRef)
    requires n in c.pvcs
  {
    && !OwnRef(c, n, r) && r !in c.pvcs[n]
    && (r.kind == "DevPod" ==> r.uid in c.usedUids)
    && (r.controller ==> forall o :: o in c.pvcs[n] ==> !o.controller)
  }

  function Without(refs: seq<OwnerRef>, r: OwnerRef): seq<OwnerRef> {
    if refs == [] then []
    else if refs[0] == r then Without(refs[1..], r)
    else [refs[0]] + Without(refs[1..], r)
  }

  function DoUserCreate(c: Cluster, n: string, uid: Uid, spec: Spec): Cluster {
    c.(devpods := c.devpods[n := DevPod(uid, spec, false, false, 0, NewStatus)], usedUids := c.usedUids + {uid})
  }

  function DoUserEdit(c: Cluster, n: string, spec: Spec): Cluster
    requires n in c.devpods
  {
    c.(devpods := c.devpods[n := Touch(c.devpods[n].(spec := spec))])
  }

  function DoUserDelete(c: Cluster, n: string): Cluster
    requires n in c.devpods
  {
    if c.devpods[n].finalizer then c.(devpods := c.devpods[n := Touch(c.devpods[n].(deleting := true))])
    else c.(devpods := c.devpods - {n})
  }

  function DoPodProgress(c: Cluster, n: string, phase: PodPhase, ip: string, msg: string): Cluster
    requires n in c.pods
  {
    c.(pods := c.pods[n := c.pods[n].(phase := phase, ip := ip, message := msg)])
  }

  function DoPodGone(c: Cluster, n: string): Cluster { c.(pods := c.pods - {n}) }
  function DoCollectSecret(c: Cluster, n: string): Cluster { c.(secrets := c.secrets - {n}) }
  function DoCollectPvc(c: Cluster, n: string): Cluster { c.(pvcs := c.pvcs - {n}) }

  function SetOwners(c: Cluster, n: string, refs: seq<OwnerRef>): Cluster { c.(pvcs := c.pvcs[n := refs]) }

  function DoStart(c: Cluster, n: string): Cluster
    requires n in c.devpods && FirstCall(c.devpods[n]).Some?
  {
    c.(worker := Busy(n, c.devpods[n], FirstCall(c.devpods[n]).value), requeueAfter := 0)
  }

  function Apply(c: Cluster, a: Action): Cluster
    requires Enabled(c, a)
  {
    match a
    case Start(n) => DoStart(c, n)
    case DoWork(key) => Work(c, key)
    case Crash => Stop(c)
    case UserCreate(n, uid, spec) => DoUserCreate(c, n, uid, spec)
    case UserEdit(n, spec) => DoUserEdit(c, n, spec)
    case UserDelete(n) => DoUserDelete(c, n)
    case PodProgress(n, phase, ip, msg) => DoPodProgress(c, n, phase, ip, msg)
    case PodGone(n) => DoPodGone(c, n)
    case EvictPod(n) => DeletePod(c, n)
    case CollectSecret(n) => DoCollectSecret(c, n)
    case CollectPvc(n) => DoCollectPvc(c, n)
    case AddOwner(n, r) => SetOwners(c, n, c.pvcs[n] + [r])
    case RemoveOwner(n, r) => SetOwners(c, n, Without(c.pvcs[n], r))
    case Tick(t) => c.(now := t)
  }

  function Init(cfg: Config): Cluster {
    Cluster(cfg, 0, map[], map[], map[], map[], Network({}, false, map[]), {}, Idle, 0, {}, map[])
  }

  ghost predicate Runs(c: Cluster, acts: seq<Action>, d: Cluster)
    decreases |acts|
  {
    if acts == [] then c == d
    else
      var k := |acts| - 1;
      exists m :: Runs(c, acts[..k], m) && Enabled(m, acts[k]) && Apply(m, acts[k]) == d
  }

  ghost predicate Reachable(c: Cluster) {
    exists cfg, acts :: Runs(Init(cfg), acts, c)
  }
}
