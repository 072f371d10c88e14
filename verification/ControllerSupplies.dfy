/** What stands before a Pod is created and once a DevPod has applied its objects: host key,
    home volume and default-deny policy. */
module ControllerSupplies {
  import opened Wrappers
  import opened Render
  import opened Controller
  import opened ControllerInvariants
  import ControllerBackoff
  import ControllerTheorems

  predicate KeyPending(call: Call) { call.PvcApply? || call.PodGet? || call.PodApply? }
  predicate HomePending(call: Call) { call.PodGet? || call.PodApply? }

  predicate OwnKey(c: Cluster, n: string, uid: Uid) { n in c.secrets && c.secrets[n].owner == uid && c.secrets[n].key != "" }
  predicate OwnHome(c: Cluster, n: string, uid: Uid) { n in c.pvcs && NamesSelf(c.pvcs[n], uid) }

  predicate Supplied(c: Cluster) {
    c.worker.Busy? ==>
      var n, dp, call := c.worker.name, c.worker.dp, c.worker.call;
      && (call.SecretCreate? ==> n !in c.secrets)
      && (KeyPending(call) ==> OwnKey(c, n, dp.uid))
      && (HomePending(call) && dp.spec.persistence.Some? ==> OwnHome(c, n, dp.uid))
  }

  predicate Isolated(c: Cluster) {
    && (c.applied != {} ==> c.net.defaultDeny) && (c.net.defaultDeny ==> c.cfg.isolateNetwork)
    && (c.worker.Busy? && (c.worker.call.DenyApply? || c.worker.call.AllowApply?) ==> c.cfg.isolateNetwork)
    && (c.worker.Busy? && c.worker.call.AllowApply? ==> c.net.defaultDeny)
  }

  // ----- the calls that supply -----

  lemma SecretSupplies(c: Cluster, key: string)
    requires Supplied(c) && c.worker.Busy? && (c.worker.call.SecretGet? || c.worker.call.SecretCreate?) && key != ""
    ensures Supplied(Work(c, key))
  {
    hide NamesSelf;
  }

  lemma PvcSupplies(c: Cluster)
    requires Supplied(c) && c.worker.Busy? && c.worker.call.PvcApply?
    ensures Supplied(RunPvcApply(c, c.worker.name, c.worker.dp))
  {
    hide HasForeign, NamesSelf;
    var refs, uid := if c.worker.name in c.pvcs then c.pvcs[c.worker.name] else [], c.worker.dp.uid;
    Appended(refs, uid);
    Appended([], uid);
    assert [] + [SelfRef(uid)] == [SelfRef(uid)];
  }

  lemma Appended(refs: seq<OwnerRef>, uid: Uid)
    ensures NamesSelf(refs + [SelfRef(uid)], uid)
  {
    var refs' := refs + [SelfRef(uid)];
    assert refs'[|refs|] == SelfRef(uid) && IsSelf(refs'[|refs|], uid);
  }

  lemma PodGetSupplies(c: Cluster)
    requires Supplied(c) && c.worker.Busy? && c.worker.call.PodGet?
    ensures Supplied(RunPodGet(c, c.worker.name, c.worker.dp))
  {
    hide NamesSelf, Rendered, Matches, Backoff, BackoffBlocks;
    if BackoffBlocks(c.worker.dp.status, c.now) { BlockedHasMark(c.worker.dp.status, c.now); }
  }

  /** The other calls lead to none of these. */
  predicate Elsewhere(c: Cluster) {
    c.worker.Busy? ==> !c.worker.call.SecretCreate? && !KeyPending(c.worker.call)
  }

  lemma ElsewhereSupplied(c: Cluster)
    requires Elsewhere(c)
    ensures Supplied(c)
  {
  }

  lemma ElsewhereAt(c: Cluster, next: Call)
    requires c.worker.Busy? && !next.SecretCreate? && !KeyPending(next)
    ensures Elsewhere(At(c, next))
  {
  }

  lemma ElsewhereStop(c: Cluster)
    ensures Elsewhere(Stop(c))
  {
  }

  lemma DetachElsewhere(c: Cluster, key: string)
    requires c.worker.Busy? && (c.worker.call.DetachGet? || c.worker.call.DetachPatch?)
    ensures Elsewhere(Work(c, key))
  {
    hide NamesSelf, OtherOwners, At, Stop, Elsewhere;
    var name, refs := c.worker.name, if c.worker.call.DetachPatch? then c.worker.call.refs else [];
    ElsewhereStop(c);
    ElsewhereAt(c, ListSiblings);
    if name in c.pvcs {
      ElsewhereAt(c, DetachPatch(c.pvcs[name]));
      ElsewhereAt(c.(pvcs := c.pvcs[name := OtherOwners(refs, c.worker.dp.uid)]), ListSiblings);
    }
  }

  lemma DeletingElsewhere(c: Cluster, key: string)
    requires c.worker.Busy? && Deleting(c.worker.call)
    ensures Elsewhere(Work(c, key))
  {
    hide NamesSelf, OtherOwners, LiveSibling, Current, RunDetachGet, RunDetachPatch;
    if c.worker.call.DetachGet? || c.worker.call.DetachPatch? { DetachElsewhere(c, key); }
  }

  lemma PodElsewhere(c: Cluster, key: string)
    requires c.worker.Busy? && (c.worker.call.FailPatch? || c.worker.call.FailDelete? || c.worker.call.DriftDelete?)
    ensures Elsewhere(Work(c, key))
  {
    hide Touch, Backoff, FailureStatus;
  }

  lemma ApplyElsewhere(c: Cluster)
    requires c.worker.Busy? && c.worker.call.PodApply?
    ensures Elsewhere(RunPodApply(c, c.worker.name, c.worker.dp))
  {
    hide Rendered, NewPod, At, Stop, Elsewhere;
    ElsewhereStop(c);
    ElsewhereAt(c, ServiceApply(Same));
    if Rendered(c.cfg, c.worker.dp).Ok? {
      ElsewhereAt(c.(pods := c.pods[c.worker.name := NewPod(c.cfg, c.worker.dp)]), ServiceApply(Same));
    }
  }

  lemma NetworkElsewhere(c: Cluster, key: string)
    requires c.worker.Busy? && (c.worker.call.ServiceApply? || c.worker.call.DenyApply? || c.worker.call.AllowApply?)
    ensures Elsewhere(Work(c, key))
  {
    hide BackendPort;
  }

  lemma StatusElsewhere(c: Cluster, key: string)
    requires c.worker.Busy? && (c.worker.call.StatusGet? || c.worker.call.StatusPatch?)
    ensures Elsewhere(Work(c, key))
  {
    hide Touch, Desired, StatusEqual, Seen;
  }

  lemma StartElsewhere(c: Cluster, key: string)
    requires c.worker.Busy? && (c.worker.call.AddFinalizer? || c.worker.call.HibernateDelete?)
    ensures Elsewhere(Work(c, key))
  {
    hide Current, Touch;
  }

  lemma WorkSupplies(c: Cluster, key: string)
    requires Supplied(c) && c.worker.Busy? && key != ""
    ensures Supplied(Work(c, key))
  {
    hide Supplied, RunPvcApply, RunPodGet, Elsewhere;
    if c.worker.call.SecretGet? || c.worker.call.SecretCreate? {
      SecretSupplies(c, key);
    } else if c.worker.call.PvcApply? {
      PvcSupplies(c);
    } else if c.worker.call.PodGet? {
      PodGetSupplies(c);
    } else {
      OthersSupply(c, key);
    }
  }

  lemma OthersSupply(c: Cluster, key: string)
    requires c.worker.Busy? && !c.worker.call.SecretGet? && !c.worker.call.SecretCreate?
    requires !c.worker.call.PvcApply? && !c.worker.call.PodGet?
    ensures Supplied(Work(c, key))
  {
    hide Supplied, Elsewhere, Work;
    match c.worker.call {
      case AddFinalizer => StartElsewhere(c, key);
      case HibernateDelete => StartElsewhere(c, key);
      case FailPatch(_) => PodElsewhere(c, key);
      case FailDelete => PodElsewhere(c, key);
      case DriftDelete => PodElsewhere(c, key);
      case PodApply(_) => ApplyElsewhere(c); IsPodApply(c, key);
      case ServiceApply(_) => NetworkElsewhere(c, key);
      case DenyApply(_) => NetworkElsewhere(c, key);
      case AllowApply(_) => NetworkElsewhere(c, key);
      case StatusGet(_) => StatusElsewhere(c, key);
      case StatusPatch(_, _, _) => StatusElsewhere(c, key);
      case _ => DeletingElsewhere(c, key);
    }
    ElsewhereSupplied(Work(c, key));
  }

  lemma IsPodApply(c: Cluster, key: string)
    requires c.worker.Busy? && c.worker.call.PodApply?
    ensures Work(c, key) == RunPodApply(c, c.worker.name, c.worker.dp)
  {
    hide RunPodApply;
  }

  /** Nobody else takes away what a stored DevPod holds. */
  lemma EnvSupplies(c: Cluster, a: Action)
    requires Inv(c) && Supplied(c) && Enabled(c, a) && !a.DoWork?
    ensures Supplied(Apply(c, a))
  {
    hide Inv, Supplied, Enabled, Apply;
    match a
    case CollectPvc(_) => CollectSupplies(c, a);
    case CollectSecret(_) => CollectSupplies(c, a);
    case AddOwner(n, r) => OwnersSupply(c, a);
    case RemoveOwner(n, r) => OwnersSupply(c, a);
    case Start(_) => StartSupplies(c, a);
    case Crash => StartSupplies(c, a);
    case _ => SameSupplies(c, a);
  }

  lemma CollectSupplies(c: Cluster, a: Action)
    requires Inv(c) && Supplied(c) && Enabled(c, a) && (a.CollectPvc? || a.CollectSecret?)
    ensures Supplied(Apply(c, a))
  {
    hide Uids, Statuses, Knowledge, Covered, Detaching, Fresh, NamesSelf, Collectable;
    if c.worker.Busy? && a.name == c.worker.name && KeyPending(c.worker.call) {
      assert c.devpods[c.worker.name].uid in LiveUids(c);
      if a.CollectPvc? { HeldHome(c); }
    }
  }

  lemma OwnersSupply(c: Cluster, a: Action)
    requires Inv(c) && Supplied(c) && Enabled(c, a) && (a.AddOwner? || a.RemoveOwner?)
    ensures Supplied(Apply(c, a))
  {
    hide Uids, Statuses, Knowledge, Covered, Detaching, Fresh, NamesSelf, OwnRef;
    OwnersEdited(c, a.name, a.owner);
  }

  lemma StartSupplies(c: Cluster, a: Action)
    requires Enabled(c, a) && (a.Start? || a.Crash?)
    ensures Supplied(Apply(c, a))
  {
  }

  lemma SameSupplies(c: Cluster, a: Action)
    requires Supplied(c) && Enabled(c, a) && !a.DoWork? && !a.Start? && !a.Crash? && !a.CollectPvc? && !a.CollectSecret?
    requires !a.AddOwner? && !a.RemoveOwner?
    ensures Supplied(Apply(c, a))
  {
    hide NamesSelf, Touch;
  }

  lemma HeldHome(c: Cluster)
    requires Inv(c) && c.worker.Busy? && !c.worker.call.AddFinalizer? && c.worker.name in c.pvcs
    ensures NamesSelf(c.pvcs[c.worker.name], c.worker.dp.uid) ==> !Collectable(c, c.pvcs[c.worker.name])
  {
    hide Statuses, Knowledge, Covered, Fresh;
    assert c.worker.name in c.devpods && c.devpods[c.worker.name].uid == c.worker.dp.uid;
  }

  lemma OwnersEdited(c: Cluster, n: string, r: OwnerRef)
    requires n in c.pvcs && !OwnRef(c, n, r)
    ensures n in c.devpods ==>
      var uid := c.devpods[n].uid;
      (NamesSelf(c.pvcs[n], uid) ==> NamesSelf(c.pvcs[n] + [r], uid) && NamesSelf(Without(c.pvcs[n], r), uid))
  {
    WithoutExact(c.pvcs[n], r);
    if n in c.devpods && NamesSelf(c.pvcs[n], c.devpods[n].uid) {
      var o :| o in c.pvcs[n] && IsSelf(o, c.devpods[n].uid);
      assert o in c.pvcs[n] + [r];
    }
  }

  lemma {:induction false} SuppliedRun(cfg: Config, acts: seq<Action>, d: Cluster)
    requires Runs(Init(cfg), acts, d)
    ensures Inv(d) && Supplied(d)
    decreases |acts|
  {
    hide Apply, Enabled, Inv, Supplied;
    if acts == [] {
      InitSupplied(cfg);
    } else {
      var k := |acts| - 1;
      var m :| Runs(Init(cfg), acts[..k], m) && Enabled(m, acts[k]) && Apply(m, acts[k]) == d;
      SuppliedRun(cfg, acts[..k], m);
      InvStep(m, acts[k]);
      SuppliedStep(m, acts[k]);
    }
  }

  lemma InitSupplied(cfg: Config)
    ensures Inv(Init(cfg)) && Supplied(Init(cfg)) && Isolated(Init(cfg))
  {
  }

  lemma SuppliedStep(c: Cluster, a: Action)
    requires Inv(c) && Supplied(c) && Enabled(c, a)
    ensures Supplied(Apply(c, a))
  {
    hide Inv, Supplied, Work;
    if a.DoWork? { WorkSupplies(c, a.key); } else { EnvSupplies(c, a); }
  }

  /** A Pod is created for the DevPod stored under its name, rendered from the spec that
      was read, and only once that DevPod's own host key is stored and, with persistence,
      its home volume names it. */
  lemma SuppliedBeforePod(c: Cluster, a: Action, n: string)
    requires Reachable(c) && Enabled(c, a) && n !in c.pods && n in Apply(c, a).pods
    ensures c.worker.Busy? && c.worker.name == n && n in c.devpods && c.devpods[n].uid == c.worker.dp.uid
    ensures var uid, p := c.devpods[n].uid, Apply(c, a).pods[n];
      && n in c.secrets && c.secrets[n].owner == uid && c.secrets[n].key != ""
      && (c.worker.dp.spec.persistence.Some? ==> n in c.pvcs && exists r :: r in c.pvcs[n] && r.kind == "DevPod" && r.uid == uid)
      && p.owner == uid && p.phase == PodPending && !p.terminating
      && RenderPod(UidText(uid), c.worker.dp.spec, c.cfg) == Ok(p.hash)
  {
    hide Inv, Runs, Apply, Enabled, RenderPod, Supplied;
    ControllerBackoff.OnlyApplyCreates(c, a, n);
    var cfg, acts :| Runs(Init(cfg), acts, c);
    SuppliedRun(cfg, acts, c);
    AboutToApply(c);
    AppliesThis(c, a);
  }

  lemma AboutToApply(c: Cluster)
    requires Inv(c) && Supplied(c) && c.worker.Busy? && c.worker.call.PodApply?
    ensures var n, dp := c.worker.name, c.worker.dp;
      && n in c.devpods && c.devpods[n].uid == dp.uid && OwnKey(c, n, dp.uid)
      && (dp.spec.persistence.Some? ==> OwnHome(c, n, dp.uid))
  {
    hide Uids, Statuses, Knowledge, Covered, Detaching, Fresh, NamesSelf;
  }

  lemma AppliesThis(c: Cluster, a: Action)
    requires Enabled(c, a) && a.DoWork? && c.worker.Busy? && c.worker.call.PodApply?
    requires c.worker.name !in c.pods && c.worker.name in Apply(c, a).pods
    ensures var dp, p := c.worker.dp, Apply(c, a).pods[c.worker.name];
      && p.owner == dp.uid && p.phase == PodPending && !p.terminating
      && RenderPod(UidText(dp.uid), dp.spec, c.cfg) == Ok(p.hash)
  {
    hide RenderPod;
  }

  // ----- isolation -----

  lemma NetworkIsolates(c: Cluster, key: string)
    requires Isolated(c) && c.worker.Busy?
    requires c.worker.call.ServiceApply? || c.worker.call.DenyApply? || c.worker.call.AllowApply?
    ensures Isolated(Work(c, key))
  {
    hide BackendPort;
  }

  predicate SameIsolation(c: Cluster, c': Cluster) {
    && c'.cfg == c.cfg && c'.applied == c.applied && c'.net.defaultDeny == c.net.defaultDeny
    && (c'.worker.Busy? ==> !c'.worker.call.DenyApply? && !c'.worker.call.AllowApply?)
  }

  lemma IsolationAt(c: Cluster, c1: Cluster, next: Call)
    requires c1.worker.Busy? && !next.DenyApply? && !next.AllowApply?
    requires c1.cfg == c.cfg && c1.applied == c.applied && c1.net.defaultDeny == c.net.defaultDeny
    ensures SameIsolation(c, At(c1, next))
  {
  }

  lemma IsolationStop(c: Cluster, c1: Cluster)
    requires c1.cfg == c.cfg && c1.applied == c.applied && c1.net.defaultDeny == c.net.defaultDeny
    ensures SameIsolation(c, Stop(c1))
  {
  }

  lemma DetachIsolation(c: Cluster, key: string)
    requires c.worker.Busy? && (c.worker.call.DetachGet? || c.worker.call.DetachPatch?)
    ensures SameIsolation(c, Work(c, key))
  {
    hide NamesSelf, OtherOwners, At, Stop, SameIsolation;
    var name, refs := c.worker.name, if c.worker.call.DetachPatch? then c.worker.call.refs else [];
    IsolationStop(c, c);
    IsolationAt(c, c, ListSiblings);
    if name in c.pvcs {
      IsolationAt(c, c, DetachPatch(c.pvcs[name]));
      IsolationAt(c, c.(pvcs := c.pvcs[name := OtherOwners(refs, c.worker.dp.uid)]), ListSiblings);
    }
  }

  lemma DeletingIsolation(c: Cluster, key: string)
    requires c.worker.Busy? && (c.worker.call.ListSiblings? || c.worker.call.DropPolicy? || c.worker.call.ClearFinalizer?)
    ensures SameIsolation(c, Work(c, key))
  {
    hide LiveSibling, Current;
  }

  lemma StartIsolation(c: Cluster, key: string)
    requires c.worker.Busy? && (c.worker.call.AddFinalizer? || c.worker.call.HibernateDelete?)
    ensures SameIsolation(c, Work(c, key))
  {
    hide Current, Touch;
  }

  lemma SecretIsolation(c: Cluster, key: string)
    requires c.worker.Busy? && (c.worker.call.SecretGet? || c.worker.call.SecretCreate?)
    ensures SameIsolation(c, Work(c, key))
  {
  }

  lemma PvcIsolation(c: Cluster)
    requires c.worker.Busy? && c.worker.call.PvcApply?
    ensures SameIsolation(c, RunPvcApply(c, c.worker.name, c.worker.dp))
  {
    hide HasForeign, NamesSelf, At, Stop, SameIsolation;
    var name, self := c.worker.name, SelfRef(c.worker.dp.uid);
    IsolationStop(c, c);
    IsolationAt(c, c, PodGet);
    IsolationAt(c, c.(pvcs := c.pvcs[name := [self]]), PodGet);
    if name in c.pvcs { IsolationAt(c, c.(pvcs := c.pvcs[name := c.pvcs[name] + [self]]), PodGet); }
  }

  lemma PodGetIsolation(c: Cluster)
    requires c.worker.Busy? && c.worker.call.PodGet?
    ensures SameIsolation(c, RunPodGet(c, c.worker.name, c.worker.dp))
  {
    hide Rendered, Matches, Backoff, BackoffBlocks, At, Stop, SameIsolation;
    var name, dp := c.worker.name, c.worker.dp;
    IsolationStop(c, c);
    IsolationAt(c, c, DriftDelete);
    IsolationAt(c, c, PodApply(Same));
    IsolationAt(c, c, PodApply(Absent));
    if name in c.pods {
      IsolationAt(c, c, FailPatch(c.pods[name]));
    } else if BackoffBlocks(dp.status, c.now) {
      BlockedHasMark(dp.status, c.now);
      IsolationAt(c, c.(requeueAfter := Backoff(dp.status.retryCount) - (c.now - dp.status.lastFailureAt.value)),
                  ServiceApply(Absent));
    }
  }

  lemma PodIsolation(c: Cluster, key: string)
    requires c.worker.Busy? && (c.worker.call.FailPatch? || c.worker.call.FailDelete? || c.worker.call.DriftDelete?)
    ensures SameIsolation(c, Work(c, key))
  {
    hide Touch, Backoff, FailureStatus;
  }

  lemma PodApplyIsolation(c: Cluster)
    requires c.worker.Busy? && c.worker.call.PodApply?
    ensures SameIsolation(c, RunPodApply(c, c.worker.name, c.worker.dp))
  {
    hide Rendered, NewPod, At, Stop, SameIsolation;
    IsolationStop(c, c);
    IsolationAt(c, c, ServiceApply(Same));
    if Rendered(c.cfg, c.worker.dp).Ok? {
      IsolationAt(c, c.(pods := c.pods[c.worker.name := NewPod(c.cfg, c.worker.dp)]), ServiceApply(Same));
    }
  }

  lemma StatusIsolation(c: Cluster, key: string)
    requires c.worker.Busy? && (c.worker.call.StatusGet? || c.worker.call.StatusPatch?)
    ensures SameIsolation(c, Work(c, key))
  {
    hide Touch, Desired, StatusEqual, Seen;
  }

  lemma SameIsolates(c: Cluster, c': Cluster)
    requires Isolated(c) && SameIsolation(c, c')
    ensures Isolated(c')
  {
  }

  lemma WorkIsolates(c: Cluster, key: string)
    requires Isolated(c) && c.worker.Busy?
    ensures Isolated(Work(c, key))
  {
    hide Isolated, SameIsolation, RunDetachGet, RunDetachPatch, RunListSiblings, RunDropPolicy, RunClearFinalizer, RunAddFinalizer;
    hide RunHibernateDelete, RunSecretGet, RunSecretCreate, RunPvcApply, RunPodGet, RunFailPatch, RunFailDelete;
    hide RunDriftDelete, RunPodApply, RunServiceApply, RunDenyApply, RunAllowApply, RunStatusGet, RunStatusPatch;
    var call := c.worker.call;
    if call.ServiceApply? || call.DenyApply? || call.AllowApply? {
      NetworkIsolates(c, key);
    } else {
      match call {
        case DetachGet => DetachIsolation(c, key);
        case DetachPatch(_) => DetachIsolation(c, key);
        case AddFinalizer => StartIsolation(c, key);
        case HibernateDelete => StartIsolation(c, key);
        case SecretGet => SecretIsolation(c, key);
        case SecretCreate => SecretIsolation(c, key);
        case PvcApply => PvcIsolation(c);
        case PodGet => PodGetIsolation(c);
        case FailPatch(_) => PodIsolation(c, key);
        case FailDelete => PodIsolation(c, key);
        case DriftDelete => PodIsolation(c, key);
        case PodApply(_) => PodApplyIsolation(c);
        case StatusGet(_) => StatusIsolation(c, key);
        case StatusPatch(_, _, _) => StatusIsolation(c, key);
        case _ => DeletingIsolation(c, key);
      }
      SameIsolates(c, Work(c, key));
    }
  }

  lemma IsolatedStep(c: Cluster, a: Action)
    requires Isolated(c) && Enabled(c, a)
    ensures Isolated(Apply(c, a))
  {
    hide Work, FirstCall;
    match a
    case DoWork(key) => WorkIsolates(c, key);
    case Start(n) => StartsElsewhere(c.devpods[n]);
    case _ =>
  }

  lemma StartsElsewhere(d: DevPod)
    requires FirstCall(d).Some?
    ensures !FirstCall(d).value.DenyApply? && !FirstCall(d).value.AllowApply?
  {
  }

  lemma {:induction false} IsolatedRun(cfg: Config, acts: seq<Action>, d: Cluster)
    requires Runs(Init(cfg), acts, d)
    ensures Isolated(d)
    decreases |acts|
  {
    hide Apply, Enabled, Isolated, Inv;
    if acts == [] {
      InitSupplied(cfg);
    } else {
      var k := |acts| - 1;
      var m :| Runs(Init(cfg), acts[..k], m) && Enabled(m, acts[k]) && Apply(m, acts[k]) == d;
      IsolatedRun(cfg, acts[..k], m);
      IsolatedStep(m, acts[k]);
    }
  }

  /** Once any DevPod has applied its owner's policy the default-deny policy stands, and
      without isolation neither is ever applied. */
  lemma AppliedMeansIsolated(c: Cluster)
    requires Reachable(c)
    ensures c.applied != {} ==> c.cfg.isolateNetwork && c.net.defaultDeny
    ensures !c.cfg.isolateNetwork ==> !c.net.defaultDeny && c.applied == {}
  {
    hide Runs;
    var cfg, acts :| Runs(Init(cfg), acts, c);
    IsolatedRun(cfg, acts, c);
  }

  // ----- one controller -----

  predicate OneController(refs: seq<OwnerRef>) {
    forall i, j :: 0 <= i < j < |refs| ==> !(refs[i].controller && refs[j].controller)
  }

  predicate Ruled(c: Cluster) {
    && (forall n :: n in c.pvcs ==> OneController(c.pvcs[n]))
    && (c.worker.Busy? && c.worker.call.DetachPatch? ==> OneController(c.worker.call.refs))
  }

  lemma TailRuled(refs: seq<OwnerRef>)
    requires OneController(refs) && refs != []
    ensures OneController(refs[1..]) && (refs[0].controller ==> forall o :: o in refs[1..] ==> !o.controller)
  {
    assert forall i :: 0 <= i < |refs| - 1 ==> refs[1..][i] == refs[i + 1];
  }

  lemma ConsRuled(r: OwnerRef, rest: seq<OwnerRef>)
    requires OneController(rest) && (r.controller ==> forall o :: o in rest ==> !o.controller)
    ensures OneController([r] + rest)
  {
    var refs := [r] + rest;
    forall i, j | 0 <= i < j < |refs|
      ensures !(refs[i].controller && refs[j].controller)
    {
      assert refs[j] == rest[j - 1];
      if i > 0 { assert refs[i] == rest[i - 1]; }
    }
  }

  lemma {:induction false} OthersRuled(refs: seq<OwnerRef>, uid: Uid)
    requires OneController(refs)
    ensures OneController(OtherOwners(refs, uid))
  {
    hide OneController;
    if refs == [] {
      assert OtherOwners(refs, uid) == refs;
    } else {
      TailRuled(refs);
      OthersRuled(refs[1..], uid);
      OtherOwnersExact(refs[1..], uid);
      ConsRuled(refs[0], OtherOwners(refs[1..], uid));
    }
  }

  lemma {:induction false} WithoutRuled(refs: seq<OwnerRef>, r: OwnerRef)
    requires OneController(refs)
    ensures OneController(Without(refs, r))
  {
    hide OneController;
    if refs == [] {
      assert Without(refs, r) == refs;
    } else {
      TailRuled(refs);
      WithoutRuled(refs[1..], r);
      WithoutExact(refs[1..], r);
      ConsRuled(refs[0], Without(refs[1..], r));
    }
  }

  /** Only four steps write owner references, and each keeps one controller. */
  lemma RuledWrites(c: Cluster)
    requires Ruled(c) && c.worker.Busy?
    ensures c.worker.call.DetachGet? ==> Ruled(RunDetachGet(c, c.worker.name, c.worker.dp))
    ensures c.worker.call.PvcApply? ==> Ruled(RunPvcApply(c, c.worker.name, c.worker.dp))
  {
    hide NamesSelf;
    if c.worker.name in c.pvcs && !HasForeign(c.pvcs[c.worker.name], c.worker.dp.uid) && !NamesSelf(c.pvcs[c.worker.name], c.worker.dp.uid) {
      AppendRuled(c.pvcs[c.worker.name], c.worker.dp.uid);
    }
  }

  lemma AppendRuled(refs: seq<OwnerRef>, uid: Uid)
    requires OneController(refs) && !HasForeign(refs, uid) && !NamesSelf(refs, uid)
    ensures OneController(refs + [SelfRef(uid)])
  {
    assert forall i :: 0 <= i < |refs| ==> refs[i] in refs;
  }

  lemma RuledDetach(c: Cluster)
    requires Ruled(c) && c.worker.Busy? && c.worker.call.DetachPatch?
    ensures Ruled(RunDetachPatch(c, c.worker.name, c.worker.dp, c.worker.call.refs))
  {
    hide OneController;
    OthersRuled(c.worker.call.refs, c.worker.dp.uid);
  }

  predicate SameVolumes(c: Cluster, c': Cluster) { c'.pvcs == c.pvcs && (c'.worker.Busy? ==> !c'.worker.call.DetachPatch?) }

  lemma VolumesAt(c: Cluster, c1: Cluster, next: Call)
    requires c1.worker.Busy? && !next.DetachPatch? && c1.pvcs == c.pvcs
    ensures SameVolumes(c, At(c1, next))
  {
  }

  lemma VolumesStop(c: Cluster, c1: Cluster)
    requires c1.pvcs == c.pvcs
    ensures SameVolumes(c, Stop(c1))
  {
  }

  lemma VolumesPods(c: Cluster, key: string)
    requires c.worker.Busy? && (c.worker.call.FailPatch? || c.worker.call.FailDelete? || c.worker.call.DriftDelete?)
    ensures SameVolumes(c, Work(c, key))
  {
    hide Touch, Backoff, FailureStatus;
  }

  lemma VolumesLookup(c: Cluster)
    requires c.worker.Busy? && c.worker.call.PodGet?
    ensures SameVolumes(c, RunPodGet(c, c.worker.name, c.worker.dp))
  {
    hide Rendered, Matches, Backoff, BackoffBlocks, At, Stop, SameVolumes;
    var name, dp := c.worker.name, c.worker.dp;
    VolumesStop(c, c);
    VolumesAt(c, c, DriftDelete);
    VolumesAt(c, c, PodApply(Same));
    VolumesAt(c, c, PodApply(Absent));
    if name in c.pods {
      VolumesAt(c, c, FailPatch(c.pods[name]));
    } else if BackoffBlocks(dp.status, c.now) {
      BlockedHasMark(dp.status, c.now);
      VolumesAt(c, c.(requeueAfter := Backoff(dp.status.retryCount) - (c.now - dp.status.lastFailureAt.value)), ServiceApply(Absent));
    }
  }

  lemma VolumesApply(c: Cluster)
    requires c.worker.Busy? && c.worker.call.PodApply?
    ensures SameVolumes(c, RunPodApply(c, c.worker.name, c.worker.dp))
  {
    hide Rendered, NewPod, At, Stop, SameVolumes;
    VolumesStop(c, c);
    VolumesAt(c, c, ServiceApply(Same));
    if Rendered(c.cfg, c.worker.dp).Ok? {
      VolumesAt(c, c.(pods := c.pods[c.worker.name := NewPod(c.cfg, c.worker.dp)]), ServiceApply(Same));
    }
  }

  lemma VolumesEnds(c: Cluster, key: string)
    requires c.worker.Busy? && (c.worker.call.ListSiblings? || c.worker.call.DropPolicy? || c.worker.call.ClearFinalizer? ||
             c.worker.call.AddFinalizer?)
    ensures SameVolumes(c, Work(c, key))
  {
    hide LiveSibling, Current, Touch;
  }

  lemma VolumesRest(c: Cluster, key: string)
    requires c.worker.Busy? && (c.worker.call.HibernateDelete? || c.worker.call.SecretGet? || c.worker.call.SecretCreate? ||
             c.worker.call.ServiceApply? || c.worker.call.DenyApply? || c.worker.call.AllowApply?)
    ensures SameVolumes(c, Work(c, key))
  {
    hide BackendPort;
  }

  lemma VolumesStatus(c: Cluster, key: string)
    requires c.worker.Busy? && (c.worker.call.StatusGet? || c.worker.call.StatusPatch?)
    ensures SameVolumes(c, Work(c, key))
  {
    hide Touch, Desired, StatusEqual, Seen;
  }

  lemma SameRules(c: Cluster, c': Cluster)
    requires Ruled(c) && SameVolumes(c, c')
    ensures Ruled(c')
  {
  }

  lemma RuledWork(c: Cluster, key: string)
    requires Ruled(c) && c.worker.Busy?
    ensures Ruled(Work(c, key))
  {
    hide Ruled, SameVolumes, RunDetachGet, RunDetachPatch, RunListSiblings, RunDropPolicy, RunClearFinalizer, RunAddFinalizer;
    hide RunHibernateDelete, RunSecretGet, RunSecretCreate, RunPvcApply, RunPodGet, RunFailPatch, RunFailDelete;
    hide RunDriftDelete, RunPodApply, RunServiceApply, RunDenyApply, RunAllowApply, RunStatusGet, RunStatusPatch;
    var call := c.worker.call;
    if call.DetachGet? || call.PvcApply? {
      RuledWrites(c);
    } else if call.DetachPatch? {
      RuledDetach(c);
    } else {
      match call {
        case PodGet => VolumesLookup(c);
        case PodApply(_) => VolumesApply(c);
        case FailPatch(_) => VolumesPods(c, key);
        case FailDelete => VolumesPods(c, key);
        case DriftDelete => VolumesPods(c, key);
        case StatusGet(_) => VolumesStatus(c, key);
        case StatusPatch(_, _, _) => VolumesStatus(c, key);
        case ListSiblings => VolumesEnds(c, key);
        case DropPolicy => VolumesEnds(c, key);
        case ClearFinalizer => VolumesEnds(c, key);
        case AddFinalizer => VolumesEnds(c, key);
        case _ => VolumesRest(c, key);
      }
      SameRules(c, Work(c, key));
    }
  }

  lemma RuledEnv(c: Cluster, a: Action)
    requires Ruled(c) && Enabled(c, a) && !a.DoWork?
    ensures Ruled(Apply(c, a))
  {
    hide Collectable, Touch, OwnRef;
    if a.RemoveOwner? { WithoutRuled(c.pvcs[a.name], a.owner); }
    if a.AddOwner? { AddRuled(c.pvcs[a.name], a.owner); }
  }

  lemma AddRuled(refs: seq<OwnerRef>, r: OwnerRef)
    requires OneController(refs) && (r.controller ==> forall o :: o in refs ==> !o.controller)
    ensures OneController(refs + [r])
  {
    assert forall i :: 0 <= i < |refs| ==> refs[i] in refs;
  }

  lemma {:induction false} RuledRun(cfg: Config, acts: seq<Action>, d: Cluster)
    requires Runs(Init(cfg), acts, d)
    ensures Ruled(d)
    decreases |acts|
  {
    hide Apply, Enabled;
    if acts != [] {
      var k := |acts| - 1;
      var m :| Runs(Init(cfg), acts[..k], m) && Enabled(m, acts[k]) && Apply(m, acts[k]) == d;
      RuledRun(cfg, acts[..k], m);
      RuledStep(m, acts[k]);
    }
  }

  lemma RuledStep(c: Cluster, a: Action)
    requires Ruled(c) && Enabled(c, a)
    ensures Ruled(Apply(c, a))
  {
    hide Ruled, Work;
    if a.DoWork? { RuledWork(c, a.key); } else { RuledEnv(c, a); }
  }

  /** However applies, detaches and others' edits interleave, a home volume has at most one
      controller. */
  lemma HomeHasOneController(c: Cluster, n: string)
    requires Reachable(c) && n in c.pvcs
    ensures forall i, j :: 0 <= i < j < |c.pvcs[n]| ==> !(c.pvcs[n][i].controller && c.pvcs[n][j].controller)
  {
    hide Runs;
    var cfg, acts :| Runs(Init(cfg), acts, c);
    RuledRun(cfg, acts, c);
  }
}
