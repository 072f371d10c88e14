/** What the DevPod reconciler promises in every reachable store and over every run. */
module ControllerTheorems {
  import opened Wrappers
  import opened Render
  import opened Controller
  import opened ControllerInvariants
  import opened ControllerFrames

  lemma ReachableStep(c: Cluster, a: Action)
    requires Reachable(c) && Enabled(c, a)
    ensures Reachable(Apply(c, a))
  {
    hide Enabled, Apply;
    var cfg, acts :| Runs(Init(cfg), acts, c);
    assert (acts + [a])[..|acts|] == acts;
    assert Runs(Init(cfg), acts + [a], Apply(c, a));
  }

  // ----- status -----

  /** Running comes with the address of a Pod that was seen running and the port
      its spec asks for; unless this very reconcile deleted the Pod for drift,
      that is the port the Pod's supervisor was told to listen on. */
  lemma RunningMeansReachable(c: Cluster, n: string)
    requires Reachable(c) && n in c.devpods && c.devpods[n].status.phase == Running
    ensures c.devpods[n].uid in c.evidence
    ensures var e, st := c.evidence[c.devpods[n].uid], c.devpods[n].status;
      && e.pod.Some? && e.pod.value.phase == PodRunning && e.pod.value.ip != "" && e.spec.running
      && st.endpoint == Endpoint(e.pod.value.ip, BackendPort(UidText(c.devpods[n].uid), e.spec, c.cfg))
      && st.workloadRef == Some(n)
      && (e.found == Same ==> e.pod.value.owner == c.devpods[n].uid)
      && (e.found != Drifted ==> SupervisorPort(e.pod.value.hash, e.spec) == Some(Itoa(st.endpoint.port)))
  {
    InvReachable(c);
    hide Uids, Coherent, Knowledge, Covered, Detaching;
    var d := c.devpods[n];
    assert StatusOk(c.cfg, n, d.uid, d.status, EvidenceOf(c, d.uid));
    var e := c.evidence[d.uid];
    if e.found != Drifted {
      RenderedPodServesPort(UidText(d.uid), e.spec, c.cfg);
    }
  }

  /** The phase says what the reconcile that wrote it saw: Running a Pod running with an
      address, Failed a failed one, Pending any other Pod or none although one was
      wanted, Stopped that none was wanted. */
  lemma PhaseTold(c: Cluster, n: string)
    requires Reachable(c) && n in c.devpods && c.devpods[n].status.phase != NoPhase
    ensures c.devpods[n].uid in c.evidence
    ensures var e, phase := c.evidence[c.devpods[n].uid], c.devpods[n].status.phase;
      && (phase == Running <==> e.pod.Some? && e.pod.value.phase == PodRunning && e.pod.value.ip != "")
      && (phase == Failed <==> e.pod.Some? && e.pod.value.phase == PodFailed)
      && (phase == Pending <==>
            if e.pod.None? then e.spec.running
            else e.pod.value.phase != PodFailed && !(e.pod.value.phase == PodRunning && e.pod.value.ip != ""))
      && (phase == Stopped <==> e.pod.None? && !e.spec.running)
  {
    InvReachable(c);
    hide Uids, Coherent, Knowledge, Covered, Detaching, Reachable, BackendPort, RenderPod;
    assert StatusOk(c.cfg, n, c.devpods[n].uid, c.devpods[n].status, EvidenceOf(c, c.devpods[n].uid));
  }

  lemma StoppedIsEmpty(c: Cluster, n: string)
    requires Reachable(c) && n in c.devpods && c.devpods[n].status.phase == Stopped
    ensures var st := c.devpods[n].status;
      st.endpoint == NoEndpoint && st.workloadRef == None && st.hibernatedAt.Some? && st.lastFailureAt == None
  {
    InvReachable(c);
    hide Uids, Coherent, Knowledge, Covered, Detaching;
    assert StatusOk(c.cfg, n, c.devpods[n].uid, c.devpods[n].status, EvidenceOf(c, c.devpods[n].uid));
  }

  /** While a DevPod stays stopped no step changes when it was hibernated. */
  lemma HibernatedAtIsSticky(c: Cluster, a: Action, n: string)
    requires Reachable(c) && Enabled(c, a)
    requires n in c.devpods && n in Apply(c, a).devpods && Apply(c, a).devpods[n].uid == c.devpods[n].uid
    requires c.devpods[n].status.phase == Stopped && Apply(c, a).devpods[n].status.phase == Stopped
    ensures Apply(c, a).devpods[n].status.hibernatedAt == c.devpods[n].status.hibernatedAt
  {
    hide Work, Framed, Inv, Backoff;
    InvReachable(c);
    if a.DoWork? {
      WorkKeepsHibernation(c, a.key, n);
    } else if a.UserCreate? {
      assert a.name != n;
    }
  }

  lemma WorkKeepsHibernation(c: Cluster, key: string, n: string)
    requires Inv(c) && c.worker.Busy? && n in c.devpods && n in Work(c, key).devpods
    ensures KeepsHibernation(c.devpods[n].status, Work(c, key).devpods[n].status)
  {
    hide Work, Uids, Statuses, Covered, Detaching, StatusOk, LookupOk, Fresh;
    WorkFramed(c, key);
  }

  // ----- the owner's policy -----

  lemma PolicyCoversApplied(c: Cluster, n: string)
    requires Reachable(c) && n in c.devpods && !c.devpods[n].deleting && c.devpods[n].uid in c.applied
    ensures c.devpods[n].spec.owner in c.net.policies
  {
    InvReachable(c);
  }

  /** A DevPod on its way out drops its owner's policy exactly when all others of that
      owner are being deleted too. */
  lemma DropsIff(c: Cluster)
    requires c.worker.Busy? && c.worker.call.ListSiblings?
    ensures var c' := RunListSiblings(c, c.worker.dp);
      && c'.worker.Busy? && (c'.worker.call.DropPolicy? || c'.worker.call.ClearFinalizer?)
      && (c'.worker.call.DropPolicy? <==>
            forall m :: m in c.devpods && c.devpods[m].spec.owner == c.worker.dp.spec.owner && c.devpods[m].uid != c.worker.dp.uid ==>
              c.devpods[m].deleting)
  {
  }

  /** The worker is opening the policy of this owner, for this port. */
  predicate Opens(c: Cluster, owner: string, port: int) {
    c.worker.Busy? && c.worker.call.AllowApply? && c.worker.dp.spec.owner == owner &&
    BackendPort(UidText(c.worker.dp.uid), c.worker.dp.spec, c.cfg) == port
  }

  /** The port an owner's policy opens: after the allow call of one of the owner's
      DevPods it is that DevPod's, and exactly an allow call that asks for another port
      closes it again. */
  lemma PolicyPortStep(c: Cluster, a: Action, owner: string)
    requires Enabled(c, a) && owner in c.net.policies && owner in Apply(c, a).net.policies
    ensures Apply(c, a).net.policies[owner] != c.net.policies[owner] <==>
      a.DoWork? && exists port :: Opens(c, owner, port) && port != c.net.policies[owner]
    ensures a.DoWork? ==> forall port :: Opens(c, owner, port) ==> Apply(c, a).net.policies[owner] == port
  {
    hide Work, OwnersKept, NextApply, NextPatch, BackendPort;
    if a.DoWork? {
      WorkFramed(c, a.key);
      if c.worker.call.AllowApply? {
        AllowOpens(c, a.key);
        assert Opens(c, c.worker.dp.spec.owner, BackendPort(UidText(c.worker.dp.uid), c.worker.dp.spec, c.cfg));
      }
    }
  }

  lemma AllowOpens(c: Cluster, key: string)
    requires c.worker.Busy? && c.worker.call.AllowApply?
    ensures Work(c, key).net.policies ==
      c.net.policies[c.worker.dp.spec.owner := BackendPort(UidText(c.worker.dp.uid), c.worker.dp.spec, c.cfg)]
  {
    hide BackendPort;
  }

  /** A run in which every DevPod of the owner that reaches its allow call asks for this port. */
  ghost predicate AgreeingRun(c: Cluster, acts: seq<Action>, d: Cluster, owner: string, port: int)
    decreases |acts|
  {
    if acts == [] then c == d
    else
      var k := |acts| - 1;
      exists m :: AgreeingRun(c, acts[..k], m, owner, port) && Enabled(m, acts[k]) && Apply(m, acts[k]) == d &&
        Agrees(m, acts[k], owner, port)
  }

  ghost predicate Agrees(c: Cluster, a: Action, owner: string, port: int) {
    a.DoWork? ==> forall p :: Opens(c, owner, p) ==> p == port
  }

  predicate OpensOnly(c: Cluster, owner: string, port: int) {
    owner in c.net.policies ==> c.net.policies[owner] == port
  }

  lemma AgreeingStep(c: Cluster, a: Action, owner: string, port: int)
    requires Enabled(c, a) && OpensOnly(c, owner, port) && Agrees(c, a, owner, port)
    ensures OpensOnly(Apply(c, a), owner, port)
  {
    hide Work, OwnersKept, NextApply, NextPatch, BackendPort;
    if a.DoWork? {
      WorkFramed(c, a.key);
      if c.worker.call.AllowApply? && c.worker.dp.spec.owner == owner {
        assert Opens(c, owner, BackendPort(UidText(c.worker.dp.uid), c.worker.dp.spec, c.cfg));
      }
    }
  }

  lemma {:induction false} AgreeingRuns(cfg: Config, acts: seq<Action>, d: Cluster, owner: string, port: int)
    requires AgreeingRun(Init(cfg), acts, d, owner, port)
    ensures Reachable(d) && OpensOnly(d, owner, port)
    decreases |acts|
  {
    hide Enabled, Apply, Agrees, Reachable;
    if acts == [] {
      assert Runs(Init(cfg), [], d);
      InitReachable(cfg);
    } else {
      var k := |acts| - 1;
      var m :| AgreeingRun(Init(cfg), acts[..k], m, owner, port) && Enabled(m, acts[k]) && Apply(m, acts[k]) == d &&
        Agrees(m, acts[k], owner, port);
      AgreeingRuns(cfg, acts[..k], m, owner, port);
      ReachableStep(m, acts[k]);
      AgreeingStep(m, acts[k], owner, port);
    }
  }

  lemma InitReachable(cfg: Config)
    ensures Reachable(Init(cfg))
  {
    assert Runs(Init(cfg), [], Init(cfg));
  }

  /** If all DevPods of an owner that reach their allow call ask for one port, the owner's
      policy is there and opens it for every live one that has applied it. */
  lemma AgreedPortStaysOpen(cfg: Config, acts: seq<Action>, d: Cluster, n: string, port: int)
    requires n in d.devpods && AgreeingRun(Init(cfg), acts, d, d.devpods[n].spec.owner, port)
    requires !d.devpods[n].deleting && d.devpods[n].uid in d.applied
    ensures d.devpods[n].spec.owner in d.net.policies && d.net.policies[d.devpods[n].spec.owner] == port
  {
    hide Reachable;
    AgreeingRuns(cfg, acts, d, d.devpods[n].spec.owner, port);
    PolicyCoversApplied(d, n);
  }

  /** A run in which no DevPod is deleted before its finalizer is written. */
  ghost predicate CarefulRun(c: Cluster, acts: seq<Action>, d: Cluster)
    decreases |acts|
  {
    if acts == [] then c == d
    else
      var k := |acts| - 1;
      exists m :: CarefulRun(c, acts[..k], m) && Enabled(m, acts[k]) && Apply(m, acts[k]) == d && Careful(m, acts[k])
  }

  predicate Careful(c: Cluster, a: Action) {
    a.UserDelete? && a.name in c.devpods ==> c.devpods[a.name].finalizer
  }

  ghost predicate HasOwner(devpods: map<string, DevPod>, owner: string) {
    exists n :: n in devpods && devpods[n].spec.owner == owner
  }

  ghost predicate HasOther(devpods: map<string, DevPod>, owner: string, name: string) {
    exists n :: n in devpods && n != name && devpods[n].spec.owner == owner
  }

  ghost predicate Earned(c: Cluster) {
    && (forall o :: o in c.net.policies ==> HasOwner(c.devpods, o))
    && (c.worker.Busy? && c.worker.call.ClearFinalizer? ==>
          c.worker.dp.spec.owner !in c.net.policies || HasOther(c.devpods, c.worker.dp.spec.owner, c.worker.name))
  }

  lemma OwnersKeptHas(c: Cluster, c': Cluster)
    requires OwnersKept(c, c')
    ensures forall o :: HasOwner(c.devpods, o) ==> HasOwner(c'.devpods, o)
    ensures forall o, n :: HasOther(c.devpods, o, n) ==> HasOther(c'.devpods, o, n)
  {
    forall o | HasOwner(c.devpods, o)
      ensures HasOwner(c'.devpods, o)
    {
      var n :| n in c.devpods && c.devpods[n].spec.owner == o;
      assert n in c'.devpods;
    }
    forall o, m | HasOther(c.devpods, o, m)
      ensures HasOther(c'.devpods, o, m)
    {
      var n :| n in c.devpods && n != m && c.devpods[n].spec.owner == o;
      assert n in c'.devpods;
    }
  }

  /** Steps that keep the owners and do not touch policies keep Earned. */
  lemma EarnedFrame(c: Cluster, c': Cluster)
    requires Earned(c) && OwnersKept(c, c') && c'.net.policies.Keys <= c.net.policies.Keys
    requires c'.worker.Busy? && c'.worker.call.ClearFinalizer? ==>
      c'.worker == c.worker || c'.worker.dp.spec.owner !in c'.net.policies ||
      HasOther(c'.devpods, c'.worker.dp.spec.owner, c'.worker.name)
    ensures Earned(c')
  {
    hide OwnersKept, HasOwner, HasOther;
    OwnersKeptHas(c, c');
  }

  lemma OwnersKeptEnv(c: Cluster, a: Action)
    requires Enabled(c, a) && !a.DoWork? && Careful(c, a)
    ensures OwnersKept(c, Apply(c, a))
    ensures Apply(c, a).net.policies == c.net.policies
    ensures Apply(c, a).worker == c.worker || Apply(c, a).worker.Idle? || !Apply(c, a).worker.call.ClearFinalizer?
  {
  }

  lemma EarnedAllow(c: Cluster, found: Lookup)
    requires Inv(c) && Earned(c) && c.worker.Busy? && c.worker.call == AllowApply(found)
    ensures Earned(RunAllowApply(c, c.worker.dp, found))
  {
    hide Uids, Statuses, Knowledge, Covered, Detaching, Fresh;
    assert c.worker.name in c.devpods && c.devpods[c.worker.name].spec.owner == c.worker.dp.spec.owner;
    var c' := RunAllowApply(c, c.worker.dp, found);
    forall o | o in c'.net.policies
      ensures HasOwner(c'.devpods, o)
    {
      if o in c.net.policies { assert HasOwner(c.devpods, o); }
    }
  }

  lemma EarnedSiblings(c: Cluster)
    requires Inv(c) && Earned(c) && c.worker.Busy? && c.worker.call.ListSiblings?
    ensures Earned(RunListSiblings(c, c.worker.dp))
  {
    hide Uids, Statuses, Knowledge, Covered, Detaching, Fresh;
    var c' := RunListSiblings(c, c.worker.dp);
    if LiveSibling(c.devpods, c.worker.dp.spec.owner, c.worker.dp.uid) {
      var n :| n in c.devpods && c.devpods[n].uid != c.worker.dp.uid &&
               c.devpods[n].spec.owner == c.worker.dp.spec.owner && !c.devpods[n].deleting;
      assert n != c.worker.name;
      assert HasOther(c'.devpods, c.worker.dp.spec.owner, c.worker.name);
    }
  }

  lemma EarnedClear(c: Cluster)
    requires Inv(c) && Earned(c) && c.worker.Busy? && c.worker.call.ClearFinalizer?
    ensures Earned(RunClearFinalizer(c, c.worker.name, c.worker.dp))
  {
    hide Uids, Statuses, Knowledge, Covered, Detaching, Fresh;
    var name, c' := c.worker.name, RunClearFinalizer(c, c.worker.name, c.worker.dp);
    forall o | o in c'.net.policies
      ensures HasOwner(c'.devpods, o)
    {
      var n :| n in c.devpods && c.devpods[n].spec.owner == o;
      if n == name {
        assert HasOther(c.devpods, o, name);
        var m :| m in c.devpods && m != name && c.devpods[m].spec.owner == o;
        assert m in c'.devpods;
      } else {
        assert n in c'.devpods;
      }
    }
  }

  lemma EarnedWork(c: Cluster, key: string)
    requires Inv(c) && Earned(c) && c.worker.Busy?
    ensures Earned(Work(c, key))
  {
    hide Inv, Earned, OwnersKept, RunListSiblings, RunClearFinalizer, RunAllowApply, RunDropPolicy;
    if c.worker.call.ListSiblings? {
      EarnedSiblings(c);
    } else if c.worker.call.ClearFinalizer? {
      EarnedClear(c);
    } else if c.worker.call.AllowApply? {
      EarnedAllow(c, c.worker.call.found);
    } else if c.worker.call.DropPolicy? {
      EarnedDrop(c);
    } else {
      EarnedOther(c, key);
    }
  }

  lemma EarnedDrop(c: Cluster)
    requires Earned(c) && c.worker.Busy? && c.worker.call.DropPolicy?
    ensures Earned(RunDropPolicy(c, c.worker.dp))
  {
    hide HasOwner, HasOther;
  }

  lemma EarnedOther(c: Cluster, key: string)
    requires Earned(c) && c.worker.Busy? && !c.worker.call.ListSiblings? && !c.worker.call.ClearFinalizer?
    requires !c.worker.call.AllowApply? && !c.worker.call.DropPolicy?
    ensures Earned(Work(c, key))
  {
    hide Earned, OwnersKept, Work;
    WorkFramed(c, key);
    EarnedFrame(c, Work(c, key));
  }

  lemma EarnedStep(c: Cluster, a: Action)
    requires Inv(c) && Earned(c) && Enabled(c, a) && Careful(c, a)
    ensures Earned(Apply(c, a))
  {
    hide Inv, Earned, OwnersKept, Work, Careful;
    if a.DoWork? {
      EarnedWork(c, a.key);
    } else {
      OwnersKeptEnv(c, a);
      EarnedFrame(c, Apply(c, a));
    }
  }

  lemma {:induction false} EarnedRun(cfg: Config, acts: seq<Action>, d: Cluster)
    requires CarefulRun(Init(cfg), acts, d)
    ensures Inv(d) && Earned(d)
    decreases |acts|
  {
    hide Enabled, Apply, Careful, Inv;
    if acts == [] {
      InvInit(cfg);
    } else {
      var k := |acts| - 1;
      var m :| CarefulRun(Init(cfg), acts[..k], m) && Enabled(m, acts[k]) && Apply(m, acts[k]) == d && Careful(m, acts[k]);
      EarnedRun(cfg, acts[..k], m);
      InvStep(m, acts[k]);
      EarnedStep(m, acts[k]);
    }
  }

  lemma InvInit(cfg: Config)
    ensures Inv(Init(cfg))
  {
  }

  /** Without early deletions an owner's policy exists only while a DevPod of that
      owner is stored. */
  lemma PolicyOnlyWhileStored(cfg: Config, acts: seq<Action>, d: Cluster, owner: string)
    requires CarefulRun(Init(cfg), acts, d) && owner in d.net.policies
    ensures exists n :: n in d.devpods && d.devpods[n].spec.owner == owner
  {
    EarnedRun(cfg, acts, d);
    assert HasOwner(d.devpods, owner);
  }

  // ----- the finalizer -----

  lemma WorkRemoves(c: Cluster, key: string, n: string)
    requires Coherent(c) && c.worker.Busy? && n in c.devpods && n !in Work(c, key).devpods
    ensures c.worker.call.ClearFinalizer? && n == c.worker.name && c.devpods[n] == c.worker.dp && c.worker.dp.deleting
  {
    hide Work, NextApply, NextPatch, NextFail, PolicyStep, EvidenceStep, StatusStep, PodsKept;
    WorkFramed(c, key);
    if c.worker.call.ClearFinalizer? { ClearRemoves(c, key, n); }
  }

  lemma ClearRemoves(c: Cluster, key: string, n: string)
    requires Coherent(c) && c.worker.Busy? && c.worker.call.ClearFinalizer? && n in c.devpods && n !in Work(c, key).devpods
    ensures n == c.worker.name && c.devpods[n] == c.worker.dp && c.worker.dp.deleting
  {
  }

  /** The reconciler takes a DevPod out of the store only as it read it, marked for deletion
      and not written since; anybody else only one without a finalizer. */
  lemma RemovedAsRead(c: Cluster, a: Action, n: string)
    requires Reachable(c) && Enabled(c, a) && n in c.devpods && n !in Apply(c, a).devpods
    ensures if a.DoWork? then c.worker.Busy? && c.worker.call.ClearFinalizer? && c.devpods[n] == c.worker.dp && c.devpods[n].deleting
            else a == UserDelete(n) && !c.devpods[n].finalizer
  {
    hide Enabled, Apply, Inv, Reachable;
    InvReachable(c);
    if a.DoWork? { DoWorkRemoves(c, a, n); } else { UsersRemove(c, a, n); }
  }

  lemma DoWorkRemoves(c: Cluster, a: Action, n: string)
    requires Inv(c) && Enabled(c, a) && a.DoWork? && n in c.devpods && n !in Apply(c, a).devpods
    ensures c.worker.Busy? && c.worker.call.ClearFinalizer? && c.devpods[n] == c.worker.dp && c.devpods[n].deleting
  {
    hide Work, Coherent, Uids, Statuses, Knowledge, Covered, Detaching;
    WorkRemoves(c, a.key, n);
  }

  lemma UsersRemove(c: Cluster, a: Action, n: string)
    requires Enabled(c, a) && !a.DoWork? && n in c.devpods && n !in Apply(c, a).devpods
    ensures a == UserDelete(n) && !c.devpods[n].finalizer
  {
    hide MayAdd, OwnRef, Collectable, FirstCall, Without;
  }

  // ----- data -----

  /** No step changes a stored Secret, and only the collector removes one. */
  lemma SecretStep(c: Cluster, a: Action, n: string)
    requires Enabled(c, a) && n in c.secrets
    ensures a != CollectSecret(n) ==> n in Apply(c, a).secrets && Apply(c, a).secrets[n] == c.secrets[n]
    ensures a == CollectSecret(n) ==> c.secrets[n].owner !in LiveUids(c)
  {
    hide Work;
    if a.DoWork? { WorkFramed(c, a.key); }
  }

  /** UIDs are never given out twice. */
  lemma GoneUidStaysGone(c: Cluster, a: Action, uid: Uid)
    requires Uids(c) && Enabled(c, a) && uid in c.usedUids && uid !in LiveUids(c)
    ensures uid in Apply(c, a).usedUids && uid !in LiveUids(Apply(c, a))
  {
    hide Apply, Enabled;
    UidsFrom(c, a);
  }

  lemma UidsFrom(c: Cluster, a: Action)
    requires Enabled(c, a)
    ensures c.usedUids <= Apply(c, a).usedUids
    ensures forall n :: n in Apply(c, a).devpods ==>
      (n in c.devpods && Apply(c, a).devpods[n].uid == c.devpods[n].uid) || Apply(c, a).devpods[n].uid !in c.usedUids
  {
    hide Work, OwnersKept;
    if a.DoWork? { WorkFramed(c, a.key); }
  }

  /** The host key of a DevPod never changes for as long as the DevPod is stored. */
  lemma {:induction false} HostKeySurvives(c: Cluster, acts: seq<Action>, d: Cluster, n: string)
    requires Inv(c) && Runs(c, acts, d)
    requires n in c.secrets && c.secrets[n].owner in LiveUids(c)
    ensures c.secrets[n].owner in d.usedUids
    ensures c.secrets[n].owner in LiveUids(d) ==> n in d.secrets && d.secrets[n] == c.secrets[n]
    decreases |acts|
  {
    hide Enabled, Apply;
    if acts != [] {
      var k := |acts| - 1;
      var m :| Runs(c, acts[..k], m) && Enabled(m, acts[k]) && Apply(m, acts[k]) == d;
      HostKeySurvives(c, acts[..k], m, n);
      InvRun(c, acts[..k], m);
      UidsFrom(m, acts[k]);
      if c.secrets[n].owner in LiveUids(m) {
        SecretStep(m, acts[k], n);
      } else {
        GoneUidStaysGone(m, acts[k], c.secrets[n].owner);
      }
    }
  }
}
