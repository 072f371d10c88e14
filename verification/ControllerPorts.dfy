/** The port in status and the port the Pod's supervisor was given: when they agree. */
module ControllerPorts {
  import opened Wrappers
  import opened Render
  import opened Controller
  import opened ControllerInvariants
  import opened ControllerFrames

  /** The Pod was rendered from this spec. */
  predicate RenderedFrom(cfg: Config, p: Pod, before: Spec) { RenderPod(UidText(p.owner), before, cfg) == Ok(p.hash) }

  ghost predicate Rendering(cfg: Config, p: Pod) { exists before :: RenderedFrom(cfg, p, before) }

  ghost predicate SeenRendered(cfg: Config, p: Option<Pod>) { p.Some? ==> Rendering(cfg, p.value) }

  /** Every Pod, stored or seen, was rendered from some spec of its owner. */
  ghost predicate Provenance(c: Cluster) {
    && (forall n :: n in c.pods ==> Rendering(c.cfg, c.pods[n]))
    && (c.worker.Busy? && c.worker.call.StatusPatch? ==> SeenRendered(c.cfg, c.worker.call.seen))
    && (c.worker.Busy? && c.worker.call.FailPatch? ==> Rendering(c.cfg, c.worker.call.pod))
    && (forall u :: u in c.evidence ==> SeenRendered(c.cfg, c.evidence[u].pod))
  }

  lemma SamePodRendering(cfg: Config, p: Pod, p': Pod)
    requires Rendering(cfg, p) && SamePod(p, p')
    ensures Rendering(cfg, p')
  {
    hide RenderPod;
    var before :| RenderedFrom(cfg, p, before);
    assert RenderedFrom(cfg, p', before);
  }

  lemma NewPodRendering(cfg: Config, dp: DevPod)
    requires Rendered(cfg, dp).Ok?
    ensures Rendering(cfg, NewPod(cfg, dp))
  {
    hide RenderPod;
    assert RenderedFrom(cfg, NewPod(cfg, dp), dp.spec);
  }

  lemma ProvenanceWork(c: Cluster, c': Cluster)
    requires Provenance(c) && c.worker.Busy? && Framed(c, c')
    ensures Provenance(c')
  {
    hide Rendering, OwnersKept, NextApply, StatusStep, Desired, SamePod, NewPod, Rendered;
    forall n | n in c'.pods
      ensures Rendering(c'.cfg, c'.pods[n])
    {
      if n in c.pods {
        SamePodRendering(c.cfg, c.pods[n], c'.pods[n]);
      } else {
        assert Created(c, c', n);
        NewPodRendering(c.cfg, c.worker.dp);
      }
    }
  }

  lemma ProgressSame(p: Pod, phase: PodPhase, ip: string, msg: string)
    requires p.phase != PodFailed
    ensures SamePod(p, p.(phase := phase, ip := ip, message := msg))
  {
  }

  lemma TerminatingSame(p: Pod)
    ensures SamePod(p, p.(terminating := true))
  {
  }

  lemma ProvenanceEnv(c: Cluster, a: Action)
    requires Provenance(c) && Enabled(c, a) && !a.DoWork?
    ensures Provenance(Apply(c, a))
  {
    hide Rendering, SamePod;
    match a
    case PodProgress(n, phase, ip, msg) =>
      ProgressSame(c.pods[n], phase, ip, msg);
      SamePodRendering(c.cfg, c.pods[n], DoPodProgress(c, n, phase, ip, msg).pods[n]);
    case EvictPod(n) =>
      TerminatingSame(c.pods[n]);
      SamePodRendering(c.cfg, c.pods[n], DeletePod(c, n).pods[n]);
    case _ =>
  }

  lemma {:induction false} ProvenanceRun(cfg: Config, acts: seq<Action>, d: Cluster)
    requires Runs(Init(cfg), acts, d)
    ensures Provenance(d)
    decreases |acts|
  {
    hide Apply, Provenance, Enabled, Framed;
    if acts == [] {
      ProvenanceInit(cfg);
    } else {
      var k := |acts| - 1;
      var m :| Runs(Init(cfg), acts[..k], m) && Enabled(m, acts[k]) && Apply(m, acts[k]) == d;
      ProvenanceRun(cfg, acts[..k], m);
      if acts[k].DoWork? {
        BusyToWork(m, acts[k].key);
        WorkFramed(m, acts[k].key);
        WorkIs(m, acts[k].key);
        ProvenanceWork(m, d);
      } else {
        ProvenanceEnv(m, acts[k]);
      }
    }
  }

  lemma WorkIs(c: Cluster, key: string)
    requires Enabled(c, DoWork(key))
    ensures c.worker.Busy? && Apply(c, DoWork(key)) == Work(c, key)
  {
    hide Work;
  }

  lemma ProvenanceInit(cfg: Config)
    ensures Provenance(Init(cfg))
  {
  }

  lemma ProvenanceReachable(c: Cluster)
    requires Reachable(c)
    ensures Provenance(c)
  {
    hide Provenance, Apply, Enabled;
    var cfg, acts :| Runs(Init(cfg), acts, c);
    ProvenanceRun(cfg, acts, c);
  }

  /** The facts behind a Running status. */
  lemma RunningBehind(c: Cluster, n: string)
    requires Reachable(c) && n in c.devpods && c.devpods[n].status.phase == Running
    ensures c.devpods[n].uid in c.evidence
    ensures var e, st := c.evidence[c.devpods[n].uid], c.devpods[n].status;
      && e.pod.Some? && e.pod.value.phase == PodRunning && e.pod.value.ip != "" && e.spec.running
      && st.endpoint == Endpoint(e.pod.value.ip, BackendPort(UidText(c.devpods[n].uid), e.spec, c.cfg))
      && Rendering(c.cfg, e.pod.value)
  {
    InvReachable(c);
    ProvenanceReachable(c);
    hide Uids, Coherent, Knowledge, Covered, Detaching, Rendering, Reachable, BackendPort, RenderPod;
    var d := c.devpods[n];
    assert StatusOk(c.cfg, n, d.uid, d.status, EvidenceOf(c, d.uid));
    assert SeenRendered(c.cfg, c.evidence[d.uid].pod);
  }

  /** Exactly when a Running endpoint is the port its Pod serves.  The Pod behind the
      status was rendered from some spec of its owner; for each such spec the supervisor
      listens on the reported port if and only if that spec, rendered for that owner,
      asks for the same BackendPort as the spec the status was written for. */
  lemma EndpointServedIff(c: Cluster, n: string)
    requires Reachable(c) && n in c.devpods && c.devpods[n].status.phase == Running
    ensures c.devpods[n].uid in c.evidence && c.evidence[c.devpods[n].uid].pod.Some?
    ensures var e, st, uid := c.evidence[c.devpods[n].uid], c.devpods[n].status, c.devpods[n].uid;
      var p := e.pod.value;
      && st.endpoint.Endpoint? && st.endpoint.ip == p.ip && p.phase == PodRunning
      && (exists before :: RenderedFrom(c.cfg, p, before))
      && forall before :: RenderedFrom(c.cfg, p, before) ==>
           (SupervisorPort(p.hash, before) == Some(Itoa(st.endpoint.port)) <==>
             BackendPort(UidText(p.owner), before, c.cfg) == BackendPort(UidText(uid), e.spec, c.cfg))
  {
    hide Reachable, BackendPort, RenderPod, SupervisorPort, Itoa;
    RunningBehind(c, n);
    var e, st, uid := c.evidence[c.devpods[n].uid], c.devpods[n].status, c.devpods[n].uid;
    var p := e.pod.value;
    forall before | RenderedFrom(c.cfg, p, before)
      ensures SupervisorPort(p.hash, before) == Some(Itoa(st.endpoint.port)) <==>
        BackendPort(UidText(p.owner), before, c.cfg) == BackendPort(UidText(uid), e.spec, c.cfg)
    {
      RenderedPodServesPort(UidText(p.owner), before, c.cfg);
      ItoaInjective(BackendPort(UidText(p.owner), before, c.cfg), BackendPort(UidText(uid), e.spec, c.cfg));
    }
  }

  /** What decides it for one DevPod: the host-network flag, unless the configured port
      happens to be the derived one. */
  lemma SamePortIff(uid: Uid, a: Spec, b: Spec, cfg: Config)
    requires a.pod.Some? && b.pod.Some?
    ensures var net := BackendPort(UidText(uid), a.(pod := Some(a.pod.value.(hostNetwork := true))), cfg);
      var plain := if cfg.backendPort == 0 then 2222 else cfg.backendPort;
      BackendPort(UidText(uid), a, cfg) == BackendPort(UidText(uid), b, cfg) <==>
        a.pod.value.hostNetwork == b.pod.value.hostNetwork || net == plain
  {
    hide Fnv32a;
  }
}
