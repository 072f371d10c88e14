/**
 The DevPodSnapshot reconciler (internal/controllers/snapshot_controller.go) for
 one snapshot name.  Each API call is one atomic Work step; between any two of them
 the worker may crash and users and Jobs may move.  Every object a snapshot uses is
 named after it, so snapshots of different names never meet.
 */
module Snapshot {
  import opened Wrappers

  datatype Phase = NoPhase | Running | Succeeded | Failed

  datatype Auth = Auth(username: string, password: string)

  datatype Spec = Spec(devpod: string, image: string, push: bool, pushAuth: Option<Auth>, pushSecretRef: Option<string>)

  datatype Status = Status(phase: Phase, jobRef: Option<string>, digest: string, message: string)

  const NewStatus := Status(NoPhase, None, "", "")

  datatype Snap = Snap(uid: nat, version: nat, spec: Spec, status: Status)

  datatype Condition = Complete(yes: bool) | JobFailed(yes: bool, message: string) | OtherCondition

  datatype Job = Job(owner: nat, containerID: string, pushSecret: Option<string>, conditions: seq<Condition>)

  datatype Secret = Secret(owner: nat, auth: Auth)

  function JobName(name: string): string { "snapshot-" + name }
  function AuthName(name: string): string { name + "-auth" }

  /** A status patch carries only what the reconciler changed in its copy. */
  datatype Patch = ToFailed(message: string) | ToRunning(job: string) | ToSucceeded(digest: string)

  datatype Call =
    | AuthCreate
    | AuthUpdate
    | JobGet
    | DevPodGet
    | PodGet
    | JobCreate(containerID: string)
    | PatchStatus(patch: Patch)

  datatype Worker = Idle | Busy(snap: Snap, call: Call)

  /** What the reads of DevPod, Pod and Job pods bring back at this moment. */
  datatype DevPodView = NoDevPod | DevPodSeen(running: bool)
  datatype PodView = NoPod | PodSeen(running: bool, containerID: Option<string>, node: string)
  datatype View = View(devpod: DevPodView, pod: PodView, digest: string)

  datatype System = System(
    name: string,
    usedUids: set<nat>,
    snap: Option<Snap>,
    jobs: map<string, Job>,
    secrets: map<string, Secret>,
    worker: Worker)

  // ----- the reconciler -----

  /** The verdict of a Job's conditions: the first that is true and final. */
  datatype JobVerdict = StillRunning | JobDone | JobBroke(message: string)

  function VerdictOf(cs: seq<Condition>): JobVerdict {
    if cs == [] then StillRunning
    else
      match cs[0]
      case Complete(yes) => if yes then JobDone else VerdictOf(cs[1..])
      case JobFailed(yes, msg) => if yes then JobBroke(msg) else VerdictOf(cs[1..])
      case OtherCondition => VerdictOf(cs[1..])
  }

  /** Entry i is the first true final condition. */
  predicate Decides(cs: seq<Condition>, i: int) {
    0 <= i < |cs| && (cs[i] == Complete(true) || (cs[i].JobFailed? && cs[i].yes)) &&
    forall j :: 0 <= j < i ==> cs[j] != Complete(true) && !(cs[j].JobFailed? && cs[j].yes)
  }

  lemma {:induction false} VerdictIs(cs: seq<Condition>)
    ensures VerdictOf(cs) == JobDone <==> exists i :: Decides(cs, i) && cs[i] == Complete(true)
    ensures forall m :: VerdictOf(cs) == JobBroke(m) <==> exists i :: Decides(cs, i) && cs[i] == JobFailed(true, m)
    ensures VerdictOf(cs) == StillRunning <==> forall i :: 0 <= i < |cs| ==> cs[i] != Complete(true) && !(cs[i].JobFailed? && cs[i].yes)
  {
    if cs != [] {
      var rest := cs[1..];
      VerdictIs(rest);
      if cs[0] == Complete(true) || (cs[0].JobFailed? && cs[0].yes) {
        assert Decides(cs, 0);
        assert forall i :: Decides(cs, i) ==> i == 0;
      } else {
        assert forall i :: 0 <= i < |rest| ==> rest[i] == cs[i + 1];
        assert forall i :: Decides(rest, i) ==> Decides(cs, i + 1);
        assert forall i :: Decides(cs, i) ==> i > 0 && Decides(rest, i - 1);
      }
    }
  }

  method ReadConditions(cs: seq<Condition>) returns (v: JobVerdict)
    ensures v == VerdictOf(cs)
    ensures v == JobDone <==> exists i :: Decides(cs, i) && cs[i] == Complete(true)
    ensures forall m :: v == JobBroke(m) <==> exists i :: Decides(cs, i) && cs[i] == JobFailed(true, m)
  {
    VerdictIs(cs);
    for i := 0 to |cs|
      invariant VerdictOf(cs) == VerdictOf(cs[i..])
    {
      assert cs[i..][1..] == cs[i+1..];
      match cs[i] {
        case Complete(yes) => if yes { return JobDone; }
        case JobFailed(yes, msg) => if yes { return JobBroke(msg); }
        case OtherCondition =>
      }
    }
    assert cs[|cs|..] == [];
    return StillRunning;
  }

  predicate Final(p: Phase) { p.Succeeded? || p.Failed? }

  /** Where a reconcile of the stored snapshot goes first; None when it is over. */
  function FirstCall(s: Snap): Option<Call> {
    if Final(s.status.phase) then None
    else if s.spec.pushAuth.Some? then Some(AuthCreate)
    else if s.status.jobRef.Some? then Some(JobGet)
    else Some(DevPodGet)
  }

  function At(s: System, call: Call): System
    requires s.worker.Busy?
  {
    s.(worker := s.worker.(call := call))
  }

  function Stop(s: System): System { s.(worker := Idle) }

  function Fail(s: System, message: string): System
    requires s.worker.Busy?
  {
    At(s, PatchStatus(ToFailed(message)))
  }

  // materializePushAuth: a Secret that exists already is taken as it is

  function RunAuthCreate(s: System, snap: Snap): System
    requires s.worker.Busy? && snap.spec.pushAuth.Some?
  {
    if AuthName(s.name) in s.secrets then At(s, AuthUpdate)
    else At(s.(secrets := s.secrets[AuthName(s.name) := Secret(snap.uid, snap.spec.pushAuth.value)]), AuthUpdate)
  }

  /** An update is refused when the object has changed since it was read. */
  function RunAuthUpdate(s: System, snap: Snap): System {
    if s.snap.Some? && s.snap.value.uid == snap.uid && s.snap.value.version == snap.version then
      var cur := s.snap.value;
      Stop(s.(snap := Some(cur.(version := cur.version + 1,
                                spec := snap.spec.(pushAuth := None, pushSecretRef := Some(AuthName(s.name)))))))
    else Stop(s)
  }

  function RunJobGet(s: System, snap: Snap, digest: string): System
    requires s.worker.Busy? && snap.status.jobRef.Some?
  {
    if snap.status.jobRef.value !in s.jobs then Fail(s, "snapshot Job disappeared")
    else
      match VerdictOf(s.jobs[snap.status.jobRef.value].conditions)
      case JobDone => At(s, PatchStatus(ToSucceeded(digest)))
      case JobBroke(msg) => Fail(s, msg)
      case StillRunning => Stop(s)
  }

  function RunDevPodGet(s: System, v: DevPodView): System
    requires s.worker.Busy?
  {
    if v.NoDevPod? then Fail(s, "DevPod not found")
    else if !v.running then Fail(s, "DevPod is not running")
    else At(s, PodGet)
  }

  function RunPodGet(s: System, v: PodView): System
    requires s.worker.Busy?
  {
    if v.NoPod? then Fail(s, "Pod not found")
    else if !v.running then Fail(s, "Pod is not running")
    else if v.containerID.None? then Fail(s, "container ID")
    else if v.node == "" then Fail(s, "Pod has no nodeName")
    else At(s, JobCreate(v.containerID.value))
  }

  function RunJobCreate(s: System, snap: Snap, containerID: string): System
    requires s.worker.Busy?
  {
    if JobName(s.name) in s.jobs then Stop(s)
    else
      At(s.(jobs := s.jobs[JobName(s.name) := Job(snap.uid, containerID, snap.spec.pushSecretRef, [])]),
         PatchStatus(ToRunning(JobName(s.name))))
  }

  function Patched(st: Status, p: Patch): Status {
    match p
    case ToFailed(msg) => st.(phase := Failed, message := msg)
    case ToRunning(job) => st.(phase := Running, jobRef := Some(job))
    case ToSucceeded(digest) => st.(phase := Succeeded, digest := digest)
  }

  /** A patch goes to whatever object has the name now. */
  function RunPatch(s: System, p: Patch): System {
    if s.snap.None? then Stop(s)
    else
      var cur := s.snap.value;
      Stop(s.(snap := Some(cur.(version := cur.version + 1, status := Patched(cur.status, p)))))
  }

  /** The call fits the reconciler's copy. */
  predicate Callable(w: Worker) {
    w.Busy? && (w.call.AuthCreate? ==> w.snap.spec.pushAuth.Some?) && (w.call.JobGet? ==> w.snap.status.jobRef.Some?)
  }

  function Work(s: System, v: View): System
    requires Callable(s.worker)
  {
    var snap := s.worker.snap;
    match s.worker.call
    case AuthCreate => RunAuthCreate(s, snap)
    case AuthUpdate => RunAuthUpdate(s, snap)
    case JobGet => RunJobGet(s, snap, v.digest)
    case DevPodGet => RunDevPodGet(s, v.devpod)
    case PodGet => RunPodGet(s, v.pod)
    case JobCreate(id) => RunJobCreate(s, snap, id)
    case PatchStatus(p) => RunPatch(s, p)
  }

  // ----- everything that can happen -----

  datatype Action =
    | Start
    | DoWork(view: View)
    | Crash
    | UserCreate(uid: nat, spec: Spec)
    | UserEdit(spec: Spec)
    | UserDelete
    | JobProgress(job: string, conditions: seq<Condition>)
    | JobGone(job: string)
    | SecretGone(secret: string)

  predicate Enabled(s: System, a: Action) {
    match a
    case Start => s.worker.Idle? && s.snap.Some? && FirstCall(s.snap.value).Some?
    case DoWork(_) => Callable(s.worker)
    case Crash => s.worker.Busy?
    case UserCreate(uid, _) => s.snap.None? && uid !in s.usedUids
    case UserEdit(_) => s.snap.Some?
    case UserDelete => s.snap.Some?
    case JobProgress(j, _) => j in s.jobs
    case JobGone(j) => j in s.jobs
    case SecretGone(_) => true
  }

  function Apply(s: System, a: Action): System
    requires Enabled(s, a)
  {
    match a
    case Start => s.(worker := Busy(s.snap.value, FirstCall(s.snap.value).value))
    case DoWork(v) => Work(s, v)
    case Crash => Stop(s)
    case UserCreate(uid, spec) => s.(snap := Some(Snap(uid, 0, spec, NewStatus)), usedUids := s.usedUids + {uid})
    case UserEdit(spec) => s.(snap := Some(s.snap.value.(version := s.snap.value.version + 1, spec := spec)))
    case UserDelete => s.(snap := None)
    case JobProgress(j, cs) => s.(jobs := s.jobs[j := s.jobs[j].(conditions := cs)])
    case JobGone(j) => s.(jobs := s.jobs - {j})
    case SecretGone(n) => s.(secrets := s.secrets - {n})
  }

  function Init(name: string): System { System(name, {}, None, map[], map[], Idle) }

  ghost predicate Runs(s: System, acts: seq<Action>, t: System)
    decreases |acts|
  {
    if acts == [] then s == t
    else
      var n := |acts| - 1;
      exists m :: Runs(s, acts[..n], m) && Enabled(m, acts[n]) && Apply(m, acts[n]) == t
  }

  ghost predicate Reachable(s: System) { exists name, acts :: Runs(Init(name), acts, s) }
}
