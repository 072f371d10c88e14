/** What every run of the snapshot reconciler keeps. */
module SnapshotTheorems {
  import opened Wrappers
  import opened Snapshot

  // ----- the invariant -----

  /** The stored object's status is the copy's, or untouched if it is a newer object. */
  predicate Coherent(s: System) {
    s.worker.Busy? ==>
      && !Final(s.worker.snap.status.phase)
      && s.worker.snap.uid in s.usedUids
      && (s.snap.Some? ==>
            s.snap.value.status == if s.snap.value.uid == s.worker.snap.uid then s.worker.snap.status else NewStatus)
  }

  predicate StatusOk(name: string, st: Status) {
    && (st.jobRef.Some? ==> st.jobRef.value == JobName(name))
    && (st.phase.Running? ==> st.jobRef.Some?)
    && (st.phase.NoPhase? ==> st == NewStatus)
  }

  /** What the copy must look like for the call to be made. */
  predicate CallOk(s: System, snap: Snap, call: Call) {
    match call
    case AuthCreate => snap.spec.pushAuth.Some?
    case AuthUpdate => snap.spec.pushAuth.Some?
    case JobGet => snap.status.jobRef.Some?
    case DevPodGet => snap.spec.pushAuth.None? && snap.status.jobRef.None?
    case PodGet => snap.spec.pushAuth.None? && snap.status.jobRef.None?
    case JobCreate(_) => snap.spec.pushAuth.None? && snap.status.jobRef.None?
    case PatchStatus(ToFailed(_)) => true
    case PatchStatus(ToRunning(j)) => j == JobName(s.name) && snap.status.jobRef.None?
    case PatchStatus(ToSucceeded(_)) => snap.status.jobRef.Some?
  }

  predicate Inv(s: System) {
    && Coherent(s)
    && (s.snap.Some? ==> s.snap.value.uid in s.usedUids && StatusOk(s.name, s.snap.value.status))
    && (s.worker.Busy? ==> StatusOk(s.name, s.worker.snap.status) && CallOk(s, s.worker.snap, s.worker.call))
  }

  /** Reads, and the creation of the Job, leave the snapshot alone. */
  lemma ReadKeeps(s: System, v: View)
    requires Inv(s) && Callable(s.worker) && !s.worker.call.AuthUpdate? && !s.worker.call.PatchStatus?
    ensures Inv(Work(s, v))
  {
    hide VerdictOf, StatusOk;
  }

  lemma WriteKeeps(s: System, v: View)
    requires Inv(s) && Callable(s.worker) && (s.worker.call.AuthUpdate? || s.worker.call.PatchStatus?)
    ensures Inv(Work(s, v))
  {
  }

  lemma WorkKeeps(s: System, v: View)
    requires Inv(s) && Callable(s.worker)
    ensures Inv(Work(s, v))
  {
    hide Inv, Work;
    if s.worker.call.AuthUpdate? || s.worker.call.PatchStatus? {
      WriteKeeps(s, v);
    } else {
      ReadKeeps(s, v);
    }
  }

  lemma InvStep(s: System, a: Action)
    requires Inv(s) && Enabled(s, a)
    ensures Inv(Apply(s, a)) && Apply(s, a).name == s.name
  {
    hide Work, Callable;
    if a.DoWork? {
      CallableBusy(s);
      WorkKeeps(s, a.view);
      WorkName(s, a.view);
    }
  }

  lemma CallableBusy(s: System)
    ensures Callable(s.worker) ==> s.worker.Busy?
  {
  }

  lemma WorkName(s: System, v: View)
    requires Callable(s.worker)
    ensures Work(s, v).name == s.name
  {
    hide VerdictOf;
  }

  lemma {:induction false} InvRun(s: System, acts: seq<Action>, t: System)
    requires Inv(s) && Runs(s, acts, t)
    ensures Inv(t) && t.name == s.name
    decreases |acts|
  {
    hide Inv, Enabled, Apply;
    if acts != [] {
      var n := |acts| - 1;
      var m :| Runs(s, acts[..n], m) && Enabled(m, acts[n]) && Apply(m, acts[n]) == t;
      InvRun(s, acts[..n], m);
      InvStep(m, acts[n]);
    }
  }

  lemma InvReachable(s: System)
    requires Reachable(s)
    ensures Inv(s)
  {
    var name, acts :| Runs(Init(name), acts, s);
    InvRun(Init(name), acts, s);
  }

  // ----- absorbing phases, and the Job reference -----

  /** The same object survives the step. */
  predicate SameObject(s: System, t: System) {
    s.snap.Some? && t.snap.Some? && t.snap.value.uid == s.snap.value.uid
  }

  /** Nothing, crash or second reconcile included, takes a snapshot out of Succeeded
      or Failed, or changes the rest of its status. */
  lemma FinalPhasesAbsorb(s: System, a: Action)
    requires Reachable(s) && Enabled(s, a) && SameObject(s, Apply(s, a)) && Final(s.snap.value.status.phase)
    ensures Apply(s, a).snap.value.status == s.snap.value.status
  {
    InvReachable(s);
    hide VerdictOf;
  }

  /** The Job reference is set only in the step that makes the phase Running, always to
      the name derived from the snapshot, and is never changed or cleared. */
  lemma JobRefOnlyWithRunning(s: System, a: Action)
    requires Reachable(s) && Enabled(s, a) && SameObject(s, Apply(s, a))
    ensures var before, after := s.snap.value.status, Apply(s, a).snap.value.status;
      && (before.jobRef.Some? ==> after.jobRef == before.jobRef)
      && (after.jobRef != before.jobRef ==> after.phase == Running && after.jobRef == Some(JobName(s.name)))
      && (after.phase == Running && before.phase != Running ==> before.jobRef.None? && after.jobRef.Some?)
  {
    InvReachable(s);
    hide VerdictOf;
  }

  /** A Job is created only by a reconcile whose copy has no inline credentials, never
      over an existing Job of that name, and with the Secret the copy refers to. */
  lemma JobCreation(s: System, a: Action, j: string)
    requires Reachable(s) && Enabled(s, a) && j !in s.jobs && j in Apply(s, a).jobs
    ensures a.DoWork? && s.worker.Busy? && s.worker.call.JobCreate? && j == JobName(s.name)
    ensures s.worker.snap.spec.pushAuth.None? && s.worker.snap.status.jobRef.None?
    ensures Apply(s, a).jobs[j].owner == s.worker.snap.uid && Apply(s, a).jobs[j].containerID == s.worker.call.containerID
    ensures Apply(s, a).jobs[j].conditions == []
    ensures Apply(s, a).jobs[j].pushSecret == s.worker.snap.spec.pushSecretRef
  {
    InvReachable(s);
    hide VerdictOf;
  }

  /** The credentials leave the spec only for a reference to the derived Secret. */
  lemma AuthMoves(s: System, v: View)
    requires Reachable(s) && Callable(s.worker) && s.snap.Some? && s.snap.value.spec.pushAuth.Some?
    requires Work(s, v).snap.Some? && Work(s, v).snap.value.spec.pushAuth.None?
    ensures s.worker.call.AuthUpdate? && s.snap.value.uid == s.worker.snap.uid
    ensures Work(s, v).snap.value.spec.pushSecretRef == Some(AuthName(s.name))
    ensures Work(s, v).snap.value.status == s.snap.value.status
  {
    hide VerdictOf;
  }

  // ----- succeeded means there was a Job -----

  /** A run in which no snapshot is deleted in the middle of its reconcile. */
  ghost predicate CarefulRun(s: System, acts: seq<Action>, t: System)
    decreases |acts|
  {
    if acts == [] then s == t
    else
      var n := |acts| - 1;
      exists m :: CarefulRun(s, acts[..n], m) && Enabled(m, acts[n]) && Apply(m, acts[n]) == t &&
        !(acts[n].UserDelete? && m.worker.Busy?)
  }

  predicate Earned(s: System) {
    && (s.snap.Some? && s.snap.value.status.phase.Succeeded? ==> s.snap.value.status.jobRef.Some?)
    && (s.worker.Busy? ==> s.snap.Some? && s.snap.value.uid == s.worker.snap.uid)
  }

  lemma EarnedStep(s: System, a: Action)
    requires Inv(s) && Earned(s) && Enabled(s, a) && !(a.UserDelete? && s.worker.Busy?)
    ensures Earned(Apply(s, a))
  {
    hide VerdictOf;
  }

  lemma {:induction false} SucceededHasJob(name: string, acts: seq<Action>, t: System)
    requires CarefulRun(Init(name), acts, t)
    ensures Inv(t) && Earned(t)
    ensures t.snap.Some? && t.snap.value.status.phase.Succeeded? ==> t.snap.value.status.jobRef == Some(JobName(t.name))
    decreases |acts|
  {
    hide Enabled, Apply;
    if acts != [] {
      var n := |acts| - 1;
      var m :| CarefulRun(Init(name), acts[..n], m) && Enabled(m, acts[n]) && Apply(m, acts[n]) == t &&
        !(acts[n].UserDelete? && m.worker.Busy?);
      SucceededHasJob(name, acts[..n], m);
      InvStep(m, acts[n]);
      EarnedStep(m, acts[n]);
    }
  }

  /** Exactly when a success patch leaves a snapshot with its Job: when the object it
      lands on is the one the reconcile read. */
  lemma SuccessHasJobIff(s: System, v: View)
    requires Reachable(s) && s.snap.Some?
    requires s.worker.Busy? && s.worker.call.PatchStatus? && s.worker.call.patch.ToSucceeded?
    ensures Enabled(s, DoWork(v))
    ensures var t := Apply(s, DoWork(v));
      t.snap.Some? && t.snap.value.status.phase.Succeeded? &&
      (t.snap.value.status.jobRef.Some? <==> s.snap.value.uid == s.worker.snap.uid)
  {
    InvReachable(s);
  }

  /** The restriction is needed: the patch checks no UID, so from every state about to
      report success, deleting and recreating the snapshot makes the new one Succeeded
      without a Job. */
  lemma StalePatchHitsSuccessor(s: System, uid: nat, spec: Spec, v: View)
    requires Reachable(s) && s.snap.Some? && uid !in s.usedUids
    requires s.worker.Busy? && s.worker.call.PatchStatus? && s.worker.call.patch.ToSucceeded?
    ensures Enabled(s, UserDelete) && Enabled(Apply(s, UserDelete), UserCreate(uid, spec))
    ensures var m := Apply(Apply(s, UserDelete), UserCreate(uid, spec));
      Enabled(m, DoWork(v)) && var t := Apply(m, DoWork(v));
      t.snap.Some? && t.snap.value.uid == uid && t.snap.value.status.phase.Succeeded? && t.snap.value.status.jobRef.None?
  {
  }

  // ----- whose Job it is -----

  /** The Job a snapshot refers to, while it is stored, belongs to that snapshot. */
  predicate Owned(s: System) {
    s.snap.Some? && s.snap.value.status.jobRef.Some? && s.snap.value.status.jobRef.value in s.jobs ==>
      s.jobs[s.snap.value.status.jobRef.value].owner == s.snap.value.uid
  }

  /** The Job about to be recorded belongs to the snapshot that was read. */
  predicate Recorder(s: System) {
    s.worker.Busy? && s.worker.call.PatchStatus? && s.worker.call.patch.ToRunning? && s.worker.call.patch.job in s.jobs ==>
      s.jobs[s.worker.call.patch.job].owner == s.worker.snap.uid
  }

  lemma RecorderStep(s: System, a: Action)
    requires Inv(s) && Recorder(s) && Enabled(s, a)
    ensures Recorder(Apply(s, a))
  {
    hide VerdictOf, StatusOk;
  }

  lemma {:induction false} RecorderRun(name: string, acts: seq<Action>, t: System)
    requires Runs(Init(name), acts, t)
    ensures Inv(t) && Recorder(t)
    decreases |acts|
  {
    hide Enabled, Apply;
    if acts != [] {
      var n := |acts| - 1;
      var m :| Runs(Init(name), acts[..n], m) && Enabled(m, acts[n]) && Apply(m, acts[n]) == t;
      RecorderRun(name, acts[..n], m);
      InvStep(m, acts[n]);
      RecorderStep(m, acts[n]);
    }
  }

  /** The patch that records a stored Job meets another object than the one read. */
  predicate Misdirected(s: System, a: Action) {
    && a.DoWork? && s.worker.Busy? && s.worker.call.PatchStatus? && s.worker.call.patch.ToRunning?
    && s.worker.call.patch.job in s.jobs && s.snap.Some? && s.snap.value.uid != s.worker.snap.uid
  }

  /** Whatever happens, the only step that breaks ownership is a misdirected patch. */
  lemma OwnedIff(s: System, a: Action)
    requires Reachable(s) && Owned(s) && Enabled(s, a)
    ensures Owned(Apply(s, a)) <==> !Misdirected(s, a)
  {
    hide VerdictOf, Runs;
    var name, acts :| Runs(Init(name), acts, s);
    RecorderRun(name, acts, s);
  }

  /** So the Job is the snapshot's own in runs that delete none during its reconcile. */
  lemma {:induction false} JobIsOwn(name: string, acts: seq<Action>, t: System)
    requires CarefulRun(Init(name), acts, t)
    ensures Reachable(t) && Owned(t)
    decreases |acts|
  {
    hide Enabled, Apply, Reachable, Owned;
    if acts == [] {
      InitReachable(name);
      InitOwned(name);
    } else {
      var n := |acts| - 1;
      var m :| CarefulRun(Init(name), acts[..n], m) && Enabled(m, acts[n]) && Apply(m, acts[n]) == t &&
        !(acts[n].UserDelete? && m.worker.Busy?);
      JobIsOwn(name, acts[..n], m);
      SucceededHasJob(name, acts[..n], m);
      ReachableStep(m, acts[n]);
      OwnedIff(m, acts[n]);
    }
  }

  lemma InitOwned(name: string)
    ensures Owned(Init(name))
  {
  }

  // ----- a Job that is created and never recorded -----

  /** The Job exists and nobody holds the call that would record it. */
  predicate Orphaned(s: System) {
    && JobName(s.name) in s.jobs
    && (s.snap.Some? ==> s.snap.value.status.jobRef.None?)
    && (s.worker.Busy? ==>
          s.worker.snap.status.jobRef.None? && !(s.worker.call.PatchStatus? && !s.worker.call.patch.ToFailed?))
  }

  /** Exactly how a Job that was created ends up unrecorded, if it stays: the worker
      crashes first, or the snapshot is gone when the patch arrives. */
  lemma CreatedJobOrphanedIff(s: System, a: Action)
    requires Reachable(s) && s.worker.Busy? && s.worker.call.PatchStatus? && s.worker.call.patch.ToRunning?
    requires JobName(s.name) in s.jobs && Enabled(s, a) && a != JobGone(JobName(s.name))
    ensures Orphaned(Apply(s, a)) <==> a.Crash? || (a.DoWork? && s.snap.None?)
  {
    InvReachable(s);
  }

  lemma OrphanedStep(s: System, a: Action)
    requires Inv(s) && Orphaned(s) && Enabled(s, a) && a != JobGone(JobName(s.name))
    ensures Orphaned(Apply(s, a))
  {
    hide VerdictOf;
  }

  /** Such a Job is never adopted: for as long as it exists the snapshot has no Job
      reference and is neither Running nor Succeeded, whatever the reconciler tries. */
  lemma {:induction false} OrphanNeverAdopted(s: System, acts: seq<Action>, t: System)
    requires Inv(s) && Orphaned(s) && Runs(s, acts, t) && (s.snap.Some? ==> s.snap.value.status.phase.NoPhase?)
    requires forall i :: 0 <= i < |acts| ==> acts[i] != JobGone(JobName(s.name))
    ensures Inv(t) && Orphaned(t) && t.name == s.name
    ensures t.snap.Some? ==> t.snap.value.status.jobRef.None? && t.snap.value.status.phase != Running
    ensures t.snap.Some? ==> t.snap.value.status.phase != Succeeded
    decreases |acts|
  {
    hide Enabled, Apply, CallOk, Coherent;
    if acts != [] {
      var n := |acts| - 1;
      var m :| Runs(s, acts[..n], m) && Enabled(m, acts[n]) && Apply(m, acts[n]) == t;
      OrphanNeverAdopted(s, acts[..n], m);
      InvStep(m, acts[n]);
      OrphanedStep(m, acts[n]);
      NeverSucceeds(m, acts[n]);
    }
  }

  lemma NeverSucceeds(s: System, a: Action)
    requires Orphaned(s) && Enabled(s, a) && (s.snap.Some? ==> s.snap.value.status.phase != Succeeded)
    ensures Apply(s, a).snap.Some? ==> Apply(s, a).snap.value.status.phase != Succeeded
  {
    hide VerdictOf;
  }

  // ----- runs that lead there -----

  lemma ReachableStep(s: System, a: Action)
    requires Reachable(s) && Enabled(s, a)
    ensures Reachable(Apply(s, a))
  {
    hide Enabled, Apply;
    var name, acts :| Runs(Init(name), acts, s);
    assert (acts + [a])[..|acts|] == acts;
    assert Runs(Init(name), acts + [a], Apply(s, a));
  }

  const Healthy := View(DevPodSeen(true), PodSeen(true, Some("id"), "node"), "sha256:0")

  /** The reconciler has created the Job and is about to record it. */
  function Recording(name: string, uid: nat, spec: Spec): System {
    var snap := Snap(uid, 0, spec, NewStatus);
    System(name, {uid}, Some(snap), map[JobName(name) := Job(uid, "id", spec.pushSecretRef, [])], map[],
           Busy(snap, PatchStatus(ToRunning(JobName(name)))))
  }

  lemma RecordingReachable(name: string, uid: nat, spec: Spec)
    requires spec.pushAuth.None?
    ensures Reachable(Recording(name, uid, spec))
  {
    hide Reachable, JobName;
    InitReachable(name);
    var snap := Snap(uid, 0, spec, NewStatus);
    var s1 := Init(name).(usedUids := {uid}, snap := Some(snap));
    ReachableStep(Init(name), UserCreate(uid, spec));
    assert Apply(Init(name), UserCreate(uid, spec)) == s1;
    ReachableStep(s1, Start);
    ReachableStep(s1.(worker := Busy(snap, DevPodGet)), DoWork(Healthy));
    ReachableStep(s1.(worker := Busy(snap, PodGet)), DoWork(Healthy));
    ReachableStep(s1.(worker := Busy(snap, JobCreate("id"))), DoWork(Healthy));
    assert Apply(s1.(worker := Busy(snap, JobCreate("id"))), DoWork(Healthy)) == Recording(name, uid, spec);
  }

  lemma InitReachable(name: string)
    ensures Reachable(Init(name))
  {
    assert Runs(Init(name), [], Init(name));
  }

  /** For every snapshot without inline credentials a run ends in the crash that
      orphans its Job. */
  lemma OrphanReachable(name: string, uid: nat, spec: Spec)
    requires spec.pushAuth.None?
    ensures exists s :: Reachable(s) && s.name == name && Orphaned(s) && s.snap.Some? &&
              s.snap.value.spec == spec && s.snap.value.status.phase.NoPhase?
  {
    hide Reachable;
    var s := Recording(name, uid, spec);
    RecordingReachable(name, uid, spec);
    CreatedJobOrphanedIff(s, Crash);
    ReachableStep(s, Crash);
    assert Orphaned(Apply(s, Crash));
  }

  /** The Job is done and the reconciler is about to report it. */
  lemma ReportingReachable(name: string, uid: nat, spec: Spec)
    requires spec.pushAuth.None?
    ensures exists s :: Reachable(s) && s.name == name && s.snap.Some? && s.usedUids == {uid} && s.worker.Busy? &&
              s.worker.call == PatchStatus(ToSucceeded("sha256:0"))
  {
    hide Reachable, JobName;
    RecordingReachable(name, uid, spec);
    var s0, job := Recording(name, uid, spec), JobName(name);
    var running := Snap(uid, 1, spec, NewStatus.(phase := Running, jobRef := Some(job)));
    var s1 := s0.(worker := Idle, snap := Some(running));
    ReachableStep(s0, DoWork(Healthy));
    assert Apply(s0, DoWork(Healthy)) == s1;
    var s2 := s1.(jobs := s1.jobs[job := s1.jobs[job].(conditions := [Complete(true)])]);
    ReachableStep(s1, JobProgress(job, [Complete(true)]));
    assert Apply(s1, JobProgress(job, [Complete(true)])) == s2;
    ReachableStep(s2, Start);
    ReachableStep(s2.(worker := Busy(running, JobGet)), DoWork(Healthy));
    assert Reachable(s2.(worker := Busy(running, PatchStatus(ToSucceeded("sha256:0")))));
  }

  /** So for every name there is a run that leaves a snapshot Succeeded with no Job. */
  lemma SucceededWithoutJob(name: string, uid: nat, next: nat, spec: Spec)
    requires spec.pushAuth.None? && uid != next
    ensures exists t :: Reachable(t) && t.name == name && t.snap.Some? && t.snap.value.uid == next &&
              t.snap.value.status.phase.Succeeded? && t.snap.value.status.jobRef.None?
  {
    hide Reachable;
    ReportingReachable(name, uid, spec);
    var s :| Reachable(s) && s.name == name && s.snap.Some? && s.usedUids == {uid} && s.worker.Busy? &&
             s.worker.call == PatchStatus(ToSucceeded("sha256:0"));
    StalePatchHitsSuccessor(s, next, spec, Healthy);
    ReachableStep(s, UserDelete);
    ReachableStep(Apply(s, UserDelete), UserCreate(next, spec));
    var m := Apply(Apply(s, UserDelete), UserCreate(next, spec));
    ReachableStep(m, DoWork(Healthy));
    assert Apply(m, DoWork(Healthy)).name == name;
  }

  /** And one that leaves a recreated snapshot Running on the Job of the deleted one. */
  lemma RunningOnForeignJob(name: string, uid: nat, next: nat, spec: Spec)
    requires spec.pushAuth.None? && uid != next
    ensures exists t :: Reachable(t) && t.name == name && t.snap.Some? && t.snap.value.uid == next &&
              t.snap.value.status.phase.Running? && t.snap.value.status.jobRef == Some(JobName(name)) &&
              JobName(name) in t.jobs && t.jobs[JobName(name)].owner == uid
  {
    hide Reachable, JobName;
    RecordingReachable(name, uid, spec);
    var s := Recording(name, uid, spec);
    ReachableStep(s, UserDelete);
    ReachableStep(Apply(s, UserDelete), UserCreate(next, spec));
    var m := Apply(Apply(s, UserDelete), UserCreate(next, spec));
    ReachableStep(m, DoWork(Healthy));
    var t := Apply(m, DoWork(Healthy));
    assert t.snap.value.status.jobRef == Some(JobName(name)) && t.jobs[JobName(name)].owner == uid;
  }

  // ----- what the reports rest on -----

  /** The Job read by this reconcile had this first true final condition. */
  ghost predicate Saw(conditions: seq<Condition>, c: Condition) { exists i :: Decides(conditions, i) && conditions[i] == c }

  /** The worker is about to report success exactly after reading a Job whose first true
      final condition is Complete, and failure after one whose is JobFailed, with its
      message. */
  lemma ReportIff(s: System, v: View)
    requires Reachable(s) && s.worker.Busy? && s.worker.call.JobGet?
    ensures Enabled(s, DoWork(v))
    ensures var t, job := Apply(s, DoWork(v)), JobName(s.name);
      && (t.worker.Busy? && t.worker.call == PatchStatus(ToSucceeded(v.digest)) <==>
            job in s.jobs && Saw(s.jobs[job].conditions, Complete(true)))
      && (forall m :: job in s.jobs && Saw(s.jobs[job].conditions, JobFailed(true, m)) ==>
            t.worker.Busy? && t.worker.call == PatchStatus(ToFailed(m)))
      && (job !in s.jobs ==> t.worker.Busy? && t.worker.call.PatchStatus? && t.worker.call.patch.ToFailed?)
      && (t.worker.Idle? <==> job in s.jobs && forall c :: c in s.jobs[job].conditions ==>
            c != Complete(true) && !(c.JobFailed? && c.yes))
      && t.snap == s.snap && t.jobs == s.jobs
  {
    InvReachable(s);
    hide VerdictOf, Reachable, Decides;
    if JobName(s.name) in s.jobs { VerdictIs(s.jobs[JobName(s.name)].conditions); }
  }

  /** Nothing else leads to a success report. */
  lemma OnlyJobGetReports(s: System, a: Action)
    requires Reachable(s) && Enabled(s, a) && !(s.worker.Busy? && s.worker.call.PatchStatus?)
    requires Apply(s, a).worker.Busy? && Apply(s, a).worker.call.PatchStatus? && Apply(s, a).worker.call.patch.ToSucceeded?
    ensures a.DoWork? && s.worker.Busy? && s.worker.call.JobGet?
    ensures JobName(s.name) in s.jobs && Saw(s.jobs[JobName(s.name)].conditions, Complete(true))
  {
    if a.DoWork? {
      InvReachable(s);
      hide Reachable, VerdictOf, Decides;
      if s.worker.call.JobGet? { ReportIff(s, a.view); }
    }
  }

  /** The Job was seen complete at some point of this run, and the report is on its way. */
  ghost predicate Witnessed(acts: seq<Action>, start: System, t: System) {
    exists k: nat, m :: k < |acts| && acts[k].DoWork? && Runs(start, acts[..k], m) && m.worker.Busy? && m.worker.call.JobGet? &&
      JobName(m.name) in m.jobs && Saw(m.jobs[JobName(m.name)].conditions, Complete(true))
  }

  lemma WitnessedLater(acts: seq<Action>, a: Action, start: System, t: System, t': System)
    requires Witnessed(acts, start, t)
    ensures Witnessed(acts + [a], start, t')
  {
    hide Runs;
    var k: nat, m :| k < |acts| && acts[k].DoWork? && Runs(start, acts[..k], m) && m.worker.Busy? && m.worker.call.JobGet? &&
      JobName(m.name) in m.jobs && Saw(m.jobs[JobName(m.name)].conditions, Complete(true));
    assert (acts + [a])[..k] == acts[..k] && (acts + [a])[k] == acts[k];
  }

  predicate Reporting(t: System) {
    || (t.worker.Busy? && t.worker.call.PatchStatus? && t.worker.call.patch.ToSucceeded?)
    || (t.snap.Some? && t.snap.value.status.phase.Succeeded?)
  }

  lemma ReportingStep(s: System, a: Action)
    requires Reachable(s) && Enabled(s, a) && Reporting(Apply(s, a)) && !Reporting(s)
    ensures a.DoWork? && s.worker.Busy? && s.worker.call.JobGet?
    ensures JobName(s.name) in s.jobs && Saw(s.jobs[JobName(s.name)].conditions, Complete(true))
  {
    InvReachable(s);
    hide Reachable, VerdictOf, Decides, Saw, JobName;
    if !(s.worker.Busy? && s.worker.call.PatchStatus?) && Apply(s, a).worker.Busy? && Apply(s, a).worker.call.PatchStatus? &&
       Apply(s, a).worker.call.patch.ToSucceeded? {
      OnlyJobGetReports(s, a);
    }
  }

  /** In every run, a snapshot is Succeeded only after some reconcile has read a Job whose
      first true final condition is Complete. */
  lemma {:induction false} SuccessWasSeen(name: string, acts: seq<Action>, t: System)
    requires Runs(Init(name), acts, t)
    ensures Reachable(t) && (Reporting(t) ==> Witnessed(acts, Init(name), t))
    decreases |acts|
  {
    hide Enabled, Apply, Reachable, Witnessed, Reporting;
    if acts == [] {
      InitReachable(name);
      InitSilent(name);
    } else {
      var n := |acts| - 1;
      var m :| Runs(Init(name), acts[..n], m) && Enabled(m, acts[n]) && Apply(m, acts[n]) == t;
      SuccessWasSeen(name, acts[..n], m);
      ReachableStep(m, acts[n]);
      assert acts == acts[..n] + [acts[n]];
      if Reporting(m) {
        WitnessedLater(acts[..n], acts[n], Init(name), m, t);
      } else if Reporting(t) {
        ReportingStep(m, acts[n]);
        WitnessHere(name, acts, n, m, t);
      }
    }
  }

  lemma WitnessHere(name: string, acts: seq<Action>, n: nat, m: System, t: System)
    requires n < |acts| && acts[n].DoWork? && Runs(Init(name), acts[..n], m) && m.worker.Busy? && m.worker.call.JobGet?
    requires JobName(m.name) in m.jobs && Saw(m.jobs[JobName(m.name)].conditions, Complete(true))
    ensures Witnessed(acts, Init(name), t)
  {
    hide Runs;
  }

  lemma InitSilent(name: string)
    ensures !Reporting(Init(name))
  {
  }

  /** A reported outcome is what the snapshot gets: Failed with the message, or Succeeded
      with the digest. */
  lemma PatchLands(s: System, v: View)
    requires s.worker.Busy? && s.worker.call.PatchStatus? && s.snap.Some?
    ensures Enabled(s, DoWork(v))
    ensures var t, p := Apply(s, DoWork(v)), s.worker.call.patch;
      && t.snap.Some? && t.snap.value.uid == s.snap.value.uid && t.snap.value.spec == s.snap.value.spec
      && var before, after := s.snap.value.status, t.snap.value.status;
         match p
         case ToFailed(m) => after.phase == Failed && after.message == m && after.jobRef == before.jobRef && after.digest == before.digest
         case ToSucceeded(d) => after.phase == Succeeded && after.digest == d && after.jobRef == before.jobRef && after.message == before.message
         case ToRunning(j) => after.phase == Running && after.jobRef == Some(j) && after.digest == before.digest && after.message == before.message
  {
  }

  /** A Job is only asked for with a running DevPod and a running, placed Pod that has the
      container, whose ID the Job gets; whatever is missing fails the snapshot. */
  lemma JobNeedsPod(s: System, v: View)
    requires Callable(s.worker) && (s.worker.call.DevPodGet? || s.worker.call.PodGet?)
    ensures var t := Work(s, v);
      && t.worker.Busy? && t.snap == s.snap && t.jobs == s.jobs
      && (s.worker.call.DevPodGet? ==>
            if v.devpod.DevPodSeen? && v.devpod.running then t.worker.call.PodGet? else t.worker.call.PatchStatus? && t.worker.call.patch.ToFailed?)
      && (s.worker.call.PodGet? ==>
            if v.pod.PodSeen? && v.pod.running && v.pod.containerID.Some? && v.pod.node != ""
            then t.worker.call == JobCreate(v.pod.containerID.value)
            else t.worker.call.PatchStatus? && t.worker.call.patch.ToFailed?)
  {
  }

  // ----- moving the credentials -----

  /** The copy is the stored object unless that has been written since. */
  predicate Fresh(s: System) {
    s.worker.Busy? && s.snap.Some? && s.snap.value.uid == s.worker.snap.uid ==>
      s.worker.snap.version <= s.snap.value.version && (s.worker.snap.version == s.snap.value.version ==> s.worker.snap == s.snap.value)
  }

  lemma FreshStep(s: System, a: Action)
    requires Inv(s) && Fresh(s) && Enabled(s, a)
    ensures Fresh(Apply(s, a))
  {
    hide VerdictOf, StatusOk;
  }

  lemma {:induction false} FreshRun(name: string, acts: seq<Action>, t: System)
    requires Runs(Init(name), acts, t)
    ensures Inv(t) && Fresh(t)
    decreases |acts|
  {
    hide Enabled, Apply;
    if acts != [] {
      var n := |acts| - 1;
      var m :| Runs(Init(name), acts[..n], m) && Enabled(m, acts[n]) && Apply(m, acts[n]) == t;
      FreshRun(name, acts[..n], m);
      InvStep(m, acts[n]);
      FreshStep(m, acts[n]);
    }
  }

  /** The update that takes the credentials out changes nothing else: it goes through only
      if nobody has written the snapshot since it was read, so no edit is undone. */
  lemma AuthKeepsEdits(s: System, v: View)
    requires Reachable(s) && s.worker.Busy? && s.worker.call.AuthUpdate? && s.snap.Some?
    ensures Enabled(s, DoWork(v))
    ensures var t := Apply(s, DoWork(v));
      t.snap.Some? && (t.snap == s.snap || t.snap.value.(version := s.snap.value.version) ==
        s.snap.value.(spec := s.snap.value.spec.(pushAuth := None, pushSecretRef := Some(AuthName(s.name)))))
  {
    hide Runs, VerdictOf;
    var name, acts :| Runs(Init(name), acts, s);
    FreshRun(name, acts, s);
  }

  /** The Secret it then refers to holds those credentials when this reconcile made it;
      one of that name that was there before is taken as it is. */
  lemma AuthSecret(s: System, v: View)
    requires Reachable(s) && s.worker.Busy? && s.worker.call.AuthCreate?
    ensures Enabled(s, DoWork(v))
    ensures var t, n := Apply(s, DoWork(v)), AuthName(s.name);
      && n in t.secrets && t.worker.Busy? && t.worker.call.AuthUpdate?
      && t.secrets[n] == if n in s.secrets then s.secrets[n] else Secret(s.worker.snap.uid, s.worker.snap.spec.pushAuth.value)
  {
    InvReachable(s);
    hide Reachable;
  }
}
