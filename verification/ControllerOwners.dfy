/** The home volume: what detaching leaves of its owner references, and when it is lost. */
module ControllerOwners {
  import opened Wrappers
  import opened Render
  import opened Controller
  import opened ControllerInvariants
  import ControllerTheorems

  // ----- between reading the owner references and patching them -----

  predicate EditsOwners(a: Action, n: string) { (a.AddOwner? || a.RemoveOwner?) && a.name == n }

  /** The references of n's volume after what others do to them. */
  function Edited(refs: seq<OwnerRef>, n: string, acts: seq<Action>): seq<OwnerRef>
    decreases |acts|
  {
    if acts == [] then refs
    else EditedBy(Edited(refs, n, acts[..|acts| - 1]), n, acts[|acts| - 1])
  }

  function EditedBy(refs: seq<OwnerRef>, n: string, a: Action): seq<OwnerRef> {
    match a
    case AddOwner(m, r) => if m == n then refs + [r] else refs
    case RemoveOwner(m, r) => if m == n then Without(refs, r) else refs
    case _ => refs
  }

  /** A run in which the worker neither goes on nor falls over. */
  ghost predicate Pause(c: Cluster, acts: seq<Action>, d: Cluster) {
    Runs(c, acts, d) && forall k :: 0 <= k < |acts| ==> !acts[k].DoWork? && !acts[k].Crash?
  }

  lemma HeldVolume(c: Cluster)
    requires Inv(c) && c.worker.Busy? && c.worker.call.DetachPatch?
    ensures c.worker.name in c.pvcs && !Collectable(c, c.pvcs[c.worker.name])
  {
    hide Statuses, Knowledge, Covered, Fresh;
    var r :| r in c.pvcs[c.worker.name] && IsSelf(r, c.worker.dp.uid);
    assert c.worker.name in c.devpods && c.devpods[c.worker.name].uid == r.uid;
  }

  lemma PauseStep(c: Cluster, a: Action)
    requires Inv(c) && c.worker.Busy? && c.worker.call.DetachPatch? && Enabled(c, a) && !a.DoWork? && !a.Crash?
    ensures var n, d := c.worker.name, Apply(c, a);
      d.worker == c.worker && n in c.pvcs && n in d.pvcs && d.pvcs[n] == EditedBy(c.pvcs[n], n, a)
  {
    hide Inv, Collectable, MayAdd, OwnRef, Touch, Without;
    HeldVolume(c);
  }

  lemma {:induction false} PauseRun(c: Cluster, acts: seq<Action>, d: Cluster)
    requires Inv(c) && c.worker.Busy? && c.worker.call.DetachPatch? && Pause(c, acts, d)
    ensures Inv(d) && d.worker == c.worker
    ensures var n := c.worker.name; n in c.pvcs && n in d.pvcs && d.pvcs[n] == Edited(c.pvcs[n], n, acts)
    decreases |acts|
  {
    hide Inv, Enabled, Apply, EditedBy;
    HeldVolume(c);
    if acts != [] {
      var k := |acts| - 1;
      var m :| Runs(c, acts[..k], m) && Enabled(m, acts[k]) && Apply(m, acts[k]) == d;
      PauseRun(c, acts[..k], m);
      PauseStep(m, acts[k]);
      InvStep(m, acts[k]);
    }
  }

  /** From the lookup of detachPVC to its patch, whatever others do to the volume's
      owners in between: the patch leaves exactly the references of others that were
      read, with their multiplicity.  So a reference of others that is there by then
      survives if and only if it was read, one that was removed comes back, and the list
      of others is left alone if and only if their edits come to nothing. */
  lemma DetachKeepsIff(c: Cluster, key: string, acts: seq<Action>, d: Cluster)
    requires Reachable(c) && c.worker.Busy? && c.worker.call.DetachGet? && key != ""
    requires Work(c, key).worker.call.DetachPatch? && Pause(Work(c, key), acts, d)
    ensures var n, uid := c.worker.name, c.worker.dp.uid;
      && n in c.pvcs && n in d.pvcs && d.pvcs[n] == Edited(c.pvcs[n], n, acts) && Enabled(d, DoWork(key))
      && var e := Apply(d, DoWork(key));
         && n in e.pvcs && !NamesSelf(e.pvcs[n], uid) && (forall m :: m in d.pvcs && m != n ==> m in e.pvcs && e.pvcs[m] == d.pvcs[m])
         && (forall r :: !IsSelf(r, uid) ==> multiset(e.pvcs[n])[r] == multiset(c.pvcs[n])[r])
         && (forall r :: r in d.pvcs[n] && !IsSelf(r, uid) ==> (r in e.pvcs[n] <==> r in c.pvcs[n]))
         && (e.pvcs[n] == OtherOwners(d.pvcs[n], uid) <==> OtherOwners(Edited(c.pvcs[n], n, acts), uid) == OtherOwners(c.pvcs[n], uid))
    ensures (forall k :: 0 <= k < |acts| ==> !EditsOwners(acts[k], c.worker.name)) ==>
      Apply(d, DoWork(key)).pvcs[c.worker.name] == OtherOwners(d.pvcs[c.worker.name], c.worker.dp.uid)
  {
    hide Inv, Pause, IsSelf, OtherOwners, Reachable, Without;
    var n, uid, b := c.worker.name, c.worker.dp.uid, Work(c, key);
    ReachedPatch(c, key);
    PauseRun(b, acts, d);
    OtherOwnersExact(c.pvcs[n], uid);
    if forall k :: 0 <= k < |acts| ==> !EditsOwners(acts[k], n) { Unedited(c.pvcs[n], n, acts); }
  }

  lemma ReachedPatch(c: Cluster, key: string)
    requires Reachable(c) && c.worker.Busy? && c.worker.call.DetachGet? && key != "" && Work(c, key).worker.call.DetachPatch?
    ensures Reachable(Work(c, key)) && Inv(Work(c, key)) && c.worker.name in c.pvcs
    ensures Work(c, key) == At(c, DetachPatch(c.pvcs[c.worker.name]))
  {
    hide Reachable, Inv, NamesSelf;
    ControllerTheorems.ReachableStep(c, DoWork(key));
    InvReachable(Work(c, key));
  }

  lemma {:induction false} Unedited(refs: seq<OwnerRef>, n: string, acts: seq<Action>)
    requires forall k :: 0 <= k < |acts| ==> !EditsOwners(acts[k], n)
    ensures Edited(refs, n, acts) == refs
    decreases |acts|
  {
    if acts != [] { Unedited(refs, n, acts[..|acts| - 1]); }
  }

  // ----- when the volume is lost -----

  /** Until the patch the volume is held by this DevPod; the patch itself makes it
      collectable exactly when others were read and all of them are DevPods that are
      gone. */
  lemma DetachLosesIff(c: Cluster, key: string)
    requires Reachable(c) && c.worker.Busy? && c.worker.call.DetachPatch? && key != ""
    ensures var n, uid, refs, d := c.worker.name, c.worker.dp.uid, c.worker.call.refs, Apply(c, DoWork(key));
      && n in c.pvcs && n in d.pvcs && !Collectable(c, c.pvcs[n])
      && (Collectable(d, d.pvcs[n]) <==>
            (exists r :: r in refs && !IsSelf(r, uid)) &&
            forall r :: r in refs && !IsSelf(r, uid) ==> r.kind == "DevPod" && r.uid !in LiveUids(c))
  {
    hide Inv, Reachable, OtherOwners, IsSelf;
    InvReachable(c);
    HeldVolume(c);
    var refs, uid := c.worker.call.refs, c.worker.dp.uid;
    OtherOwnersExact(refs, uid);
    var kept, d := OtherOwners(refs, uid), Apply(c, DoWork(key));
    assert LiveUids(d) == LiveUids(c);
    assert kept != [] ==> kept[0] in kept;
  }

  /** When the finalizer goes with persistence set, the home volume becomes
      collectable only if it already was: not through this DevPod. */
  lemma HomeSurvivesDeletion(c: Cluster)
    requires Reachable(c) && c.worker.Busy? && c.worker.call.ClearFinalizer?
    requires c.worker.dp.spec.persistence.Some? && c.worker.name in c.pvcs
    ensures var c' := RunClearFinalizer(c, c.worker.name, c.worker.dp);
      Collectable(c', c.pvcs[c.worker.name]) ==> Collectable(c, c.pvcs[c.worker.name])
  {
    InvReachable(c);
    hide Statuses, Knowledge, Covered, Fresh, Backed;
    var c' := RunClearFinalizer(c, c.worker.name, c.worker.dp);
    assert !NamesSelf(c.pvcs[c.worker.name], c.worker.dp.uid);
    forall r | r in c.pvcs[c.worker.name] && r.kind == "DevPod" && r.uid in LiveUids(c)
      ensures r.uid in LiveUids(c')
    {
      assert !IsSelf(r, c.worker.dp.uid);
      var m :| m in c.devpods && c.devpods[m].uid == r.uid;
      if Current(c, c.worker.name, c.worker.dp) {
        assert m != c.worker.name;
        assert m in c'.devpods && c'.devpods[m].uid == r.uid;
      }
    }
  }

  /** Exactly when deleting a DevPod lets its home volume be collected, if it was not
      collectable before: persistence is off by then, so nothing was detached, and the
      volume names this DevPod and otherwise only DevPods that are gone. */
  lemma HomeLostIff(c: Cluster)
    requires Reachable(c) && c.worker.Busy? && c.worker.call.ClearFinalizer?
    requires Current(c, c.worker.name, c.worker.dp) && c.worker.name in c.pvcs
    requires !Collectable(c, c.pvcs[c.worker.name])
    ensures var refs, uid := c.pvcs[c.worker.name], c.worker.dp.uid;
      Collectable(RunClearFinalizer(c, c.worker.name, c.worker.dp), refs) <==>
        c.worker.dp.spec.persistence.None? && NamesSelf(refs, uid) &&
        forall r :: r in refs ==> r.kind == "DevPod" && (r.uid == uid || r.uid !in LiveUids(c))
  {
    hide Reachable, Statuses, Knowledge, Covered, Fresh, Backed;
    InvReachable(c);
    var refs, uid, c' := c.pvcs[c.worker.name], c.worker.dp.uid, RunClearFinalizer(c, c.worker.name, c.worker.dp);
    OneUidGone(c);
    if c.worker.dp.spec.persistence.Some? {
      HomeSurvivesDeletion(c);
    } else if Collectable(c', refs) {
      var r :| r in refs && (r.kind != "DevPod" || r.uid in LiveUids(c));
      assert r.uid == uid && IsSelf(r, uid);
    }
  }

  /** Clearing the finalizer takes exactly this DevPod's UID out of the store. */
  lemma OneUidGone(c: Cluster)
    requires Uids(c) && c.worker.Busy? && Current(c, c.worker.name, c.worker.dp)
    ensures LiveUids(RunClearFinalizer(c, c.worker.name, c.worker.dp)) == LiveUids(c) - {c.worker.dp.uid}
  {
    var c', n := RunClearFinalizer(c, c.worker.name, c.worker.dp), c.worker.name;
    forall u | u in LiveUids(c) && u != c.worker.dp.uid
      ensures u in LiveUids(c')
    {
      var m :| m in c.devpods && c.devpods[m].uid == u;
      assert m in c'.devpods && c'.devpods[m].uid == u;
    }
  }
}
