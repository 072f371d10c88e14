/** Quotas hold over every sequence of requests. */
module QuotaRuns {
  import opened Wrappers
  import opened Quota
  import opened QuotaServer

  datatype Op =
    | CreateOp(user: string, req: Request)
    | PatchOp(user: string, name: string, running: Option<bool>)
    | DeleteOp(user: string, name: string)
    | FinalizerOp(name: string)
    | GoneOp(name: string)

  /** A handler run by a user who is not an admin left the store as after, or the
      reconciler wrote or cleared a finalizer; refused requests leave it as it was. */
  ghost predicate Handled(srv: Server, store: seq<DevPod>, op: Op, after: seq<DevPod>) {
    after == store ||
    match op
    case CreateOp(u, req) =>
      exists dp :: srv.Created(Session(u, false), req, store, dp) && after == store + [dp]
    case PatchOp(u, name, running) => srv.Patched(Session(u, false), name, running, store, after)
    case DeleteOp(u, name) =>
      srv.Visible(Session(u, false), store, name).Some? &&
      after == Deleted(store, srv.Visible(Session(u, false), store, name).value)
    case FinalizerOp(name) =>
      IndexOf(store, name).Some? &&
      var i := IndexOf(store, name).value; after == store[i := store[i].(finalizer := true)]
    case GoneOp(name) =>
      IndexOf(store, name).Some? && store[IndexOf(store, name).value].deleting &&
      after == Without(store, IndexOf(store, name).value)
  }

  // ----- non-negative quantities -----

  predicate NonNegativeResources(m: Resources) { forall r :: r in m ==> m[r] >= 0 }

  predicate NonNegativeContainers(cs: seq<Container>) { forall c :: c in cs ==> NonNegativeResources(c.limits) }

  predicate NonNegative(d: DevPod) {
    && (d.pod.Some? ==> NonNegativeContainers(d.pod.value.containers) && NonNegativeContainers(d.pod.value.initContainers))
    && (d.persistence.Some? ==> d.persistence.value.size >= 0)
  }

  lemma {:induction false} LimitsOfNonNegative(cs: seq<Container>, r: string)
    requires NonNegativeContainers(cs)
    ensures LimitsOf(cs, r) >= 0
  {
    if cs != [] { LimitsOfNonNegative(cs[..|cs|-1], r); }
  }

  lemma UseNonNegative(d: DevPod, r: string)
    requires NonNegative(d)
    ensures ComputeOf(d, r) >= 0 && StorageOf(d) >= 0
  {
    if d.pod.Some? {
      LimitsOfNonNegative(d.pod.value.containers, r);
      LimitsOfNonNegative(d.pod.value.initContainers, r);
    }
  }

  // ----- the invariant -----

  /** No user is above a limit, names identify DevPods, and quantities are sane. */
  ghost predicate Inv(srv: Server, store: seq<DevPod>) {
    && UniqueNames(store)
    && (forall d :: d in store ==> d.name != "" && NonNegative(d))
    && forall u :: Within(srv.QuotaOf(u), Owned(store, u))
  }

  /** Counts fit the 32-bit sum the check is made with. */
  ghost predicate Counts32(srv: Server) {
    forall u :: srv.QuotaOf(u).maxDevPods.Some? ==> srv.QuotaOf(u).maxDevPods.value < 0x7fff_ffff
  }

  // ----- lists under change -----

  lemma {:induction false} ExistingAll(store: seq<DevPod>, u: string, exclude: string)
    requires forall d :: d in store ==> d.name != exclude
    ensures Existing(store, u, exclude) == Owned(store, u)
  {
    if store != [] { ExistingAll(store[..|store|-1], u, exclude); }
  }

  lemma OwnedSnoc(store: seq<DevPod>, d: DevPod, u: string)
    ensures Owned(store + [d], u) == if d.owner == u then Owned(store, u) + [d] else Owned(store, u)
  {
    assert (store + [d])[..|store|] == store;
  }

  lemma SumSnoc(ds: seq<DevPod>, d: DevPod, r: string)
    ensures ComputeUsed(ds + [d], r) == ComputeUsed(ds, r) + ComputeOf(d, r)
    ensures StorageUsed(ds + [d]) == StorageUsed(ds) + StorageOf(d)
  {
    assert (ds + [d])[..|ds|] == ds;
  }

  /** Taking one DevPod out of its owner's list takes out exactly its share. */
  lemma {:induction false} ExcludeOne(store: seq<DevPod>, i: nat, r: string)
    requires UniqueNames(store) && i < |store|
    ensures var d := store[i];
      && |Owned(store, d.owner)| == |Existing(store, d.owner, d.name)| + 1
      && ComputeUsed(Owned(store, d.owner), r) == ComputeUsed(Existing(store, d.owner, d.name), r) + ComputeOf(d, r)
      && StorageUsed(Owned(store, d.owner)) == StorageUsed(Existing(store, d.owner, d.name)) + StorageOf(d)
  {
    var front, last, d := store[..|store|-1], store[|store|-1], store[i];
    if i == |front| {
      forall e | e in front
        ensures e.name != last.name
      {
        var j :| 0 <= j < |front| && front[j] == e;
        assert store[j] == e;
      }
      ExistingAll(front, d.owner, d.name);
      SumSnoc(Owned(front, d.owner), d, r);
    } else {
      ExcludeOne(front, i, r);
      assert front[i] == d && last.name != d.name;
      if last.owner == d.owner {
        SumSnoc(Owned(front, d.owner), last, r);
        SumSnoc(Existing(front, d.owner, d.name), last, r);
      }
    }
  }

  /** What the others of an owner are does not depend on the excluded DevPod itself. */
  lemma {:induction false} ExistingIgnores(store: seq<DevPod>, i: nat, d: DevPod, u: string)
    requires i < |store| && d.name == store[i].name
    ensures Existing(store[i := d], u, d.name) == Existing(store, u, d.name)
  {
    var front := store[..|store|-1];
    if i < |front| {
      ExistingIgnores(front, i, d, u);
      assert store[i := d][..|store|-1] == front[i := d];
    } else {
      assert store[i := d][..|store|-1] == front;
    }
  }

  lemma {:induction false} OwnedElsewhere(store: seq<DevPod>, i: nat, d: DevPod, u: string)
    requires i < |store| && d.owner == store[i].owner != u
    ensures Owned(store[i := d], u) == Owned(store, u)
  {
    var front := store[..|store|-1];
    if i < |front| {
      OwnedElsewhere(front, i, d, u);
      assert store[i := d][..|store|-1] == front[i := d];
    } else {
      assert store[i := d][..|store|-1] == front;
    }
  }

  lemma {:induction false} OwnedWithout(store: seq<DevPod>, i: nat, u: string)
    requires UniqueNames(store) && i < |store|
    ensures u == store[i].owner ==> Owned(Without(store, i), u) == Existing(store, u, store[i].name)
    ensures u != store[i].owner ==> Owned(Without(store, i), u) == Owned(store, u)
  {
    var front, last := store[..|store|-1], store[|store|-1];
    if i == |front| {
      assert Without(store, i) == front;
      forall e | e in front
        ensures e.name != last.name
      {
        var j :| 0 <= j < |front| && front[j] == e;
        assert store[j] == e;
      }
      ExistingAll(front, u, last.name);
    } else {
      OwnedWithout(front, i, u);
      assert front[i] == store[i] && store[i].name != last.name;
      assert Without(store, i) == Without(front, i) + [last];
      OwnedSnoc(Without(front, i), last, u);
    }
  }

  // ----- one request -----

  lemma AdmittedFits(srv: Server, u: string, existing: seq<DevPod>, store: seq<DevPod>, dp: DevPod, exclude: string)
    requires srv.Admitted(Session(u, false), store, dp, exclude) && existing == Existing(store, u, exclude)
    requires srv.QuotaOf(u).maxDevPods.Some? ==> |existing| < 0x7fff_ffff
    ensures Fits(srv.QuotaOf(u), existing, dp)
  {
    NilIffFits(srv.QuotaOf(u), existing, dp, []);
  }

  /** A DevPod that fits beside others that are within the quota keeps them within. */
  lemma FitsWithin(q: UserQuota, ds: seq<DevPod>, d: DevPod, after: seq<DevPod>)
    requires Within(q, ds) && Fits(q, ds, d) && |after| == |ds| + 1
    requires forall r :: ComputeUsed(after, r) == ComputeUsed(ds, r) + ComputeOf(d, r)
    requires StorageUsed(after) == StorageUsed(ds) + StorageOf(d)
    ensures Within(q, after)
  {
  }

  /** Fewer DevPods, or smaller ones, stay within. */
  lemma LessWithin(q: UserQuota, ds: seq<DevPod>, after: seq<DevPod>)
    requires Within(q, ds) && |after| <= |ds| && StorageUsed(after) <= StorageUsed(ds)
    requires forall r :: ComputeUsed(after, r) <= ComputeUsed(ds, r)
    ensures Within(q, after)
  {
  }

  lemma ExistingWithin(q: UserQuota, store: seq<DevPod>, i: nat)
    requires UniqueNames(store) && i < |store| && NonNegative(store[i]) && Within(q, Owned(store, store[i].owner))
    ensures Within(q, Existing(store, store[i].owner, store[i].name))
  {
    forall r
      ensures ComputeUsed(Existing(store, store[i].owner, store[i].name), r) <= ComputeUsed(Owned(store, store[i].owner), r)
    {
      ExcludeOne(store, i, r);
      UseNonNegative(store[i], r);
    }
    ExcludeOne(store, i, "");
    UseNonNegative(store[i], "");
    LessWithin(q, Owned(store, store[i].owner), Existing(store, store[i].owner, store[i].name));
  }

  lemma CreateKeeps(srv: Server, store: seq<DevPod>, u: string, req: Request, dp: DevPod)
    requires Inv(srv, store) && Counts32(srv) && srv.Created(Session(u, false), req, store, dp) && NonNegative(dp)
    ensures Inv(srv, store + [dp])
  {
    CreatedMine(srv, store, u, req, dp);
    forall v
      ensures Within(srv.QuotaOf(v), Owned(store + [dp], v))
    {
      assert Within(srv.QuotaOf(v), Owned(store, v));
      OwnedSnoc(store, dp, v);
      if v == u {
        ExistingAll(store, u, "");
        AdmittedFits(srv, u, Owned(store, u), store, dp, "");
        forall r
          ensures ComputeUsed(Owned(store, u) + [dp], r) == ComputeUsed(Owned(store, u), r) + ComputeOf(dp, r)
        {
          SumSnoc(Owned(store, u), dp, r);
        }
        SumSnoc(Owned(store, u), dp, "");
        FitsWithin(srv.QuotaOf(u), Owned(store, u), dp, Owned(store, u) + [dp]);
      }
    }
  }

  /** Stamping changes neither name nor owner. */
  lemma CreatedMine(srv: Server, store: seq<DevPod>, u: string, req: Request, dp: DevPod)
    requires srv.Created(Session(u, false), req, store, dp)
    ensures dp.owner == u && dp.name != "" && forall i :: 0 <= i < |store| ==> store[i].name != dp.name
  {
    assert |u + "-"| > 0;
  }

  lemma PatchKeeps(srv: Server, store: seq<DevPod>, u: string, name: string, running: Option<bool>, after: seq<DevPod>)
    requires Inv(srv, store) && Counts32(srv) && srv.Patched(Session(u, false), name, running, store, after)
    ensures Inv(srv, after)
  {
    var i := srv.Visible(Session(u, false), store, name).value;
    var d := store[i].(running := running.value);
    assert store[i] in store;
    assert NonNegative(d);
    forall v
      ensures Within(srv.QuotaOf(v), Owned(after, v))
    {
      assert Within(srv.QuotaOf(v), Owned(store, v));
      if v == u {
        PatchWithin(srv, store, u, i, d);
      } else {
        OwnedElsewhere(store, i, d, v);
      }
    }
  }

  lemma PatchWithin(srv: Server, store: seq<DevPod>, u: string, i: nat, d: DevPod)
    requires UniqueNames(store) && i < |store| && NonNegative(store[i]) && Within(srv.QuotaOf(u), Owned(store, u)) && Counts32(srv)
    requires store[i].owner == u && d == store[i].(running := d.running)
    requires d.running ==> srv.Admitted(Session(u, false), store, d, d.name)
    ensures Within(srv.QuotaOf(u), Owned(store[i := d], u))
  {
    var q, others := srv.QuotaOf(u), Existing(store, u, d.name);
    ExistingWithin(q, store, i);
    ExistingIgnores(store, i, d, u);
    forall r
      ensures ComputeUsed(Owned(store[i := d], u), r) == ComputeUsed(others, r) + ComputeOf(d, r)
      ensures ComputeUsed(Owned(store, u), r) == ComputeUsed(others, r) + ComputeOf(store[i], r)
      ensures ComputeOf(store[i], r) >= 0
    {
      ExcludeOne(store[i := d], i, r);
      ExcludeOne(store, i, r);
      UseNonNegative(store[i], r);
    }
    ExcludeOne(store[i := d], i, "");
    ExcludeOne(store, i, "");
    if d.running {
      AdmittedFits(srv, u, others, store, d, d.name);
      FitsWithin(q, others, d, Owned(store[i := d], u));
    } else {
      LessWithin(q, Owned(store, u), Owned(store[i := d], u));
    }
  }

  lemma DeleteKeeps(srv: Server, store: seq<DevPod>, i: nat)
    requires Inv(srv, store) && i < |store|
    ensures Inv(srv, Without(store, i))
  {
    var after := Without(store, i);
    assert forall j :: 0 <= j < |after| ==> after[j] == store[if j < i then j else j + 1];
    forall v
      ensures Within(srv.QuotaOf(v), Owned(after, v))
    {
      assert Within(srv.QuotaOf(v), Owned(store, v));
      OwnedWithout(store, i, v);
      if v == store[i].owner {
        assert store[i] in store;
        ExistingWithin(srv.QuotaOf(v), store, i);
      }
    }
  }

  /** Finalizers and deletion marks change no share: a DevPod counts until it is gone. */
  lemma MarkKeeps(srv: Server, store: seq<DevPod>, i: nat, d: DevPod)
    requires Inv(srv, store) && i < |store| && d == store[i].(finalizer := d.finalizer, deleting := d.deleting)
    ensures Inv(srv, store[i := d])
  {
    assert store[i] in store;
    assert NonNegative(d);
    var u := d.owner;
    forall v
      ensures Within(srv.QuotaOf(v), Owned(store[i := d], v))
    {
      assert Within(srv.QuotaOf(v), Owned(store, v));
      if v == u {
        MarkWithin(srv.QuotaOf(u), store, i, d);
      } else {
        OwnedElsewhere(store, i, d, v);
      }
    }
  }

  lemma MarkWithin(q: UserQuota, store: seq<DevPod>, i: nat, d: DevPod)
    requires UniqueNames(store) && i < |store| && d == store[i].(finalizer := d.finalizer, deleting := d.deleting)
    requires Within(q, Owned(store, d.owner))
    ensures Within(q, Owned(store[i := d], d.owner))
  {
    ExistingIgnores(store, i, d, d.owner);
    forall r
      ensures ComputeUsed(Owned(store[i := d], d.owner), r) == ComputeUsed(Owned(store, d.owner), r)
    {
      ExcludeOne(store[i := d], i, r);
      ExcludeOne(store, i, r);
    }
    ExcludeOne(store[i := d], i, "");
    ExcludeOne(store, i, "");
    LessWithin(q, Owned(store, d.owner), Owned(store[i := d], d.owner));
  }

  /** The quantities the request brings in are non-negative once stamped. */
  ghost predicate Sane(srv: Server, op: Op) {
    op.CreateOp? ==> forall store, dp :: srv.Created(Session(op.user, false), op.req, store, dp) ==> NonNegative(dp)
  }

  lemma StepKeeps(srv: Server, store: seq<DevPod>, op: Op, after: seq<DevPod>)
    requires Inv(srv, store) && Counts32(srv) && Sane(srv, op) && Handled(srv, store, op, after)
    ensures Inv(srv, after)
  {
    hide Inv, Counts32;
    if after != store {
      match op
      case CreateOp(u, req) =>
        var dp :| srv.Created(Session(u, false), req, store, dp) && after == store + [dp];
        CreateKeeps(srv, store, u, req, dp);
      case PatchOp(u, name, running) => PatchKeeps(srv, store, u, name, running, after);
      case DeleteOp(u, name) =>
        var i := srv.Visible(Session(u, false), store, name).value;
        DeleteKeeps(srv, store, i);
        MarkKeeps(srv, store, i, store[i].(deleting := true));
      case FinalizerOp(name) =>
        var i := IndexOf(store, name).value;
        MarkKeeps(srv, store, i, store[i].(finalizer := true));
      case GoneOp(name) => DeleteKeeps(srv, store, IndexOf(store, name).value);
    }
  }

  ghost predicate Runs(srv: Server, store: seq<DevPod>, ops: seq<Op>, after: seq<DevPod>)
    decreases |ops|
  {
    if ops == [] then store == after
    else
      var n := |ops| - 1;
      exists m :: Runs(srv, store, ops[..n], m) && Handled(srv, m, ops[n], after)
  }

  /** From a store within quota, such as the empty one, no sequence of creates,
      wakes, hibernates and deletes by any users brings any user above any limit. */
  lemma {:induction false} QuotaHolds(srv: Server, store: seq<DevPod>, ops: seq<Op>, after: seq<DevPod>)
    requires Inv(srv, store) && Counts32(srv) && Runs(srv, store, ops, after)
    requires forall i :: 0 <= i < |ops| ==> Sane(srv, ops[i])
    ensures Inv(srv, after)
    ensures forall u :: Within(srv.QuotaOf(u), Owned(after, u))
    decreases |ops|
  {
    hide Handled, Sane;
    if ops != [] {
      var n := |ops| - 1;
      var m :| Runs(srv, store, ops[..n], m) && Handled(srv, m, ops[n], after);
      QuotaHolds(srv, store, ops[..n], m);
      StepKeeps(srv, m, ops[n], after);
    }
  }

  // ----- negative quantities -----

  lemma FitsAdmits(srv: Server, u: string, store: seq<DevPod>, dp: DevPod)
    requires Fits(srv.QuotaOf(u), Existing(store, u, ""), dp)
    requires srv.QuotaOf(u).maxDevPods.None? && srv.QuotaOf(u).compute.Some?
    requires srv.QuotaOf(u).compute.value.Keys == {"cpu"}
    ensures srv.Admitted(Session(u, false), store, dp, "")
  {
    var q, existing := srv.QuotaOf(u), Existing(store, u, "");
    var vs := CountPart(q, existing) +
      (if MetersCompute(q, dp) then ComputePart(q.compute.value, ["cpu"], existing, dp) else []) + StoragePart(q, existing, dp);
    assert Ascending(["cpu"]) && forall n :: n in ["cpu"] <==> n in q.compute.value;
    assert CountPart(q, existing) + [] == CountPart(q, existing);
    assert Reports(q, existing, dp, vs);
    NilIffFits(q, existing, dp, vs);
  }

  function OneCpuDevPod(u: string, suffix: string, cpu: int): DevPod {
    DevPod(u + "-" + suffix, u, map[], true, Some(OneCpu(cpu)), false, None, "", false, false)
  }

  lemma PlainCreate(srv: Server, u: string, suffix: string, cpu: int, store: seq<DevPod>)
    requires u != "" && cpu != 0 && srv.Admitted(Session(u, false), store, OneCpuDevPod(u, suffix, cpu), "")
    requires IndexOf(store, u + "-" + suffix).None?
    ensures var d := OneCpuDevPod(u, suffix, cpu);
      Handled(srv, store, CreateOp(u, Request(d, None)), store + [d])
  {
    var d := OneCpuDevPod(u, suffix, cpu);
    assert u + "-" <= d.name;
    assert srv.Created(Session(u, false), Request(d, None), store, d);
  }

  /** The assumption on quantities is needed: RequireLimits accepts any amount but
      zero.  From the empty store a user creates a DevPod with a negative limit, which
      makes room for one above the whole quota, and deletes the first. */
  lemma NegativeLimitsEscape(srv: Server, u: string, limit: int, extra: int)
    requires u != "" && limit >= 0 && extra > 0
    requires srv.QuotaOf(u) == UserQuota(None, Some(map["cpu" := limit]), None)
    ensures exists ops, after :: |ops| == 3 && Runs(srv, [], ops, after) && !Within(srv.QuotaOf(u), Owned(after, u))
  {
    hide Handled, Fits, Within, OneCpu, Runs, Reports, Existing, IndexOf, Owned, EffectiveQuota;
    var q := srv.QuotaOf(u);
    var small, big := OneCpuDevPod(u, "a", -extra), OneCpuDevPod(u, "b", limit + extra);
    NegativeFits(q, small, big, limit, extra, u);
    FitsAdmits(srv, u, [], small);
    PlainCreate(srv, u, "a", -extra, []);
    assert [] + [small] == [small];
    if small.name == big.name { SuffixesDiffer(u, "a", "b"); }
    FitsAdmits(srv, u, [small], big);
    IndexOfOne(small, u + "-b");
    PlainCreate(srv, u, "b", limit + extra, [small]);
    assert [small] + [big] == [small, big];
    DeleteFirst(srv, u, small, big);
    RunsThree(srv, CreateOp(u, Request(small, None)), [small], CreateOp(u, Request(big, None)), [small, big],
              DeleteOp(u, small.name), [big]);
    OwnedOne(big);
  }

  lemma OwnedOne(d: DevPod)
    ensures Owned([d], d.owner) == [d]
  {
    assert [d][..0] == [] && [] + [d] == [d];
  }

  lemma SuffixesDiffer(u: string, a: string, b: string)
    requires u + "-" + a == u + "-" + b
    ensures a == b
  {
    assert (u + "-" + a)[|u|+1..] == a && (u + "-" + b)[|u|+1..] == b;
  }

  lemma RunsThree(srv: Server, a: Op, s1: seq<DevPod>, b: Op, s2: seq<DevPod>, c: Op, s3: seq<DevPod>)
    requires Handled(srv, [], a, s1) && Handled(srv, s1, b, s2) && Handled(srv, s2, c, s3)
    ensures |[a, b, c]| == 3 && Runs(srv, [], [a, b, c], s3)
  {
    hide Handled;
    var ops := [a, b, c];
    assert ops[..0] == [] && ops[..1][..0] == [] && ops[..2][..1] == ops[..1];
    assert Runs(srv, [], ops[..0], []);
    assert Runs(srv, [], ops[..1], s1);
    assert Runs(srv, [], ops[..2], s2);
  }

  lemma IndexOfOne(d: DevPod, name: string)
    requires d.name != name
    ensures IndexOf([d], name).None?
  {
    assert [d][..0] == [];
  }

  lemma DeleteFirst(srv: Server, u: string, small: DevPod, big: DevPod)
    requires small.owner == u && small.name != big.name && !small.finalizer
    ensures Handled(srv, [small, big], DeleteOp(u, small.name), [big])
  {
    assert [small, big][..1] == [small] && [small][..0] == [];
    assert IndexOf([small], small.name) == Some(0);
    assert IndexOf([small, big], small.name) == Some(0);
    assert Without([small, big], 0) == [big];
  }

  lemma NegativeFits(q: UserQuota, small: DevPod, big: DevPod, limit: int, extra: int, u: string)
    requires limit >= 0 && extra > 0 && q == UserQuota(None, Some(map["cpu" := limit]), None)
    requires small == OneCpuDevPod(u, "a", -extra) && big == OneCpuDevPod(u, "b", limit + extra)
    ensures Existing([], u, "") == [] && Existing([small], u, "") == [small]
    ensures Fits(q, [], small) && Fits(q, [small], big) && !Within(q, [big])
  {
    UseOfOne(-extra, "cpu");
    UseOfOne(limit + extra, "cpu");
    SumSnoc([], small, "cpu");
    SumSnoc([], big, "cpu");
    SumSnoc([small], big, "cpu");
    assert [] + [small] == [small] && [small] + [big] == [small, big] && [] + [big] == [big];
    assert [small][..0] == [] && |small.name| > 0;
  }

  function OneCpu(cpu: int): Pod {
    Pod(map[], [Container("dev", map[], map["cpu" := cpu, "memory" := 1])], [])
  }

  lemma UseOfOne(cpu: int, r: string)
    ensures PodLimit(OneCpu(cpu), r) == Amount(map["cpu" := cpu, "memory" := 1], r)
  {
    var cs := OneCpu(cpu).containers;
    assert cs[..0] == [];
    assert LimitsOf(cs, r) == LimitsOf(cs[..0], r) + Amount(cs[0].limits, r);
  }

  // ----- where Kore annotations come from -----

  /** A user's stored DevPod carries a Kore annotation only if the template it was
      created from stamped it. */
  lemma KoreOnlyFromTemplate(srv: Server, store: seq<DevPod>, u: string, req: Request, dp: DevPod, key: string)
    requires srv.Created(Session(u, false), req, store, dp) && HasPrefix(key, KorePrefix)
    ensures key !in dp.annotations
    ensures dp.pod.Some? && key in dp.pod.value.annotations ==>
      req.template.Some? && req.template.value in srv.templates &&
      var t := srv.templates[req.template.value];
      (t.preset.Some? && key in t.preset.value.pod.annotations) || (t.binding.Some? && key in t.binding.value.annotations)
  {
  }
}
