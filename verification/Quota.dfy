/** Metering DevPods against a user's quota (internal/webui/quota.go). Quantities are integers. */
module Quota {
  import opened Wrappers

  type Resources = map<string, int>

  datatype Container = Container(name: string, requests: Resources, limits: Resources)

  datatype Pod = Pod(annotations: map<string, string>, containers: seq<Container>, initContainers: seq<Container>)

  datatype Persistence = Persistence(size: int, target: string)

  datatype DevPod = DevPod(
    name: string,
    owner: string,
    annotations: map<string, string>,
    running: bool,
    pod: Option<Pod>,
    vm: bool,
    persistence: Option<Persistence>,
    shell: string,
    finalizer: bool,
    deleting: bool)

  datatype UserQuota = UserQuota(maxDevPods: Option<int>, compute: Option<Resources>, storage: Option<int>)

  datatype Violation = Violation(resource: string, requested: int, used: int, limit: int)

  function EffectiveQuota(user: Option<UserQuota>, def: UserQuota): UserQuota {
    match user
    case None => def
    case Some(q) =>
      UserQuota(if q.maxDevPods.Some? then q.maxDevPods else def.maxDevPods,
                if q.compute.Some? then q.compute else def.compute,
                if q.storage.Some? then q.storage else def.storage)
  }

  // ----- sums -----

  /** A missing key reads as zero. */
  function Amount(m: Resources, r: string): int { if r in m then m[r] else 0 }

  function LimitsOf(cs: seq<Container>, r: string): int {
    if cs == [] then 0 else LimitsOf(cs[..|cs|-1], r) + Amount(cs[|cs|-1].limits, r)
  }

  function PodLimit(p: Pod, r: string): int { LimitsOf(p.containers, r) + LimitsOf(p.initContainers, r) }

  /** What a DevPod takes of a compute resource: only while running. */
  function ComputeOf(d: DevPod, r: string): int { if d.running && d.pod.Some? then PodLimit(d.pod.value, r) else 0 }

  function StorageOf(d: DevPod): int { if d.persistence.Some? then d.persistence.value.size else 0 }

  function ComputeUsed(ds: seq<DevPod>, r: string): int {
    if ds == [] then 0 else ComputeUsed(ds[..|ds|-1], r) + ComputeOf(ds[|ds|-1], r)
  }

  function StorageUsed(ds: seq<DevPod>): int {
    if ds == [] then 0 else StorageUsed(ds[..|ds|-1]) + StorageOf(ds[|ds|-1])
  }

  /** sum[name] += qty for every entry of m. */
  method AddResources(sum: Resources, m: Resources) returns (out: Resources)
    ensures forall r :: Amount(out, r) == Amount(sum, r) + Amount(m, r)
  {
    out := sum;
    var left := m.Keys;
    while left != {}
      invariant left <= m.Keys
      invariant forall r :: Amount(out, r) == Amount(sum, r) + (if r in left then 0 else Amount(m, r))
      decreases left
    {
      var name :| name in left;
      out := out[name := Amount(out, name) + m[name]];
      left := left - {name};
    }
  }

  method AddContainers(sum: Resources, cs: seq<Container>) returns (out: Resources)
    ensures forall r :: Amount(out, r) == Amount(sum, r) + LimitsOf(cs, r)
  {
    out := sum;
    for i := 0 to |cs|
      invariant forall r :: Amount(out, r) == Amount(sum, r) + LimitsOf(cs[..i], r)
    {
      assert cs[..i+1][..i] == cs[..i];
      out := AddResources(out, cs[i].limits);
    }
    assert cs[..|cs|] == cs;
  }

  method PodLimits(p: Pod) returns (sum: Resources)
    ensures forall r :: Amount(sum, r) == PodLimit(p, r)
    ensures forall r :: Amount(sum, r) == LimitsOf(p.containers, r) + LimitsOf(p.initContainers, r)
  {
    sum := AddContainers(map[], p.containers);
    sum := AddContainers(sum, p.initContainers);
  }

  predicate Limited(c: Container) { Amount(c.limits, "cpu") != 0 && Amount(c.limits, "memory") != 0 }

  predicate FirstUnlimited(cs: seq<Container>, i: int) {
    0 <= i < |cs| && !Limited(cs[i]) && forall j :: 0 <= j < i ==> Limited(cs[j])
  }

  method CheckLimits(kind: string, cs: seq<Container>) returns (err: Option<string>)
    ensures err.None? <==> forall i :: 0 <= i < |cs| ==> Limited(cs[i])
    ensures err.Some? ==> exists i :: FirstUnlimited(cs, i) && err.value == kind + " " + cs[i].name
  {
    for i := 0 to |cs|
      invariant forall j :: 0 <= j < i ==> Limited(cs[j])
    {
      if Amount(cs[i].limits, "cpu") == 0 || Amount(cs[i].limits, "memory") == 0 {
        assert FirstUnlimited(cs, i);
        return Some(kind + " " + cs[i].name);
      }
    }
    return None;
  }

  predicate AllLimited(p: Pod) {
    (forall c :: c in p.containers ==> Limited(c)) && forall c :: c in p.initContainers ==> Limited(c)
  }

  method RequireLimits(p: Pod) returns (err: Option<string>)
    ensures err.None? <==> AllLimited(p)
    ensures err.None? <==> forall c :: c in p.containers || c in p.initContainers ==>
      "cpu" in c.limits && c.limits["cpu"] != 0 && "memory" in c.limits && c.limits["memory"] != 0
    ensures err.Some? ==>
      if exists c :: c in p.containers && !Limited(c) then
        exists i :: FirstUnlimited(p.containers, i) && err.value == "container " + p.containers[i].name
      else
        exists i :: FirstUnlimited(p.initContainers, i) && err.value == "initContainer " + p.initContainers[i].name
  {
    err := CheckLimits("container", p.containers);
    if err.Some? { return; }
    err := CheckLimits("initContainer", p.initContainers);
  }

  // ----- the order of resource names -----

  /** Byte-wise lexicographic order. */
  predicate Before(a: string, b: string) {
    b != [] && (a == [] || a[0] < b[0] || (a[0] == b[0] && Before(a[1..], b[1..])))
  }

  lemma {:induction false} BeforeTotal(a: string, b: string)
    ensures a == b || Before(a, b) || Before(b, a)
    ensures !(Before(a, b) && Before(b, a)) && !Before(a, a)
  {
    if a != [] && b != [] {
      BeforeTotal(a[1..], b[1..]);
      assert a == [a[0]] + a[1..] && b == [b[0]] + b[1..];
    }
    if a != [] { BeforeTotal(a[1..], a[1..]); }
  }

  lemma {:induction false} BeforeTrans(a: string, b: string, c: string)
    requires Before(a, b) && Before(b, c)
    ensures Before(a, c)
  {
    if a != [] && a[0] == b[0] && b[0] == c[0] { BeforeTrans(a[1..], b[1..], c[1..]); }
  }

  predicate Ascending(names: seq<string>) { forall i, j :: 0 <= i < j < |names| ==> Before(names[i], names[j]) }

  /** Where name goes in the sorted list. */
  method Insert(names: seq<string>, name: string) returns (out: seq<string>)
    requires Ascending(names) && name !in names
    ensures Ascending(out) && forall n :: n in out <==> n in names || n == name
  {
    var k := 0;
    while k < |names| && Before(names[k], name)
      invariant 0 <= k <= |names|
      invariant forall i :: 0 <= i < k ==> Before(names[i], name)
    {
      k := k + 1;
    }
    out := names[..k] + [name] + names[k..];
    forall j | k <= j < |names|
      ensures Before(name, names[j])
    {
      BeforeTotal(name, names[k]);
      if j > k { BeforeTrans(name, names[k], names[j]); }
    }
    forall n
      ensures n in out <==> n in names || n == name
    {
      assert names == names[..k] + names[k..];
    }
  }

  method SortedNames(m: Resources) returns (names: seq<string>)
    ensures Ascending(names) && forall n :: n in names <==> n in m
  {
    names := [];
    var left := m.Keys;
    while left != {}
      invariant left <= m.Keys && Ascending(names)
      invariant forall n :: n in names <==> n in m && n !in left
      decreases left
    {
      var name :| name in left;
      names := Insert(names, name);
      left := left - {name};
    }
  }

  /** Sorted lists of the same names are the same list. */
  lemma {:induction false} AscendingUnique(a: seq<string>, b: seq<string>)
    requires Ascending(a) && Ascending(b) && forall n :: n in a <==> n in b
    ensures a == b
  {
    assert b == [] || b[0] in b;
    if a != [] {
      assert a[0] in b;
      var i :| 0 <= i < |b| && b[i] == a[0];
      assert b[0] in a;
      var j :| 0 <= j < |a| && a[j] == b[0];
      if i > 0 && j > 0 {
        BeforeTotal(a[0], b[0]);
      }
      assert a[0] == b[0];
      forall n
        ensures n in a[1..] <==> n in b[1..]
      {
        TailMember(a, n);
        TailMember(b, n);
      }
      AscendingUnique(a[1..], b[1..]);
      assert a == [a[0]] + a[1..] && b == [b[0]] + b[1..];
    }
  }

  lemma TailMember(a: seq<string>, n: string)
    requires a != [] && Ascending(a)
    ensures n in a[1..] <==> n in a && n != a[0]
  {
    BeforeTotal(a[0], a[0]);
    if n in a && n != a[0] {
      var i :| 0 <= i < |a| && a[i] == n;
      assert a[1..][i-1] == n;
    }
    if n in a[1..] {
      var i :| 0 <= i < |a| - 1 && a[1..][i] == n;
      assert a[i+1] == n && Before(a[0], a[i+1]);
    }
  }

  // ----- the check -----

  /** Truncation to a signed 32-bit integer. */
  function Int32(n: int): int { (n + 0x8000_0000) % 0x1_0000_0000 - 0x8000_0000 }

  function CountPart(q: UserQuota, existing: seq<DevPod>): seq<Violation> {
    if q.maxDevPods.Some? && Int32(Int32(|existing|) + 1) > q.maxDevPods.value then
      [Violation("devpods", 1, |existing|, q.maxDevPods.value)]
    else []
  }

  predicate MetersCompute(q: UserQuota, proposed: DevPod) {
    q.compute.Some? && |q.compute.value| > 0 && proposed.running && proposed.pod.Some?
  }

  function ComputePart(limits: Resources, names: seq<string>, existing: seq<DevPod>, proposed: DevPod): seq<Violation>
    requires forall n :: n in names ==> n in limits
  {
    if names == [] then []
    else
      var n := names[|names|-1];
      var used, req := ComputeUsed(existing, n), ComputeOf(proposed, n);
      ComputePart(limits, names[..|names|-1], existing, proposed) +
      (if used + req > limits[n] then [Violation(n, req, used, limits[n])] else [])
  }

  function StoragePart(q: UserQuota, existing: seq<DevPod>, proposed: DevPod): seq<Violation> {
    if q.storage.Some? && StorageUsed(existing) + StorageOf(proposed) > q.storage.value then
      [Violation("storage", StorageOf(proposed), StorageUsed(existing), q.storage.value)]
    else []
  }

  /** vs are exactly the exceeded resources: DevPods, compute by name, storage. */
  ghost predicate Reports(q: UserQuota, existing: seq<DevPod>, proposed: DevPod, vs: seq<Violation>) {
    if MetersCompute(q, proposed) then
      exists names :: Ascending(names) && (forall n :: n in names <==> n in q.compute.value) &&
        vs == CountPart(q, existing) + ComputePart(q.compute.value, names, existing, proposed) + StoragePart(q, existing, proposed)
    else
      vs == CountPart(q, existing) + StoragePart(q, existing, proposed)
  }

  method UsedCompute(existing: seq<DevPod>) returns (used: Resources)
    ensures forall r :: Amount(used, r) == ComputeUsed(existing, r)
  {
    used := map[];
    for i := 0 to |existing|
      invariant forall r :: Amount(used, r) == ComputeUsed(existing[..i], r)
    {
      assert existing[..i+1][..i] == existing[..i];
      var dp := existing[i];
      if !dp.running || dp.pod.None? { continue; }
      var limits := PodLimits(dp.pod.value);
      used := AddResources(used, limits);
    }
    assert existing[..|existing|] == existing;
  }

  method ComputeViolations(limits: Resources, existing: seq<DevPod>, proposed: DevPod) returns (vs: seq<Violation>, names: seq<string>)
    requires proposed.running && proposed.pod.Some?
    ensures Ascending(names) && forall n :: n in names <==> n in limits
    ensures vs == ComputePart(limits, names, existing, proposed)
  {
    var used := UsedCompute(existing);
    var requested := PodLimits(proposed.pod.value);
    names := SortedNames(limits);
    vs := [];
    for i := 0 to |names|
      invariant vs == ComputePart(limits, names[..i], existing, proposed)
    {
      assert names[..i+1][..i] == names[..i];
      var name := names[i];
      var req, u := Amount(requested, name), Amount(used, name);
      if u + req > limits[name] {
        vs := vs + [Violation(name, req, u, limits[name])];
      }
    }
    assert names[..|names|] == names;
  }

  method UsedStorage(existing: seq<DevPod>) returns (used: int)
    ensures used == StorageUsed(existing)
  {
    used := 0;
    for i := 0 to |existing|
      invariant used == StorageUsed(existing[..i])
    {
      assert existing[..i+1][..i] == existing[..i];
      if existing[i].persistence.Some? {
        used := used + existing[i].persistence.value.size;
      }
    }
    assert existing[..|existing|] == existing;
  }

  /** The violations, none when the proposal fits. */
  method CheckQuota(q: UserQuota, existing: seq<DevPod>, proposed: DevPod) returns (vs: seq<Violation>)
    ensures Reports(q, existing, proposed, vs)
  {
    vs := [];
    if q.maxDevPods.Some? && Int32(Int32(|existing|) + 1) > q.maxDevPods.value {
      vs := vs + [Violation("devpods", 1, |existing|, q.maxDevPods.value)];
    }
    if q.compute.Some? && |q.compute.value| > 0 && proposed.running && proposed.pod.Some? {
      var more, names := ComputeViolations(q.compute.value, existing, proposed);
      vs := vs + more;
    }
    if q.storage.Some? {
      var used := UsedStorage(existing);
      var req := if proposed.persistence.Some? then proposed.persistence.value.size else 0;
      if used + req > q.storage.value {
        vs := vs + [Violation("storage", req, used, q.storage.value)];
      }
    }
  }

  // ----- what the check means -----

  /** These DevPods together are within q. */
  predicate Within(q: UserQuota, ds: seq<DevPod>) {
    && (q.maxDevPods.Some? ==> |ds| <= q.maxDevPods.value)
    && (q.compute.Some? ==> forall r :: r in q.compute.value ==> ComputeUsed(ds, r) <= q.compute.value[r])
    && (q.storage.Some? ==> StorageUsed(ds) <= q.storage.value)
  }

  /** A compute limit is asked only of a proposal that runs. */
  predicate Fits(q: UserQuota, existing: seq<DevPod>, proposed: DevPod) {
    && (q.maxDevPods.Some? ==> |existing| + 1 <= q.maxDevPods.value)
    && (q.compute.Some? && proposed.running && proposed.pod.Some? ==>
          forall r :: r in q.compute.value ==> ComputeUsed(existing, r) + ComputeOf(proposed, r) <= q.compute.value[r])
    && (q.storage.Some? ==> StorageUsed(existing) + StorageOf(proposed) <= q.storage.value)
  }

  lemma {:induction false} ComputePartEmptyIff(limits: Resources, names: seq<string>, existing: seq<DevPod>, proposed: DevPod)
    requires forall n :: n in names ==> n in limits
    ensures ComputePart(limits, names, existing, proposed) == [] <==>
      forall i :: 0 <= i < |names| ==> ComputeUsed(existing, names[i]) + ComputeOf(proposed, names[i]) <= limits[names[i]]
  {
    if names != [] {
      var front := names[..|names|-1];
      ComputePartEmptyIff(limits, front, existing, proposed);
      assert forall i :: 0 <= i < |front| ==> front[i] == names[i];
    }
  }

  lemma ComputeEmptyIff(limits: Resources, names: seq<string>, existing: seq<DevPod>, proposed: DevPod)
    requires forall n :: n in names <==> n in limits
    ensures ComputePart(limits, names, existing, proposed) == [] <==>
      forall r :: r in limits ==> ComputeUsed(existing, r) + ComputeOf(proposed, r) <= limits[r]
  {
    hide ComputeUsed, ComputeOf, ComputePart;
    ComputePartEmptyIff(limits, names, existing, proposed);
    forall r | r in limits
      ensures exists i :: 0 <= i < |names| && names[i] == r
    {
      assert r in names;
    }
  }

  /** CheckQuota reports nothing exactly when no limit is exceeded; the count is a
      32-bit sum, so this needs fewer than 2^31 - 1 DevPods (see CountGateExact). */
  lemma NilIffFits(q: UserQuota, existing: seq<DevPod>, proposed: DevPod, vs: seq<Violation>)
    requires Reports(q, existing, proposed, vs) && (q.maxDevPods.Some? ==> |existing| < 0x7fff_ffff)
    ensures vs == [] <==> Fits(q, existing, proposed)
  {
    hide ComputeUsed, ComputeOf, StorageUsed, StorageOf, ComputePart;
    if MetersCompute(q, proposed) {
      var names :| Ascending(names) && (forall n :: n in names <==> n in q.compute.value) &&
        vs == CountPart(q, existing) + ComputePart(q.compute.value, names, existing, proposed) + StoragePart(q, existing, proposed);
      ComputeEmptyIff(q.compute.value, names, existing, proposed);
    } else if q.compute.Some? && |q.compute.value| == 0 {
      assert forall r :: r !in q.compute.value;
    }
  }

  /** When the 32-bit gate is right: it reports exactly the counts over the limit if
      and only if the count plus one still fits, or its wrapped value is over too.
      The limit is a 32-bit field. */
  lemma CountGateExact(q: UserQuota, existing: seq<DevPod>)
    requires q.maxDevPods.Some? && -0x8000_0000 <= q.maxDevPods.value < 0x8000_0000
    ensures (CountPart(q, existing) != [] <==> |existing| + 1 > q.maxDevPods.value) <==>
      |existing| < 0x7fff_ffff || Int32(|existing| + 1) > q.maxDevPods.value
  {
    Int32Step(|existing|);
    if |existing| < 0x7fff_ffff { assert Int32(|existing| + 1) == |existing| + 1; }
  }

  /** Truncating before adding makes no difference. */
  lemma Int32Step(n: nat)
    ensures Int32(Int32(n) + 1) == Int32(n + 1)
  {
    var k := (n + 0x8000_0000) / 0x1_0000_0000;
    assert Int32(n) == n - k * 0x1_0000_0000;
    var j := (n + 1 + 0x8000_0000) / 0x1_0000_0000;
    assert n + 1 + 0x8000_0000 - k * 0x1_0000_0000 == (j - k) * 0x1_0000_0000 + (n + 1 + 0x8000_0000) % 0x1_0000_0000;
  }

  /** The report is determined by its inputs, whatever order the map was walked in. */
  lemma ReportsUnique(q: UserQuota, existing: seq<DevPod>, proposed: DevPod, vs: seq<Violation>, ws: seq<Violation>)
    requires Reports(q, existing, proposed, vs) && Reports(q, existing, proposed, ws)
    ensures vs == ws
  {
    if MetersCompute(q, proposed) {
      var a :| Ascending(a) && (forall n :: n in a <==> n in q.compute.value) &&
        vs == CountPart(q, existing) + ComputePart(q.compute.value, a, existing, proposed) + StoragePart(q, existing, proposed);
      var b :| Ascending(b) && (forall n :: n in b <==> n in q.compute.value) &&
        ws == CountPart(q, existing) + ComputePart(q.compute.value, b, existing, proposed) + StoragePart(q, existing, proposed);
      AscendingUnique(a, b);
    }
  }

  /** Exactly the exceeded compute resources are reported, in ascending order, each
      with its own figures. */
  lemma {:induction false} ComputePartExact(limits: Resources, names: seq<string>, existing: seq<DevPod>, proposed: DevPod)
    requires Ascending(names) && forall n :: n in names ==> n in limits
    ensures var vs := ComputePart(limits, names, existing, proposed);
      && (forall v :: v in vs <==> v.resource in names && v == Violation(v.resource, ComputeOf(proposed, v.resource),
            ComputeUsed(existing, v.resource), limits[v.resource]) && v.used + v.requested > v.limit)
      && forall i, j :: 0 <= i < j < |vs| ==> Before(vs[i].resource, vs[j].resource)
  {
    if names != [] {
      var front, n := names[..|names|-1], names[|names|-1];
      ComputePartExact(limits, front, existing, proposed);
      assert names == front + [n];
      forall m | m in front
        ensures Before(m, n)
      {
        var i :| 0 <= i < |front| && front[i] == m;
        assert names[i] == m;
      }
      var before, vs := ComputePart(limits, front, existing, proposed), ComputePart(limits, names, existing, proposed);
      assert forall v :: v in before ==> v.resource in front;
    }
  }

  // ----- what is metered -----

  lemma {:induction false} LimitsInsert(cs: seq<Container>, k: nat, c: Container, r: string)
    requires k <= |cs|
    ensures LimitsOf(cs[..k] + [c] + cs[k..], r) == LimitsOf(cs, r) + if r in c.limits then c.limits[r] else 0
  {
    var all, n := cs[..k] + [c] + cs[k..], |cs|;
    if k == n {
      assert all[..n] == cs && all[n] == c;
    } else {
      var front := cs[..n-1];
      LimitsInsert(front, k, c, r);
      assert all[..n] == front[..k] + [c] + front[k..] && all[n] == cs[n-1];
    }
  }

  /** A Pod without containers takes nothing; every container added, to either list and at
      any place, adds exactly its own limits. */
  lemma ContainersMetered(p: Pod, k: nat, c: Container, r: string)
    ensures PodLimit(p.(containers := [], initContainers := []), r) == 0
    ensures k <= |p.containers| ==>
      PodLimit(p.(containers := p.containers[..k] + [c] + p.containers[k..]), r) ==
        PodLimit(p, r) + if r in c.limits then c.limits[r] else 0
    ensures k <= |p.initContainers| ==>
      PodLimit(p.(initContainers := p.initContainers[..k] + [c] + p.initContainers[k..]), r) ==
        PodLimit(p, r) + if r in c.limits then c.limits[r] else 0
  {
    if k <= |p.containers| { LimitsInsert(p.containers, k, c, r); }
    if k <= |p.initContainers| { LimitsInsert(p.initContainers, k, c, r); }
  }

  lemma {:induction false} UsedInsert(ds: seq<DevPod>, k: nat, d: DevPod, r: string)
    requires k <= |ds|
    ensures ComputeUsed(ds[..k] + [d] + ds[k..], r) == ComputeUsed(ds, r) + ComputeOf(d, r)
    ensures StorageUsed(ds[..k] + [d] + ds[k..]) == StorageUsed(ds) + StorageOf(d)
  {
    hide ComputeOf, StorageOf;
    var all, n := ds[..k] + [d] + ds[k..], |ds|;
    if k == n {
      assert all[..n] == ds && all[n] == d;
    } else {
      var front := ds[..n-1];
      UsedInsert(front, k, d, r);
      assert all[..n] == front[..k] + [d] + front[k..] && all[n] == ds[n-1];
    }
  }

  /** A DevPod adds its compute limits only while it runs a Pod, and its volume always,
      wherever it stands in the list. */
  lemma DevPodMetered(ds: seq<DevPod>, k: nat, d: DevPod, r: string)
    requires k <= |ds|
    ensures var all := ds[..k] + [d] + ds[k..];
      && ComputeUsed(all, r) == ComputeUsed(ds, r) +
           (if d.running && d.pod.Some? then LimitsOf(d.pod.value.containers, r) + LimitsOf(d.pod.value.initContainers, r) else 0)
      && StorageUsed(all) == StorageUsed(ds) + (if d.persistence.Some? then d.persistence.value.size else 0)
      && ComputeUsed([], r) == 0 && StorageUsed([]) == 0
  {
    UsedInsert(ds, k, d, r);
  }

  /** The report, entry by entry: the count, every exceeded compute resource of a running
      proposal, the storage, each with what is asked for, in use and allowed. */
  lemma ReportExact(q: UserQuota, existing: seq<DevPod>, proposed: DevPod, vs: seq<Violation>, v: Violation)
    requires Reports(q, existing, proposed, vs) && |existing| < 0x7fff_ffff
    ensures v in vs <==>
      || (q.maxDevPods.Some? && |existing| + 1 > q.maxDevPods.value && v == Violation("devpods", 1, |existing|, q.maxDevPods.value))
      || (q.compute.Some? && proposed.running && proposed.pod.Some? && v.resource in q.compute.value &&
          v == Violation(v.resource, ComputeOf(proposed, v.resource), ComputeUsed(existing, v.resource), q.compute.value[v.resource]) &&
          v.used + v.requested > v.limit)
      || (q.storage.Some? && StorageUsed(existing) + StorageOf(proposed) > q.storage.value &&
          v == Violation("storage", StorageOf(proposed), StorageUsed(existing), q.storage.value))
  {
    hide ComputeUsed, ComputeOf, StorageUsed, StorageOf, ComputePart, CountPart, StoragePart, Ascending;
    CountEntry(q, existing, v);
    StorageEntry(q, existing, proposed, v);
    if MetersCompute(q, proposed) {
      var names :| Ascending(names) && (forall n :: n in names <==> n in q.compute.value) &&
        vs == CountPart(q, existing) + ComputePart(q.compute.value, names, existing, proposed) + StoragePart(q, existing, proposed);
      ComputeEntry(q.compute.value, names, existing, proposed, v);
    } else if q.compute.Some? && |q.compute.value| == 0 {
      assert v.resource !in q.compute.value;
    }
  }

  lemma CountEntry(q: UserQuota, existing: seq<DevPod>, v: Violation)
    requires |existing| < 0x7fff_ffff
    ensures v in CountPart(q, existing) <==>
      q.maxDevPods.Some? && |existing| + 1 > q.maxDevPods.value && v == Violation("devpods", 1, |existing|, q.maxDevPods.value)
  {
    Int32Step(|existing|);
    assert Int32(|existing| + 1) == |existing| + 1;
  }

  lemma StorageEntry(q: UserQuota, existing: seq<DevPod>, proposed: DevPod, v: Violation)
    ensures v in StoragePart(q, existing, proposed) <==>
      q.storage.Some? && StorageUsed(existing) + StorageOf(proposed) > q.storage.value &&
      v == Violation("storage", StorageOf(proposed), StorageUsed(existing), q.storage.value)
  {
    hide StorageUsed, StorageOf;
  }

  lemma ComputeEntry(limits: Resources, names: seq<string>, existing: seq<DevPod>, proposed: DevPod, v: Violation)
    requires Ascending(names) && forall n :: n in names <==> n in limits
    ensures v in ComputePart(limits, names, existing, proposed) <==>
      v.resource in limits && v.used + v.requested > v.limit &&
      v == Violation(v.resource, ComputeOf(proposed, v.resource), ComputeUsed(existing, v.resource), limits[v.resource])
  {
    hide ComputeUsed, ComputeOf, ComputePart, Ascending;
    ComputePartExact(limits, names, existing, proposed);
  }
}
