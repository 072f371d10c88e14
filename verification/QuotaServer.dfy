/**
 The DevPod endpoints of the web UI as steps on the store
 (internal/webui/api_devpods.go, internal/webui/template_apply.go), one request at
 a time.  The store is the list the API server returns; names are unique in it.
 */
module QuotaServer {
  import opened Wrappers
  import opened Quota

  datatype Session = Session(user: string, admin: bool)

  /** pod, persistence and shell of a full preset. */
  datatype Preset = Preset(pod: Pod, persistence: Option<Persistence>, shell: string)

  /** valid is the verdict of ValidateBinding on the annotations. */
  datatype Binding = Binding(annotations: map<string, string>, requests: Resources, limits: Resources, valid: bool)

  datatype Template = Template(preset: Option<Preset>, binding: Option<Binding>)

  datatype ApiError =
    | BadRequest | Forbidden | KoreForbidden | NotFound | AlreadyExists
    | QuotaExceeded(violations: seq<Violation>)

  const KorePrefix := "kore.zjusct.io/"

  predicate HasPrefix(s: string, prefix: string) { prefix <= s }

  predicate HasKore(ann: map<string, string>) { exists k | k in ann :: HasPrefix(k, KorePrefix) }

  // ----- templates -----

  /** base[k] = over[k] for every entry of over. */
  method Merge<V>(base: map<string, V>, over: map<string, V>) returns (out: map<string, V>)
    ensures out == base + over
  {
    out := base;
    var left := over.Keys;
    while left != {}
      invariant left <= over.Keys
      invariant out == base + map k | k in over && k !in left :: over[k]
      decreases left
    {
      var k :| k in left;
      out := out[k := over[k]];
      left := left - {k};
    }
  }

  /** The container a binding's resources go to. */
  function BindingTarget(d: DevPod): (r: Option<nat>)
    requires d.pod.Some? && d.pod.value.containers != []
    ensures r.Some? ==> r.value < |d.pod.value.containers|
  {
    if d.persistence.Some? && d.persistence.value.target != "" then
      FirstIndex(d.pod.value.containers, (c: Container) => c.name == d.persistence.value.target)
    else Some(0)
  }

  function WithPreset(d: DevPod, p: Preset): DevPod {
    d.(pod := Some(p.pod),
       persistence := if d.persistence.None? then p.persistence else d.persistence,
       shell := if d.shell == "" then p.shell else d.shell)
  }

  function WithBinding(d: DevPod, b: Binding): Option<DevPod> {
    if !b.valid || d.pod.None? || d.pod.value.containers == [] then None
    else match BindingTarget(d)
      case None => None
      case Some(i) =>
        var p := d.pod.value;
        var c := p.containers[i];
        Some(d.(pod := Some(p.(annotations := p.annotations + b.annotations,
                               containers := p.containers[i := c.(requests := c.requests + b.requests,
                                                                  limits := c.limits + b.limits)]))))
  }

  /** The stamped DevPod, or None if the template does not apply. */
  function Stamped(d: DevPod, t: Template): Option<DevPod> {
    if t.preset.None? && t.binding.None? then None
    else if t.preset.Some? && d.pod.Some? then None
    else
      var d1 := if t.preset.Some? then WithPreset(d, t.preset.value) else d;
      if t.binding.None? then Some(d1) else WithBinding(d1, t.binding.value)
  }

  /** A DevPod that is written in place while a request is handled. */
  class Draft {
    var dp: DevPod

    constructor (d: DevPod)
      ensures dp == d
    {
      dp := d;
    }

    method ApplyTemplate(t: Template) returns (ok: bool)
      modifies this
      ensures ok <==> Stamped(old(dp), t).Some?
      ensures ok ==> Some(dp) == Stamped(old(dp), t)
    {
      if t.preset.None? && t.binding.None? { return false; }
      if t.preset.Some? {
        if dp.pod.Some? { return false; }
        ApplyPreset(t.preset.value);
      }
      ok := true;
      if t.binding.Some? {
        ok := ApplyBinding(t.binding.value);
      }
    }

    method ApplyPreset(p: Preset)
      modifies this
      ensures dp == WithPreset(old(dp), p)
    {
      dp := dp.(pod := Some(p.pod));
      if dp.persistence.None? && p.persistence.Some? { dp := dp.(persistence := p.persistence); }
      if dp.shell == "" { dp := dp.(shell := p.shell); }
    }

    method ApplyBinding(b: Binding) returns (ok: bool)
      modifies this
      ensures ok <==> WithBinding(old(dp), b).Some?
      ensures ok ==> Some(dp) == WithBinding(old(dp), b)
    {
      if !b.valid { return false; }
      if dp.pod.None? || |dp.pod.value.containers| == 0 { return false; }
      var annotations := Merge(dp.pod.value.annotations, b.annotations);
      var cs := dp.pod.value.containers;
      var target := 0;
      if dp.persistence.Some? && dp.persistence.value.target != "" {
        var i := 0;
        while i < |cs| && cs[i].name != dp.persistence.value.target
          invariant 0 <= i <= |cs|
          invariant forall j :: 0 <= j < i ==> cs[j].name != dp.persistence.value.target
        {
          i := i + 1;
        }
        if i == |cs| { return false; }
        target := i;
      }
      var requests := Merge(cs[target].requests, b.requests);
      var limits := Merge(cs[target].limits, b.limits);
      var c := cs[target].(requests := requests, limits := limits);
      dp := dp.(pod := Some(dp.pod.value.(annotations := annotations, containers := cs[target := c])));
      return true;
    }
  }

  // ----- the store -----

  function IndexOf(store: seq<DevPod>, name: string): (r: Option<nat>)
    ensures r.Some? ==> r.value < |store| && store[r.value].name == name
    ensures r.None? ==> forall i :: 0 <= i < |store| ==> store[i].name != name
  {
    if store == [] then None
    else if store[|store|-1].name == name then Some(|store| - 1)
    else IndexOf(store[..|store|-1], name)
  }

  predicate UniqueNames(store: seq<DevPod>) {
    forall i, j :: 0 <= i < j < |store| ==> store[i].name != store[j].name
  }

  /** The DevPods of owner other than the excluded one. */
  function Existing(store: seq<DevPod>, owner: string, exclude: string): seq<DevPod> {
    if store == [] then []
    else
      var front, d := Existing(store[..|store|-1], owner, exclude), store[|store|-1];
      if d.owner == owner && d.name != exclude then front + [d] else front
  }

  function Owned(store: seq<DevPod>, owner: string): seq<DevPod> {
    if store == [] then []
    else
      var front, d := Owned(store[..|store|-1], owner), store[|store|-1];
      if d.owner == owner then front + [d] else front
  }

  datatype Request = Request(dp: DevPod, template: Option<string>)

  /** What buildDevPod demands of a manifest; an empty owner is filled in, and the
      API server drops a deletion mark. */
  function Built(sess: Session, d: DevPod): Result<DevPod, ApiError> {
    var dp := d.(owner := if d.owner == "" then sess.user else d.owner, deleting := false);
    if sess.admin then Ok(dp)
    else if dp.owner != sess.user then Err(Forbidden)
    else if !HasPrefix(dp.name, sess.user + "-") then Err(BadRequest)
    else Ok(dp)
  }

  class Server {
    const defaults: UserQuota
    const koreEnabled: bool
    const users: map<string, Option<UserQuota>>
    const templates: map<string, Template>
    var store: seq<DevPod>

    constructor (defaults: UserQuota, koreEnabled: bool, users: map<string, Option<UserQuota>>, templates: map<string, Template>)
      ensures this.defaults == defaults && this.koreEnabled == koreEnabled && this.users == users && this.templates == templates
      ensures store == []
    {
      this.defaults := defaults;
      this.koreEnabled := koreEnabled;
      this.users := users;
      this.templates := templates;
      store := [];
    }

    /** Without a User object the defaults apply. */
    function QuotaOf(user: string): UserQuota {
      EffectiveQuota(if user in users then users[user] else None, defaults)
    }

    method OwnedDevPods(owner: string) returns (out: seq<DevPod>)
      ensures out == Owned(store, owner)
    {
      out := [];
      for i := 0 to |store|
        invariant out == Owned(store[..i], owner)
      {
        assert store[..i+1][..i] == store[..i];
        if store[i].owner == owner { out := out + [store[i]]; }
      }
      assert store[..|store|] == store;
    }

    method CheckQuotaFor(sess: Session, proposed: DevPod, exclude: string) returns (vs: seq<Violation>)
      ensures sess.admin ==> vs == []
      ensures !sess.admin ==> Reports(QuotaOf(sess.user), Existing(store, sess.user, exclude), proposed, vs)
    {
      if sess.admin { return []; }
      var owned := OwnedDevPods(sess.user);
      var existing := [];
      for i := 0 to |owned|
        invariant existing == Existing(owned[..i], sess.user, exclude)
      {
        assert owned[..i+1][..i] == owned[..i];
        OwnedOwner(store, sess.user, i);
        if owned[i].name != exclude { existing := existing + [owned[i]]; }
      }
      assert owned[..|owned|] == owned;
      ExistingOfOwned(store, sess.user, exclude);
      vs := CheckQuota(QuotaOf(sess.user), existing, proposed);
    }

    /** handleCreateDevPod: a stored DevPod, or an error and an unchanged store. */
    method Create(sess: Session, req: Request) returns (r: Result<DevPod, ApiError>)
      modifies this
      ensures r.Ok? ==> Created(sess, req, old(store), r.value) && store == old(store) + [r.value]
      ensures r.Err? ==> store == old(store)
      ensures forall dp :: Created(sess, req, old(store), dp) ==> r == Ok(dp)
    {
      var built := Built(sess, req.dp);
      if built.Err? { return Err(built.error); }
      var dp := built.value;
      if !sess.admin {
        if HasKore(dp.annotations) || (dp.pod.Some? && HasKore(dp.pod.value.annotations)) { return Err(KoreForbidden); }
      }
      if req.template.Some? {
        if req.template.value !in templates { return Err(BadRequest); }
        var t := templates[req.template.value];
        if !koreEnabled && t.binding.Some? { return Err(BadRequest); }
        var draft := new Draft(dp);
        var applied := draft.ApplyTemplate(t);
        if !applied { return Err(BadRequest); }
        dp := draft.dp;
      }
      if !sess.admin {
        if dp.vm { return Err(BadRequest); }
        if dp.pod.None? { return Err(BadRequest); }
        var err := RequireLimits(dp.pod.value);
        if err.Some? { return Err(BadRequest); }
      }
      var vs := CheckQuotaFor(sess, dp, "");
      ReportsDecides(sess, old(store), dp, "", vs);
      if vs != [] { return Err(QuotaExceeded(vs)); }
      if IndexOf(store, dp.name).Some? { return Err(AlreadyExists); }
      store := store + [dp];
      return Ok(dp);
    }

    /** The check admits a proposal when it reports nothing. */
    ghost predicate Admitted(sess: Session, store: seq<DevPod>, proposed: DevPod, exclude: string) {
      sess.admin || Reports(QuotaOf(sess.user), Existing(store, sess.user, exclude), proposed, [])
    }

    lemma ReportsDecides(sess: Session, store: seq<DevPod>, dp: DevPod, exclude: string, vs: seq<Violation>)
      requires sess.admin ==> vs == []
      requires !sess.admin ==> Reports(QuotaOf(sess.user), Existing(store, sess.user, exclude), dp, vs)
      ensures Admitted(sess, store, dp, exclude) <==> vs == []
    {
      if !sess.admin && Admitted(sess, store, dp, exclude) {
        ReportsUnique(QuotaOf(sess.user), Existing(store, sess.user, exclude), dp, vs, []);
      }
    }

    /** The request is stamped: the template named, if any, applied to what was built. */
    predicate StampedFrom(req: Request, built: DevPod, dp: DevPod) {
      match req.template
      case None => dp == built
      case Some(t) => t in templates && (koreEnabled || templates[t].binding.None?) && Stamped(built, templates[t]) == Some(dp)
    }

    /** dp is what this create request stores. */
    ghost predicate Created(sess: Session, req: Request, store: seq<DevPod>, dp: DevPod) {
      && Built(sess, req.dp).Ok?
      && var built := Built(sess, req.dp).value;
      && (!sess.admin ==> !HasKore(built.annotations) && (built.pod.Some? ==> !HasKore(built.pod.value.annotations)))
      && StampedFrom(req, built, dp)
      && (!sess.admin ==> !dp.vm && dp.pod.Some? && AllLimited(dp.pod.value))
      && Admitted(sess, store, dp, "")
      && IndexOf(store, dp.name).None?
    }

    /** getOwned: others' DevPods look missing. */
    function Visible(sess: Session, store: seq<DevPod>, name: string): (r: Option<nat>)
      ensures r.Some? ==> r.value < |store| && store[r.value].name == name && (sess.admin || store[r.value].owner == sess.user)
    {
      match IndexOf(store, name)
      case None => None
      case Some(i) => if store[i].owner != sess.user && !sess.admin then None else Some(i)
    }

    /** handlePatchDevPod; None leaves the field alone. */
    method Patch(sess: Session, name: string, running: Option<bool>) returns (r: Result<DevPod, ApiError>)
      modifies this
      ensures store == old(store) || (r.Ok? && Patched(sess, name, running, old(store), store))
      ensures (exists t :: Patched(sess, name, running, old(store), t)) ==> r.Ok? && Patched(sess, name, running, old(store), store)
    {
      var at := Visible(sess, store, name);
      if at.None? { return Err(NotFound); }
      var dp := store[at.value];
      if running.None? || running.value == dp.running { return Ok(dp); }
      dp := dp.(running := running.value);
      if running.value {
        var vs := CheckQuotaFor(sess, dp, dp.name);
        ReportsDecides(sess, store, dp, dp.name, vs);
        if vs != [] { return Err(QuotaExceeded(vs)); }
      }
      store := store[at.value := dp];
      return Ok(dp);
    }

    /** One visible DevPod changes its running flag; waking passes the check. */
    ghost predicate Patched(sess: Session, name: string, running: Option<bool>, store: seq<DevPod>, after: seq<DevPod>) {
      && Visible(sess, store, name).Some?
      && var i := Visible(sess, store, name).value;
      && running.Some? && running.value != store[i].running
      && after == store[i := store[i].(running := running.value)]
      && (running.value ==> Admitted(sess, store, store[i].(running := true), name))
    }

    /** handleDeleteDevPod: an object with a finalizer is only marked. */
    method Delete(sess: Session, name: string) returns (r: Result<(), ApiError>)
      modifies this
      ensures store == (match Visible(sess, old(store), name)
                        case None => old(store)
                        case Some(i) => Deleted(old(store), i))
      ensures r.Ok? <==> Visible(sess, old(store), name).Some?
    {
      var at := Visible(sess, store, name);
      if at.None? { return Err(NotFound); }
      var dp := store[at.value];
      if dp.finalizer {
        store := store[at.value := dp.(deleting := true)];
      } else {
        store := Without(store, at.value);
      }
      return Ok(());
    }
  }

  /** The store after a delete call on entry i. */
  function Deleted(store: seq<DevPod>, i: nat): seq<DevPod>
    requires i < |store|
  {
    if store[i].finalizer then store[i := store[i].(deleting := true)] else Without(store, i)
  }

  function Without(store: seq<DevPod>, i: nat): seq<DevPod>
    requires i < |store|
  {
    store[..i] + store[i+1..]
  }

  lemma {:induction false} OwnedOwner(store: seq<DevPod>, owner: string, i: nat)
    requires i < |Owned(store, owner)|
    ensures Owned(store, owner)[i].owner == owner
  {
    if store != [] && i < |Owned(store[..|store|-1], owner)| { OwnedOwner(store[..|store|-1], owner, i); }
  }

  /** Filtering the listing of the owner is filtering the store. */
  lemma {:induction false} ExistingOfOwned(store: seq<DevPod>, owner: string, exclude: string)
    ensures Existing(Owned(store, owner), owner, exclude) == Existing(store, owner, exclude)
  {
    if store != [] {
      var front, d := store[..|store|-1], store[|store|-1];
      ExistingOfOwned(front, owner, exclude);
      if d.owner == owner {
        assert (Owned(front, owner) + [d])[..|Owned(front, owner)|] == Owned(front, owner);
      }
    }
  }

  // ----- what a template does -----

  /** The volume target a binding goes by: the request's volume, or else the preset's. */
  function TargetAfter(d: DevPod, t: Template): string {
    if d.persistence.Some? then d.persistence.value.target
    else if t.preset.Some? && t.preset.value.persistence.Some? then t.preset.value.persistence.value.target
    else ""
  }

  function PodAfter(d: DevPod, t: Template): Option<Pod> { if t.preset.Some? then Some(t.preset.value.pod) else d.pod }

  /** Exactly when a template applies: it has a preset or a binding, a preset meets no Pod
      of the request's own, and a binding is valid and finds its container. */
  lemma StampsIff(d: DevPod, t: Template)
    ensures Stamped(d, t).Some? <==>
      && (t.preset.Some? || t.binding.Some?)
      && (t.preset.Some? ==> d.pod.None?)
      && (t.binding.Some? ==>
            t.binding.value.valid && PodAfter(d, t).Some? && PodAfter(d, t).value.containers != [] &&
            (TargetAfter(d, t) == "" || exists c :: c in PodAfter(d, t).value.containers && c.name == TargetAfter(d, t)))
  {
  }

  /** What it stamps: the preset's Pod, and its volume and shell where the request has
      none; nothing else of the DevPod changes. */
  lemma StampKeeps(d: DevPod, t: Template)
    requires Stamped(d, t).Some?
    ensures var s := Stamped(d, t).value;
      && s.name == d.name && s.owner == d.owner && s.annotations == d.annotations && s.running == d.running && s.vm == d.vm
      && s.finalizer == d.finalizer && s.deleting == d.deleting
      && s.persistence == (if d.persistence.None? && t.preset.Some? then t.preset.value.persistence else d.persistence)
      && s.shell == (if d.shell == "" && t.preset.Some? then t.preset.value.shell else d.shell)
      && (t.binding.None? ==> s.pod == PodAfter(d, t))
  {
  }

  /** The binding wins in annotations and in the resources of one container, the first with
      the target's name or the first of all; other containers stay as they were. */
  lemma BindingWins(d: DevPod, t: Template)
    requires Stamped(d, t).Some? && t.binding.Some?
    ensures var b, before, s := t.binding.value, PodAfter(d, t), Stamped(d, t).value;
      && before.Some? && s.pod.Some? && s.pod.value.initContainers == before.value.initContainers
      && (forall k :: k in s.pod.value.annotations <==> k in before.value.annotations || k in b.annotations)
      && (forall k :: k in s.pod.value.annotations ==>
            s.pod.value.annotations[k] == if k in b.annotations then b.annotations[k] else before.value.annotations[k])
      && |s.pod.value.containers| == |before.value.containers|
      && exists at :: 0 <= at < |before.value.containers| &&
           Chosen(before.value.containers, TargetAfter(d, t), at) &&
           Rebound(before.value.containers[at], b, s.pod.value.containers[at]) &&
           forall j :: 0 <= j < |before.value.containers| && j != at ==> s.pod.value.containers[j] == before.value.containers[j]
  {
    var d1 := if t.preset.Some? then WithPreset(d, t.preset.value) else d;
    var at := BindingTarget(d1).value;
    assert Rebound(PodAfter(d, t).value.containers[at], t.binding.value, Stamped(d, t).value.pod.value.containers[at]);
  }

  /** The container meant by the target, the first one when there is none. */
  predicate Chosen(cs: seq<Container>, target: string, at: int)
    requires 0 <= at < |cs|
  {
    if target == "" then at == 0 else cs[at].name == target && forall j :: 0 <= j < at ==> cs[j].name != target
  }

  /** The container with the binding's requests and limits over its own. */
  predicate Rebound(c: Container, b: Binding, after: Container) {
    && after.name == c.name
    && after.requests.Keys == c.requests.Keys + b.requests.Keys && after.limits.Keys == c.limits.Keys + b.limits.Keys
    && (forall r :: r in after.requests ==> after.requests[r] == if r in b.requests then b.requests[r] else c.requests[r])
    && (forall r :: r in after.limits ==> after.limits[r] == if r in b.limits then b.limits[r] else c.limits[r])
  }

  // ----- what the handlers admit -----

  predicate Declared(p: Pod) {
    forall c :: c in p.containers + p.initContainers ==>
      "cpu" in c.limits && c.limits["cpu"] != 0 && "memory" in c.limits && c.limits["memory"] != 0
  }

  predicate KoreFree(ann: map<string, string>) { forall k :: k in ann ==> !("kore.zjusct.io/" <= k) }

  predicate StampedAs(srv: Server, template: Option<string>, built: DevPod, dp: DevPod) {
    match template
    case None => dp == built
    case Some(t) =>
      t in srv.templates && (srv.templates[t].binding.Some? ==> srv.koreEnabled) && Stamped(built, srv.templates[t]) == Some(dp)
  }

  /** What a user's create stores, condition by condition. */
  lemma UserCreateIff(srv: Server, u: string, req: Request, store: seq<DevPod>, dp: DevPod)
    ensures srv.Created(Session(u, false), req, store, dp) <==>
      && (req.dp.owner == "" || req.dp.owner == u) && u + "-" <= req.dp.name
      && KoreFree(req.dp.annotations) && (req.dp.pod.Some? ==> KoreFree(req.dp.pod.value.annotations))
      && StampedAs(srv, req.template, req.dp.(owner := u, deleting := false), dp)
      && !dp.vm && dp.pod.Some? && Declared(dp.pod.value)
      && Reports(srv.QuotaOf(u), Existing(store, u, ""), dp, [])
      && forall i :: 0 <= i < |store| ==> store[i].name != dp.name
  {
    hide Stamped, Reports, Existing;
    LimitedDeclared(dp);
    NameTaken(store, dp.name);
  }

  /** An admin may create for others, without limits, quota or name rules. */
  lemma AdminCreateIff(srv: Server, u: string, req: Request, store: seq<DevPod>, dp: DevPod)
    ensures srv.Created(Session(u, true), req, store, dp) <==>
      && StampedAs(srv, req.template, req.dp.(owner := if req.dp.owner == "" then u else req.dp.owner, deleting := false), dp)
      && forall i :: 0 <= i < |store| ==> store[i].name != dp.name
  {
    hide Stamped, Reports, Existing;
    NameTaken(store, dp.name);
  }

  lemma LimitedDeclared(dp: DevPod)
    ensures dp.pod.Some? ==> (AllLimited(dp.pod.value) <==> Declared(dp.pod.value))
  {
  }

  lemma NameTaken(store: seq<DevPod>, name: string)
    ensures IndexOf(store, name).None? <==> forall i :: 0 <= i < |store| ==> store[i].name != name
  {
  }

  /** Which one request to change running does: the DevPod of that name, if it is the
      user's or the user is an admin; waking an owner's own DevPod is checked like a create. */
  lemma PatchedIff(srv: Server, sess: Session, name: string, running: Option<bool>, store: seq<DevPod>, after: seq<DevPod>)
    requires UniqueNames(store)
    ensures srv.Patched(sess, name, running, store, after) <==>
      exists i :: 0 <= i < |store| && store[i].name == name && (sess.admin || store[i].owner == sess.user) &&
        running == Some(!store[i].running) && after == store[i := store[i].(running := !store[i].running)] &&
        (running.value && !sess.admin ==>
           Reports(srv.QuotaOf(sess.user), Existing(store, sess.user, name), store[i].(running := true), []))
  {
    hide Reports, Existing;
    NameTaken(store, name);
  }

  /** Deleting marks what has a finalizer and takes out what has none. */
  lemma DeletedExact(store: seq<DevPod>, i: nat)
    requires i < |store|
    ensures store[i].finalizer ==> |Deleted(store, i)| == |store| && Deleted(store, i)[i] == store[i].(deleting := true)
    ensures store[i].finalizer ==> forall j :: 0 <= j < |store| && j != i ==> Deleted(store, i)[j] == store[j]
    ensures !store[i].finalizer ==> Deleted(store, i) == store[..i] + store[i+1..]
  {
  }

  /** Field by field the user's own quota wins over the defaults. */
  lemma OwnQuotaWins(srv: Server, u: string)
    ensures var own, q := if u in srv.users then srv.users[u] else None, srv.QuotaOf(u);
      && (if own.Some? && own.value.maxDevPods.Some? then q.maxDevPods == own.value.maxDevPods else q.maxDevPods == srv.defaults.maxDevPods)
      && (if own.Some? && own.value.compute.Some? then q.compute == own.value.compute else q.compute == srv.defaults.compute)
      && (if own.Some? && own.value.storage.Some? then q.storage == own.value.storage else q.storage == srv.defaults.storage)
  {
  }
}
