/** SSH authentication over an ordered chain of identity sources (internal/gateway/auth.go). */
module AuthChain {
  import opened Wrappers
  import opened Controller
  import opened Render
  import ControllerTheorems
  import Ldap = LdapCache
  import LdapProofs = LdapCacheProofs
  import LdapTheorems = LdapCacheTheorems

  type Key = Ldap.Key

  /** What a source says about a user when it is asked; the name is for the audit. */
  datatype Answer = Knows(keys: seq<Key>, stale: bool) | Unknown | Broken(error: string)
  datatype Source = Source(name: string, answer: Answer)

  datatype DevPod = DevPod(name: string, owner: string, collaborators: seq<string>, phase: Phase, endpoint: Endpoint)

  /** The outcome of reading one DevPod from the API server. */
  datatype Get = Got(dp: DevPod) | Missing | GetFailed(error: string)

  datatype Login = Login(user: string, pod: string)

  datatype Path = Path(user: string, pod: string, kind: string, alias: string, source: string, stale: bool, lastSourceErr: string)

  const NoPath := Path("", "", "", "", "", false, "")

  datatype Reason = LoginFormat | DevPodNotFound | GetError | PubkeyMismatch | UserNotFound | AccessDenied | NotReady

  datatype Verdict =
    | Granted(user: string, devpod: string, endpoint: Endpoint, path: Path)
    | Denied(reason: Reason, path: Path)

  function DevPodResourceName(owner: string, pod: string): string { owner + "-" + pod }

  // ----- the chain, declaratively -----

  predicate Matches(s: Source, key: Key) { s.answer.Knows? && key in s.answer.keys }

  /** The first source that lists the key, or the length of the chain. */
  function FirstMatch(sources: seq<Source>, key: Key): (n: nat)
    ensures n <= |sources|
    ensures forall i :: 0 <= i < n ==> !Matches(sources[i], key)
    ensures n < |sources| ==> Matches(sources[n], key)
  {
    if sources == [] || Matches(sources[0], key) then 0
    else
      var n := FirstMatch(sources[1..], key);
      assert forall i :: 0 < i < n + 1 ==> sources[i] == sources[1..][i - 1];
      n + 1
  }

  predicate Authorized(sources: seq<Source>, key: Key) { exists i :: 0 <= i < |sources| && Matches(sources[i], key) }

  predicate Known(sources: seq<Source>) { exists i :: 0 <= i < |sources| && sources[i].answer.Knows? }

  /** The error of the last source that failed. */
  function LastError(sources: seq<Source>): string {
    if sources == [] then ""
    else
      var s := sources[|sources|-1];
      if s.answer.Broken? then s.name + ": " + s.answer.error else LastError(sources[..|sources|-1])
  }

  predicate Accessible(dp: DevPod, user: string) { dp.owner == user || user in dp.collaborators }

  predicate Ready(dp: DevPod) { dp.phase == Running && dp.endpoint != NoEndpoint }

  function Finalized(dp: DevPod, user: string, path: Path): Verdict {
    if !Accessible(dp, user) then Denied(AccessDenied, path)
    else if !Ready(dp) then Denied(NotReady, path)
    else Granted(user, dp.name, dp.endpoint, path)
  }

  /** What the API server answers for each name; other names are missing. */
  type Reads = map<string, Get>

  function Read(lookups: Reads, name: string): Get { if name in lookups then lookups[name] else Missing }

  /** The owner-scoped name first, the bare name for older DevPods. */
  function Target(lookups: Reads, login: Login): Get {
    var scoped := Read(lookups, DevPodResourceName(login.user, login.pod));
    if scoped.Missing? then Read(lookups, login.pod) else scoped
  }

  /** The two names never coincide, so the two reads are independent. */
  lemma NamesDiffer(login: Login)
    ensures DevPodResourceName(login.user, login.pod) != login.pod
  {
    assert |DevPodResourceName(login.user, login.pod)| == |login.user| + 1 + |login.pod|;
  }

  /** One login's owner and pod are the other's with the dash put elsewhere. */
  predicate Shifted(a: Login, b: Login) {
    |b.user| > |a.user| && b.user[..|a.user|] == a.user && b.user[|a.user|] == '-' &&
    a.pod == b.user[|a.user| + 1..] + "-" + b.pod
  }

  /** Exactly when two logins are looked up under the same owner-scoped name. */
  lemma LoginsCollideIff(a: Login, b: Login)
    ensures DevPodResourceName(a.user, a.pod) == DevPodResourceName(b.user, b.pod) <==> a == b || Shifted(a, b) || Shifted(b, a)
  {
    var x, y := DevPodResourceName(a.user, a.pod), DevPodResourceName(b.user, b.pod);
    NameParts(a);
    NameParts(b);
    if Shifted(a, b) { ShiftedSame(a, b); }
    if Shifted(b, a) { ShiftedSame(b, a); }
    if x == y {
      if |a.user| < |b.user| {
        SameShifted(a, b);
      } else if |b.user| < |a.user| {
        SameShifted(b, a);
      }
    }
  }

  lemma NameParts(l: Login)
    ensures var x := DevPodResourceName(l.user, l.pod);
      x[..|l.user|] == l.user && x[|l.user|] == '-' && x[|l.user| + 1..] == l.pod
  {
  }

  lemma ShiftedSame(a: Login, b: Login)
    requires Shifted(a, b)
    ensures DevPodResourceName(a.user, a.pod) == DevPodResourceName(b.user, b.pod)
  {
    var rest := b.user[|a.user| + 1..];
    assert b.user == a.user + "-" + rest;
    assert a.user + "-" + (rest + "-" + b.pod) == (a.user + "-" + rest) + "-" + b.pod;
  }

  lemma SameShifted(a: Login, b: Login)
    requires DevPodResourceName(a.user, a.pod) == DevPodResourceName(b.user, b.pod) && |a.user| < |b.user|
    ensures Shifted(a, b)
  {
    var x, n, m := DevPodResourceName(a.user, a.pod), |a.user|, |b.user|;
    NameParts(a);
    NameParts(b);
    assert b.user[..n] == x[..m][..n] == x[..n];
    assert b.user[n] == x[n];
    assert x[n + 1..] == x[n + 1..m] + ['-'] + x[m + 1..];
    assert b.user[n + 1..] == x[n + 1..m];
  }

  /** In that case the DevPod of the one login answers for the other, which is denied
      over it, whatever DevPod has the bare name. */
  lemma ShadowedLogin(a: Login, b: Login, key: Key, lookups: Reads, proxies: map<Key, string>, sources: seq<Source>)
    requires Shifted(a, b) || Shifted(b, a)
    requires Target(lookups, b) == Read(lookups, DevPodResourceName(b.user, b.pod)) && Target(lookups, b).Got?
    requires !Accessible(Target(lookups, b).dp, a.user)
    ensures Target(lookups, a) == Target(lookups, b)
    ensures Authenticated(Some(a), key, lookups, proxies, sources).Denied?
    ensures forall other: Reads :: other.Keys == lookups.Keys + {a.pod} && (forall n :: n in lookups && n != a.pod ==> other[n] == lookups[n]) ==>
      Authenticated(Some(a), key, other, proxies, sources) == Authenticated(Some(a), key, lookups, proxies, sources)
  {
    LoginsCollideIff(a, b);
    NamesDiffer(a);
    GrantIff(Target(lookups, b).dp, a, key, proxies, sources);
  }

  // ----- the loops of the source -----

  method MatchesAnyParsed(offered: Key, keys: seq<Key>) returns (found: bool)
    ensures found <==> offered in keys
  {
    for i := 0 to |keys|
      invariant offered !in keys[..i]
    {
      if keys[i] == offered { return true; }
    }
    return false;
  }

  method AccessAllowed(dp: DevPod, user: string) returns (ok: bool)
    ensures ok == Accessible(dp, user)
  {
    if dp.owner == user { return true; }
    for i := 0 to |dp.collaborators|
      invariant user !in dp.collaborators[..i]
    {
      if dp.collaborators[i] == user { return true; }
    }
    return false;
  }

  method Finalize(dp: DevPod, user: string, path: Path) returns (v: Verdict)
    ensures v == Finalized(dp, user, path)
  {
    var ok := AccessAllowed(dp, user);
    if !ok { return Denied(AccessDenied, path); }
    if dp.phase != Running || dp.endpoint == NoEndpoint { return Denied(NotReady, path); }
    return Granted(user, dp.name, dp.endpoint, path);
  }

  lemma NoError()
    ensures LastError([]) == ""
  {
  }

  lemma ErrorSnoc(sources: seq<Source>, i: nat)
    requires i < |sources|
    ensures var s := sources[i];
      LastError(sources[..i+1]) == if s.answer.Broken? then s.name + ": " + s.answer.error else LastError(sources[..i])
  {
    assert sources[..i+1][..i] == sources[..i];
  }

  /** proxies maps the fingerprints of trusted proxies (a key stands for its own) to
      their aliases. */
  method Authenticate(login: Option<Login>, key: Key, lookups: Reads, proxies: map<Key, string>, sources: seq<Source>)
    returns (v: Verdict)
    ensures v == Authenticated(login, key, lookups, proxies, sources)
    ensures v.Granted? <==>
      login.Some? && Target(lookups, login.value).Got? &&
      (key in proxies || exists i :: 0 <= i < |sources| && sources[i].answer.Knows? && key in sources[i].answer.keys) &&
      var dp := Target(lookups, login.value).dp;
      (dp.owner == login.value.user || login.value.user in dp.collaborators) && dp.phase == Running && dp.endpoint != NoEndpoint
    ensures login.Some? && Target(lookups, login.value).Got? && key !in proxies ==>
      && (v.Denied? && v.reason == UserNotFound <==> forall i :: 0 <= i < |sources| ==> !sources[i].answer.Knows?)
      && (v.Denied? && v.reason == PubkeyMismatch <==> Known(sources) && !Authorized(sources, key))
    ensures v.Granted? ==>
      v.user == login.value.user && v.devpod == Target(lookups, login.value).dp.name && v.endpoint == Target(lookups, login.value).dp.endpoint
  {
    AuthenticatedIff(login, key, lookups, proxies, sources);
    hide Authorized, Finalized, DevPodResourceName, LastError;
    NoError();
    var ap := NoPath;
    if login.None? { return Denied(LoginFormat, ap); }
    var user, pod := login.value.user, login.value.pod;
    ap := ap.(user := user, pod := pod);
    var got := Read(lookups, DevPodResourceName(user, pod));
    if got.Missing? { got := Read(lookups, pod); }
    if got.Missing? { return Denied(DevPodNotFound, ap); }
    if got.GetFailed? { return Denied(GetError, ap); }
    var dp := got.dp;
    if key in proxies {
      ap := ap.(kind := "trusted_proxy", alias := proxies[key]);
      v := Finalize(dp, user, ap);
      return;
    }
    ap := ap.(kind := "direct");
    var matched, anyKnown := false, false;
    var i := 0;
    while i < |sources|
      invariant 0 <= i <= |sources| && !matched
      invariant ap == Path(user, pod, "direct", "", "", false, LastError(sources[..i]))
      invariant forall j :: 0 <= j < i ==> !Matches(sources[j], key)
      invariant anyKnown <==> exists j :: 0 <= j < i && sources[j].answer.Knows?
    {
      var src := sources[i];
      ErrorSnoc(sources, i);
      i := i + 1;
      if src.answer.Unknown? { continue; }
      if src.answer.Broken? {
        ap := ap.(lastSourceErr := src.name + ": " + src.answer.error);
        continue;
      }
      anyKnown := true;
      var found := MatchesAnyParsed(key, src.answer.keys);
      if found {
        ap := ap.(source := src.name, stale := src.answer.stale);
        matched := true;
        assert FirstMatch(sources, key) == i - 1;
        break;
      }
    }
    if !matched {
      assert sources[..i] == sources;
      if anyKnown { return Denied(PubkeyMismatch, ap); }
      return Denied(UserNotFound, ap);
    }
    v := Finalize(dp, user, ap);
  }

  /** The whole decision, with the audit path of every outcome. */
  function Authenticated(login: Option<Login>, key: Key, lookups: Reads, proxies: map<Key, string>, sources: seq<Source>): Verdict {
    match login
    case None => Denied(LoginFormat, NoPath)
    case Some(l) =>
      var path := NoPath.(user := l.user, pod := l.pod);
      match Target(lookups, l)
      case Missing => Denied(DevPodNotFound, path)
      case GetFailed(_) => Denied(GetError, path)
      case Got(dp) => Decided(dp, l, key, proxies, sources)
  }

  function Decided(dp: DevPod, login: Login, key: Key, proxies: map<Key, string>, sources: seq<Source>): Verdict {
    var path := NoPath.(user := login.user, pod := login.pod);
    if key in proxies then Finalized(dp, login.user, path.(kind := "trusted_proxy", alias := proxies[key]))
    else
      var n, direct := FirstMatch(sources, key), path.(kind := "direct");
      if n < |sources| then
        Finalized(dp, login.user, direct.(source := sources[n].name, stale := sources[n].answer.stale,
                                          lastSourceErr := LastError(sources[..n])))
      else
        Denied(if Known(sources) then PubkeyMismatch else UserNotFound, direct.(lastSourceErr := LastError(sources)))
  }

  // ----- what the chain promises -----

  /** Who is granted what, and why others with a DevPod are not. */
  lemma AuthenticatedIff(login: Option<Login>, key: Key, lookups: Reads, proxies: map<Key, string>, sources: seq<Source>)
    ensures Authenticated(login, key, lookups, proxies, sources).Granted? <==>
      login.Some? && Target(lookups, login.value).Got? &&
      (key in proxies || exists i :: 0 <= i < |sources| && sources[i].answer.Knows? && key in sources[i].answer.keys) &&
      var dp := Target(lookups, login.value).dp;
      (dp.owner == login.value.user || login.value.user in dp.collaborators) && dp.phase == Running && dp.endpoint != NoEndpoint
    ensures login.Some? && Target(lookups, login.value).Got? && key !in proxies ==>
      var v := Authenticated(login, key, lookups, proxies, sources);
      && (v.Denied? && v.reason == UserNotFound <==> forall i :: 0 <= i < |sources| ==> !sources[i].answer.Knows?)
      && (v.Denied? && v.reason == PubkeyMismatch <==> Known(sources) && !Authorized(sources, key))
    ensures var v := Authenticated(login, key, lookups, proxies, sources);
      v.Granted? ==>
        v.user == login.value.user && v.devpod == Target(lookups, login.value).dp.name && v.endpoint == Target(lookups, login.value).dp.endpoint
  {
    hide FirstMatch, LastError;
    if login.Some? && Target(lookups, login.value).Got? {
      GrantIff(Target(lookups, login.value).dp, login.value, key, proxies, sources);
      DenialIff(Target(lookups, login.value).dp, login.value, key, proxies, sources);
    }
  }

  /** A login is granted exactly when a proxy vouches or some source lists the key,
      and then only to the owner or a collaborator of a Running DevPod with an endpoint. */
  lemma GrantIff(dp: DevPod, login: Login, key: Key, proxies: map<Key, string>, sources: seq<Source>)
    ensures Decided(dp, login, key, proxies, sources).Granted? <==>
      (key in proxies || Authorized(sources, key)) && Accessible(dp, login.user) && Ready(dp)
    ensures var v := Decided(dp, login, key, proxies, sources);
      v.Granted? ==> v.user == login.user && v.devpod == dp.name && v.endpoint == dp.endpoint && v.endpoint != NoEndpoint
  {
    if Authorized(sources, key) {
      var i :| 0 <= i < |sources| && Matches(sources[i], key);
      assert FirstMatch(sources, key) <= i;
    }
  }

  /** Which error, exactly. */
  lemma DenialIff(dp: DevPod, login: Login, key: Key, proxies: map<Key, string>, sources: seq<Source>)
    ensures var v := Decided(dp, login, key, proxies, sources);
      && (v.Denied? && v.reason == UserNotFound <==> key !in proxies && !Known(sources))
      && (v.Denied? && v.reason == PubkeyMismatch <==> key !in proxies && Known(sources) && !Authorized(sources, key))
      && (v.Denied? && v.reason == AccessDenied <==>
            (key in proxies || Authorized(sources, key)) && !Accessible(dp, login.user))
      && (v.Denied? && v.reason == NotReady <==>
            (key in proxies || Authorized(sources, key)) && Accessible(dp, login.user) && !Ready(dp))
  {
    GrantIff(dp, login, key, proxies, sources);
    var n := FirstMatch(sources, key);
    if n < |sources| {
      assert Matches(sources[n], key) && sources[n].answer.Knows?;
    }
  }

  /** A direct grant names the first source that lists the key. */
  lemma GrantAttribution(dp: DevPod, login: Login, key: Key, proxies: map<Key, string>, sources: seq<Source>)
    requires key !in proxies && Decided(dp, login, key, proxies, sources).Granted?
    ensures var path := Decided(dp, login, key, proxies, sources).path;
      exists n :: 0 <= n < |sources| && Matches(sources[n], key)
        && (forall i :: 0 <= i < n ==> !Matches(sources[i], key))
        && path.source == sources[n].name && path.stale == sources[n].answer.stale
        && path.lastSourceErr == LastError(sources[..n])
  {
    assert FirstMatch(sources, key) < |sources|;
  }

  predicate LastFailure(sources: seq<Source>, i: nat) {
    i < |sources| && sources[i].answer.Broken? && forall j :: i < j < |sources| ==> !sources[j].answer.Broken?
  }

  /** LastSourceErr is the error of the last failing source, and empty without one. */
  lemma {:induction false} LastErrorIs(sources: seq<Source>)
    ensures (forall i :: 0 <= i < |sources| ==> !sources[i].answer.Broken?) ==> LastError(sources) == ""
    ensures forall i: nat :: LastFailure(sources, i) ==> LastError(sources) == sources[i].name + ": " + sources[i].answer.error
  {
    if sources != [] {
      var front := sources[..|sources|-1];
      LastErrorIs(front);
      forall i: nat | LastFailure(sources, i)
        ensures LastError(sources) == sources[i].name + ": " + sources[i].answer.error
      {
        if i < |front| {
          assert front[i] == sources[i];
          assert LastFailure(front, i);
        }
      }
    }
  }

  /** Reordering the chain changes neither the verdict nor the reason of a denial. */
  lemma OrderNeverDecides(dp: DevPod, login: Login, key: Key, proxies: map<Key, string>, a: seq<Source>, b: seq<Source>)
    requires multiset(a) == multiset(b)
    ensures var v, w := Decided(dp, login, key, proxies, a), Decided(dp, login, key, proxies, b);
      v.Granted? == w.Granted? && (v.Denied? ==> v.reason == w.reason)
  {
    GrantIff(dp, login, key, proxies, a);
    GrantIff(dp, login, key, proxies, b);
    DenialIff(dp, login, key, proxies, a);
    DenialIff(dp, login, key, proxies, b);
    SameSources(a, b, key);
    SameSources(b, a, key);
  }

  lemma SameSources(a: seq<Source>, b: seq<Source>, key: Key)
    requires multiset(a) == multiset(b)
    ensures Authorized(a, key) ==> Authorized(b, key)
    ensures Known(a) ==> Known(b)
  {
    if Authorized(a, key) {
      var i :| 0 <= i < |a| && Matches(a[i], key);
      assert a[i] in multiset(b);
    }
    if Known(a) {
      var i :| 0 <= i < |a| && a[i].answer.Knows?;
      assert a[i] in multiset(b);
    }
  }

  // ----- with the LDAP source and the reconciler behind it -----

  function FromLdap(r: Ldap.Resolved): Answer {
    match r
    case Found(keys, stale) => Knows(keys, stale)
    case NotFound(_) => Unknown
    case LookupFailed(err) => Answer.Broken(err)
  }

  /** A direct grant attributed to the LDAP source rests on an answer the directory
      gave for that user that lists the key, within the staleness bound. */
  lemma LdapGrantIsBacked(dp: DevPod, login: Login, key: Key, proxies: map<Key, string>, sources: seq<Source>,
                          s: Ldap.System, k: nat, n: nat)
    requires key !in proxies && Decided(dp, login, key, proxies, sources).Granted? && n == FirstMatch(sources, key)
    requires Ldap.Reachable(s) && Ldap.WellFormed(s) && k < |s.calls| && Ldap.Done(s.calls[k].stage)
    requires s.calls[k].user == login.user
    requires n < |sources| ==> sources[n].answer == FromLdap(Ldap.ResultOf(s, k))
    ensures var r, reading := Ldap.ResultOf(s, k), LdapTheorems.Reading(s, k);
      r.Found? && key in r.keys &&
      exists a: nat, f: int :: LdapTheorems.Warrant(s, login.user, r, reading, a, f) &&
        s.answers[a].user == login.user && s.answers[a].keys == Some(r.keys)
  {
    hide LdapTheorems.Reading, Ldap.ResultOf;
    assert Matches(sources[n], key);
    LdapTheorems.BoundedStaleness(s, k);
    var r, reading := Ldap.ResultOf(s, k), LdapTheorems.Reading(s, k);
    assert LdapTheorems.Warranted(s, login.user, r, reading);
    var a: nat, f: int :| LdapTheorems.Warrant(s, login.user, r, reading, a, f);
  }

  /** Over any store the reconciler can reach, a granted login is sent to the address
      of a Pod that was seen running, on the BackendPort of the spec it was seen with. */
  lemma GrantLeadsToPod(c: Cluster, n: string, dp: DevPod, login: Login, key: Key, proxies: map<Key, string>, sources: seq<Source>)
    requires Reachable(c) && n in c.devpods
    requires dp.phase == c.devpods[n].status.phase && dp.endpoint == c.devpods[n].status.endpoint
    requires Decided(dp, login, key, proxies, sources).Granted?
    ensures var v, uid := Decided(dp, login, key, proxies, sources), c.devpods[n].uid;
      uid in c.evidence && var e := c.evidence[uid];
      && e.pod.Some? && e.pod.value.phase == PodRunning && e.pod.value.ip != "" && e.spec.running
      && v.endpoint == Endpoint(e.pod.value.ip, BackendPort(UidText(uid), e.spec, c.cfg))
  {
    hide Reachable, BackendPort;
    GrantIff(dp, login, key, proxies, sources);
    ControllerTheorems.RunningMeansReachable(c, n);
  }

  // ----- reads and proxies -----

  /** What the reads of the two names decide: the scoped name first, the bare one only when
      it is missing, an error of either read ends the login, and nothing else is consulted. */
  lemma ReadsDecide(login: Login, key: Key, lookups: Reads, proxies: map<Key, string>, sources: seq<Source>)
    ensures var v, scoped, bare := Authenticated(Some(login), key, lookups, proxies, sources),
                                   Read(lookups, login.user + "-" + login.pod), Read(lookups, login.pod);
      && (v.Denied? && v.reason == DevPodNotFound <==> scoped == Missing && bare == Missing)
      && (v.Denied? && v.reason == GetError <==> scoped.GetFailed? || (scoped == Missing && bare.GetFailed?))
      && (v.Denied? && (v.reason == DevPodNotFound || v.reason == GetError) ==> v.path == NoPath.(user := login.user, pod := login.pod))
      && (scoped.Got? ==> v == Decided(scoped.dp, login, key, proxies, sources))
      && (scoped == Missing && bare.Got? ==> v == Decided(bare.dp, login, key, proxies, sources))
      && Authenticated(None, key, lookups, proxies, sources) == Denied(LoginFormat, NoPath)
  {
    hide FirstMatch, LastError, Known;
  }

  /** The audit path: a trusted proxy's key is named by its alias and no source is asked;
      any other login is direct, without an alias. */
  lemma PathExact(dp: DevPod, login: Login, key: Key, proxies: map<Key, string>, sources: seq<Source>)
    ensures var path := Decided(dp, login, key, proxies, sources).path;
      && path.user == login.user && path.pod == login.pod
      && (key in proxies ==> path == Path(login.user, login.pod, "trusted_proxy", proxies[key], "", false, ""))
      && (key !in proxies ==> path.kind == "direct" && path.alias == "")
      && (key !in proxies && !Authorized(sources, key) ==>
            path == Path(login.user, login.pod, "direct", "", "", false, LastError(sources)))
  {
    if !Authorized(sources, key) { assert FirstMatch(sources, key) == |sources|; }
  }
}
