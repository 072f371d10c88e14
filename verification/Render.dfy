/**
 Rendering a DevPod into a Pod (internal/render/pod.go, internal/render/render.go).
 Volumes are kept by name and the passthrough fields nobody reads are left out.
 */
module Render {
  import opened Wrappers

  datatype EnvVar = EnvVar(name: string, value: string)

  datatype Mount = Mount(name: string, path: string, readOnly: bool)

  datatype Container = Container(
    name: string,
    image: string,
    command: seq<string>,
    args: seq<string>,
    env: seq<EnvVar>,
    mounts: seq<Mount>)

  datatype PodSpec = PodSpec(
    containers: seq<Container>,
    initContainers: seq<Container>,
    volumes: seq<string>,
    hostNetwork: bool)

  datatype Persistence = Persistence(size: nat, mountPath: string, target: string)

  datatype Spec = Spec(
    owner: string,
    running: bool,
    persistence: Option<Persistence>,
    exitOnUserCommandExit: bool,
    shell: string,
    pod: Option<PodSpec>,
    vm: bool)

  datatype HomeDir = HomeDir(hostPathPrefix: string, mountPrefix: string)

  datatype Config = Config(
    backendPort: int,
    isolateNetwork: bool,
    homeDir: Option<HomeDir>,
    supervisorImage: string)

  const PortVar := "SUPERVISOR_SSHD_PORT"
  const ExitVar := "SUPERVISOR_EXIT_ON_USER_CMD"
  const ShellVar := "DEVPOD_SHELL"
  const SupervisorPath := "/opt/devpod/devpod-supervisor"

  // ----- names -----

  function HostKeySecretName(name: string): string { name + "-hostkey" }
  function HomePVCName(name: string): string { name + "-home" }
  function OwnerNetPolName(owner: string): string { "devpod-allow-" + owner }

  /** Derived names never collide: distinct DevPods, or owners, get distinct objects. */
  lemma NamesInjective(a: string, b: string)
    ensures HostKeySecretName(a) == HostKeySecretName(b) ==> a == b
    ensures HomePVCName(a) == HomePVCName(b) ==> a == b
    ensures OwnerNetPolName(a) == OwnerNetPolName(b) ==> a == b
  {
    assert HostKeySecretName(a)[..|a|] == a && HostKeySecretName(b)[..|b|] == b;
    assert HomePVCName(a)[..|a|] == a && HomePVCName(b)[..|b|] == b;
    assert OwnerNetPolName(a)[|"devpod-allow-"|..] == a && OwnerNetPolName(b)[|"devpod-allow-"|..] == b;
  }

  // ----- the backend port -----

  /** 32-bit FNV-1a over the bytes of s. */
  function Fnv32a(s: string): bv32 {
    if s == [] then 2166136261
    else (Fnv32a(s[..|s|-1]) ^ ((s[|s|-1] as int % 256) as bv32)) * 16777619
  }

  function BackendPort(uid: string, spec: Spec, cfg: Config): int {
    var def := if cfg.backendPort == 0 then 2222 else cfg.backendPort;
    if spec.pod.None? || !spec.pod.value.hostNetwork then def
    else if uid == "" then def
    else 65000 + Fnv32a(uid) as int % 500
  }

  /** On the host network a DevPod with a UID listens in [65000, 65500), so it
      depends on the UID alone; elsewhere it takes the configured port. */
  lemma BackendPortRange(uid: string, spec: Spec, spec': Spec, cfg: Config, cfg': Config)
    requires spec.pod.Some? && spec'.pod.Some?
    ensures spec.pod.value.hostNetwork && uid != "" ==> 65000 <= BackendPort(uid, spec, cfg) < 65500
    ensures spec.pod.value.hostNetwork && uid != "" ==> BackendPort(uid, spec, cfg) == 65000 + Fnv32a(uid) as int % 500
    ensures spec.pod.value.hostNetwork && spec'.pod.value.hostNetwork && uid != "" ==>
              BackendPort(uid, spec, cfg) == BackendPort(uid, spec', cfg')
    ensures !spec.pod.value.hostNetwork || uid == "" ==>
      BackendPort(uid, spec, cfg) == if cfg.backendPort == 0 then 2222 else cfg.backendPort
  {
    hide Fnv32a;
  }

  function Itoa(n: int): string
    decreases if n < 0 then 1 else 0, if n < 0 then -n else n
  {
    if n < 0 then "-" + Itoa(-n)
    else if n < 10 then ["0123456789"[n]]
    else Itoa(n / 10) + ["0123456789"[n % 10]]
  }

  lemma {:induction false} ItoaDigits(n: int)
    requires n >= 0
    ensures Itoa(n) != [] && '0' <= Itoa(n)[0] <= '9'
    decreases n
  {
    if n >= 10 { ItoaDigits(n / 10); }
  }

  /** Different numbers are written differently. */
  lemma ItoaInjective(a: int, b: int)
    ensures Itoa(a) == Itoa(b) ==> a == b
  {
    hide Itoa;
    if a < 0 { ItoaMinus(a); }
    if b < 0 { ItoaMinus(b); }
    if a < 0 && b < 0 {
      ItoaSame(-a, -b);
    } else if a < 0 {
      ItoaDigits(b);
    } else if b < 0 {
      ItoaDigits(a);
    } else {
      ItoaSame(a, b);
    }
  }

  lemma ItoaMinus(n: int)
    requires n < 0
    ensures Itoa(n) != [] && Itoa(n)[0] == '-' && Itoa(n)[1..] == Itoa(-n)
  {
  }

  lemma ItoaLast(n: nat)
    requires n >= 10
    ensures |Itoa(n)| >= 2 && Itoa(n)[..|Itoa(n)|-1] == Itoa(n / 10) && Itoa(n)[|Itoa(n)|-1] == "0123456789"[n % 10]
  {
    ItoaDigits(n / 10);
  }

  lemma ItoaOne(n: nat)
    requires n < 10
    ensures |Itoa(n)| == 1 && Itoa(n)[0] == "0123456789"[n]
  {
  }

  lemma {:induction false} ItoaSame(a: nat, b: nat)
    ensures Itoa(a) == Itoa(b) ==> a == b
    decreases a
  {
    hide Itoa;
    if a >= 10 { ItoaLast(a); } else { ItoaOne(a); }
    if b >= 10 { ItoaLast(b); } else { ItoaOne(b); }
    if Itoa(a) == Itoa(b) {
      if a >= 10 && b >= 10 {
        ItoaSame(a / 10, b / 10);
        DigitSame(a % 10, b % 10);
      } else if a < 10 && b < 10 {
        DigitSame(a, b);
      }
    }
  }

  lemma DigitSame(a: nat, b: nat)
    requires a < 10 && b < 10 && "0123456789"[a] == "0123456789"[b]
    ensures a == b
  {
    DigitValue(a);
    DigitValue(b);
  }

  lemma DigitValue(a: nat)
    requires a < 10
    ensures "0123456789"[a] as int == '0' as int + a
  {
    if a == 0 {} else if a == 1 {} else if a == 2 {} else if a == 3 {} else if a == 4 {}
    else if a == 5 {} else if a == 6 {} else if a == 7 {} else if a == 8 {} else { assert a == 9; }
  }

  // ----- the Pod -----

  /** The container the home volume and the supervisor go to. */
  function TargetName(spec: Spec, cs: seq<Container>): string
    requires cs != []
  {
    if spec.persistence.Some? && spec.persistence.value.target != "" then spec.persistence.value.target
    else cs[0].name
  }

  /** Index of the first container called name. */
  function IndexOf(cs: seq<Container>, name: string): (r: Option<nat>)
    ensures r.Some? ==> r.value < |cs| && cs[r.value].name == name
    ensures r.Some? ==> forall i :: 0 <= i < r.value ==> cs[i].name != name
    ensures r.None? ==> forall i :: 0 <= i < |cs| ==> cs[i].name != name
  {
    FirstIndex(cs, (c: Container) => c.name == name)
  }

  function Wrapped(c: Container, uid: string, spec: Spec, cfg: Config): Container {
    c.(command := [SupervisorPath],
       args := c.command + c.args,
       mounts := c.mounts + [Mount("devpod-bin", "/opt/devpod", true), Mount("devpod-host", "/etc/devpod", true)],
       env := c.env + [EnvVar(PortVar, Itoa(BackendPort(uid, spec, cfg)))]
            + (if spec.exitOnUserCommandExit then [EnvVar(ExitVar, "true")] else [])
            + (if spec.shell != "" then [EnvVar(ShellVar, spec.shell)] else []))
  }

  /** Turns the target container's command over to the supervisor, in place. */
  method WrapTargetWithSupervisor(cs: array<Container>, uid: string, spec: Spec, cfg: Config) returns (ok: bool)
    requires cs.Length > 0
    modifies cs
    ensures var at := IndexOf(old(cs[..]), TargetName(spec, old(cs[..])));
            ok == at.Some? &&
            cs[..] == if ok then old(cs[..])[at.value := Wrapped(old(cs[..])[at.value], uid, spec, cfg)] else old(cs[..])
  {
    var targetName := cs[0].name;
    if spec.persistence.Some? && spec.persistence.value.target != "" {
      targetName := spec.persistence.value.target;
    }
    ghost var was := cs[..];
    for i := 0 to cs.Length
      invariant cs[..] == was
      invariant forall j :: 0 <= j < i ==> was[j].name != targetName
    {
      if cs[i].name == targetName {
        cs[i] := Wrapped(cs[i], uid, spec, cfg);
        assert cs[..] == was[i := cs[i]];
        return true;
      }
    }
    return false;
  }

  /** Adds the home mount to the target container, in place. */
  method InjectHomeMount(cs: array<Container>, spec: Spec) returns (ok: bool)
    requires cs.Length > 0 && spec.persistence.Some?
    modifies cs
    ensures var at := IndexOf(old(cs[..]), TargetName(spec, old(cs[..])));
            ok == at.Some? &&
            cs[..] == if ok then old(cs[..])[at.value := WithHome(old(cs[..])[at.value], spec)] else old(cs[..])
  {
    var targetName := spec.persistence.value.target;
    if targetName == "" {
      targetName := cs[0].name;
    }
    ghost var was := cs[..];
    for i := 0 to cs.Length
      invariant cs[..] == was
      invariant forall j :: 0 <= j < i ==> was[j].name != targetName
    {
      if cs[i].name == targetName {
        cs[i] := WithHome(cs[i], spec);
        assert cs[..] == was[i := cs[i]];
        return true;
      }
    }
    return false;
  }

  function WithHome(c: Container, spec: Spec): Container
    requires spec.persistence.Some?
  {
    c.(mounts := c.mounts + [Mount("devpod-home", spec.persistence.value.mountPath, false)])
  }

  function WithHostPathHome(c: Container, spec: Spec, home: HomeDir): Container {
    var path := if home.mountPrefix == "" then "/home/" + spec.owner else home.mountPrefix + "/" + spec.owner;
    c.(mounts := c.mounts + [Mount("devpod-host-home", path, false)], env := c.env + [EnvVar("HOME", path)])
  }

  function Bootstrap(image: string): Container {
    Container("devpod-bootstrap", image, [SupervisorPath, "bootstrap"], [],
              [EnvVar("SUPERVISOR_BOOTSTRAP_SRC", "/opt/devpod"), EnvVar("SUPERVISOR_BOOTSTRAP_DST", "/devpod-bin")],
              [Mount("devpod-bin", "/devpod-bin", false)])
  }

  datatype RenderError = WorkloadKindMissing | NoContainers | TargetMissing(name: string)

  /** The containers before the supervisor takes over. */
  function Prepared(spec: Spec, cfg: Config): Result<PodSpec, RenderError>
    requires spec.pod.Some? && spec.pod.value.containers != []
  {
    var user := spec.pod.value;
    var shared := user.(volumes := user.volumes + ["devpod-bin", "devpod-host"]);
    if spec.persistence.Some? then
      match IndexOf(user.containers, TargetName(spec, user.containers))
      case None => Err(TargetMissing(TargetName(spec, user.containers)))
      case Some(i) =>
        Ok(shared.(volumes := shared.volumes + ["devpod-home"],
                   containers := user.containers[i := WithHome(user.containers[i], spec)]))
    else if cfg.homeDir.Some? then
      Ok(shared.(volumes := shared.volumes + ["devpod-host-home"],
                 containers := user.containers[0 := WithHostPathHome(user.containers[0], spec, cfg.homeDir.value)]))
    else Ok(shared)
  }

  function RenderPod(uid: string, spec: Spec, cfg: Config): (r: Result<PodSpec, RenderError>)
    ensures r.Ok? ==> spec.pod.Some? && |r.value.containers| == |spec.pod.value.containers| > 0
  {
    if spec.pod.None? then Err(WorkloadKindMissing)
    else if spec.pod.value.containers == [] then Err(NoContainers)
    else
      match Prepared(spec, cfg)
      case Err(e) => Err(e)
      case Ok(user) =>
        match IndexOf(user.containers, TargetName(spec, user.containers))
        case None => Err(TargetMissing(TargetName(spec, user.containers)))
        case Some(i) =>
          Ok(user.(containers := user.containers[i := Wrapped(user.containers[i], uid, spec, cfg)],
                   initContainers := [Bootstrap(cfg.supervisorImage)] + user.initContainers))
  }

  /** What a container sees of its environment: the last entry of a name wins. */
  function Getenv(env: seq<EnvVar>, name: string): Option<string> {
    if env == [] then None
    else if env[|env|-1].name == name then Some(env[|env|-1].value)
    else Getenv(env[..|env|-1], name)
  }

  lemma GetenvSnoc(env: seq<EnvVar>, e: EnvVar, name: string)
    ensures Getenv(env + [e], name) == if e.name == name then Some(e.value) else Getenv(env, name)
  {
    assert (env + [e])[..|env|] == env;
  }

  lemma WrappedEnv(c: Container, uid: string, spec: Spec, cfg: Config)
    ensures Getenv(Wrapped(c, uid, spec, cfg).env, PortVar) == Some(Itoa(BackendPort(uid, spec, cfg)))
  {
    var e1 := c.env + [EnvVar(PortVar, Itoa(BackendPort(uid, spec, cfg)))];
    GetenvSnoc(c.env, EnvVar(PortVar, Itoa(BackendPort(uid, spec, cfg))), PortVar);
    var e2 := e1 + (if spec.exitOnUserCommandExit then [EnvVar(ExitVar, "true")] else []);
    if spec.exitOnUserCommandExit {
      GetenvSnoc(e1, EnvVar(ExitVar, "true"), PortVar);
      assert ExitVar[11] != PortVar[11];
    } else {
      assert e2 == e1;
    }
    if spec.shell != "" {
      GetenvSnoc(e2, EnvVar(ShellVar, spec.shell), PortVar);
      assert ShellVar[0] != PortVar[0];
    } else {
      assert e2 + [] == e2;
    }
  }

  /** The port the supervisor of a rendered Pod is told to listen on. */
  function SupervisorPort(rendered: PodSpec, spec: Spec): Option<string> {
    if rendered.containers == [] then None
    else match IndexOf(rendered.containers, TargetName(spec, rendered.containers))
      case None => None
      case Some(i) => Getenv(rendered.containers[i].env, PortVar)
  }

  lemma IndexOfUpdate(cs: seq<Container>, i: nat, c: Container, name: string)
    requires i < |cs| && c.name == cs[i].name
    ensures IndexOf(cs[i := c], name) == IndexOf(cs, name)
  {
    var a, b := IndexOf(cs[i := c], name), IndexOf(cs, name);
    assert forall j :: 0 <= j < |cs| ==> cs[i := c][j].name == cs[j].name;
    if a.Some? && b.Some? {
      assert cs[i := c][b.value].name == name && cs[a.value].name == name;
    }
  }

  lemma PreparedNames(spec: Spec, cfg: Config)
    requires spec.pod.Some? && spec.pod.value.containers != [] && Prepared(spec, cfg).Ok?
    ensures var cs := Prepared(spec, cfg).value.containers;
            |cs| == |spec.pod.value.containers| && TargetName(spec, cs) == TargetName(spec, spec.pod.value.containers)
    ensures IndexOf(Prepared(spec, cfg).value.containers, TargetName(spec, spec.pod.value.containers)) ==
            IndexOf(spec.pod.value.containers, TargetName(spec, spec.pod.value.containers))
  {
    var cs := spec.pod.value.containers;
    var name := TargetName(spec, cs);
    if spec.persistence.Some? {
      var i := IndexOf(cs, name).value;
      IndexOfUpdate(cs, i, WithHome(cs[i], spec), name);
    } else if cfg.homeDir.Some? {
      IndexOfUpdate(cs, 0, WithHostPathHome(cs[0], spec, cfg.homeDir.value), name);
    }
  }

  /** Whatever the user put in the pod, the rendered target runs the supervisor on
      the user's command and listens on BackendPort; the other containers keep
      their command, arguments, image and name. */
  lemma RenderedPodServesPort(uid: string, spec: Spec, cfg: Config)
    requires RenderPod(uid, spec, cfg).Ok?
    ensures var p := RenderPod(uid, spec, cfg).value;
      var cs := spec.pod.value.containers;
      var at := IndexOf(cs, TargetName(spec, cs));
      && at.Some?
      && SupervisorPort(p, spec) == Some(Itoa(BackendPort(uid, spec, cfg)))
      && p.containers[at.value].command == [SupervisorPath]
      && p.containers[at.value].args == cs[at.value].command + cs[at.value].args
      && forall j :: 0 <= j < |cs| ==>
           p.containers[j].name == cs[j].name && p.containers[j].image == cs[j].image &&
           (j != at.value ==> p.containers[j].command == cs[j].command && p.containers[j].args == cs[j].args)
  {
    PreparedNames(spec, cfg);
    var cs := spec.pod.value.containers;
    var user := Prepared(spec, cfg).value;
    var i := IndexOf(user.containers, TargetName(spec, user.containers)).value;
    var w := Wrapped(user.containers[i], uid, spec, cfg);
    IndexOfUpdate(user.containers, i, w, TargetName(spec, user.containers));
    WrappedEnv(user.containers[i], uid, spec, cfg);
  }

  /** A Pod renders exactly when there is a container to put the supervisor in. */
  lemma RenderOkIff(uid: string, spec: Spec, cfg: Config)
    ensures RenderPod(uid, spec, cfg).Ok? <==>
      spec.pod.Some? && spec.pod.value.containers != [] &&
      exists i :: 0 <= i < |spec.pod.value.containers| &&
        spec.pod.value.containers[i].name == TargetName(spec, spec.pod.value.containers)
  {
    if spec.pod.Some? && spec.pod.value.containers != [] && Prepared(spec, cfg).Ok? {
      PreparedNames(spec, cfg);
    }
  }

  // ----- the rendered Pod, field by field -----

  /** The home volume is mounted writable at its path in the target container, and in no
      other one; the user's own volumes and mounts stay. */
  lemma RenderedHome(uid: string, spec: Spec, cfg: Config)
    requires RenderPod(uid, spec, cfg).Ok? && spec.persistence.Some?
    ensures var p, cs := RenderPod(uid, spec, cfg).value, spec.pod.value.containers;
      var at := IndexOf(cs, TargetName(spec, cs));
      && at.Some?
      && p.containers[at.value].mounts == cs[at.value].mounts +
           [Mount("devpod-home", spec.persistence.value.mountPath, false), Mount("devpod-bin", "/opt/devpod", true),
            Mount("devpod-host", "/etc/devpod", true)]
      && (forall j :: 0 <= j < |cs| && j != at.value ==> p.containers[j] == cs[j])
      && p.volumes == spec.pod.value.volumes + ["devpod-bin", "devpod-host", "devpod-home"]
  {
    PreparedNames(spec, cfg);
  }

  /** Without persistence a configured host path becomes the home of the first container,
      under the owner's name; without that one either, there is no home. */
  lemma RenderedHostHome(uid: string, spec: Spec, cfg: Config)
    requires RenderPod(uid, spec, cfg).Ok? && spec.persistence.None?
    ensures var p, cs := RenderPod(uid, spec, cfg).value, spec.pod.value.containers;
      var path := if cfg.homeDir.Some? && cfg.homeDir.value.mountPrefix != "" then cfg.homeDir.value.mountPrefix + "/" + spec.owner
                  else "/home/" + spec.owner;
      && p.containers[0].mounts == cs[0].mounts +
           (if cfg.homeDir.Some? then [Mount("devpod-host-home", path, false)] else []) +
           [Mount("devpod-bin", "/opt/devpod", true), Mount("devpod-host", "/etc/devpod", true)]
      && Getenv(p.containers[0].env, "HOME") ==
           (if cfg.homeDir.Some? then Some(path) else Getenv(cs[0].env, "HOME"))
      && (forall j :: 1 <= j < |cs| ==> p.containers[j] == cs[j])
      && p.volumes == spec.pod.value.volumes + ["devpod-bin", "devpod-host"] + (if cfg.homeDir.Some? then ["devpod-host-home"] else [])
  {
    var cs := spec.pod.value.containers;
    var user := Prepared(spec, cfg).value;
    PreparedNames(spec, cfg);
    assert IndexOf(user.containers, TargetName(spec, user.containers)) == Some(0);
    assert cs[0].mounts + [] == cs[0].mounts;
    WrappedOther(user.containers[0], uid, spec, cfg, "HOME");
    if cfg.homeDir.Some? {
      var h := cfg.homeDir.value;
      GetenvSnoc(cs[0].env, EnvVar("HOME", if h.mountPrefix == "" then "/home/" + spec.owner else h.mountPrefix + "/" + spec.owner), "HOME");
    } else {
      assert spec.pod.value.volumes + ["devpod-bin", "devpod-host"] + [] == spec.pod.value.volumes + ["devpod-bin", "devpod-host"];
    }
  }

  /** The supervisor's variables hide the user's of the same name and no others. */
  lemma WrappedOther(c: Container, uid: string, spec: Spec, cfg: Config, name: string)
    ensures Getenv(Wrapped(c, uid, spec, cfg).env, name) ==
      if name == "DEVPOD_SHELL" && spec.shell != "" then Some(spec.shell)
      else if name == "SUPERVISOR_EXIT_ON_USER_CMD" && spec.exitOnUserCommandExit then Some("true")
      else if name == "SUPERVISOR_SSHD_PORT" then Some(Itoa(BackendPort(uid, spec, cfg)))
      else Getenv(c.env, name)
  {
    hide BackendPort, Itoa, Getenv;
    var port := EnvVar(PortVar, Itoa(BackendPort(uid, spec, cfg)));
    var e1 := c.env + [port];
    GetenvSnoc(c.env, port, name);
    var e2 := e1 + (if spec.exitOnUserCommandExit then [EnvVar(ExitVar, "true")] else []);
    if spec.exitOnUserCommandExit { GetenvSnoc(e1, EnvVar(ExitVar, "true"), name); } else { assert e2 == e1; }
    if spec.shell != "" { GetenvSnoc(e2, EnvVar(ShellVar, spec.shell), name); } else { assert e2 + [] == e2; }
    VariablesDiffer();
  }

  lemma VariablesDiffer()
    ensures PortVar == "SUPERVISOR_SSHD_PORT" && ExitVar == "SUPERVISOR_EXIT_ON_USER_CMD" && ShellVar == "DEVPOD_SHELL"
    ensures PortVar != ExitVar && PortVar != ShellVar && ExitVar != ShellVar
  {
    assert ExitVar[11] != PortVar[11] && ShellVar[0] != PortVar[0] && ShellVar[0] != ExitVar[0];
  }

  /** In front of the user's init containers the configured image brings the supervisor. */
  lemma RenderedBootstrap(uid: string, spec: Spec, cfg: Config)
    requires RenderPod(uid, spec, cfg).Ok?
    ensures var p := RenderPod(uid, spec, cfg).value;
      && |p.initContainers| == |spec.pod.value.initContainers| + 1 && p.initContainers[1..] == spec.pod.value.initContainers
      && p.initContainers[0].image == cfg.supervisorImage
      && p.initContainers[0].command == ["/opt/devpod/devpod-supervisor", "bootstrap"]
      && p.initContainers[0].mounts == [Mount("devpod-bin", "/devpod-bin", false)]
      && p.hostNetwork == spec.pod.value.hostNetwork
  {
  }

  /** Known values of the hash: the offset basis and that of a single character. */
  lemma Fnv32aKnown()
    ensures Fnv32a("") == 0x811c9dc5 && Fnv32a("a") == 0xe40c292c
  {
    assert "a"[..0] == "";
  }
}
