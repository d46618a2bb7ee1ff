// The declaration of one container: its defaults, its validation, the documents it is
// stored and hashed as (internal/spec/spec.go).
module Specs {
  import opened Basics

  type Uint16 = n: nat | n < 0x1_0000

  datatype Policy = PolicyUnset | PolicyNo | PolicyOnFailure | PolicyAlways | PolicyOther(text: string)
  datatype Ready = ReadyUnset | ReadyRunning | ReadyHealthy | ReadyOther(text: string)

  datatype Port = Port(host: Uint16, container: Uint16, protocol: string)
  datatype Volume = Volume(host: string, container: string, readOnly: bool, make: bool)
  datatype Device = Device(host: string, container: string, permissions: string)
  datatype Limits = Limits(pids: int, memory: string, cpu: string)
  datatype Restart = Restart(policy: Policy, maxRestarts: int)
  datatype Health = Health(command: List<string>, interval: int, timeout: int, retries: int, startPeriod: int)
  datatype Dependency = Dependency(name: string, ready: Ready)

  datatype Spec = Spec(
    name: string, project: string, service: string, image: string,
    entrypoint: List<string>, user: string, workingDir: string, command: List<string>,
    environment: Option<map<string, string>>,
    publish: List<Port>, volumes: List<Volume>,
    network: string, aliases: List<string>, networkMode: string,
    capAdd: List<string>, capDrop: List<string>,
    devices: List<Device>, cgroupRules: List<string>,
    limits: Limits, restart: Restart, health: Option<Health>, dependsOn: List<Dependency>)

  const START_RETRIES := 3
  const START_SECONDS := 1
  const BACKOFF_SECONDS := 1
  const BACKOFF_MAX_SECONDS := 60

  const HEALTH_INTERVAL := 30
  const HEALTH_TIMEOUT := 10
  const HEALTH_RETRIES := 3

  function Env(e: Option<map<string, string>>): map<string, string> {
    match e
    case None => map[]
    case Some(m) => m
  }

  // ---- defaults ----

  function NormalPort(p: Port): Port {
    if p.protocol == "" then p.(protocol := "tcp") else p
  }

  function NormalPorts(ps: seq<Port>): seq<Port> {
    if ps == [] then [] else [NormalPort(ps[0])] + NormalPorts(ps[1..])
  }

  function NormalDependency(d: Dependency): Dependency {
    if d.ready == ReadyUnset then d.(ready := ReadyRunning) else d
  }

  function NormalDependencies(ds: seq<Dependency>): seq<Dependency> {
    if ds == [] then [] else [NormalDependency(ds[0])] + NormalDependencies(ds[1..])
  }

  function Default(n: int, d: int): int { if n == 0 then d else n }

  function NormalHealth(h: Health): Health {
    h.(interval := Default(h.interval, HEALTH_INTERVAL), timeout := Default(h.timeout, HEALTH_TIMEOUT),
       retries := Default(h.retries, HEALTH_RETRIES))
  }

  function NormalHealths(h: Option<Health>): Option<Health> {
    match h
    case None => None
    case Some(v) => Some(NormalHealth(v))
  }

  function NormalRestart(r: Restart): Restart {
    if r.policy == PolicyUnset then r.(policy := PolicyNo) else r
  }

  function Normalized(s: Spec): Spec {
    s.(restart := NormalRestart(s.restart),
       publish := Items(NormalPorts(Elems(s.publish))),
       health := NormalHealths(s.health),
       dependsOn := Items(NormalDependencies(Elems(s.dependsOn))))
  }

  // The loops that fill the new slices.
  method FillPorts(ps: seq<Port>) returns (publish: seq<Port>)
    ensures publish == NormalPorts(ps)
  {
    publish := [];
    for i := 0 to |ps|
      invariant NormalPorts(ps) == publish + NormalPorts(ps[i..])
    {
      publish := publish + [if ps[i].protocol == "" then ps[i].(protocol := "tcp") else ps[i]];
    }
  }

  method FillDependencies(ds: seq<Dependency>) returns (deps: seq<Dependency>)
    ensures deps == NormalDependencies(ds)
  {
    deps := [];
    for i := 0 to |ds|
      invariant NormalDependencies(ds) == deps + NormalDependencies(ds[i..])
    {
      deps := deps + [if ds[i].ready == ReadyUnset then ds[i].(ready := ReadyRunning) else ds[i]];
    }
  }

  method Normalize(s: Spec) returns (n: Spec)
    ensures n == Normalized(s)
  {
    n := s;
    if n.restart.policy == PolicyUnset {
      n := n.(restart := n.restart.(policy := PolicyNo));
    }
    var publish := FillPorts(Elems(s.publish));
    n := n.(publish := Items(publish));
    if n.health.Some? {
      var h := n.health.value;
      if h.interval == 0 { h := h.(interval := HEALTH_INTERVAL); }
      if h.timeout == 0 { h := h.(timeout := HEALTH_TIMEOUT); }
      if h.retries == 0 { h := h.(retries := HEALTH_RETRIES); }
      n := n.(health := Some(h));
    }
    var deps := FillDependencies(Elems(s.dependsOn));
    n := n.(dependsOn := Items(deps));
  }

  lemma {:induction false} PortsIdempotent(ps: seq<Port>)
    ensures NormalPorts(NormalPorts(ps)) == NormalPorts(ps)
  {
    if ps != [] { PortsIdempotent(ps[1..]); }
  }

  lemma {:induction false} DependenciesIdempotent(ds: seq<Dependency>)
    ensures NormalDependencies(NormalDependencies(ds)) == NormalDependencies(ds)
  {
    if ds != [] { DependenciesIdempotent(ds[1..]); }
  }

  // Defaults are filled in once: doing it again changes nothing, and neither the verdict
  // nor the hash sees whether it was done.
  lemma NormalizedIdempotent(s: Spec)
    ensures Normalized(Normalized(s)) == Normalized(s)
    ensures Verdict(Normalized(s)) == Verdict(s)
    ensures Digest(Normalized(s)) == Digest(s)
  {
    PortsIdempotent(Elems(s.publish));
    DependenciesIdempotent(Elems(s.dependsOn));
  }

  // ---- validation ----

  datatype Rule = NameRule | ImageRule | CommandRule | EntrypointRule | UserRule | WorkingDirRule | ProjectRule
                | NetworkRule | PublishRule | CapabilitiesRule | EnvironmentRule | VolumeRule | DevicesRule | LimitsRule
                | RestartRule | HealthRule | DependsOnRule

  predicate Lower(c: char) { 'a' <= c <= 'z' }
  predicate Digit(c: char) { '0' <= c <= '9' }
  predicate NameChar(c: char) { Lower(c) || Digit(c) || c == '_' || c == '.' || c == '-' }

  predicate ValidName(s: string) {
    1 <= |s| <= 63 && (Lower(s[0]) || Digit(s[0])) && forall i :: 0 <= i < |s| ==> NameChar(s[i])
  }

  predicate KeyStart(c: char) { 'A' <= c <= 'Z' || Lower(c) || c == '_' }

  predicate ValidKey(s: string) {
    s != [] && KeyStart(s[0]) && forall i :: 0 <= i < |s| ==> KeyStart(s[i]) || Digit(s[i])
  }

  predicate ValidMemory(s: string) {
    |s| >= 2 && '1' <= s[0] <= '9' && s[|s| - 1] in "kmg" && forall i :: 0 <= i < |s| - 1 ==> Digit(s[i])
  }

  // The parts of s between its separators: one more than there are separators.
  function Split(s: string, sep: char): (parts: seq<string>)
    ensures |parts| >= 1
  {
    if s == [] then [""]
    else
      var rest := Split(s[1..], sep);
      if s[0] == sep then [""] + rest else [[s[0]] + rest[0]] + rest[1..]
  }

  // One or more decimal digits.
  predicate Digits(s: string) {
    s != "" && forall i :: 0 <= i < |s| ==> Digit(s[i])
  }

  predicate UserChar(c: char) { KeyStart(c) || Digit(c) }

  // A user or a group, by name or number.
  predicate Account(s: string) {
    1 <= |s| <= 32 && UserChar(s[0]) && forall i :: 0 <= i < |s| ==> UserChar(s[i]) || s[i] == '.' || s[i] == '-'
  }

  // A user, or a user and a group with a colon between.
  predicate UserOk(s: string) {
    var parts := Split(s, ':');
    s == "" || (|parts| <= 2 && forall p :: p in parts ==> Account(p))
  }

  // A decimal number of CPUs, with at most three digits after the point, that is not zero.
  predicate CpuOk(s: string) {
    var parts := Split(s, '.');
    s == "" ||
    (|parts| <= 2 && (forall p :: p in parts ==> Digits(p)) && (|parts| == 2 ==> |parts[1]| <= 3)
     && exists i :: 0 <= i < |s| && s[i] != '0' && s[i] != '.')
  }

  const ALL_CAPABILITIES := "ALL"

  const CAPABILITIES := [
    "CAP_CHOWN", "CAP_DAC_OVERRIDE", "CAP_DAC_READ_SEARCH", "CAP_FOWNER", "CAP_FSETID", "CAP_KILL", "CAP_SETGID",
    "CAP_SETUID", "CAP_SETPCAP", "CAP_LINUX_IMMUTABLE", "CAP_NET_BIND_SERVICE", "CAP_NET_BROADCAST", "CAP_NET_ADMIN",
    "CAP_NET_RAW", "CAP_IPC_LOCK", "CAP_IPC_OWNER", "CAP_SYS_MODULE", "CAP_SYS_RAWIO", "CAP_SYS_CHROOT",
    "CAP_SYS_PTRACE", "CAP_SYS_PACCT", "CAP_SYS_ADMIN", "CAP_SYS_BOOT", "CAP_SYS_NICE", "CAP_SYS_RESOURCE",
    "CAP_SYS_TIME", "CAP_SYS_TTY_CONFIG", "CAP_MKNOD", "CAP_LEASE", "CAP_AUDIT_WRITE", "CAP_AUDIT_CONTROL",
    "CAP_SETFCAP", "CAP_MAC_OVERRIDE", "CAP_MAC_ADMIN", "CAP_SYSLOG", "CAP_WAKE_ALARM", "CAP_BLOCK_SUSPEND",
    "CAP_AUDIT_READ", "CAP_PERFMON", "CAP_BPF", "CAP_CHECKPOINT_RESTORE"]

  predicate CapabilityOk(c: string) { c == ALL_CAPABILITIES || c in CAPABILITIES }

  predicate CapabilitiesOk(add: seq<string>, drop: seq<string>) {
    forall c :: c in add + drop ==> CapabilityOk(c)
  }

  predicate PermissionsOk(s: string) {
    1 <= |s| <= 3 && forall c :: c in s ==> c in "rwm"
  }

  // A device number, or any.
  predicate NumberOk(s: string) { s == "*" || Digits(s) }

  // The kind of device, its numbers and what may be done with it, a space apart.
  predicate CgroupRuleOk(s: string) {
    var parts := Split(s, ' ');
    |parts| == 3 && (parts[0] == "a" || parts[0] == "b" || parts[0] == "c") && PermissionsOk(parts[2]) &&
    var numbers := Split(parts[1], ':');
    |numbers| == 2 && NumberOk(numbers[0]) && NumberOk(numbers[1])
  }

  predicate CgroupRulesOk(rules: seq<string>) {
    forall i :: 0 <= i < |rules| ==> CgroupRuleOk(rules[i])
  }

  // path.IsAbs and path.Clean(p) == p.
  predicate CleanAbs(p: string) {
    p == "/" || (|p| > 1 && p[0] == '/' && forall e :: e in Split(p[1..], '/') ==> e != "" && e != "." && e != "..")
  }

  predicate MountPath(p: string) {
    CleanAbs(p) && ':' !in p && ',' !in p && '\0' !in p
  }

  predicate ImageOk(i: string) {
    i != "" && |i| <= 512 && i[0] != '-' && ' ' !in i && '\t' !in i && '\n' !in i && '\0' !in i
  }

  predicate NoNul(args: seq<string>) {
    forall i :: 0 <= i < |args| ==> '\0' !in args[i]
  }

  predicate NetworkOk(s: Spec) {
    if s.networkMode == "" then
      ValidName(s.network) && forall a :: a in Elems(s.aliases) ==> ValidName(a)
    else
      (s.networkMode == "host" || s.networkMode == "none") && s.network == "" && Elems(s.aliases) == []
  }

  predicate EnvironmentOk(e: map<string, string>) {
    forall k :: k in e ==> ValidKey(k) && '\0' !in e[k]
  }

  predicate PortOk(p: Port) {
    p.host != 0 && p.container != 0 && (p.protocol == "tcp" || p.protocol == "udp")
  }

  predicate PublishOk(ps: seq<Port>) {
    && (forall i :: 0 <= i < |ps| ==> PortOk(ps[i]))
    && (forall i, j :: 0 <= i < j < |ps| ==> (ps[i].host, ps[i].protocol) != (ps[j].host, ps[j].protocol))
  }

  predicate VolumesOk(vs: seq<Volume>) {
    forall i :: 0 <= i < |vs| ==> MountPath(vs[i].host) && MountPath(vs[i].container)
  }

  predicate DevicesOk(ds: seq<Device>) {
    forall i :: 0 <= i < |ds| ==>
      CleanAbs(ds[i].host) && '\0' !in ds[i].host && MountPath(ds[i].container) && PermissionsOk(ds[i].permissions)
  }

  predicate LimitsOk(l: Limits) {
    0 <= l.pids <= 65536 && (l.memory != "" ==> ValidMemory(l.memory)) && CpuOk(l.cpu)
  }

  predicate RestartOk(r: Restart) {
    (r.policy == PolicyNo || r.policy == PolicyOnFailure || r.policy == PolicyAlways) && r.maxRestarts >= 0
  }

  predicate HealthOk(o: Option<Health>) {
    o.Some? ==>
      var h := o.value;
      var cmd := Elems(h.command);
      cmd != [] && cmd[0] != "" && NoNul(cmd) && h.interval >= 1 && h.timeout >= 1 && h.retries >= 1 &&
      h.startPeriod >= 0 && h.timeout <= h.interval
  }

  predicate DependencyOk(name: string, d: Dependency) {
    ValidName(d.name) && d.name != name && (d.ready == ReadyRunning || d.ready == ReadyHealthy)
  }

  predicate DependsOk(name: string, ds: seq<Dependency>) {
    && (forall i :: 0 <= i < |ds| ==> DependencyOk(name, ds[i]))
    && (forall i, j :: 0 <= i < j < |ds| ==> ds[i].name != ds[j].name)
  }

  // The first rule a normalized spec breaks, in the order they are checked.
  function Broken(s: Spec): Option<Rule> {
    if !ValidName(s.name) then Some(NameRule)
    else if !ImageOk(s.image) then Some(ImageRule)
    else if !NoNul(Elems(s.command)) then Some(CommandRule)
    else if !NoNul(Elems(s.entrypoint)) then Some(EntrypointRule)
    else if !UserOk(s.user) then Some(UserRule)
    else if s.workingDir != "" && !(CleanAbs(s.workingDir) && '\0' !in s.workingDir) then Some(WorkingDirRule)
    else if !ValidName(s.project) || !ValidName(s.service) then Some(ProjectRule)
    else if !NetworkOk(s) then Some(NetworkRule)
    else if s.networkMode == "host" && Elems(s.publish) != [] then Some(PublishRule)
    else if !CapabilitiesOk(Elems(s.capAdd), Elems(s.capDrop)) then Some(CapabilitiesRule)
    else if !EnvironmentOk(Env(s.environment)) then Some(EnvironmentRule)
    else if !PublishOk(Elems(s.publish)) then Some(PublishRule)
    else if !VolumesOk(Elems(s.volumes)) then Some(VolumeRule)
    else if !DevicesOk(Elems(s.devices)) then Some(DevicesRule)
    else if !CgroupRulesOk(Elems(s.cgroupRules)) then Some(DevicesRule)
    else if !LimitsOk(s.limits) then Some(LimitsRule)
    else if !RestartOk(s.restart) then Some(RestartRule)
    else if !HealthOk(s.health) then Some(HealthRule)
    else if !DependsOk(s.name, Elems(s.dependsOn)) then Some(DependsOnRule)
    else None
  }

  function Verdict(s: Spec): Option<Rule> { Broken(Normalized(s)) }

  predicate Valid(s: Spec) { Verdict(s).None? }

  lemma {:induction false} NormalKeepsName(ds: seq<Dependency>, i: nat)
    requires i < |ds|
    ensures |NormalDependencies(ds)| == |ds| && NormalDependencies(ds)[i].name == ds[i].name
  {
    if |ds| > 1 { NormalKeepsName(ds[1..], if i == 0 then 0 else i - 1); }
  }

  // What a valid spec waits for has a name, and not its own.
  lemma ValidDependency(s: Spec, d: Dependency)
    requires Valid(s) && d in Elems(s.dependsOn)
    ensures d.name != "" && d.name != s.name
  {
    var ds := Elems(s.dependsOn);
    var i :| 0 <= i < |ds| && ds[i] == d;
    NormalKeepsName(ds, i);
    ValidDepends(s);
    assert DependencyOk(s.name, NormalDependencies(ds)[i]);
  }

  lemma ValidDepends(s: Spec)
    requires Valid(s)
    ensures DependsOk(s.name, NormalDependencies(Elems(s.dependsOn)))
  {
  }

  // The loop over the published ports, with its set of host ports seen.
  method CheckPublish(ps: seq<Port>) returns (ok: bool)
    ensures ok <==> PublishOk(ps)
  {
    var seen: set<(Uint16, string)> := {};
    for i := 0 to |ps|
      invariant PublishOk(ps[..i])
      invariant forall k :: k in seen <==> exists j :: 0 <= j < i && k == (ps[j].host, ps[j].protocol)
    {
      var key := (ps[i].host, ps[i].protocol);
      if !PortOk(ps[i]) || key in seen { return false; }
      seen := seen + {key};
      assert ps[..i + 1][..i] == ps[..i];
    }
    assert ps[..|ps|] == ps;
    return true;
  }

  // The loop over the dependencies, with its set of names seen.
  method CheckDependsOn(name: string, ds: seq<Dependency>) returns (ok: bool)
    ensures ok <==> DependsOk(name, ds)
  {
    var seen: set<string> := {};
    for i := 0 to |ds|
      invariant DependsOk(name, ds[..i])
      invariant forall k :: k in seen <==> exists j :: 0 <= j < i && k == ds[j].name
    {
      if !DependencyOk(name, ds[i]) || ds[i].name in seen { return false; }
      seen := seen + {ds[i].name};
      assert ds[..i + 1][..i] == ds[..i];
    }
    assert ds[..|ds|] == ds;
    return true;
  }

  // ---- the hash ----

  // The document a container is created from. A list or map under a key that is always
  // written keeps nil apart from empty; one omitted when empty does not. The hash is the
  // SHA-256 of this document's canonical JSON, both taken as injective.
  datatype Runtime = Runtime(
    image: string, entrypoint: seq<string>, user: string, workingDir: string, command: List<string>,
    environment: Option<map<string, string>>, publish: List<Port>, volumes: List<Volume>,
    network: string, aliases: seq<string>, networkMode: string, capAdd: seq<string>, capDrop: seq<string>,
    devices: seq<Device>, cgroupRules: seq<string>, project: string, limits: Limits, health: Option<Health>)

  function RuntimeOf(n: Spec): Runtime {
    Runtime(n.image, Elems(n.entrypoint), n.user, n.workingDir, n.command, n.environment, n.publish, n.volumes,
            n.network, Elems(n.aliases), n.networkMode, Elems(n.capAdd), Elems(n.capDrop),
            Elems(n.devices), Elems(n.cgroupRules), n.project, n.limits, n.health)
  }

  function Digest(s: Spec): Runtime { RuntimeOf(Normalized(s)) }

  // A change of the restart policy or of what is waited for recreates nothing.
  lemma DigestIgnoresRestartAndDependencies(s: Spec, r: Restart, ds: List<Dependency>)
    ensures Digest(s.(restart := r, dependsOn := ds)) == Digest(s)
  {
  }

  // ---- the stored document ----

  // Every list and map of the stored spec is omitted when empty; a health command is not.
  datatype Stored = Stored(
    name: string, project: string, service: string, image: string,
    entrypoint: seq<string>, user: string, workingDir: string, command: seq<string>,
    environment: map<string, string>, publish: seq<Port>, volumes: seq<Volume>,
    network: string, aliases: seq<string>, networkMode: string,
    capAdd: seq<string>, capDrop: seq<string>, devices: seq<Device>, cgroupRules: seq<string>,
    limits: Limits, restart: Restart, health: Option<Health>, dependsOn: seq<Dependency>)

  function Encode(s: Spec): Stored {
    Stored(s.name, s.project, s.service, s.image, Elems(s.entrypoint), s.user, s.workingDir, Elems(s.command),
           Env(s.environment), Elems(s.publish), Elems(s.volumes), s.network, Elems(s.aliases), s.networkMode,
           Elems(s.capAdd), Elems(s.capDrop), Elems(s.devices), Elems(s.cgroupRules),
           s.limits, s.restart, s.health, Elems(s.dependsOn))
  }

  function Decode(d: Stored): Spec {
    Spec(d.name, d.project, d.service, d.image, Omitted(d.entrypoint), d.user, d.workingDir, Omitted(d.command),
         if d.environment == map[] then None else Some(d.environment), Omitted(d.publish), Omitted(d.volumes),
         d.network, Omitted(d.aliases), d.networkMode,
         Omitted(d.capAdd), Omitted(d.capDrop), Omitted(d.devices), Omitted(d.cgroupRules),
         d.limits, d.restart, d.health, Omitted(d.dependsOn))
  }

  // What a spec is after it was stored and loaded.
  function Reloaded(s: Spec): Spec { Decode(Encode(s)) }

  predicate HashStable(s: Spec) {
    NilOrNonEmpty(s.command) && NilOrNonEmpty(s.volumes) && s.environment != Some(map[])
  }

  // Storing and loading keeps the verdict and the name, and once done changes nothing more.
  lemma ReloadedKeeps(s: Spec)
    ensures Verdict(Reloaded(s)) == Verdict(s)
    ensures Reloaded(s).name == s.name
    ensures Encode(Reloaded(s)) == Encode(s)
    ensures Reloaded(Reloaded(s)) == Reloaded(s)
  {
    ElemsOmitted(Elems(s.command));
    var n, m := Normalized(s), Normalized(Reloaded(s));
    assert Elems(m.publish) == Elems(n.publish) && Elems(m.dependsOn) == Elems(n.dependsOn);
    assert Env(m.environment) == Env(n.environment);
    assert Elems(m.command) == Elems(n.command) && Elems(m.entrypoint) == Elems(n.entrypoint);
    assert Elems(m.volumes) == Elems(n.volumes) && Elems(m.devices) == Elems(n.devices);
    assert Elems(m.aliases) == Elems(n.aliases) && Elems(m.cgroupRules) == Elems(n.cgroupRules);
    assert Elems(m.capAdd) == Elems(n.capAdd) && Elems(m.capDrop) == Elems(n.capDrop);
    assert NetworkOk(m) == NetworkOk(n);
  }

  lemma ElemsOmitted<T>(s: seq<T>)
    ensures Elems(Omitted(s)) == s
  {
  }

  // A restart of the daemon leaves a container's hash exactly when its command, volumes
  // and environment are each absent or not empty.
  lemma HashSurvivesReload(s: Spec)
    ensures Digest(Reloaded(s)) == Digest(s) <==> HashStable(s)
    ensures HashStable(Reloaded(s))
  {
    var a, b := Digest(Reloaded(s)), Digest(s);
    assert a.publish == b.publish;
    if HashStable(s) {
      assert a.command == b.command && a.volumes == b.volumes && a.environment == b.environment;
    } else if s.command == Items([]) {
      assert a.command != b.command;
    } else if s.volumes == Items([]) {
      assert a.volumes != b.volumes;
    }
  }
}
