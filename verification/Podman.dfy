// The arguments of `podman run` (internal/engine/podman.go): a printer of declarations,
// and the reader that knows which options take a value.
module Podman {
  import opened Basics
  import opened Specs
  import opened Decimals
  import opened Paths

  // The options, in the order they are given.
  datatype Name =
    | Detach | Replace | NameOf | Label | RestartOption | LogDriver | LogOpt | Network | Alias | CapAdd | CapDrop | User
    | Workdir | Entrypoint | EnvOption | Publish | VolumeOption | DeviceOption | CgroupRule | PidsLimit | Memory | Cpus
    | HealthCmd | HealthInterval | HealthTimeout | HealthRetries | HealthStart

  const ORDER: seq<Name> :=
    [Detach, Replace, NameOf, Label, RestartOption, LogDriver, LogOpt, Network, Alias, CapAdd, CapDrop, User, Workdir,
     Entrypoint, EnvOption, Publish, VolumeOption, DeviceOption, CgroupRule, PidsLimit, Memory, Cpus, HealthCmd,
     HealthInterval, HealthTimeout, HealthRetries, HealthStart]

  function Text(o: Name): string {
    match o
    case Detach => "--detach"
    case Replace => "--replace"
    case NameOf => "--name"
    case Label => "--label"
    case RestartOption => "--restart"
    case LogDriver => "--log-driver"
    case LogOpt => "--log-opt"
    case Network => "--network"
    case Alias => "--network-alias"
    case CapAdd => "--cap-add"
    case CapDrop => "--cap-drop"
    case User => "--user"
    case Workdir => "--workdir"
    case Entrypoint => "--entrypoint"
    case EnvOption => "--env"
    case Publish => "--publish"
    case VolumeOption => "--volume"
    case DeviceOption => "--device"
    case CgroupRule => "--device-cgroup-rule"
    case PidsLimit => "--pids-limit"
    case Memory => "--memory"
    case Cpus => "--cpus"
    case HealthCmd => "--health-cmd"
    case HealthInterval => "--health-interval"
    case HealthTimeout => "--health-timeout"
    case HealthRetries => "--health-retries"
    case HealthStart => "--health-start-period"
  }

  predicate Bare(o: Name) { o == Detach || o == Replace }

  lemma TextsDiffer(a: Name, b: Name)
    requires a != b
    ensures Text(a) != Text(b)
  {
  }

  lemma OrderIsComplete(o: Name)
    ensures o in ORDER
  {
    hide Text;
  }

  // Where an option stands in the order.
  function Place(o: Name): nat {
    match o
    case Detach => 0
    case Replace => 1
    case NameOf => 2
    case Label => 3
    case RestartOption => 4
    case LogDriver => 5
    case LogOpt => 6
    case Network => 7
    case Alias => 8
    case CapAdd => 9
    case CapDrop => 10
    case User => 11
    case Workdir => 12
    case Entrypoint => 13
    case EnvOption => 14
    case Publish => 15
    case VolumeOption => 16
    case DeviceOption => 17
    case CgroupRule => 18
    case PidsLimit => 19
    case Memory => 20
    case Cpus => 21
    case HealthCmd => 22
    case HealthInterval => 23
    case HealthTimeout => 24
    case HealthRetries => 25
    case HealthStart => 26
  }

  lemma OrderAt(i: nat)
    requires i < |ORDER|
    ensures Place(ORDER[i]) == i
  {
  }

  lemma OrderIsDistinct(i: nat, j: nat)
    requires i < j < |ORDER|
    ensures ORDER[i] != ORDER[j]
  {
    hide Place;
    OrderAt(i);
    OrderAt(j);
  }

  // ---- printing ----

  // The engine's configuration, and the two encodings printed into the arguments.
  datatype Engine = Engine(logDir: string, logMaxSize: string, hash: Runtime -> string, json: seq<string> -> string)

  const MANAGED := "mica.containerd"
  const SPEC := "mica.containerd.spec"
  const PROJECT := "mica.containerd.project"

  datatype Opt = Opt(o: Name, value: string)

  function Each(o: Name, values: seq<string>): seq<Opt> {
    if values == [] then [] else [Opt(o, values[0])] + Each(o, values[1..])
  }

  function PrintOne(a: Opt): seq<string> {
    if Bare(a.o) then [Text(a.o)] else [Text(a.o), a.value]
  }

  function Print(opts: seq<Opt>): seq<string> {
    if opts == [] then [] else PrintOne(opts[0]) + Print(opts[1..])
  }

  function Maybe(c: bool, value: string): seq<string> { if c then [value] else [] }

  function EnvTexts(env: map<string, string>, keys: seq<string>): seq<string>
    requires forall k :: k in keys ==> k in env
  {
    if keys == [] then [] else [keys[0] + "=" + env[keys[0]]] + EnvTexts(env, keys[1..])
  }

  function PortText(p: Port): string { Decimal(p.host) + ":" + Decimal(p.container) + "/" + p.protocol }

  function PortTexts(ps: seq<Port>): seq<string> {
    if ps == [] then [] else [PortText(ps[0])] + PortTexts(ps[1..])
  }

  function VolumeText(v: Volume): string { v.host + ":" + v.container + if v.readOnly then ":ro" else "" }

  function VolumeTexts(vs: seq<Volume>): seq<string> {
    if vs == [] then [] else [VolumeText(vs[0])] + VolumeTexts(vs[1..])
  }

  function DeviceText(d: Device): string { d.host + ":" + d.container + ":" + d.permissions }

  function DeviceTexts(ds: seq<Device>): seq<string> {
    if ds == [] then [] else [DeviceText(ds[0])] + DeviceTexts(ds[1..])
  }

  // The values an option is given, for a normalized spec.
  ghost function Given(e: Engine, n: Spec, devices: seq<Device>, o: Name): seq<string> {
    match o
    case Detach => [""]
    case Replace => [""]
    case NameOf => [n.name]
    case Label => [MANAGED + "=1", SPEC + "=" + e.hash(RuntimeOf(n)), PROJECT + "=" + n.project]
    case RestartOption => ["no"]
    case LogDriver => ["k8s-file"]
    case LogOpt => ["path=" + LogPath(e, n.name), "max-size=" + e.logMaxSize]
    case Network => [if n.networkMode != "" then n.networkMode else n.network]
    case Alias => Elems(n.aliases)
    case CapAdd => Elems(n.capAdd)
    case CapDrop => Elems(n.capDrop)
    case User => Maybe(n.user != "", n.user)
    case Workdir => Maybe(n.workingDir != "", n.workingDir)
    case Entrypoint => Maybe(Elems(n.entrypoint) != [], e.json(Elems(n.entrypoint)))
    case EnvOption => EnvTexts(Env(n.environment), SortedKeys(Env(n.environment).Keys))
    case Publish => PortTexts(Elems(n.publish))
    case VolumeOption => VolumeTexts(Elems(n.volumes))
    case DeviceOption => DeviceTexts(devices)
    case CgroupRule => Elems(n.cgroupRules)
    case PidsLimit => Maybe(n.limits.pids > 0, FormatInt(n.limits.pids))
    case Memory => Maybe(n.limits.memory != "", n.limits.memory)
    case Cpus => Maybe(n.limits.cpu != "", n.limits.cpu)
    case HealthCmd => if n.health.None? then [] else [e.json(Elems(n.health.value.command))]
    case HealthInterval => Maybe(n.health.Some?, "disable")
    case HealthTimeout => if n.health.None? then [] else [FormatInt(n.health.value.timeout) + "s"]
    case HealthRetries => if n.health.None? then [] else [FormatInt(n.health.value.retries)]
    case HealthStart => if n.health.None? then [] else [FormatInt(n.health.value.startPeriod) + "s"]
  }

  // filepath.Join, of a clean log directory.
  function LogPath(e: Engine, name: string): string { Join(e.logDir, name + ".log") }

  ghost function AllGiven(e: Engine, n: Spec, devices: seq<Device>, os: seq<Name>): seq<Opt> {
    if os == [] then [] else Each(os[0], Given(e, n, devices, os[0])) + AllGiven(e, n, devices, os[1..])
  }

  // The arguments with the host links of the devices resolved, and as they are.
  ghost function ArgsWith(e: Engine, s: Spec, devices: seq<Device>): seq<string> {
    var n := Normalized(s);
    ["run"] + Print(AllGiven(e, n, devices, ORDER)) + [n.image] + Elems(n.command)
  }

  ghost function RunArgs(e: Engine, s: Spec): seq<string> { ArgsWith(e, s, Elems(s.devices)) }

  // ---- building the list, option by option ----

  lemma {:induction false} PrintAppend(a: seq<Opt>, b: seq<Opt>)
    ensures Print(a + b) == Print(a) + Print(b)
  {
    if a == [] {
      assert a + b == b;
    } else {
      assert (a + b)[0] == a[0] && (a + b)[1..] == a[1..] + b;
      PrintAppend(a[1..], b);
    }
  }

  lemma {:induction false} AllGivenNext(e: Engine, n: Spec, devices: seq<Device>, os: seq<Name>, o: Name)
    ensures AllGiven(e, n, devices, os + [o]) == AllGiven(e, n, devices, os) + Each(o, Given(e, n, devices, o))
  {
    hide Given;
    if os == [] {
      assert os + [o] == [o] && [o][1..] == [];
    } else {
      assert (os + [o])[0] == os[0] && (os + [o])[1..] == os[1..] + [o];
      AllGivenNext(e, n, devices, os[1..], o);
    }
  }

  // The list once the first k options are given.
  ghost function Upto(e: Engine, n: Spec, devices: seq<Device>, k: nat): seq<string>
    requires k <= |ORDER|
  {
    ["run"] + Print(AllGiven(e, n, devices, ORDER[..k]))
  }

  lemma UptoNext(e: Engine, n: Spec, devices: seq<Device>, k: nat)
    requires k < |ORDER|
    ensures Upto(e, n, devices, k + 1) == Upto(e, n, devices, k) + Printed(e, n, devices, ORDER[k])
  {
    hide Given, Print, AllGiven;
    assert ORDER[..k + 1] == ORDER[..k] + [ORDER[k]];
    AllGivenNext(e, n, devices, ORDER[..k], ORDER[k]);
    PrintAppend(AllGiven(e, n, devices, ORDER[..k]), Each(ORDER[k], Given(e, n, devices, ORDER[k])));
  }

  // One option for each value of a list.
  method AddEach(args: seq<string>, o: Name, values: seq<string>) returns (r: seq<string>)
    requires !Bare(o)
    ensures r == args + Print(Each(o, values))
  {
    r := args;
    for i := 0 to |values|
      invariant args + Print(Each(o, values)) == r + Print(Each(o, values[i..]))
    {
      assert values[i..][0] == values[i] && values[i..][1..] == values[i + 1..];
      r := r + [Text(o), values[i]];
    }
  }

  method AddEnv(args: seq<string>, env: map<string, string>) returns (r: seq<string>)
    ensures r == args + Print(Each(EnvOption, EnvTexts(env, SortedKeys(env.Keys))))
  {
    hide EnvTexts, Each, Print;
    var keys := SortKeys(env.Keys);
    r := args;
    assert keys[0..] == keys;
    for i := 0 to |keys|
      invariant args + Print(Each(EnvOption, EnvTexts(env, keys))) ==
                r + Print(Each(EnvOption, EnvTexts(env, keys[i..])))
    {
      EnvNext(env, keys, i);
      r := r + ["--env", keys[i] + "=" + env[keys[i]]];
    }
    PrintNothing(EnvOption);
    EnvNone(env, keys);
  }

  lemma EnvNext(env: map<string, string>, keys: seq<string>, i: nat)
    requires i < |keys| && forall k :: k in keys ==> k in env
    ensures Print(Each(EnvOption, EnvTexts(env, keys[i..]))) ==
            ["--env", keys[i] + "=" + env[keys[i]]] + Print(Each(EnvOption, EnvTexts(env, keys[i + 1..])))
  {
    assert keys[i..][0] == keys[i] && keys[i..][1..] == keys[i + 1..];
    PrintMore(EnvOption, keys[i] + "=" + env[keys[i]], EnvTexts(env, keys[i + 1..]));
  }

  lemma EnvNone(env: map<string, string>, keys: seq<string>)
    ensures EnvTexts(env, keys[|keys|..]) == []
  {
  }

  // One more value of an option.
  lemma PrintMore(o: Name, v: string, vs: seq<string>)
    requires !Bare(o)
    ensures Print(Each(o, [v] + vs)) == [Text(o), v] + Print(Each(o, vs))
  {
    assert ([v] + vs)[1..] == vs;
    assert Each(o, [v] + vs) == [Opt(o, v)] + Each(o, vs);
    assert ([Opt(o, v)] + Each(o, vs))[1..] == Each(o, vs);
  }

  method AddPorts(args: seq<string>, ps: seq<Port>) returns (r: seq<string>)
    ensures r == args + Print(Each(Publish, PortTexts(ps)))
  {
    hide Print, Each, Decimal;
    r := args;
    for i := 0 to |ps|
      invariant args + Print(Each(Publish, PortTexts(ps))) == r + Print(Each(Publish, PortTexts(ps[i..])))
    {
      assert ps[i..][0] == ps[i] && ps[i..][1..] == ps[i + 1..];
      PrintMore(Publish, PortText(ps[i]), PortTexts(ps[i + 1..]));
      r := r + ["--publish", Decimal(ps[i].host) + ":" + Decimal(ps[i].container) + "/" + ps[i].protocol];
    }
    PrintNothing(Publish);
  }

  method AddVolumes(args: seq<string>, vs: seq<Volume>) returns (r: seq<string>)
    ensures r == args + Print(Each(VolumeOption, VolumeTexts(vs)))
  {
    hide Print, Each;
    r := args;
    for i := 0 to |vs|
      invariant args + Print(Each(VolumeOption, VolumeTexts(vs))) == r + Print(Each(VolumeOption, VolumeTexts(vs[i..])))
    {
      assert vs[i..][0] == vs[i] && vs[i..][1..] == vs[i + 1..];
      var mount := vs[i].host + ":" + vs[i].container;
      if vs[i].readOnly {
        mount := mount + ":ro";
      } else {
        assert mount == VolumeText(vs[i]);
      }
      PrintMore(VolumeOption, VolumeText(vs[i]), VolumeTexts(vs[i + 1..]));
      r := r + ["--volume", mount];
    }
    PrintNothing(VolumeOption);
  }

  method AddDevices(args: seq<string>, ds: seq<Device>) returns (r: seq<string>)
    ensures r == args + Print(Each(DeviceOption, DeviceTexts(ds)))
  {
    hide Print, Each;
    r := args;
    for i := 0 to |ds|
      invariant args + Print(Each(DeviceOption, DeviceTexts(ds))) == r + Print(Each(DeviceOption, DeviceTexts(ds[i..])))
    {
      assert ds[i..][0] == ds[i] && ds[i..][1..] == ds[i + 1..];
      PrintMore(DeviceOption, DeviceText(ds[i]), DeviceTexts(ds[i + 1..]));
      r := r + ["--device", ds[i].host + ":" + ds[i].container + ":" + ds[i].permissions];
    }
    PrintNothing(DeviceOption);
  }

  // An option for a value that is there.
  method AddIf(args: seq<string>, o: Name, c: bool, value: string) returns (r: seq<string>)
    requires !Bare(o)
    ensures r == args + Print(Each(o, Maybe(c, value)))
  {
    r := args;
    if c { r := r + [Text(o), value]; }
  }

  method AddHead(e: Engine, n: Spec, ghost devices: seq<Device>) returns (args: seq<string>)
    ensures args == Upto(e, n, devices, 8)
  {
    args :=
      ["run"] + ["--detach"] + ["--replace"] + ["--name", n.name] +
      ["--label", MANAGED + "=1", "--label", SPEC + "=" + e.hash(RuntimeOf(n)), "--label", PROJECT + "=" + n.project] +
      ["--restart", "no"] + ["--log-driver", "k8s-file"] +
      ["--log-opt", "path=" + LogPath(e, n.name), "--log-opt", "max-size=" + e.logMaxSize] +
      ["--network", if n.networkMode != "" then n.networkMode else n.network];
    HeadPrinted(e, n, devices);
  }

  method AddContainer(e: Engine, n: Spec, ghost devices: seq<Device>, args0: seq<string>) returns (args: seq<string>)
    requires args0 == Upto(e, n, devices, 8)
    ensures args == Upto(e, n, devices, 15)
  {
    hide Upto, Print, Each, Maybe, Text, Printed, Given, EnvTexts, PortTexts, VolumeTexts, DeviceTexts, FormatInt;
    ContainerUpto(e, n, devices);
    ContainerPrinted(e, n, devices);
    UserPrinted(e, n, devices);
    args := AddEach(args0, Alias, Elems(n.aliases));
    args := AddEach(args, CapAdd, Elems(n.capAdd));
    args := AddEach(args, CapDrop, Elems(n.capDrop));
    args := AddIf(args, User, n.user != "", n.user);
    args := AddIf(args, Workdir, n.workingDir != "", n.workingDir);
    args := AddIf(args, Entrypoint, |Elems(n.entrypoint)| > 0, e.json(Elems(n.entrypoint)));
    args := AddEnv(args, Env(n.environment));
  }

  method AddResources(e: Engine, n: Spec, devices: seq<Device>, args0: seq<string>) returns (args: seq<string>)
    requires args0 == Upto(e, n, devices, 15)
    ensures args == Upto(e, n, devices, 22)
  {
    hide Upto, Print, Each, Maybe, Text, Printed, Given, EnvTexts, PortTexts, VolumeTexts, DeviceTexts, FormatInt;
    ResourcesUpto(e, n, devices);
    PortsPrinted(e, n, devices);
    LimitsPrinted(e, n, devices);
    args := AddPorts(args0, Elems(n.publish));
    args := AddVolumes(args, Elems(n.volumes));
    args := AddDevices(args, devices);
    args := AddEach(args, CgroupRule, Elems(n.cgroupRules));
    args := AddIf(args, PidsLimit, n.limits.pids > 0, FormatInt(n.limits.pids));
    args := AddIf(args, Memory, n.limits.memory != "", n.limits.memory);
    args := AddIf(args, Cpus, n.limits.cpu != "", n.limits.cpu);
  }

  method AddHealth(e: Engine, n: Spec, ghost devices: seq<Device>, args0: seq<string>) returns (args: seq<string>)
    requires args0 == Upto(e, n, devices, 22)
    ensures args == Upto(e, n, devices, 27)
  {
    hide Upto, FormatInt;
    args := args0;
    if n.health.Some? {
      var h := n.health.value;
      args := args + (["--health-cmd", e.json(Elems(h.command))] + ["--health-interval", "disable"] +
        ["--health-timeout", FormatInt(h.timeout) + "s"] +
        ["--health-retries", FormatInt(h.retries)] +
        ["--health-start-period", FormatInt(h.startPeriod) + "s"]);
    }
    HealthPrinted(e, n, devices);
  }

  // The list as it is grown, option by option.
  method BuildArgs(e: Engine, s: Spec, devices: seq<Device>) returns (args: seq<string>)
    ensures args == ArgsWith(e, s, devices)
  {
    var n := Normalize(s);
    args := AddHead(e, n, devices);
    args := AddContainer(e, n, devices, args);
    args := AddResources(e, n, devices, args);
    args := AddHealth(e, n, devices, args);
    assert ORDER[..27] == ORDER;
    args := args + [n.image] + Elems(n.command);
  }

  lemma PrintSingle(o: Name, v: string)
    ensures Print(Each(o, [v])) == if Bare(o) then [Text(o)] else [Text(o), v]
  {
    assert Each(o, [v]) == [Opt(o, v)];
    assert Print([Opt(o, v)]) == PrintOne(Opt(o, v));
  }

  lemma PrintPair(o: Name, v: string, w: string)
    requires !Bare(o)
    ensures Print(Each(o, [v, w])) == [Text(o), v, Text(o), w]
  {
    PrintSingle(o, w);
    assert [v, w][1..] == [w];
    assert Each(o, [v, w]) == [Opt(o, v)] + Each(o, [w]);
    PrintAppend([Opt(o, v)], Each(o, [w]));
    PrintSingle(o, v);
    assert Each(o, [v]) == [Opt(o, v)];
  }

  // The printed values of seven options on.
  lemma NextSeven(e: Engine, n: Spec, devices: seq<Device>, k: nat)
    requires k + 7 <= |ORDER|
    ensures Upto(e, n, devices, k + 7) ==
            Upto(e, n, devices, k) + Printed(e, n, devices, ORDER[k]) + Printed(e, n, devices, ORDER[k + 1]) +
            Printed(e, n, devices, ORDER[k + 2]) + Printed(e, n, devices, ORDER[k + 3]) +
              Printed(e, n, devices, ORDER[k + 4]) +
            Printed(e, n, devices, ORDER[k + 5]) + Printed(e, n, devices, ORDER[k + 6])
  {
    hide Upto, Printed;
    UptoNext(e, n, devices, k);
    UptoNext(e, n, devices, k + 1);
    UptoNext(e, n, devices, k + 2);
    UptoNext(e, n, devices, k + 3);
    UptoNext(e, n, devices, k + 4);
    UptoNext(e, n, devices, k + 5);
    UptoNext(e, n, devices, k + 6);
  }

  ghost function Printed(e: Engine, n: Spec, devices: seq<Device>, o: Name): seq<string> {
    Print(Each(o, Given(e, n, devices, o)))
  }

  lemma ContainerPrinted(e: Engine, n: Spec, devices: seq<Device>)
    ensures Printed(e, n, devices, Alias) == Print(Each(Alias, Elems(n.aliases)))
    ensures Printed(e, n, devices, CapAdd) == Print(Each(CapAdd, Elems(n.capAdd)))
    ensures Printed(e, n, devices, CapDrop) == Print(Each(CapDrop, Elems(n.capDrop)))
    ensures Printed(e, n, devices, EnvOption) ==
            Print(Each(EnvOption, EnvTexts(Env(n.environment), SortedKeys(Env(n.environment).Keys))))
  {
    hide Print, Each, Maybe, EnvTexts, PortTexts, VolumeTexts, DeviceTexts, FormatInt;
  }

  lemma UserPrinted(e: Engine, n: Spec, devices: seq<Device>)
    ensures Printed(e, n, devices, User) == Print(Each(User, Maybe(n.user != "", n.user)))
    ensures Printed(e, n, devices, Workdir) == Print(Each(Workdir, Maybe(n.workingDir != "", n.workingDir)))
    ensures Printed(e, n, devices, Entrypoint) ==
            Print(Each(Entrypoint, Maybe(|Elems(n.entrypoint)| > 0, e.json(Elems(n.entrypoint)))))
  {
    hide Print, Each, Maybe, EnvTexts, PortTexts, VolumeTexts, DeviceTexts, FormatInt;
  }

  lemma PortsPrinted(e: Engine, n: Spec, devices: seq<Device>)
    ensures Printed(e, n, devices, Publish) == Print(Each(Publish, PortTexts(Elems(n.publish))))
    ensures Printed(e, n, devices, VolumeOption) == Print(Each(VolumeOption, VolumeTexts(Elems(n.volumes))))
    ensures Printed(e, n, devices, DeviceOption) == Print(Each(DeviceOption, DeviceTexts(devices)))
    ensures Printed(e, n, devices, CgroupRule) == Print(Each(CgroupRule, Elems(n.cgroupRules)))
  {
    hide Print, Each, Maybe, EnvTexts, PortTexts, VolumeTexts, DeviceTexts, FormatInt;
  }

  lemma LimitsPrinted(e: Engine, n: Spec, devices: seq<Device>)
    ensures Printed(e, n, devices, PidsLimit) ==
            Print(Each(PidsLimit, Maybe(n.limits.pids > 0, FormatInt(n.limits.pids))))
    ensures Printed(e, n, devices, Memory) == Print(Each(Memory, Maybe(n.limits.memory != "", n.limits.memory)))
    ensures Printed(e, n, devices, Cpus) == Print(Each(Cpus, Maybe(n.limits.cpu != "", n.limits.cpu)))
  {
    hide Print, Each, Maybe, EnvTexts, PortTexts, VolumeTexts, DeviceTexts, FormatInt;
  }

  lemma ContainerUpto(e: Engine, n: Spec, devices: seq<Device>)
    ensures Upto(e, n, devices, 15) ==
            Upto(e, n, devices, 8) + Printed(e, n, devices, Alias) + Printed(e, n, devices, CapAdd) +
            Printed(e, n, devices, CapDrop) + Printed(e, n, devices, User) + Printed(e, n, devices, Workdir) +
            Printed(e, n, devices, Entrypoint) + Printed(e, n, devices, EnvOption)
  {
    hide Upto, Printed;
    NextSeven(e, n, devices, 8);
  }

  lemma ResourcesUpto(e: Engine, n: Spec, devices: seq<Device>)
    ensures Upto(e, n, devices, 22) ==
            Upto(e, n, devices, 15) + Printed(e, n, devices, Publish) + Printed(e, n, devices, VolumeOption) +
            Printed(e, n, devices, DeviceOption) + Printed(e, n, devices, CgroupRule) +
              Printed(e, n, devices, PidsLimit) +
            Printed(e, n, devices, Memory) + Printed(e, n, devices, Cpus)
  {
    hide Upto, Printed;
    NextSeven(e, n, devices, 15);
  }

  lemma HealthUpto(e: Engine, n: Spec, devices: seq<Device>)
    ensures Upto(e, n, devices, 27) ==
            Upto(e, n, devices, 22) + Printed(e, n, devices, HealthCmd) + Printed(e, n, devices, HealthInterval) +
            Printed(e, n, devices, HealthTimeout) + Printed(e, n, devices, HealthRetries) +
              Printed(e, n, devices, HealthStart)
  {
    hide Upto, Printed;
    UptoNext(e, n, devices, 22);
    UptoNext(e, n, devices, 23);
    UptoNext(e, n, devices, 24);
    UptoNext(e, n, devices, 25);
    UptoNext(e, n, devices, 26);
  }

  lemma LabelsPrinted(a: string, b: string, c: string)
    ensures Print(Each(Label, [a, b, c])) == ["--label", a, "--label", b, "--label", c]
  {
    PrintPair(Label, b, c);
    PrintSingle(Label, a);
    assert [a, b, c][1..] == [b, c];
    assert Each(Label, [a, b, c]) == [Opt(Label, a)] + Each(Label, [b, c]);
    assert Each(Label, [a]) == [Opt(Label, a)];
    PrintAppend([Opt(Label, a)], Each(Label, [b, c]));
  }

  lemma HeadPrinted(e: Engine, n: Spec, devices: seq<Device>)
    ensures Upto(e, n, devices, 8) ==
            ["run"] + ["--detach"] + ["--replace"] + ["--name", n.name] +
            ["--label", MANAGED + "=1", "--label", SPEC + "=" + e.hash(RuntimeOf(n)),
             "--label", PROJECT + "=" + n.project] +
            ["--restart", "no"] + ["--log-driver", "k8s-file"] +
            ["--log-opt", "path=" + LogPath(e, n.name), "--log-opt", "max-size=" + e.logMaxSize] +
            ["--network", if n.networkMode != "" then n.networkMode else n.network]
  {
    hide Upto, Printed;
    UptoNone(e, n, devices);
    NextSeven(e, n, devices, 0);
    UptoNext(e, n, devices, 7);
    NamePrinted(e, n, devices);
    LogPrinted(e, n, devices);
  }

  lemma NamePrinted(e: Engine, n: Spec, devices: seq<Device>)
    ensures Printed(e, n, devices, Detach) == ["--detach"] && Printed(e, n, devices, Replace) == ["--replace"]
    ensures Printed(e, n, devices, NameOf) == ["--name", n.name]
    ensures Printed(e, n, devices, Label) ==
            ["--label", MANAGED + "=1", "--label", SPEC + "=" + e.hash(RuntimeOf(n)),
             "--label", PROJECT + "=" + n.project]
  {
    hide Print, Each;
    PrintSingle(Detach, "");
    PrintSingle(Replace, "");
    PrintSingle(NameOf, n.name);
    LabelsPrinted(MANAGED + "=1", SPEC + "=" + e.hash(RuntimeOf(n)), PROJECT + "=" + n.project);
  }

  lemma LogPrinted(e: Engine, n: Spec, devices: seq<Device>)
    ensures Printed(e, n, devices, RestartOption) == ["--restart", "no"]
    ensures Printed(e, n, devices, LogDriver) == ["--log-driver", "k8s-file"]
    ensures Printed(e, n, devices, LogOpt) ==
            ["--log-opt", "path=" + LogPath(e, n.name), "--log-opt", "max-size=" + e.logMaxSize]
    ensures Printed(e, n, devices, Network) == ["--network", if n.networkMode != "" then n.networkMode else n.network]
  {
    hide Print, Each;
    PrintSingle(RestartOption, "no");
    PrintSingle(LogDriver, "k8s-file");
    PrintPair(LogOpt, "path=" + LogPath(e, n.name), "max-size=" + e.logMaxSize);
    PrintSingle(Network, if n.networkMode != "" then n.networkMode else n.network);
  }

  lemma UptoNone(e: Engine, n: Spec, devices: seq<Device>)
    ensures Upto(e, n, devices, 0) == ["run"]
  {
    assert ORDER[..0] == [];
  }

  lemma HealthPrinted(e: Engine, n: Spec, devices: seq<Device>)
    ensures Upto(e, n, devices, 27) == Upto(e, n, devices, 22) +
              if n.health.None? then [] else
              ["--health-cmd", e.json(Elems(n.health.value.command))] + ["--health-interval", "disable"] +
              ["--health-timeout", FormatInt(n.health.value.timeout) + "s"] +
              ["--health-retries", FormatInt(n.health.value.retries)] +
              ["--health-start-period", FormatInt(n.health.value.startPeriod) + "s"]
  {
    hide Upto, Printed;
    HealthUpto(e, n, devices);
    if n.health.None? { NoHealthPrinted(e, n, devices); } else { SomeHealthPrinted(e, n, devices); }
  }

  lemma NoHealthPrinted(e: Engine, n: Spec, devices: seq<Device>)
    requires n.health.None?
    ensures forall o | || o == HealthCmd || o == HealthInterval || o == HealthTimeout || o == HealthRetries
                       || o == HealthStart ::
              Printed(e, n, devices, o) == []
  {
    hide Print, Each, EnvTexts, PortTexts, VolumeTexts, DeviceTexts, FormatInt;
    forall o | o == HealthCmd || o == HealthInterval || o == HealthTimeout || o == HealthRetries || o == HealthStart
      ensures Printed(e, n, devices, o) == []
    {
      PrintNothing(o);
    }
  }

  lemma HealthGiven(e: Engine, n: Spec, devices: seq<Device>)
    requires n.health.Some?
    ensures Given(e, n, devices, HealthCmd) == [e.json(Elems(n.health.value.command))]
    ensures Given(e, n, devices, HealthInterval) == ["disable"]
    ensures Given(e, n, devices, HealthTimeout) == [FormatInt(n.health.value.timeout) + "s"]
    ensures Given(e, n, devices, HealthRetries) == [FormatInt(n.health.value.retries)]
    ensures Given(e, n, devices, HealthStart) == [FormatInt(n.health.value.startPeriod) + "s"]
  {
    hide EnvTexts, PortTexts, VolumeTexts, DeviceTexts, FormatInt;
  }

  lemma SomeHealthPrinted(e: Engine, n: Spec, devices: seq<Device>)
    requires n.health.Some?
    ensures Printed(e, n, devices, HealthCmd) == ["--health-cmd", e.json(Elems(n.health.value.command))]
    ensures Printed(e, n, devices, HealthInterval) == ["--health-interval", "disable"]
    ensures Printed(e, n, devices, HealthTimeout) == ["--health-timeout", FormatInt(n.health.value.timeout) + "s"]
    ensures Printed(e, n, devices, HealthRetries) == ["--health-retries", FormatInt(n.health.value.retries)]
    ensures Printed(e, n, devices, HealthStart) ==
            ["--health-start-period", FormatInt(n.health.value.startPeriod) + "s"]
  {
    hide Print, Each, Given, FormatInt;
    HealthGiven(e, n, devices);
    var h := n.health.value;
    PrintSingle(HealthCmd, e.json(Elems(h.command)));
    PrintSingle(HealthInterval, "disable");
    PrintSingle(HealthTimeout, FormatInt(h.timeout) + "s");
    PrintSingle(HealthRetries, FormatInt(h.retries));
    PrintSingle(HealthStart, FormatInt(h.startPeriod) + "s");
  }

  lemma PrintNothing(o: Name)
    ensures Print(Each(o, [])) == []
  {
  }
}
