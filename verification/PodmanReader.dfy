// Reading the arguments of `podman run` back: what podman is told is what was declared
// (internal/engine/podman.go, internal/spec/spec.go).
module PodmanReader {
  import opened Basics
  import opened Specs
  import opened Decimals
  import opened Podman
  import opened Strings

  // ---- reading the arguments back ----

  // podman's options, as its manual has them: those that stand alone, and those that take the
  // next argument for their value.
  predicate StandsAlone(word: string) { word == "--detach" || word == "--replace" }

  predicate TakesValue(word: string) {
    word in [
      "--name", "--label", "--restart", "--log-driver", "--log-opt", "--network", "--network-alias", "--cap-add",
      "--cap-drop", "--user", "--workdir", "--entrypoint", "--env", "--publish", "--volume", "--device",
      "--device-cgroup-rule", "--pids-limit", "--memory", "--cpus", "--health-cmd", "--health-interval",
      "--health-timeout", "--health-retries", "--health-start-period"]
  }

  // An option that was given, with its value.
  datatype Arg = Arg(word: string, value: string)

  datatype Line = Line(args: seq<Arg>, image: string, command: seq<string>)

  // Options until the first argument that is none; an option nothing knows is refused.
  function Parse(args: seq<string>): Option<Line> {
    if args == [] then None
    else if StandsAlone(args[0]) then With(Arg(args[0], ""), Parse(args[1..]))
    else if TakesValue(args[0]) then
      if |args| < 2 then None else With(Arg(args[0], args[1]), Parse(args[2..]))
    else if args[0] == "" || args[0][0] == '-' then None
    else Some(Line([], args[0], args[1..]))
  }

  function With(a: Arg, l: Option<Line>): Option<Line> {
    match l
    case None => None
    case Some(r) => Some(Line([a] + r.args, r.image, r.command))
  }

  // The values an option was given, in their order.
  function Values(args: seq<Arg>, word: string): seq<string> {
    if args == [] then []
    else (if args[0].word == word then [args[0].value] else []) + Values(args[1..], word)
  }

  // The printed option as it is read.
  function ArgOf(a: Opt): Arg { Arg(Text(a.o), a.value) }

  function ArgsOf(opts: seq<Opt>): seq<Arg> {
    if opts == [] then [] else [ArgOf(opts[0])] + ArgsOf(opts[1..])
  }

  // A printed word is an option, and takes a value as it is printed with one.
  lemma ReadsWord(o: Name)
    ensures StandsAlone(Text(o)) <==> Bare(o)
    ensures !Bare(o) ==> TakesValue(Text(o))
  {
  }

  lemma WordsBeginWithADash(word: string)
    ensures StandsAlone(word) || TakesValue(word) ==> word != "" && word[0] == '-'
  {
  }

  // A flag carries no value.
  ghost predicate BareHaveNone(opts: seq<Opt>) {
    forall i :: 0 <= i < |opts| && Bare(opts[i].o) ==> opts[i].value == ""
  }

  lemma ParsesOne(a: Opt, rest: seq<string>)
    requires Bare(a.o) ==> a.value == ""
    ensures Parse(PrintOne(a) + rest) == With(ArgOf(a), Parse(rest))
  {
    hide Text, StandsAlone, TakesValue, Bare;
    ReadsWord(a.o);
    var args := PrintOne(a) + rest;
    assert args[0] == Text(a.o) && args[|PrintOne(a)|..] == rest;
  }

  // The reader takes what was printed for the options, the image and the command.
  lemma {:induction false} ParsesPrinted(opts: seq<Opt>, image: string, command: seq<string>)
    requires image != "" && image[0] != '-' && BareHaveNone(opts)
    ensures Parse(Print(opts) + [image] + command) == Some(Line(ArgsOf(opts), image, command))
  {
    hide PrintOne, ArgOf, StandsAlone, TakesValue;
    var args := Print(opts) + [image] + command;
    if opts == [] {
      WordsBeginWithADash(image);
      assert args == [image] + command;
      assert args[1..] == command;
    } else {
      var rest := Print(opts[1..]) + [image] + command;
      ParsesPrinted(opts[1..], image, command);
      ParsesOne(opts[0], rest);
      assert args == PrintOne(opts[0]) + rest;
    }
  }

  // What was printed for one option.
  function ValuesOf(opts: seq<Opt>, o: Name): seq<string> {
    if opts == [] then []
    else (if opts[0].o == o then [opts[0].value] else []) + ValuesOf(opts[1..], o)
  }

  lemma {:induction false} ReadsValues(opts: seq<Opt>, o: Name)
    ensures Values(ArgsOf(opts), Text(o)) == ValuesOf(opts, o)
  {
    hide Text;
    if opts != [] {
      ReadsValues(opts[1..], o);
      if opts[0].o != o { TextsDiffer(opts[0].o, o); }
      assert ArgsOf(opts)[1..] == ArgsOf(opts[1..]);
    }
  }

  lemma {:induction false} ValuesAppend(a: seq<Opt>, b: seq<Opt>, o: Name)
    ensures ValuesOf(a + b, o) == ValuesOf(a, o) + ValuesOf(b, o)
  {
    if a == [] {
      assert a + b == b;
    } else {
      assert (a + b)[0] == a[0] && (a + b)[1..] == a[1..] + b;
      ValuesAppend(a[1..], b, o);
    }
  }

  lemma {:induction false} ValuesOfEach(o: Name, values: seq<string>, k: Name)
    ensures ValuesOf(Each(o, values), k) == if k == o then values else []
  {
    if values != [] {
      ValuesOfEach(o, values[1..], k);
      assert values == [values[0]] + values[1..];
    }
  }

  lemma {:induction false} ValuesGiven(e: Engine, n: Spec, devices: seq<Device>, os: seq<Name>, o: Name)
    requires forall i, j :: 0 <= i < j < |os| ==> os[i] != os[j]
    ensures ValuesOf(AllGiven(e, n, devices, os), o) == if o in os then Given(e, n, devices, o) else []
  {
    hide Given;
    if os != [] {
      var first, rest := Each(os[0], Given(e, n, devices, os[0])), AllGiven(e, n, devices, os[1..]);
      ValuesAppend(first, rest, o);
      ValuesOfEach(os[0], Given(e, n, devices, os[0]), o);
      ValuesGiven(e, n, devices, os[1..], o);
    }
  }

  lemma {:induction false} EachBare(o: Name, values: seq<string>)
    requires Bare(o) ==> values == [""]
    ensures BareHaveNone(Each(o, values))
  {
    if !Bare(o) && values != [] { EachBare(o, values[1..]); }
  }

  lemma {:induction false} GivenBare(e: Engine, n: Spec, devices: seq<Device>, os: seq<Name>)
    ensures BareHaveNone(AllGiven(e, n, devices, os))
  {
    if os != [] {
      EachBare(os[0], Given(e, n, devices, os[0]));
      GivenBare(e, n, devices, os[1..]);
    }
  }

  // Every option's values are read back, each option apart.
  lemma ArgsParse(e: Engine, s: Spec, devices: seq<Device>)
    requires ImageOk(s.image)
    ensures var l := Parse(ArgsWith(e, s, devices)[1..]);
            && l.Some? && l.value.image == s.image && l.value.command == Elems(s.command)
            && forall o :: Values(l.value.args, Text(o)) == Given(e, Normalized(s), devices, o)
  {
    hide Given, Print, Parse, Text, NormalPorts, NormalDependencies, NormalHealths;
    var n := Normalized(s);
    var opts := AllGiven(e, n, devices, ORDER);
    GivenBare(e, n, devices, ORDER);
    ParsesPrinted(opts, n.image, Elems(n.command));
    assert ArgsWith(e, s, devices)[1..] == Print(opts) + [n.image] + Elems(n.command);
    forall o ensures Values(ArgsOf(opts), Text(o)) == Given(e, n, devices, o) {
      ReadsValues(opts, o);
      OrderIsComplete(o);
      forall i: nat, j: nat | i < j < |ORDER| ensures ORDER[i] != ORDER[j] { OrderIsDistinct(i, j); }
      ValuesGiven(e, n, devices, ORDER, o);
    }
  }

  // ---- reading the values ----

  // The variables, a later value over an earlier one.
  function ReadEnv(texts: seq<string>): Option<map<string, string>> {
    if texts == [] then Some(map[])
    else
      var k := |texts| - 1;
      match (ReadEnv(texts[..k]), Cut(texts[k], '='))
      case (Some(m), Some(p)) => Some(m[p.0 := p.1])
      case _ => None
  }

  function ReadPort(text: string): Option<Port> {
    match Cut(text, ':')
    case None => None
    case Some(p) =>
      match Cut(p.1, '/')
      case None => None
      case Some(q) =>
        match (ReadNat(p.0), ReadNat(q.0))
        case (Some(h), Some(c)) => if h < 0x1_0000 && c < 0x1_0000 then Some(Port(h, c, q.1)) else None
        case _ => None
  }

  function ReadPorts(texts: seq<string>): Option<seq<Port>> {
    if texts == [] then Some([])
    else
      match (ReadPort(texts[0]), ReadPorts(texts[1..]))
      case (Some(p), Some(ps)) => Some([p] + ps)
      case _ => None
  }

  datatype Mount = Mount(host: string, container: string, readOnly: bool)

  function ReadMount(text: string): Option<Mount> {
    match Cut(text, ':')
    case None => None
    case Some(p) =>
      match Cut(p.1, ':')
      case None => Some(Mount(p.0, p.1, false))
      case Some(q) => if q.1 == "ro" then Some(Mount(p.0, q.0, true)) else None
  }

  function ReadMounts(texts: seq<string>): Option<seq<Mount>> {
    if texts == [] then Some([])
    else
      match (ReadMount(texts[0]), ReadMounts(texts[1..]))
      case (Some(m), Some(ms)) => Some([m] + ms)
      case _ => None
  }

  function ReadDevice(text: string): Option<Device> {
    match CutLast(text, ':')
    case None => None
    case Some(p) =>
      match CutLast(p.0, ':')
      case None => None
      case Some(q) => Some(Device(q.0, q.1, p.1))
  }

  function ReadDevices(texts: seq<string>): Option<seq<Device>> {
    if texts == [] then Some([])
    else
      match (ReadDevice(texts[0]), ReadDevices(texts[1..]))
      case (Some(d), Some(ds)) => Some([d] + ds)
      case _ => None
  }

  function MountsOf(vs: seq<Volume>): seq<Mount> {
    if vs == [] then [] else [Mount(vs[0].host, vs[0].container, vs[0].readOnly)] + MountsOf(vs[1..])
  }

  lemma {:induction false} EnvKeysAppend(env: map<string, string>, a: seq<string>, k: string)
    requires k in env && forall x :: x in a ==> x in env
    ensures EnvTexts(env, a + [k]) == EnvTexts(env, a) + [k + "=" + env[k]]
  {
    if a != [] {
      assert (a + [k])[1..] == a[1..] + [k];
      EnvKeysAppend(env, a[1..], k);
    }
  }

  lemma {:induction false} ReadsEnv(env: map<string, string>, keys: seq<string>)
    requires forall k :: k in keys ==> k in env && '=' !in k
    ensures ReadEnv(EnvTexts(env, keys)) == Some(map k | k in env && k in keys :: env[k])
    decreases |keys|
  {
    if keys != [] {
      var before, k := keys[..|keys| - 1], keys[|keys| - 1];
      ReadsEnv(env, before);
      EnvKeysAppend(env, before, k);
      assert keys == before + [k];
      CutsAt(k, '=', env[k]);
      assert k + "=" + env[k] == k + ['='] + env[k];
      var texts := EnvTexts(env, keys);
      assert texts[..|texts| - 1] == EnvTexts(env, before);
      assert (map x | x in env && x in before :: env[x])[k := env[k]] == map x | x in env && x in keys :: env[x];
    }
  }

  lemma DigitsHoldNo(n: nat, sep: char)
    requires !Digit(sep)
    ensures sep !in Decimal(n)
  {
  }

  lemma ReadsPort(p: Port)
    ensures ReadPort(PortText(p)) == Some(p)
  {
    var rest := Decimal(p.container) + "/" + p.protocol;
    DigitsHoldNo(p.host, ':');
    DigitsHoldNo(p.container, '/');
    CutsAt(Decimal(p.host), ':', rest);
    CutsAt(Decimal(p.container), '/', p.protocol);
    assert PortText(p) == Decimal(p.host) + [':'] + rest;
    assert rest == Decimal(p.container) + ['/'] + p.protocol;
    ReadsDecimal(p.host);
    ReadsDecimal(p.container);
  }

  lemma {:induction false} ReadsPorts(ps: seq<Port>)
    ensures ReadPorts(PortTexts(ps)) == Some(ps)
  {
    hide ReadPort, PortText;
    if ps != [] {
      ReadsPort(ps[0]);
      ReadsPorts(ps[1..]);
      assert PortTexts(ps)[1..] == PortTexts(ps[1..]) && ps == [ps[0]] + ps[1..];
    }
  }

  lemma ReadsMount(v: Volume)
    requires ':' !in v.host && ':' !in v.container
    ensures ReadMount(VolumeText(v)) == Some(Mount(v.host, v.container, v.readOnly))
  {
    var rest := v.container + if v.readOnly then ":ro" else "";
    CutsAt(v.host, ':', rest);
    assert VolumeText(v) == v.host + [':'] + rest;
    if v.readOnly {
      CutsAt(v.container, ':', "ro");
      assert rest == v.container + [':'] + "ro";
    } else {
      CutsNone(v.container, ':');
      assert rest == v.container;
    }
  }

  lemma {:induction false} ReadsMounts(vs: seq<Volume>)
    requires forall i :: 0 <= i < |vs| ==> ':' !in vs[i].host && ':' !in vs[i].container
    ensures ReadMounts(VolumeTexts(vs)) == Some(MountsOf(vs))
  {
    hide ReadMount, VolumeText;
    if vs != [] {
      ReadsMount(vs[0]);
      ReadsMounts(vs[1..]);
      assert VolumeTexts(vs)[1..] == VolumeTexts(vs[1..]);
    }
  }

  lemma ReadsDevice(d: Device)
    requires ':' !in d.container && ':' !in d.permissions
    ensures ReadDevice(DeviceText(d)) == Some(d)
  {
    CutsAtLast(d.host + ":" + d.container, ':', d.permissions);
    CutsAtLast(d.host, ':', d.container);
    assert DeviceText(d) == d.host + ":" + d.container + [':'] + d.permissions;
    assert d.host + ":" + d.container == d.host + [':'] + d.container;
  }

  lemma {:induction false} ReadsDevices(ds: seq<Device>)
    requires forall i :: 0 <= i < |ds| ==> ':' !in ds[i].container && ':' !in ds[i].permissions
    ensures ReadDevices(DeviceTexts(ds)) == Some(ds)
  {
    hide ReadDevice, DeviceText;
    if ds != [] {
      ReadsDevice(ds[0]);
      ReadsDevices(ds[1..]);
      assert DeviceTexts(ds)[1..] == DeviceTexts(ds[1..]) && ds == [ds[0]] + ds[1..];
    }
  }

  // ---- what a container is created as ----

  datatype Check = Check(command: seq<string>, timeout: nat, retries: nat, startPeriod: nat)

  datatype Created = Created(
    detached: bool, replacing: bool, labels: Option<map<string, string>>, restart: string, logDriver: string,
    logOptions: Option<map<string, string>>, healthInterval: string,
    name: string, network: string, aliases: seq<string>, capAdd: seq<string>, capDrop: seq<string>,
    user: string, workingDir: string, entrypoint: seq<string>, environment: map<string, string>,
    publish: seq<Port>, volumes: seq<Mount>, devices: seq<Device>, cgroupRules: seq<string>,
    pids: nat, memory: string, cpu: string, health: Option<Check>, image: string, command: seq<string>)

  function Single(vs: seq<string>): string { if |vs| == 1 then vs[0] else "" }

  // A list of words, read by the inverse of their encoding; none when the option is absent.
  function Words(unjson: string -> Option<seq<string>>, vs: seq<string>): seq<string> {
    if |vs| != 1 then []
    else
      match unjson(vs[0])
      case None => []
      case Some(ws) => ws
  }

  function Number(s: string): nat {
    match ReadNat(s)
    case None => 0
    case Some(n) => n
  }

  function Seconds(s: string): nat { if s == "" then 0 else Number(s[..|s| - 1]) }

  function Read(unjson: string -> Option<seq<string>>, args: seq<string>): Option<Created> {
    if args == [] || args[0] != "run" then None
    else
      match Parse(args[1..])
      case None => None
      case Some(l) =>
        match (ReadEnv(Values(l.args, "--env")), ReadPorts(Values(l.args, "--publish")),
               ReadMounts(Values(l.args, "--volume")), ReadDevices(Values(l.args, "--device")))
        case (Some(env), Some(ports), Some(mounts), Some(devices)) =>
          Some(Created(
                 Values(l.args, "--detach") != [], Values(l.args, "--replace") != [],
                 ReadEnv(Values(l.args, "--label")), Single(Values(l.args, "--restart")),
                 Single(Values(l.args, "--log-driver")), ReadEnv(Values(l.args, "--log-opt")),
                 Single(Values(l.args, "--health-interval")),
                 Single(Values(l.args, "--name")), Single(Values(l.args, "--network")),
                 Values(l.args, "--network-alias"), Values(l.args, "--cap-add"), Values(l.args, "--cap-drop"),
                 Single(Values(l.args, "--user")), Single(Values(l.args, "--workdir")),
                 Words(unjson, Values(l.args, "--entrypoint")),
                 env, ports, mounts, devices, Values(l.args, "--device-cgroup-rule"),
                 Number(Single(Values(l.args, "--pids-limit"))), Single(Values(l.args, "--memory")),
                 Single(Values(l.args, "--cpus")),
                 ReadCheck(unjson, l.args), l.image, l.command))
        case _ => None
  }

  function ReadCheck(unjson: string -> Option<seq<string>>, opts: seq<Arg>): Option<Check> {
    if Values(opts, "--health-cmd") == [] then None
    else Some(Check(Words(unjson, Values(opts, "--health-cmd")), Seconds(Single(Values(opts, "--health-timeout"))),
                    Number(Single(Values(opts, "--health-retries"))),
                    Seconds(Single(Values(opts, "--health-start-period")))))
  }

  // The file a container logs to, in a clean directory.
  function LogFile(dir: string, name: string): string {
    (if dir == "" || dir == "/" then dir else dir + "/") + name + ".log"
  }

  // What a normalized spec declares of the container, the host links of devices resolved, and
  // what every container has: it is run apart from its caller, in place of one of its name, with
  // the labels of the supervisor and no policy or timer of podman's own.
  function CreatedFrom(e: Engine, n: Spec, devices: seq<Device>): Created
    requires n.limits.pids >= 0 && HealthOk(n.health)
  {
    Created(true, true,
            Some(map["mica.containerd" := "1", "mica.containerd.spec" := e.hash(RuntimeOf(n))]
                 ["mica.containerd.project" := n.project]),
            "no", "k8s-file", Some(map["path" := LogFile(e.logDir, n.name), "max-size" := e.logMaxSize]),
            if n.health.None? then "" else "disable",
            n.name, if n.networkMode != "" then n.networkMode else n.network,
            Elems(n.aliases), Elems(n.capAdd), Elems(n.capDrop),
            n.user, n.workingDir, Elems(n.entrypoint), Env(n.environment),
            Elems(n.publish), MountsOf(Elems(n.volumes)), devices, Elems(n.cgroupRules),
            n.limits.pids, n.limits.memory, n.limits.cpu,
            if n.health.None? then None
            else Some(Check(Elems(n.health.value.command), n.health.value.timeout, n.health.value.retries,
              n.health.value.startPeriod)),
            n.image, Elems(n.command))
  }

  // The devices of a spec with other host paths.
  ghost predicate Resolves(devices: seq<Device>, s: Spec) {
    && |devices| == |Elems(s.devices)|
    && forall i :: 0 <= i < |devices| ==> devices[i] == Elems(s.devices)[i].(host := devices[i].host)
  }

  lemma ReadsNumber(n: nat)
    ensures Number(FormatInt(n)) == n && Seconds(FormatInt(n) + "s") == n && FormatInt(n) != "" && Number("") == 0
  {
    ReadsDecimal(n);
    var s := FormatInt(n) + "s";
    assert s[..|s| - 1] == FormatInt(n);
  }

  // What the reader finds under a word is what was given for the option that prints it.
  lemma ReadsAs(e: Engine, n: Spec, devices: seq<Device>, args: seq<Arg>, o: Name, word: string)
    requires forall k :: Values(args, Text(k)) == Given(e, n, devices, k)
    requires Text(o) == word
    ensures Values(args, word) == Given(e, n, devices, o)
  {
    hide Given, Values, Text;
    assert Values(args, Text(o)) == Given(e, n, devices, o);
  }

  lemma ReadsLimits(e: Engine, n: Spec, devices: seq<Device>, opts: seq<Arg>, unjson: string -> Option<seq<string>>)
    requires forall o :: Values(opts, Text(o)) == Given(e, n, devices, o)
    requires forall ws :: unjson(e.json(ws)) == Some(ws)
    requires n.limits.pids >= 0
    ensures Number(Single(Values(opts, "--pids-limit"))) == n.limits.pids
    ensures Words(unjson, Values(opts, "--entrypoint")) == Elems(n.entrypoint)
  {
    hide PortTexts, VolumeTexts, DeviceTexts, EnvTexts, Values, FormatInt, Number, Seconds;
    ReadsAs(e, n, devices, opts, PidsLimit, "--pids-limit");
    ReadsAs(e, n, devices, opts, Entrypoint, "--entrypoint");
    ReadsNumber(n.limits.pids);
  }

  lemma ReadsCheck(e: Engine, n: Spec, devices: seq<Device>, opts: seq<Arg>, unjson: string -> Option<seq<string>>)
    requires forall o :: Values(opts, Text(o)) == Given(e, n, devices, o)
    requires forall ws :: unjson(e.json(ws)) == Some(ws)
    requires n.limits.pids >= 0 && HealthOk(n.health)
    ensures ReadCheck(unjson, opts) == CreatedFrom(e, n, devices).health
  {
    hide PortTexts, VolumeTexts, DeviceTexts, EnvTexts, Values, FormatInt, Number, Seconds;
    ReadsAs(e, n, devices, opts, HealthCmd, "--health-cmd");
    ReadsAs(e, n, devices, opts, HealthTimeout, "--health-timeout");
    ReadsAs(e, n, devices, opts, HealthRetries, "--health-retries");
    ReadsAs(e, n, devices, opts, HealthStart, "--health-start-period");
    if n.health.Some? {
      var h := n.health.value;
      ReadsNumber(h.timeout);
      ReadsNumber(h.retries);
      ReadsNumber(h.startPeriod);
    }
  }

  lemma ReadsName(e: Engine, n: Spec, devices: seq<Device>, opts: seq<Arg>)
    requires forall o :: Values(opts, Text(o)) == Given(e, n, devices, o)
    ensures Single(Values(opts, "--name")) == n.name
    ensures Single(Values(opts, "--network")) == if n.networkMode != "" then n.networkMode else n.network
  {
    hide PortTexts, VolumeTexts, DeviceTexts, EnvTexts, Values, FormatInt;
    ReadsAs(e, n, devices, opts, NameOf, "--name");
    ReadsAs(e, n, devices, opts, Network, "--network");
  }

  // What every container has.
  lemma ReadsFixed(e: Engine, n: Spec, devices: seq<Device>, opts: seq<Arg>)
    requires forall o :: Values(opts, Text(o)) == Given(e, n, devices, o)
    ensures Single(Values(opts, "--restart")) == "no" && Single(Values(opts, "--log-driver")) == "k8s-file"
    ensures Single(Values(opts, "--health-interval")) == if n.health.None? then "" else "disable"
    ensures Values(opts, "--label") ==
            ["mica.containerd" + "=" + "1", "mica.containerd.spec" + "=" + e.hash(RuntimeOf(n)),
             "mica.containerd.project" + "=" + n.project]
    ensures Values(opts, "--log-opt") == ["path" + "=" + LogFile(e.logDir, n.name), "max-size" + "=" + e.logMaxSize]
    ensures Values(opts, "--detach") != [] && Values(opts, "--replace") != []
  {
    hide PortTexts, VolumeTexts, DeviceTexts, EnvTexts, Values, FormatInt;
    ReadsAs(e, n, devices, opts, RestartOption, "--restart");
    ReadsAs(e, n, devices, opts, LogDriver, "--log-driver");
    ReadsAs(e, n, devices, opts, HealthInterval, "--health-interval");
    ReadsAs(e, n, devices, opts, Label, "--label");
    ReadsAs(e, n, devices, opts, LogOpt, "--log-opt");
    ReadsAs(e, n, devices, opts, Detach, "--detach");
    ReadsAs(e, n, devices, opts, Replace, "--replace");
    LogsInto(e, n.name);
    assert "mica.containerd" + "=" + "1" == "mica.containerd" + "=1";
    assert "path" + "=" + LogFile(e.logDir, n.name) == "path=" + LogFile(e.logDir, n.name);
    assert "max-size" + "=" + e.logMaxSize == "max-size=" + e.logMaxSize;
  }

  lemma LogsInto(e: Engine, name: string)
    ensures LogPath(e, name) == LogFile(e.logDir, name)
  {
    if e.logDir != "" && e.logDir != "/" {
      assert e.logDir + "/" + (name + ".log") == e.logDir + "/" + name + ".log";
    } else {
      assert e.logDir + (name + ".log") == e.logDir + name + ".log";
    }
  }

  // Labels and log options, as the maps they are.
  lemma ReadsPairs(a: string, va: string, b: string, vb: string)
    requires '=' !in a && '=' !in b
    ensures ReadEnv([a + "=" + va, b + "=" + vb]) == Some(map[a := va, b := vb])
  {
    CutsAt(a, '=', va);
    CutsAt(b, '=', vb);
    var x, y := a + "=" + va, b + "=" + vb;
    assert x == a + ['='] + va && y == b + ['='] + vb;
    assert [x, y][..1] == [x] && [x][..0] == [];
    assert ReadEnv([x]) == Some(map[a := va]);
  }

  lemma ReadsThree(a: string, va: string, b: string, vb: string, c: string, vc: string)
    requires '=' !in a && '=' !in b && '=' !in c
    ensures ReadEnv([a + "=" + va, b + "=" + vb, c + "=" + vc]) == Some(map[a := va, b := vb][c := vc])
  {
    ReadsPairs(a, va, b, vb);
    CutsAt(c, '=', vc);
    var x, y, z := a + "=" + va, b + "=" + vb, c + "=" + vc;
    assert z == c + ['='] + vc;
    assert [x, y, z][..2] == [x, y];
    hide Cut;
  }

  lemma ReadsLabels(hash: string, project: string)
    ensures ReadEnv(["mica.containerd" + "=" + "1", "mica.containerd.spec" + "=" + hash,
                     "mica.containerd.project" + "=" + project]) ==
            Some(map["mica.containerd" := "1", "mica.containerd.spec" := hash]["mica.containerd.project" := project])
  {
    hide ReadEnv;
    ReadsThree("mica.containerd", "1", "mica.containerd.spec", hash, "mica.containerd.project", project);
  }

  lemma ReadsUser(e: Engine, n: Spec, devices: seq<Device>, opts: seq<Arg>)
    requires forall o :: Values(opts, Text(o)) == Given(e, n, devices, o)
    ensures Single(Values(opts, "--user")) == n.user && Single(Values(opts, "--workdir")) == n.workingDir
  {
    hide PortTexts, VolumeTexts, DeviceTexts, EnvTexts, Values, FormatInt;
    ReadsAs(e, n, devices, opts, User, "--user");
    ReadsAs(e, n, devices, opts, Workdir, "--workdir");
  }

  lemma ReadsAmounts(e: Engine, n: Spec, devices: seq<Device>, opts: seq<Arg>)
    requires forall o :: Values(opts, Text(o)) == Given(e, n, devices, o)
    ensures Single(Values(opts, "--memory")) == n.limits.memory && Single(Values(opts, "--cpus")) == n.limits.cpu
  {
    hide PortTexts, VolumeTexts, DeviceTexts, EnvTexts, Values, FormatInt;
    ReadsAs(e, n, devices, opts, Memory, "--memory");
    ReadsAs(e, n, devices, opts, Cpus, "--cpus");
  }

  lemma ReadsLists(e: Engine, n: Spec, devices: seq<Device>, opts: seq<Arg>)
    requires forall o :: Values(opts, Text(o)) == Given(e, n, devices, o)
    ensures Values(opts, "--network-alias") == Elems(n.aliases) && Values(opts, "--cap-add") == Elems(n.capAdd)
    ensures Values(opts, "--cap-drop") == Elems(n.capDrop)
    ensures Values(opts, "--device-cgroup-rule") == Elems(n.cgroupRules)
  {
    hide PortTexts, VolumeTexts, DeviceTexts, EnvTexts, Values, FormatInt;
    ReadsAs(e, n, devices, opts, Alias, "--network-alias");
    ReadsAs(e, n, devices, opts, CapAdd, "--cap-add");
    ReadsAs(e, n, devices, opts, CapDrop, "--cap-drop");
    ReadsAs(e, n, devices, opts, CgroupRule, "--device-cgroup-rule");
  }

  lemma ReadsMaps(e: Engine, n: Spec, devices: seq<Device>, opts: seq<Arg>)
    requires forall o :: Values(opts, Text(o)) == Given(e, n, devices, o)
    requires Broken(n).None? && Resolves(devices, n)
    ensures ReadPorts(Values(opts, "--publish")) == Some(Elems(n.publish))
    ensures ReadDevices(Values(opts, "--device")) == Some(devices)
    ensures ReadMounts(Values(opts, "--volume")) == Some(MountsOf(Elems(n.volumes)))
    ensures ReadEnv(Values(opts, "--env")) == Some(Env(n.environment))
  {
    hide PortTexts, VolumeTexts, DeviceTexts, EnvTexts, Values, FormatInt, ReadPorts, ReadDevices, ReadMounts, ReadEnv,
         MountsOf, Broken, ImageOk, HealthOk;
    ValidHoldsNoColon(n, devices);
    ReadsAs(e, n, devices, opts, Publish, "--publish");
    ReadsAs(e, n, devices, opts, DeviceOption, "--device");
    ReadsAs(e, n, devices, opts, VolumeOption, "--volume");
    ReadsAs(e, n, devices, opts, EnvOption, "--env");
    var env := Env(n.environment);
    ReadsEnv(env, SortedKeys(env.Keys));
    assert (map k | k in env && k in SortedKeys(env.Keys) :: env[k]) == env;
    ReadsPorts(Elems(n.publish));
    ReadsMounts(Elems(n.volumes));
    ReadsDevices(devices);
  }

  lemma ValidHoldsNoColon(n: Spec, devices: seq<Device>)
    requires Broken(n).None? && Resolves(devices, n)
    ensures forall i :: 0 <= i < |Elems(n.volumes)| ==>
            ':' !in Elems(n.volumes)[i].host && ':' !in Elems(n.volumes)[i].container
    ensures forall i :: 0 <= i < |devices| ==> ':' !in devices[i].container && ':' !in devices[i].permissions
    ensures forall k :: k in Env(n.environment) ==> '=' !in k
    ensures ImageOk(n.image) && n.limits.pids >= 0 && HealthOk(n.health)
  {
  }

  // Of every valid spec, the reader recovers from the arguments what was declared: no value
  // is split, joined or taken for an option.
  lemma ArgsReadBack(e: Engine, unjson: string -> Option<seq<string>>, s: Spec, devices: seq<Device>)
    requires Valid(s) && Resolves(devices, s)
    requires forall ws :: unjson(e.json(ws)) == Some(ws)
    ensures Normalized(s).limits.pids >= 0 && HealthOk(Normalized(s).health)
    ensures Read(unjson, ArgsWith(e, s, devices)) == Some(CreatedFrom(e, Normalized(s), devices))
  {
    hide Given, Broken, NormalPorts, NormalDependencies, NormalHealths, Parse, Values, LogFile, Text, Seconds, Number,
         Single, RuntimeOf, ImageOk, HealthOk, ReadCheck, ReadEnv, ReadPorts, ReadMounts, ReadDevices, Words,
         EnvTexts, PortTexts, VolumeTexts, DeviceTexts, MountsOf, ReadNat, AllGiven, Print;
    var n := Normalized(s);
    ValidHoldsNoColon(n, devices);
    ArgsParse(e, s, devices);
    var opts := Parse(ArgsWith(e, s, devices)[1..]).value.args;
    ReadsLimits(e, n, devices, opts, unjson);
    ReadsCheck(e, n, devices, opts, unjson);
    ReadsName(e, n, devices, opts);
    ReadsFixed(e, n, devices, opts);
    ReadsLabels(e.hash(RuntimeOf(n)), n.project);
    ReadsPairs("path", LogFile(e.logDir, n.name), "max-size", e.logMaxSize);
    ReadsUser(e, n, devices, opts);
    ReadsAmounts(e, n, devices, opts);
    ReadsLists(e, n, devices, opts);
    ReadsMaps(e, n, devices, opts);
  }

  // ---- what the arguments tell apart ----

  // Two specs of the same name and the same hash give the same arguments, and two that give
  // the same arguments, their images no options, have the same name and hash: the hash is a
  // complete key of what podman is told.
  lemma HashIsACompleteKey(e: Engine, a: Spec, b: Spec)
    requires forall x, y :: e.hash(x) == e.hash(y) ==> x == y
    ensures a.name == b.name && e.hash(Digest(a)) == e.hash(Digest(b)) ==> RunArgs(e, a) == RunArgs(e, b)
    ensures ImageOk(a.image) && ImageOk(b.image) && RunArgs(e, a) == RunArgs(e, b) ==>
              a.name == b.name && e.hash(Digest(a)) == e.hash(Digest(b))
  {
    hide Given, Parse, AllGiven, Print, NormalPorts, NormalDependencies;
    if a.name == b.name && Digest(a) == Digest(b) {
      EqualGiven(e, Normalized(a), Normalized(b), Elems(a.devices), ORDER);
    } else if ImageOk(a.image) && ImageOk(b.image) && RunArgs(e, a) == RunArgs(e, b) {
      ArgsParse(e, a, Elems(a.devices));
      ArgsParse(e, b, Elems(b.devices));
      LabelsGiven(e, Normalized(a), Elems(a.devices));
      LabelsGiven(e, Normalized(b), Elems(b.devices));
      var opts := Parse(RunArgs(e, a)[1..]).value.args;
      assert Values(opts, "--label") == Given(e, Normalized(a), Elems(a.devices), Label);
      assert Values(opts, "--name") == Given(e, Normalized(a), Elems(a.devices), NameOf);
      LabelTail(e.hash(Digest(a)), e.hash(Digest(b)));
    }
  }

  lemma LabelsGiven(e: Engine, n: Spec, devices: seq<Device>)
    ensures Given(e, n, devices, NameOf) == [n.name]
    ensures |Given(e, n, devices, Label)| == 3 && Given(e, n, devices, Label)[1] == SPEC + "=" + e.hash(RuntimeOf(n))
  {
  }

  lemma LabelTail(a: string, b: string)
    requires SPEC + "=" + a == SPEC + "=" + b
    ensures a == b
  {
    var k := |SPEC + "="|;
    assert (SPEC + "=" + a)[k..] == a && (SPEC + "=" + b)[k..] == b;
  }

  lemma {:induction false} EqualGiven(e: Engine, a: Spec, b: Spec, devices: seq<Device>, os: seq<Name>)
    requires a.name == b.name && RuntimeOf(a) == RuntimeOf(b)
    ensures AllGiven(e, a, devices, os) == AllGiven(e, b, devices, os)
  {
    if os != [] {
      assert Given(e, a, devices, os[0]) == Given(e, b, devices, os[0]);
      EqualGiven(e, a, b, devices, os[1..]);
    }
  }

  const BARE_SPEC := Spec("web", "shop", "web", "img", Nil, "", "", Nil, None, Nil, Nil, "", Nil, "", Nil, Nil, Nil,
    Nil,
                          Limits(0, "", ""), Restart(PolicyUnset, 0), None, Nil)

  lemma NamesAreValid()
    ensures ValidName("web") && ValidName("shop") && ValidName("host") && ImageOk("img")
  {
  }

  // A network named host is a valid network, and its container is told to use the host's.
  lemma ANetworkNamedHost()
    ensures var a, b := BARE_SPEC.(network := "host"), BARE_SPEC.(networkMode := "host");
            && Valid(a) && Valid(b) && a.networkMode != b.networkMode
            && forall e: Engine, o | o != Label :: Given(e, Normalized(a), [], o) == Given(e, Normalized(b), [], o)
  {
    var a, b := Normalized(BARE_SPEC.(network := "host")), Normalized(BARE_SPEC.(networkMode := "host"));
    NamesAreValid();
    assert NetworkOk(a) && NetworkOk(b);
  }

  // The mode a --network value stands for, host and none being modes.
  function ModeRead(network: string): string {
    if network == "host" || network == "none" then network else ""
  }

  // A valid spec's network mode is read back exactly when its network is not named after one.
  lemma ModeReadBack(s: Spec)
    requires Valid(s)
    ensures var network := if s.networkMode != "" then s.networkMode else s.network;
            ModeRead(network) == s.networkMode <==> s.networkMode != "" || (s.network != "host" && s.network != "none")
  {
  }
}
