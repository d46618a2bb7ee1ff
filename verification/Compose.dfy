// From the services of a Compose file, parsed and interpolated, to the specs of their
// containers: naming, dependencies, limits, and the loops that collect them
// (internal/compose/compose.go).
module Compose {
  import opened Basics
  import opened Specs
  import opened Decimals
  import opened Rules
  import Projects

  // ---- names ----

  predicate ServiceChar(c: char) { Lower(c) || Digit(c) || c == '_' || c == '-' }

  predicate Label(s: string, most: nat) {
    1 <= |s| <= most && (Lower(s[0]) || Digit(s[0])) && forall i :: 0 <= i < |s| ==> ServiceChar(s[i])
  }

  predicate ValidProject(s: string) { Label(s, 40) }
  predicate ValidService(s: string) { Label(s, 20) }

  // ^[a-z0-9][a-z0-9_-]{0,39}$
  const PROJECT := Then(
    Chars(c => 'a' <= c <= 'z' || '0' <= c <= '9', 1, Some(1)),
    Chars(c => 'a' <= c <= 'z' || '0' <= c <= '9' || c == '_' || c == '-', 0, Some(39)))

  // ^[a-z0-9][a-z0-9_-]{0,19}$
  const SERVICE := Then(
    Chars(c => 'a' <= c <= 'z' || '0' <= c <= '9', 1, Some(1)),
    Chars(c => 'a' <= c <= 'z' || '0' <= c <= '9' || c == '_' || c == '-', 0, Some(19)))

  lemma LabelsIff(s: string)
    ensures ValidProject(s) <==> Matches(PROJECT, s)
    ensures ValidService(s) <==> Matches(SERVICE, s)
  {
    HeadAndAll(PROJECT.first.of, PROJECT.next.of, 0, Some(39), s);
    HeadAndAll(SERVICE.first.of, SERVICE.next.of, 0, Some(19), s);
  }

  function ContainerName(project: string, service: string): string { project + "-" + service + "-1" }
  function NetworkName(project: string): string { project + "_default" }

  // The default names of a project's containers and of its network are valid.
  lemma DefaultNamesAreValid(project: string, service: string)
    requires ValidProject(project) && ValidService(service)
    ensures ValidName(project + "-" + service + "-1") && ValidName(project + "_default") && ValidName(service)
  {
    var n, p := ContainerName(project, service), NetworkName(project);
    forall i | 0 <= i < |n| ensures NameChar(n[i]) {
      if |project| < i < |project| + 1 + |service| { assert n[i] == service[i - |project| - 1]; }
    }
    forall i | 0 <= i < |p| ensures NameChar(p[i]) {
      if i >= |project| { assert p[i] == "_default"[i - |project|]; }
    }
  }

  // One project's name continues the other's after a dash, and what it adds begins the service.
  predicate Continues(p: string, a: string, q: string, b: string) {
    p + "-" <= q && a == q[|p| + 1..] + "-" + b
  }

  // Exactly when two services share a default name: they are one service of one project, or the
  // project of one continues that of the other by what the other service begins with.
  lemma DefaultNamesCollideIff(p: string, a: string, q: string, b: string)
    ensures ContainerName(p, a) == ContainerName(q, b) <==>
            (p == q && a == b) || Continues(p, a, q, b) || Continues(q, b, p, a)
  {
    if |p| <= |q| { CollidesBelow(p, a, q, b); } else { CollidesBelow(q, b, p, a); }
  }

  lemma CollidesBelow(p: string, a: string, q: string, b: string)
    requires |p| <= |q|
    ensures ContainerName(p, a) == ContainerName(q, b) <==> (p == q && a == b) || Continues(p, a, q, b)
  {
    var n, m, k := ContainerName(p, a), ContainerName(q, b), |p| + 1;
    assert n[..|p|] == p && n[k..|n| - 2] == a && n[|p|] == '-';
    assert m[..|q|] == q && m[|q| + 1..|m| - 2] == b && m[|q|] == '-';
    if n == m && |p| < |q| {
      assert q == m[..k] + m[k..|q|] && n[..k] == p + "-" && q[k..] == m[k..|q|];
      assert a == m[k..|q|] + [m[|q|]] + m[|q| + 1..|m| - 2];
    }
    if Continues(p, a, q, b) {
      assert q == p + "-" + q[k..];
      assert n == p + "-" + (q[k..] + "-" + b) + "-1" == (p + "-" + q[k..]) + "-" + b + "-1";
    }
  }

  // Within a project two services never share a default name.
  lemma DefaultNamesDiffer(project: string, a: string, b: string)
    requires ContainerName(project, a) == ContainerName(project, b)
    ensures a == b
  {
    DefaultNamesCollideIff(project, a, project, b);
  }

  // Across projects they can.
  lemma DefaultNamesCollide()
    ensures Continues("a", "b-c", "a-b", "c") && ContainerName("a", "b-c") == ContainerName("a-b", "c")
    ensures ValidProject("a") && ValidService("b-c") && ValidProject("a-b") && ValidService("c")
  {
    DefaultNamesCollideIff("a", "b-c", "a-b", "c");
  }

  // ---- limits ----

  const KIB := 1024
  const MIB := 1024 * 1024
  const GIB := 1024 * 1024 * 1024

  // A count of bytes in the largest unit that divides it; none when none does.
  function MemoryText(bytes: int): Option<string> {
    if bytes <= 0 then Some("")
    else if bytes % GIB == 0 then Some(Decimal(bytes / GIB) + "g")
    else if bytes % MIB == 0 then Some(Decimal(bytes / MIB) + "m")
    else if bytes % KIB == 0 then Some(Decimal(bytes / KIB) + "k")
    else None
  }

  function Unit(c: char): Option<int> {
    if c == 'k' then Some(KIB) else if c == 'm' then Some(MIB) else if c == 'g' then Some(GIB) else None
  }

  // The count a text names, read by its unit.
  function ReadMemory(s: string): Option<int> {
    if s == "" then None
    else
      match (ReadNat(s[..|s| - 1]), Unit(s[|s| - 1]))
      case (Some(n), Some(u)) => Some(n * u)
      case _ => None
  }

  // Every positive count that is a whole number of KiB is written so that it reads back the
  // same, in a form a spec may carry, in the largest unit; every other is refused.
  lemma MemoryIsExact(bytes: int)
    requires bytes > 0
    ensures MemoryText(bytes).Some? <==> bytes % KIB == 0
    ensures MemoryText(bytes).Some? ==>
              var t := MemoryText(bytes).value;
              && ReadMemory(t) == Some(bytes) && ValidMemory(t)
              && forall c :: Unit(c).Some? && bytes % Unit(c).value == 0 ==> Unit(c).value <= Unit(t[|t| - 1]).value
  {
    hide Decimal, ReadMemory, ValidMemory;
    WholeKib(bytes);
    if bytes % GIB == 0 {
      UnitReads(bytes / GIB, 'g', GIB);
    } else if bytes % MIB == 0 {
      UnitReads(bytes / MIB, 'm', MIB);
    } else if bytes % KIB == 0 {
      UnitReads(bytes / KIB, 'k', KIB);
    }
    forall c | Unit(c).Some? ensures Unit(c).value == KIB || Unit(c).value == MIB || Unit(c).value == GIB {}
  }

  lemma WholeKib(bytes: int)
    requires bytes > 0
    ensures bytes % MIB == 0 ==> bytes % KIB == 0
    ensures bytes % GIB == 0 ==> bytes % KIB == 0 && bytes % MIB == 0
  {
    if bytes % MIB == 0 { assert bytes == KIB * (1024 * (bytes / MIB)); }
    if bytes % GIB == 0 { assert bytes == MIB * (1024 * (bytes / GIB)); }
  }

  lemma UnitReads(n: nat, c: char, unit: int)
    requires n > 0 && Unit(c) == Some(unit)
    ensures var t := Decimal(n) + [c];
            ReadMemory(t) == Some(n * unit) && ValidMemory(t) && t[|t| - 1] == c
  {
    var t := Decimal(n) + [c];
    assert t[..|t| - 1] == Decimal(n);
    ReadsDecimal(n);
  }

  // ---- services ----

  datatype Condition = ConditionUnset | ConditionStarted | ConditionHealthy | ConditionOther(text: string)
  datatype DependsOn = DependsOn(condition: Condition, required: bool, restart: bool)
  datatype Deploy = Deploy(replicas: Option<int>, limits: Option<Reserved>)
  datatype Reserved = Reserved(memory: int, pids: int)

  // A service as the parser gives it. The fields this translation leaves to single checks are
  // in draft, with the problems those found.
  datatype Service = Service(
    containerName: string, networkMode: string, dependsOn: map<string, DependsOn>,
    memLimit: int, pidsLimit: int, deploy: Option<Deploy>, draft: Spec, found: seq<Problem>)

  datatype Problem = Problem(service: string, field: string)

  function Max(a: int, b: int): int { if a < b then b else a }

  function MemoryOf(svc: Service): int {
    if svc.deploy.Some? && svc.deploy.value.limits.Some? then Max(svc.memLimit, svc.deploy.value.limits.value.memory)
    else svc.memLimit
  }

  function PidsOf(svc: Service): int {
    if svc.deploy.Some? && svc.deploy.value.limits.Some? then Max(svc.pidsLimit, svc.deploy.value.limits.value.pids)
    else svc.pidsLimit
  }

  predicate OneReplica(svc: Service) {
    svc.deploy.Some? && svc.deploy.value.replicas.Some? ==> svc.deploy.value.replicas.value == 1
  }

  predicate LimitsFine(svc: Service) {
    OneReplica(svc) && PidsOf(svc) >= 0 && MemoryText(MemoryOf(svc)).Some?
  }

  function LimitsOf(svc: Service): Limits {
    var text := MemoryText(MemoryOf(svc));
    Limits(Max(PidsOf(svc), 0), if text.Some? then text.value else "", svc.draft.limits.cpu)
  }

  function Named(project: string, name: string, svc: Service): string {
    if svc.containerName != "" then svc.containerName else ContainerName(project, name)
  }

  // The containers of the services, "" for one that is none.
  function NameIn(names: map<string, string>, service: string): string {
    if service in names then names[service] else ""
  }

  predicate DependsFine(d: DependsOn) { !d.condition.ConditionOther? && d.required && !d.restart }

  lemma DependsFineIs(d: DependsOn)
    ensures DependsFine(d) <==>
            && (d.condition == ConditionUnset || d.condition == ConditionStarted || d.condition == ConditionHealthy)
            && d.required && !d.restart
    ensures ReadyOf(d) == if d.condition == ConditionHealthy then ReadyHealthy else ReadyRunning
  {
  }

  ghost predicate DepsFine(deps: map<string, DependsOn>) {
    forall d :: d in deps ==> DependsFine(deps[d])
  }

  function ReadyOf(d: DependsOn): Ready { if d.condition.ConditionHealthy? then ReadyHealthy else ReadyRunning }

  function DepsOf(names: map<string, string>, deps: map<string, DependsOn>, keys: seq<string>): seq<Dependency>
    requires forall k :: k in keys ==> k in deps
  {
    if keys == [] then []
    else [Dependency(NameIn(names, keys[0]), ReadyOf(deps[keys[0]]))] + DepsOf(names, deps, keys[1..])
  }

  predicate ModeFine(mode: string) { mode == "" || mode == "host" || mode == "none" }

  ghost function SpecOf(project: string, names: map<string, string>, name: string, svc: Service): Spec {
    svc.draft.(
    name := NameIn(names, name), project := project, service := name,
    network := if svc.networkMode == "" then NetworkName(project) else "",
    aliases := if svc.networkMode == "" then Items([name]) else Nil,
    networkMode := if ModeFine(svc.networkMode) then svc.networkMode else "",
    limits := LimitsOf(svc),
    dependsOn := Omitted(DepsOf(names, svc.dependsOn, SortedKeys(svc.dependsOn.Keys))))
  }

  ghost predicate ServiceFine(project: string, names: map<string, string>, name: string, svc: Service) {
    && svc.found == [] && ModeFine(svc.networkMode) && LimitsFine(svc)
    && DepsFine(svc.dependsOn)
    && Valid(SpecOf(project, names, name, svc))
  }

  // The services of a file; none where the parser names one it cannot give.
  type Services = map<string, Option<Service>>

  predicate Given(services: Services, s: string) { s in services && services[s].Some? }

  // The containers' names, service by service, among the given services.
  function NamesAmong(project: string, services: Services, keys: seq<string>): map<string, string> {
    map s | s in keys && Given(services, s) :: Named(project, s, services[s].value)
  }

  function NamesOf(project: string, services: Services): map<string, string> {
    map s | s in services && Given(services, s) :: Named(project, s, services[s].value)
  }

  predicate NameFine(svc: Service) { svc.containerName != "" ==> ValidName(svc.containerName) }

  // Chosen names are valid, and no two services share one.
  ghost predicate NamesFine(project: string, services: Services, keys: seq<string>) {
    && (forall s :: s in keys && Given(services, s) ==> NameFine(services[s].value))
    && (forall s, t :: s in keys && t in keys && Given(services, s) && Given(services, t) && s != t ==>
          Named(project, s, services[s].value) != Named(project, t, services[t].value))
  }

  ghost predicate AllServicesFine(project: string, names: map<string, string>, services: Services, keys: seq<string>) {
    forall s :: s in keys ==> Given(services, s) && ServiceFine(project, names, s, services[s].value)
  }

  ghost function SpecsOf(project: string, names: map<string, string>, services: Services,
                         keys: seq<string>): seq<Spec> {
    if keys == [] then []
    else if Given(services, keys[0]) then
      [SpecOf(project, names, keys[0], services[keys[0]].value)] + SpecsOf(project, names, services, keys[1..])
    else SpecsOf(project, names, services, keys[1..])
  }

  // What the loops accept: every service given, named apart, and fine.
  ghost predicate Accepted(project: string, dir: string, services: Services) {
    var keys := SortedKeys(services.Keys);
    && ValidProject(project) && CleanAbs(dir)
    && NamesFine(project, services, keys)
    && AllServicesFine(project, NamesOf(project, services), services, keys)
  }

  // ---- what a service becomes ----

  // The container of a service, by its chosen name or as compose names it; none of no service.
  function Called(project: string, services: Services, s: string): string {
    if !Given(services, s) then ""
    else if services[s].value.containerName != "" then services[s].value.containerName
    else project + "-" + s + "-1"
  }

  // A count of bytes as text: none for no limit, or a number of the largest unit that divides it.
  predicate BytesAs(bytes: int, text: string) {
    if bytes <= 0 then text == ""
    else if bytes % 1_073_741_824 == 0 then text == Decimal(bytes / 1_073_741_824) + "g"
    else if bytes % 1_048_576 == 0 then text == Decimal(bytes / 1_048_576) + "m"
    else bytes % 1024 == 0 && text == Decimal(bytes / 1024) + "k"
  }

  // The limit in force: a service's own, or the one it is deployed with where that is greater.
  predicate InForce(n: int, own: int, deployed: Option<int>) {
    && n >= own && (deployed.Some? ==> n >= deployed.value)
    && (n == own || deployed == Some(n))
  }

  function DeployedMemory(svc: Service): Option<int> {
    if svc.deploy.Some? && svc.deploy.value.limits.Some? then Some(svc.deploy.value.limits.value.memory) else None
  }

  function DeployedPids(svc: Service): Option<int> {
    if svc.deploy.Some? && svc.deploy.value.limits.Some? then Some(svc.deploy.value.limits.value.pids) else None
  }

  // What the spec of a service carries: its names, its network with its own name on it or a mode,
  // one dependency for each key of depends_on in their order, on that service's container, ready
  // when healthy exactly where that is the condition; and its limits. The rest is as the single
  // checks left it.
  ghost predicate Renders(project: string, services: Services, s: string, sp: Spec)
    requires Given(services, s)
  {
    var svc := services[s].value;
    var keys, deps := SortedKeys(svc.dependsOn.Keys), Elems(sp.dependsOn);
    && sp.name == Called(project, services, s) && sp.project == project && sp.service == s
    && (if svc.networkMode == "" then
          sp.network == project + "_default" && sp.aliases == Items([s]) && sp.networkMode == ""
        else
          sp.network == "" && sp.aliases == Nil && sp.networkMode == svc.networkMode)
    && |deps| == |keys| && sp.dependsOn != Items([])
    && (forall i :: 0 <= i < |keys| ==>
          && deps[i].name == Called(project, services, keys[i])
          && deps[i].ready ==
             if svc.dependsOn[keys[i]].condition == ConditionHealthy then ReadyHealthy else ReadyRunning)
    && InForce(sp.limits.pids, svc.pidsLimit, DeployedPids(svc))
    && (exists n :: InForce(n, svc.memLimit, DeployedMemory(svc)) && BytesAs(n, sp.limits.memory))
    && sp.limits.cpu == svc.draft.limits.cpu
    && sp == svc.draft.(name := sp.name, project := sp.project, service := sp.service, network := sp.network,
                        aliases := sp.aliases, networkMode := sp.networkMode, limits := sp.limits,
                        dependsOn := sp.dependsOn)
  }

  // What a service may ask for: nothing a single check refused, a network or one of two modes,
  // dependencies that are only waited for, one replica, and limits that can be written; and a
  // name of its own that is one.
  ghost predicate Carried(svc: Service) {
    && svc.found == []
    && (svc.networkMode == "" || svc.networkMode == "host" || svc.networkMode == "none")
    && (forall d :: d in svc.dependsOn ==>
          var dep := svc.dependsOn[d];
          && (dep.condition == ConditionUnset || dep.condition == ConditionStarted || dep.condition == ConditionHealthy)
          && dep.required && !dep.restart)
    && (svc.deploy.Some? ==> svc.deploy.value.replicas == None || svc.deploy.value.replicas == Some(1))
    && (svc.containerName != "" ==> Matches(NAME, svc.containerName))
  }

  // What is accepted: a project and a directory that can be ones, every service given and carried
  // out, no two of one container, and each one's spec valid.
  ghost predicate Acceptable(project: string, dir: string, services: Services) {
    && Matches(PROJECT, project) && Tidy(dir)
    && (forall s :: s in services ==> Given(services, s))
    && (forall s :: s in services ==>
          Carried(services[s].value) && exists sp :: Renders(project, services, s, sp) && Valid(sp))
    && (forall s, u :: s in services && u in services && s != u ==>
          Called(project, services, s) != Called(project, services, u))
  }

  lemma {:induction false} DepsOfAt(names: map<string, string>, deps: map<string, DependsOn>, keys: seq<string>, i: nat)
    requires (forall k :: k in keys ==> k in deps) && i < |keys|
    ensures |DepsOf(names, deps, keys)| == |keys|
    ensures DepsOf(names, deps, keys)[i] == Dependency(NameIn(names, keys[i]), ReadyOf(deps[keys[i]]))
  {
    if |keys| > 1 { DepsOfAt(names, deps, keys[1..], if i == 0 then 0 else i - 1); }
  }

  lemma MemoryAs(bytes: int, text: string)
    ensures BytesAs(bytes, text) <==> MemoryText(bytes) == Some(text)
  {
    hide Decimal;
    if bytes > 0 {
      WholeKib(bytes);
      if bytes % GIB == 0 { assert bytes % 1024 == 0; }
    }
  }

  lemma CalledIn(project: string, services: Services, s: string)
    ensures NameIn(NamesOf(project, services), s) == Called(project, services, s)
    ensures Given(services, s) ==> Named(project, s, services[s].value) == Called(project, services, s)
  {
  }

  // The spec a service becomes, where it can be written as one.
  lemma RendersSpec(project: string, services: Services, s: string, sp: Spec)
    requires Given(services, s) && ModeFine(services[s].value.networkMode) && PidsOf(services[s].value) >= 0
    ensures Renders(project, services, s, sp) <==>
            && sp == SpecOf(project, NamesOf(project, services), s, services[s].value)
            && MemoryText(MemoryOf(services[s].value)).Some?
  {
    hide SortedKeys, MemoryText, BytesAs, Named;
    var svc := services[s].value;
    var names, keys := NamesOf(project, services), SortedKeys(svc.dependsOn.Keys);
    CalledIn(project, services, s);
    MemoryAs(MemoryOf(svc), sp.limits.memory);
    assert forall n :: InForce(n, svc.memLimit, DeployedMemory(svc)) <==> n == MemoryOf(svc);
    assert forall n :: InForce(n, svc.pidsLimit, DeployedPids(svc)) <==> n == PidsOf(svc);
    DepsRendered(project, services, svc.dependsOn, keys, Elems(sp.dependsOn));
    hide InForce, MemoryOf, PidsOf, DeployedMemory, DeployedPids, DepsOf, NameIn, NamesOf, Called, ReadyOf;
  }

  lemma ServiceFineIff(project: string, services: Services, s: string)
    requires Given(services, s)
    ensures var svc := services[s].value;
            ServiceFine(project, NamesOf(project, services), s, svc) && NameFine(svc) <==>
            Carried(svc) && exists sp :: Renders(project, services, s, sp) && Valid(sp)
  {
    hide Renders, MemoryText, NamesOf, Broken, ValidName, Matches;
    NameIff(services[s].value.containerName);
    var svc := services[s].value;
    var spec := SpecOf(project, NamesOf(project, services), s, svc);
    forall d | d in svc.dependsOn ensures DependsFine(svc.dependsOn[d]) <==>
        && (|| svc.dependsOn[d].condition == ConditionUnset || svc.dependsOn[d].condition == ConditionStarted
            || svc.dependsOn[d].condition == ConditionHealthy)
        && svc.dependsOn[d].required && !svc.dependsOn[d].restart
    {
      DependsFineIs(svc.dependsOn[d]);
    }
    hide DependsFine;
    if ServiceFine(project, NamesOf(project, services), s, svc) && NameFine(svc) {
      RendersSpec(project, services, s, spec);
      assert Renders(project, services, s, spec) && Valid(spec);
    }
    if Carried(svc) {
      forall sp | Renders(project, services, s, sp) && Valid(sp)
        ensures sp == spec && PidsOf(svc) >= 0 && MemoryText(MemoryOf(svc)).Some?
      {
        PidsInForce(project, services, s, sp);
        RendersSpec(project, services, s, sp);
      }
    }
  }

  lemma PidsInForce(project: string, services: Services, s: string, sp: Spec)
    requires Given(services, s) && Renders(project, services, s, sp) && Valid(sp)
    ensures PidsOf(services[s].value) >= 0
  {
    assert LimitsOk(sp.limits);
    assert InForce(sp.limits.pids, services[s].value.pidsLimit, DeployedPids(services[s].value));
  }

  // The loops accept what is acceptable.
  lemma AcceptedIff(project: string, dir: string, services: Services)
    ensures Accepted(project, dir, services) <==> Acceptable(project, dir, services)
  {
    hide ServiceFine, Carried, Renders, Valid, CleanAbs, ValidProject, NamesOf, Called, NameFine, Named, Matches, Clean;
    LabelsIff(project);
    CleanAbsIff(dir);
    forall s | Given(services, s)
      ensures ServiceFine(project, NamesOf(project, services), s, services[s].value) && NameFine(services[s].value) <==>
              Carried(services[s].value) && exists sp :: Renders(project, services, s, sp) && Valid(sp)
      ensures Named(project, s, services[s].value) == Called(project, services, s)
    {
      ServiceFineIff(project, services, s);
      CalledIn(project, services, s);
    }
  }

  lemma AcceptedWhere(project: string, dir: string, services: Services)
    ensures Acceptable(project, dir, services) ==> ValidProject(project) && CleanAbs(dir)
  {
    hide Renders, Carried, Called, Matches, Clean, ValidProject, CleanAbs;
    LabelsIff(project);
    CleanAbsIff(dir);
  }

  // Every service of an acceptable file has its spec among the result, and every spec is one's.
  ghost predicate RendersAll(project: string, services: Services, specs: seq<Spec>) {
    && (forall s :: s in services ==>
          Given(services, s) && exists sp :: sp in specs && Renders(project, services, s, sp))
    && (forall sp :: sp in specs ==> Given(services, sp.service) && Renders(project, services, sp.service, sp))
  }

  lemma SpecsRender(project: string, services: Services, specs: seq<Spec>, keys: seq<string>)
    requires (forall s :: s in keys <==> s in services)
    requires AllServicesFine(project, NamesOf(project, services), services, keys)
    requires multiset(specs) == multiset(SpecsOf(project, NamesOf(project, services), services, keys))
    ensures RendersAll(project, services, specs)
  {
    hide ServiceFine, Renders, SpecOf, SpecsOf, NamesOf, Valid;
    var names := NamesOf(project, services);
    forall x ensures x in specs <==> x in SpecsOf(project, names, services, keys) {
      assert x in specs <==> x in multiset(specs);
      assert x in SpecsOf(project, names, services, keys) <==> x in multiset(SpecsOf(project, names, services, keys));
    }
    forall s | s in services
      ensures Given(services, s) && SpecOf(project, names, s, services[s].value) in specs
      ensures Renders(project, services, s, SpecOf(project, names, s, services[s].value))
      ensures SpecOf(project, names, s, services[s].value).service == s
    {
      SpecsOfHas(project, names, services, keys, SpecOf(project, names, s, services[s].value));
      FineRenders(project, services, s);
    }
    forall sp | sp in specs ensures Given(services, sp.service) && Renders(project, services, sp.service, sp) {
      SpecsOfHas(project, names, services, keys, sp);
    }
  }

  lemma FineRenders(project: string, services: Services, s: string)
    requires Given(services, s) && ServiceFine(project, NamesOf(project, services), s, services[s].value)
    ensures var sp := SpecOf(project, NamesOf(project, services), s, services[s].value);
            Renders(project, services, s, sp) && sp.service == s
  {
    hide Renders, MemoryText, MemoryOf, PidsOf, NamesOf, Valid, DepsFine;
    RendersSpec(project, services, s, SpecOf(project, NamesOf(project, services), s, services[s].value));
  }

  lemma DepsRendered(project: string, services: Services, depends: map<string, DependsOn>, keys: seq<string>,
                     deps: seq<Dependency>)
    requires forall k :: k in keys ==> k in depends
    ensures deps == DepsOf(NamesOf(project, services), depends, keys) <==>
            && |deps| == |keys|
            && forall i :: 0 <= i < |keys| ==>
                 && deps[i].name == Called(project, services, keys[i])
                 && deps[i].ready ==
                    if depends[keys[i]].condition == ConditionHealthy then ReadyHealthy else ReadyRunning
  {
    hide NamesOf, Called, NameIn, DepsOf;
    var names := NamesOf(project, services);
    DepsOfLength(names, depends, keys);
    forall i | 0 <= i < |keys|
      ensures DepsOf(names, depends, keys)[i] == Dependency(NameIn(names, keys[i]), ReadyOf(depends[keys[i]]))
      ensures NameIn(names, keys[i]) == Called(project, services, keys[i])
    {
      DepsOfAt(names, depends, keys, i);
      CalledIn(project, services, keys[i]);
    }
  }

  lemma {:induction false} DepsOfLength(names: map<string, string>, deps: map<string, DependsOn>, keys: seq<string>)
    requires forall k :: k in keys ==> k in deps
    ensures |DepsOf(names, deps, keys)| == |keys|
  {
    if keys != [] { DepsOfLength(names, deps, keys[1..]); }
  }

  // ---- what is promised of the result ----

  ghost predicate Sorted(specs: seq<Spec>) {
    forall i, j :: 0 <= i < j < |specs| ==> Less(specs[i].name, specs[j].name)
  }

  // Every dependency names another spec of the result.
  ghost predicate Closed(specs: seq<Spec>) {
    forall s, d :: s in specs && d in Elems(s.dependsOn) ==>
      d.name != s.name && exists t :: t in specs && t.name == d.name
  }

  lemma {:induction false} SpecsOfHas(project: string, names: map<string, string>, services: Services,
                                      keys: seq<string>, x: Spec)
    ensures x in SpecsOf(project, names, services, keys) <==>
            exists s :: s in keys && Given(services, s) && x == SpecOf(project, names, s, services[s].value)
  {
    hide SpecOf;
    if keys != [] { SpecsOfHas(project, names, services, keys[1..], x); }
  }

  lemma {:induction false} DepsOfHas(names: map<string, string>, deps: map<string, DependsOn>, keys: seq<string>,
                                     d: Dependency)
    requires forall k :: k in keys ==> k in deps
    requires d in DepsOf(names, deps, keys)
    ensures exists k :: k in keys && d.name == NameIn(names, k)
  {
    if keys != [] && d != DepsOf(names, deps, keys)[0] { DepsOfHas(names, deps, keys[1..], d); }
  }

  lemma TranslationIsClosed(project: string, services: Services, keys: seq<string>)
    requires forall s :: s in keys <==> s in services
    requires AllServicesFine(project, NamesOf(project, services), services, keys)
    ensures Closed(SpecsOf(project, NamesOf(project, services), services, keys))
  {
    hide Valid, DepsOf;
    var names := NamesOf(project, services);
    var specs := SpecsOf(project, names, services, keys);
    forall s, d | s in specs && d in Elems(s.dependsOn)
      ensures d.name != s.name && exists t :: t in specs && t.name == d.name
    {
      SpecsOfHas(project, names, services, keys, s);
      var k :| k in keys && Given(services, k) && s == SpecOf(project, names, k, services[k].value);
      ValidDependency(s, d);
      var deps := services[k].value.dependsOn;
      DepsOfHas(names, deps, SortedKeys(deps.Keys), d);
      var q :| q in SortedKeys(deps.Keys) && d.name == NameIn(names, q);
      var t := SpecOf(project, names, q, services[q].value);
      SpecsOfHas(project, names, services, keys, t);
      assert t in specs && t.name == d.name;
    }
  }

  // ---- checking ----

  // Problems were added, or none if what was checked is fine.
  ghost predicate Grew(before: seq<Problem>, after: seq<Problem>, fine: bool) {
    before <= after && (|after| == |before| <==> fine)
  }

  lemma GrewTwice(a: seq<Problem>, b: seq<Problem>, c: seq<Problem>, x: bool, y: bool)
    requires Grew(a, b, x) && Grew(b, c, y)
    ensures Grew(a, c, x && y)
  {
  }

  ghost predicate AllFine(deps: map<string, DependsOn>, keys: seq<string>) {
    forall i :: 0 <= i < |keys| && keys[i] in deps ==> DependsFine(deps[keys[i]])
  }

  lemma DepsOfNext(names: map<string, string>, deps: map<string, DependsOn>, keys: seq<string>, i: nat)
    requires i < |keys| && forall k :: k in keys ==> k in deps
    ensures DepsOf(names, deps, keys[i..]) ==
            [Dependency(NameIn(names, keys[i]), ReadyOf(deps[keys[i]]))] + DepsOf(names, deps, keys[i + 1..])
  {
    assert keys[i..][0] == keys[i] && keys[i..][1..] == keys[i + 1..];
  }

  lemma DepsOfNone(names: map<string, string>, deps: map<string, DependsOn>, keys: seq<string>)
    ensures DepsOf(names, deps, keys[|keys|..]) == []
  {
  }

  lemma AllFineNone(deps: map<string, DependsOn>, problems: seq<Problem>)
    ensures Grew(problems, problems, AllFine(deps, []))
  {
  }

  lemma AllFineAll(deps: map<string, DependsOn>, keys: seq<string>)
    requires forall d :: d in keys <==> d in deps
    ensures AllFine(deps, keys) == DepsFine(deps)
  {
    forall d | d in deps ensures exists i :: 0 <= i < |keys| && keys[i] == d { assert d in keys; }
  }

  lemma AllFineNext(deps: map<string, DependsOn>, keys: seq<string>, i: nat)
    requires i < |keys| && keys[i] in deps
    ensures AllFine(deps, keys[..i + 1]) <==> AllFine(deps, keys[..i]) && DependsFine(deps[keys[i]])
  {
    assert keys[..i + 1] == keys[..i] + [keys[i]];
    forall j | 0 <= j < i ensures keys[..i + 1][j] == keys[..i][j] {}
  }

  lemma NamesNone(project: string, services: Services, problems: seq<Problem>)
    ensures NamesAmong(project, services, []) == map[] && Grew(problems, problems, NamesFine(project, services, []))
  {
  }

  lemma NamesNext(project: string, services: Services, keys: seq<string>, i: nat)
    requires i < |keys| && forall i, j :: 0 <= i < j < |keys| ==> keys[i] != keys[j]
    ensures var a, b := NamesAmong(project, services, keys[..i]), NamesAmong(project, services, keys[..i + 1]);
            if Given(services, keys[i]) then
              var svc := services[keys[i]].value;
              var n := Named(project, keys[i], svc);
              && b == a[keys[i] := n] && b.Values == a.Values + {n}
              && (NamesFine(project, services, keys[..i + 1]) <==>
                    NamesFine(project, services, keys[..i]) && NameFine(svc) && n !in a.Values)
            else b == a && (NamesFine(project, services, keys[..i + 1]) <==> NamesFine(project, services, keys[..i]))
  {
    hide Named, NameFine;
    assert keys[..i + 1] == keys[..i] + [keys[i]];
    assert keys[i] !in keys[..i];
    var a := NamesAmong(project, services, keys[..i]);
    if Given(services, keys[i]) {
      assert NamesAmong(project, services, keys[..i + 1]) ==
        a[keys[i] := Named(project, keys[i], services[keys[i]].value)];
      ValuesAdd(a, keys[i], Named(project, keys[i], services[keys[i]].value));
      NamesFineNext(project, services, keys[..i], keys[i]);
    }
  }

  lemma ValuesAdd(m: map<string, string>, k: string, v: string)
    requires k !in m
    ensures m[k := v].Values == m.Values + {v}
  {
    assert m[k := v][k] == v;
    forall x | x in m ensures m[k := v][x] == m[x] {}
  }

  lemma NamesFineNext(project: string, services: Services, keys: seq<string>, k: string)
    requires k !in keys && Given(services, k)
    ensures NamesFine(project, services, keys + [k]) <==>
              NamesFine(project, services, keys) && NameFine(services[k].value) &&
              Named(project, k, services[k].value) !in NamesAmong(project, services, keys).Values
  {
    hide Named, NameFine;
    var a := NamesAmong(project, services, keys);
    forall s | s in keys && Given(services, s) ensures Named(project, s, services[s].value) in a.Values {
      assert a[s] == Named(project, s, services[s].value);
    }
    assert forall s :: s in keys + [k] <==> s in keys || s == k;
    if NamesFine(project, services, keys + [k]) {
      assert k in keys + [k];
      forall s | s in keys && Given(services, s)
        ensures Named(project, s, services[s].value) != Named(project, k, services[k].value)
      {
        assert s in keys + [k];
      }
    }
  }

  lemma NamesAll(project: string, services: Services, keys: seq<string>)
    requires forall k :: k in keys <==> k in services
    ensures NamesAmong(project, services, keys) == NamesOf(project, services)
  {
  }

  lemma FineNone(project: string, names: map<string, string>, services: Services, problems: seq<Problem>)
    ensures Grew(problems, problems, AllServicesFine(project, names, services, []))
    ensures SpecsOf(project, names, services, []) == []
  {
  }

  lemma FineNext(project: string, names: map<string, string>, services: Services, keys: seq<string>, i: nat)
    requires i < |keys|
    ensures AllServicesFine(project, names, services, keys[..i + 1]) <==>
            AllServicesFine(project, names, services, keys[..i]) &&
            Given(services, keys[i]) && ServiceFine(project, names, keys[i], services[keys[i]].value)
    ensures SpecsOf(project, names, services, keys[..i + 1]) ==
            SpecsOf(project, names, services, keys[..i]) +
            if Given(services, keys[i]) then [SpecOf(project, names, keys[i], services[keys[i]].value)] else []
  {
    hide ServiceFine, SpecOf;
    assert keys[..i + 1] == keys[..i] + [keys[i]];
    SpecsOfAppend(project, names, services, keys[..i], keys[i]);
  }

  lemma {:induction false} SpecsOfAppend(project: string, names: map<string, string>, services: Services,
                                         keys: seq<string>, k: string)
    ensures SpecsOf(project, names, services, keys + [k]) ==
            SpecsOf(project, names, services, keys) +
            if Given(services, k) then [SpecOf(project, names, k, services[k].value)] else []
  {
    hide SpecOf;
    if keys == [] {
      assert [k][1..] == [];
    } else {
      assert (keys + [k])[0] == keys[0] && (keys + [k])[1..] == keys[1..] + [k];
      SpecsOfAppend(project, names, services, keys[1..], k);
    }
  }

  lemma GrewOne(a: seq<Problem>, b: seq<Problem>)
    requires a <= b && |a| < |b|
    ensures Grew(a, b, false)
  {
  }

  lemma KeysDiffer(keys: seq<string>)
    requires Ascending(keys)
    ensures forall i, j :: 0 <= i < j < |keys| ==> keys[i] != keys[j]
  {
    forall i, j | 0 <= i < j < |keys| ensures keys[i] != keys[j] { LessTotal(keys[i], keys[j]); }
  }

  // What the specs collected without a problem are, before they are sorted.
  lemma Translates(project: string, services: Services, keys: seq<string>)
    requires keys == SortedKeys(services.Keys)
    requires NamesFine(project, services, keys) && AllServicesFine(project, NamesOf(project, services), services, keys)
    ensures var specs := SpecsOf(project, NamesOf(project, services), services, keys);
            Projects.Translated(project, specs) && Closed(specs)
  {
    var names := NamesOf(project, services);
    TranslationIsClosed(project, services, keys);
    KeysDiffer(keys);
    SpecsAt(project, names, services, keys);
    var specs := SpecsOf(project, names, services, keys);
    forall i, j | 0 <= i < j < |specs| ensures specs[i].name != specs[j].name {
      assert keys[i] != keys[j] && keys[i] in keys && keys[j] in keys;
    }
    forall i | 0 <= i < |specs| ensures Valid(specs[i]) && specs[i].project == project {
      assert keys[i] in keys;
      assert ServiceFine(project, names, keys[i], services[keys[i]].value);
    }
  }

  lemma {:induction false} SpecsAt(project: string, names: map<string, string>, services: Services, keys: seq<string>)
    requires forall k :: k in keys ==> Given(services, k)
    ensures var specs := SpecsOf(project, names, services, keys);
            |specs| == |keys| && forall i :: 0 <= i < |keys| ==>
              Given(services, keys[i]) && specs[i] == SpecOf(project, names, keys[i], services[keys[i]].value)
  {
    hide SpecOf;
    if keys != [] { SpecsAt(project, names, services, keys[1..]); }
  }

  lemma SortedTranslates(project: string, specs: seq<Spec>, sorted: seq<Spec>)
    requires Projects.Translated(project, specs) && Closed(specs)
    requires multiset(sorted) == multiset(specs) && Sorted(sorted)
    ensures Projects.Translated(project, sorted) && Closed(sorted)
  {
    hide Valid;
    assert forall s :: s in sorted <==> s in specs by {
      forall s ensures s in sorted <==> s in specs { assert s in multiset(sorted) <==> s in multiset(specs); }
    }
    forall i | 0 <= i < |sorted| ensures Valid(sorted[i]) && sorted[i].project == project {
      assert sorted[i] in specs;
    }
    forall i, j | 0 <= i < j < |sorted| ensures sorted[i].name != sorted[j].name {
      LessTotal(sorted[i].name, sorted[j].name);
    }
    forall s, d | s in sorted && d in Elems(s.dependsOn)
      ensures d.name != s.name && exists t :: t in sorted && t.name == d.name
    {
      assert s in specs;
      var t :| t in specs && t.name == d.name;
      assert t in sorted;
    }
  }

  // ---- sorting by name ----

  function InsertSpec(x: Spec, specs: seq<Spec>): seq<Spec> {
    if specs == [] then [x]
    else if Less(x.name, specs[0].name) then [x] + specs
    else [specs[0]] + InsertSpec(x, specs[1..])
  }

  lemma {:induction false} InsertSpecSorts(x: Spec, specs: seq<Spec>)
    requires Sorted(specs) && forall i :: 0 <= i < |specs| ==> specs[i].name != x.name
    ensures Sorted(InsertSpec(x, specs)) && multiset(InsertSpec(x, specs)) == multiset(specs) + multiset{x}
  {
    if specs == [] {
    } else if Less(x.name, specs[0].name) {
      forall j | 0 <= j < |specs| ensures Less(x.name, specs[j].name) {
        if j > 0 { LessTransitive(x.name, specs[0].name, specs[j].name); }
      }
    } else {
      LessTotal(x.name, specs[0].name);
      hide Less;
      InsertSpecSorts(x, specs[1..]);
      var t := InsertSpec(x, specs[1..]);
      assert specs == [specs[0]] + specs[1..];
      forall j | 0 <= j < |t| ensures Less(specs[0].name, t[j].name) {
        assert t[j] in multiset(t);
        if t[j] != x { assert t[j] in specs[1..]; }
      }
    }
  }

  method SortByName(specs: seq<Spec>) returns (r: seq<Spec>)
    requires forall i, j :: 0 <= i < j < |specs| ==> specs[i].name != specs[j].name
    ensures Sorted(r) && multiset(r) == multiset(specs)
  {
    hide Sorted, InsertSpec;
    r := [];
    SortedNone();
    for i := 0 to |specs|
      invariant Sorted(r) && multiset(r) == multiset(specs[..i])
    {
      assert specs[..i + 1] == specs[..i] + [specs[i]];
      forall j | 0 <= j < |r| ensures r[j].name != specs[i].name {
        assert r[j] in multiset(specs[..i]);
        var k :| 0 <= k < i && specs[..i][k] == r[j];
      }
      InsertSpecSorts(specs[i], r);
      r := InsertSpec(specs[i], r);
    }
    assert specs[..|specs|] == specs;
  }

  lemma SortedNone()
    ensures Sorted([])
  {
  }

  class Checker {
    const project: string
    var names: map<string, string>
    var problems: seq<Problem>

    constructor (project: string)
      ensures this.project == project && names == map[] && problems == []
    {
      this.project := project;
      names, problems := map[], [];
    }

    method Add(service: string, field: string)
      modifies this`problems
      ensures problems == old(problems) + [Problem(service, field)]
    {
      problems := problems + [Problem(service, field)];
    }

    method CheckLimits(name: string, svc: Service) returns (l: Limits)
      modifies this`problems
      ensures l == LimitsOf(svc)
      ensures Grew(old(problems), problems, LimitsFine(svc))
    {
      var memory, pids := svc.memLimit, svc.pidsLimit;
      if svc.deploy.Some? {
        var d := svc.deploy.value;
        if d.replicas.Some? && d.replicas.value != 1 { Add(name, "deploy"); }
        if d.limits.Some? {
          memory, pids := Max(memory, d.limits.value.memory), Max(pids, d.limits.value.pids);
        }
      }
      if pids < 0 { Add(name, "pids_limit"); }
      l := Limits(Max(pids, 0), "", svc.draft.limits.cpu);
      if memory <= 0 {
      } else if memory % GIB == 0 {
        l := l.(memory := Decimal(memory / GIB) + "g");
      } else if memory % MIB == 0 {
        l := l.(memory := Decimal(memory / MIB) + "m");
      } else if memory % KIB == 0 {
        l := l.(memory := Decimal(memory / KIB) + "k");
      } else {
        Add(name, "mem_limit");
      }
    }

    method CheckDepend(name: string, d: DependsOn) returns (ready: Ready)
      modifies this`problems
      ensures ready == if d.condition == ConditionHealthy then ReadyHealthy else ReadyRunning
      ensures Grew(old(problems), problems,
                   && (|| d.condition == ConditionUnset || d.condition == ConditionStarted
                       || d.condition == ConditionHealthy)
                   && d.required && !d.restart)
    {
      ready := ReadyRunning;
      match d.condition {
        case ConditionUnset =>
        case ConditionStarted =>
        case ConditionHealthy => ready := ReadyHealthy;
        case ConditionOther(_) => Add(name, "depends_on");
      }
      if !d.required { Add(name, "depends_on"); }
      if d.restart { Add(name, "depends_on"); }
    }

    method CheckDepends(name: string, deps: map<string, DependsOn>) returns (r: seq<Dependency>)
      modifies this`problems
      ensures r == DepsOf(names, deps, SortedKeys(deps.Keys))
      ensures Grew(old(problems), problems, DepsFine(deps))
    {
      hide Grew, AllFine, DepsFine, DependsFine, ReadyOf, DepsOf;
      var keys := SortKeys(deps.Keys);
      r := [];
      AllFineNone(deps, problems);
      assert keys[0..] == keys;
      for i := 0 to |keys|
        modifies this`problems
        invariant DepsOf(names, deps, keys) == r + DepsOf(names, deps, keys[i..])
        invariant Grew(old(problems), problems, AllFine(deps, keys[..i]))
      {
        DepsOfNext(names, deps, keys, i);
        ghost var before := problems;
        DependsFineIs(deps[keys[i]]);
        var ready := CheckDepend(name, deps[keys[i]]);
        AllFineNext(deps, keys, i);
        GrewTwice(old(problems), before, problems, AllFine(deps, keys[..i]), DependsFine(deps[keys[i]]));
        r := r + [Dependency(NameIn(names, keys[i]), ready)];
      }
      assert keys[..|keys|] == keys;
      DepsOfNone(names, deps, keys);
      AllFineAll(deps, keys);
    }

    // One service as a spec, or not with its problems added.
    method CheckService(name: string, svc: Service) returns (s: Spec, ok: bool)
      modifies this`problems
      ensures ok <==> ServiceFine(project, names, name, svc)
      ensures ok ==> s == SpecOf(project, names, name, svc)
      ensures Grew(old(problems), problems, ok)
    {
      hide Valid, NameIn, NetworkName;
      var before := |problems|;
      s := svc.draft.(name := NameIn(names, name), project := project, service := name,
        network := "", aliases := Nil, networkMode := "");
      if svc.networkMode == "" {
        s := s.(network := NetworkName(project), aliases := Items([name]));
      } else if svc.networkMode == "host" || svc.networkMode == "none" {
        s := s.(networkMode := svc.networkMode);
      } else {
        Add(name, "network_mode");
      }
      problems := problems + svc.found;
      var deps := CheckDepends(name, svc.dependsOn);
      s := s.(dependsOn := if deps == [] then Nil else Items(deps));
      var limits := CheckLimits(name, svc);
      s := s.(limits := limits);
      if |problems| > before { return s, false; }
      if !Valid(s) {
        Add(name, "spec");
        return s, false;
      }
      return s, true;
    }

    // Names every container, and refuses a name chosen badly or twice.
    method NameServices(services: Services, keys: seq<string>)
      requires names == map[] && forall i, j :: 0 <= i < j < |keys| ==> keys[i] != keys[j]
      modifies this
      ensures names == NamesAmong(project, services, keys)
      ensures Grew(old(problems), problems, NamesFine(project, services, keys))
    {
      hide Grew, NamesFine, NamesAmong, Named;
      var holders: map<string, string> := map[];
      NamesNone(project, services, problems);
      for i := 0 to |keys|
        invariant names == NamesAmong(project, services, keys[..i])
        invariant holders.Keys == NamesAmong(project, services, keys[..i]).Values
        invariant Grew(old(problems), problems, NamesFine(project, services, keys[..i]))
      {
        var name := keys[i];
        NamesNext(project, services, keys, i);
        if name in services && services[name].Some? {
          var svc := services[name].value;
          var n := Named(project, name, svc);
          ghost var before := problems;
          CheckName(name, svc, n in holders);
          GrewTwice(old(problems), before, problems, NamesFine(project, services, keys[..i]),
                    NameFine(svc) && n !in holders);
          holders, names := holders[n := name], names[name := n];
        }
      }
      assert keys[..|keys|] == keys;
    }

    method CheckName(name: string, svc: Service, taken: bool)
      modifies this`problems
      ensures Grew(old(problems), problems, NameFine(svc) && !taken)
    {
      if svc.containerName != "" && !ValidName(svc.containerName) { Add(name, "container_name"); }
      if taken { Add(name, "container_name"); }
    }

    // The specs of the services, in the order of their names.
    method CollectSpecs(services: Services, keys: seq<string>) returns (specs: seq<Spec>)
      requires forall k :: k in keys ==> k in services
      modifies this`problems
      ensures Grew(old(problems), problems, AllServicesFine(project, names, services, keys))
      ensures AllServicesFine(project, names, services, keys) ==> specs == SpecsOf(project, names, services, keys)
    {
      hide Grew, AllServicesFine, ServiceFine, SpecOf, SpecsOf;
      specs := [];
      FineNone(project, names, services, problems);
      for i := 0 to |keys|
        modifies this`problems
        invariant Grew(old(problems), problems, AllServicesFine(project, names, services, keys[..i]))
        invariant AllServicesFine(project, names, services, keys[..i]) ==>
                  specs == SpecsOf(project, names, services, keys[..i])
      {
        ghost var before := problems;
        FineNext(project, names, services, keys, i);
        ghost var fine := Given(services, keys[i]) && ServiceFine(project, names, keys[i], services[keys[i]].value);
        if services[keys[i]].None? {
          Add(keys[i], "compose");
          GrewOne(before, problems);
        } else {
          var s, ok := CheckService(keys[i], services[keys[i]].value);
          if ok { specs := specs + [s]; }
        }
        GrewTwice(old(problems), before, problems, AllServicesFine(project, names, services, keys[..i]), fine);
      }
      assert keys[..|keys|] == keys;
    }

    // The specs of a file, sorted by name, or its problems.
    method Load(dir: string, services: Services) returns (r: Option<seq<Spec>>)
      requires names == map[] && problems == []
      modifies this
      ensures r.Some? <==> Acceptable(project, dir, services)
      ensures r.None? <==> problems != []
      ensures r.Some? ==>
                && Sorted(r.value) && Closed(r.value) && Projects.Translated(project, r.value)
                && RendersAll(project, services, r.value)
    {
      hide NamesFine, AllServicesFine, NamesAmong, SpecsOf, Sorted, Closed, CleanAbs, Projects.Translated, Acceptable,
           RendersAll;
      AcceptedIff(project, dir, services);
      AcceptedWhere(project, dir, services);
      if !ValidProject(project) {
        Add("", "name");
        return None;
      }
      if !CleanAbs(dir) {
        Add("", "projectDir");
        return None;
      }
      var keys := SortKeys(services.Keys);
      KeysDiffer(keys);
      NameServices(services, keys);
      NamesAll(project, services, keys);
      ghost var before := problems;
      var specs := CollectSpecs(services, keys);
      if |problems| > 0 { return None; }
      Translates(project, services, keys);
      var sorted := SortByName(specs);
      SortedTranslates(project, specs, sorted);
      SpecsRender(project, services, sorted, keys);
      return Some(sorted);
    }
  }
}
