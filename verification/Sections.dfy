// What the supervisor knows, and the sections of its code that run under its lock: the
// API calls, and the stretches of reconcile between two engine calls
// (internal/supervisor/supervisor.go).
module Sections {
  import opened Basics
  import opened Specs

  // ---- what the engine reports ----

  datatype RunState = StateRunning | StatePaused | StateOther

  datatype Container = Container(
    id: string, name: string, managed: bool, specLabel: Option<Runtime>,
    state: RunState, exitCode: int, startedAt: Time, exitedAt: Time)
  {
    predicate Running() { state == StateRunning || state == StatePaused }
  }

  // How an engine call ended: its error, and whether a health check passed.
  datatype Outcome = Outcome(error: Option<string>, pass: bool)

  // ---- what is declared and known ----

  datatype Desired = DesiredRunning | DesiredStopped
  datatype Record = Record(spec: Spec, desired: Desired)
  datatype Project = Project(compose: string, dir: string)

  datatype Phase = NoPhase | Stopped | Starting | Running | Backoff | Exited | Fatal | Waiting
  datatype Wellness = NoHealth | HealthStarting | Healthy | Unhealthy

  datatype Note = NoNote | EngineFailed(text: string) | CheckFailed(text: string) | HeldBy(id: string)
                | WaitingFor(name: string, lacks: Lack)
  datatype Lack = NotDeclared | NotRunning | NotHealthy

  datatype Tracking = Tracking(
    phase: Phase, startAttempts: int, restarts: int, nextAttempt: Time, handledExit: Time,
    force: bool, restart: bool, err: Note,
    health: Wellness, failures: int, nextHealth: Time, healthRun: Time)

  const FRESH := Tracking(NoPhase, 0, 0, ZERO, ZERO, false, false, NoNote, NoHealth, 0, ZERO, ZERO)
  const FORCED := FRESH.(force := true)

  datatype Mem = Mem(
    records: map<string, Record>, track: map<string, Tracking>,
    observed: map<string, Container>, foreign: map<string, Container>,
    changed: map<string, nat>, seqno: nat,
    projects: map<string, Project>, lastPhase: map<string, Phase>)

  const EMPTY := Mem(map[], map[], map[], map[], map[], 0, map[], map[])

  function Track(m: Mem, name: string): Tracking {
    if name in m.track then m.track[name] else FRESH
  }

  function SetTrack(m: Mem, name: string, t: Tracking): Mem {
    m.(track := m.track[name := t])
  }

  function Changed(m: Mem, name: string): nat {
    if name in m.changed then m.changed[name] else 0
  }

  // ---- the store, as the supervisor meets it ----

  datatype Saved = Saved(spec: Stored, desired: Desired)
  datatype Disk = Disk(records: map<string, Saved>, projects: map<string, Project>, boot: string)

  // A store call: done; refused with nothing changed; or refused after the file had been
  // replaced or removed (the directory could not be synced).
  datatype Written = Done | FailedBefore | FailedAfter

  function Save(d: Disk, r: Record, w: Written): Disk {
    if w == FailedBefore then d
    else d.(records := d.records[r.spec.name := Saved(Encode(r.spec), r.desired)])
  }

  function Drop(d: Disk, name: string, w: Written): Disk {
    if w == FailedBefore then d else d.(records := Without(d.records, name))
  }

  // ---- the API calls, one declaration at a time ----

  datatype Prim =
    | PutRecord(spec: Spec, w: Written)
    | DeleteRecord(name: string, w: Written)
    | SetDesired(name: string, desired: Desired, w: Written)
    | MarkRestart(name: string)
    | SaveProject(project: string, p: Project, w: Written)
    | DropProject(project: string, w: Written)

  datatype Served = Served(mem: Mem, disk: Disk, ok: bool)

  function Replaced(m: Mem, sp: Spec): Record {
    Record(sp, if sp.name in m.records then m.records[sp.name].desired else DesiredRunning)
  }

  // What is declared and known of the containers, with name marked changed.
  function Touched(m: Mem, name: string, records: map<string, Record>, track: map<string, Tracking>): Mem {
    m.(records := records, track := track, seqno := m.seqno + 1, changed := m.changed[name := m.seqno + 1])
  }

  function Put(m: Mem, d: Disk, sp: Spec, w: Written): Served {
    var r := Replaced(m, sp);
    if w != Done then Served(m, Save(d, r, w), false)
    else
      var track := if Track(m, sp.name).phase == Fatal then m.track[sp.name := FORCED] else m.track;
      Served(Touched(m, sp.name, m.records[sp.name := r], track), Save(d, r, w), true)
  }

  function Delete(m: Mem, d: Disk, name: string, w: Written): Served {
    if w != Done then Served(m, Drop(d, name, w), false)
    else Served(Touched(m, name, Without(m.records, name), Without(m.track, name)), Drop(d, name, w), true)
  }

  function Desire(m: Mem, d: Disk, name: string, desired: Desired, w: Written): Served {
    if name !in m.records then Served(m, d, false)
    else
      var r := m.records[name].(desired := desired);
      var kept := m.records[name].desired == desired;
      if !kept && w != Done then Served(m, Save(d, r, w), false)
      else
        var track := if desired == DesiredRunning then m.track[name := FORCED] else m.track;
        Served(Touched(m, name, if kept then m.records else m.records[name := r], track),
               if kept then d else Save(d, r, w), true)
  }

  function Apply(m: Mem, d: Disk, p: Prim): Served {
    match p
    case PutRecord(sp, w) => if Valid(sp) then Put(m, d, sp, w) else Served(m, d, false)
    case DeleteRecord(name, w) => Delete(m, d, name, w)
    case SetDesired(name, desired, w) => Desire(m, d, name, desired, w)
    case MarkRestart(name) =>
      Served(Touched(m, name, m.records, m.track[name := Track(m, name).(restart := true)]), d, true)
    case SaveProject(project, p, w) =>
      Served(if w == Done then m.(projects := m.projects[project := p]) else m,
             if w == FailedBefore then d else d.(projects := d.projects[project := p]), w == Done)
    case DropProject(project, w) =>
      Served(if w == Done then m.(projects := Without(m.projects, project)) else m,
             if w == FailedBefore then d else d.(projects := Without(d.projects, project)), w == Done)
  }

  // The declaration an API call is about, if it is about one.
  function Subject(p: Prim): Option<string> {
    match p
    case PutRecord(sp, _) => Some(sp.name)
    case DeleteRecord(name, _) => Some(name)
    case SetDesired(name, _, _) => Some(name)
    case MarkRestart(name) => Some(name)
    case SaveProject(_, _, _) => None
    case DropProject(_, _) => None
  }

  // ---- timings ----

  const START_CONFIRM: int := START_SECONDS * SECOND
  const BACKOFF_MAX: int := BACKOFF_MAX_SECONDS * SECOND

  const TWO64: int := 0x1_0000_0000_0000_0000

  function Wrap64(x: int): int { (x + TWO64 / 2) % TWO64 - TWO64 / 2 }

  function Sat64(x: int): int {
    if x >= TWO64 / 2 then TWO64 / 2 - 1 else if x < -TWO64 / 2 then -TWO64 / 2 else x
  }

  // The wait before attempt n, in int64 nanoseconds.
  function Gap(n: int): int {
    var d := Wrap64(Wrap64(n * BACKOFF_SECONDS) * SECOND);
    if d < BACKOFF_MAX then d else BACKOFF_MAX
  }

  // ---- the sections of reconcile ----

  datatype Config = Config(bootTime: Time)

  // The locals of reconcile: the record it holds, the container it was listed with (none
  // once removed), and the time it read.
  datatype Ctx = Ctx(name: string, rec: Record, c: Option<Container>, now: Time)

  // The engine call reconcile waits for, by where it continues.
  datatype Why = Recreate | StopDeclared | StopToRestart | Launch | Check

  datatype Call = CallRemove | CallStop | CallStart | CallRun | CallCheck

  function CallOf(why: Why, x: Ctx): Call {
    match why
    case Recreate => CallRemove
    case StopDeclared => CallStop
    case StopToRestart => CallStop
    case Launch => if x.c.Some? && Elems(x.rec.spec.devices) == [] then CallStart else CallRun
    case Check => CallCheck
  }

  // Where a section ended: reconcile is over, with its next deadline, or it asked the engine.
  datatype Ctl = Over(due: Time) | Ask(why: Why, ctx: Ctx)

  // A section works on the tracking of its name alone.
  datatype Section = Section(track: Tracking, ctl: Ctl)

  predicate Up(c: Option<Container>) { c.Some? && c.value.Running() }

  // The first dependency that is not ready.
  function Unready(m: Mem, ds: seq<Dependency>): Option<Note> {
    if ds == [] then None
    else
      var d := NormalDependency(ds[0]);
      if d.name !in m.records then Some(WaitingFor(d.name, NotDeclared))
      else if Track(m, d.name).phase != Running then Some(WaitingFor(d.name, NotRunning))
      else if d.ready == ReadyHealthy && Track(m, d.name).health != Healthy then Some(WaitingFor(d.name, NotHealthy))
      else Unready(m, ds[1..])
  }

  function Context(m: Mem, name: string, now: Time): Ctx
    requires name in m.records
  {
    Ctx(name, m.records[name], Get(m.observed, name), now)
  }

  // Reconcile starts on one name.
  function Begin(m: Mem, cfg: Config, x: Ctx): Section {
    var t := Track(m, x.name);
    if x.c.Some? && x.c.value.specLabel != Some(Digest(x.rec.spec)) then Section(t, Ask(Recreate, x))
    else Judge(m, cfg, x, t)
  }

  function Judge(m: Mem, cfg: Config, x: Ctx, t: Tracking): Section {
    if x.rec.desired == DesiredStopped then
      if Up(x.c) then Section(t, Ask(StopDeclared, x)) else Section(Settled(x), Over(ZERO))
    else if Up(x.c) then
      if t.restart then Section(t, Ask(StopToRestart, x)) else Observe(x, t)
    else
      JudgeDown(m, cfg, x, Detached(t))
  }

  // Desired stopped, and not running.
  function Settled(x: Ctx): Tracking {
    FRESH.(phase := Stopped, handledExit := if x.c.Some? then x.c.value.exitedAt else ZERO)
  }

  // Not running: no run for the health state to be about.
  function Detached(t: Tracking): Tracking {
    t.(restart := false, health := NoHealth, failures := 0, healthRun := ZERO)
  }

  // ---- a running container ----

  function Confirmed(x: Ctx): Time
    requires x.c.Some?
  {
    x.c.value.startedAt + START_CONFIRM
  }

  function Seen(t: Tracking, x: Ctx): Tracking
    requires x.c.Some?
  {
    t.(restart := false, force := false, err := NoNote, phase := if x.now < Confirmed(x) then Starting else Running)
  }

  // The health state belongs to one run.
  function Attached(t: Tracking, x: Ctx): Tracking
    requires x.c.Some?
  {
    if t.healthRun == x.c.value.startedAt then t
    else t.(healthRun := x.c.value.startedAt, health := HealthStarting, failures := 0, nextHealth := Confirmed(x))
  }

  function RunningDue(x: Ctx): Time
    requires x.c.Some?
  {
    if x.now < Confirmed(x) then Confirmed(x) else ZERO
  }

  function HealthDue(x: Ctx, due: Time): Time
    requires x.c.Some?
  {
    var next := RunningDue(x);
    if next == ZERO || due < next then due else next
  }

  function Observe(x: Ctx, t: Tracking): Section
    requires x.c.Some?
  {
    var u := Seen(t, x);
    if x.rec.spec.health.None? then Section(u, Over(RunningDue(x)))
    else
      var v := Attached(u, x);
      if x.now < v.nextHealth then Section(v, Over(HealthDue(x, v.nextHealth))) else Section(v, Ask(Check, x))
  }

  // A health check came back.
  function Checked(t: Tracking, h: Health, x: Ctx, o: Outcome): Tracking
    requires x.c.Some?
  {
    var u := t.(nextHealth := x.now + h.interval * SECOND,
                err := if o.error.Some? then CheckFailed(o.error.value) else t.err);
    if o.pass then u.(health := Healthy, failures := 0)
    else if Sat64(x.now - x.c.value.startedAt) < h.startPeriod * SECOND then u
    else
      var v := u.(failures := u.failures + 1);
      if v.failures < h.retries || v.health == Unhealthy then v else v.(health := Unhealthy)
  }

  // ---- a container that is not running ----

  // There is no run of this boot to judge, or the API asks for a start whatever there is.
  predicate NeverRan(cfg: Config, x: Ctx, t: Tracking) {
    t.force || x.c.None? || x.c.value.startedAt == ZERO || x.c.value.startedAt < cfg.bootTime
  }

  predicate Decided(x: Ctx, t: Tracking) {
    x.c.Some? && x.c.value.exitedAt == t.handledExit
  }

  function JudgeDown(m: Mem, cfg: Config, x: Ctx, t: Tracking): Section {
    if NeverRan(cfg, x, t) then
      if !t.force && t.phase == Fatal then Section(t, Over(ZERO))
      else if !t.force && t.phase == Backoff && x.now < t.nextAttempt then Section(t, Over(t.nextAttempt))
      else Start(m, x, if t.force || t.phase == NoPhase || t.phase == Stopped then FRESH else t)
    else if t.phase == Fatal || (t.phase == Exited && Decided(x, t)) then Section(t, Over(ZERO))
    else if t.phase == Waiting && Decided(x, t) then Start(m, x, t)
    else if t.phase == Backoff && Decided(x, t) then
      if x.now < t.nextAttempt then Section(t, Over(t.nextAttempt)) else Start(m, x, t)
    else JudgeExit(m, x, t)
  }

  function PolicyOf(x: Ctx): Policy { NormalRestart(x.rec.spec.restart).policy }

  predicate Restarts(x: Ctx)
    requires x.c.Some?
  {
    PolicyOf(x) == PolicyAlways || (PolicyOf(x) == PolicyOnFailure && x.c.value.exitCode != 0)
  }

  // The tallies after an exit: those of a container that never reached running, or of one
  // that keeps stopping. The number is the attempt now due.
  function Tallied(x: Ctx, t: Tracking): (Tracking, int)
    requires x.c.Some?
  {
    var ran := Sat64(x.c.value.exitedAt - x.c.value.startedAt);
    var u := if ran > BACKOFF_MAX then t.(startAttempts := 0, restarts := 0) else t;
    var v := u.(handledExit := x.c.value.exitedAt);
    if !Restarts(x) then (v.(phase := Exited), 0)
    else if ran < START_CONFIRM then
      var w := v.(startAttempts := v.startAttempts + 1);
      (w.(phase := if w.startAttempts > START_RETRIES then Fatal else Backoff), w.startAttempts)
    else
      var w := v.(restarts := v.restarts + 1);
      var limit := x.rec.spec.restart.maxRestarts;
      (w.(phase := if limit > 0 && w.restarts > limit then Fatal else Backoff), w.restarts)
  }

  // An exit not yet decided on.
  function JudgeExit(m: Mem, x: Ctx, t: Tracking): Section
    requires x.c.Some?
  {
    var (u, n) := Tallied(x, t);
    if u.phase != Backoff then Section(u, Over(ZERO))
    else
      var v := u.(nextAttempt := x.now + Gap(n));
      if x.now < v.nextAttempt then Section(v, Over(v.nextAttempt)) else Start(m, x, v)
  }

  // ---- starting ----

  function Start(m: Mem, x: Ctx, t: Tracking): Section {
    if x.name in m.foreign && x.c.None? then
      Section(t.(phase := Waiting, err := HeldBy(m.foreign[x.name].id)), Over(ZERO))
    else
      match Unready(SetTrack(m, x.name, t), Elems(x.rec.spec.dependsOn))
      case Some(note) => Section(t.(phase := Waiting, err := note), Over(x.now + SECOND))
      case None => Section(t, Ask(Launch, x))
  }

  function Launched(t: Tracking, x: Ctx, o: Outcome): Section {
    if o.error.Some? then
      var u := t.(force := false, err := EngineFailed(o.error.value), startAttempts := t.startAttempts + 1);
      if u.startAttempts > START_RETRIES then Section(u.(phase := Fatal), Over(ZERO))
      else
        var at := x.now + Gap(u.startAttempts);
        Section(u.(phase := Backoff, nextAttempt := at), Over(at))
    else Section(t.(force := false, err := NoNote, phase := Starting), Over(x.now + START_CONFIRM))
  }

  // ---- after an engine call no API call overtook ----

  function Resume(m: Mem, cfg: Config, why: Why, x: Ctx, o: Outcome): Section {
    var t := Track(m, x.name);
    match why
    case Launch => Launched(t, x, o)
    case Check =>
      if x.c.None? || x.rec.spec.health.None? then Section(t, Over(ZERO))
      else
        var u := Checked(t, NormalHealth(x.rec.spec.health.value), x, o);
        Section(u, Over(HealthDue(x, u.nextHealth)))
    case Recreate =>
      if o.error.Some? then Section(t.(err := EngineFailed(o.error.value)), Over(ZERO))
      else Judge(m, cfg, x.(c := None), if x.rec.desired == DesiredRunning && !t.force then FORCED else t)
    case StopDeclared =>
      if o.error.Some? then Section(t.(err := EngineFailed(o.error.value)), Over(ZERO))
      else Section(Settled(x), Over(ZERO))
    case StopToRestart =>
      if o.error.Some? then Section(t.(err := EngineFailed(o.error.value)), Over(ZERO))
      else Start(m, x, t.(restart := false))
  }

  // What a section leaves: the tracking of its name, and no container of the name once
  // one was removed.
  function Store(m: Mem, name: string, sec: Section): Mem { SetTrack(m, name, sec.track) }

  function Freed(m: Mem, why: Why, x: Ctx, o: Outcome): Mem {
    if why == Recreate && o.error.None? then m.(observed := Without(m.observed, x.name)) else m
  }
}
