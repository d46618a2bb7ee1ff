// The daemon as a machine of atomic steps. The lock is free only between passes, while a
// pass waits for the engine, and while it removes networks: API calls happen there and
// nowhere else, so a sequence of steps is one interleaving of API calls with passes,
// crashes and starts of the daemon, and every interleaving is one.
module Machine {
  import opened Basics
  import opened Specs
  import opened Sections

  // ---- publishing ----

  // One container's phase moving; no phase once it is deleted.
  datatype Change = Change(name: string, phase: Option<Phase>, desired: Option<Desired>, exitCode: int)

  function PhaseOf(m: Mem, name: string): Phase {
    if Track(m, name).phase == NoPhase then Stopped else Track(m, name).phase
  }

  function Phases(m: Mem): map<string, Phase> {
    map n | n in m.records :: PhaseOf(m, n)
  }

  // What a publication says of one name: at most one change.
  function ChangeOf(m: Mem, name: string): seq<Change> {
    if name in m.records then
      if Get(m.lastPhase, name) == Some(PhaseOf(m, name)) then []
      else [Change(name, Some(PhaseOf(m, name)), Some(m.records[name].desired),
                   if name in m.observed then m.observed[name].exitCode else 0)]
    else if name in m.lastPhase then [Change(name, None, None, 0)]
    else []
  }

  function ChangesOf(m: Mem, names: seq<string>): seq<Change> {
    if names == [] then [] else ChangeOf(m, names[0]) + ChangesOf(m, names[1..])
  }

  ghost function Changes(m: Mem): seq<Change> {
    ChangesOf(m, SortedKeys(m.records.Keys + m.lastPhase.Keys))
  }

  function Published(m: Mem): Mem { m.(lastPhase := Phases(m)) }

  // ---- starting the daemon ----

  predicate Loadable(name: string, s: Saved) {
    s.spec.name == name && Valid(Decode(s.spec))
  }

  function Load(d: Disk): map<string, Record> {
    map n | n in d.records && Loadable(n, d.records[n]) :: Record(Decode(d.records[n].spec), d.records[n].desired)
  }

  function Head(ws: seq<Written>): Written { if ws == [] then Done else ws[0] }
  function Tail(ws: seq<Written>): seq<Written> { if ws == [] then [] else ws[1..] }

  datatype Raised = Raised(disk: Disk, ok: bool)

  // A new boot: every loaded record is stored desired running, then the boot is recorded.
  function Raise(d: Disk, records: map<string, Record>, order: seq<string>, ws: seq<Written>, id: string): Raised
    decreases |order|
  {
    if order == [] then
      Raised(if Head(ws) == FailedBefore then d else d.(boot := id), Head(ws) == Done)
    else if order[0] !in records then Raise(d, records, order[1..], ws, id)
    else
      var d1 := Save(d, records[order[0]].(desired := DesiredRunning), Head(ws));
      if Head(ws) != Done then Raised(d1, false) else Raise(d1, records, order[1..], Tail(ws), id)
  }

  function AllRunning(records: map<string, Record>): map<string, Record> {
    map n | n in records :: records[n].(desired := DesiredRunning)
  }

  predicate NewBoot(d: Disk, id: string) { id != "" && d.boot != id }

  // ---- the machine ----

  datatype Pc =
    | Idle
    | Listed(listing: seq<Container>)                            // listed, the lock not yet taken
    | Observing(listing: seq<Container>, rest: seq<Container>)
    | Removing(name: string, listing: seq<Container>, rest: seq<Container>)
    | Reconciling(listing: seq<Container>, names: seq<string>)
    | Awaiting(listing: seq<Container>, why: Why, ctx: Ctx, seen: nat, names: seq<string>)
    | Closing

  datatype Sys =
    | Off(disk: Disk)
    | On(cfg: Config, mem: Mem, disk: Disk, pc: Pc, published: seq<Change>)

  datatype Step =
    | Api(p: Prim)
    | ListStep(listed: seq<Container>)
    | Lock
    | ObserveStep
    | Removed
    | Pick(now: Time)
    | Finish(o: Outcome)
    | PublishStep
    | Crash
    | Boot(id: string, bootTime: Time, order: seq<string>, ws: seq<Written>)

  predicate LockFree(pc: Pc) {
    pc.Idle? || pc.Listed? || pc.Removing? || pc.Awaiting? || pc.Closing?
  }

  function After(s: Sys, m: Mem, x: Ctx, sec: Section, names: seq<string>): Sys
    requires s.On? && (s.pc.Reconciling? || s.pc.Awaiting?)
  {
    var m1 := Store(m, x.name, sec);
    match sec.ctl
    case Over(_) => s.(mem := m1, pc := Reconciling(s.pc.listing, names))
    case Ask(why, y) => s.(mem := m1, pc := Awaiting(s.pc.listing, why, y, Changed(m, x.name), names))
  }

  ghost function ObserveNext(s: Sys): Sys
    requires s.On? && s.pc.Observing?
  {
    if s.pc.rest == [] then s.(pc := Reconciling(s.pc.listing, SortedKeys(s.mem.records.Keys)))
    else
      var c, rest := s.pc.rest[0], s.pc.rest[1..];
      if !c.managed then
        s.(mem := s.mem.(foreign := s.mem.foreign[c.name := c]), pc := Observing(s.pc.listing, rest))
      else if c.name !in s.mem.records then s.(pc := Removing(c.name, s.pc.listing, rest))
      else s.(mem := s.mem.(observed := s.mem.observed[c.name := c]), pc := Observing(s.pc.listing, rest))
  }

  function PickNext(s: Sys, now: Time): Sys
    requires s.On? && s.pc.Reconciling?
  {
    if s.pc.names == [] then s.(pc := Closing)
    else
      var name, names := s.pc.names[0], s.pc.names[1..];
      if name in s.mem.records then
        var x := Context(s.mem, name, now);
        After(s, s.mem, x, Begin(s.mem, s.cfg, x), names)
      else s.(pc := Reconciling(s.pc.listing, names))
  }

  // The engine call ended: what follows is stored only if no API call touched the name.
  function FinishCall(s: Sys, o: Outcome): Sys
    requires s.On? && s.pc.Awaiting?
  {
    var x := s.pc.ctx;
    if Changed(s.mem, x.name) == s.pc.seen then
      var m := Freed(s.mem, s.pc.why, x, o);
      After(s, m, x, Resume(m, s.cfg, s.pc.why, x, o), s.pc.names)
    else s.(pc := Reconciling(s.pc.listing, s.pc.names))
  }

  function BootUp(d: Disk, st: Step): Sys
    requires st.Boot?
  {
    var records := Load(d);
    if !NewBoot(d, st.id) then
      On(Config(st.bootTime), EMPTY.(records := records, projects := d.projects), d, Idle, [])
    else
      var r := Raise(d, records, st.order, st.ws, st.id);
      if !r.ok then Off(r.disk)
      else On(Config(st.bootTime), EMPTY.(records := AllRunning(records), projects := d.projects), r.disk, Idle, [])
  }

  function Serve(s: Sys, p: Prim): Sys
    requires s.On?
  {
    var r := Apply(s.mem, s.disk, p);
    s.(mem := r.mem, disk := r.disk)
  }

  function Locked(s: Sys): Sys
    requires s.On? && s.pc.Listed?
  {
    s.(mem := s.mem.(observed := map[], foreign := map[]), pc := Observing(s.pc.listing, s.pc.listing))
  }

  ghost function Close(s: Sys): Sys
    requires s.On?
  {
    s.(mem := Published(s.mem), pc := Idle, published := s.published + Changes(s.mem))
  }

  // Booting visits every loaded record, in some order.
  ghost predicate CanBoot(d: Disk, st: Step) {
    st.Boot? && forall n :: n in Load(d) ==> n in st.order
  }

  // One step; a step that cannot happen in s changes nothing.
  ghost function Do(s: Sys, st: Step): Sys {
    match s
    case Off(d) => if CanBoot(d, st) then BootUp(d, st) else s
    case On(_, _, disk, pc, _) =>
      match st
      case Api(p) => if LockFree(pc) then Serve(s, p) else s
      case ListStep(listed) => if pc.Idle? then s.(pc := Listed(listed)) else s
      case Lock => if pc.Listed? then Locked(s) else s
      case ObserveStep => if pc.Observing? then ObserveNext(s) else s
      case Removed => if pc.Removing? then s.(pc := Observing(pc.listing, pc.rest)) else s
      case Pick(now) => if pc.Reconciling? then PickNext(s, now) else s
      case Finish(o) => if pc.Awaiting? then FinishCall(s, o) else s
      case PublishStep => if pc.Closing? then Close(s) else s
      case Crash => Off(disk)
      case Boot(_, _, _, _) => s
  }

  ghost function Run(s: Sys, steps: seq<Step>): Sys
    decreases |steps|
  {
    if steps == [] then s else Run(Do(s, steps[0]), steps[1..])
  }

  // The latest clock reading a run leaves: reconcile reads the clock where it comes to a name.
  function Clock(st: Step, clk: Time): Time { if st.Pick? then st.now else clk }

  function ClockAfter(steps: seq<Step>, clk: Time): Time {
    if steps == [] then clk else ClockAfter(steps[1..], Clock(steps[0], clk))
  }

  lemma {:induction false} RunAppend(s: Sys, a: seq<Step>, b: seq<Step>)
    ensures Run(s, a + b) == Run(Run(s, a), b)
    decreases |a|
  {
    if a == [] {
      assert a + b == b;
    } else {
      assert (a + b)[0] == a[0] && (a + b)[1..] == a[1..] + b;
      RunAppend(Do(s, a[0]), a[1..], b);
    }
  }

  lemma RunThrough(s: Sys, a: seq<Step>, st: Step, b: seq<Step>)
    ensures Run(s, a + [st] + b) == Run(Do(Run(s, a), st), b)
  {
    RunAppend(s, a, [st] + b);
    assert a + [st] + b == a + ([st] + b);
    assert ([st] + b)[1..] == b;
  }

  // The engine call a step begins, if it begins one: the pass entered a state waiting for it.
  datatype Issue = Issue(name: string, call: Call)

  ghost function Issued(s: Sys, st: Step): Option<Issue> {
    var t := Do(s, st);
    if s.Off? || t.Off? then None
    else if st.ObserveStep? && s.pc.Observing? && t.pc.Removing? then Some(Issue(t.pc.name, CallRemove))
    else if ((st.Pick? && s.pc.Reconciling?) || (st.Finish? && s.pc.Awaiting?)) && t.pc.Awaiting? then
      Some(Issue(t.pc.ctx.name, CallOf(t.pc.why, t.pc.ctx)))
    else None
  }

  predicate IsStart(i: Option<Issue>, name: string) {
    i.Some? && i.value.name == name && (i.value.call == CallStart || i.value.call == CallRun)
  }
}
