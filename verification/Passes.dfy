// A whole pass as a function of what the world does meanwhile: the API calls and the
// outcome that fall into each stretch in which the pass has released the lock, and what
// each reading of the clock returns. Every pass is a run of the machine of steps.
module Passes {
  import opened Basics
  import opened Specs
  import opened Sections
  import opened Machine

  // One stretch without the lock: the API calls served in it, and how the engine call ended.
  datatype Window = Window(api: seq<Prim>, o: Outcome)

  const QUIET := Window([], Outcome(None, true))

  // The windows and clock readings still to come; after the last, nothing happens and time
  // stands still.
  datatype World = World(mem: Mem, disk: Disk, windows: seq<Window>, clock: seq<Time>, log: seq<Issue>)

  function NextWindow(w: World): Window { if w.windows == [] then QUIET else w.windows[0] }
  function Later<T>(s: seq<T>): seq<T> { if s == [] then [] else s[1..] }

  function NextTime(w: World): Time { if w.clock == [] then ZERO else w.clock[0] }
  function Tick(w: World): World { if |w.clock| > 1 then w.(clock := w.clock[1..]) else w }

  function ServeOne(w: World, p: Prim): World {
    var r := Apply(w.mem, w.disk, p);
    w.(mem := r.mem, disk := r.disk)
  }

  function ServeAll(w: World, ps: seq<Prim>): World
    decreases |ps|
  {
    if ps == [] then w else ServeAll(ServeOne(w, ps[0]), ps[1..])
  }

  // The lock released around an engine call.
  function Release(w: World, i: Issue): World {
    ServeAll(w.(windows := Later(w.windows), log := w.log + [i]), NextWindow(w).api)
  }

  datatype Ended = Ended(world: World, due: Time)

  function Keep(w: World, name: string, t: Tracking): World { w.(mem := SetTrack(w.mem, name, t)) }

  // The engine calls a section may lead to one after another: a removal or a stop, then a launch.
  function Rank(c: Ctl): nat {
    if c.Over? then 0 else if c.why == Recreate || c.why == StopToRestart then 2 else 1
  }

  lemma ResumeRanks(m: Mem, cfg: Config, why: Why, x: Ctx, o: Outcome)
    ensures Rank(Resume(m, cfg, why, x, o).ctl) < Rank(Ask(why, x))
  {
  }

  // Reconcile from the end of a section on.
  function Continue(w: World, cfg: Config, x: Ctx, sec: Section): Ended
    decreases Rank(sec.ctl)
  {
    var w1 := Keep(w, x.name, sec.track);
    match sec.ctl
    case Over(due) => Ended(w1, due)
    case Ask(why, y) =>
      var o := NextWindow(w1).o;
      var w2 := Release(w1, Issue(y.name, CallOf(why, y)));
      if Changed(w2.mem, x.name) != Changed(w1.mem, x.name) then Ended(w2, ZERO)
      else
        var m := Freed(w2.mem, why, y, o);
        ResumeRanks(m, cfg, why, y, o);
        Continue(w2.(mem := m), cfg, y, Resume(m, cfg, why, y, o))
  }

  function ReconcileOne(w: World, cfg: Config, name: string): Ended
    requires name in w.mem.records
  {
    var x := Context(w.mem, name, NextTime(w));
    Continue(Tick(w), cfg, x, Begin(w.mem, cfg, x))
  }

  // The names a pass set out with, in order; one no longer declared is skipped.
  function ReconcileAll(w: World, cfg: Config, names: seq<string>, due: Time): Ended
    decreases |names|
  {
    if names == [] then Ended(w, due)
    else if names[0] in w.mem.records then
      var e := ReconcileOne(w, cfg, names[0]);
      ReconcileAll(e.world, cfg, names[1..], Sooner(due, e.due))
    else ReconcileAll(w, cfg, names[1..], due)
  }

  // The deadlines reconcile leaves, name by name.
  function Deadlines(w: World, cfg: Config, names: seq<string>): seq<Time>
    decreases |names|
  {
    if names == [] then []
    else if names[0] in w.mem.records then
      var e := ReconcileOne(w, cfg, names[0]);
      [e.due] + Deadlines(e.world, cfg, names[1..])
    else Deadlines(w, cfg, names[1..])
  }

  // The first of the deadlines; none where none is set.
  ghost predicate IsFirst(due: Time, deadlines: seq<Time>) {
    && (due == ZERO <==> forall d :: d in deadlines ==> d == ZERO)
    && (due != ZERO ==> due in deadlines && forall d :: d in deadlines && d != ZERO ==> due <= d)
  }

  lemma OneIsFirst(due: Time)
    ensures IsFirst(due, [due] + [])
  {
    assert due in [due] + [];
    assert forall d :: d in [due] + [] ==> d == due;
  }

  // The sooner of two deadlines stands for both.
  lemma FirstOfTwo(a: Time, b: Time, rest: seq<Time>, due: Time)
    requires IsFirst(due, [Sooner(a, b)] + rest)
    ensures IsFirst(due, [a] + ([b] + rest))
  {
    var all, fewer := [a] + ([b] + rest), [Sooner(a, b)] + rest;
    assert forall d :: d in all <==> d == a || d == b || d in rest;
    assert forall d :: d in fewer <==> d == Sooner(a, b) || d in rest;
    assert a in all && b in all && Sooner(a, b) in fewer;
  }

  // A pass is due at the first deadline any of its names left.
  lemma {:induction false} DueIsFirst(w: World, cfg: Config, names: seq<string>, due: Time)
    ensures IsFirst(ReconcileAll(w, cfg, names, due).due, [due] + Deadlines(w, cfg, names))
    decreases |names|
  {
    hide ReconcileOne, IsFirst, Sooner;
    if names == [] {
      assert IsFirst(due, [due] + []) by { OneIsFirst(due); }
    } else {
      if names[0] in w.mem.records {
        var e := ReconcileOne(w, cfg, names[0]);
        var rest, now := Deadlines(e.world, cfg, names[1..]), Sooner(due, e.due);
        DueIsFirst(e.world, cfg, names[1..], now);
        assert Deadlines(w, cfg, names) == [e.due] + rest;
        FirstOfTwo(due, e.due, rest, ReconcileAll(w, cfg, names, due).due);
      } else {
        DueIsFirst(w, cfg, names[1..], due);
      }
    }
  }

  // Sorting out the listing: foreign containers, those nothing declares, which are removed,
  // and those to reconcile.
  function ObserveAll(w: World, listed: seq<Container>): World
    decreases |listed|
  {
    if listed == [] then w
    else
      var c := listed[0];
      var w1 :=
        if !c.managed then w.(mem := w.mem.(foreign := w.mem.foreign[c.name := c]))
        else if c.name !in w.mem.records then Release(w, Issue(c.name, CallRemove))
        else w.(mem := w.mem.(observed := w.mem.observed[c.name := c]));
      ObserveAll(w1, listed[1..])
  }

  // The networks are removed without the lock, and the phases published.
  function Unnetworked(w: World): World {
    ServeAll(w.(windows := Later(w.windows)), NextWindow(w).api)
  }

  function CloseAll(w: World): World {
    var w1 := Unnetworked(w);
    w1.(mem := Published(w1.mem))
  }

  function Forgotten(w: World): World { w.(mem := w.mem.(observed := map[], foreign := map[])) }

  ghost function Handled(w: World, cfg: Config, listed: seq<Container>): Ended {
    var w1 := ObserveAll(Forgotten(w), listed);
    ReconcileAll(w1, cfg, SortedKeys(w1.mem.records.Keys), ZERO)
  }

  ghost function PassOf(w: World, cfg: Config, listed: seq<Container>): Ended {
    var e := Handled(w, cfg, listed);
    Ended(CloseAll(e.world), e.due)
  }

  // The deadlines the names of a pass leave.
  ghost function DeadlinesOf(w: World, cfg: Config, listed: seq<Container>): seq<Time> {
    var w1 := ObserveAll(Forgotten(w), listed);
    Deadlines(w1, cfg, SortedKeys(w1.mem.records.Keys))
  }

  lemma PassDueIsFirst(w: World, cfg: Config, listed: seq<Container>)
    ensures IsFirst(PassOf(w, cfg, listed).due, DeadlinesOf(w, cfg, listed))
  {
    hide ObserveAll, ReconcileAll, Deadlines;
    var w1 := ObserveAll(Forgotten(w), listed);
    var ds := DeadlinesOf(w, cfg, listed);
    DueIsFirst(w1, cfg, SortedKeys(w1.mem.records.Keys), ZERO);
    assert forall d :: d in [ZERO] + ds <==> d == ZERO || d in ds;
  }

  // ---- a pass is a run of the machine ----

  // The machine where the world is, with its lock state.
  function Sysof(cfg: Config, w: World, pc: Pc, published: seq<Change>): Sys {
    On(cfg, w.mem, w.disk, pc, published)
  }

  function Calls(i: Option<Issue>): seq<Issue> {
    match i
    case None => []
    case Some(issue) => [issue]
  }

  // The engine calls a run begins.
  ghost function AllCalls(s: Sys, steps: seq<Step>): seq<Issue>
    decreases |steps|
  {
    if steps == [] then [] else Calls(Issued(s, steps[0])) + AllCalls(Do(s, steps[0]), steps[1..])
  }

  // The steps lead from s to t and begin these engine calls.
  ghost predicate Leads(s: Sys, steps: seq<Step>, t: Sys, calls: seq<Issue>) {
    Run(s, steps) == t && AllCalls(s, steps) == calls
  }

  lemma LeadsNowhere(s: Sys)
    ensures Leads(s, [], s, [])
  {
  }

  lemma LeadsOne(s: Sys, st: Step)
    ensures Leads(s, [st], Do(s, st), Calls(Issued(s, st)))
  {
    hide Do, Issued;
    assert [st][1..] == [];
    assert Run(Do(s, st), []) == Do(s, st);
    assert AllCalls(Do(s, st), []) == [];
  }

  lemma {:induction false} CallsAppend(s: Sys, a: seq<Step>, b: seq<Step>)
    ensures AllCalls(s, a + b) == AllCalls(s, a) + AllCalls(Run(s, a), b)
    decreases |a|
  {
    hide Do, Issued, Calls;
    if a == [] {
      assert a + b == b;
    } else {
      assert (a + b)[0] == a[0] && (a + b)[1..] == a[1..] + b;
      CallsAppend(Do(s, a[0]), a[1..], b);
    }
  }

  lemma LeadsThen(s: Sys, a: seq<Step>, t: Sys, ca: seq<Issue>, b: seq<Step>, u: Sys, cb: seq<Issue>)
    requires Leads(s, a, t, ca) && Leads(t, b, u, cb)
    ensures Leads(s, a + b, u, ca + cb)
  {
    hide Do, Issued, Run, AllCalls;
    RunAppend(s, a, b);
    CallsAppend(s, a, b);
  }

  lemma ServeAllKeepsLog(w: World, ps: seq<Prim>)
    ensures ServeAll(w, ps).log == w.log
    decreases |ps|
  {
    hide Apply;
    if ps != [] { ServeAllKeepsLog(ServeOne(w, ps[0]), ps[1..]); }
  }

  lemma {:induction false} ServingRuns(cfg: Config, w: World, ps: seq<Prim>, pc: Pc, pub: seq<Change>)
    returns (steps: seq<Step>)
    requires LockFree(pc)
    ensures Leads(Sysof(cfg, w, pc, pub), steps, Sysof(cfg, ServeAll(w, ps), pc, pub), [])
    decreases |ps|
  {
    var s := Sysof(cfg, w, pc, pub);
    steps := [];
    LeadsNowhere(s);
    if ps != [] {
      var rest := ServingRuns(cfg, ServeOne(w, ps[0]), ps[1..], pc, pub);
      LeadsOne(s, Api(ps[0]));
      ServingStep(cfg, w, ps[0], pc, pub);
      LeadsThen(s, [Api(ps[0])], Sysof(cfg, ServeOne(w, ps[0]), pc, pub), [], rest,
        Sysof(cfg, ServeAll(w, ps), pc, pub), []);
      hide Leads;
      steps := [Api(ps[0])] + rest;
    }
  }

  lemma ServingStep(cfg: Config, w: World, p: Prim, pc: Pc, pub: seq<Change>)
    requires LockFree(pc)
    ensures Do(Sysof(cfg, w, pc, pub), Api(p)) == Sysof(cfg, ServeOne(w, p), pc, pub)
    ensures Issued(Sysof(cfg, w, pc, pub), Api(p)) == None
  {
    hide Apply;
  }

  function Asking(sec: Section): seq<Issue> {
    match sec.ctl
    case Over(_) => []
    case Ask(why, y) => [Issue(y.name, CallOf(why, y))]
  }

  // The step a section ends with begins the call it asks for.
  lemma AfterIssues(s: Sys, m: Mem, x: Ctx, sec: Section, names: seq<string>, st: Step)
    requires s.On? && (s.pc.Reconciling? || s.pc.Awaiting?) && Do(s, st) == After(s, m, x, sec, names)
    requires (st.Pick? && s.pc.Reconciling?) || (st.Finish? && s.pc.Awaiting?)
    ensures Calls(Issued(s, st)) == Asking(sec)
  {
    hide Do;
  }

  // From the state the end of a section leads to, through its engine calls.
  lemma {:induction false} ContinueRuns(w: World, cfg: Config, x: Ctx, sec: Section, l: seq<Container>,
                                        names: seq<string>,
                                        pub: seq<Change>, s: Sys) returns (steps: seq<Step>, calls: seq<Issue>)
    requires s.On? && s.cfg == cfg && s.disk == w.disk && s.published == pub
    requires s.pc.Reconciling? || s.pc.Awaiting?
    requires s.pc.listing == l && AsksOf(sec.ctl, x.name)
    ensures var e := Continue(w, cfg, x, sec).world;
            && Leads(After(s, w.mem, x, sec, names), steps, Sysof(cfg, e, Reconciling(l, names), pub), calls)
            && e.log == w.log + Asking(sec) + calls
    decreases Rank(sec.ctl)
  {
    hide Leads, Resume, ServeAll, Do, Issued, FinishCall, Digest;
    steps, calls := [], [];
    var w1 := Keep(w, x.name, sec.track);
    LeadsNowhere(After(s, w.mem, x, sec, names));
    if sec.ctl.Ask? {
      var why, y := sec.ctl.why, sec.ctl.ctx;
      var pc := Awaiting(l, why, y, Changed(w.mem, x.name), names);
      var w1' := w1.(windows := Later(w1.windows), log := w1.log + [Issue(y.name, CallOf(why, y))]);
      var api := ServingRuns(cfg, w1', NextWindow(w1).api, pc, pub);
      ServeAllKeepsLog(w1', NextWindow(w1).api);
      var o := NextWindow(w1).o;
      var w2 := Release(w1, Issue(y.name, CallOf(why, y)));
      var s2 := Sysof(cfg, w2, pc, pub);
      LeadsOne(s2, Finish(o));
      if Changed(w2.mem, x.name) == Changed(w1.mem, x.name) {
        var m := Freed(w2.mem, why, y, o);
        var sec2 := Resume(m, cfg, why, y, o);
        ResumeRanks(m, cfg, why, y, o);
        ResumeAsksOf(m, cfg, why, y, o);
        FinishGoesOn(s2, o);
        AfterIssues(s2, m, y, sec2, names, Finish(o));
        var rest, more := ContinueRuns(w2.(mem := m), cfg, y, sec2, l, names, pub, s2);
        var e := Sysof(cfg, Continue(w, cfg, x, sec).world, Reconciling(l, names), pub);
        LeadsThen(s2, [Finish(o)], After(s2, m, y, sec2, names), Asking(sec2), rest, e, more);
        LeadsThen(After(s, w.mem, x, sec, names), api, s2, [], [Finish(o)] + rest, e, Asking(sec2) + more);
        steps, calls := api + ([Finish(o)] + rest), [] + (Asking(sec2) + more);
      } else {
        FinishEnds(s2, o);
        var e := s2.(pc := Reconciling(l, names));
        LeadsThen(After(s, w.mem, x, sec, names), api, s2, [], [Finish(o)], e, []);
        steps, calls := api + [Finish(o)], [] + [];
      }
    }
  }

  lemma FinishGoesOn(s: Sys, o: Outcome)
    requires s.On? && s.pc.Awaiting? && Changed(s.mem, s.pc.ctx.name) == s.pc.seen
    ensures var m := Freed(s.mem, s.pc.why, s.pc.ctx, o);
            Do(s, Finish(o)) == After(s, m, s.pc.ctx, Resume(m, s.cfg, s.pc.why, s.pc.ctx, o), s.pc.names)
  {
    hide Resume, After;
  }

  lemma FinishEnds(s: Sys, o: Outcome)
    requires s.On? && s.pc.Awaiting? && Changed(s.mem, s.pc.ctx.name) != s.pc.seen
    ensures Do(s, Finish(o)) == s.(pc := Reconciling(s.pc.listing, s.pc.names)) && Issued(s, Finish(o)) == None
  {
    hide Resume, After;
  }

  ghost predicate AsksOf(c: Ctl, name: string) { c.Ask? ==> c.ctx.name == name }

  lemma ResumeAsksOf(m: Mem, cfg: Config, why: Why, x: Ctx, o: Outcome)
    ensures AsksOf(Resume(m, cfg, why, x, o).ctl, x.name)
  {
    hide Digest, Tallied, Unready;
  }

  lemma BeginAsksOf(m: Mem, cfg: Config, x: Ctx)
    ensures AsksOf(Begin(m, cfg, x).ctl, x.name)
  {
    hide Digest, Tallied, Unready;
  }

  lemma OneRuns(w: World, cfg: Config, l: seq<Container>, names: seq<string>, pub: seq<Change>)
    returns (steps: seq<Step>, calls: seq<Issue>)
    requires names != []
    ensures var after := if names[0] in w.mem.records then ReconcileOne(w, cfg, names[0]).world else w;
            && Leads(Sysof(cfg, w, Reconciling(l, names), pub), steps,
               Sysof(cfg, after, Reconciling(l, names[1..]), pub), calls)
            && after.log == w.log + calls
  {
    hide Leads, Begin;
    var s := Sysof(cfg, w, Reconciling(l, names), pub);
    var now := NextTime(w);
    LeadsOne(s, Pick(now));
    steps, calls := [Pick(now)], [];
    if names[0] in w.mem.records {
      var x := Context(w.mem, names[0], now);
      var sec := Begin(w.mem, cfg, x);
      BeginAsksOf(w.mem, cfg, x);
      PickGoesOn(s, now);
      AfterIssues(s, w.mem, x, sec, names[1..], Pick(now));
      var rest, more := ContinueRuns(Tick(w), cfg, x, sec, l, names[1..], pub, s);
      LeadsThen(s, [Pick(now)], After(s, w.mem, x, sec, names[1..]), Asking(sec),
                rest, Sysof(cfg, ReconcileOne(w, cfg, names[0]).world, Reconciling(l, names[1..]), pub), more);
      steps, calls := [Pick(now)] + rest, Asking(sec) + more;
    } else {
      PickSkips(s, now);
    }
  }

  lemma PickGoesOn(s: Sys, now: Time)
    requires s.On? && s.pc.Reconciling? && s.pc.names != [] && s.pc.names[0] in s.mem.records
    ensures var x := Context(s.mem, s.pc.names[0], now);
            Do(s, Pick(now)) == After(s, s.mem, x, Begin(s.mem, s.cfg, x), s.pc.names[1..])
  {
    hide Begin, After;
  }

  lemma PickSkips(s: Sys, now: Time)
    requires s.On? && s.pc.Reconciling? && s.pc.names != [] && s.pc.names[0] !in s.mem.records
    ensures Do(s, Pick(now)) == s.(pc := Reconciling(s.pc.listing, s.pc.names[1..])) && Issued(s, Pick(now)) == None
  {
    hide Begin, After;
  }

  lemma {:induction false} ReconcilingRuns(w: World, cfg: Config, l: seq<Container>, names: seq<string>, due: Time,
                                           pub: seq<Change>) returns (steps: seq<Step>, calls: seq<Issue>)
    ensures var e := ReconcileAll(w, cfg, names, due).world;
            && Leads(Sysof(cfg, w, Reconciling(l, names), pub), steps, Sysof(cfg, e, Reconciling(l, []), pub), calls)
            && e.log == w.log + calls
    decreases |names|
  {
    hide Leads, ReconcileOne;
    var s := Sysof(cfg, w, Reconciling(l, names), pub);
    steps, calls := [], [];
    LeadsNowhere(s);
    if names != [] {
      var one, c := OneRuns(w, cfg, l, names, pub);
      var e := if names[0] in w.mem.records then ReconcileOne(w, cfg, names[0]) else Ended(w, ZERO);
      var rest, more := ReconcilingRuns(e.world, cfg, l, names[1..],
                                        if names[0] in w.mem.records then Sooner(due, e.due) else due, pub);
      LeadsThen(s, one, Sysof(cfg, e.world, Reconciling(l, names[1..]), pub), c,
                rest, Sysof(cfg, ReconcileAll(w, cfg, names, due).world, Reconciling(l, []), pub), more);
      steps, calls := one + rest, c + more;
    }
  }

  lemma {:induction false} ObservingRuns(w: World, cfg: Config, l: seq<Container>, rest: seq<Container>,
                                         pub: seq<Change>)
    returns (steps: seq<Step>, calls: seq<Issue>)
    ensures var e := ObserveAll(w, rest);
            && Leads(Sysof(cfg, w, Observing(l, rest), pub), steps, Sysof(cfg, e, Observing(l, []), pub), calls)
            && e.log == w.log + calls
    decreases |rest|
  {
    hide Leads, ServeAll;
    var s := Sysof(cfg, w, Observing(l, rest), pub);
    var end := Sysof(cfg, ObserveAll(w, rest), Observing(l, []), pub);
    steps, calls := [], [];
    LeadsNowhere(s);
    if rest != [] {
      var c := rest[0];
      LeadsOne(s, ObserveStep);
      if c.managed && c.name !in w.mem.records {
        var pc := Removing(c.name, l, rest[1..]);
        var w1 := w.(windows := Later(w.windows), log := w.log + [Issue(c.name, CallRemove)]);
        ObserveRemoves(s);
        var api := ServingRuns(cfg, w1, NextWindow(w).api, pc, pub);
        ServeAllKeepsLog(w1, NextWindow(w).api);
        var w2 := Release(w, Issue(c.name, CallRemove));
        var s2 := Sysof(cfg, w2, pc, pub);
        LeadsOne(s2, Removed);
        RemovedGoesOn(s2);
        var more, d := ObservingRuns(w2, cfg, l, rest[1..], pub);
        LeadsThen(s2, [Removed], Sysof(cfg, w2, Observing(l, rest[1..]), pub), [], more, end, d);
        LeadsThen(Sysof(cfg, w, pc, pub), api, s2, [], [Removed] + more, end, [] + d);
        LeadsThen(s, [ObserveStep], Sysof(cfg, w, pc, pub), [Issue(c.name, CallRemove)], api + ([Removed] + more), end,
                  [] + ([] + d));
        steps, calls := [ObserveStep] + (api + ([Removed] + more)), [Issue(c.name, CallRemove)] + ([] + ([] + d));
      } else {
        var w1 := if !c.managed then w.(mem := w.mem.(foreign := w.mem.foreign[c.name := c]))
                  else w.(mem := w.mem.(observed := w.mem.observed[c.name := c]));
        ObserveTakes(s);
        var more, d := ObservingRuns(w1, cfg, l, rest[1..], pub);
        LeadsThen(s, [ObserveStep], Sysof(cfg, w1, Observing(l, rest[1..]), pub), [], more, end, d);
        steps, calls := [ObserveStep] + more, [] + d;
      }
    }
  }

  lemma ObserveRemoves(s: Sys)
    requires s.On? && s.pc.Observing? && s.pc.rest != [] && s.pc.rest[0].managed && s.pc.rest[0].name !in s.mem.records
    ensures var name := s.pc.rest[0].name;
            && Do(s, ObserveStep) == s.(pc := Removing(name, s.pc.listing, s.pc.rest[1..]))
            && Calls(Issued(s, ObserveStep)) == [Issue(name, CallRemove)]
  {
  }

  lemma ObserveTakes(s: Sys)
    requires s.On? && s.pc.Observing? && s.pc.rest != []
    requires !s.pc.rest[0].managed || s.pc.rest[0].name in s.mem.records
    ensures var c := s.pc.rest[0];
            var m := if !c.managed then s.mem.(foreign := s.mem.foreign[c.name := c])
                     else s.mem.(observed := s.mem.observed[c.name := c]);
            Do(s, ObserveStep) == s.(mem := m, pc := Observing(s.pc.listing, s.pc.rest[1..])) &&
              Issued(s, ObserveStep) == None
  {
  }

  lemma RemovedGoesOn(s: Sys)
    requires s.On? && s.pc.Removing?
    ensures Do(s, Removed) == s.(pc := Observing(s.pc.listing, s.pc.rest)) && Issued(s, Removed) == None
  {
  }

  // Whatever API calls fall into its windows, a pass is a sequence of steps of the machine,
  // from the listing it starts with to its publication, and the engine calls it logs are
  // those the steps begin.
  lemma APassIsARun(w: World, cfg: Config, l: seq<Container>, pub: seq<Change>) returns (steps: seq<Step>)
    ensures var e, s, all := PassOf(w, cfg, l), Sysof(cfg, w, Idle, pub), [ListStep(l), Lock] + steps;
            && Run(s, all) == Sysof(cfg, e.world, Idle, pub + Changes(Unnetworked(Handled(w, cfg, l).world).mem))
            && e.world.log == w.log + AllCalls(s, all)
  {
    hide Leads, ServeAll, ReconcileAll, ObserveAll, Changes, Phases, Run, AllCalls;
    var s, w0 := Sysof(cfg, w, Idle, pub), Forgotten(w);
    var a, ca := ObservingRuns(w0, cfg, l, l, pub);
    var w1 := ObserveAll(w0, l);
    var names := SortedKeys(w1.mem.records.Keys);
    var b, cb := ReconcilingRuns(w1, cfg, l, names, ZERO, pub);
    var w2 := ReconcileAll(w1, cfg, names, ZERO).world;
    var c := ClosingRuns(w2, cfg, l, pub);
    var end := Sysof(cfg, CloseAll(w2), Idle, pub + Changes(Unnetworked(w2).mem));
    Opening(w, cfg, l, pub);
    Turning(w1, cfg, l, pub);
    LeadsThen(Sysof(cfg, w1, Reconciling(l, names), pub), b, Sysof(cfg, w2, Reconciling(l, []), pub), cb, c, end, []);
    LeadsThen(Sysof(cfg, w1, Observing(l, []), pub), [ObserveStep], Sysof(cfg, w1, Reconciling(l, names), pub), [],
              b + c, end, cb + []);
    LeadsThen(Sysof(cfg, w0, Observing(l, l), pub), a, Sysof(cfg, w1, Observing(l, []), pub), ca,
              [ObserveStep] + (b + c), end, [] + (cb + []));
    steps := a + ([ObserveStep] + (b + c));
    LeadsThen(s, [ListStep(l), Lock], Sysof(cfg, w0, Observing(l, l), pub), [], steps, end, ca + ([] + (cb + [])));
    ServeAllKeepsLog(w2.(windows := Later(w2.windows)), NextWindow(w2).api);
    LeadsMeans(s, [ListStep(l), Lock] + steps, end, [] + (ca + ([] + (cb + []))));
  }

  lemma LeadsMeans(s: Sys, steps: seq<Step>, t: Sys, calls: seq<Issue>)
    requires Leads(s, steps, t, calls)
    ensures Run(s, steps) == t && AllCalls(s, steps) == calls
  {
  }

  lemma Opening(w: World, cfg: Config, l: seq<Container>, pub: seq<Change>)
    ensures Leads(Sysof(cfg, w, Idle, pub), [ListStep(l), Lock], Sysof(cfg, Forgotten(w), Observing(l, l), pub), [])
  {
    hide Leads;
    LeadsOne(Sysof(cfg, w, Idle, pub), ListStep(l));
    LeadsOne(Sysof(cfg, w, Listed(l), pub), Lock);
    LeadsThen(Sysof(cfg, w, Idle, pub), [ListStep(l)], Sysof(cfg, w, Listed(l), pub), [],
              [Lock], Sysof(cfg, Forgotten(w), Observing(l, l), pub), []);
    assert [ListStep(l)] + [Lock] == [ListStep(l), Lock];
    var none: seq<Issue> := [];
    assert none + none == none;
  }

  lemma Turning(w: World, cfg: Config, l: seq<Container>, pub: seq<Change>)
    ensures var names := SortedKeys(w.mem.records.Keys);
            Leads(Sysof(cfg, w, Observing(l, []), pub), [ObserveStep], Sysof(cfg, w, Reconciling(l, names), pub), [])
  {
    hide Leads;
    LeadsOne(Sysof(cfg, w, Observing(l, []), pub), ObserveStep);
  }

  lemma ClosingRuns(w: World, cfg: Config, l: seq<Container>, pub: seq<Change>) returns (steps: seq<Step>)
    ensures Leads(Sysof(cfg, w, Reconciling(l, []), pub), steps,
                  Sysof(cfg, CloseAll(w), Idle, pub + Changes(Unnetworked(w).mem)), [])
  {
    hide Leads, ServeAll, Changes, Phases;
    var s, w1 := Sysof(cfg, w, Reconciling(l, []), pub), w.(windows := Later(w.windows));
    var t, u := Sysof(cfg, w1, Closing, pub), Sysof(cfg, Unnetworked(w), Closing, pub);
    var end := Sysof(cfg, CloseAll(w), Idle, pub + Changes(Unnetworked(w).mem));
    LeadsOne(s, Pick(ZERO));
    assert Do(s, Pick(ZERO)) == t && Issued(s, Pick(ZERO)) == None;
    var c := ServingRuns(cfg, w1, NextWindow(w).api, Closing, pub);
    LeadsOne(u, PublishStep);
    assert Do(u, PublishStep) == end && Issued(u, PublishStep) == None;
    LeadsThen(t, c, u, [], [PublishStep], end, []);
    LeadsThen(s, [Pick(ZERO)], t, [], c + [PublishStep], end, [] + []);
    steps := [Pick(ZERO)] + (c + [PublishStep]);
    var none: seq<Issue> := [];
    assert none + (none + none) == none;
  }
}
