// Interleavings of API calls with a pass: a pass acts on the record it holds, and stores
// nothing of a name an API call changed meanwhile.
module Interference {
  import opened Basics
  import opened Specs
  import opened Sections
  import opened Machine

  // What reconcile knows where it asks the engine.
  ghost predicate Asked(why: Why, x: Ctx) {
    match why
    case Recreate => x.c.Some? && x.c.value.specLabel != Some(Digest(x.rec.spec))
    case StopDeclared => Up(x.c) && x.rec.desired == DesiredStopped
    case StopToRestart => Up(x.c) && x.rec.desired == DesiredRunning
    case Launch => x.rec.desired == DesiredRunning
    case Check => Up(x.c) && x.rec.desired == DesiredRunning && x.rec.spec.health.Some?
  }

  // Where a section that starts from x asks, it asks about x.
  ghost predicate AsksAbout(x: Ctx, ctl: Ctl) {
    ctl.Ask? ==> ctl.ctx == x && Asked(ctl.why, x)
  }

  lemma JudgeAsks(m: Mem, cfg: Config, x: Ctx, t: Tracking)
    ensures AsksAbout(x, Judge(m, cfg, x, t).ctl)
    ensures Judge(m, cfg, x, t).ctl.Ask? ==> Judge(m, cfg, x, t).ctl.why != Recreate
  {
    hide Digest, Unready, Tallied;
  }

  lemma BeginAsks(m: Mem, cfg: Config, x: Ctx)
    ensures AsksAbout(x, Begin(m, cfg, x).ctl)
  {
    JudgeAsks(m, cfg, x, Track(m, x.name));
  }

  lemma ResumeAsks(m: Mem, cfg: Config, why: Why, x: Ctx, o: Outcome)
    requires Asked(why, x)
    ensures AsksAbout(if why == Recreate then x.(c := None) else x, Resume(m, cfg, why, x, o).ctl)
    ensures Resume(m, cfg, why, x, o).ctl.Ask? ==> Resume(m, cfg, why, x, o).ctl.why != Recreate
  {
    var t := Track(m, x.name);
    if why == Recreate {
      JudgeAsks(m, cfg, x.(c := None), if x.rec.desired == DesiredRunning && !t.force then FORCED else t);
    }
  }

  // ---- the invariant of every run ----

  ghost predicate Declared(m: Mem) {
    && (forall n :: n in m.records ==> m.records[n].spec.name == n)
    && (forall n :: n in m.changed ==> m.changed[n] <= m.seqno)
  }

  // A pass that waits for the engine: while no API call touched the name, the record it
  // holds is the current one.
  ghost predicate Holds(m: Mem, pc: Pc)
    requires pc.Awaiting?
  {
    var x := pc.ctx;
    && Asked(pc.why, x) && pc.seen <= Changed(m, x.name)
    && (Changed(m, x.name) == pc.seen ==> Get(m.records, x.name) == Some(x.rec) && x.name in m.track)
  }

  ghost predicate Inv(s: Sys) {
    s.On? ==> Declared(s.mem) && (s.pc.Awaiting? ==> Holds(s.mem, s.pc))
  }

  // Nothing of name differs between m and m'.
  ghost predicate Same(m: Mem, m': Mem, name: string) {
    && Get(m'.records, name) == Get(m.records, name) && Get(m'.track, name) == Get(m.track, name)
    && Changed(m', name) == Changed(m, name)
  }

  // An API call that changes anything of a name advances the sequence number of the name,
  // and it changes something of no name but its subject.
  lemma ApplyTouches(m: Mem, d: Disk, p: Prim, name: string)
    requires Declared(m)
    ensures var r := Apply(m, d, p);
            && (Same(m, r.mem, name) || (Subject(p) == Some(name) && Changed(r.mem, name) > Changed(m, name)))
            && (r.ok && Subject(p) == Some(name) ==> Changed(r.mem, name) > Changed(m, name))
  {
    hide Valid, Put, Delete, Desire, Touched, Changed, Same;
    SameAsBefore(m, name);
    match p
    case PutRecord(sp, w) => PutTouches(m, d, sp, w, name);
    case DeleteRecord(n, w) => DeleteTouches(m, d, n, w, name);
    case SetDesired(n, desired, w) => DesireTouches(m, d, n, desired, w, name);
    case MarkRestart(n) => MarkTouches(m, n, name);
    case _ =>
  }

  // A project's file is no declaration's.
  lemma SameAsBefore(m: Mem, name: string)
    ensures Same(m, m, name)
    ensures forall ps: map<string, Project> :: Same(m, m.(projects := ps), name)
  {
  }

  lemma DeleteTouches(m: Mem, d: Disk, n: string, w: Written, name: string)
    requires Declared(m)
    ensures var r := Delete(m, d, n, w);
            if r.ok && n == name then Changed(r.mem, name) > Changed(m, name) else Same(m, r.mem, name)
  {
    hide Drop;
  }

  lemma MarkTouches(m: Mem, n: string, name: string)
    requires Declared(m)
    ensures var m1 := Touched(m, n, m.records, m.track[n := Track(m, n).(restart := true)]);
            if n == name then Changed(m1, name) > Changed(m, name) else Same(m, m1, name)
  {
  }

  lemma PutTouches(m: Mem, d: Disk, sp: Spec, w: Written, name: string)
    requires Declared(m)
    ensures var r := Put(m, d, sp, w);
            if r.ok && sp.name == name then Changed(r.mem, name) > Changed(m, name) else Same(m, r.mem, name)
  {
    hide Encode, Save;
  }

  lemma DesireTouches(m: Mem, d: Disk, n: string, desired: Desired, w: Written, name: string)
    requires Declared(m)
    ensures var r := Desire(m, d, n, desired, w);
            if r.ok && n == name then Changed(r.mem, name) > Changed(m, name) else Same(m, r.mem, name)
  {
    hide Encode, Save;
  }

  lemma ApplyKeepsDeclared(m: Mem, d: Disk, p: Prim)
    requires Declared(m)
    ensures Declared(Apply(m, d, p).mem)
  {
    hide Valid, Encode;
  }

  lemma BootKeepsInv(d: Disk, st: Step)
    requires st.Boot?
    ensures Inv(BootUp(d, st))
  {
    var records := Load(d);
    assert forall n :: n in records ==> records[n].spec == Decode(d.records[n].spec);
  }

  lemma PickKeepsInv(s: Sys, now: Time)
    requires Inv(s) && s.On? && s.pc.Reconciling?
    ensures var t := PickNext(s, now);
            Inv(t) && t.On? && (t.pc.Awaiting? ==> Changed(t.mem, t.pc.ctx.name) == t.pc.seen)
  {
    if s.pc.names != [] && s.pc.names[0] in s.mem.records {
      BeginAsks(s.mem, s.cfg, Context(s.mem, s.pc.names[0], now));
    }
  }

  lemma FinishKeepsInv(s: Sys, o: Outcome)
    requires Inv(s) && s.On? && s.pc.Awaiting?
    ensures var t := FinishCall(s, o);
            Inv(t) && t.On? && (t.pc.Awaiting? ==> Changed(t.mem, t.pc.ctx.name) == t.pc.seen)
  {
    if Changed(s.mem, s.pc.ctx.name) == s.pc.seen {
      ResumeAsks(Freed(s.mem, s.pc.why, s.pc.ctx, o), s.cfg, s.pc.why, s.pc.ctx, o);
    }
  }

  lemma ServeKeepsInv(s: Sys, p: Prim)
    requires Inv(s) && s.On?
    ensures Inv(Serve(s, p)) && Serve(s, p).On?
  {
    ApplyKeepsDeclared(s.mem, s.disk, p);
    if s.pc.Awaiting? { ApplyTouches(s.mem, s.disk, p, s.pc.ctx.name); }
  }

  lemma DoKeepsInv(s: Sys, st: Step)
    requires Inv(s)
    ensures Inv(Do(s, st))
  {
    hide PickNext, FinishCall, Serve, BootUp, Asked;
    match st
    case Boot(_, _, _, _) => BootKeepsInv(if s.Off? then s.disk else Disk(map[], map[], ""), st);
    case Api(p) => if s.On? { ServeKeepsInv(s, p); }
    case Pick(now) => if s.On? && s.pc.Reconciling? { PickKeepsInv(s, now); }
    case Finish(o) => if s.On? && s.pc.Awaiting? { FinishKeepsInv(s, o); }
    case _ =>
  }

  lemma {:induction false} RunKeepsInv(s: Sys, steps: seq<Step>)
    requires Inv(s)
    ensures Inv(Run(s, steps))
    decreases |steps|
  {
    if steps != [] {
      DoKeepsInv(s, steps[0]);
      RunKeepsInv(Do(s, steps[0]), steps[1..]);
    }
  }

  // ---- what it means ----

  // A pass that comes to one name changes nothing of another, and asks only about the one.
  lemma PickKeepsOthers(s: Sys, now: Time, name: string)
    requires s.On? && s.pc.Reconciling? && !(s.pc.names != [] && s.pc.names[0] == name)
    ensures var t := PickNext(s, now);
            t.On? && t.cfg == s.cfg && Same(s.mem, t.mem, name) && (t.pc.Awaiting? ==> t.pc.ctx.name != name)
  {
    if s.pc.names != [] && s.pc.names[0] in s.mem.records {
      BeginAsks(s.mem, s.cfg, Context(s.mem, s.pc.names[0], now));
    }
  }

  lemma FinishKeepsOthers(s: Sys, o: Outcome, name: string)
    requires Inv(s) && s.On? && s.pc.Awaiting?
    requires s.pc.ctx.name == name ==> Changed(s.mem, name) != s.pc.seen
    ensures var t := FinishCall(s, o);
            t.On? && t.cfg == s.cfg && Same(s.mem, t.mem, name) && (t.pc.Awaiting? ==> t.pc.ctx.name != name)
  {
    if Changed(s.mem, s.pc.ctx.name) == s.pc.seen {
      ResumeAsks(Freed(s.mem, s.pc.why, s.pc.ctx, o), s.cfg, s.pc.why, s.pc.ctx, o);
    }
  }

  // Where a pass begins an engine call about a declaration, it has just seen the record it
  // holds to be the current one.
  lemma IssueIsCurrent(s: Sys, st: Step)
    requires Inv(s)
    ensures var t := Do(s, st);
            Issued(s, st).Some? && t.pc.Awaiting? ==>
              var x := t.pc.ctx;
              && Issued(s, st) == Some(Issue(x.name, CallOf(t.pc.why, x))) && Holds(t.mem, t.pc)
              && Changed(t.mem, x.name) == t.pc.seen && x.name in t.mem.records && t.mem.records[x.name] == x.rec
              && (CallOf(t.pc.why, x) == CallStart || CallOf(t.pc.why, x) == CallRun ==>
                 x.rec.desired == DesiredRunning)
  {
    if s.On? && st.Pick? && s.pc.Reconciling? {
      PickKeepsInv(s, st.now);
    } else if s.On? && st.Finish? && s.pc.Awaiting? {
      FinishKeepsInv(s, st.o);
    }
  }

  // In every run, an engine call for a declared name begins while the record reconcile
  // holds is the current record, and a start only while it is desired running.
  lemma SectionsHoldTheCurrentRecord(disk: Disk, steps: seq<Step>, st: Step)
    ensures var s, t := Run(Off(disk), steps), Do(Run(Off(disk), steps), st);
            Issued(s, st).Some? && t.pc.Awaiting? ==>
              var x := t.pc.ctx;
              x.name in t.mem.records && t.mem.records[x.name] == x.rec && x.rec.spec.name == x.name &&
              (CallOf(t.pc.why, x) == CallStart || CallOf(t.pc.why, x) == CallRun ==> x.rec.desired == DesiredRunning)
  {
    var s := Run(Off(disk), steps);
    RunKeepsInv(Off(disk), steps);
    DoKeepsInv(s, st);
    IssueIsCurrent(s, st);
  }

  // A step by which reconcile looks at a name afresh.
  ghost predicate Picks(s: Sys, st: Step, name: string) {
    s.On? && st.Pick? && s.pc.Reconciling? && s.pc.names != [] && s.pc.names[0] == name
  }

  // The run leaves name to the pass alone, and the pass does not come to it.
  ghost predicate Leaves(s: Sys, steps: seq<Step>, name: string)
    decreases |steps|
  {
    steps == [] ||
    (&& !(steps[0].Api? && Subject(steps[0].p) == Some(name)) && !steps[0].Crash?
     && !Picks(s, steps[0], name) && Leaves(Do(s, steps[0]), steps[1..], name))
  }

  // No pass in flight can store anything of name.
  ghost predicate Overtaken(s: Sys, name: string) {
    s.On? && Inv(s) && (s.pc.Awaiting? && s.pc.ctx.name == name ==> Changed(s.mem, name) != s.pc.seen)
  }

  lemma ServeKeepsOvertaken(s: Sys, p: Prim, name: string)
    requires Overtaken(s, name) && Subject(p) != Some(name)
    ensures var t := Serve(s, p);
            t.On? && t.cfg == s.cfg && Same(s.mem, t.mem, name) && t.pc == s.pc
  {
    ApplyTouches(s.mem, s.disk, p, name);
  }

  // Listing and publishing change nothing of a name's declaration or tracking.
  lemma ObserveKeepsOthers(s: Sys, name: string)
    requires s.On?
    ensures s.pc.Observing? ==>
              var t := ObserveNext(s);
              t.On? && t.cfg == s.cfg && !t.pc.Awaiting? && Same(s.mem, t.mem, name)
    ensures Close(s).On? && Close(s).cfg == s.cfg && Close(s).pc.Idle? && Same(s.mem, Close(s).mem, name)
  {
  }

  ghost predicate SameDeclarations(s: Sys, t: Sys) {
    t.disk == s.disk && (s.On? && t.On? ==> t.mem.records == s.mem.records && t.mem.changed == s.mem.changed &&
                                            t.mem.projects == s.mem.projects)
  }

  lemma PickKeepsDeclarations(s: Sys, now: Time)
    requires s.On? && s.pc.Reconciling?
    ensures SameDeclarations(s, PickNext(s, now))
  {
    hide Begin;
  }

  lemma AfterKeepsDeclarations(s: Sys, m: Mem, x: Ctx, sec: Section, names: seq<string>)
    requires s.On? && (s.pc.Reconciling? || s.pc.Awaiting?) && m == s.mem.(observed := m.observed)
    ensures SameDeclarations(s, After(s, m, x, sec, names))
  {
  }

  lemma FinishKeepsDeclarations(s: Sys, o: Outcome)
    requires s.On? && s.pc.Awaiting?
    ensures SameDeclarations(s, FinishCall(s, o))
  {
    hide Resume, After;
    if Changed(s.mem, s.pc.ctx.name) == s.pc.seen {
      var m := Freed(s.mem, s.pc.why, s.pc.ctx, o);
      AfterKeepsDeclarations(s, m, s.pc.ctx, Resume(m, s.cfg, s.pc.why, s.pc.ctx, o), s.pc.names);
    }
  }

  lemma ObserveKeepsDeclarations(s: Sys)
    requires s.On?
    ensures s.pc.Observing? ==> SameDeclarations(s, ObserveNext(s))
    ensures s.pc.Listed? ==> SameDeclarations(s, Locked(s))
    ensures SameDeclarations(s, Close(s))
  {
  }

  // Only API calls and starts of the daemon change the declarations; only they write.
  lemma PassKeepsDeclarations(s: Sys, st: Step)
    requires s.On? && !st.Api?
    ensures SameDeclarations(s, Do(s, st))
  {
    ObserveKeepsDeclarations(s);
    match st
    case Pick(now) => if s.pc.Reconciling? { PickKeepsDeclarations(s, now); }
    case Finish(o) => if s.pc.Awaiting? { FinishKeepsDeclarations(s, o); }
    case _ =>
  }

  lemma DoKeepsOvertaken(s: Sys, st: Step, name: string)
    requires Overtaken(s, name) && !Picks(s, st, name) && !st.Crash?
    requires !(st.Api? && Subject(st.p) == Some(name))
    ensures Overtaken(Do(s, st), name) && Same(s.mem, Do(s, st).mem, name) && Do(s, st).cfg == s.cfg
  {
    hide PickNext, FinishCall, Serve, ObserveNext, Close, Inv;
    DoKeepsInv(s, st);
    ObserveKeepsOthers(s, name);
    match st
    case Api(p) => ServeKeepsOvertaken(s, p, name);
    case Pick(now) => if s.pc.Reconciling? { PickKeepsOthers(s, now, name); }
    case Finish(o) => if s.pc.Awaiting? { FinishKeepsOthers(s, o, name); }
    case _ =>
  }

  // What an API call stored of a name stays as it left it, whatever a pass in flight was
  // doing with that name, until reconcile looks at it again or another call changes it.
  lemma {:induction false} OvertakenStoresNothing(s: Sys, steps: seq<Step>, name: string)
    requires Overtaken(s, name) && Leaves(s, steps, name)
    ensures var t := Run(s, steps);
            && t.On? && t.cfg == s.cfg
            && Get(t.mem.records, name) == Get(s.mem.records, name) && Get(t.mem.track, name) == Get(s.mem.track, name)
    decreases |steps|
  {
    if steps != [] {
      DoKeepsOvertaken(s, steps[0], name);
      OvertakenStoresNothing(Do(s, steps[0]), steps[1..], name);
    }
  }

  lemma ApiCallIsNotOverwritten(disk: Disk, before: seq<Step>, p: Prim, name: string, steps: seq<Step>)
    requires var s := Run(Off(disk), before);
             && s.On? && LockFree(s.pc) && Subject(p) == Some(name) && Apply(s.mem, s.disk, p).ok
             && Leaves(Do(s, Api(p)), steps, name)
    ensures var m := Apply(Run(Off(disk), before).mem, Run(Off(disk), before).disk, p).mem;
            var t := Run(Off(disk), before + [Api(p)] + steps);
            t.On? && Get(t.mem.records, name) == Get(m.records, name) && Get(t.mem.track, name) == Get(m.track, name)
  {
    var s := Run(Off(disk), before);
    RunKeepsInv(Off(disk), before);
    ApplyTouches(s.mem, s.disk, p, name);
    DoKeepsInv(s, Api(p));
    var u := Do(s, Api(p));
    assert Overtaken(u, name);
    OvertakenStoresNothing(u, steps, name);
    RunThrough(Off(disk), before, Api(p), steps);
  }
}
