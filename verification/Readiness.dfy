// What it takes for the dependencies of a container to be ready, and that nothing is started
// before they are.
module Readiness {
  import opened Basics
  import opened Specs
  import opened Sections
  import opened Machine
  import opened Interference
  import opened Stops

  // Declared and confirmed running, and healthy where that is asked for.
  ghost predicate IsReady(m: Mem, d: Dependency) {
    && d.name in m.records && Track(m, d.name).phase == Running
    && (d.ready == ReadyHealthy ==> Track(m, d.name).health == Healthy)
  }

  ghost predicate AllReady(m: Mem, ds: List<Dependency>) {
    forall i :: 0 <= i < |Elems(ds)| ==> IsReady(m, Elems(ds)[i])
  }

  // What a dependency that is not ready lacks.
  ghost predicate Lacks(m: Mem, d: Dependency, lack: Lack) {
    match lack
    case NotDeclared => d.name !in m.records
    case NotRunning => d.name in m.records && Track(m, d.name).phase != Running
    case NotHealthy =>
      && d.name in m.records && Track(m, d.name).phase == Running
      && d.ready == ReadyHealthy && Track(m, d.name).health != Healthy
  }

  // A start waits for nothing exactly when every dependency is ready, and otherwise for the
  // first that is not, by what it lacks.
  lemma {:induction false} UnreadyIff(m: Mem, ds: seq<Dependency>)
    ensures Unready(m, ds) == None <==> forall i :: 0 <= i < |ds| ==> IsReady(m, ds[i])
    ensures Unready(m, ds).Some? ==>
              exists i, lack ::
                && 0 <= i < |ds| && (forall j :: 0 <= j < i ==> IsReady(m, ds[j]))
                && Lacks(m, ds[i], lack) && Unready(m, ds) == Some(WaitingFor(ds[i].name, lack))
  {
    if ds != [] {
      var rest := ds[1..];
      UnreadyIff(m, rest);
      assert forall i :: 0 < i < |ds| ==> ds[i] == rest[i - 1];
      if !IsReady(m, ds[0]) {
        var lack := if ds[0].name !in m.records then NotDeclared
                    else if Track(m, ds[0].name).phase != Running then NotRunning else NotHealthy;
        assert Lacks(m, ds[0], lack) && Unready(m, ds) == Some(WaitingFor(ds[0].name, lack));
      } else if Unready(m, rest).Some? {
        var i, lack :| && 0 <= i < |rest| && (forall j :: 0 <= j < i ==> IsReady(m, rest[j]))
                       && Lacks(m, rest[i], lack) && Unready(m, rest) == Some(WaitingFor(rest[i].name, lack));
        assert ds[i + 1] == rest[i];
        assert forall j :: 0 <= j < i + 1 ==> IsReady(m, ds[j]);
        assert Lacks(m, ds[i + 1], lack);
      }
    }
  }

  lemma ReadyIff(m: Mem, ds: List<Dependency>)
    ensures Unready(m, Elems(ds)) == None <==> AllReady(m, ds)
  {
    hide IsReady, Unready;
    UnreadyIff(m, Elems(ds));
  }

  // A container does not wait for itself.
  lemma OwnTrackingIsNoDependency(sp: Spec, m: Mem, t: Tracking)
    requires Valid(sp)
    ensures Unready(SetTrack(m, sp.name, t), Elems(sp.dependsOn)) == None <==> AllReady(m, sp.dependsOn)
    ensures AllReady(SetTrack(m, sp.name, t), sp.dependsOn) <==> AllReady(m, sp.dependsOn)
  {
    hide Valid, Unready;
    ReadyIff(SetTrack(m, sp.name, t), sp.dependsOn);
    forall i | 0 <= i < |Elems(sp.dependsOn)|
      ensures IsReady(SetTrack(m, sp.name, t), Elems(sp.dependsOn)[i]) <==> IsReady(m, Elems(sp.dependsOn)[i])
    {
      ValidDependency(sp, Elems(sp.dependsOn)[i]);
    }
  }

  // ---- over runs ----

  // A section that asks for a launch found every dependency ready.
  ghost predicate LaunchesReady(m: Mem, x: Ctx, sec: Section) {
    sec.ctl.Ask? && sec.ctl.why == Launch ==> AllReady(m, x.rec.spec.dependsOn)
  }

  lemma StartReady(m: Mem, x: Ctx, t: Tracking)
    requires Valid(x.rec.spec) && x.rec.spec.name == x.name
    ensures LaunchesReady(m, x, Sections.Start(m, x, t))
  {
    hide Valid, Unready, AllReady;
    OwnTrackingIsNoDependency(x.rec.spec, m, t);
  }

  lemma JudgeDownReady(m: Mem, cfg: Config, x: Ctx, t: Tracking)
    requires Valid(x.rec.spec) && x.rec.spec.name == x.name
    ensures LaunchesReady(m, x, JudgeDown(m, cfg, x, t))
  {
    hide Valid, Sections.Start, Tallied, Restarts, Gap, AllReady;
    StartReady(m, x, FRESH);
    StartReady(m, x, t);
    if x.c.Some? {
      var (u, n) := Tallied(x, t);
      StartReady(m, x, u.(nextAttempt := x.now + Gap(n)));
    }
  }

  lemma JudgeReady(m: Mem, cfg: Config, x: Ctx, t: Tracking)
    requires Valid(x.rec.spec) && x.rec.spec.name == x.name
    ensures LaunchesReady(m, x, Judge(m, cfg, x, t))
  {
    hide Valid, JudgeDown, AllReady, Attached, HealthDue, RunningDue;
    JudgeDownReady(m, cfg, x, Detached(t));
  }

  lemma SectionsReady(m: Mem, cfg: Config, x: Ctx, why: Why, o: Outcome)
    requires Valid(x.rec.spec) && x.rec.spec.name == x.name
    ensures LaunchesReady(m, x, Begin(m, cfg, x))
    ensures LaunchesReady(m, x, Resume(m, cfg, why, x, o))
  {
    hide Valid, Judge, AllReady, Digest, Checked, Sections.Start;
    var t := Track(m, x.name);
    JudgeReady(m, cfg, x, t);
    JudgeReady(m, cfg, x.(c := None), if x.rec.desired == DesiredRunning && !t.force then FORCED else t);
    StartReady(m, x, t.(restart := false));
  }

  // What was ready before a section is ready after it: it changes its own tracking only.
  lemma StoredReady(m: Mem, sp: Spec, t: Tracking)
    requires Valid(sp) && AllReady(m, sp.dependsOn)
    ensures AllReady(SetTrack(m, sp.name, t), sp.dependsOn)
  {
    hide Valid, AllReady;
    OwnTrackingIsNoDependency(sp, m, t);
  }

  lemma AfterReady(s: Sys, m: Mem, x: Ctx, sec: Section, names: seq<string>)
    requires s.On? && (s.pc.Reconciling? || s.pc.Awaiting?) && Valid(x.rec.spec) && x.rec.spec.name == x.name
    requires LaunchesReady(m, x, sec) && (sec.ctl.Ask? ==> sec.ctl.ctx.rec == x.rec)
    ensures var t := After(s, m, x, sec, names);
            t.pc.Awaiting? && t.pc.why == Launch ==> AllReady(t.mem, t.pc.ctx.rec.spec.dependsOn)
  {
    hide Valid, AllReady;
    if AllReady(m, x.rec.spec.dependsOn) { StoredReady(m, x.rec.spec, sec.track); }
  }

  lemma PickReady(s: Sys, now: Time)
    requires Inv(s) && ValidRecords(s) && s.On? && s.pc.Reconciling?
    ensures var t := PickNext(s, now);
            t.pc.Awaiting? && t.pc.why == Launch ==> AllReady(t.mem, t.pc.ctx.rec.spec.dependsOn)
  {
    hide Begin, After, Valid, AllReady;
    if s.pc.names != [] && s.pc.names[0] in s.mem.records {
      var x := Context(s.mem, s.pc.names[0], now);
      BeginAsks(s.mem, s.cfg, x);
      SectionsReady(s.mem, s.cfg, x, Launch, Outcome(None, true));
      AfterReady(s, s.mem, x, Begin(s.mem, s.cfg, x), s.pc.names[1..]);
    }
  }

  lemma FinishReady(s: Sys, o: Outcome)
    requires Inv(s) && ValidRecords(s) && s.On? && s.pc.Awaiting?
    ensures var t := FinishCall(s, o);
            t.pc.Awaiting? && t.pc.why == Launch ==> AllReady(t.mem, t.pc.ctx.rec.spec.dependsOn)
  {
    hide Resume, After, Valid, AllReady;
    var x := s.pc.ctx;
    if Changed(s.mem, x.name) == s.pc.seen {
      var m := Freed(s.mem, s.pc.why, x, o);
      assert x.rec == s.mem.records[x.name];
      ResumeAsks(m, s.cfg, s.pc.why, x, o);
      SectionsReady(m, s.cfg, x, s.pc.why, o);
      AfterReady(s, m, x, Resume(m, s.cfg, s.pc.why, x, o), s.pc.names);
    }
  }

  lemma LaunchIsReady(s: Sys, st: Step)
    requires Inv(s) && ValidRecords(s)
    ensures var t := Do(s, st);
            Issued(s, st).Some? && (Issued(s, st).value.call == CallStart || Issued(s, st).value.call == CallRun) ==>
              && t.On? && t.pc.Awaiting? && Issued(s, st).value.name == t.pc.ctx.name
              && AllReady(t.mem, t.pc.ctx.rec.spec.dependsOn)
  {
    hide PickNext, FinishCall, AllReady;
    if s.On? && st.Pick? && s.pc.Reconciling? { PickReady(s, st.now); }
    if s.On? && st.Finish? && s.pc.Awaiting? { FinishReady(s, st.o); }
  }

  // In every run, where the engine is asked to start or run a container, every dependency its
  // declaration names is declared and confirmed running, and healthy where it asks for healthy.
  lemma NothingStartsBeforeItsDependencies(disk: Disk, steps: seq<Step>, st: Step)
    ensures var s := Run(Off(disk), steps);
            var i, t := Issued(s, st), Do(s, st);
            i.Some? && (i.value.call == CallStart || i.value.call == CallRun) ==>
              && t.On? && i.value.name in t.mem.records
              && forall d :: d in Elems(t.mem.records[i.value.name].spec.dependsOn) ==>
                   && d.name in t.mem.records && Track(t.mem, d.name).phase == Running
                   && (d.ready == ReadyHealthy ==> Track(t.mem, d.name).health == Healthy)
  {
    hide Do, Issued, Valid, Inv;
    var s := Run(Off(disk), steps);
    RunKeepsInv(Off(disk), steps);
    RunKeepsValid(Off(disk), steps);
    DoKeepsInv(s, st);
    IssueIsCurrent(s, st);
    LaunchIsReady(s, st);
  }
}
