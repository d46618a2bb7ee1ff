// The health a container is reported in is a function of the stored checks of its run, over
// every run of the machine in which that run of the container goes on.
module HealthChecks {
  import opened Basics
  import opened Specs
  import opened Sections
  import opened Machine
  import opened Interference
  import opened Listings

  // A stored check: when it was decided on, and whether it passed.
  datatype Probe = Probe(at: Time, pass: bool)

  // The run that is followed: its container, and the check the container was created with.
  datatype Watch = Watch(c: Container, h: Health)

  ghost predicate Watches(w: Watch) {
    && w.c.managed && w.c.Running() && w.c.specLabel.Some? && w.c.specLabel.value.health == Some(w.h)
    && w.h.retries >= 1 && w.h.interval >= 1
  }

  function ConfirmedAt(w: Watch): Time { w.c.startedAt + START_CONFIRM }

  // ---- the function of the history ----

  predicate InStartPeriod(w: Watch, at: Time) {
    Sat64(at - w.c.startedAt) < w.h.startPeriod * SECOND
  }

  // The failures that count, since the last pass.
  function Failures(w: Watch, ps: seq<Probe>): nat
    decreases |ps|
  {
    if ps == [] then 0
    else
      var last, before := ps[|ps| - 1], ps[..|ps| - 1];
      if last.pass then 0 else Failures(w, before) + if InStartPeriod(w, last.at) then 0 else 1
  }

  ghost predicate Passed(ps: seq<Probe>) { exists i :: 0 <= i < |ps| && ps[i].pass }

  ghost function HealthOf(w: Watch, ps: seq<Probe>): Wellness {
    if Failures(w, ps) >= w.h.retries then Unhealthy else if Passed(ps) then Healthy else HealthStarting
  }

  // When the next check is due: the first one when the run is confirmed, every other one an
  // interval after the last.
  function DueAfter(w: Watch, ps: seq<Probe>): Time {
    if ps == [] then ConfirmedAt(w) else ps[|ps| - 1].at + w.h.interval * SECOND
  }

  ghost predicate Spaced(w: Watch, ps: seq<Probe>) {
    forall i :: 0 <= i < |ps| ==> ps[i].at >= DueAfter(w, ps[..i])
  }

  // ---- what the tracking keeps of it ----

  ghost predicate Attached(w: Watch, t: Tracking, ps: seq<Probe>) {
    && t.healthRun == w.c.startedAt && t.health == HealthOf(w, ps) && t.failures == Failures(w, ps)
    && t.nextHealth == DueAfter(w, ps)
  }

  // The checks keep their distance; once a pass has seen the run, the tracking is of it.
  ghost predicate Tells(w: Watch, t: Tracking, ps: seq<Probe>) {
    Spaced(w, ps) && if t.healthRun == w.c.startedAt then Attached(w, t, ps) else ps == []
  }

  lemma ProbeAdds(w: Watch, ps: seq<Probe>, p: Probe)
    ensures Failures(w, ps + [p]) == (if p.pass then 0 else Failures(w, ps) + if InStartPeriod(w, p.at) then 0 else 1)
    ensures Passed(ps + [p]) <==> p.pass || Passed(ps)
    ensures DueAfter(w, ps + [p]) == p.at + w.h.interval * SECOND
  {
    var qs := ps + [p];
    assert qs[..|qs| - 1] == ps && qs[|qs| - 1] == p;
    if Passed(ps) {
      var i :| 0 <= i < |ps| && ps[i].pass;
      assert qs[i].pass;
    }
  }

  // A check that is stored advances the history by one probe.
  lemma CheckAttached(w: Watch, t: Tracking, ps: seq<Probe>, x: Ctx, o: Outcome)
    requires Watches(w) && Attached(w, t, ps) && x.c == Some(w.c)
    ensures Attached(w, Checked(t, w.h, x, o), ps + [Probe(x.now, o.pass)])
  {
    hide Failures, Passed, DueAfter;
    ProbeAdds(w, ps, Probe(x.now, o.pass));
  }

  lemma CheckSpaced(w: Watch, ps: seq<Probe>, p: Probe)
    requires Spaced(w, ps) && p.at >= DueAfter(w, ps)
    ensures Spaced(w, ps + [p])
  {
    hide DueAfter;
    var qs := ps + [p];
    forall i | 0 <= i < |qs| ensures qs[i].at >= DueAfter(w, qs[..i]) {
      assert qs[..i] == ps[..i];
    }
  }

  // Whatever was known before, fresh tracking tells the empty history exactly when the engine
  // reports when the run started.
  lemma FreshTells(w: Watch)
    requires Watches(w)
    ensures Tells(w, FRESH, []) <==> w.c.startedAt != ZERO
  {
  }

  // ---- one look ----

  // Declared desired running, with the hash the container was created from, and no explicit
  // restart to come.
  ghost predicate Stands(w: Watch, m: Mem) {
    && w.c.name in m.records && m.records[w.c.name].desired == DesiredRunning
    && w.c.specLabel == Some(Digest(m.records[w.c.name].spec)) && !Track(m, w.c.name).restart
  }

  // A look at it asks for nothing, or for a check that is due.
  lemma LookTells(w: Watch, m: Mem, cfg: Config, x: Ctx, ps: seq<Probe>)
    requires Watches(w) && Stands(w, m) && Tells(w, Track(m, w.c.name), ps) && w.c.startedAt != ZERO
    requires x.name == w.c.name && x.rec == m.records[w.c.name] && x.c == Some(w.c)
    ensures var sec := Begin(m, cfg, x);
            && Attached(w, sec.track, ps) && !sec.track.restart
            && (sec.ctl.Ask? <==> x.now >= DueAfter(w, ps)) && (sec.ctl.Ask? ==> sec.ctl == Ask(Check, x))
  {
    hide HealthDue, Digest;
    HealthIsDigested(x.rec.spec, w.h);
  }

  lemma HealthIsDigested(sp: Spec, h: Health)
    requires Digest(sp).health == Some(h)
    ensures sp.health.Some? && NormalHealth(sp.health.value) == h
  {
  }

  // A check that comes back, and was not overtaken, adds a probe.
  lemma CheckTells(w: Watch, m: Mem, cfg: Config, x: Ctx, o: Outcome, ps: seq<Probe>)
    requires Watches(w) && Stands(w, m) && Attached(w, Track(m, w.c.name), ps) && Spaced(w, ps)
    requires x.now >= DueAfter(w, ps)
    requires x.name == w.c.name && x.rec == m.records[w.c.name] && x.c == Some(w.c)
    ensures var sec, qs := Resume(m, cfg, Check, x, o), ps + [Probe(x.now, o.pass)];
            Attached(w, sec.track, qs) && Spaced(w, qs) && !sec.track.restart && sec.ctl.Over?
  {
    hide Attached, Spaced, HealthDue, DueAfter;
    HealthIsDigested(x.rec.spec, w.h);
    CheckAttached(w, Track(m, w.c.name), ps, x, o);
    CheckSpaced(w, ps, Probe(x.now, o.pass));
    CheckedKeeps(Track(m, w.c.name), w.h, x, o);
  }

  lemma CheckedKeeps(t: Tracking, h: Health, x: Ctx, o: Outcome)
    requires x.c.Some?
    ensures Checked(t, h, x, o).restart == t.restart
  {
  }

  // ---- steps ----

  // A pass waits for a check of it, and no API call overtook it.
  ghost predicate Checking(w: Watch, s: Sys) {
    s.On? && s.pc.Awaiting? && s.pc.ctx.name == w.c.name && Changed(s.mem, w.c.name) == s.pc.seen
  }

  // The checks stored so far, since the tracking was last reset: one that comes back while a
  // pass waits for it is stored; an API call that resets the tracking, and a crash, forget.
  ghost function Noted(w: Watch, s: Sys, st: Step, ps: seq<Probe>): seq<Probe> {
    if Checking(w, s) && st.Finish? then ps + [Probe(s.pc.ctx.now, st.o.pass)]
    else if s.On? && (st.Crash? || (st.Api? && Track(Do(s, st).mem, w.c.name) == FORCED)) then []
    else ps
  }

  // The run goes on: every listing shows it, and the declaration stands, whatever API calls
  // come and however often the daemon is started again.
  ghost predicate GoesOn(w: Watch, s: Sys, st: Step) {
    && (st.ListStep? ==> Exhibits(st.listed, w.c.name, Some(w.c)))
    && (st.Api? || st.Boot? ==> Do(s, st).On? ==> Stands(w, Do(s, st).mem))
  }

  ghost predicate Follows(w: Watch, s: Sys, ps: seq<Probe>) {
    match s
    case Off(_) => ps == []
    case On(_, m, _, pc, _) =>
      && Stands(w, m) && Tells(w, Track(m, w.c.name), ps)
      && (Checking(w, s) ==>
            pc.why == Check && pc.ctx.c == Some(w.c) && Track(m, w.c.name).healthRun == w.c.startedAt &&
            pc.ctx.now >= DueAfter(w, ps))
  }

  // The engine is asked for nothing about it but a check, where a pass comes to it, once the
  // run is confirmed, and an interval after the last stored check.
  ghost predicate OnlyDueChecks(w: Watch, s: Sys, st: Step, ps: seq<Probe>) {
    Issued(s, st).Some? && Issued(s, st).value.name == w.c.name ==>
      && Issued(s, st).value.call == CallCheck && Picks(s, st, w.c.name)
      && st.now >= ConfirmedAt(w) && st.now >= DueAfter(w, ps)
  }

  lemma DueOnceReady(w: Watch, ps: seq<Probe>)
    requires Watches(w) && Spaced(w, ps)
    ensures DueAfter(w, ps) >= ConfirmedAt(w)
    decreases |ps|
  {
    if ps != [] {
      var n := |ps| - 1;
      assert ps[n].at >= DueAfter(w, ps[..n]);
      forall i | 0 <= i < n ensures ps[..n][i].at >= DueAfter(w, ps[..n][..i]) { assert ps[..n][..i] == ps[..i]; }
      DueOnceReady(w, ps[..n]);
    }
  }

  // A step of a run that goes on.
  ghost predicate Advances(w: Watch, s: Sys, st: Step, ps: seq<Probe>) {
    Follows(w, Do(s, st), Noted(w, s, st, ps)) && OnlyDueChecks(w, s, st, ps)
  }

  lemma PickMineAdvances(w: Watch, s: Sys, now: Time, ps: seq<Probe>)
    requires Watches(w) && w.c.startedAt != ZERO && s.On? && Follows(w, s, ps) && Picks(s, Pick(now), w.c.name)
    requires Get(s.mem.observed, w.c.name) == Some(w.c)
    ensures Advances(w, s, Pick(now), ps)
  {
    hide Begin, Attached, Spaced, DueAfter, ConfirmedAt, Watches, Digest, PickNext, Do, Issued;
    LookTells(w, s.mem, s.cfg, Context(s.mem, w.c.name, now), ps);
    DueOnceReady(w, ps);
    PickIssues(s, w.c.name, now);
    PickStores(s, w.c.name, now);
    AttachedTo(w, PickNext(s, now).mem.track[w.c.name], ps);
  }

  lemma AttachedTo(w: Watch, t: Tracking, ps: seq<Probe>)
    requires Attached(w, t, ps)
    ensures t.healthRun == w.c.startedAt
  {
  }

  lemma PickOtherAdvances(w: Watch, s: Sys, now: Time, ps: seq<Probe>)
    requires s.On? && Follows(w, s, ps) && s.pc.Reconciling? && !Picks(s, Pick(now), w.c.name)
    ensures Advances(w, s, Pick(now), ps)
  {
    hide PickNext, Tells, DueAfter, Digest;
    PickKeepsOthers(s, now, w.c.name);
    PickKeepsDeclarations(s, now);
  }

  lemma FinishOtherAdvances(w: Watch, s: Sys, o: Outcome, ps: seq<Probe>)
    requires Inv(s) && s.On? && Follows(w, s, ps) && s.pc.Awaiting? && !Checking(w, s)
    ensures Advances(w, s, Finish(o), ps)
  {
    hide FinishCall, Tells, DueAfter, Digest, Inv;
    FinishKeepsOthers(s, o, w.c.name);
    FinishKeepsDeclarations(s, o);
  }

  lemma FinishMineAdvances(w: Watch, s: Sys, o: Outcome, ps: seq<Probe>)
    requires Watches(w) && Inv(s) && Follows(w, s, ps) && Checking(w, s)
    ensures Advances(w, s, Finish(o), ps)
  {
    hide Resume, DueAfter, Digest, Spaced, Watches;
    CheckTells(w, s.mem, s.cfg, s.pc.ctx, o, ps);
  }

  // An API call that leaves the name declared and asks for no restart leaves its tracking, or
  // resets it.
  lemma ApplyKeepsOrForces(m: Mem, d: Disk, p: Prim, name: string)
    requires var r := Apply(m, d, p).mem; name in m.records && name in r.records && !Track(r, name).restart
    ensures var r := Apply(m, d, p).mem; Track(r, name) == Track(m, name) || Track(r, name) == FORCED
  {
    hide Valid, Encode;
  }

  lemma ServeAdvances(w: Watch, s: Sys, p: Prim, ps: seq<Probe>)
    requires Inv(s) && s.On? && w.c.startedAt != ZERO && Follows(w, s, ps) && LockFree(s.pc)
    requires Stands(w, Serve(s, p).mem)
    ensures Advances(w, s, Api(p), ps)
  {
    hide Apply, DueAfter, Digest, Attached, Close, ObserveNext, PickNext, FinishCall, Locked;
    SameStands(w, s.mem, s.mem);
    ApplyTouches(s.mem, s.disk, p, w.c.name);
    ApplyKeepsOrForces(s.mem, s.disk, p, w.c.name);
  }

  // What is declared of it, and asked of it, is all that is read of the memory.
  lemma SameStands(w: Watch, m: Mem, m': Mem)
    requires Stands(w, m)
    ensures Same(m, m', w.c.name) ==> Stands(w, m')
    ensures w.c.name in m.records
  {
    hide Digest;
  }

  lemma ObserveAdvances(w: Watch, s: Sys, ps: seq<Probe>)
    requires s.On? && Follows(w, s, ps) && s.pc.Observing?
    ensures Advances(w, s, ObserveStep, ps)
  {
    hide ObserveNext, Tells, DueAfter, Stands, Close;
    SameStands(w, s.mem, s.mem);
    ObserveKeepsOthers(s, w.c.name);
    RemovesUndeclared(s);
    SameStands(w, s.mem, ObserveNext(s).mem);
  }

  lemma BootAdvances(w: Watch, d: Disk, st: Step)
    requires w.c.startedAt != ZERO && st.Boot? && (BootUp(d, st).On? ==> Stands(w, BootUp(d, st).mem))
    ensures Follows(w, BootUp(d, st), [])
  {
    hide Raise, Load, Digest;
  }

  // Reset tracking tells the empty history only.
  lemma ForcedTells(w: Watch, ps: seq<Probe>)
    requires w.c.startedAt != ZERO && Tells(w, FORCED, ps)
    ensures ps == []
  {
  }

  lemma PassiveAdvances(w: Watch, s: Sys, st: Step, ps: seq<Probe>)
    requires s.On? && Follows(w, s, ps) && GoesOn(w, s, st)
    requires st.ListStep? || st.Lock? || st.Removed? || st.PublishStep? || st.Boot? || st.Crash?
    ensures Advances(w, s, st, ps)
  {
    hide Tells, DueAfter, Exhibits, Digest, Changes, Phases;
  }

  // The pass in flight was shown it.
  ghost predicate Shown(w: Watch, s: Sys) { Showing(s, w.c.name, Some(w.c)) }

  lemma StepShows(w: Watch, s: Sys, st: Step, ps: seq<Probe>)
    requires Watches(w) && Inv(s) && Follows(w, s, ps) && Shown(w, s) && GoesOn(w, s, st)
    ensures Shown(w, Do(s, st))
  {
    hide Do, Inv, Showing, Exhibits, Tells;
    DoShows(s, st, w.c.name, Some(w.c));
  }

  lemma DoAdvances(w: Watch, s: Sys, st: Step, ps: seq<Probe>)
    requires Watches(w) && w.c.startedAt != ZERO && Inv(s) && Follows(w, s, ps) && Shown(w, s) && GoesOn(w, s, st)
    ensures Advances(w, s, st, ps) && Shown(w, Do(s, st))
  {
    hide PickNext, FinishCall, Serve, ObserveNext, BootUp, Close, Locked, Watches, Inv, Stands, Showing, Tells,
         DueAfter, ConfirmedAt, Exhibits;
    StepShows(w, s, st, ps);
    match st
    case Api(p) =>
      if s.On? && LockFree(s.pc) {
        ServeKeepsInv(s, p);
        ServeAdvances(w, s, p, ps);
      } else if s.On? && Track(s.mem, w.c.name) == FORCED {
        ForcedTells(w, ps);
      }
    case ObserveStep => if s.On? && s.pc.Observing? { ObserveAdvances(w, s, ps); }
    case Pick(now) =>
      if s.On? && s.pc.Reconciling? {
        if Picks(s, st, w.c.name) {
          PickedAsShown(s, w.c.name, Some(w.c));
          PickMineAdvances(w, s, now, ps);
        } else {
          PickOtherAdvances(w, s, now, ps);
        }
      }
    case Finish(o) =>
      if s.On? && s.pc.Awaiting? {
        if Checking(w, s) { FinishMineAdvances(w, s, o, ps); } else { FinishOtherAdvances(w, s, o, ps); }
      }
    case Boot(_, _, _, _) =>
      if s.On? { PassiveAdvances(w, s, st, ps); } else if CanBoot(s.disk, st) { BootAdvances(w, s.disk, st); }
    case _ => if s.On? { PassiveAdvances(w, s, st, ps); }
  }

  // ---- whole runs ----

  ghost predicate GoesOnThrough(w: Watch, s: Sys, steps: seq<Step>)
    decreases |steps|
  {
    steps == [] || (GoesOn(w, s, steps[0]) && GoesOnThrough(w, Do(s, steps[0]), steps[1..]))
  }

  // The checks stored over a run, since the last reset.
  ghost function Probes(w: Watch, s: Sys, steps: seq<Step>, ps: seq<Probe>): seq<Probe>
    decreases |steps|
  {
    if steps == [] then ps else Probes(w, Do(s, steps[0]), steps[1..], Noted(w, s, steps[0], ps))
  }

  ghost predicate AllDueChecks(w: Watch, s: Sys, steps: seq<Step>, ps: seq<Probe>)
    decreases |steps|
  {
    steps == [] ||
    (&& OnlyDueChecks(w, s, steps[0], ps)
     && AllDueChecks(w, Do(s, steps[0]), steps[1..], Noted(w, s, steps[0], ps)))
  }

  lemma {:induction false} RunAdvances(w: Watch, s: Sys, steps: seq<Step>, ps: seq<Probe>)
    requires Watches(w) && w.c.startedAt != ZERO && Inv(s) && Follows(w, s, ps) && Shown(w, s)
    requires GoesOnThrough(w, s, steps)
    ensures Follows(w, Run(s, steps), Probes(w, s, steps, ps)) && AllDueChecks(w, s, steps, ps)
    decreases |steps|
  {
    hide Watches, Inv, Follows, Shown, GoesOn, Noted, OnlyDueChecks, Do;
    if steps != [] {
      DoAdvances(w, s, steps[0], ps);
      DoKeepsInv(s, steps[0]);
      RunAdvances(w, Do(s, steps[0]), steps[1..], Noted(w, s, steps[0], ps));
    }
  }

  // Where the history begins: nothing is noted of this run yet, a pass in flight was shown it,
  // and waits for nothing of it.
  ghost predicate Begins(w: Watch, s: Sys) {
    && s.On? && Stands(w, s.mem) && Shown(w, s) && Track(s.mem, w.c.name).healthRun != w.c.startedAt
    && !(s.pc.Awaiting? && s.pc.ctx.name == w.c.name && Changed(s.mem, w.c.name) == s.pc.seen)
  }

  // Over every run in which one run of a container goes on, with API calls, crashes and starts
  // of the daemon between: once a pass has seen it since the last reset, it is unhealthy exactly
  // when the failures that count since the last pass of its check reach the retries, healthy
  // exactly when they do not and a check passed, and starting otherwise. Every check asked for,
  // overtaken or not, comes once the run is confirmed and an interval after the last stored one.
  lemma HealthFollowsTheChecks(w: Watch, s: Sys, steps: seq<Step>)
    requires Watches(w) && w.c.startedAt != ZERO && Inv(s) && Begins(w, s) && GoesOnThrough(w, s, steps)
    ensures AllDueChecks(w, s, steps, [])
    ensures var t, ps := Run(s, steps), Probes(w, s, steps, []);
            && Spaced(w, ps)
            && (t.On? ==>
                  var k := Track(t.mem, w.c.name);
                  if k.healthRun == w.c.startedAt then k.health == HealthOf(w, ps) else ps == [])
  {
    hide Watches, Inv, Showing, Stands, Run, GoesOnThrough, Probes, AllDueChecks, HealthOf;
    RunAdvances(w, s, steps, []);
  }

  // A pass that comes to it has seen it, and asks for a check exactly when one is due.
  lemma LooksAttach(w: Watch, s: Sys, now: Time, ps: seq<Probe>)
    requires Watches(w) && w.c.startedAt != ZERO && s.On? && Follows(w, s, ps) && Shown(w, s)
    requires Picks(s, Pick(now), w.c.name)
    ensures Track(Do(s, Pick(now)).mem, w.c.name).healthRun == w.c.startedAt
    ensures Issued(s, Pick(now)) == (if now >= DueAfter(w, ps) then Some(Issue(w.c.name, CallCheck)) else None)
  {
    hide Begin, Attached, Spaced, DueAfter, ConfirmedAt, Watches, Digest, Showing, PickNext, Do, Issued;
    PickedAsShown(s, w.c.name, Some(w.c));
    LookTells(w, s.mem, s.cfg, Context(s.mem, w.c.name, now), ps);
    PickIssues(s, w.c.name, now);
    PickStores(s, w.c.name, now);
    AttachedTo(w, PickNext(s, now).mem.track[w.c.name], ps);
  }
}
