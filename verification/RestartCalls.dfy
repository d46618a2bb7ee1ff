// What becomes of an accepted Restart of a running container: it is stopped, and then started.
// The wish to restart is kept in memory only, until the stop is done.
module RestartCalls {
  import opened Basics
  import opened Specs
  import opened Sections
  import opened Machine
  import opened Interference
  import opened Listings
  import opened Stops
  import Starts
  import opened Readiness

  // A running container, created from its declaration.
  datatype Target = Target(name: string, rec: Record, c: Container)

  ghost predicate HasRunning(w: Target) {
    && w.c.name == w.name && w.c.managed && w.c.Running() && w.c.specLabel == Some(Digest(w.rec.spec))
    && w.rec.desired == DesiredRunning
  }

  ghost predicate Runs(w: Target) {
    HasRunning(w) && w.rec.spec.name == w.name && Valid(w.rec.spec)
  }

  // The pass waits for an engine call about it, and no API call overtook it.
  ghost predicate InFlight(w: Target, s: Sys) {
    s.On? && s.pc.Awaiting? && s.pc.ctx.name == w.name && Changed(s.mem, w.name) == s.pc.seen
  }

  ghost predicate Stopping(w: Target, s: Sys) {
    InFlight(w, s) && s.pc.why == StopToRestart
  }

  // A stop comes back, and succeeded.
  ghost predicate StopDone(w: Target, s: Sys, st: Step) {
    Stopping(w, s) && st.Finish? && st.o.error.None?
  }

  // What a start of the daemon would load is the declaration, with its hash.
  ghost predicate Stored(w: Target, d: Disk) {
    Get(d.records, w.name) == Some(Saved(Encode(w.rec.spec), DesiredRunning)) && HashStable(w.rec.spec)
  }

  // No API call on the name; every listing shows the container running; the daemon may crash
  // while the declaration is stored, and starts again in the same boot.
  ghost predicate Undisturbed(w: Target, s: Sys, st: Step) {
    && !(st.Api? && Subject(st.p) == Some(w.name))
    && (st.ListStep? ==> Exhibits(st.listed, w.name, Some(w.c)))
    && (s.On? && st.Crash? ==> Stored(w, s.disk))
    && (s.Off? && st.Boot? ==> !NewBoot(s.disk, st.id))
  }

  // A run of such steps in which the container is not stopped yet.
  ghost predicate Goes(w: Target, s: Sys, steps: seq<Step>)
    decreases |steps|
  {
    steps == [] ||
    (Undisturbed(w, s, steps[0]) && !StopDone(w, s, steps[0]) && Goes(w, Do(s, steps[0]), steps[1..]))
  }

  ghost predicate CrashIn(s: Sys, steps: seq<Step>)
    decreases |steps|
  {
    steps != [] && ((s.On? && steps[0].Crash?) || CrashIn(Do(s, steps[0]), steps[1..]))
  }

  // ---- the invariant ----

  ghost predicate Declares(w: Target, r: Record) {
    r == w.rec || (HashStable(w.rec.spec) && r == w.rec.(spec := Reloaded(w.rec.spec)))
  }

  // The restart is still owed, with a start asked for or not; or a crash took it.
  ghost predicate Owes(w: Target, s: Sys, owed: bool, force: bool) {
    match s
    case Off(d) => Stored(w, d) && !owed
    case On(_, m, _, pc, _) =>
      && w.name in m.records && Declares(w, m.records[w.name])
      && Track(m, w.name).restart == owed && (owed ==> Track(m, w.name).force == force)
      && (InFlight(w, s) ==>
            pc.ctx.c == Some(w.c) && pc.ctx.rec == m.records[w.name] && pc.why == if owed then StopToRestart else Check)
  }

  lemma DeclaresAlike(w: Target, r: Record)
    requires Declares(w, r)
    ensures Digest(r.spec) == Digest(w.rec.spec) && r.desired == w.rec.desired
    ensures Elems(r.spec.dependsOn) == Elems(w.rec.spec.dependsOn) && r.spec.name == w.rec.spec.name
  {
    if r != w.rec {
      HashSurvivesReload(w.rec.spec);
      ElemsOmitted(Elems(w.rec.spec.dependsOn));
    }
  }

  // A look at it stops it while the restart is owed, and asks for no more than a check then.
  lemma LookStops(w: Target, m: Mem, cfg: Config, x: Ctx)
    requires Runs(w) && x.name == w.name && x.c == Some(w.c) && Declares(w, x.rec)
    ensures var t, sec := Track(m, w.name), Begin(m, cfg, x);
            if t.restart then sec == Section(t, Ask(StopToRestart, x))
            else !sec.track.restart && (sec.ctl.Ask? ==> sec.ctl == Ask(Check, x))
  {
    hide Digest, Valid, Declares, HealthDue;
    DeclaresAlike(w, x.rec);
  }

  // ---- steps ----

  // The start, in the section that did the stop.
  ghost predicate Ready(w: Target, m: Mem) {
    AllReady(m, w.rec.spec.dependsOn)
  }

  // What a step means to it: a look stops it exactly while the restart is owed, and nothing but
  // a stop that is done starts it.
  ghost predicate Advances(w: Target, s: Sys, st: Step, owed: bool, force: bool) {
    && (Picks(s, st, w.name) ==> (Issued(s, st) == Some(Issue(w.name, CallStop)) <==> owed))
    && (!StopDone(w, s, st) ==>
          !IsStart(Issued(s, st), w.name) && Owes(w, Do(s, st), owed && !(s.On? && st.Crash?), force))
  }

  lemma PickMine(w: Target, s: Sys, now: Time, owed: bool, force: bool)
    requires Runs(w) && s.On? && Owes(w, s, owed, force) && Picks(s, Pick(now), w.name)
    requires Get(s.mem.observed, w.name) == Some(w.c)
    ensures Advances(w, s, Pick(now), owed, force)
  {
    hide Runs, Begin, Declares, PickNext;
    LookStops(w, s.mem, s.cfg, Context(s.mem, w.name, now));
    PickIssues(s, w.name, now);
    PickStores(s, w.name, now);
  }

  lemma PickOther(w: Target, s: Sys, now: Time, owed: bool, force: bool)
    requires s.On? && Owes(w, s, owed, force) && s.pc.Reconciling? && !Picks(s, Pick(now), w.name)
    ensures Advances(w, s, Pick(now), owed, force)
  {
    hide Declares, PickNext;
    PickKeepsOthers(s, now, w.name);
    PickKeepsDeclarations(s, now);
  }

  lemma FinishOther(w: Target, s: Sys, o: Outcome, owed: bool, force: bool)
    requires Inv(s) && s.On? && Owes(w, s, owed, force) && s.pc.Awaiting? && !InFlight(w, s)
    ensures Advances(w, s, Finish(o), owed, force)
  {
    hide Declares, FinishCall, Inv;
    FinishKeepsOthers(s, o, w.name);
    FinishKeepsDeclarations(s, o);
  }

  // A stop that failed leaves the restart owed; a check leaves it as it is.
  lemma FinishMine(w: Target, s: Sys, o: Outcome, owed: bool, force: bool)
    requires Owes(w, s, owed, force) && InFlight(w, s) && !StopDone(w, s, Finish(o))
    ensures Advances(w, s, Finish(o), owed, force)
  {
    hide Declares, Checked, HealthDue, Sections.Start;
    CheckedKeeps(s, o);
  }

  lemma CheckedKeeps(s: Sys, o: Outcome)
    ensures forall t: Tracking, h: Health, x: Ctx | x.c.Some? :: Checked(t, h, x, o).restart == t.restart
  {
  }

  lemma ServeOther(w: Target, s: Sys, p: Prim, owed: bool, force: bool)
    requires Inv(s) && s.On? && Owes(w, s, owed, force) && Subject(p) != Some(w.name)
    ensures Owes(w, Serve(s, p), owed, force)
  {
    hide Declares, Apply;
    ApplyTouches(s.mem, s.disk, p, w.name);
  }

  lemma ObserveOther(w: Target, s: Sys, owed: bool, force: bool)
    requires s.On? && Owes(w, s, owed, force) && s.pc.Observing?
    ensures Owes(w, ObserveNext(s), owed, force)
  {
    hide Declares, ObserveNext;
    ObserveKeepsOthers(s, w.name);
  }

  lemma BootTakes(w: Target, d: Disk, st: Step, force: bool)
    requires Runs(w) && Stored(w, d) && st.Boot? && !NewBoot(d, st.id)
    ensures Owes(w, BootUp(d, st), false, force)
  {
    hide Valid, Encode, Decode, Digest;
    SavedIsLoadable(w.rec.spec, DesiredRunning);
  }

  lemma Passive(w: Target, s: Sys, st: Step, owed: bool, force: bool)
    requires s.On? && Owes(w, s, owed, force) && Undisturbed(w, s, st)
    requires st.ListStep? || st.Lock? || st.Removed? || st.PublishStep? || st.Boot? || st.Crash?
    ensures Advances(w, s, st, owed, force)
  {
    hide Declares, Exhibits, Changes, Phases;
  }

  lemma DoAdvances(w: Target, s: Sys, st: Step, owed: bool, force: bool)
    requires Runs(w) && Inv(s) && Owes(w, s, owed, force) && Showing(s, w.name, Some(w.c)) && Undisturbed(w, s, st)
    ensures Advances(w, s, st, owed, force) && Showing(Do(s, st), w.name, Some(w.c))
  {
    hide Digest, Valid, PickNext, FinishCall, Serve, ObserveNext, BootUp, Close, Locked, Exhibits, Showing, Declares,
         Inv, Stored;
    DoShows(s, st, w.name, Some(w.c));
    match st
    case Api(p) => if s.On? && LockFree(s.pc) { ServeOther(w, s, p, owed, force); }
    case ObserveStep => if s.On? && s.pc.Observing? { ObserveOther(w, s, owed, force); }
    case Pick(now) =>
      if s.On? && s.pc.Reconciling? {
        if Picks(s, st, w.name) {
          PickedAsShown(s, w.name, Some(w.c));
          PickMine(w, s, now, owed, force);
        } else {
          PickOther(w, s, now, owed, force);
        }
      }
    case Finish(o) =>
      if s.On? && s.pc.Awaiting? {
        if !InFlight(w, s) {
          FinishOther(w, s, o, owed, force);
        } else if !StopDone(w, s, st) {
          FinishMine(w, s, o, owed, force);
        }
      }
    case Boot(_, _, _, _) => if s.On? { Passive(w, s, st, owed, force); } else { BootTakes(w, s.disk, st, force); }
    case _ => if s.On? { Passive(w, s, st, owed, force); }
  }

  // ---- whole runs ----

  lemma {:induction false} RunOwes(w: Target, s: Sys, steps: seq<Step>, owed: bool, force: bool)
    requires Runs(w) && Inv(s) && Owes(w, s, owed, force) && Showing(s, w.name, Some(w.c)) && Goes(w, s, steps)
    ensures var t := Run(s, steps);
            && Inv(t) && Showing(t, w.name, Some(w.c)) && Owes(w, t, owed && !CrashIn(s, steps), force)
            && !Starts.StartsIn(s, steps, w.name)
    decreases |steps|
  {
    hide Runs, Inv, Owes, Showing, Undisturbed, StopDone, Do, Issued;
    if steps != [] {
      StepOwes(w, s, steps[0], owed, force);
      DoKeepsInv(s, steps[0]);
      RunOwes(w, Do(s, steps[0]), steps[1..], owed && !(s.On? && steps[0].Crash?), force);
    }
  }

  lemma StepOwes(w: Target, s: Sys, st: Step, owed: bool, force: bool)
    requires Runs(w) && Inv(s) && Owes(w, s, owed, force) && Showing(s, w.name, Some(w.c))
    requires Undisturbed(w, s, st) && !StopDone(w, s, st)
    ensures Owes(w, Do(s, st), owed && !(s.On? && st.Crash?), force) && Showing(Do(s, st), w.name, Some(w.c))
    ensures !IsStart(Issued(s, st), w.name)
  {
    hide Runs, Inv, Owes, Showing, Undisturbed, StopDone, Do, Issued;
    DoAdvances(w, s, st, owed, force);
  }

  // The second half of a Restart was just served, the first one before it: the container is
  // declared desired running, and the pass in flight, if there is one, was shown it.
  ghost predicate Told(w: Target, s: Sys) {
    && s.On? && LockFree(s.pc)
    && var t := Do(s, Api(MarkRestart(w.name)));
       Get(t.mem.records, w.name) == Some(w.rec) && Showing(t, w.name, Some(w.c))
  }

  lemma MarkedOwes(w: Target, s: Sys)
    requires Inv(s) && ValidRecords(s) && Told(w, s) && HasRunning(w)
    ensures var t := Do(s, Api(MarkRestart(w.name)));
            && Inv(t) && Runs(w) && Owes(w, t, true, Track(s.mem, w.name).force) && Showing(t, w.name, Some(w.c))
  {
    hide Showing, Digest, Valid;
    DoKeepsInv(s, Api(MarkRestart(w.name)));
    DoKeepsValid(s, Api(MarkRestart(w.name)));
    ApplyTouches(s.mem, s.disk, MarkRestart(w.name), w.name);
  }

  // An explicit restart of a running container stops it, and then starts it when it can.
  lemma SectionsRestart(m: Mem, cfg: Config, x: Ctx, m2: Mem, o: Outcome)
    requires Up(x.c) && x.c.value.specLabel == Some(Digest(x.rec.spec)) && x.rec.desired == DesiredRunning
    requires Track(m, x.name).restart && Track(m2, x.name) == Track(m, x.name)
    ensures Begin(m, cfg, x) == Section(Track(m, x.name), Ask(StopToRestart, x))
    ensures var sec := Resume(m2, cfg, StopToRestart, x, o);
            var t := Track(m, x.name).(restart := false);
            if o.error.Some? then sec.ctl.Over? && sec.track.restart
            else
              (sec == Section(t, Ask(Launch, x)) <==>
                 Unready(SetTrack(m2, x.name, t), Elems(x.rec.spec.dependsOn)) == None)
  {
    hide Digest, Unready;
  }

  // The section that did the stop starts the container exactly when its dependencies are ready;
  // where they are not, it waits, and is to be started still if it was when it was stopped.
  lemma StopsThenStarts(w: Target, s: Sys, o: Outcome, owed: bool, force: bool)
    requires Runs(w) && Inv(s) && Owes(w, s, owed, force) && StopDone(w, s, Finish(o))
    ensures IsStart(Issued(s, Finish(o)), w.name) <==> Ready(w, s.mem)
    ensures !Ready(w, s.mem) ==>
              var t := Do(s, Finish(o));
              && t.On? && t.cfg == s.cfg && t.pc == Reconciling(s.pc.listing, s.pc.names)
              && Get(t.mem.records, w.name) == Get(s.mem.records, w.name) && Track(t.mem, w.name).force == force
  {
    hide Digest, Valid, Declares, Unready, Inv;
    var x, t := s.pc.ctx, Track(s.mem, w.name).(restart := false);
    DeclaresAlike(w, x.rec);
    SectionsRestart(s.mem, s.cfg, x, s.mem, o);
    OwnTrackingIsNoDependency(w.rec.spec, s.mem, t);
  }

  // When an accepted Restart of a running container is carried out. Over any run that the API
  // leaves the container to, crashes of the daemon included, and in which no stop of it has
  // come back done: it is not started; a look at it stops it exactly when no crash came before;
  // and the stop that is done is followed by the start exactly when its dependencies are ready.
  lemma ARestartSurvivesIff(disk: Disk, before: seq<Step>, w: Target, steps: seq<Step>)
    requires var s := Run(Off(disk), before);
             Told(w, s) && HasRunning(w) && Goes(w, Do(s, Api(MarkRestart(w.name))), steps)
    ensures var u := Do(Run(Off(disk), before), Api(MarkRestart(w.name)));
            var t := Run(u, steps);
            && !Starts.StartsIn(u, steps, w.name)
            && (forall now :: Picks(t, Pick(now), w.name) ==>
                  (Issued(t, Pick(now)) == Some(Issue(w.name, CallStop)) <==> !CrashIn(u, steps)))
            && (forall o :: StopDone(w, t, Finish(o)) ==>
                  (IsStart(Issued(t, Finish(o)), w.name) <==> Ready(w, t.mem)))
  {
    hide HasRunning, Runs, Inv, Owes, Showing, Do, Issued, Undisturbed, StopDone, Ready;
    var s, u := Run(Off(disk), before), Do(Run(Off(disk), before), Api(MarkRestart(w.name)));
    var force := s.On? && Track(s.mem, w.name).force;
    RunKeepsInv(Off(disk), before);
    RunKeepsValid(Off(disk), before);
    MarkedOwes(w, s);
    RunOwes(w, u, steps, true, force);
    var t := Run(u, steps);
    forall now | Picks(t, Pick(now), w.name)
      ensures Issued(t, Pick(now)) == Some(Issue(w.name, CallStop)) <==> !CrashIn(u, steps)
    {
      LooksOnce(w, t, now, !CrashIn(u, steps), force);
    }
    StopsOnce(w, t, !CrashIn(u, steps), force);
  }

  lemma StopsOnce(w: Target, t: Sys, owed: bool, force: bool)
    requires Runs(w) && Inv(t) && Owes(w, t, owed, force)
    ensures forall o :: StopDone(w, t, Finish(o)) ==> (IsStart(Issued(t, Finish(o)), w.name) <==> Ready(w, t.mem))
  {
    hide Runs, Inv, Owes, Do, Issued, Ready;
    forall o | StopDone(w, t, Finish(o)) ensures IsStart(Issued(t, Finish(o)), w.name) <==> Ready(w, t.mem) {
      StopsThenStarts(w, t, o, owed, force);
    }
  }

  lemma LooksOnce(w: Target, t: Sys, now: Time, owed: bool, force: bool)
    requires Runs(w) && Inv(t) && Owes(w, t, owed, force) && Showing(t, w.name, Some(w.c))
    requires Picks(t, Pick(now), w.name)
    ensures Issued(t, Pick(now)) == Some(Issue(w.name, CallStop)) <==> owed
  {
    hide Runs, Inv, Owes, Showing, Do, Issued;
    DoAdvances(w, t, Pick(now), owed, force);
  }

  // A Restart that has to wait between its stop and its start, no look having come between its
  // own two halves: from there on it is an accepted Start of what the container has become.
  lemma ARestartThatWaits(disk: Disk, before: seq<Step>, w: Target, steps: seq<Step>, o: Outcome,
                          v: Starts.Wanted, rest: seq<Step>, clk: Time, now: Time)
    requires var s := Run(Off(disk), before);
             && Told(w, s) && HasRunning(w) && Track(s.mem, w.name).force
             && Goes(w, Do(s, Api(MarkRestart(w.name))), steps)
    requires v.name == w.name && v.rec == w.rec && Starts.HasDown(v)
    requires var t := Run(Do(Run(Off(disk), before), Api(MarkRestart(w.name))), steps);
             && StopDone(w, t, Finish(o)) && !Ready(w, t.mem) && (Starts.RanIn(t.cfg, v.c) <==> v.ran)
             && var t1 := Do(t, Finish(o));
                && Starts.UndisturbedRun(v, t1, rest, clk) && !Starts.StartsIn(t1, rest, w.name)
                && Picks(Run(t1, rest), Pick(now), w.name) && now >= ClockAfter(rest, clk)
    ensures var t := Run(Do(Run(Off(disk), before), Api(MarkRestart(w.name))), steps);
            var t1 := Do(t, Finish(o));
            IsStart(Issued(Run(t1, rest), Pick(now)), w.name) <==>
            Starts.Clear(v, Run(t1, rest).mem) && Starts.Live(v, Starts.ClaimAfter(v, t1, rest, Starts.Forced), now)
  {
    hide Told, HasRunning, Runs, Inv, Owes, Showing, Do, Issued, Undisturbed, StopDone, Ready;
    hide Starts.HasDown, Starts.Awaits, Starts.Rests, Starts.RanIn, Starts.Undisturbed, Starts.Clear, Starts.Live;
    var s, u := Run(Off(disk), before), Do(Run(Off(disk), before), Api(MarkRestart(w.name)));
    var t := Run(u, steps);
    RunKeepsInv(Off(disk), before);
    RunKeepsValid(Off(disk), before);
    MarkedOwes(w, s);
    RunOwes(w, u, steps, true, true);
    WaitsAsStarted(w, t, o, !CrashIn(u, steps), v, clk);
    DoKeepsInv(t, Finish(o));
    Starts.RunWaits(v, Do(t, Finish(o)), rest, Starts.Forced, clk);
    Starts.LooksOnce(v, Run(Do(t, Finish(o)), rest), now, Starts.ClaimAfter(v, Do(t, Finish(o)), rest, Starts.Forced),
                     ClockAfter(rest, clk));
  }

  lemma WaitsAsStarted(w: Target, s: Sys, o: Outcome, owed: bool, v: Starts.Wanted, clk: Time)
    requires Runs(w) && Inv(s) && Owes(w, s, owed, true) && Showing(s, w.name, Some(w.c))
    requires StopDone(w, s, Finish(o)) && !Ready(w, s.mem)
    requires v.name == w.name && v.rec == w.rec && Starts.HasDown(v) && (Starts.RanIn(s.cfg, v.c) <==> v.ran)
    ensures Starts.Rests(v)
    ensures Starts.Awaits(v, Do(s, Finish(o)), Starts.Forced, clk) && Showing(Do(s, Finish(o)), v.name, v.c)
  {
    hide Digest, Valid, Do, Ready, Starts.HasDown, Starts.RanIn, Inv;
    StopsThenStarts(w, s, o, owed, true);
  }
}
