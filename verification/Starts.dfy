// What becomes of an accepted Start. The wish to start at once is kept in memory only, and
// the first pass that comes to the container takes it, whether the container can be started
// then or has to wait.
module Starts {
  import opened Basics
  import opened Specs
  import opened Sections
  import opened Machine
  import opened Interference
  import opened Listings
  import opened Readiness
  import Looks
  import opened Stops

  // ---- the first look ----

  // Not running, and of the declaration if it is there.
  ghost predicate DownOrGone(r: Record, c: Option<Container>) {
    c.Some? ==> DownAsDeclared(r, c.value)
  }

  // Its name is free, or it is there, and every dependency is ready.
  ghost predicate CanStart(m: Mem, x: Ctx) {
    !(x.name in m.foreign && x.c.None?) && AllReady(m, x.rec.spec.dependsOn)
  }

  lemma ForcedStarts(m: Mem, cfg: Config, x: Ctx)
    requires Track(m, x.name) == FORCED && x.rec.desired == DesiredRunning && DownOrGone(x.rec, x.c)
    requires Valid(x.rec.spec) && x.rec.spec.name == x.name
    ensures var sec := Begin(m, cfg, x);
            if CanStart(m, x) then sec == Section(FRESH, Ask(Launch, x))
            else sec.ctl.Over? && sec.track == FRESH.(phase := Waiting, err := sec.track.err)
  {
    hide Digest, Tallied, Unready, Valid, AllReady;
    OwnTrackingIsNoDependency(x.rec.spec, m, FRESH);
  }

  // In every run without a crash, after a Start that returned without error, the first pass
  // that comes to the container, down and of its declaration, starts it exactly when its name
  // is free and its dependencies are ready.
  lemma AStartIsCarriedOut(disk: Disk, before: seq<Step>, name: string, w: Written, steps: seq<Step>, now: Time)
    requires var s, p := Run(Off(disk), before), SetDesired(name, DesiredRunning, w);
             && s.On? && LockFree(s.pc) && Apply(s.mem, s.disk, p).ok && Leaves(Do(s, Api(p)), steps, name)
    requires var t := Run(Off(disk), before + [Api(SetDesired(name, DesiredRunning, w))] + steps);
             && Picks(t, Pick(now), name) && name in t.mem.records
             && DownOrGone(t.mem.records[name], Get(t.mem.observed, name))
    ensures var t := Run(Off(disk), before + [Api(SetDesired(name, DesiredRunning, w))] + steps);
            IsStart(Issued(t, Pick(now)), name) <==> CanStart(t.mem, Context(t.mem, name, now))
  {
    hide Do, Issued, AllReady, DownOrGone, Begin, Valid;
    var s, p := Run(Off(disk), before), SetDesired(name, DesiredRunning, w);
    var t := Run(Off(disk), before + [Api(p)] + steps);
    ApiCallIsNotOverwritten(disk, before, p, name, steps);
    StartForces(s.mem, s.disk, name, w);
    var x := Context(t.mem, name, now);
    RunKeepsValid(Off(disk), before + [Api(p)] + steps);
    ForcedStarts(t.mem, t.cfg, x);
    PickIssues(t, name, now);
  }

  // A container that was given up is forced when it is declared again.
  lemma PutForces(m: Mem, d: Disk, sp: Spec, w: Written)
    requires Apply(m, d, PutRecord(sp, w)).ok && Track(m, sp.name).phase == Fatal
    requires sp.name in m.records && m.records[sp.name].desired == DesiredRunning
    ensures var r := Apply(m, d, PutRecord(sp, w)).mem;
            Get(r.track, sp.name) == Some(FORCED) && Get(r.records, sp.name) == Some(Record(sp, DesiredRunning))
  {
    hide Save, Valid;
  }

  // In every run without a crash, after a container that was given up was declared again, the
  // first pass that comes to it, down and of its new declaration or not there, starts it exactly
  // when its name is free and its dependencies are ready.
  lemma APutRevives(disk: Disk, before: seq<Step>, sp: Spec, w: Written, steps: seq<Step>, now: Time)
    requires var s := Run(Off(disk), before);
             && s.On? && LockFree(s.pc) && Apply(s.mem, s.disk, PutRecord(sp, w)).ok
             && sp.name in s.mem.records && s.mem.records[sp.name].desired == DesiredRunning
             && Track(s.mem, sp.name).phase == Fatal && Leaves(Do(s, Api(PutRecord(sp, w))), steps, sp.name)
    requires var t := Run(Off(disk), before + [Api(PutRecord(sp, w))] + steps);
             && Picks(t, Pick(now), sp.name) && sp.name in t.mem.records
             && DownOrGone(t.mem.records[sp.name], Get(t.mem.observed, sp.name))
    ensures var t := Run(Off(disk), before + [Api(PutRecord(sp, w))] + steps);
            IsStart(Issued(t, Pick(now)), sp.name) <==> CanStart(t.mem, Context(t.mem, sp.name, now))
  {
    hide Do, Issued, AllReady, DownOrGone, Begin, Valid;
    var s, p := Run(Off(disk), before), PutRecord(sp, w);
    var t := Run(Off(disk), before + [Api(p)] + steps);
    ApiCallIsNotOverwritten(disk, before, p, sp.name, steps);
    PutForces(s.mem, s.disk, sp, w);
    RunKeepsValid(Off(disk), before + [Api(p)] + steps);
    ForcedStarts(t.mem, t.cfg, Context(t.mem, sp.name, now));
    PickIssues(t, sp.name, now);
  }

  // Declared again, a container that was not given up keeps what is known of it, and how it is
  // wanted; one declared for the first time is wanted running.
  lemma APutKeeps(m: Mem, d: Disk, sp: Spec, w: Written)
    requires Apply(m, d, PutRecord(sp, w)).ok
    ensures var r := Apply(m, d, PutRecord(sp, w)).mem;
            && (Track(m, sp.name).phase != Fatal ==> r.track == m.track)
            && Get(r.records, sp.name) ==
               Some(Record(sp, if sp.name in m.records then m.records[sp.name].desired else DesiredRunning))
  {
    hide Save, Valid;
  }

  lemma StartForces(m: Mem, d: Disk, name: string, w: Written)
    requires Apply(m, d, SetDesired(name, DesiredRunning, w)).ok
    ensures var r := Apply(m, d, SetDesired(name, DesiredRunning, w)).mem;
            Get(r.track, name) == Some(FORCED) && name in r.records && r.records[name].desired == DesiredRunning
  {
    hide Save;
  }

  // ---- what is still known of a start ----

  // A container that was told to start: its declaration, the container it has, if it has one,
  // and whether that one ran in this boot.
  datatype Wanted = Wanted(name: string, rec: Record, c: Option<Container>, ran: bool)

  // It is not there, or down as declared, and if it ran in this boot, it exited.
  ghost predicate HasDown(w: Wanted) {
    && Named(w.name, w.c) && DownOrGone(w.rec, w.c)
    && (w.ran ==> w.c.Some? && w.c.value.exitedAt != ZERO)
  }

  ghost predicate Rests(w: Wanted) {
    HasDown(w) && w.rec.spec.name == w.name && Valid(w.rec.spec) && w.rec.desired == DesiredRunning
  }

  ghost predicate RanIn(cfg: Config, c: Option<Container>) {
    c.Some? && c.value.startedAt != ZERO && c.value.startedAt >= cfg.bootTime
  }

  // It exited, and the policy restarts it.
  predicate Again(w: Wanted) {
    w.c.Some? && Looks.RestartedBy(w.rec.spec.restart.policy, w.c.value.exitCode)
  }

  // What the supervisor still knows: that it was told to start it; nothing; or that it exited
  // and is to be restarted, as a pass decided at some time.
  datatype Claim = Forced | Lapsed | Judged(at: Time)

  // What is known after a look at it that did not start it.
  function Looked(w: Wanted, k: Claim, now: Time): Claim {
    if k.Judged? then k else if k == Lapsed && w.ran && Again(w) then Judged(now) else Lapsed
  }

  // A look at the container, or a crash, takes what was known.
  ghost function Next(w: Wanted, s: Sys, st: Step, k: Claim): Claim {
    if s.On? && st.Crash? then Lapsed
    else if Picks(s, st, w.name) then Looked(w, k, st.now)
    else k
  }

  ghost function ClaimAfter(w: Wanted, s: Sys, steps: seq<Step>, k: Claim): Claim
    decreases |steps|
  {
    if steps == [] then k else ClaimAfter(w, Do(s, steps[0]), steps[1..], Next(w, s, steps[0], k))
  }

  // It is to be started at this look: it never ran in this boot, or it was told
  // to start, or its exit was decided on a second ago.
  predicate Live(w: Wanted, k: Claim, now: Time) {
    !w.ran || k.Forced? || (k.Judged? && now >= k.at + SECOND)
  }

  // Nothing stands in its way: no container of others holds its name, and its dependencies are
  // ready.
  ghost predicate Clear(w: Wanted, m: Mem) {
    !(w.c.None? && w.name in m.foreign) && AllReady(m, w.rec.spec.dependsOn)
  }

  // ---- the environment ----

  // What a start of the daemon would load is the declaration, with its hash if there is a
  // container to compare it to.
  ghost predicate Stored(w: Wanted, d: Disk) {
    && Get(d.records, w.name) == Some(Saved(Encode(w.rec.spec), DesiredRunning))
    && (w.c.Some? ==> HashStable(w.rec.spec))
  }

  // No API call on the name; the clock does not go back; every listing shows the container, or
  // none; the daemon may crash while the declaration is stored, and starts again in the same boot.
  ghost predicate Undisturbed(w: Wanted, s: Sys, st: Step, clk: Time) {
    && !(st.Api? && Subject(st.p) == Some(w.name))
    && (st.Pick? ==> st.now >= clk)
    && (st.ListStep? ==> Exhibits(st.listed, w.name, w.c))
    && (s.On? && st.Crash? ==> Stored(w, s.disk))
    && (s.Off? && st.Boot? ==> !NewBoot(s.disk, st.id) && (RanIn(Config(st.bootTime), w.c) <==> w.ran))
  }

  ghost predicate UndisturbedRun(w: Wanted, s: Sys, steps: seq<Step>, clk: Time)
    decreases |steps|
  {
    steps == [] ||
    (Undisturbed(w, s, steps[0], clk) && UndisturbedRun(w, Do(s, steps[0]), steps[1..], Clock(steps[0], clk)))
  }

  // The run asks the engine to start the container.
  ghost predicate StartsIn(s: Sys, steps: seq<Step>, name: string)
    decreases |steps|
  {
    steps != [] && (IsStart(Issued(s, steps[0]), name) || StartsIn(Do(s, steps[0]), steps[1..], name))
  }

  // A crash, or a look at the container, comes in the run.
  ghost predicate TakenIn(s: Sys, steps: seq<Step>, name: string)
    decreases |steps|
  {
    steps != [] &&
    ((s.On? && steps[0].Crash?) || Picks(s, steps[0], name) || TakenIn(Do(s, steps[0]), steps[1..], name))
  }

  // ---- the invariant ----

  // What the tracking keeps of it.
  ghost predicate Recalls(w: Wanted, t: Tracking, k: Claim, clk: Time) {
    match k
    case Forced => t.force
    case Lapsed =>
      && !t.force && !t.restart && t.startAttempts == 0 && t.restarts == 0
      && (|| ((t.phase == NoPhase || t.phase == Waiting) && t.handledExit == ZERO)
          || (w.ran && w.c.Some? && t.phase == Phase.Exited && t.handledExit == w.c.value.exitedAt && !Again(w)))
    case Judged(at) =>
      && w.ran && Again(w) && !t.force && !t.restart && t.handledExit == w.c.value.exitedAt
      && ((t.phase == Backoff && t.nextAttempt == at + SECOND) || (t.phase == Waiting && clk >= at + SECOND))
  }

  // The declaration, as it was given or as it comes back from the store.
  ghost predicate Declares(w: Wanted, r: Record) {
    r == w.rec || ((w.c.Some? ==> HashStable(w.rec.spec)) && r == w.rec.(spec := Reloaded(w.rec.spec)))
  }

  ghost predicate Awaits(w: Wanted, s: Sys, k: Claim, clk: Time) {
    match s
    case Off(d) => Stored(w, d) && k == Lapsed
    case On(cfg, m, _, pc, _) =>
      && (RanIn(cfg, w.c) <==> w.ran)
      && w.name in m.records && Declares(w, m.records[w.name])
      && (pc.Awaiting? && pc.ctx.name == w.name ==> Changed(m, w.name) != pc.seen)
      && Recalls(w, Track(m, w.name), k, clk)
  }

  // ---- one look ----

  // A look at it goes to what is done with a container that is down.
  lemma LooksDown(w: Wanted, m: Mem, cfg: Config, x: Ctx)
    requires Rests(w) && Declares(w, x.rec) && x.name == w.name && x.c == w.c
    ensures Begin(m, cfg, x) == JudgeDown(m, cfg, x, Detached(Track(m, w.name)))
  {
    hide Digest, Valid, Declares, Detached, JudgeDown;
    DeclaresAlike(w, x.rec);
  }

  // It is started, or waits, by its dependencies.
  lemma StartsOrWaits(w: Wanted, m: Mem, x: Ctx, t: Tracking)
    requires Rests(w) && Declares(w, x.rec) && x.name == w.name && x.c == w.c
    ensures var sec := Sections.Start(m, x, t);
            if Clear(w, m) then sec == Section(t, Ask(Launch, x))
            else sec.ctl.Over? && sec.track == t.(phase := Waiting, err := sec.track.err)
  {
    hide Digest, Valid, Declares, Unready, AllReady;
    DeclaresAlike(w, x.rec);
    OwnTrackingIsNoDependency(w.rec.spec, m, t);
  }

  // What one look at it does: it is started exactly when its dependencies are ready and the
  // claim is live, and otherwise the claim is the next one.
  ghost predicate Follows(w: Wanted, m: Mem, x: Ctx, k: Claim, sec: Section) {
    if Clear(w, m) && Live(w, k, x.now) then sec.ctl == Ask(Launch, x)
    else sec.ctl.Over? && Recalls(w, sec.track, Looked(w, k, x.now), x.now)
  }

  lemma NeverRanFollows(w: Wanted, m: Mem, cfg: Config, x: Ctx, t: Tracking, k: Claim, clk: Time)
    requires Rests(w) && Declares(w, x.rec) && x.name == w.name && x.c == w.c && clk <= x.now
    requires Recalls(w, t, k, clk) && NeverRan(cfg, x, t) && (RanIn(cfg, w.c) <==> w.ran) && t == Detached(t)
    ensures Follows(w, m, x, k, JudgeDown(m, cfg, x, t))
  {
    hide Rests, Declares, Clear, Sections.Start;
    StartsOrWaits(w, m, x, if t.force || t.phase == NoPhase then FRESH else t);
  }

  // The first tally of an exit: left as it is, or to be restarted in a second.
  lemma FirstTally(x: Ctx, t: Tracking)
    requires x.c.Some? && t.startAttempts == 0 && t.restarts == 0
    ensures var u := Tallied(x, t).0;
            && u.handledExit == x.c.value.exitedAt && u.force == t.force && u.restart == t.restart
            && if Restarts(x) then u.phase == Backoff && Gap(Tallied(x, t).1) == SECOND
               else u.phase == Phase.Exited && u.startAttempts == 0 && u.restarts == 0
  {
  }

  // An exit that the supervisor knows nothing of is decided on.
  lemma LapsedFollows(w: Wanted, m: Mem, x: Ctx, t: Tracking, clk: Time)
    requires Rests(w) && Declares(w, x.rec) && x.name == w.name && x.c == w.c && w.c.Some?
    requires Recalls(w, t, Lapsed, clk) && w.ran && t.handledExit == ZERO
    ensures Follows(w, m, x, Lapsed, JudgeExit(m, x, t))
  {
    hide Rests, Declares, Clear, Sections.Start, Tallied, Gap, Restarts;
    RestartsAlike(w, x);
    FirstTally(x, t);
  }

  lemma RestartsAlike(w: Wanted, x: Ctx)
    requires Declares(w, x.rec) && x.c == w.c && w.c.Some?
    ensures Restarts(x) == Again(w)
  {
    hide Declares;
    DeclaresAlike(w, x.rec);
  }

  lemma RanFollows(w: Wanted, m: Mem, cfg: Config, x: Ctx, t: Tracking, k: Claim, clk: Time)
    requires Rests(w) && Declares(w, x.rec) && x.name == w.name && x.c == w.c && clk <= x.now
    requires Recalls(w, t, k, clk) && !NeverRan(cfg, x, t) && (RanIn(cfg, w.c) <==> w.ran)
    ensures Follows(w, m, x, k, JudgeDown(m, cfg, x, t))
  {
    hide DownAsDeclared, Valid, Declares, Clear, Sections.Start, JudgeExit, Restarts;
    RestartsAlike(w, x);
    if t.handledExit == ZERO { LapsedFollows(w, m, x, t, clk); } else { StartsOrWaits(w, m, x, t); }
  }

  lemma LookDecides(w: Wanted, m: Mem, cfg: Config, x: Ctx, k: Claim, clk: Time)
    requires Rests(w) && (RanIn(cfg, w.c) <==> w.ran) && Recalls(w, Track(m, w.name), k, clk) && clk <= x.now
    requires x.name == w.name && x.c == w.c && Declares(w, x.rec)
    ensures Follows(w, m, x, k, Begin(m, cfg, x))
  {
    hide Rests, Declares, Begin, JudgeDown, RanIn, Follows;
    var t := Detached(Track(m, w.name));
    LooksDown(w, m, cfg, x);
    if NeverRan(cfg, x, t) { NeverRanFollows(w, m, cfg, x, t, k, clk); } else { RanFollows(w, m, cfg, x, t, k, clk); }
  }

  lemma DeclaresAlike(w: Wanted, r: Record)
    requires Declares(w, r)
    ensures w.c.Some? ==> Digest(r.spec) == Digest(w.rec.spec)
    ensures r.desired == w.rec.desired && r.spec.restart == w.rec.spec.restart
    ensures Elems(r.spec.dependsOn) == Elems(w.rec.spec.dependsOn)
  {
    if r != w.rec {
      HashSurvivesReload(w.rec.spec);
      ElemsOmitted(Elems(w.rec.spec.dependsOn));
    }
  }

  // ---- steps ----

  lemma LaterRecalls(w: Wanted, t: Tracking, k: Claim, clk: Time, clk': Time)
    requires Recalls(w, t, k, clk) && clk <= clk'
    ensures Recalls(w, t, k, clk')
  {
    hide Again;
  }

  // What a step means to a container waited with: it is started exactly where a pass looks at
  // it, nothing in its way and its claim live; otherwise it is waited with still.
  ghost predicate Waits(w: Wanted, s: Sys, st: Step, k: Claim, clk: Time) {
    && (IsStart(Issued(s, st), w.name) <==>
          Picks(s, st, w.name) && Clear(w, s.mem) && Live(w, k, Clock(st, clk)))
    && (!IsStart(Issued(s, st), w.name) ==> Awaits(w, Do(s, st), Next(w, s, st, k), Clock(st, clk)))
  }

  lemma PickMineWaits(w: Wanted, s: Sys, now: Time, k: Claim, clk: Time)
    requires Rests(w) && s.On? && Awaits(w, s, k, clk) && Picks(s, Pick(now), w.name) && clk <= now
    requires Get(s.mem.observed, w.name) == w.c
    ensures Waits(w, s, Pick(now), k, clk)
  {
    hide Rests, Begin, Declares, Clear, Live, Recalls, RanIn, PickNext;
    var x := Context(s.mem, w.name, now);
    LookDecides(w, s.mem, s.cfg, x, k, clk);
    PickIssues(s, w.name, now);
    PickStores(s, w.name, now);
  }

  lemma PickOtherWaits(w: Wanted, s: Sys, now: Time, k: Claim, clk: Time)
    requires s.On? && Awaits(w, s, k, clk) && s.pc.Reconciling? && !Picks(s, Pick(now), w.name) && clk <= now
    ensures Waits(w, s, Pick(now), k, clk)
  {
    hide Recalls, RanIn, Declares, PickNext, Live, Clear;
    PickKeepsOthers(s, now, w.name);
    PickKeepsDeclarations(s, now);
    LaterRecalls(w, Track(s.mem, w.name), k, clk, now);
  }

  lemma FinishWaits(w: Wanted, s: Sys, o: Outcome, k: Claim, clk: Time)
    requires Inv(s) && s.On? && Awaits(w, s, k, clk) && s.pc.Awaiting?
    ensures Waits(w, s, Finish(o), k, clk)
  {
    hide Recalls, RanIn, Declares, FinishCall, Live, Clear, Inv;
    FinishKeepsOthers(s, o, w.name);
    FinishKeepsDeclarations(s, o);
  }

  lemma ServeWaits(w: Wanted, s: Sys, p: Prim, k: Claim, clk: Time)
    requires Inv(s) && s.On? && Awaits(w, s, k, clk) && Subject(p) != Some(w.name)
    ensures Awaits(w, Serve(s, p), k, clk)
  {
    hide Recalls, RanIn, Declares, Apply;
    ApplyTouches(s.mem, s.disk, p, w.name);
  }

  lemma ObserveWaits(w: Wanted, s: Sys, k: Claim, clk: Time)
    requires s.On? && Awaits(w, s, k, clk) && s.pc.Observing?
    ensures Awaits(w, ObserveNext(s), k, clk)
  {
    hide Recalls, RanIn, Declares, ObserveNext;
    ObserveKeepsOthers(s, w.name);
  }

  lemma BootWaits(w: Wanted, d: Disk, st: Step, k: Claim, clk: Time)
    requires Rests(w) && Awaits(w, Off(d), k, clk) && st.Boot? && Undisturbed(w, Off(d), st, clk)
    ensures Awaits(w, BootUp(d, st), k, clk)
  {
    hide RanIn, Valid, Encode, Decode, DownAsDeclared, Restarts;
    SavedIsLoadable(w.rec.spec, DesiredRunning);
  }

  lemma PassiveWaits(w: Wanted, s: Sys, st: Step, k: Claim, clk: Time)
    requires s.On? && Awaits(w, s, k, clk) && Undisturbed(w, s, st, clk)
    requires st.ListStep? || st.Lock? || st.Removed? || st.PublishStep? || st.Boot? || st.Crash?
    ensures Waits(w, s, st, k, clk)
  {
    hide Recalls, RanIn, Declares, Exhibits, Live, Clear, Changes, Phases;
  }

  lemma DoWaits(w: Wanted, s: Sys, st: Step, k: Claim, clk: Time)
    requires Rests(w) && Inv(s) && Awaits(w, s, k, clk) && Showing(s, w.name, w.c) && Undisturbed(w, s, st, clk)
    ensures if s.On? then Waits(w, s, st, k, clk)
            else !IsStart(Issued(s, st), w.name) && Awaits(w, Do(s, st), Next(w, s, st, k), Clock(st, clk))
    ensures Showing(Do(s, st), w.name, w.c)
  {
    hide DownOrGone, Valid, PickNext, FinishCall, Serve, ObserveNext, BootUp, Close, Locked, Exhibits, Showing, Named,
         RanIn, Declares, Recalls, Live, Clear, Looked, Inv, Stored;
    DoShows(s, st, w.name, w.c);
    match st
    case Api(p) => if s.On? && LockFree(s.pc) { ServeWaits(w, s, p, k, clk); }
    case ObserveStep => if s.On? && s.pc.Observing? { ObserveWaits(w, s, k, clk); }
    case Pick(now) =>
      if s.On? && s.pc.Reconciling? {
        if Picks(s, st, w.name) {
          PickedAsShown(s, w.name, w.c);
          PickMineWaits(w, s, now, k, clk);
        } else {
          PickOtherWaits(w, s, now, k, clk);
        }
      } else if s.On? {
        LaterRecalls(w, Track(s.mem, w.name), k, clk, now);
      }
    case Finish(o) => if s.On? && s.pc.Awaiting? { FinishWaits(w, s, o, k, clk); }
    case Boot(_, _, _, _) => if s.On? { PassiveWaits(w, s, st, k, clk); } else { BootWaits(w, s.disk, st, k, clk); }
    case _ => if s.On? { PassiveWaits(w, s, st, k, clk); }
  }

  // ---- whole runs ----

  lemma {:induction false} RunWaits(w: Wanted, s: Sys, steps: seq<Step>, k: Claim, clk: Time)
    requires Rests(w) && Inv(s) && Awaits(w, s, k, clk) && Showing(s, w.name, w.c)
    requires UndisturbedRun(w, s, steps, clk) && !StartsIn(s, steps, w.name)
    ensures Awaits(w, Run(s, steps), ClaimAfter(w, s, steps, k), ClockAfter(steps, clk))
    ensures Inv(Run(s, steps)) && Showing(Run(s, steps), w.name, w.c)
    decreases |steps|
  {
    hide Rests, Inv, Awaits, Showing, Undisturbed, Do, Issued, Next;
    if steps != [] {
      StepWaits(w, s, steps[0], k, clk);
      DoKeepsInv(s, steps[0]);
      RunWaits(w, Do(s, steps[0]), steps[1..], Next(w, s, steps[0], k), Clock(steps[0], clk));
    }
  }

  lemma StepWaits(w: Wanted, s: Sys, st: Step, k: Claim, clk: Time)
    requires Rests(w) && Inv(s) && Awaits(w, s, k, clk) && Showing(s, w.name, w.c)
    requires Undisturbed(w, s, st, clk) && !IsStart(Issued(s, st), w.name)
    ensures Awaits(w, Do(s, st), Next(w, s, st, k), Clock(st, clk)) && Showing(Do(s, st), w.name, w.c)
  {
    hide Rests, Inv, Awaits, Showing, Undisturbed, Do, Issued, Next;
    DoWaits(w, s, st, k, clk);
  }

  // Nothing took what was known of the start exactly while no crash and no look came.
  lemma {:induction false} TakenOnce(w: Wanted, s: Sys, steps: seq<Step>, k: Claim)
    ensures ClaimAfter(w, s, steps, k) == Forced <==> k == Forced && !TakenIn(s, steps, w.name)
    ensures !Again(w) && !k.Judged? ==> !ClaimAfter(w, s, steps, k).Judged?
    decreases |steps|
  {
    hide Do, Again;
    if steps != [] { TakenOnce(w, Do(s, steps[0]), steps[1..], Next(w, s, steps[0], k)); }
  }

  // A Start of the container was just accepted; the pass in flight, if there is one, was shown
  // the container.
  ghost predicate Told(w: Wanted, s: Sys, o: Written) {
    && s.On? && LockFree(s.pc) && Apply(s.mem, s.disk, SetDesired(w.name, DesiredRunning, o)).ok
    && var t := Do(s, Api(SetDesired(w.name, DesiredRunning, o)));
       Get(t.mem.records, w.name) == Some(w.rec) && Showing(t, w.name, w.c) && (RanIn(t.cfg, w.c) <==> w.ran)
  }

  lemma AcceptedAwaits(w: Wanted, s: Sys, o: Written, clk: Time)
    requires Inv(s) && ValidRecords(s) && Told(w, s, o) && HasDown(w)
    ensures var t := Do(s, Api(SetDesired(w.name, DesiredRunning, o)));
            Inv(t) && Rests(w) && Awaits(w, t, Forced, clk) && Showing(t, w.name, w.c)
  {
    hide Showing, RanIn, DownAsDeclared, Valid, Encode, Save, Restarts;
    var p := SetDesired(w.name, DesiredRunning, o);
    DoKeepsInv(s, Api(p));
    DoKeepsValid(s, Api(p));
    StartForces(s.mem, s.disk, w.name, o);
    ApplyTouches(s.mem, s.disk, p, w.name);
  }

  // When an accepted Start of a container that is down, or not there, is carried out. Over any
  // run that the API leaves the container to, crashes of the daemon included, and that has not
  // started it yet: a look at it starts it exactly when its name is free, its dependencies are
  // ready and either there is none that ran in this boot, or no look and no crash came before,
  // or its exit was decided on, by a look after that, at least a second ago. Where the policy
  // leaves the exit, there is no such decision: what is taken from the start once is lost.
  lemma AStartSurvivesIff(disk: Disk, before: seq<Step>, w: Wanted, o: Written, steps: seq<Step>, clk: Time, now: Time)
    requires var s, st := Run(Off(disk), before), Api(SetDesired(w.name, DesiredRunning, o));
             && Told(w, s, o) && HasDown(w) && UndisturbedRun(w, Do(s, st), steps, clk)
             && !StartsIn(Do(s, st), steps, w.name)
             && Picks(Run(Do(s, st), steps), Pick(now), w.name) && now >= ClockAfter(steps, clk)
    ensures var u := Do(Run(Off(disk), before), Api(SetDesired(w.name, DesiredRunning, o)));
            var t := Run(u, steps);
            && (IsStart(Issued(t, Pick(now)), w.name) <==>
                  Clear(w, t.mem) && Live(w, ClaimAfter(w, u, steps, Forced), now))
            && (w.ran && !Again(w) ==>
                  (IsStart(Issued(t, Pick(now)), w.name) <==> Clear(w, t.mem) && !TakenIn(u, steps, w.name)))
  {
    hide Told, HasDown, Awaits, Rests, Inv, Do, Issued, Clear, Undisturbed, Again;
    var s, u := Run(Off(disk), before), Do(Run(Off(disk), before), Api(SetDesired(w.name, DesiredRunning, o)));
    RunKeepsInv(Off(disk), before);
    RunKeepsValid(Off(disk), before);
    AcceptedAwaits(w, s, o, clk);
    RunWaits(w, u, steps, Forced, clk);
    TakenOnce(w, u, steps, Forced);
    LooksOnce(w, Run(u, steps), now, ClaimAfter(w, u, steps, Forced), ClockAfter(steps, clk));
  }

  lemma LooksOnce(w: Wanted, t: Sys, now: Time, k: Claim, clk: Time)
    requires Rests(w) && Inv(t) && Awaits(w, t, k, clk) && Showing(t, w.name, w.c)
    requires Picks(t, Pick(now), w.name) && now >= clk
    ensures IsStart(Issued(t, Pick(now)), w.name) <==> Clear(w, t.mem) && Live(w, k, now)
  {
    hide Rests, Inv, Awaits, Issued, Clear, Live, Do;
    DoWaits(w, t, Pick(now), k, clk);
  }

  // Lost once, it is lost in every run the API leaves the container to.
  lemma ALostStartStaysLost(disk: Disk, before: seq<Step>, w: Wanted, o: Written, steps: seq<Step>, clk: Time,
                            rest: seq<Step>)
    requires var s, st := Run(Off(disk), before), Api(SetDesired(w.name, DesiredRunning, o));
             && Told(w, s, o) && HasDown(w) && UndisturbedRun(w, Do(s, st), steps, clk)
             && !StartsIn(Do(s, st), steps, w.name)
             && TakenIn(Do(s, st), steps, w.name) && w.ran && !Again(w)
             && UndisturbedRun(w, Run(Do(s, st), steps), rest, ClockAfter(steps, clk))
    ensures var u := Do(Run(Off(disk), before), Api(SetDesired(w.name, DesiredRunning, o)));
            !StartsIn(Run(u, steps), rest, w.name)
  {
    hide Told, HasDown, Awaits, Rests, Inv, Do, Issued, Undisturbed, Again;
    var s, u := Run(Off(disk), before), Do(Run(Off(disk), before), Api(SetDesired(w.name, DesiredRunning, o)));
    RunKeepsInv(Off(disk), before);
    RunKeepsValid(Off(disk), before);
    AcceptedAwaits(w, s, o, clk);
    RunWaits(w, u, steps, Forced, clk);
    TakenOnce(w, u, steps, Forced);
    LapsedStays(w, Run(u, steps), rest, ClockAfter(steps, clk));
  }

  lemma {:induction false} LapsedStays(w: Wanted, s: Sys, steps: seq<Step>, clk: Time)
    requires Rests(w) && Inv(s) && Awaits(w, s, Lapsed, clk) && Showing(s, w.name, w.c)
    requires UndisturbedRun(w, s, steps, clk)
    requires w.ran && !Again(w)
    ensures !StartsIn(s, steps, w.name)
    decreases |steps|
  {
    hide Rests, Inv, Awaits, Undisturbed, Do, Issued, Again, Next;
    if steps != [] {
      LapsedStep(w, s, steps[0], clk);
      DoKeepsInv(s, steps[0]);
      LapsedStays(w, Do(s, steps[0]), steps[1..], Clock(steps[0], clk));
    }
  }

  lemma LapsedStep(w: Wanted, s: Sys, st: Step, clk: Time)
    requires Rests(w) && Inv(s) && Awaits(w, s, Lapsed, clk) && Showing(s, w.name, w.c) && Undisturbed(w, s, st, clk)
    requires w.ran && !Again(w)
    ensures !IsStart(Issued(s, st), w.name) && Awaits(w, Do(s, st), Lapsed, Clock(st, clk))
    ensures Showing(Do(s, st), w.name, w.c)
  {
    hide Rests, Inv, Awaits, Undisturbed, Do, Issued, Again, Clear;
    DoWaits(w, s, st, Lapsed, clk);
  }

  // ---- across a restart of the daemon ----

  ghost predicate DiskRunning(d: Disk, name: string) {
    name in d.records && d.records[name].desired == DesiredRunning && Loadable(name, d.records[name])
  }

  // An accepted Start is remembered by a daemon that is restarted in the same boot, as a wish
  // to have the container running, exactly when it was written, because the supervisor held
  // the container as stopped, or the disk said running already.
  lemma AStartIsRememberedIff(s: Sys, name: string, o: Written, boot: Step)
    requires Inv(s) && ValidRecords(s) && s.On? && LockFree(s.pc)
    requires var t := Do(s, Api(SetDesired(name, DesiredRunning, o)));
             && Apply(s.mem, s.disk, SetDesired(name, DesiredRunning, o)).ok
             && CanBoot(t.disk, boot) && !NewBoot(t.disk, boot.id)
    ensures DesiredRunningIn(Run(Do(s, Api(SetDesired(name, DesiredRunning, o))), [Crash, boot]), name) <==>
              s.mem.records[name].desired == DesiredStopped || DiskRunning(s.disk, name)
  {
    hide Encode, Valid, Inv, Decode;
    var p := SetDesired(name, DesiredRunning, o);
    RestartLoads(Do(s, Api(p)), boot);
    SavedIsLoadable(s.mem.records[name].spec, DesiredRunning);
  }

  // ---- runs that lose a start ----

  // Two runs one after the other.
  lemma {:induction false} InTurn(w: Wanted, s: Sys, a: seq<Step>, b: seq<Step>, clk: Time)
    requires UndisturbedRun(w, s, a, clk) && UndisturbedRun(w, Run(s, a), b, ClockAfter(a, clk))
    requires !StartsIn(s, a, w.name) && !StartsIn(Run(s, a), b, w.name)
    ensures UndisturbedRun(w, s, a + b, clk) && !StartsIn(s, a + b, w.name)
    ensures Run(s, a + b) == Run(Run(s, a), b) && ClockAfter(a + b, clk) == ClockAfter(b, ClockAfter(a, clk))
    ensures TakenIn(s, a + b, w.name) <==> TakenIn(s, a, w.name) || TakenIn(Run(s, a), b, w.name)
    decreases |a|
  {
    hide Do, Issued, Undisturbed;
    if a == [] {
      assert a + b == b;
    } else {
      assert (a + b)[0] == a[0] && (a + b)[1..] == a[1..] + b;
      InTurn(w, Do(s, a[0]), a[1..], b, Clock(a[0], clk));
    }
  }

  // One step.
  lemma OneStep(w: Wanted, s: Sys, st: Step, clk: Time)
    requires Undisturbed(w, s, st, clk) && !IsStart(Issued(s, st), w.name)
    ensures UndisturbedRun(w, s, [st], clk) && !StartsIn(s, [st], w.name) && Run(s, [st]) == Do(s, st)
    ensures ClockAfter([st], clk) == Clock(st, clk)
    ensures TakenIn(s, [st], w.name) <==> (s.On? && st.Crash?) || Picks(s, st, w.name)
  {
    hide Do, Issued, Undisturbed;
    assert [st][1..] == [];
  }

  // An exited container of this boot, created from a declaration.
  function ExitedOf(sp: Spec): Container {
    Container("1", sp.name, true, Some(Digest(sp)), StateOther, 0, 1, 2)
  }

  function RunningOf(sp: Spec): Container {
    Container("2", sp.name, true, Some(Digest(sp)), StateRunning, 0, 1, ZERO)
  }

  function WantedOf(sp: Spec): Wanted {
    Wanted(sp.name, Record(sp, DesiredRunning), Some(ExitedOf(sp)), true)
  }

  // A pass that lists it and comes to it.
  function ShownRun(c: Container): seq<Step> { [ListStep([c]), Lock, ObserveStep, ObserveStep] }

  lemma ShownOnce(w: Wanted, s: Sys, clk: Time)
    requires s.On? && s.pc.Idle? && s.mem.records.Keys == {w.name} && HasDown(w) && w.c.Some?
    ensures var l := ShownRun(w.c.value);
            && UndisturbedRun(w, s, l, clk) && !StartsIn(s, l, w.name) && !TakenIn(s, l, w.name)
            && ClockAfter(l, clk) == clk
            && Run(s, l) == s.(mem := s.mem.(observed := map[w.name := w.c.value], foreign := map[]),
                               pc := Reconciling([w.c.value], [w.name]))
  {
    hide UndisturbedRun, StartsIn, TakenIn, ClockAfter, Run, DownAsDeclared;
    var l := ShownRun(w.c.value);
    var s1 := s.(pc := Listed([w.c.value]));
    var s2 := Locked(s1);
    var s3 := s2.(mem := s2.mem.(observed := map[w.name := w.c.value]), pc := Observing([w.c.value], []));
    assert Do(s, l[0]) == s1 && Do(s1, l[1]) == s2;
    assert Do(s2, l[2]) == s3 by {
      assert [w.c.value][1..] == [];
      assert map[w.name := w.c.value] == s2.mem.observed[w.name := w.c.value];
    }
    OneStep(w, s, l[0], clk);
    OneStep(w, s1, l[1], clk);
    OneStep(w, s2, l[2], clk);
    OneStep(w, s3, l[3], clk);
    InTurn(w, s, [l[0]], [l[1]], clk);
    InTurn(w, s, [l[0]] + [l[1]], [l[2]], clk);
    InTurn(w, s, [l[0]] + [l[1]] + [l[2]], [l[3]], clk);
    assert l == [l[0]] + [l[1]] + [l[2]] + [l[3]];
    AscendingUnique(SortedKeys({w.name}), [w.name]);
  }

  lemma StartAccepted(s: Sys, sp: Spec)
    requires s.On? && s.pc.Idle? && s.cfg == Config(0) && s.mem.records == map[sp.name := Record(sp, DesiredRunning)]
    ensures var u := Do(s, Api(SetDesired(sp.name, DesiredRunning, Done)));
            && u.On? && u.pc.Idle? && u.cfg == s.cfg && u.mem.records == s.mem.records && u.disk == s.disk
            && u.mem.track == s.mem.track[sp.name := FORCED]
    ensures Told(WantedOf(sp), s, Done)
  {
    hide Encode, Digest;
  }

  // A crash between the Start and the pass: the container stays down, with nothing to wait
  // for. Without the crash, the same pass starts it.
  lemma ACrashLosesAStart(sp: Spec)
    requires Valid(sp) && Elems(sp.dependsOn) == [] && HashStable(sp) && !Again(WantedOf(sp))
    ensures var s, w := Run(Off(NODISK), DeclaringRun(sp)), WantedOf(sp);
            var u := Do(s, Api(SetDesired(sp.name, DesiredRunning, Done)));
            var boot := Boot("b", 0, [sp.name], []);
            && Told(w, s, Done)
            && IsStart(Issued(Run(u, ShownRun(w.c.value)), Pick(ZERO)), sp.name)
            && Picks(Run(u, [Crash] + [boot] + ShownRun(w.c.value)), Pick(ZERO), sp.name)
            && !IsStart(Issued(Run(u, [Crash] + [boot] + ShownRun(w.c.value)), Pick(ZERO)), sp.name)
  {
    hide Do, Issued, Told, Valid, HasDown, UndisturbedRun, StartsIn, TakenIn, ClockAfter, Live, Again, ClaimAfter,
         Encode, Undisturbed,
         ShownRun, HashStable;
    var s, w := Run(Off(NODISK), DeclaringRun(sp)), WantedOf(sp);
    var u := Do(s, Api(SetDesired(sp.name, DesiredRunning, Done)));
    var boot := Boot("b", 0, [sp.name], []);
    ADeclared(sp);
    StartAccepted(s, sp);
    OwnContainer(sp);
    ShownOnce(w, u, ZERO);
    AStartSurvivesIff(NODISK, DeclaringRun(sp), w, Done, ShownRun(w.c.value), ZERO, ZERO);
    CrashedOnce(w, u, sp, boot);
    var v := Run(u, [Crash] + [boot]);
    ShownOnce(w, v, ZERO);
    InTurn(w, u, [Crash] + [boot], ShownRun(w.c.value), ZERO);
    AStartSurvivesIff(NODISK, DeclaringRun(sp), w, Done, [Crash] + [boot] + ShownRun(w.c.value), ZERO, ZERO);
  }

  lemma OwnContainer(sp: Spec)
    ensures HasDown(WantedOf(sp))
  {
    hide Digest;
  }

  lemma CrashedOnce(w: Wanted, u: Sys, sp: Spec, boot: Step)
    requires Valid(sp) && w == WantedOf(sp) && boot == Boot("b", 0, [sp.name], []) && HashStable(sp)
    requires u.On? && u.disk.records == map[sp.name := Saved(Encode(sp), DesiredRunning)] && u.disk.boot == "b"
    ensures var v := Run(u, [Crash] + [boot]);
            && v.On? && v.pc.Idle? && v.mem.records.Keys == {sp.name}
            && UndisturbedRun(w, u, [Crash] + [boot], ZERO) && !StartsIn(u, [Crash] + [boot], w.name)
            && TakenIn(u, [Crash] + [boot], w.name) && ClockAfter([Crash] + [boot], ZERO) == ZERO
  {
    hide Valid, UndisturbedRun, StartsIn, TakenIn, ClockAfter, Encode, Decode, Run, Digest, HashStable;
    LoadsOne(u.disk, sp);
    RestartLoads(u, boot);
    assert [Crash] + [boot] == [Crash, boot];
    OneStep(w, u, Crash, ZERO);
    OneStep(w, Off(u.disk), boot, ZERO);
    InTurn(w, u, [Crash], [boot], ZERO);
  }

  const LATER: Time := 1 + SECOND

  // A pass that comes to the container, which has to wait; the dependency is declared.
  function WaitedRun(c: Container, dp: Spec): seq<Step> {
    ShownRun(c) + [Pick(ZERO)] + [Pick(ZERO)] + [PublishStep] + [Api(PutRecord(dp, Done))]
  }

  // A pass that sees the dependency running, and then comes to the container.
  function SeenRun(c: Container, dp: Spec): seq<Step> {
    [ListStep([c, RunningOf(dp)])] + [Lock] + [ObserveStep] + [ObserveStep] + [ObserveStep] + [Pick(LATER)]
  }

  // A wait for a dependency: the container stays down, with its dependency running.
  lemma AWaitLosesAStart(sp: Spec, dp: Spec)
    requires Valid(sp) && Valid(dp) && Less(dp.name, sp.name) && dp.health.None?
    requires Elems(sp.dependsOn) == [Dependency(dp.name, ReadyRunning)] && !Again(WantedOf(sp))
    ensures var s, w := Run(Off(NODISK), DeclaringRun(sp)), WantedOf(sp);
            var u := Do(s, Api(SetDesired(sp.name, DesiredRunning, Done)));
            var t := Run(u, WaitedRun(w.c.value, dp) + SeenRun(w.c.value, dp));
            && Told(w, s, Done) && Picks(t, Pick(LATER), sp.name) && Clear(w, t.mem)
            && !IsStart(Issued(t, Pick(LATER)), sp.name)
  {
    hide Do, Issued, Told, Valid, HasDown, UndisturbedRun, StartsIn, TakenIn, ClockAfter, Live, Again, ClaimAfter,
         Encode, Undisturbed,
         WaitedRun, SeenRun, Clear;
    var s, w := Run(Off(NODISK), DeclaringRun(sp)), WantedOf(sp);
    var u := Do(s, Api(SetDesired(sp.name, DesiredRunning, Done)));
    ADeclared(sp);
    StartAccepted(s, sp);
    OwnContainer(sp);
    WaitsOnce(w, u, sp, dp);
    var v := Run(u, WaitedRun(w.c.value, dp));
    SeesBoth(w, v, sp, dp);
    InTurn(w, u, WaitedRun(w.c.value, dp), SeenRun(w.c.value, dp), ZERO);
    AStartSurvivesIff(NODISK, DeclaringRun(sp), w, Done, WaitedRun(w.c.value, dp) + SeenRun(w.c.value, dp), ZERO,
      LATER);
  }

  lemma WaitsOnce(w: Wanted, u: Sys, sp: Spec, dp: Spec)
    requires Valid(sp) && Valid(dp) && Less(dp.name, sp.name) && w == WantedOf(sp)
    requires Elems(sp.dependsOn) == [Dependency(dp.name, ReadyRunning)]
    requires u.On? && u.pc.Idle? && u.cfg == Config(0) && u.mem.records == map[sp.name := w.rec]
    requires u.mem.track == map[sp.name := FORCED]
    ensures var v := Run(u, WaitedRun(w.c.value, dp));
            && v.On? && v.pc.Idle? && v.cfg == u.cfg && v.mem.track.Keys == {sp.name}
            && v.mem.records == map[sp.name := w.rec, dp.name := Record(dp, DesiredRunning)]
            && UndisturbedRun(w, u, WaitedRun(w.c.value, dp), ZERO) && !StartsIn(u, WaitedRun(w.c.value, dp), w.name)
            && TakenIn(u, WaitedRun(w.c.value, dp), w.name) && ClockAfter(WaitedRun(w.c.value, dp), ZERO) == ZERO
  {
    hide Valid, UndisturbedRun, StartsIn, TakenIn, ClockAfter, Encode, Run, Do, Undisturbed, Digest, ShownRun, Issued;
    OwnContainer(sp);
    LessTotal(dp.name, sp.name);
    ShownOnce(w, u, ZERO);
    var a := Run(u, ShownRun(w.c.value));
    LookWaits(w, a, sp, dp);
    var b := Do(a, Pick(ZERO));
    OneStep(w, a, Pick(ZERO), ZERO);
    InTurn(w, u, ShownRun(w.c.value), [Pick(ZERO)], ZERO);
    ClosesThenDeclares(w, b, sp, dp);
    var c := Do(b, Pick(ZERO));
    OneStep(w, b, Pick(ZERO), ZERO);
    InTurn(w, u, ShownRun(w.c.value) + [Pick(ZERO)], [Pick(ZERO)], ZERO);
    OneStep(w, c, PublishStep, ZERO);
    InTurn(w, u, ShownRun(w.c.value) + [Pick(ZERO)] + [Pick(ZERO)], [PublishStep], ZERO);
    OneStep(w, Do(c, PublishStep), Api(PutRecord(dp, Done)), ZERO);
    InTurn(w, u, ShownRun(w.c.value) + [Pick(ZERO)] + [Pick(ZERO)] + [PublishStep], [Api(PutRecord(dp, Done))], ZERO);
  }

  // The look that has to wait.
  lemma LookWaits(w: Wanted, a: Sys, sp: Spec, dp: Spec)
    requires Valid(sp) && w == WantedOf(sp) && dp.name != sp.name
    requires Elems(sp.dependsOn) == [Dependency(dp.name, ReadyRunning)]
    requires a.On? && a.cfg == Config(0) && a.mem.records == map[sp.name := w.rec]
    requires a.mem.track == map[sp.name := FORCED]
    requires a.pc == Reconciling([w.c.value], [sp.name]) && a.mem.observed == map[w.name := w.c.value]
    ensures Undisturbed(w, a, Pick(ZERO), ZERO) && !IsStart(Issued(a, Pick(ZERO)), w.name)
    ensures Picks(a, Pick(ZERO), w.name)
    ensures var b := Do(a, Pick(ZERO));
            && b.On? && b.cfg == a.cfg && b.pc == Reconciling([w.c.value], []) && b.mem.records == a.mem.records
            && b.mem.track.Keys == {sp.name}
  {
    hide Valid, Begin, Do, Digest, Issued;
    OwnContainer(sp);
    assert !IsReady(a.mem, Elems(sp.dependsOn)[0]);
    LookDecides(w, a.mem, a.cfg, Context(a.mem, w.name, ZERO), Forced, ZERO);
    PickIssues(a, w.name, ZERO);
    PickStores(a, w.name, ZERO);
  }

  // The pass ends, and the dependency is declared.
  lemma ClosesThenDeclares(w: Wanted, b: Sys, sp: Spec, dp: Spec)
    requires Valid(dp) && w == WantedOf(sp) && dp.name != sp.name
    requires b.On? && b.pc == Reconciling([w.c.value], []) && b.mem.records == map[sp.name := w.rec]
    requires b.mem.track.Keys == {sp.name}
    ensures Undisturbed(w, b, Pick(ZERO), ZERO) && !IsStart(Issued(b, Pick(ZERO)), w.name)
    ensures var c := Do(b, Pick(ZERO));
            && Undisturbed(w, c, PublishStep, ZERO) && !IsStart(Issued(c, PublishStep), w.name)
            && var d, put := Do(c, PublishStep), Api(PutRecord(dp, Done));
               && Undisturbed(w, d, put, ZERO) && !IsStart(Issued(d, put), w.name)
               && var v := Do(d, put);
                  && v.On? && v.pc.Idle? && v.cfg == b.cfg && v.mem.track.Keys == {sp.name}
                  && v.mem.records == map[sp.name := w.rec, dp.name := Record(dp, DesiredRunning)]
  {
    hide Valid, Encode, Digest, Changes, Phases;
    var c := b.(pc := Closing);
    assert Do(b, Pick(ZERO)) == c && Do(c, PublishStep) == Close(c);
    ServeIdle(Close(c), PutRecord(dp, Done));
  }

  lemma SeesBoth(w: Wanted, v: Sys, sp: Spec, dp: Spec)
    requires w == WantedOf(sp) && Less(dp.name, sp.name) && dp.health.None?
    requires Elems(sp.dependsOn) == [Dependency(dp.name, ReadyRunning)]
    requires v.On? && v.pc.Idle? && v.cfg == Config(0) && v.mem.track.Keys == {sp.name}
    requires v.mem.records == map[sp.name := w.rec, dp.name := Record(dp, DesiredRunning)]
    ensures var t := Run(v, SeenRun(w.c.value, dp));
            && UndisturbedRun(w, v, SeenRun(w.c.value, dp), ZERO) && !StartsIn(v, SeenRun(w.c.value, dp), w.name)
            && ClockAfter(SeenRun(w.c.value, dp), ZERO) == LATER && Picks(t, Pick(LATER), sp.name) && Clear(w, t.mem)
  {
    hide UndisturbedRun, StartsIn, TakenIn, ClockAfter, Run, Digest, Do, Issued, Undisturbed, Clear, ExitedOf,
         RunningOf;
    LessTotal(dp.name, sp.name);
    var cd := RunningOf(dp);
    var l := [w.c.value, cd];
    var m := v.mem.(observed := map[w.name := w.c.value, dp.name := cd], foreign := map[]);
    var s3 := v.(mem := m, pc := Reconciling(l, [dp.name, sp.name]));
    ListsBoth(w, v, sp, dp);
    var front := [ListStep(l)] + [Lock] + [ObserveStep] + [ObserveStep] + [ObserveStep];
    TheDependencyRuns(w, s3, sp, dp);
    OneStep(w, s3, Pick(LATER), ZERO);
    InTurn(w, v, front, [Pick(LATER)], ZERO);
  }

  // The states of a pass that lists both.
  lemma ListsOneByOne(w: Wanted, v: Sys, sp: Spec, dp: Spec)
    requires w == WantedOf(sp) && Less(dp.name, sp.name) && dp.name != sp.name
    requires v.On? && v.pc.Idle? && v.mem.records.Keys == {sp.name, dp.name}
    ensures var l := [w.c.value, RunningOf(dp)];
            var s1 := v.(pc := Listed(l));
            var s2 := Locked(s1);
            var s3 := s2.(mem := s2.mem.(observed := map[w.name := l[0]]), pc := Observing(l, [l[1]]));
            var m := v.mem.(observed := map[w.name := l[0], dp.name := l[1]], foreign := map[]);
            var s4 := v.(mem := m, pc := Observing(l, []));
            && Do(v, ListStep(l)) == s1 && Do(s1, Lock) == s2 && Do(s2, ObserveStep) == s3 && Do(s3, ObserveStep) == s4
            && Do(s4, ObserveStep) == v.(mem := m, pc := Reconciling(l, [dp.name, sp.name]))
  {
    hide Digest;
    var l := [w.c.value, RunningOf(dp)];
    assert l[1..] == [l[1]] && [l[1]][1..] == [];
    assert map[][w.name := l[0]] == map[w.name := l[0]];
    assert map[w.name := l[0]][dp.name := l[1]] == map[w.name := l[0], dp.name := l[1]];
    AscendingUnique(SortedKeys({sp.name, dp.name}), [dp.name, sp.name]);
  }

  lemma ListsBoth(w: Wanted, v: Sys, sp: Spec, dp: Spec)
    requires w == WantedOf(sp) && Less(dp.name, sp.name) && dp.name != sp.name
    requires v.On? && v.pc.Idle? && v.mem.records.Keys == {sp.name, dp.name}
    ensures var l := [w.c.value, RunningOf(dp)];
            var front := [ListStep(l)] + [Lock] + [ObserveStep] + [ObserveStep] + [ObserveStep];
            var m := v.mem.(observed := map[w.name := w.c.value, dp.name := RunningOf(dp)], foreign := map[]);
            && UndisturbedRun(w, v, front, ZERO) && !StartsIn(v, front, w.name) && ClockAfter(front, ZERO) == ZERO
            && Run(v, front) == v.(mem := m, pc := Reconciling(l, [dp.name, sp.name]))
  {
    hide UndisturbedRun, StartsIn, TakenIn, ClockAfter, Run, Digest, Do;
    var l := [w.c.value, RunningOf(dp)];
    var m := v.mem.(observed := map[w.name := w.c.value, dp.name := RunningOf(dp)], foreign := map[]);
    var s1 := v.(pc := Listed(l));
    var s2 := Locked(s1);
    var s3 := s2.(mem := s2.mem.(observed := map[w.name := l[0]]), pc := Observing(l, [l[1]]));
    var s4 := v.(mem := m, pc := Observing(l, []));
    ListsOneByOne(w, v, sp, dp);
    OneStep(w, v, ListStep(l), ZERO);
    OneStep(w, s1, Lock, ZERO);
    OneStep(w, s2, ObserveStep, ZERO);
    OneStep(w, s3, ObserveStep, ZERO);
    OneStep(w, s4, ObserveStep, ZERO);
    InTurn(w, v, [ListStep(l)], [Lock], ZERO);
    InTurn(w, v, [ListStep(l)] + [Lock], [ObserveStep], ZERO);
    InTurn(w, v, [ListStep(l)] + [Lock] + [ObserveStep], [ObserveStep], ZERO);
    InTurn(w, v, [ListStep(l)] + [Lock] + [ObserveStep] + [ObserveStep], [ObserveStep], ZERO);
  }

  // A dependency seen running for a second is ready.
  lemma TheDependencyRuns(w: Wanted, s: Sys, sp: Spec, dp: Spec)
    requires w == WantedOf(sp) && dp.name != sp.name && dp.health.None?
    requires Elems(sp.dependsOn) == [Dependency(dp.name, ReadyRunning)]
    requires s.On? && s.pc.Reconciling? && s.pc.names == [dp.name, sp.name] && dp.name !in s.mem.track
    requires Get(s.mem.records, dp.name) == Some(Record(dp, DesiredRunning))
    requires Get(s.mem.observed, dp.name) == Some(RunningOf(dp))
    ensures Undisturbed(w, s, Pick(LATER), ZERO) && !IsStart(Issued(s, Pick(LATER)), w.name)
    ensures var t := Do(s, Pick(LATER));
            Picks(t, Pick(LATER), sp.name) && Clear(w, t.mem)
  {
    hide Digest;
    var x := Context(s.mem, dp.name, LATER);
    assert Begin(s.mem, s.cfg, x) == Section(FRESH.(phase := Running), Over(ZERO));
    hide Begin, Do, Issued;
    PickIssues(s, dp.name, LATER);
    PickStores(s, dp.name, LATER);
  }
}
