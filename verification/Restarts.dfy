// Restarts are bounded and spaced: over a stretch in which the API leaves a container
// alone, the engine is asked to start it only so often, and never twice within a second.
module Restarts {
  import opened Basics
  import opened Specs
  import opened Sections
  import opened Machine
  import opened Interference
  import opened Listings
  import opened Timing

  // The container followed: its name and its declaration, desired running, and whether its
  // runs are known to last no longer than the longest backoff, which only the count needs.
  datatype Target = Target(name: string, rec: Record, capped: bool)

  ghost predicate Mine(w: Target, c: Container) { c.name == w.name && c.managed }

  // As created from the declaration, and its last run as short as it is known to be.
  ghost predicate Fits(w: Target, c: Container) {
    c.specLabel == Some(Digest(w.rec.spec)) && (w.capped ==> c.exitedAt - c.startedAt <= BACKOFF_MAX)
  }

  ghost predicate SinceBoot(cfg: Config, c: Container) {
    c.startedAt != ZERO && c.startedAt >= cfg.bootTime
  }

  // The supervisor has seen the container started: it runs, or its exit was accepted.
  predicate Watched(t: Tracking) { t.phase == Starting || t.phase == Running || t.phase == Exited }

  // The starts so far, the time of the last one, and the latest clock reading.
  datatype Count = Count(starts: nat, last: Time, clk: Time)

  // A start not yet paid for by a tally is still to come.
  function Credit(t: Tracking): nat { if Watched(t) || t.phase == Fatal then 0 else 1 }

  function Min(a: int, b: int): int { if a < b then a else b }

  function Limit(w: Target): int { w.rec.spec.restart.maxRestarts }

  // The starts the tallies allow.
  function Paid(w: Target, t: Tracking): int {
    1 + Min(t.startAttempts, START_RETRIES) + (if Limit(w) > 0 then Min(t.restarts, Limit(w)) else t.restarts)
  }

  // The environment over the stretch: no API call on the name and no crash; the clock does
  // not go back; a listing shows the container as declared and, once the supervisor has
  // seen it started, shows it, started at or after boot.
  ghost predicate Calm(w: Target, s: Sys, st: Step, clk: Time) {
    && !(st.Api? && Subject(st.p) == Some(w.name)) && !st.Crash?
    && (st.Pick? ==> st.now >= clk)
    && (st.ListStep? && s.On? ==> Shown(w, s.cfg, st.listed, Track(s.mem, w.name)))
  }

  ghost predicate Shown(w: Target, cfg: Config, listed: seq<Container>, t: Tracking) {
    && (forall i :: 0 <= i < |listed| && Mine(w, listed[i]) ==>
          Fits(w, listed[i]) && (Watched(t) ==> SinceBoot(cfg, listed[i])))
    && (Watched(t) ==> exists i :: 0 <= i < |listed| && Mine(w, listed[i]))
  }

  // What was observed of the container when reconcile comes to it.
  ghost predicate Observed(w: Target, cfg: Config, o: Option<Container>, t: Tracking) {
    && (o.Some? ==> Fits(w, o.value) && (Watched(t) ==> SinceBoot(cfg, o.value)))
    && (Watched(t) ==> o.Some?)
  }

  // The listing being observed still shows what it showed.
  ghost predicate Observing(w: Target, cfg: Config, o: Option<Container>, rest: seq<Container>, t: Tracking) {
    && (forall i :: 0 <= i < |rest| && Mine(w, rest[i]) ==>
          Fits(w, rest[i]) && (Watched(t) ==> SinceBoot(cfg, rest[i])))
    && (o.Some? ==> Fits(w, o.value) && (Watched(t) ==> SinceBoot(cfg, o.value)))
    && (Watched(t) ==> o.Some? || exists i :: 0 <= i < |rest| && Mine(w, rest[i]))
  }

  ghost predicate Pending(w: Target, s: Sys)
    requires s.On?
  {
    var t, o := Track(s.mem, w.name), Get(s.mem.observed, w.name);
    match s.pc
    case Listed(listing) => Shown(w, s.cfg, listing, t)
    case Observing(_, rest) => Observing(w, s.cfg, o, rest, t)
    case Removing(_, _, rest) => Observing(w, s.cfg, o, rest, t)
    case Reconciling(_, names) => Ascending(names) && (w.name in names ==> Observed(w, s.cfg, o, t))
    case Awaiting(_, why, x, _, names) =>
      && Ascending(names) && (w.name in names ==> Observed(w, s.cfg, o, t) && x.name != w.name)
    case _ => true
  }

  // ---- the invariant ----

  // A pass waits for an engine call about the container, and no API call overtook it.
  ghost predicate Current(w: Target, s: Sys)
    requires s.On?
  {
    s.pc.Awaiting? && s.pc.ctx.name == w.name && Changed(s.mem, w.name) == s.pc.seen
  }

  ghost predicate Launching(w: Target, s: Sys)
    requires s.On?
  {
    Current(w, s) && s.pc.why == Launch
  }

  // The tallies have paid for the starts so far, and for one more while it is still to come.
  ghost predicate Affords(w: Target, t: Tracking, n: Count) {
    w.capped ==> n.starts + Credit(t) <= Paid(w, t)
  }

  ghost predicate Tallies(w: Target, t: Tracking, n: Count) {
    && (t.force ==> t == FORCED) && !t.restart && t.phase != Stopped
    && t.startAttempts >= 0 && t.restarts >= 0
    && (t.phase == NoPhase ==> t.startAttempts == 0 && t.restarts == 0 && n.starts == 0)
    && (n.starts > 0 ==> n.last <= n.clk)
    && (n.starts > 0 && t.phase == Backoff ==> t.nextAttempt >= n.last + SECOND)
    && (n.starts > 0 && t.phase == Waiting ==> n.clk >= n.last + SECOND)
  }

  // A launch in flight has spent the credit it was started on.
  ghost predicate InFlight(w: Target, t: Tracking, n: Count, at: Time) {
    && !t.force && !t.restart && t.startAttempts >= 0 && t.restarts >= 0
    && n.starts > 0 && n.last == at <= n.clk && (w.capped ==> n.starts <= Paid(w, t))
  }

  ghost predicate Bounded(w: Target, s: Sys, n: Count) {
    && s.On? && Get(s.mem.records, w.name) == Some(w.rec) && w.rec.desired == DesiredRunning
    && Pending(w, s)
    && (Current(w, s) ==> (s.pc.why == Launch || s.pc.why == Check) && !Track(s.mem, w.name).force)
    && var t := Track(s.mem, w.name);
       if Launching(w, s) then InFlight(w, t, n, s.pc.ctx.now) else Settles(w, t, n)
  }

  // ---- one section ----

  // After a section that ends without a launch.
  ghost predicate Settles(w: Target, t: Tracking, n: Count) {
    Tallies(w, t, n) && Affords(w, t, n)
  }

  function Launches(n: Count, now: Time): Count { Count(n.starts + 1, now, now) }

  // A section ends settled, or asks for one more start, at least a second after the last
  // and not before the attempt that was due.
  ghost predicate Advances(w: Target, t: Tracking, x: Ctx, sec: Section, n: Count) {
    sec.track.restarts <= t.restarts + 1 &&
    if sec.ctl.Ask? && sec.ctl.why == Launch then
      && InFlight(w, sec.track, Launches(n, x.now), x.now) && (n.starts > 0 ==> x.now >= n.last + SECOND)
      && (t.phase == Backoff ==> x.now >= t.nextAttempt)
    else
      Settles(w, sec.track, n.(clk := x.now)) && (sec.ctl.Ask? ==> sec.ctl.why == Check && !sec.track.force)
  }

  // The tallies stay small enough for the backoff arithmetic.
  ghost predicate InRange(w: Target, t: Tracking) {
    0 < Limit(w) <= LAST_EXACT || t.restarts < LAST_EXACT
  }

  lemma StartAdvances(w: Target, m: Mem, x: Ctx, t: Tracking, n: Count)
    requires x.name == w.name && n.clk <= x.now && (w.capped ==> n.starts + 1 <= Paid(w, t))
    requires !t.force && !t.restart && t.startAttempts >= 0 && t.restarts >= 0
    requires n.starts > 0 ==> x.now >= n.last + SECOND
    requires t.phase == Backoff ==> x.now >= t.nextAttempt
    ensures Advances(w, t, x, Start(m, x, t), n)
  {
  }

  lemma JudgeExitAdvances(w: Target, m: Mem, x: Ctx, t: Tracking, n: Count)
    requires x.name == w.name && x.rec == w.rec && n.clk <= x.now && x.c.Some? && Fits(w, x.c.value)
    requires Settles(w, t, n) && InRange(w, t) && !t.force
    ensures Advances(w, t, x, JudgeExit(m, x, t), n) && JudgeExit(m, x, t).ctl.Over?
  {
    var (u, k) := Tallied(x, t);
    if u.phase == Backoff {
      GapMonotone(k, LAST_EXACT);
    }
  }

  lemma JudgeDownAdvances(w: Target, m: Mem, cfg: Config, x: Ctx, t: Tracking, n: Count)
    requires x.name == w.name && x.rec == w.rec && n.clk <= x.now
    requires Observed(w, cfg, x.c, t) && Settles(w, t, n) && InRange(w, t)
    ensures Advances(w, t, x, JudgeDown(m, cfg, x, t), n)
  {
    if NeverRan(cfg, x, t) {
      if t.phase != Fatal && !(t.phase == Backoff && x.now < t.nextAttempt) {
        if t.phase == NoPhase || t.force { StartAdvances(w, m, x, FRESH, n); } else { StartAdvances(w, m, x, t, n); }
      }
    } else if t.phase == Fatal || (t.phase == Exited && Decided(x, t)) {
    } else if (t.phase == Waiting || (t.phase == Backoff && x.now >= t.nextAttempt)) && Decided(x, t) {
      StartAdvances(w, m, x, t, n);
    } else if t.phase == Backoff && Decided(x, t) {
    } else {
      JudgeExitAdvances(w, m, x, t, n);
    }
  }

  lemma BeginAdvances(w: Target, m: Mem, cfg: Config, x: Ctx, n: Count)
    requires x.name == w.name && x.rec == w.rec && w.rec.desired == DesiredRunning && n.clk <= x.now
    requires var t := Track(m, w.name); Observed(w, cfg, x.c, t) && Settles(w, t, n) && InRange(w, t)
    ensures Advances(w, Track(m, w.name), x, Begin(m, cfg, x), n)
  {
    var t := Track(m, w.name);
    if !Up(x.c) {
      JudgeDownAdvances(w, m, cfg, x, Detached(t), n);
    }
  }

  lemma ResumeAdvances(w: Target, m: Mem, cfg: Config, why: Why, x: Ctx, o: Outcome, n: Count)
    requires x.name == w.name && (why == Launch || why == Check) && !Track(m, w.name).force
    requires if why == Launch then InFlight(w, Track(m, w.name), n, x.now) else Settles(w, Track(m, w.name), n)
    ensures var sec := Resume(m, cfg, why, x, o);
            Settles(w, sec.track, n) && sec.ctl.Over? && sec.track.restarts == Track(m, w.name).restarts
  {
    if why == Launch && o.error.Some? && Track(m, w.name).startAttempts + 1 <= START_RETRIES {
      GapMonotone(Track(m, w.name).startAttempts + 1, LAST_EXACT);
    }
  }

  // ---- steps ----

  // A step adds at most one restart to the tally.
  ghost predicate Grows(w: Target, s: Sys, t: Sys) {
    s.On? && t.On? ==> Track(t.mem, w.name).restarts <= Track(s.mem, w.name).restarts + 1
  }

  // A pass that comes to another name leaves the container followed as it was.
  lemma PickOther(w: Target, s: Sys, now: Time, n: Count)
    requires Bounded(w, s, n) && s.pc.Reconciling? && now >= n.clk
    requires s.pc.names == [] || s.pc.names[0] != w.name
    ensures var t := PickNext(s, now);
            Bounded(w, t, n.(clk := now)) && (t.pc.Awaiting? ==> t.pc.ctx.name != w.name) && Grows(w, s, t)
  {
    PickKeepsOthers(s, now, w.name);
    if s.pc.names != [] {
      HeadOnce(s.pc.names);
      if s.pc.names[0] in s.mem.records {
        BeginAsks(s.mem, s.cfg, Context(s.mem, s.pc.names[0], now));
      }
    }
  }

  // A pass that comes to the container followed asks for at most one more start.
  lemma PickMine(w: Target, s: Sys, now: Time, n: Count)
    requires Bounded(w, s, n) && s.pc.Reconciling? && now >= n.clk && InRange(w, Track(s.mem, w.name))
    requires s.pc.names != [] && s.pc.names[0] == w.name
    ensures var t := PickNext(s, now);
            Grows(w, s, t) &&
            if t.pc.Awaiting? && t.pc.why == Launch then
              && Bounded(w, t, Launches(n, now)) && t.pc.ctx.name == w.name && t.pc.ctx.now == now
              && (n.starts > 0 ==> now >= n.last + SECOND)
              && (Track(s.mem, w.name).phase == Backoff ==> now >= Track(s.mem, w.name).nextAttempt)
            else
              Bounded(w, t, n.(clk := now)) && (t.pc.Awaiting? ==> t.pc.why == Check)
  {
    HeadOnce(s.pc.names);
    var x := Context(s.mem, w.name, now);
    BeginAdvances(w, s.mem, s.cfg, x, n);
    BeginAsks(s.mem, s.cfg, x);
  }

  lemma FinishOther(w: Target, s: Sys, o: Outcome, n: Count)
    requires Inv(s) && Bounded(w, s, n) && s.pc.Awaiting? && !Current(w, s)
    ensures var t := FinishCall(s, o);
            Bounded(w, t, n) && (t.pc.Awaiting? ==> t.pc.ctx.name != w.name) && Grows(w, s, t)
  {
    hide Resume, ObserveNext, Tallies, InFlight, Observed;
    FinishKeepsOthers(s, o, w.name);
    if Changed(s.mem, s.pc.ctx.name) == s.pc.seen {
      ResumeAsks(Freed(s.mem, s.pc.why, s.pc.ctx, o), s.cfg, s.pc.why, s.pc.ctx, o);
    }
  }

  lemma FinishMine(w: Target, s: Sys, o: Outcome, n: Count)
    requires Inv(s) && Bounded(w, s, n) && Current(w, s)
    ensures var t := FinishCall(s, o);
            Bounded(w, t, n) && !t.pc.Awaiting? && Grows(w, s, t)
  {
    hide Resume, Fits, SinceBoot, Affords, Tallies, Paid;
    ResumeAdvances(w, s.mem, s.cfg, s.pc.why, s.pc.ctx, o, n);
  }

  // Observing the next of the listing keeps what the listing shows of the container.
  lemma ObserveNextOf(w: Target, cfg: Config, o: Option<Container>, rest: seq<Container>, t: Tracking)
    requires Observing(w, cfg, o, rest, t) && rest != []
    ensures Observing(w, cfg, if Mine(w, rest[0]) then Some(rest[0]) else o, rest[1..], t)
  {
    if Watched(t) && !Mine(w, rest[0]) && o.None? {
      var i :| 0 <= i < |rest| && Mine(w, rest[i]);
      assert rest[1..][i - 1] == rest[i];
    }
  }

  lemma ObserveMine(w: Target, s: Sys, n: Count)
    requires Bounded(w, s, n) && s.pc.Observing?
    ensures Bounded(w, ObserveNext(s), n) && Grows(w, s, ObserveNext(s))
  {
    ObservePends(w, s);
    ObserveKeepsOthers(s, w.name);
    hide Pending, Tallies, ObserveNext;
  }

  lemma ObservePends(w: Target, s: Sys)
    requires s.On? && s.pc.Observing? && w.name in s.mem.records && Pending(w, s)
    ensures ObserveNext(s).On? && !ObserveNext(s).pc.Awaiting? && Pending(w, ObserveNext(s))
  {
    hide Fits, SinceBoot, Watched;
    if s.pc.rest != [] {
      ObserveNextOf(w, s.cfg, Get(s.mem.observed, w.name), s.pc.rest, Track(s.mem, w.name));
    }
  }

  // The invariant reads of the memory only the container followed.
  lemma BoundedReads(w: Target, s: Sys, t: Sys, n: Count)
    requires Bounded(w, s, n) && t.On? && t.cfg == s.cfg && t.pc == s.pc
    requires Same(s.mem, t.mem, w.name) && t.mem.observed == s.mem.observed
    ensures Bounded(w, t, n)
  {
    hide Fits, SinceBoot, Digest;
    assert Track(t.mem, w.name) == Track(s.mem, w.name);
  }

  lemma ServeOther(w: Target, s: Sys, p: Prim, n: Count)
    requires Inv(s) && Bounded(w, s, n) && Subject(p) != Some(w.name)
    ensures Bounded(w, Serve(s, p), n) && Grows(w, s, Serve(s, p))
  {
    ApplyTouches(s.mem, s.disk, p, w.name);
    ApplyKeepsObserved(s.mem, s.disk, p);
    BoundedReads(w, s, Serve(s, p), n);
  }

  // The count after a step: one more where the step asks the engine to start the container.
  ghost function Counted(w: Target, s: Sys, st: Step, n: Count): Count {
    var clk := Clock(st, n.clk);
    if IsStart(Issued(s, st), w.name) then Launches(n, clk) else n.(clk := clk)
  }

  // A start begins where a pass comes to the container, not within a second of the one
  // before, and not before it is due.
  ghost predicate OnTime(w: Target, s: Sys, st: Step, n: Count) {
    IsStart(Issued(s, st), w.name) ==>
      && s.On? && st.Pick?
      && (n.starts > 0 ==> st.now >= n.last + SECOND)
      && (Track(s.mem, w.name).phase == Backoff ==> st.now >= Track(s.mem, w.name).nextAttempt)
  }

  // Listing, locking, removing a stray and publishing start nothing.
  lemma PassiveCounts(w: Target, s: Sys, st: Step, n: Count)
    requires Bounded(w, s, n) && Calm(w, s, st, n.clk)
    requires st.ListStep? || st.Lock? || st.Removed? || st.PublishStep? || st.Boot?
    ensures Bounded(w, Do(s, st), n) && Grows(w, s, Do(s, st))
  {
    hide Fits, SinceBoot, Affords, Tallies, InFlight, Changes, Phases;
  }

  lemma DoCounts(w: Target, s: Sys, st: Step, n: Count)
    requires Inv(s) && s.On? && Bounded(w, s, n) && Calm(w, s, st, n.clk) && InRange(w, Track(s.mem, w.name))
    ensures Bounded(w, Do(s, st), Counted(w, s, st, n)) && OnTime(w, s, st, n) && Grows(w, s, Do(s, st))
  {
    hide PickNext, FinishCall, Serve, ObserveNext, Shown, Tallies, InFlight, Pending;
    match st
    case Api(p) => if LockFree(s.pc) { ServeOther(w, s, p, n); }
    case ObserveStep => if s.pc.Observing? { ObserveMine(w, s, n); }
    case Pick(now) => PickCounts(w, s, now, n);
    case Finish(o) =>
      if s.pc.Awaiting? {
        if Current(w, s) { FinishMine(w, s, o, n); } else { FinishOther(w, s, o, n); }
      }
    case _ => PassiveCounts(w, s, st, n);
  }

  lemma PickCounts(w: Target, s: Sys, now: Time, n: Count)
    requires s.On? && Bounded(w, s, n) && n.clk <= now && InRange(w, Track(s.mem, w.name))
    ensures Bounded(w, Do(s, Pick(now)), Counted(w, s, Pick(now), n)) && OnTime(w, s, Pick(now), n)
    ensures Grows(w, s, Do(s, Pick(now)))
  {
    hide PickNext;
    if s.pc.Reconciling? {
      if s.pc.names == [] || s.pc.names[0] != w.name { PickOther(w, s, now, n); } else { PickMine(w, s, now, n); }
    } else {
      assert Bounded(w, s, n.(clk := now));
    }
  }

  // ---- whole runs ----

  ghost predicate CalmRun(w: Target, s: Sys, steps: seq<Step>, clk: Time)
    decreases |steps|
  {
    steps == [] ||
    (Calm(w, s, steps[0], clk) &&
     CalmRun(w, Do(s, steps[0]), steps[1..], Clock(steps[0], clk)))
  }

  // The starts of the container a run asks for.
  ghost function Starts(w: Target, s: Sys, steps: seq<Step>): nat
    decreases |steps|
  {
    if steps == [] then 0
    else (if IsStart(Issued(s, steps[0]), w.name) then 1 else 0) + Starts(w, Do(s, steps[0]), steps[1..])
  }

  // Every start of a run comes in time, given the count it begins with.
  ghost predicate AllOnTime(w: Target, s: Sys, steps: seq<Step>, n: Count)
    decreases |steps|
  {
    steps == [] ||
    (OnTime(w, s, steps[0], n) && AllOnTime(w, Do(s, steps[0]), steps[1..], Counted(w, s, steps[0], n)))
  }

  lemma {:induction false} RunCounts(w: Target, s: Sys, steps: seq<Step>, n: Count) returns (n': Count)
    requires Inv(s) && Bounded(w, s, n) && CalmRun(w, s, steps, n.clk)
    requires 0 < Limit(w) <= LAST_EXACT || Track(s.mem, w.name).restarts + |steps| <= LAST_EXACT
    ensures Bounded(w, Run(s, steps), n') && n'.starts == n.starts + Starts(w, s, steps) && AllOnTime(w, s, steps, n)
    ensures n'.clk == ClockAfter(steps, n.clk)
    decreases |steps|
  {
    n' := n;
    if steps != [] {
      DoCounts(w, s, steps[0], n);
      DoKeepsInv(s, steps[0]);
      hide Inv, Do, Issued, Calm;
      n' := RunCounts(w, Do(s, steps[0]), steps[1..], Counted(w, s, steps[0], n));
    }
  }

  // Where a stretch begins: nothing is known of the container, or a start was just accepted;
  // no pass in flight can store anything of it, and what a pass in flight was shown is as
  // declared.
  ghost predicate Begins(w: Target, s: Sys) {
    && s.On? && Get(s.mem.records, w.name) == Some(w.rec) && w.rec.desired == DesiredRunning
    && (Track(s.mem, w.name) == FRESH || Track(s.mem, w.name) == FORCED)
    && !Current(w, s) && Pending(w, s)
  }

  // An accepted Start begins a stretch, whatever a pass in flight was doing.
  lemma AStartBegins(w: Target, s: Sys, o: Written)
    requires Inv(s) && s.On? && LockFree(s.pc) && Apply(s.mem, s.disk, SetDesired(w.name, DesiredRunning, o)).ok
    requires var t := Do(s, Api(SetDesired(w.name, DesiredRunning, o)));
             Get(t.mem.records, w.name) == Some(w.rec) && Pending(w, t)
    ensures Begins(w, Do(s, Api(SetDesired(w.name, DesiredRunning, o))))
  {
    hide Pending, Save;
    ApplyTouches(s.mem, s.disk, SetDesired(w.name, DesiredRunning, o), w.name);
  }

  function Most(w: Target): int { 1 + START_RETRIES + Limit(w) }

  // A look at a container that is not running ends in no phase of a running one.
  lemma DownLeaves(m: Mem, cfg: Config, x: Ctx)
    requires x.rec.desired == DesiredRunning && !Up(x.c)
    requires x.c.Some? ==> x.c.value.specLabel == Some(Digest(x.rec.spec))
    ensures var sec := Begin(m, cfg, x); sec.ctl.Over? ==> sec.track.phase != Starting && sec.track.phase != Running
  {
    hide Digest, Unready;
  }

  // Once it was started as often as it may be, a look at it, not running, gives it up or leaves
  // it as its policy says.
  lemma LookEnds(w: Target, s: Sys, now: Time, n: Count)
    requires w.capped && Bounded(w, s, n) && 0 < Limit(w) <= LAST_EXACT && n.starts == Most(w) && now >= n.clk
    requires Picks(s, Pick(now), w.name) && !Up(Get(s.mem.observed, w.name))
    ensures var t := Do(s, Pick(now));
            t.On? && (Track(t.mem, w.name).phase == Exited || Track(t.mem, w.name).phase == Fatal)
  {
    hide PickNext, Pending, Tallies, Digest;
    ObservedWhenPicked(w, s);
    PickMine(w, s, now, n);
    DownLeaves(s.mem, s.cfg, Context(s.mem, w.name, now));
    PickStores(s, w.name, now);
  }

  lemma ObservedWhenPicked(w: Target, s: Sys)
    requires s.On? && s.pc.Reconciling? && Pending(w, s) && w.name in s.pc.names
    ensures var o := Get(s.mem.observed, w.name); o.Some? ==> o.value.specLabel == Some(Digest(w.rec.spec))
  {
    hide Digest;
  }

  // A container with a restart limit is started at most once, once more for each start
  // retry and once more for each restart; at the limit nothing more is to come: its last launch
  // is in flight, it has been seen started, or it is given up, and a look at it, not running,
  // leaves it exited or fatal.
  lemma RestartsAreBounded(w: Target, s: Sys, steps: seq<Step>, clk: Time)
    requires w.capped && Inv(s) && Begins(w, s) && CalmRun(w, s, steps, clk) && 0 < Limit(w) <= LAST_EXACT
    ensures Starts(w, s, steps) <= Most(w)
    ensures Starts(w, s, steps) == Most(w) ==>
              var t := Run(s, steps);
              && t.On? && (Launching(w, t) || Watched(Track(t.mem, w.name)) || Track(t.mem, w.name).phase == Fatal)
              && forall now | now >= ClockAfter(steps, clk) && Picks(t, Pick(now), w.name)
                              && !Up(Get(t.mem.observed, w.name)) ::
                   var e := Do(t, Pick(now));
                   e.On? && (Track(e.mem, w.name).phase == Exited || Track(e.mem, w.name).phase == Fatal)
  {
    hide Pending, Do, Issued, Inv;
    var n := RunCounts(w, s, steps, Count(0, 0, clk));
    var t := Run(s, steps);
    if Starts(w, s, steps) == Most(w) {
      forall now | now >= ClockAfter(steps, clk) && Picks(t, Pick(now), w.name) && !Up(Get(t.mem.observed, w.name))
        ensures var e := Do(t, Pick(now));
                e.On? && (Track(e.mem, w.name).phase == Exited || Track(e.mem, w.name).phase == Fatal)
      {
        LookEnds(w, t, now, n);
      }
    }
  }

  // Two starts of a container, limited or not and however long it runs, are at least a
  // second apart, and one in backoff waits for its next attempt.
  lemma RestartsAreSpaced(w: Target, s: Sys, steps: seq<Step>, clk: Time)
    requires Inv(s) && Begins(w, s) && CalmRun(w, s, steps, clk)
    requires 0 < Limit(w) <= LAST_EXACT || |steps| <= LAST_EXACT
    ensures AllOnTime(w, s, steps, Count(0, 0, clk))
  {
    var n := RunCounts(w, s, steps, Count(0, 0, clk));
  }

  // ---- fatal ----

  ghost predicate ShowsDown(w: Target, listed: seq<Container>) {
    forall i :: 0 <= i < |listed| && Mine(w, listed[i]) ==> DownAsDeclared(w.rec, listed[i])
  }

  ghost predicate ObservedDown(w: Target, m: Mem) {
    w.name in m.observed ==> DownAsDeclared(w.rec, m.observed[w.name])
  }

  ghost predicate GivenUp(w: Target, s: Sys) {
    && s.On? && Get(s.mem.records, w.name) == Some(w.rec) && w.rec.desired == DesiredRunning
    && Track(s.mem, w.name).phase == Fatal && !Track(s.mem, w.name).force
    && match s.pc
       case Listed(listing) => ShowsDown(w, listing)
       case Observing(_, rest) => ShowsDown(w, rest) && ObservedDown(w, s.mem)
       case Removing(_, _, rest) => ShowsDown(w, rest) && ObservedDown(w, s.mem)
       case Reconciling(_, _) => ObservedDown(w, s.mem)
       case Awaiting(_, _, x, _, _) => ObservedDown(w, s.mem) && x.name != w.name
       case _ => true
  }

  ghost predicate LeftDown(w: Target, s: Sys, st: Step) {
    && !(st.Api? && Subject(st.p) == Some(w.name)) && !st.Crash?
    && (st.ListStep? ==> ShowsDown(w, st.listed))
  }

  lemma PickGivenUp(w: Target, s: Sys, now: Time)
    requires GivenUp(w, s) && s.pc.Reconciling?
    ensures GivenUp(w, PickNext(s, now))
  {
    if s.pc.names != [] && s.pc.names[0] in s.mem.records {
      BeginAsks(s.mem, s.cfg, Context(s.mem, s.pc.names[0], now));
      if s.pc.names[0] == w.name {
        var x := Context(s.mem, w.name, now);
        assert Begin(s.mem, s.cfg, x) == Section(Detached(Track(s.mem, w.name)), Over(ZERO));
      } else {
        PickKeepsOthers(s, now, w.name);
      }
    }
  }

  lemma FinishGivenUp(w: Target, s: Sys, o: Outcome)
    requires Inv(s) && GivenUp(w, s) && s.pc.Awaiting?
    ensures GivenUp(w, FinishCall(s, o))
  {
    hide FinishCall, DownAsDeclared, Inv;
    FinishKeepsOthers(s, o, w.name);
    FinishKeepsDeclarations(s, o);
    FinishObserves(s, o);
  }

  // What a call that came back leaves of the observations: those of every other name.
  lemma FinishObserves(s: Sys, o: Outcome)
    requires Inv(s) && s.On? && s.pc.Awaiting?
    ensures var t := FinishCall(s, o);
            && (t.pc.Reconciling? || t.pc.Awaiting?)
            && forall n :: n in t.mem.observed ==> n in s.mem.observed && t.mem.observed[n] == s.mem.observed[n]
  {
    hide Resume;
  }

  lemma ServeGivenUp(w: Target, s: Sys, p: Prim)
    requires Inv(s) && GivenUp(w, s) && Subject(p) != Some(w.name)
    ensures GivenUp(w, Serve(s, p))
  {
    hide Apply, DownAsDeclared;
    ApplyTouches(s.mem, s.disk, p, w.name);
    ApplyKeepsObserved(s.mem, s.disk, p);
    assert Track(Serve(s, p).mem, w.name) == Track(s.mem, w.name);
  }

  lemma ObserveGivenUp(w: Target, s: Sys)
    requires GivenUp(w, s) && s.pc.Observing?
    ensures GivenUp(w, ObserveNext(s))
  {
    hide DownAsDeclared;
    if s.pc.rest != [] { assert forall i :: 0 <= i < |s.pc.rest| - 1 ==> s.pc.rest[1..][i] == s.pc.rest[i + 1]; }
  }

  lemma DoGivenUp(w: Target, s: Sys, st: Step)
    requires Inv(s) && GivenUp(w, s) && LeftDown(w, s, st)
    ensures GivenUp(w, Do(s, st)) && !IsStart(Issued(s, st), w.name)
  {
    hide PickNext, FinishCall, Serve, ObserveNext, Inv, DownAsDeclared;
    match st
    case Api(p) => if LockFree(s.pc) { ServeGivenUp(w, s, p); }
    case ObserveStep => if s.pc.Observing? { ObserveGivenUp(w, s); }
    case Pick(now) => if s.pc.Reconciling? { PickGivenUp(w, s, now); }
    case Finish(o) => if s.pc.Awaiting? { FinishGivenUp(w, s, o); }
    case _ =>
  }

  ghost predicate LeftDownRun(w: Target, s: Sys, steps: seq<Step>)
    decreases |steps|
  {
    steps == [] || (LeftDown(w, s, steps[0]) && LeftDownRun(w, Do(s, steps[0]), steps[1..]))
  }

  // Once given up, a container is never started again, until an API call is about it or it
  // is seen running.
  lemma {:induction false} FatalIsNeverStarted(w: Target, s: Sys, steps: seq<Step>)
    requires Inv(s) && GivenUp(w, s) && LeftDownRun(w, s, steps)
    ensures Starts(w, s, steps) == 0 && GivenUp(w, Run(s, steps))
    decreases |steps|
  {
    if steps != [] {
      DoGivenUp(w, s, steps[0]);
      DoKeepsInv(s, steps[0]);
      FatalIsNeverStarted(w, Do(s, steps[0]), steps[1..]);
    }
  }
}
