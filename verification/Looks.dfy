// What one look at a container decides, from what was declared and what the engine shows: the
// policies, bounds and times in figures, by no name of the code that decides.
module Looks {
  import opened Basics
  import opened Specs
  import opened Sections
  import opened Machine
  import opened Interference
  import opened Timing
  import opened Readiness

  // Nothing is known of a container.
  const BLANK := Tracking(NoPhase, 0, 0, ZERO, ZERO, false, false, NoNote, NoHealth, 0, ZERO, ZERO)

  // Nothing but that it is stopped, by which exit.
  function OnlyStopped(x: Ctx): Tracking {
    BLANK.(phase := Stopped, handledExit := if x.c.Some? then x.c.value.exitedAt else ZERO)
  }

  // The container is there and of the declaration, which wants it running.
  ghost predicate Wanted(x: Ctx) {
    x.c.Some? && x.c.value.specLabel == Some(Digest(x.rec.spec)) && x.rec.desired == DesiredRunning
  }

  // It is down, neither running nor paused, ran in this boot, is not told to start, and its exit
  // was not decided on: it was not given up, and no phase that waits on an exit waits on this one.
  ghost predicate JustExited(cfg: Config, x: Ctx, t: Tracking) {
    && Wanted(x) && x.c.value.state == StateOther
    && x.c.value.startedAt != ZERO && x.c.value.startedAt >= cfg.bootTime
    && !t.force && t.phase != Fatal
    && !((t.phase == Exited || t.phase == Waiting || t.phase == Backoff) && x.c.value.exitedAt == t.handledExit)
  }

  // The policy restarts it.
  predicate RestartedBy(p: Policy, code: int) {
    match p
    case PolicyAlways => true
    case PolicyOnFailure => code != 0
    case _ => false
  }

  lemma SpanIsExact(d: int)
    ensures Sat64(d) > BACKOFF_MAX <==> d > 60_000_000_000
    ensures Sat64(d) < START_CONFIRM <==> d < 1_000_000_000
  {
  }

  // The wait before the n-th try: n seconds, and a minute from the sixtieth on.
  lemma GapInSeconds(n: int)
    requires 1 <= n <= 9_223_372_036
    ensures Gap(n) == (if n < 60 then n else 60) * 1_000_000_000
  {
    hide Gap;
    GapExact(n);
  }

  // The look at a fresh exit goes to its tally.
  lemma ExitIsTallied(m: Mem, cfg: Config, x: Ctx)
    requires JustExited(cfg, x, Track(m, x.name))
    ensures Begin(m, cfg, x) == JudgeExit(m, x, Detached(Track(m, x.name)))
  {
    hide Digest, JudgeExit;
  }

  // The tallies of the exit, told by how long the run was.
  lemma TallyCounts(x: Ctx, t: Tracking)
    requires x.c.Some?
    ensures var c, u, n := x.c.value, Tallied(x, t).0, Tallied(x, t).1;
            var ran, p := c.exitedAt - c.startedAt, x.rec.spec.restart.policy;
            var attempts := if ran > 60_000_000_000 then 0 else t.startAttempts;
            var restarts := if ran > 60_000_000_000 then 0 else t.restarts;
            var limit := x.rec.spec.restart.maxRestarts;
            && u == t.(phase := u.phase, handledExit := c.exitedAt, startAttempts := u.startAttempts,
                       restarts := u.restarts)
            && if !RestartedBy(p, c.exitCode) then
                 u.phase == Exited && u.startAttempts == attempts && u.restarts == restarts
               else if ran < 1_000_000_000 then
                 && n == u.startAttempts == attempts + 1 && u.restarts == restarts
                 && u.phase == if n > 3 then Fatal else Backoff
               else
                 && n == u.restarts == restarts + 1 && u.startAttempts == attempts
                 && u.phase == if limit > 0 && n > limit then Fatal else Backoff
  {
    SpanIsExact(x.c.value.exitedAt - x.c.value.startedAt);
    hide Sat64;
  }

  // What becomes of an exit nothing was decided on. It is left as exited exactly when the policy
  // is neither always nor, for a code other than 0, on-failure. Otherwise it counts: a run of less
  // than a second as an attempt, of which three are allowed, a longer one as a restart, of which
  // the declaration says how many; both counts begin anew after a run of more than a minute. A
  // count that passes its bound gives the container up, and any other is due in as many seconds
  // as it says, a minute at the most.
  lemma AnExitIsDecided(m: Mem, cfg: Config, x: Ctx)
    requires JustExited(cfg, x, Track(m, x.name))
    ensures var c, t, sec := x.c.value, Track(m, x.name), Begin(m, cfg, x);
            var u, p, limit := sec.track, x.rec.spec.restart.policy, x.rec.spec.restart.maxRestarts;
            var ran := c.exitedAt - c.startedAt;
            var attempts := if ran > 60_000_000_000 then 0 else t.startAttempts;
            var restarts := if ran > 60_000_000_000 then 0 else t.restarts;
            var short := ran < 1_000_000_000;
            var n := if short then attempts + 1 else restarts + 1;
            && u.handledExit == c.exitedAt && !u.force && !u.restart && u.health == NoHealth
            && (u.phase == Exited <==> !(p == PolicyAlways || (p == PolicyOnFailure && c.exitCode != 0)))
            && (u.phase == Exited ==>
                  sec.ctl == Over(ZERO) && u.startAttempts == attempts && u.restarts == restarts)
            && (u.phase != Exited ==>
                  && u.startAttempts == (if short then n else attempts)
                  && u.restarts == (if short then restarts else n)
                  && (u.phase == Fatal <==> (if short then n > 3 else limit > 0 && n > limit))
                  && (u.phase == Fatal ==> sec.ctl == Over(ZERO))
                  && (u.phase != Fatal && 1 <= n <= 9_223_372_036 ==>
                        && u.phase == Backoff
                        && u.nextAttempt == x.now + (if n < 60 then n else 60) * 1_000_000_000
                        && sec.ctl == Over(u.nextAttempt)))
  {
    hide Tallied, Gap, JustExited, Begin, Digest, Unready;
    var t := Detached(Track(m, x.name));
    UnforcedHas(cfg, x, Track(m, x.name));
    ExitIsTallied(m, cfg, x);
    TallyCounts(x, t);
    var n := Tallied(x, t).1;
    if 1 <= n <= 9_223_372_036 { GapInSeconds(n); }
  }

  lemma UnforcedHas(cfg: Config, x: Ctx, t: Tracking)
    requires JustExited(cfg, x, t)
    ensures x.c.Some? && !t.force
  {
  }

  // ---- starting ----

  // A try at starting it: refused while a container of others holds its name, waiting a second
  // at a time while a dependency is not ready, and launched otherwise.
  ghost predicate Tries(m: Mem, x: Ctx, t: Tracking, sec: Section) {
    if x.c.None? && x.name in m.foreign then
      sec == Section(t.(phase := Waiting, err := HeldBy(m.foreign[x.name].id)), Over(ZERO))
    else if AllReady(m, x.rec.spec.dependsOn) then sec == Section(t, Ask(Launch, x))
    else
      && sec.track == t.(phase := Waiting, err := sec.track.err) && sec.track.err.WaitingFor?
      && sec.ctl == Over(x.now + 1_000_000_000)
  }

  lemma StartTries(m: Mem, x: Ctx, t: Tracking)
    requires Valid(x.rec.spec) && x.rec.spec.name == x.name
    ensures Tries(m, x, t, Sections.Start(m, x, t))
  {
    hide Valid, Unready, AllReady;
    OwnTrackingIsNoDependency(x.rec.spec, m, t);
    UnreadyIff(SetTrack(m, x.name, t), Elems(x.rec.spec.dependsOn));
  }

  // ---- a container that is down ----

  // It is not there, or down as declared, and wanted running.
  ghost predicate Down(x: Ctx) {
    && x.rec.desired == DesiredRunning && Valid(x.rec.spec) && x.rec.spec.name == x.name
    && (x.c.Some? ==> x.c.value.specLabel == Some(Digest(x.rec.spec)) && x.c.value.state == StateOther)
  }

  // A container that is told to start, is not there, or did not run in this boot: it is left
  // when given up or waited with, and otherwise tried, with everything forgotten of it when it
  // was told to start or was not tried before.
  lemma ANewStartIsDecided(m: Mem, cfg: Config, x: Ctx)
    requires Down(x)
    requires || Track(m, x.name).force || x.c.None? || x.c.value.startedAt == ZERO
             || x.c.value.startedAt < cfg.bootTime
    ensures var t, sec := Track(m, x.name), Begin(m, cfg, x);
            var u := t.(restart := false, health := NoHealth, failures := 0, healthRun := ZERO);
            if !t.force && t.phase == Fatal then sec == Section(u, Over(ZERO))
            else if !t.force && t.phase == Backoff && x.now < t.nextAttempt then sec == Section(u, Over(t.nextAttempt))
            else Tries(m, x, if t.force || t.phase == NoPhase || t.phase == Stopped then BLANK else u, sec)
  {
    hide Digest, Valid, Sections.Start, Tries, Tallied, Gap;
    var u := Detached(Track(m, x.name));
    StartTries(m, x, FRESH);
    StartTries(m, x, u);
  }

  // An exit that was decided on: left as exited or given up, or tried again when it is due.
  lemma ADecidedExitIsKept(m: Mem, cfg: Config, x: Ctx)
    requires Down(x) && x.c.Some? && x.c.value.startedAt != ZERO && x.c.value.startedAt >= cfg.bootTime
    requires !Track(m, x.name).force && !JustExited(cfg, x, Track(m, x.name))
    ensures var t, sec := Track(m, x.name), Begin(m, cfg, x);
            var u := t.(restart := false, health := NoHealth, failures := 0, healthRun := ZERO);
            if t.phase == Fatal || t.phase == Exited then sec == Section(u, Over(ZERO))
            else if t.phase == Backoff && x.now < t.nextAttempt then sec == Section(u, Over(t.nextAttempt))
            else Tries(m, x, u, sec)
  {
    hide Digest, Valid, Sections.Start, Tries, Tallied, Gap;
    StartTries(m, x, Detached(Track(m, x.name)));
  }

  // ---- a launch ----

  // How a launch is asked for: a container that is there is started, but for one with devices,
  // and any other is run.
  lemma HowItIsAsked(why: Why, x: Ctx)
    ensures CallOf(Launch, x) == CallStart <==> x.c.Some? && Elems(x.rec.spec.devices) == []
    ensures CallOf(Launch, x) == CallRun <==> x.c.None? || Elems(x.rec.spec.devices) != []
    ensures CallOf(why, x) == CallRemove <==> why == Why.Recreate
    ensures CallOf(why, x) == CallStop <==> why == Why.StopDeclared || why == StopToRestart
    ensures CallOf(why, x) == CallCheck <==> why == Check
  {
  }

  // What a launch leaves: one that fails counts as an attempt, of which three are allowed, the
  // next due in as many seconds, a minute at the most; one that does not has the container
  // starting, and looked at again in a second.
  lemma ALaunchIsNoted(m: Mem, cfg: Config, x: Ctx, o: Outcome)
    requires 0 <= Track(m, x.name).startAttempts < 9_223_372_036
    ensures var t, sec := Track(m, x.name), Resume(m, cfg, Launch, x, o);
            var n := t.startAttempts + 1;
            match o.error
            case None =>
              sec == Section(t.(force := false, err := NoNote, phase := Starting), Over(x.now + 1_000_000_000))
            case Some(text) =>
              var at := x.now + (if n < 60 then n else 60) * 1_000_000_000;
              var u := t.(force := false, err := EngineFailed(text), startAttempts := n);
              sec == if n > 3 then Section(u.(phase := Fatal), Over(ZERO))
                     else Section(u.(phase := Backoff, nextAttempt := at), Over(at))
  {
    hide Gap;
    GapInSeconds(Track(m, x.name).startAttempts + 1);
  }

  // ---- a container that runs, or is not to ----

  // A running container of the declaration, wanted running, no restart to come: it is starting
  // for its first second and running from then on, and nothing else is known to its harm. It is
  // due when it is confirmed, or for its check if that is sooner; the check is asked for when due.
  lemma ARunIsObserved(m: Mem, cfg: Config, x: Ctx)
    requires Wanted(x) && x.c.value.state != StateOther && !Track(m, x.name).restart
    ensures var t, sec := Track(m, x.name), Begin(m, cfg, x);
            var up := x.c.value.startedAt + 1_000_000_000;
            var u := t.(force := false, err := NoNote, phase := if x.now < up then Starting else Running);
            var due := if x.now < up then up else ZERO;
            match x.rec.spec.health
            case None => sec == Section(u, Over(due))
            case Some(_) =>
              var v := if t.healthRun == x.c.value.startedAt then u
                       else u.(healthRun := x.c.value.startedAt, health := HealthStarting, failures := 0,
                               nextHealth := up);
              sec == if x.now >= v.nextHealth then Section(v, Ask(Check, x))
                     else Section(v, Over(if due == ZERO || v.nextHealth < due then v.nextHealth else due))
  {
    hide Digest;
  }

  // A container that is not to run is stopped, and once it is not running nothing is known of it
  // but its last exit; one of another declaration is removed, and judged as one that is not
  // there, told to start if it is to run.
  lemma AStopIsAsked(m: Mem, cfg: Config, x: Ctx)
    ensures var other := x.c.Some? && x.c.value.specLabel != Some(Digest(x.rec.spec));
            var sec := Begin(m, cfg, x);
            && (other ==> sec == Section(Track(m, x.name), Ask(Why.Recreate, x)))
            && (!other && x.rec.desired == DesiredStopped ==>
                  if x.c.Some? && x.c.value.state != StateOther then
                    sec == Section(Track(m, x.name), Ask(Why.StopDeclared, x))
                  else sec == Section(OnlyStopped(x), Over(ZERO)))
            && (Wanted(x) && x.c.value.state != StateOther && Track(m, x.name).restart ==>
                  sec == Section(Track(m, x.name), Ask(StopToRestart, x)))
  {
    hide Digest;
  }

  // A call that failed leaves its error and nothing else; a stop that is done settles the
  // container, or goes on to its start; and after a removal it is looked at as not there.
  lemma AStopReturns(m: Mem, cfg: Config, x: Ctx, why: Why, o: Outcome)
    requires why == Why.Recreate || why == Why.StopDeclared || why == StopToRestart
    requires Valid(x.rec.spec) && x.rec.spec.name == x.name
    ensures var t, sec := Track(m, x.name), Resume(m, cfg, why, x, o);
            match o.error
            case Some(text) => sec == Section(t.(err := EngineFailed(text)), Over(ZERO))
            case None =>
              match why
              case StopDeclared => sec == Section(OnlyStopped(x), Over(ZERO))
              case StopToRestart => Tries(m, x, t.(restart := false), sec)
              case _ =>
                if x.rec.desired == DesiredStopped then sec == Section(OnlyStopped(x.(c := None)), Over(ZERO))
                else Tries(m, x.(c := None), BLANK, sec)
  {
    hide Valid, Digest, Sections.Start, Tries, Tallied, Gap;
    StartTries(m, x.(c := None), FRESH);
    StartTries(m, x, Track(m, x.name).(restart := false));
  }

  // A check that comes back: the next one is due an interval later, an error of it is kept, and
  // one that passed leaves the container healthy. One that did not counts, but within the start
  // period, and as many in a row as are declared make it unhealthy. The pass comes back at the
  // next check, or where the run is confirmed if that is sooner.
  lemma ACheckReturns(m: Mem, cfg: Config, x: Ctx, o: Outcome)
    requires x.c.Some? && x.rec.spec.health.Some?
    ensures var t, h, sec := Track(m, x.name), x.rec.spec.health.value, Resume(m, cfg, Check, x, o);
            var next := x.now + (if h.interval == 0 then 30 else h.interval) * 1_000_000_000;
            var up, ran := x.c.value.startedAt + 1_000_000_000, Span(x.now - x.c.value.startedAt);
            var counts := !o.pass && ran >= h.startPeriod * 1_000_000_000;
            var failures := if o.pass then 0 else if counts then t.failures + 1 else t.failures;
            var many := failures >= (if h.retries == 0 then 3 else h.retries);
            && sec.track == t.(nextHealth := next,
                               err := if o.error.Some? then CheckFailed(o.error.value) else t.err,
                               failures := failures,
                               health := if o.pass then Healthy else if counts && many then Unhealthy else t.health)
            && sec.ctl == Over(if x.now < up <= next && up != ZERO then up else next)
  {
  }

  // A difference of two times, held to 64 bits.
  function Span(d: int): int {
    if d > 9_223_372_036_854_775_807 then 9_223_372_036_854_775_807
    else if d < -9_223_372_036_854_775_808 then -9_223_372_036_854_775_808
    else d
  }

  // A container that was removed is seen no more, unless an API call came meanwhile; no other
  // call that comes back changes what the pass has seen, and none what was published.
  lemma ARemovalIsSeen(s: Sys, o: Outcome)
    requires s.On? && s.pc.Awaiting?
    ensures var t, n := FinishCall(s, o), s.pc.ctx.name;
            var removed := s.pc.why == Why.Recreate && o.error == None && Changed(s.mem, n) == s.pc.seen;
            && t.On? && t.mem.observed == (if removed then s.mem.observed - {n} else s.mem.observed)
            && t.mem.foreign == s.mem.foreign && t.mem.lastPhase == s.mem.lastPhase
  {
    hide Resume, After;
    var x, m := s.pc.ctx, Freed(s.mem, s.pc.why, s.pc.ctx, o);
    AfterKeepsSeen(s, m, x, Resume(m, s.cfg, s.pc.why, x, o));
    assert Without(s.mem.observed, x.name) == s.mem.observed - {x.name};
  }

  lemma AfterKeepsSeen(s: Sys, m: Mem, x: Ctx, sec: Section)
    requires s.On? && s.pc.Awaiting?
    ensures var t := After(s, m, x, sec, s.pc.names);
            t.On? && t.mem.observed == m.observed && t.mem.foreign == m.foreign && t.mem.lastPhase == m.lastPhase
  {
  }
}
