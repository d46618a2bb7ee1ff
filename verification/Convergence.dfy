// Left alone, the supervisor brings every declaration up, dependencies first, and then
// stays quiet.
module Convergence {
  import opened Basics
  import opened Specs
  import opened Sections
  import opened Machine
  import opened Passes

  // ---- the declarations ----

  function Deps(r: Record): seq<Dependency> { Elems(r.spec.dependsOn) }

  // All desired running, and the dependencies acyclic: each is declared at a lower rank, and
  // one waited for to be healthy has a check.
  ghost predicate Acyclic(rs: map<string, Record>, rank: map<string, nat>) {
    forall n :: n in rs ==>
      && n in rank && rs[n].desired == DesiredRunning
      && forall i :: 0 <= i < |Deps(rs[n])| ==>
           var d := NormalDependency(Deps(rs[n])[i]);
           d.name in rs && d.name in rank && rank[d.name] < rank[n] &&
           (d.ready == ReadyHealthy ==> rs[d.name].spec.health.Some?)
  }

  ghost predicate IsUp(m: Mem, rs: map<string, Record>, n: string)
    requires n in rs
  {
    Track(m, n).phase == Running && (rs[n].spec.health.Some? ==> Track(m, n).health == Healthy)
  }

  ghost predicate DepsUp(m: Mem, rs: map<string, Record>, n: string)
    requires n in rs
  {
    forall i :: 0 <= i < |Deps(rs[n])| ==>
      var d := NormalDependency(Deps(rs[n])[i]);
      d.name in rs && IsUp(m, rs, d.name) && (d.ready == ReadyHealthy ==> rs[d.name].spec.health.Some?)
  }

  lemma {:induction false} ReadyWhenDepsUp(m: Mem, rs: map<string, Record>, ds: seq<Dependency>)
    requires m.records == rs
    requires forall i :: 0 <= i < |ds| ==>
               var d := NormalDependency(ds[i]);
               d.name in rs && IsUp(m, rs, d.name) && (d.ready == ReadyHealthy ==> rs[d.name].spec.health.Some?)
    ensures Unready(m, ds) == None
  {
    if ds != [] {
      var d := NormalDependency(ds[0]);
      assert IsUp(m, rs, d.name);
      ReadyWhenDepsUp(m, rs, ds[1..]);
    }
  }

  // ---- what a pass finds and knows of one name ----

  // As the engine reports a container of the declaration that was started and runs on.
  ghost predicate Runs(rs: map<string, Record>, n: string, c: Container)
    requires n in rs
  {
    c.name == n && c.managed && c.Running() && c.specLabel == Some(Digest(rs[n].spec)) && c.startedAt != ZERO
  }

  // Between passes: never started and waiting to be, or started and on its way up.
  ghost predicate Awaited(t: Tracking, c: Option<Container>) {
    && !t.force && !t.restart
    && match c
       case None => (t.phase == NoPhase || t.phase == Waiting) && t.healthRun == ZERO
       case Some(c) => t.healthRun == c.startedAt ==> t.health == Healthy
  }

  // Reconcile changed nothing but the tracking of n, and asked the engine for calls.
  ghost predicate Only(w: World, w': World, n: string, calls: seq<Issue>) {
    && w'.mem == w.mem.(track := w.mem.track[n := Track(w'.mem, n)])
    && w'.disk == w.disk && w'.windows == [] && w'.clock == Tick(w).clock && w'.log == w.log + calls
  }

  lemma SetTwice(m: Mem, n: string, a: Tracking, b: Tracking)
    ensures SetTrack(SetTrack(m, n, a), n, b) == SetTrack(m, n, b)
  {
    assert m.track[n := a][n := b] == m.track[n := b];
  }

  // A running container is confirmed, and checked if it has a check.
  lemma ReconcileRunning(w: World, cfg: Config, rs: map<string, Record>, n: string)
    requires w.windows == [] && w.mem.records == rs && n in rs && rs[n].desired == DesiredRunning
    requires n in w.mem.observed && Runs(rs, n, w.mem.observed[n])
    requires Awaited(Track(w.mem, n), Some(w.mem.observed[n]))
    requires w.mem.observed[n].startedAt + START_CONFIRM <= NextTime(w)
    ensures var w' := ReconcileOne(w, cfg, n).world;
            && (Only(w, w', n, []) || Only(w, w', n, [Issue(n, CallCheck)]))
            && IsUp(w'.mem, rs, n) && Awaited(Track(w'.mem, n), Some(w.mem.observed[n]))
  {
    var x := Context(w.mem, n, NextTime(w));
    var t := Track(w.mem, n);
    var sec := Begin(w.mem, cfg, x);
    assert sec == Observe(x, t);
    hide Digest, Judge, Begin, Resume;
    if sec.ctl.Ask? { CheckAlone(w, cfg, x, sec.track); }
  }

  // A passing check nothing disturbs.
  lemma CheckAlone(w: World, cfg: Config, x: Ctx, u: Tracking)
    requires w.windows == [] && x.c.Some? && x.rec.spec.health.Some?
    ensures var w' := Continue(Tick(w), cfg, x, Section(u, Ask(Check, x))).world;
            && Only(w, w', x.name, [Issue(x.name, CallCheck)])
            && Track(w'.mem, x.name) == Checked(u, NormalHealth(x.rec.spec.health.value), x, QUIET.o)
  {
    hide Judge, Begin, Checked;
    var w1 := Keep(Tick(w), x.name, u);
    ReleasedAlone(w1, Issue(x.name, CallCheck));
    var w2 := Release(w1, Issue(x.name, CallCheck));
    var sec2 := Resume(w2.mem, cfg, Check, x, QUIET.o);
    SetTwice(w.mem, x.name, u, sec2.track);
    assert Continue(w2, cfg, x, sec2).world == Keep(w2, x.name, sec2.track);
  }

  // The lock released while no API call is served.
  lemma ReleasedAlone(w: World, i: Issue)
    requires w.windows == []
    ensures Release(w, i) == w.(log := w.log + [i]) && NextWindow(w) == QUIET
  {
  }

  lemma AbsentStarts(w: World, cfg: Config, rs: map<string, Record>, n: string)
    requires w.mem.records == rs && n in rs && rs[n].desired == DesiredRunning && n !in w.mem.observed
    requires Awaited(Track(w.mem, n), None)
    ensures var x, t := Context(w.mem, n, NextTime(w)), Detached(Track(w.mem, n));
            Begin(w.mem, cfg, x) == Start(w.mem, x, if t.phase == NoPhase then FRESH else t)
  {
    hide Start, Digest;
  }

  // A container that is not there is run once its dependencies are up, and waited with
  // otherwise.
  lemma ReconcileAbsent(w: World, cfg: Config, rs: map<string, Record>, n: string)
    requires w.windows == [] && w.mem.records == rs && n in rs && rs[n].desired == DesiredRunning
    requires n !in w.mem.observed && n !in w.mem.foreign && Awaited(Track(w.mem, n), None)
    requires forall i :: 0 <= i < |Deps(rs[n])| ==> Deps(rs[n])[i].name != n
    ensures var w' := ReconcileOne(w, cfg, n).world;
            && !Track(w'.mem, n).force && !Track(w'.mem, n).restart && Track(w'.mem, n).healthRun == ZERO
            && (|| (Only(w, w', n, []) && Track(w'.mem, n).phase == Waiting && !DepsUp(w.mem, rs, n))
                || Only(w, w', n, [Issue(n, CallRun)]))
  {
    hide Begin, Judge, Resume;
    AbsentStarts(w, cfg, rs, n);
    var x := Context(w.mem, n, NextTime(w));
    var t := Detached(Track(w.mem, n));
    var u := if t.phase == NoPhase then FRESH else t;
    var sec := Begin(w.mem, cfg, x);
    assert sec == Start(w.mem, x, u);
    if DepsUp(w.mem, rs, n) {
      var m := SetTrack(w.mem, n, u);
      forall i | 0 <= i < |Deps(rs[n])| ensures IsUp(m, rs, NormalDependency(Deps(rs[n])[i]).name) {
        assert NormalDependency(Deps(rs[n])[i]).name == Deps(rs[n])[i].name;
        assert IsUp(w.mem, rs, NormalDependency(Deps(rs[n])[i]).name);
      }
      ReadyWhenDepsUp(m, rs, Deps(rs[n]));
    }
    if sec.ctl.Ask? { LaunchAlone(w, cfg, x, u); }
  }

  // A launch nothing disturbs.
  lemma LaunchAlone(w: World, cfg: Config, x: Ctx, u: Tracking)
    requires w.windows == [] && x.c.None?
    ensures var w' := Continue(Tick(w), cfg, x, Section(u, Ask(Launch, x))).world;
            Only(w, w', x.name, [Issue(x.name, CallRun)]) && Track(w'.mem, x.name) == Launched(u, x, QUIET.o).track
  {
    hide Judge, Begin;
    var w1 := Keep(Tick(w), x.name, u);
    ReleasedAlone(w1, Issue(x.name, CallRun));
    var w2 := Release(w1, Issue(x.name, CallRun));
    var sec2 := Resume(w2.mem, cfg, Launch, x, QUIET.o);
    SetTwice(w.mem, x.name, u, sec2.track);
    assert Continue(w2, cfg, x, sec2).world == Keep(w2, x.name, sec2.track);
  }

  // ---- one pass ----

  ghost predicate ClockFrom(w: World, lo: Time) {
    w.clock != [] && forall i :: 0 <= i < |w.clock| ==> w.clock[i] >= lo
  }

  // Between passes, with the containers the engine has.
  ghost predicate Boundary(w: World, rs: map<string, Record>, cs: map<string, Container>) {
    && w.windows == [] && w.mem.records == rs
    && (forall n :: n in rs && n in cs ==> Runs(rs, n, cs[n]))
    && (forall n :: n in rs ==> Awaited(Track(w.mem, n), Get(cs, n)))
  }

  // What was sorted out of the listing, before the first name is reconciled.
  ghost predicate SortedOut(w: World, rs: map<string, Record>, cs: map<string, Container>) {
    forall n :: n in rs ==> Get(w.mem.observed, n) == Get(cs, n) && n !in w.mem.foreign
  }

  ghost predicate Called(w0: World, w: World, n: string) {
    |w0.log| <= |w.log| && exists i :: |w0.log| <= i < |w.log| && w.log[i] == Issue(n, CallRun)
  }

  // The calls about declared names: checks of what runs, launches of what does not.
  ghost predicate Modest(w0: World, w: World, rs: map<string, Record>, cs: map<string, Container>) {
    && w0.log <= w.log
    && forall i :: |w0.log| <= i < |w.log| && w.log[i].name in rs ==>
         w.log[i].call == if w.log[i].name in cs then CallCheck else CallRun
  }

  // How reconcile leaves a name, given the memory the pass began with.
  ghost predicate Reconciled(w0: World, w: World, rs: map<string, Record>, cs: map<string, Container>, n: string)
    requires n in rs
  {
    var t := Track(w.mem, n);
    if n in cs then IsUp(w.mem, rs, n) && Awaited(t, Some(cs[n]))
    else
      && !t.force && !t.restart && t.healthRun == ZERO
      && (Called(w0, w, n) || (t.phase == Waiting && !DepsUp(w0.mem, rs, n)))
  }

  ghost predicate Midway(w0: World, w: World, rs: map<string, Record>, cs: map<string, Container>, names: seq<string>) {
    && w.windows == [] && w.mem.records == rs
    && w.mem.observed == w0.mem.observed && w.mem.foreign == w0.mem.foreign
    && (forall n :: n in rs && n in names ==> Track(w.mem, n) == Track(w0.mem, n))
    && (forall n :: n in rs && n !in names ==> Reconciled(w0, w, rs, cs, n))
    && Modest(w0, w, rs, cs)
  }

  // What was up when the pass began stays up in it.
  lemma UpStays(w0: World, w: World, rs: map<string, Record>, cs: map<string, Container>, names: seq<string>, n: string)
    requires Boundary(w0, rs, cs) && Midway(w0, w, rs, cs, names) && n in rs && DepsUp(w0.mem, rs, n)
    ensures DepsUp(w.mem, rs, n)
  {
    forall i | 0 <= i < |Deps(rs[n])|
      ensures IsUp(w.mem, rs, NormalDependency(Deps(rs[n])[i]).name)
    {
      var d := NormalDependency(Deps(rs[n])[i]).name;
      assert IsUp(w0.mem, rs, d);
      assert d in cs;
      assert d !in names ==> Reconciled(w0, w, rs, cs, d);
    }
  }

  lemma OneMidway(w0: World, w: World, w': World, rs: map<string, Record>, cs: map<string, Container>,
                  names: seq<string>, calls: seq<Issue>)
    requires Midway(w0, w, rs, cs, names) && Ascending(names) && names != [] && names[0] in rs
    requires Only(w, w', names[0], calls) && |calls| <= 1
    requires calls != [] ==> calls[0] == Issue(names[0], if names[0] in cs then CallCheck else CallRun)
    requires Reconciled(w0, w', rs, cs, names[0])
    ensures Midway(w0, w', rs, cs, names[1..])
  {
    hide Reconciled;
    forall n | n in names[1..] ensures n != names[0] { LessTotal(names[0], n); }
    forall n | n in rs && n !in names[1..] ensures Reconciled(w0, w', rs, cs, n) {
      if n != names[0] {
        assert n !in names;
        OtherReconciled(w0, w, w', rs, cs, names[0], calls, n);
      }
    }
  }

  lemma OtherReconciled(w0: World, w: World, w': World, rs: map<string, Record>, cs: map<string, Container>,
                        name: string, calls: seq<Issue>, n: string)
    requires Only(w, w', name, calls) && n != name && n in rs && Reconciled(w0, w, rs, cs, n)
    ensures Reconciled(w0, w', rs, cs, n)
  {
    assert Track(w'.mem, n) == Track(w.mem, n);
    if Called(w0, w, n) {
      var i :| |w0.log| <= i < |w.log| && w.log[i] == Issue(n, CallRun);
      assert w'.log[i] == Issue(n, CallRun);
    }
  }

  lemma NoSelfDependency(rs: map<string, Record>, rank: map<string, nat>, n: string)
    requires Acyclic(rs, rank) && n in rs
    ensures rs[n].desired == DesiredRunning && forall i :: 0 <= i < |Deps(rs[n])| ==> Deps(rs[n])[i].name != n
  {
    forall i | 0 <= i < |Deps(rs[n])| ensures Deps(rs[n])[i].name != n {
      assert NormalDependency(Deps(rs[n])[i]).name == Deps(rs[n])[i].name;
    }
  }

  // The pass comes to a container that is there.
  lemma OneThere(w0: World, w: World, cfg: Config, rs: map<string, Record>, cs: map<string, Container>,
                 names: seq<string>, lo: Time)
    requires Boundary(w0, rs, cs) && SortedOut(w0, rs, cs) && ClockFrom(w, lo)
    requires Midway(w0, w, rs, cs, names) && Ascending(names) && names != [] && names[0] in rs && names[0] in cs
    requires rs[names[0]].desired == DesiredRunning && cs[names[0]].startedAt + START_CONFIRM <= lo
    ensures var w' := ReconcileOne(w, cfg, names[0]).world;
            Midway(w0, w', rs, cs, names[1..]) && ClockFrom(w', lo)
  {
    hide ReconcileOne, IsUp, DepsUp, Ascending, Modest, Called;
    var n := names[0];
    var w' := ReconcileOne(w, cfg, n).world;
    assert Get(w0.mem.observed, n) == Get(cs, n);
    assert Awaited(Track(w0.mem, n), Get(cs, n));
    ReconcileRunning(w, cfg, rs, n);
    OneMidway(w0, w, w', rs, cs, names, if Only(w, w', n, []) then [] else [Issue(n, CallCheck)]);
  }

  // The pass comes to a container that is not there.
  lemma OneMissing(w0: World, w: World, cfg: Config, rs: map<string, Record>, cs: map<string, Container>,
                   names: seq<string>, lo: Time)
    requires Boundary(w0, rs, cs) && SortedOut(w0, rs, cs) && ClockFrom(w, lo)
    requires Midway(w0, w, rs, cs, names) && Ascending(names) && names != [] && names[0] in rs && names[0] !in cs
    requires rs[names[0]].desired == DesiredRunning
    requires forall i :: 0 <= i < |Deps(rs[names[0]])| ==> Deps(rs[names[0]])[i].name != names[0]
    ensures var w' := ReconcileOne(w, cfg, names[0]).world;
            Midway(w0, w', rs, cs, names[1..]) && ClockFrom(w', lo)
  {
    hide ReconcileOne, IsUp, DepsUp, Ascending;
    var n := names[0];
    var w' := ReconcileOne(w, cfg, n).world;
    assert Get(w0.mem.observed, n) == Get(cs, n);
    assert Awaited(Track(w0.mem, n), Get(cs, n));
    ReconcileAbsent(w, cfg, rs, n);
    if Only(w, w', n, [Issue(n, CallRun)]) {
      CallsOne(w0, w, w', n);
      OneMidway(w0, w, w', rs, cs, names, [Issue(n, CallRun)]);
    } else {
      if DepsUp(w0.mem, rs, n) { UpStays(w0, w, rs, cs, names, n); }
      OneMidway(w0, w, w', rs, cs, names, []);
    }
  }

  lemma CallsOne(w0: World, w: World, w': World, n: string)
    requires |w0.log| <= |w.log| && w'.log == w.log + [Issue(n, CallRun)]
    ensures Called(w0, w', n)
  {
    assert w'.log[|w.log|] == Issue(n, CallRun);
  }

  lemma OneName(w0: World, w: World, cfg: Config, rs: map<string, Record>, rank: map<string, nat>,
                cs: map<string, Container>, names: seq<string>, lo: Time)
    requires Acyclic(rs, rank) && Boundary(w0, rs, cs) && SortedOut(w0, rs, cs) && ClockFrom(w, lo)
    requires forall n :: n in rs && n in cs ==> cs[n].startedAt + START_CONFIRM <= lo
    requires Midway(w0, w, rs, cs, names) && Ascending(names) && names != [] && names[0] in rs
    ensures var w' := ReconcileOne(w, cfg, names[0]).world;
            Midway(w0, w', rs, cs, names[1..]) && ClockFrom(w', lo)
  {
    hide ReconcileOne, Acyclic, Midway, Boundary, SortedOut, Ascending;
    NoSelfDependency(rs, rank, names[0]);
    if names[0] in cs { OneThere(w0, w, cfg, rs, cs, names, lo); } else { OneMissing(w0, w, cfg, rs, cs, names, lo); }
  }

  lemma {:induction false} AllNames(w0: World, w: World, cfg: Config, rs: map<string, Record>, rank: map<string, nat>,
                                    cs: map<string, Container>, names: seq<string>, due: Time, lo: Time)
    requires Acyclic(rs, rank) && Boundary(w0, rs, cs) && SortedOut(w0, rs, cs) && ClockFrom(w, lo)
    requires forall n :: n in rs && n in cs ==> cs[n].startedAt + START_CONFIRM <= lo
    requires Midway(w0, w, rs, cs, names) && Ascending(names) && forall n :: n in names ==> n in rs
    ensures Midway(w0, ReconcileAll(w, cfg, names, due).world, rs, cs, [])
    decreases |names|
  {
    if names != [] {
      OneName(w0, w, cfg, rs, rank, cs, names, lo);
      var e := ReconcileOne(w, cfg, names[0]);
      AllNames(w0, e.world, cfg, rs, rank, cs, names[1..], Sooner(due, e.due), lo);
    }
  }

  // The listing shows exactly the declared containers the engine has, and none of their
  // names on a container without the managed label.
  ghost predicate Exhibits(l: seq<Container>, rs: map<string, Record>, cs: map<string, Container>) {
    && (forall i :: 0 <= i < |l| && l[i].name in rs ==> l[i].managed && Get(cs, l[i].name) == Some(l[i]))
    && (forall n :: n in rs && n in cs ==> exists i :: 0 <= i < |l| && l[i] == cs[n])
  }

  // Nothing declared is called while the listing is sorted out.
  ghost predicate Sorting(w0: World, w: World, rs: map<string, Record>) {
    && w.windows == [] && w.mem.records == w0.mem.records && w.mem.track == w0.mem.track && w.clock == w0.clock
    && w0.log <= w.log && forall i :: |w0.log| <= i < |w.log| ==> w.log[i].name !in rs
  }

  lemma {:induction false} ObserveSorts(w: World, rs: map<string, Record>, cs: map<string, Container>,
                                        l: seq<Container>)
    requires w.windows == [] && w.mem.records == rs
    requires forall n :: n in rs && n in cs ==> cs[n].name == n
    requires forall i :: 0 <= i < |l| && l[i].name in rs ==> l[i].managed && Get(cs, l[i].name) == Some(l[i])
    requires forall n :: n in rs ==>
             n !in w.mem.foreign && (n in w.mem.observed ==> Get(cs, n) == Get(w.mem.observed, n))
    ensures var w' := ObserveAll(w, l);
            && Sorting(w, w', rs)
            && (forall n :: n in rs ==> n !in w'.mem.foreign)
            && (forall n :: n in rs && n in w'.mem.observed ==> Get(cs, n) == Get(w'.mem.observed, n))
            && (forall n :: n in rs && (n in w.mem.observed || (n in cs && cs[n] in l)) ==> n in w'.mem.observed)
    decreases |l|
  {
    hide Release;
    if l != [] {
      var c := l[0];
      ReleasedAlone(w, Issue(c.name, CallRemove));
      var w1 :=
        if !c.managed then w.(mem := w.mem.(foreign := w.mem.foreign[c.name := c]))
        else if c.name !in w.mem.records then Release(w, Issue(c.name, CallRemove))
        else w.(mem := w.mem.(observed := w.mem.observed[c.name := c]));
      assert forall i :: 0 <= i < |l[1..]| ==> l[1..][i] == l[i + 1];
      assert c in l;
      ObserveSorts(w1, rs, cs, l[1..]);
      assert forall n :: n in cs && cs[n] in l ==> cs[n] == c || cs[n] in l[1..];
    }
  }

  // How a pass leaves a name: up if its container was there, else run if its dependencies
  // were up when the pass began.
  ghost predicate Passed(w: World, w': World, rs: map<string, Record>, cs: map<string, Container>) {
    && w'.windows == [] && w'.mem.records == rs && Modest(w, w', rs, cs)
    && forall n :: n in rs ==> Reconciled(w, w', rs, cs, n)
  }

  lemma APass(w: World, cfg: Config, rs: map<string, Record>, rank: map<string, nat>, cs: map<string, Container>,
              l: seq<Container>, lo: Time)
    requires Acyclic(rs, rank) && Boundary(w, rs, cs) && ClockFrom(w, lo) && Exhibits(l, rs, cs)
    requires forall n :: n in rs && n in cs ==> cs[n].startedAt + START_CONFIRM <= lo
    ensures Passed(w, PassOf(w, cfg, l).world, rs, cs)
  {
    var w0 := Forgotten(w);
    ObserveSorts(w0, rs, cs, l);
    var w1 := ObserveAll(w0, l);
    assert SortedOut(w1, rs, cs) by {
      forall n | n in rs ensures Get(w1.mem.observed, n) == Get(cs, n) && n !in w1.mem.foreign {
        if n in cs { var i :| 0 <= i < |l| && l[i] == cs[n]; assert cs[n] in l; }
      }
    }
    assert Boundary(w1, rs, cs) by {
      forall n | n in rs ensures Awaited(Track(w1.mem, n), Get(cs, n)) { assert Track(w1.mem, n) == Track(w.mem, n); }
    }
    var names := SortedKeys(w1.mem.records.Keys);
    AllNames(w1, w1, cfg, rs, rank, cs, names, ZERO, lo);
    var w2 := ReconcileAll(w1, cfg, names, ZERO).world;
    PassEnds(w, w1, w2, rs, cs);
  }

  lemma PassEnds(w: World, w1: World, w2: World, rs: map<string, Record>, cs: map<string, Container>)
    requires Sorting(Forgotten(w), w1, rs) && Midway(w1, w2, rs, cs, [])
    ensures Passed(w, CloseAll(w2), rs, cs)
  {
    var w' := CloseAll(w2);
    assert w'.mem.track == w2.mem.track && w'.log == w2.log;
    forall n | n in rs ensures Reconciled(w, w', rs, cs, n) {
      assert Reconciled(w1, w2, rs, cs, n);
      assert Track(w'.mem, n) == Track(w2.mem, n);
      if n !in cs {
        if Called(w1, w2, n) {
          var i :| |w1.log| <= i < |w2.log| && w2.log[i] == Issue(n, CallRun);
          assert w'.log[i] == Issue(n, CallRun);
        }
        if DepsUp(w.mem, rs, n) { SameTrackSameUp(w.mem, w1.mem, rs, n); }
      }
    }
  }

  lemma SameTrackSameUp(a: Mem, b: Mem, rs: map<string, Record>, n: string)
    requires n in rs && a.track == b.track && DepsUp(a, rs, n)
    ensures DepsUp(b, rs, n)
  {
    forall i | 0 <= i < |Deps(rs[n])| ensures IsUp(b, rs, NormalDependency(Deps(rs[n])[i]).name) {
      assert IsUp(a, rs, NormalDependency(Deps(rs[n])[i]).name);
    }
  }

  // ---- passes one after the other ----

  // The containers the engine has when a pass lists them, and the span its clock reads.
  datatype Round = Round(cs: map<string, Container>, listing: seq<Container>, clock: seq<Time>, lo: Time, hi: Time)

  ghost function AfterRound(w: World, cfg: Config, r: Round): World {
    PassOf(w.(clock := r.clock), cfg, r.listing).world
  }

  // The engine carries out what it is asked: what a pass ran is there for the next, started
  // by the end of the pass; everything else is as it was.
  ghost predicate CarriedOut(w: World, w': World, rs: map<string, Record>, r: Round, next: Round) {
    && next.lo >= r.hi + START_CONFIRM
    && forall n :: n in rs ==>
         && (n in next.cs <==> n in r.cs || Called(w, w', n))
         && (n in r.cs ==> next.cs[n] == r.cs[n])
         && (n !in r.cs && n in next.cs ==> Runs(rs, n, next.cs[n]) && next.cs[n].startedAt <= r.hi)
  }

  // Passes at least the start confirmation apart, with nothing else going on: no API call,
  // no failing call or check, no exit.
  ghost predicate Undisturbed(w: World, cfg: Config, rs: map<string, Record>, rounds: seq<Round>)
    decreases |rounds|
  {
    rounds == [] ||
    (var r := rounds[0];
     var w' := AfterRound(w, cfg, r);
     && r.lo <= r.hi && ClockFrom(w.(clock := r.clock), r.lo) && Exhibits(r.listing, rs, r.cs)
     && (|rounds| > 1 ==> CarriedOut(w, w', rs, r, rounds[1]))
     && Undisturbed(w', cfg, rs, rounds[1..]))
  }

  // After k passes: a container of rank r exists from pass 2r+1 on and is up from 2r+2 on.
  ghost predicate Progress(w: World, rs: map<string, Record>, rank: map<string, nat>, cs: map<string, Container>,
                           k: nat) {
    forall n :: n in rs && n in rank ==>
      && (k >= 2 * rank[n] + 1 ==> n in cs)
      && (k >= 2 * rank[n] + 2 ==> IsUp(w.mem, rs, n))
  }

  ghost predicate OnlyChecks(w: World, w': World, n: string) {
    |w.log| <= |w'.log| && forall i :: |w.log| <= i < |w'.log| && w'.log[i].name == n ==> w'.log[i].call == CallCheck
  }

  // Every pass after a container's turn leaves it up, and asks the engine only to check it.
  ghost predicate Converges(w: World, cfg: Config, rs: map<string, Record>, rank: map<string, nat>,
                            rounds: seq<Round>, k: nat)
    decreases |rounds|
  {
    rounds == [] ||
    (var w' := AfterRound(w, cfg, rounds[0]);
     && (forall n :: n in rs && n in rank && k >= 2 * rank[n] + 1 ==> IsUp(w'.mem, rs, n) && OnlyChecks(w, w', n))
     && Converges(w', cfg, rs, rank, rounds[1..], k + 1))
  }

  lemma NextBoundary(w: World, w': World, rs: map<string, Record>, rank: map<string, nat>, r: Round, next: Round,
                     k: nat)
    requires Acyclic(rs, rank) && Boundary(w, rs, r.cs) && Passed(w, w', rs, r.cs) && CarriedOut(w, w', rs, r, next)
    requires r.lo <= r.hi && forall n :: n in rs && n in r.cs ==> r.cs[n].startedAt + START_CONFIRM <= r.lo
    requires Progress(w, rs, rank, r.cs, k)
    ensures Boundary(w', rs, next.cs) && Progress(w', rs, rank, next.cs, k + 1)
    ensures forall n :: n in rs && n in next.cs ==> next.cs[n].startedAt + START_CONFIRM <= next.lo
  {
    forall n | n in rs
      ensures Awaited(Track(w'.mem, n), Get(next.cs, n))
      ensures k + 1 >= 2 * rank[n] + 1 ==> n in next.cs
      ensures k + 1 >= 2 * rank[n] + 2 ==> IsUp(w'.mem, rs, n)
    {
      assert Reconciled(w, w', rs, r.cs, n);
      if k >= 2 * rank[n] && n !in r.cs { TurnOf(w, rs, rank, r.cs, k, n); }
    }
  }

  // When a container's turn comes, its dependencies are up.
  lemma TurnOf(w: World, rs: map<string, Record>, rank: map<string, nat>, cs: map<string, Container>, k: nat, n: string)
    requires Acyclic(rs, rank) && Progress(w, rs, rank, cs, k) && n in rs && k >= 2 * rank[n]
    ensures DepsUp(w.mem, rs, n)
  {
    forall i | 0 <= i < |Deps(rs[n])|
      ensures var d := NormalDependency(Deps(rs[n])[i]);
              d.name in rs && IsUp(w.mem, rs, d.name) && (d.ready == ReadyHealthy ==> rs[d.name].spec.health.Some?)
    {
      var d := NormalDependency(Deps(rs[n])[i]);
      assert rank[d.name] < rank[n];
    }
  }

  lemma {:induction false} RoundsConverge(w: World, cfg: Config, rs: map<string, Record>, rank: map<string, nat>,
                                          rounds: seq<Round>, k: nat)
    requires Acyclic(rs, rank) && Undisturbed(w, cfg, rs, rounds)
    requires rounds != [] ==>
               && Boundary(w, rs, rounds[0].cs) && Progress(w, rs, rank, rounds[0].cs, k)
               && forall n :: n in rs && n in rounds[0].cs ==> rounds[0].cs[n].startedAt + START_CONFIRM <= rounds[0].lo
    ensures Converges(w, cfg, rs, rank, rounds, k)
    decreases |rounds|
  {
    hide AfterRound, Boundary, Passed, Progress, CarriedOut, Exhibits, Acyclic;
    if rounds != [] {
      var r := rounds[0];
      var w' := AfterRound(w, cfg, r);
      ARound(w, cfg, rs, rank, r);
      if |rounds| > 1 {
        NextBoundary(w, w', rs, rank, r, rounds[1], k);
      }
      RoundsConverge(w', cfg, rs, rank, rounds[1..], k + 1);
      RoundKeepsUp(w, w', rs, rank, r.cs, k);
    }
  }

  lemma RoundKeepsUp(w: World, w': World, rs: map<string, Record>, rank: map<string, nat>, cs: map<string, Container>,
                     k: nat)
    requires Passed(w, w', rs, cs) && Progress(w, rs, rank, cs, k)
    ensures forall n :: n in rs && n in rank && k >= 2 * rank[n] + 1 ==> IsUp(w'.mem, rs, n) && OnlyChecks(w, w', n)
  {
    forall n | n in rs && n in rank && k >= 2 * rank[n] + 1 ensures IsUp(w'.mem, rs, n) && OnlyChecks(w, w', n) {
      assert Reconciled(w, w', rs, cs, n);
    }
  }

  lemma ARound(w: World, cfg: Config, rs: map<string, Record>, rank: map<string, nat>, r: Round)
    requires Acyclic(rs, rank) && Boundary(w, rs, r.cs) && ClockFrom(w.(clock := r.clock), r.lo)
    requires Exhibits(r.listing, rs, r.cs)
    requires forall n :: n in rs && n in r.cs ==> r.cs[n].startedAt + START_CONFIRM <= r.lo
    ensures Passed(w, AfterRound(w, cfg, r), rs, r.cs)
  {
    var v := w.(clock := r.clock);
    assert Boundary(v, rs, r.cs) by {
      forall n | n in rs ensures Awaited(Track(v.mem, n), Get(r.cs, n)) {
        assert Awaited(Track(w.mem, n), Get(r.cs, n));
      }
    }
    APass(v, cfg, rs, rank, r.cs, r.listing, r.lo);
    ClockApart(w, v, AfterRound(w, cfg, r), rs, r.cs);
  }

  // What a pass did does not depend on how its clock is named.
  lemma ClockApart(w: World, v: World, w': World, rs: map<string, Record>, cs: map<string, Container>)
    requires v == w.(clock := v.clock) && Passed(v, w', rs, cs)
    ensures Passed(w, w', rs, cs)
  {
    forall n | n in rs ensures Reconciled(w, w', rs, cs, n) { assert Reconciled(v, w', rs, cs, n); }
  }

  // Nothing there and nothing known is where convergence begins.
  lemma StartsOut(w: World, cfg: Config, rs: map<string, Record>, rank: map<string, nat>, rounds: seq<Round>)
    requires w.windows == [] && w.mem.records == rs && forall n :: n in rs ==> Track(w.mem, n) == FRESH
    requires Undisturbed(w, cfg, rs, rounds) && (rounds != [] ==> forall n :: n in rs ==> n !in rounds[0].cs)
    ensures rounds != [] ==>
              && Boundary(w, rs, rounds[0].cs) && Progress(w, rs, rank, rounds[0].cs, 0)
              && forall n :: n in rs && n in rounds[0].cs ==> rounds[0].cs[n].startedAt + START_CONFIRM <= rounds[0].lo
  {
    hide AfterRound, Exhibits, CarriedOut, Passed;
  }

  // From fresh tracking, with no declared container there: after 2(d+1) undisturbed passes,
  // d the length of the longest chain of dependencies, every container is up and stays up,
  // and from pass 2d+2 on the engine is asked for nothing but health checks.
  lemma Convergence(w: World, cfg: Config, rs: map<string, Record>, rank: map<string, nat>, d: nat, rounds: seq<Round>)
    requires Acyclic(rs, rank) && forall n :: n in rs ==> rank[n] <= d
    requires w.windows == [] && w.mem.records == rs && forall n :: n in rs ==> Track(w.mem, n) == FRESH
    requires Undisturbed(w, cfg, rs, rounds) && (rounds != [] ==> forall n :: n in rs ==> n !in rounds[0].cs)
    ensures Converges(w, cfg, rs, rank, rounds, 0)
    ensures |rounds| >= 2 * (d + 1) ==>
              forall n :: n in rs ==> IsUp(AfterRounds(w, cfg, rounds).mem, rs, n)
  {
    hide Converges, Undisturbed, IsUp, AfterRounds;
    StartsOut(w, cfg, rs, rank, rounds);
    RoundsConverge(w, cfg, rs, rank, rounds, 0);
    if |rounds| >= 2 * (d + 1) { LastRoundIsUp(w, cfg, rs, rank, d, rounds, 0); }
  }

  ghost function AfterRounds(w: World, cfg: Config, rounds: seq<Round>): World
    decreases |rounds|
  {
    if rounds == [] then w else AfterRounds(AfterRound(w, cfg, rounds[0]), cfg, rounds[1..])
  }

  lemma {:induction false} LastRoundIsUp(w: World, cfg: Config, rs: map<string, Record>, rank: map<string, nat>, d: nat,
                                         rounds: seq<Round>, k: nat)
    requires Acyclic(rs, rank) && (forall n :: n in rs ==> rank[n] <= d) && Converges(w, cfg, rs, rank, rounds, k)
    requires rounds != [] && k + |rounds| >= 2 * (d + 1)
    ensures forall n :: n in rs ==> IsUp(AfterRounds(w, cfg, rounds).mem, rs, n)
    decreases |rounds|
  {
    hide AfterRound;
    var w' := AfterRound(w, cfg, rounds[0]);
    if |rounds| == 1 {
      assert AfterRounds(w', cfg, rounds[1..]) == w';
    } else {
      LastRoundIsUp(w', cfg, rs, rank, d, rounds[1..], k + 1);
    }
  }
}
