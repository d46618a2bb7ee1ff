// The supervisor itself: its fields, updated in place, and a pass that releases the lock
// around every engine call (internal/supervisor/supervisor.go).
module Supervision {
  import opened Basics
  import opened Specs
  import opened Sections
  import opened Machine
  import opened Passes
  import opened Projects

  // ---- what a section makes of the tracking, field by field ----

  method RecordCheck(t: Tracking, h: Health, x: Ctx, o: Outcome) returns (u: Tracking)
    requires x.c.Some?
    ensures u == Checked(t, h, x, o)
  {
    u := t.(nextHealth := x.now + h.interval * SECOND);
    if o.error.Some? { u := u.(err := CheckFailed(o.error.value)); }
    if o.pass { return u.(health := Healthy, failures := 0); }
    if Sat64(x.now - x.c.value.startedAt) < h.startPeriod * SECOND { return; }
    u := u.(failures := u.failures + 1);
    if u.failures < h.retries || u.health == Unhealthy { return; }
    u := u.(health := Unhealthy);
  }

  method RecordLaunch(t: Tracking, x: Ctx, o: Outcome) returns (u: Tracking, due: Time)
    ensures Section(u, Over(due)) == Launched(t, x, o)
  {
    u := t.(force := false);
    if o.error.Some? {
      u := u.(err := EngineFailed(o.error.value), startAttempts := u.startAttempts + 1);
      if u.startAttempts > START_RETRIES { return u.(phase := Fatal), ZERO; }
      u := u.(phase := Backoff, nextAttempt := x.now + Gap(u.startAttempts));
      return u, u.nextAttempt;
    }
    return u.(err := NoNote, phase := Starting), x.now + START_CONFIRM;
  }

  method TallyExit(x: Ctx, t0: Tracking) returns (t: Tracking, n: int)
    requires x.c.Some?
    ensures (t, n) == Tallied(x, t0)
  {
    var c := x.c.value;
    t := t0.(handledExit := c.exitedAt);
    var ran := Sat64(c.exitedAt - c.startedAt);
    if ran > BACKOFF_MAX {
      t := t.(startAttempts := 0, restarts := 0);
    }
    var policy := PolicyOf(x);
    if !(policy == PolicyAlways || (policy == PolicyOnFailure && c.exitCode != 0)) {
      return t.(phase := Exited), 0;
    }
    if ran < START_CONFIRM {
      t := t.(startAttempts := t.startAttempts + 1);
      n := t.startAttempts;
      if t.startAttempts > START_RETRIES { return t.(phase := Fatal), n; }
    } else {
      t := t.(restarts := t.restarts + 1);
      n := t.restarts;
      var limit := x.rec.spec.restart.maxRestarts;
      if limit > 0 && t.restarts > limit { return t.(phase := Fatal), n; }
    }
    t := t.(phase := Backoff);
  }

  lemma ContinueOver(w: World, cfg: Config, x: Ctx, t: Tracking, due: Time)
    ensures Continue(w, cfg, x, Section(t, Over(due))) == Ended(Keep(w, x.name, t), due)
  {
  }

  // Reconcile goes on by name, whatever container it holds.
  lemma JudgeAgain(w: World, cfg: Config, x: Ctx, t: Tracking)
    ensures Continue(w, cfg, x, Judge(w.mem, cfg, x.(c := None), t)) ==
            Continue(w, cfg, x.(c := None), Judge(w.mem, cfg, x.(c := None), t))
  {
  }

  // A name whose phase did not move adds nothing to a publication.
  lemma {:induction false} ChangesSkip(m: Mem, all: seq<string>, moved: seq<string>)
    requires Ascending(all) && Ascending(moved)
    requires forall n :: n in moved <==> n in all && ChangeOf(m, n) != []
    ensures ChangesOf(m, all) == ChangesOf(m, moved)
    decreases |all|
  {
    assert moved != [] ==> moved[0] in all;
    if all == [] {
    } else if ChangeOf(m, all[0]) == [] {
      assert all[0] !in moved;
      ChangesSkip(m, all[1..], moved);
    } else {
      assert all[0] in moved && moved[0] in all;
      LessTotal(all[0], moved[0]);
      assert moved[0] == all[0];
      forall n ensures n in moved[1..] <==> n in all[1..] && ChangeOf(m, n) != [] {
        LessTotal(all[0], all[0]);
        if n in moved[1..] { assert n in moved && n != all[0]; }
        if n in all[1..] && ChangeOf(m, n) != [] { assert n in moved; }
      }
      ChangesSkip(m, all[1..], moved[1..]);
    }
  }

  // What a publication says of the given names.
  ghost predicate Moves(m: Mem, names: set<string>, moved: map<string, Change>) {
    && (forall n :: n in moved <==> n in names && ChangeOf(m, n) != [])
    && (forall n :: n in moved ==> ChangeOf(m, n) == [moved[n]])
  }

  lemma MovesMore(m: Mem, names: set<string>, moved: map<string, Change>, name: string)
    requires Moves(m, names, moved) && name !in names
    ensures ChangeOf(m, name) == [] ==> Moves(m, names + {name}, moved)
    ensures forall c :: ChangeOf(m, name) == [c] ==> Moves(m, names + {name}, moved[name := c])
  {
  }

  lemma MovesNone(m: Mem)
    ensures Moves(m, {}, map[])
  {
  }

  method ListChanges(ghost m: Mem, moved: map<string, Change>, ghost all: set<string>) returns (changes: seq<Change>)
    requires Moves(m, all, moved)
    ensures changes == ChangesOf(m, SortedKeys(all))
  {
    hide Moves, ChangesOf, Ascending;
    var names := SortKeys(moved.Keys);
    changes := [];
    assert names[0..] == names;
    for i := 0 to |names|
      invariant ChangesOf(m, names) == changes + ChangesOf(m, names[i..])
    {
      ListNext(m, all, moved, names, i);
      changes := changes + [moved[names[i]]];
    }
    ListNone(m, names);
    ListSkips(m, all, moved, names);
  }

  lemma ListNext(m: Mem, all: set<string>, moved: map<string, Change>, names: seq<string>, i: nat)
    requires Moves(m, all, moved) && i < |names| && names[i] in moved
    ensures ChangesOf(m, names[i..]) == [moved[names[i]]] + ChangesOf(m, names[i + 1..])
  {
    assert names[i..][0] == names[i] && names[i..][1..] == names[i + 1..];
  }

  lemma ListNone(m: Mem, names: seq<string>)
    ensures ChangesOf(m, names[|names|..]) == []
  {
  }

  lemma ListSkips(m: Mem, all: set<string>, moved: map<string, Change>, names: seq<string>)
    requires Moves(m, all, moved) && names == SortedKeys(moved.Keys)
    ensures ChangesOf(m, SortedKeys(all)) == ChangesOf(m, names)
  {
    hide ChangeOf;
    ChangesSkip(m, SortedKeys(all), names);
  }

  // Which of the reads a start of the daemon makes succeed.
  datatype Reads = Reads(records: bool, projects: bool, boot: bool)

  method RaiseAll(stored: Disk, loaded: map<string, Record>, order: seq<string>, writes: seq<Written>, id: string)
    returns (records: map<string, Record>, disk: Disk, ok: bool)
    requires forall n :: n in loaded ==> n in order
    ensures Raised(disk, ok) == Raise(stored, loaded, order, writes, id)
    ensures ok ==> records == AllRunning(loaded)
  {
    var ws;
    records, disk, ws := loaded, stored, writes;
    for i := 0 to |order|
      invariant Raise(stored, loaded, order, writes, id) == Raise(disk, loaded, order[i..], ws, id)
      invariant records == RunningUpTo(loaded, order[..i])
    {
      assert order[i..][0] == order[i] && order[i..][1..] == order[i + 1..];
      assert order[..i + 1] == order[..i] + [order[i]];
      if order[i] in records {
        var r := records[order[i]].(desired := DesiredRunning);
        assert r == loaded[order[i]].(desired := DesiredRunning);
        disk := Save(disk, r, Head(ws));
        if Head(ws) != Done { return records, disk, false; }
        RunningNext(loaded, order[..i], order[i]);
        records, ws := records[order[i] := r], Tail(ws);
      }
    }
    assert order[..|order|] == order && order[|order|..] == [];
    if Head(ws) != FailedBefore { disk := disk.(boot := id); }
    ok := Head(ws) == Done;
  }

  ghost function RunningUpTo(records: map<string, Record>, done: seq<string>): map<string, Record> {
    map n | n in records :: if n in done then records[n].(desired := DesiredRunning) else records[n]
  }

  lemma RunningNext(records: map<string, Record>, done: seq<string>, name: string)
    requires name in records
    ensures RunningUpTo(records, done + [name]) ==
            RunningUpTo(records, done)[name := records[name].(desired := DesiredRunning)]
  {
  }

  lemma {:induction false} ServeAllAppends(w: World, a: seq<Prim>, b: seq<Prim>)
    ensures ServeAll(w, a + b) == ServeAll(ServeAll(w, a), b)
    decreases |a|
  {
    if a == [] {
      assert a + b == b;
    } else {
      assert (a + b)[0] == a[0] && (a + b)[1..] == a[1..] + b;
      ServeAllAppends(ServeOne(w, a[0]), a[1..], b);
    }
  }

  lemma ServeNone(w: World)
    ensures ServeAll(w, []) == w
  {
  }

  lemma {:induction false} ServeAllAdds(w: World, ps: seq<Prim>, p: Prim)
    ensures ServeAll(w, ps + [p]) == ServeOne(ServeAll(w, ps), p)
    decreases |ps|
  {
    if ps == [] {
      assert [p][1..] == [];
    } else {
      assert (ps + [p])[1..] == ps[1..] + [p];
      ServeAllAdds(ServeOne(w, ps[0]), ps[1..], p);
    }
  }

  // Whether no container without the managed label holds a name of the specs.
  method Unmanaged(listed: seq<Container>, specs: seq<Spec>) returns (ok: bool)
    ensures ok <==> Unheld(listed, specs)
  {
    var held: map<string, Container> := map[];
    for i := 0 to |listed|
      invariant forall n :: n in held <==> exists j :: 0 <= j < i && !listed[j].managed && listed[j].name == n
    {
      if !listed[i].managed { held := held[listed[i].name := listed[i]]; }
    }
    for k := 0 to |specs|
      invariant Unheld(listed, specs[..k])
    {
      if specs[k].name in held { return false; }
    }
    return true;
  }

  // A record that is stored: the other files stay, and its own says what memory will.
  lemma SaveMirrors(d: Disk, records: map<string, Record>, r: Record, w: Written)
    ensures Save(d, r, w).records - {r.spec.name} == d.records - {r.spec.name} && Save(d, r, w).projects == d.projects
    ensures w == Done ==> Mirrors(Save(d, r, w).records, records[r.spec.name := r], r.spec.name)
  {
    hide Encode;
  }

  class Supervisor {
    const cfg: Config

    var records: map<string, Record>
    var track: map<string, Tracking>
    var observed: map<string, Container>
    var foreign: map<string, Container>
    var changed: map<string, nat>
    var seqno: nat
    var projects: map<string, Project>
    var lastPhase: map<string, Phase>

    // What is outside: the store's files, the API calls and engine outcomes to come, the
    // clock readings to come, and the engine calls made.
    var disk: Disk
    var windows: seq<Window>
    var clock: seq<Time>
    var log: seq<Issue>

    function View(): World
      reads this
    {
      World(Mem(records, track, observed, foreign, changed, seqno, projects, lastPhase), disk, windows, clock, log)
    }

    // The daemon comes up on what was loaded.
    constructor (cfg: Config, loaded: map<string, Record>, projects: map<string, Project>, disk: Disk)
      ensures this.cfg == cfg && View() == World(EMPTY.(records := loaded, projects := projects), disk, [], [], [])
    {
      this.cfg := cfg;
      records, this.projects, this.disk := loaded, projects, disk;
      track, observed, foreign, changed, seqno, lastPhase := map[], map[], map[], map[], 0, map[];
      windows, clock, log := [], [], [];
    }

    // Reads the store and, in a new boot, stores every record desired running, in the order
    // the records are ranged over, before recording the boot. A read that fails ends it with
    // nothing written.
    static method New(stored: Disk, read: Reads, id: string, bootTime: Time, order: seq<string>, writes: seq<Written>)
      returns (s: Supervisor?, disk: Disk)
      requires forall n :: n in Load(stored) ==> n in order
      ensures !(read.records && read.projects && read.boot) ==> s == null && disk == stored
      ensures read.records && read.projects && read.boot ==>
              match BootUp(stored, Boot(id, bootTime, order, writes))
              case Off(d) => s == null && disk == d
              case On(cfg, mem, d, _, _) =>
                s != null && fresh(s) && disk == d && s.cfg == cfg && s.View() == World(mem, d, [], [], [])
    {
      disk := stored;
      if !read.records { return null, disk; }
      var records := Load(stored);
      if !read.projects { return null, disk; }
      if !read.boot { return null, disk; }
      if NewBoot(stored, id) {
        var ok;
        records, disk, ok := RaiseAll(stored, records, order, writes, id);
        if !ok { return null, disk; }
      }
      s := new Supervisor(Config(bootTime), records, stored.projects, disk);
    }

    // The tracking of a container, made when it is missing.
    function Tr(name: string): Tracking
      reads this
    {
      if name in track then track[name] else FRESH
    }

    // ---- API calls ----

    method Touch(name: string)
      modifies this
      ensures View() == old(View()).(mem := Touched(old(View()).mem, name, old(records), old(track)))
    {
      seqno := seqno + 1;
      changed := changed[name := seqno];
    }

    // Declares one spec: how it is wanted is kept when its name was declared before.
    method Put(sp: Spec, w: Written) returns (ok: bool)
      modifies this
      ensures var r := Sections.Put(old(View()).mem, old(disk), sp, w);
              View() == old(View()).(mem := r.mem, disk := r.disk) && ok == r.ok == (w == Done)
      ensures Valid(sp) ==> View() == ServeOne(old(View()), PutRecord(sp, w))
      ensures projects == old(projects) && disk.projects == old(disk).projects
      ensures records == if ok then old(records)[sp.name := Declared(old(records), sp)] else old(records)
      ensures disk.records - {sp.name} == old(disk).records - {sp.name}
      ensures ok ==> Mirrors(disk.records, records, sp.name)
    {
      hide Encode, Valid, Save, Mirrors;
      var r := Record(sp, DesiredRunning);
      if sp.name in records { r := records[sp.name].(spec := sp); }
      SaveMirrors(disk, records, r, w);
      disk := Save(disk, r, w);
      if w != Done { return false; }
      records := records[sp.name := r];
      if sp.name in track && track[sp.name].phase == Fatal {
        track := track[sp.name := FORCED];
      }
      Touch(sp.name);
      return true;
    }

    method Delete(name: string, w: Written) returns (ok: bool)
      modifies this
      ensures View() == ServeOne(old(View()), DeleteRecord(name, w)) && ok == (w == Done)
      ensures projects == old(projects) && disk.projects == old(disk).projects
      ensures records == if ok then old(records) - {name} else old(records)
      ensures if ok then disk.records == old(disk).records - {name}
              else disk.records - {name} == old(disk).records - {name}
    {
      disk := Drop(disk, name, w);
      if w != Done { return false; }
      records := Without(records, name);
      track := Without(track, name);
      Touch(name);
      return true;
    }

    // Start and Stop.
    method SetDesired(name: string, desired: Desired, w: Written) returns (ok: bool)
      modifies this
      ensures var r := Desire(old(View()).mem, old(disk), name, desired, w);
              View() == old(View()).(mem := r.mem, disk := r.disk) && ok == r.ok
    {
      hide Encode, Save;
      if name !in records { return false; }
      var r := records[name];
      if r.desired != desired {
        r := r.(desired := desired);
        disk := Save(disk, r, w);
        if w != Done { return false; }
        records := records[name := r];
      }
      if desired == DesiredRunning {
        track := track[name := FORCED];
      }
      Touch(name);
      return true;
    }

    // The second half of Restart, once SetDesired has made the container desired running.
    method MarkRestart(name: string)
      modifies this
      ensures View() == ServeOne(old(View()), Prim.MarkRestart(name))
    {
      track := track[name := Tr(name).(restart := true)];
      Touch(name);
    }

    method Serve(p: Prim)
      modifies this
      ensures View() == ServeOne(old(View()), p)
    {
      match p
      case PutRecord(sp, w) => if Valid(sp) { var ok := Put(sp, w); }
      case DeleteRecord(name, w) => var ok := Delete(name, w);
      case SetDesired(name, desired, w) => var ok := SetDesired(name, desired, w);
      case MarkRestart(name) => MarkRestart(name);
      case SaveProject(project, p, w) =>
        var ok := StoreProject(project, p, w);
      case DropProject(project, w) =>
        var ok := RemoveProject(project, w);
    }

    method ServeWindow(ps: seq<Prim>)
      modifies this
      ensures View() == ServeAll(old(View()), ps)
    {
      for i := 0 to |ps|
        invariant ServeAll(old(View()), ps) == ServeAll(View(), ps[i..])
      {
        Serve(ps[i]);
        assert ps[i..][0] == ps[i] && ps[i..][1..] == ps[i + 1..];
      }
      assert ps[|ps|..] == [];
    }

    // ---- declaring projects ----

    // Removes the declarations a loop over the records picks out.
    method DeleteAll(victims: set<string>, writes: seq<Written>)
      returns (ok: bool, ws: seq<Written>, ghost calls: seq<Prim>)
      requires victims <= records.Keys
      modifies this
      ensures View() == ServeAll(old(View()), calls)
      ensures forall c :: c in calls ==> c.DeleteRecord? && c.name in victims
      ensures records - victims == old(records) - victims && disk.records - victims == old(disk).records - victims
      ensures projects == old(projects) && disk.projects == old(disk).projects
      ensures ok ==> records == old(records) - victims && disk.records == old(disk).records - victims
      ensures Succeeding(writes) ==> ok && Succeeding(ws)
    {
      hide View, ServeOne, ServeAll;
      ok, ws, calls := true, writes, [];
      ServeNone(View());
      var rest := victims;
      while rest != {}
        invariant rest <= victims && View() == ServeAll(old(View()), calls)
        invariant forall c :: c in calls ==> c.DeleteRecord? && c.name in victims
        invariant records == old(records) - (victims - rest)
        invariant disk.records == old(disk).records - (victims - rest)
        invariant projects == old(projects) && disk.projects == old(disk).projects
        invariant Succeeding(writes) ==> Succeeding(ws)
        decreases rest
      {
        var name :| name in rest;
        ServeAllAdds(old(View()), calls, DeleteRecord(name, Head(ws)));
        calls := calls + [DeleteRecord(name, Head(ws))];
        ghost var stored := disk.records;
        ok := Delete(name, Head(ws));
        DifferWithin(disk.records, stored, {name}, victims);
        if !ok { return; }
        rest, ws := rest - {name}, Tail(ws);
      }
    }

    // Stores the specs of a project one after another.
    method PutAll(specs: seq<Spec>, writes: seq<Written>) returns (ok: bool, ws: seq<Written>, ghost calls: seq<Prim>)
      requires forall i :: 0 <= i < |specs| ==> Valid(specs[i])
      requires forall i, j :: 0 <= i < j < |specs| ==> specs[i].name != specs[j].name
      modifies this
      ensures View() == ServeAll(old(View()), calls)
      ensures forall c :: c in calls ==> c.PutRecord? && c.spec in specs
      ensures records - Names(specs) == old(records) - Names(specs)
      ensures disk.records - Names(specs) == old(disk).records - Names(specs)
      ensures projects == old(projects) && disk.projects == old(disk).projects
      ensures ok ==> Holds(records, old(records), specs)
      ensures ok ==> forall n :: n in Names(specs) ==> Mirrors(disk.records, records, n)
      ensures Succeeding(writes) ==> ok && Succeeding(ws)
    {
      hide View, ServeOne, ServeAll, Valid, Encode;
      ok, ws, calls := true, writes, [];
      ServeNone(View());
      for i := 0 to |specs|
        invariant ok && View() == ServeAll(old(View()), calls)
        invariant forall c :: c in calls ==> c.PutRecord? && c.spec in specs
        invariant records - Names(specs) == old(records) - Names(specs)
        invariant disk.records - Names(specs) == old(disk).records - Names(specs)
        invariant forall j :: i <= j < |specs| ==> Get(records, specs[j].name) == Get(old(records), specs[j].name)
        invariant Holds(records, old(records), specs[..i])
        invariant forall j :: 0 <= j < i ==> Mirrors(disk.records, records, specs[j].name)
        invariant projects == old(projects) && disk.projects == old(disk).projects
        invariant Succeeding(writes) ==> Succeeding(ws)
      {
        var call := PutRecord(specs[i], Head(ws));
        ServeAllAdds(old(View()), calls, call);
        calls := calls + [call];
        ghost var stored, before := disk.records, records;
        ok := Put(specs[i], Head(ws));
        DifferWithin(disk.records, stored, {specs[i].name}, Names(specs));
        DifferWithin(records, before, {specs[i].name}, Names(specs));
        if !ok { return; }
        ws := Tail(ws);
      }
      assert specs[..|specs|] == specs;
    }

    method StoreProject(name: string, p: Project, w: Written) returns (ok: bool)
      modifies this
      ensures View() == ServeOne(old(View()), SaveProject(name, p, w)) && ok == (w == Done)
      ensures records == old(records) && disk.records == old(disk).records
      ensures projects == if ok then old(projects)[name := p] else old(projects)
      ensures if ok then disk.projects == old(disk).projects[name := p]
              else disk.projects - {name} == old(disk).projects - {name}
    {
      if w == Done { projects := projects[name := p]; }
      if w != FailedBefore { disk := disk.(projects := disk.projects[name := p]); }
      return w == Done;
    }

    method RemoveProject(name: string, w: Written) returns (ok: bool)
      modifies this
      ensures View() == ServeOne(old(View()), DropProject(name, w)) && ok == (w == Done)
      ensures records == old(records) && disk.records == old(disk).records
      ensures projects == if ok then old(projects) - {name} else old(projects)
      ensures if ok then disk.projects == old(disk).projects - {name}
              else disk.projects - {name} == old(disk).projects - {name}
    {
      if w == Done { projects := Without(projects, name); }
      if w != FailedBefore { disk := disk.(projects := Without(disk.projects, name)); }
      return w == Done;
    }

    // One project declared: its files, then its specs, then what is left of it is pruned.
    method Declare(name: string, p: Project, specs: seq<Spec>, writes: seq<Written>)
      returns (ok: bool, ws: seq<Written>, ghost calls: seq<Prim>)
      requires Translated(name, specs)
      modifies this
      ensures View() == ServeAll(old(View()), calls)
      ensures var mine := Names(specs) + ProjectOf(old(records), name);
              && records - mine == old(records) - mine
              && disk.records - mine == old(disk).records - mine
              && projects - {name} == old(projects) - {name}
              && disk.projects - {name} == old(disk).projects - {name}
              && (ok ==> forall n :: n in mine ==> Mirrors(disk.records, records, n))
      ensures ok ==> Replaces(records, old(records), name, specs)
      ensures ok ==> projects == old(projects)[name := p] && disk.projects == old(disk).projects[name := p]
      ensures Succeeding(writes) ==> ok && Succeeding(ws)
    {
      hide View, ServeOne, ServeAll, Valid, Mirrors, Replaces, Holds;
      ServeNone(View());
      ServeAllAdds(View(), [], SaveProject(name, p, Head(writes)));
      calls := [] + [SaveProject(name, p, Head(writes))];
      ws := Tail(writes);
      ok := StoreProject(name, p, Head(writes));
      if !ok { return; }
      ghost var more;
      ghost var mine := Names(specs) + ProjectOf(records, name);
      ok, ws, more := PutAll(specs, ws);
      ServeAllAppends(old(View()), calls, more);
      calls := calls + more;
      DifferWithin(records, old(records), Names(specs), mine);
      DifferWithin(disk.records, old(disk).records, Names(specs), mine);
      if !ok { return; }
      ghost var puts, stored := records, disk.records;
      var stale := set n | n in records && records[n].spec.project == name &&
                           forall i :: 0 <= i < |specs| ==> specs[i].name != n;
      assert stale == ProjectOf(puts, name) - Names(specs);
      PutThenPruned(puts - stale, puts, old(records), name, specs);
      ok, ws, more := DeleteAll(stale, ws);
      ServeAllAppends(old(View()), calls, more);
      calls := calls + more;
      DifferWithin(records, puts, stale, mine);
      DifferWithin(disk.records, stored, stale, mine);
      if ok { PrunedMirrors(puts, stored, Names(specs), stale); }
    }

    // Declares one project, unless its file was refused, the listing failed, or a name of it
    // is held by a container nothing manages or declared by another project.
    method PutProject(name: string, p: Project, loaded: Option<seq<Spec>>, listed: Option<seq<Container>>,
                      writes: seq<Written>)
      returns (refused: bool, ok: bool, ghost calls: seq<Prim>)
      requires loaded.Some? ==> Translated(name, loaded.value)
      modifies this
      ensures refused <==>
              loaded.None? || listed.None? || !Unheld(listed.value, loaded.value) ||
                !Free(old(records), name, loaded.value)
      ensures View() == ServeAll(old(View()), calls)
      ensures refused ==> !ok && View() == old(View())
      ensures !refused ==>
                var mine := Names(loaded.value) + ProjectOf(old(records), name);
                && records - mine == old(records) - mine
                && disk.records - mine == old(disk).records - mine
                && projects - {name} == old(projects) - {name}
                && (ok ==> forall n :: n in mine ==> Mirrors(disk.records, records, n))
      ensures ok ==> Replaces(records, old(records), name, loaded.value) && projects == old(projects)[name := p]
      ensures !refused && Succeeding(writes) ==> ok
    {
      hide View, ServeOne, ServeAll, Valid, Encode;
      ServeNone(View());
      refused, ok, calls := true, false, [];
      if loaded.None? || listed.None? { return; }
      var unheld := Unmanaged(listed.value, loaded.value);
      if !unheld { return; }
      for i := 0 to |loaded.value|
        invariant Free(records, name, loaded.value[..i])
      {
        var sp := loaded.value[i];
        if sp.name in records && records[sp.name].spec.project != name { return; }
      }
      refused := false;
      var ws;
      ok, ws, calls := Declare(name, p, loaded.value, writes);
    }

    // Removes a project's records and its files.
    method DeleteProject(name: string, writes: seq<Written>) returns (found: bool, ok: bool, ghost calls: seq<Prim>)
      modifies this
      ensures found <==> name in old(projects) || ProjectOf(old(records), name) != {}
      ensures View() == ServeAll(old(View()), calls)
      ensures !found ==> !ok && View() == old(View())
      ensures var mine := ProjectOf(old(records), name);
              && records - mine == old(records) - mine && disk.records - mine == old(disk).records - mine
              && (ok ==> records == old(records) - mine && disk.records == old(disk).records - mine)
      ensures ok ==> projects == old(projects) - {name} && disk.projects == old(disk).projects - {name}
      ensures found && Succeeding(writes) ==> ok
    {
      hide View, ServeOne, ServeAll;
      ServeNone(View());
      var victims := set n | n in records && records[n].spec.project == name;
      assert victims == ProjectOf(records, name);
      found, calls := name in projects || victims != {}, [];
      if !found { return false, false, []; }
      var ws;
      ok, ws, calls := DeleteAll(victims, writes);
      if !ok { return; }
      ServeAllAdds(old(View()), calls, DropProject(name, Head(ws)));
      calls := calls + [DropProject(name, Head(ws))];
      ok := RemoveProject(name, Head(ws));
    }

    // Drops the projects a set no longer has.
    method DropAll(victims: set<string>, writes: seq<Written>)
      returns (ok: bool, ws: seq<Written>, ghost calls: seq<Prim>)
      requires victims <= projects.Keys
      modifies this
      ensures View() == ServeAll(old(View()), calls)
      ensures records == old(records) && disk.records == old(disk).records
      ensures ok ==> projects == old(projects) - victims && disk.projects == old(disk).projects - victims
      ensures Succeeding(writes) ==> ok && Succeeding(ws)
    {
      hide View, ServeOne, ServeAll;
      ok, ws, calls := true, writes, [];
      ServeNone(View());
      var rest := victims;
      while rest != {}
        invariant rest <= victims && View() == ServeAll(old(View()), calls)
        invariant records == old(records) && disk.records == old(disk).records
        invariant projects == old(projects) - (victims - rest)
        invariant disk.projects == old(disk).projects - (victims - rest)
        invariant Succeeding(writes) ==> Succeeding(ws)
        decreases rest
      {
        var name :| name in rest;
        ServeAllAdds(old(View()), calls, DropProject(name, Head(ws)));
        calls := calls + [DropProject(name, Head(ws))];
        ok := RemoveProject(name, Head(ws));
        if !ok { return; }
        rest, ws := rest - {name}, Tail(ws);
      }
    }

    // Declares each project of a set in turn.
    method DeclareAll(files: map<string, Project>, loads: Loads, ghost owners: map<string, string>,
                      ghost before: map<string, Record>, writes: seq<Written>)
      returns (ok: bool, ghost calls: seq<Prim>)
      requires loads.Keys == files.Keys && AllTranslated(loads) && Owned(loads, owners)
      requires Midway(records, before, loads, owners, {}) && projects.Keys <= files.Keys
      requires forall n :: n in before && n !in owners ==> Mirrors(disk.records, records, n)
      modifies this
      ensures View() == ServeAll(old(View()), calls)
      ensures ok ==> Exactly(records, before, loads) && projects == files
      ensures ok ==> forall n :: n in owners || n in before ==> Mirrors(disk.records, records, n)
      ensures ok ==> disk.projects == Refiled(old(disk).projects, files, files.Keys)
      ensures Succeeding(writes) ==> ok
    {
      hide Refiled, View, ServeOne, ServeAll, Valid, Encode, Translated, AllTranslated, Owned, Midway, Replaces,
           Names, Ascending, Mirrors;
      var names := SortKeys(files.Keys);
      var ws := writes;
      ghost var done: set<string> := {};
      ok, calls := true, [];
      ServeNone(View());
      RefiledNone(projects, files);
      RefiledNone(disk.projects, files);
      for i := 0 to |names|
        invariant ok && View() == ServeAll(old(View()), calls)
        invariant forall p :: p in done <==> p in names[..i]
        invariant Midway(records, before, loads, owners, done)
        invariant forall n :: n in before && n !in owners ==> Mirrors(disk.records, records, n)
        invariant forall n :: n in owners && owners[n] in done ==> Mirrors(disk.records, records, n)
        invariant projects == Refiled(old(projects), files, done)
        invariant disk.projects == Refiled(old(disk).projects, files, done)
        invariant Succeeding(writes) ==> Succeeding(ws)
      {
        var p := names[i];
        NotBefore(names, i);
        assert p in files;
        ghost var was, stored := records, disk.records;
        ghost var more;
        TranslatedAt(loads, p);
        ok, ws, more := Declare(p, files[p], loads[p], ws);
        ServeAllAppends(old(View()), calls, more);
        calls := calls + more;
        if !ok { return; }
        DeclareNext(records, was, before, loads, owners, done, p);
        RefiledNext(old(projects), files, done, p);
        RefiledNext(old(disk).projects, files, done, p);
        MirrorsNext(records, was, disk.records, stored, before, loads, owners, done, p);
        done := done + {p};
        assert names[..i + 1] == names[..i] + [p];
      }
      assert names[..|names|] == names;
      assert done == files.Keys;
      RefiledAll(old(projects), files);
      MidwayEnds(records, before, loads, owners, done);
    }

    // Declares exactly the projects of a set. A file refused, a container in two projects, a
    // failed listing or a name held by a container nothing manages refuses the set.
    method PutProjects(files: map<string, Project>, attempts: Attempts, listed: Option<seq<Container>>,
                       writes: seq<Written>)
      returns (refused: bool, ok: bool, ghost calls: seq<Prim>)
      requires attempts.Keys == files.Keys && AllTranslated(Loaded(attempts))
      modifies this
      ensures refused <==>
              !AllLoaded(attempts) || !Apart(Loaded(attempts)) || listed.None? || Held(listed.value, Loaded(attempts))
      ensures View() == ServeAll(old(View()), calls)
      ensures refused ==> !ok && View() == old(View())
      ensures ok ==> Exactly(records, old(records), Loaded(attempts)) && projects == files
      ensures ok ==> forall n :: n in records || n in old(records) ==> Mirrors(disk.records, records, n)
      ensures ok ==> forall p :: p in files || p in old(projects) ==> Get(disk.projects, p) == Get(files, p)
      ensures !refused && Succeeding(writes) ==> ok
    {
      hide View, ServeOne, ServeAll, Valid, Encode, AllTranslated, Translated, Apart, Mirrors, Exactly, Names, Held,
           Unheld;
      ServeNone(View());
      refused, ok, calls := true, false, [];
      var fits, owners, all := Collect(attempts);
      if !fits || listed.None? { return; }
      HeldByName(listed.value, Loaded(attempts), owners, all);
      var unheld := Unmanaged(listed.value, all);
      if !unheld { return; }
      refused := false;
      ghost var before := records;
      var stale := set n | n in records && (n !in owners || owners[n] != records[n].spec.project);
      var ws;
      ok, ws, calls := DeleteAll(stale, writes);
      if !ok { return; }
      MidwayStarts(records, before, Loaded(attempts), owners, stale, disk.records);
      ghost var more;
      ok, ws, more := DropAll(projects.Keys - files.Keys, ws);
      ServeAllAppends(old(View()), calls, more);
      calls := calls + more;
      if !ok { return; }
      ok, more := DeclareAll(files, Loaded(attempts), owners, before, ws);
      ServeAllAppends(old(View()), calls, more);
      calls := calls + more;
      if ok { ExactlyOwned(records, before, Loaded(attempts), owners); }
    }

    // An engine call without the lock: whether no API call changed the name meanwhile.
    method Unlocked(name: string, call: Call) returns (current: bool, o: Outcome)
      modifies this
      ensures View() == Release(old(View()), Issue(name, call)) && o == NextWindow(old(View())).o
      ensures current <==> Changed(View().mem, name) == Changed(old(View()).mem, name)
    {
      var seen := if name in changed then changed[name] else 0;
      var w := NextWindow(View());
      windows, log := Later(windows), log + [Issue(name, call)];
      ServeWindow(w.api);
      o := w.o;
      current := (if name in changed then changed[name] else 0) == seen;
    }

    method Now() returns (now: Time)
      modifies this
      ensures View() == Passes.Tick(old(View())) && now == NextTime(old(View()))
    {
      now := NextTime(View());
      if |clock| > 1 { clock := clock[1..]; }
    }

    // ---- a pass ----

    // Whatever its windows hold, one pass over the listing, and what it publishes. A listing
    // that fails changes nothing.
    method Pass(listing: Option<seq<Container>>) returns (failed: bool, due: Time, changes: seq<Change>)
      modifies this
      ensures failed <==> listing.None?
      ensures failed ==> View() == old(View()) && due == ZERO && changes == []
      ensures !failed ==> Ended(View(), due) == PassOf(old(View()), cfg, listing.value)
      ensures !failed ==> IsFirst(due, DeadlinesOf(old(View()), cfg, listing.value))
      ensures !failed ==> changes == Changes(Unnetworked(Handled(old(View()), cfg, listing.value).world).mem)
    {
      hide ServeAll, ReconcileAll, ObserveAll, Changes, Phases, SortedKeys, IsFirst;
      if listing.Some? { PassDueIsFirst(View(), cfg, listing.value); }
      if listing.None? { return true, ZERO, []; }
      failed := false;
      observed, foreign := map[], map[];
      SortOut(listing.value);
      var names := SortKeys(records.Keys);
      due := ReconcileEach(names);
      var w := NextWindow(View());
      windows := Later(windows);
      ServeWindow(w.api);
      changes := Publish();
    }

    method SortOut(listed: seq<Container>)
      modifies this
      ensures View() == ObserveAll(old(View()), listed)
    {
      for i := 0 to |listed|
        invariant ObserveAll(old(View()), listed) == ObserveAll(View(), listed[i..])
      {
        var c := listed[i];
        if !c.managed {
          foreign := foreign[c.name := c];
        } else if c.name !in records {
          var current, o := Unlocked(c.name, CallRemove);
        } else {
          observed := observed[c.name := c];
        }
        assert listed[i..][0] == c && listed[i..][1..] == listed[i + 1..];
      }
      assert listed[|listed|..] == [];
    }

    method ReconcileEach(names: seq<string>) returns (due: Time)
      modifies this
      ensures Ended(View(), due) == ReconcileAll(old(View()), cfg, names, ZERO)
    {
      due := ZERO;
      for i := 0 to |names|
        invariant ReconcileAll(old(View()), cfg, names, ZERO) == ReconcileAll(View(), cfg, names[i..], due)
      {
        assert names[i..][0] == names[i] && names[i..][1..] == names[i + 1..];
        if names[i] in records {
          var at := Reconcile(names[i]);
          due := Sooner(due, at);
        }
      }
      assert names[|names|..] == [];
    }

    // The phases that moved since the last publication, in the order of their names.
    method Publish() returns (changes: seq<Change>)
      modifies this`lastPhase
      ensures lastPhase == Phases(old(View()).mem)
      ensures changes == Changes(old(View()).mem)
    {
      hide PhaseOf, ChangesOf, ChangeOf, ServeAll;
      ghost var m := View().mem;
      var moved := PublishDeclared();
      var gone := PublishDeleted(m);
      changes := ListChanges(m, moved + gone, records.Keys + m.lastPhase.Keys);
    }

    method PublishDeclared() returns (moved: map<string, Change>)
      modifies this`lastPhase
      ensures Moves(old(View()).mem, records.Keys, moved)
      ensures lastPhase.Keys == old(lastPhase).Keys + records.Keys
      ensures forall n :: n in records ==> lastPhase[n] == PhaseOf(old(View()).mem, n)
    {
      hide Moves, PhaseOf, ChangeOf;
      ghost var m := View().mem;
      moved := map[];
      MovesNone(m);
      var rest := records.Keys;
      assert records.Keys - rest == {};
      while rest != {}
        modifies this`lastPhase
        invariant rest <= records.Keys && Moves(m, records.Keys - rest, moved)
        invariant lastPhase.Keys == m.lastPhase.Keys + (records.Keys - rest)
        invariant forall n :: n in rest ==> Get(lastPhase, n) == Get(m.lastPhase, n)
        invariant forall n :: n in records && n !in rest ==> lastPhase[n] == PhaseOf(m, n)
        decreases rest
      {
        var name :| name in rest;
        MovesMore(m, records.Keys - rest, moved, name);
        assert records.Keys - rest + {name} == records.Keys - (rest - {name});
        rest := rest - {name};
        var change := PublishOne(m, name);
        if change.Some? { moved := moved[name := change.value]; }
      }
      assert records.Keys - rest == records.Keys;
    }

    method PublishOne(ghost m: Mem, name: string) returns (change: Option<Change>)
      requires name in records && m == View().mem.(lastPhase := m.lastPhase)
      requires Get(lastPhase, name) == Get(m.lastPhase, name)
      modifies this`lastPhase
      ensures lastPhase == old(lastPhase)[name := PhaseOf(m, name)]
      ensures ChangeOf(m, name) == if change.Some? then [change.value] else []
    {
      var phase := PhaseNow(name);
      if name in lastPhase && lastPhase[name] == phase { return None; }
      lastPhase := lastPhase[name := phase];
      return Some(Change(name, Some(phase), Some(records[name].desired), ExitCodeOf(name)));
    }

    // The phase and exit code a status reports.
    function PhaseNow(name: string): (p: Phase)
      reads this
      ensures p == PhaseOf(View().mem, name)
    {
      if name in track && track[name].phase != NoPhase then track[name].phase else Stopped
    }

    function ExitCodeOf(name: string): int
      reads this
    {
      if name in observed then observed[name].exitCode else 0
    }

    method PublishDeleted(ghost m: Mem) returns (gone: map<string, Change>)
      requires records == m.records && lastPhase.Keys == m.lastPhase.Keys + records.Keys
      requires forall n :: n in records ==> lastPhase[n] == PhaseOf(m, n)
      modifies this`lastPhase
      ensures Moves(m, m.lastPhase.Keys - records.Keys, gone)
      ensures lastPhase == Phases(m)
    {
      gone := map[];
      var rest := lastPhase.Keys - records.Keys;
      ghost var all := rest;
      while rest != {}
        modifies this`lastPhase
        invariant rest <= all && Moves(m, all - rest, gone)
        invariant lastPhase.Keys == records.Keys + rest
        invariant forall n :: n in records ==> lastPhase[n] == PhaseOf(m, n)
        decreases rest
      {
        var name :| name in rest;
        rest := rest - {name};
        lastPhase := Without(lastPhase, name);
        gone := gone[name := Change(name, None, None, 0)];
      }
      assert all == m.lastPhase.Keys - records.Keys;
    }

    method Reconcile(name: string) returns (due: Time)
      requires name in records
      modifies this
      ensures Ended(View(), due) == ReconcileOne(old(View()), cfg, name)
    {
      var now := Now();
      var x := Ctx(name, records[name], Get(observed, name), now);
      if x.c.Some? && x.c.value.specLabel != Some(Digest(x.rec.spec)) {
        due := Recreate(x);
      } else {
        due := Act(x, Tr(name));
      }
    }

    // A container whose declaration changed is removed, then made anew.
    method Recreate(x: Ctx) returns (due: Time)
      modifies this
      ensures Ended(View(), due) ==
              Continue(old(View()), cfg, x, Section(Track(old(View()).mem, x.name), Ask(Why.Recreate, x)))
    {
      hide Judge, ServeAll, Digest, Launched, Checked, Sections.Start, NextWindow;
      track := track[x.name := Tr(x.name)];
      var current, o := Unlocked(x.name, CallRemove);
      if !current { return ZERO; }
      ghost var w, m := View(), Freed(View().mem, Why.Recreate, x, o);
      ghost var sec := Resume(m, cfg, Why.Recreate, x, o);
      if o.error.Some? {
        ContinueOver(w, cfg, x, sec.track, ZERO);
        track := track[x.name := Tr(x.name).(err := EngineFailed(o.error.value))];
        return ZERO;
      }
      observed := Without(observed, x.name);
      var t := Tr(x.name);
      if x.rec.desired == DesiredRunning && !t.force { t := FORCED; }
      var y := x.(c := None);
      JudgeAgain(w.(mem := m), cfg, x, t);
      due := Act(y, t);
    }

    // Reconcile once the container is known to be of the declaration.
    method Act(x: Ctx, t0: Tracking) returns (due: Time)
      modifies this
      ensures Ended(View(), due) == Continue(old(View()), cfg, x, Judge(old(View()).mem, cfg, x, t0))
    {
      var t := t0;
      if x.rec.desired == DesiredStopped {
        due := StopDeclared(x, t);
      } else if Up(x.c) && t.restart {
        due := Restart(x, t);
      } else {
        t := t.(restart := false);
        if Up(x.c) {
          due := ObserveRunning(x, t);
        } else {
          t := t.(health := NoHealth, failures := 0, healthRun := ZERO);
          due := Decide(x, t);
        }
      }
    }

    method StopDeclared(x: Ctx, t: Tracking) returns (due: Time)
      requires x.rec.desired == DesiredStopped
      modifies this
      ensures Ended(View(), due) == Continue(old(View()), cfg, x, Judge(old(View()).mem, cfg, x, t))
    {
      if Up(x.c) {
        track := track[x.name := t];
        var current, o := Unlocked(x.name, CallStop);
        if !current { return ZERO; }
        if o.error.Some? {
          track := track[x.name := Tr(x.name).(err := EngineFailed(o.error.value))];
          return ZERO;
        }
      }
      track := track[x.name := FRESH.(phase := Stopped, handledExit := if x.c.Some? then x.c.value.exitedAt else ZERO)];
      return ZERO;
    }

    method Restart(x: Ctx, t: Tracking) returns (due: Time)
      requires x.rec.desired == DesiredRunning && Up(x.c) && t.restart
      modifies this
      ensures Ended(View(), due) == Continue(old(View()), cfg, x, Judge(old(View()).mem, cfg, x, t))
    {
      track := track[x.name := t];
      var current, o := Unlocked(x.name, CallStop);
      if !current { return ZERO; }
      if o.error.Some? {
        track := track[x.name := Tr(x.name).(err := EngineFailed(o.error.value))];
        return ZERO;
      }
      due := Start(x, Tr(x.name).(restart := false));
    }

    // A launch, unless the name is taken or a dependency is not ready.
    method Start(x: Ctx, t: Tracking) returns (due: Time)
      modifies this
      ensures Ended(View(), due) == Continue(old(View()), cfg, x, Sections.Start(old(View()).mem, x, t))
    {
      hide ServeAll, Resume, Unready, Judge;
      if x.name in foreign && x.c.None? {
        track := track[x.name := t.(phase := Waiting, err := HeldBy(foreign[x.name].id))];
        return ZERO;
      }
      track := track[x.name := t];
      var waiting := Unready(View().mem, Elems(x.rec.spec.dependsOn));
      if waiting.Some? {
        track := track[x.name := t.(phase := Waiting, err := waiting.value)];
        return x.now + SECOND;
      }
      assert track[x.name := t] == track;
      due := DoLaunch(x, t);
    }

    method DoLaunch(x: Ctx, t: Tracking) returns (due: Time)
      modifies this
      ensures Ended(View(), due) == Continue(old(View()), cfg, x, Section(t, Ask(Launch, x)))
    {
      track := track[x.name := t];
      var current, o := Unlocked(x.name, CallOf(Launch, x));
      if !current { return ZERO; }
      var u;
      u, due := RecordLaunch(Tr(x.name), x, o);
      track := track[x.name := u];
    }

    // A running container: confirmed once it has run long enough, and checked when due.
    method ObserveRunning(x: Ctx, t0: Tracking) returns (due: Time)
      requires x.c.Some?
      modifies this
      ensures Ended(View(), due) == Continue(old(View()), cfg, x, Observe(x, t0.(restart := false)))
    {
      hide ServeAll, NextWindow, Checked, Attached, NormalHealth, Changed;
      var t := t0.(restart := false, force := false, err := NoNote);
      var next := ZERO;
      var confirmed := x.c.value.startedAt + START_CONFIRM;
      if x.now < confirmed {
        t, next := t.(phase := Starting), confirmed;
      } else {
        t := t.(phase := Running);
      }
      if x.rec.spec.health.Some? {
        var at, current := Health(x, t);
        if !current { return ZERO; }
        if next == ZERO || at < next { next := at; }
      } else {
        track := track[x.name := t];
      }
      return next;
    }

    // Runs the health check when it is due.
    method Health(x: Ctx, t0: Tracking) returns (at: Time, current: bool)
      requires x.c.Some? && x.rec.spec.health.Some?
      modifies this
      ensures var v, w := Attached(t0, x), Keep(old(View()), x.name, Attached(t0, x));
              if x.now < v.nextHealth then View() == w && at == v.nextHealth && current
              else
                var w2 := Release(w, Issue(x.name, CallCheck));
                if Changed(w2.mem, x.name) != Changed(w.mem, x.name) then View() == w2 && !current
                else
                  var u := Checked(Track(w2.mem, x.name), NormalHealth(x.rec.spec.health.value), x, NextWindow(w).o);
                  View() == Keep(w2, x.name, u) && at == u.nextHealth && current
    {
      var h := NormalHealth(x.rec.spec.health.value);
      var t := t0;
      if t.healthRun != x.c.value.startedAt {
        t := t.(healthRun := x.c.value.startedAt, health := HealthStarting, failures := 0);
        t := t.(nextHealth := x.c.value.startedAt + START_CONFIRM);
      }
      track := track[x.name := t];
      if x.now < t.nextHealth { return t.nextHealth, true; }
      var o;
      current, o := Unlocked(x.name, CallCheck);
      if !current { return ZERO, false; }
      var u := RecordCheck(Tr(x.name), h, x, o);
      track := track[x.name := u];
      return u.nextHealth, true;
    }

    // A container that is not running: started for the first time in this boot, waited
    // with, left as it is, or judged by its last exit.
    method Decide(x: Ctx, t: Tracking) returns (due: Time)
      modifies this
      ensures Ended(View(), due) == Continue(old(View()), cfg, x, JudgeDown(old(View()).mem, cfg, x, t))
    {
      hide ServeAll, JudgeExit, Resume, Sections.Start, NextWindow;
      if t.force || x.c.None? || x.c.value.startedAt == ZERO || x.c.value.startedAt < cfg.bootTime {
        if !t.force && t.phase == Fatal {
          track := track[x.name := t];
          return ZERO;
        }
        if !t.force && t.phase == Backoff && x.now < t.nextAttempt {
          track := track[x.name := t];
          return t.nextAttempt;
        }
        var u := t;
        if t.force || t.phase == NoPhase || t.phase == Stopped { u := FRESH; }
        due := Start(x, u);
      } else if t.phase == Fatal || (t.phase == Exited && x.c.value.exitedAt == t.handledExit) {
        track := track[x.name := t];
        return ZERO;
      } else if t.phase == Waiting && x.c.value.exitedAt == t.handledExit {
        due := Start(x, t);
      } else if t.phase == Backoff && x.c.value.exitedAt == t.handledExit {
        if x.now < t.nextAttempt {
          track := track[x.name := t];
          return t.nextAttempt;
        }
        due := Start(x, t);
      } else {
        due := DecideExit(x, t);
      }
    }

    // An exit not yet decided on.
    method DecideExit(x: Ctx, t0: Tracking) returns (due: Time)
      requires x.c.Some?
      modifies this
      ensures Ended(View(), due) == Continue(old(View()), cfg, x, JudgeExit(old(View()).mem, x, t0))
    {
      hide ServeAll, Tallied, Gap, Resume, Sections.Start, NextWindow;
      var t, n := TallyExit(x, t0);
      if t.phase != Backoff {
        track := track[x.name := t];
        return ZERO;
      }
      t := t.(nextAttempt := x.now + Gap(n));
      if x.now < t.nextAttempt {
        track := track[x.name := t];
        return t.nextAttempt;
      }
      due := Start(x, t);
    }
  }
}
