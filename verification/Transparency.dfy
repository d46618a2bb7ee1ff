// A restart of the daemon is not seen by the containers: what it decides from the store and
// the engine alone is what it had decided, exactly when the hash survives the store.
module Transparency {
  import opened Basics
  import opened Specs
  import opened Sections
  import opened Machine
  import opened Interference
  import opened Stops
  import Looks

  // The container stands as the declaration wants it: running, or stopped by request, or
  // stopped on its own in this boot and left so by the policy.
  ghost predicate Stands(cfg: Config, r: Record, c: Container) {
    if r.desired == DesiredStopped then !c.Running()
    else
      c.Running() ||
      (c.startedAt != ZERO && c.startedAt >= cfg.bootTime && !Looks.RestartedBy(r.spec.restart.policy, c.exitCode))
  }

  // The engine is asked for nothing but a health check.
  ghost predicate Quiet(c: Ctl) { c.Ask? ==> c.why == Check }

  // Of a container that stands as declared, nothing known but the facts: reconcile leaves it
  // alone exactly when it was created from a spec with this hash.
  lemma FactsDecide(m: Mem, cfg: Config, x: Ctx)
    requires x.c.Some? && Stands(cfg, x.rec, x.c.value) && Track(m, x.name) == FRESH
    ensures Quiet(Begin(m, cfg, x).ctl) <==> x.c.value.specLabel == Some(Digest(x.rec.spec))
    ensures !Quiet(Begin(m, cfg, x).ctl) ==> Begin(m, cfg, x).ctl == Ask(Recreate, x)
    ensures Quiet(Begin(m, cfg, x).ctl) && x.rec.desired == DesiredRunning && !x.c.value.Running() ==>
              Begin(m, cfg, x).track.phase == Exited && Begin(m, cfg, x).ctl == Over(ZERO)
  {
  }

  // What the daemon loads in the boot it was restarted in.
  lemma Restarted(s: Sys, st: Step, name: string)
    requires s.On? && ValidRecords(s) && name in s.mem.records
    requires Get(s.disk.records, name) == Some(Saved(Encode(s.mem.records[name].spec), s.mem.records[name].desired))
    requires CanBoot(s.disk, st) && !NewBoot(s.disk, st.id)
    ensures var t := Run(s, [Crash, st]);
            && t.On? && t.pc.Idle? && Inv(t) && Track(t.mem, name) == FRESH && t.cfg == Config(st.bootTime)
            && Get(t.mem.records, name) ==
               Some(Record(Reloaded(s.mem.records[name].spec), s.mem.records[name].desired))
  {
    var sp := s.mem.records[name].spec;
    SavedIsLoadable(sp, s.mem.records[name].desired);
    RestartLoads(s, st);
  }

  // A container created from a stored declaration and standing as declared: after a crash
  // and a start in the same boot, the first pass that comes to it, whatever API calls on
  // other names fall in between, asks the engine for nothing but a health check, exactly
  // when the hash of its spec is stable.
  lemma RestartIsTransparent(s: Sys, boot: Step, steps: seq<Step>, name: string, c: Container, now: Time)
    requires s.On? && ValidRecords(s) && name in s.mem.records
    requires Get(s.disk.records, name) == Some(Saved(Encode(s.mem.records[name].spec), s.mem.records[name].desired))
    requires CanBoot(s.disk, boot) && !NewBoot(s.disk, boot.id)
    requires c.specLabel == Some(Digest(s.mem.records[name].spec))
    requires Stands(Config(boot.bootTime), s.mem.records[name], c)
    requires Leaves(Run(s, [Crash, boot]), steps, name)
    requires var t := Run(Run(s, [Crash, boot]), steps);
             Picks(t, Pick(now), name) && Get(t.mem.observed, name) == Some(c)
    ensures var t := Run(Run(s, [Crash, boot]), steps);
            var i := Issued(t, Pick(now));
            && (i == None || i == Some(Issue(name, CallCheck)) <==> HashStable(s.mem.records[name].spec))
            && (i == None || i == Some(Issue(name, CallCheck)) || i == Some(Issue(name, CallRemove)))
  {
    Restarted(s, boot, name);
    var s0 := Run(s, [Crash, boot]);
    OvertakenStoresNothing(s0, steps, name);
    var t := Run(s0, steps);
    assert Get(t.mem.records, name) == Get(s0.mem.records, name);
    assert Track(t.mem, name) == FRESH;
    PickDecides(t, name, c, now, s.mem.records[name]);
    HashSurvivesReload(s.mem.records[name].spec);
  }

  lemma PickDecides(t: Sys, name: string, c: Container, now: Time, r: Record)
    requires t.On? && Picks(t, Pick(now), name) && Get(t.mem.observed, name) == Some(c) && Track(t.mem, name) == FRESH
    requires Get(t.mem.records, name) == Some(Record(Reloaded(r.spec), r.desired))
    requires c.specLabel == Some(Digest(r.spec)) && Stands(t.cfg, r, c)
    ensures var i := Issued(t, Pick(now));
            if Digest(r.spec) == Digest(Reloaded(r.spec)) then i == None || i == Some(Issue(name, CallCheck))
            else i == Some(Issue(name, CallRemove))
  {
    var x := Context(t.mem, name, now);
    assert Stands(t.cfg, x.rec, c);
    FactsDecide(t.mem, t.cfg, x);
    BeginAsks(t.mem, t.cfg, x);
    hide Begin, Digest, Reloaded, Stands;
  }
}
