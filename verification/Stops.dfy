// A stop holds over whole runs, across passes, redeclarations, crashes and daemon starts
// of the same boot; a new boot raises every record, however often it is cut short.
module Stops {
  import opened Basics
  import opened Specs
  import opened Sections
  import opened Machine
  import opened Interference

  lemma EncodeDecode(d: Stored)
    ensures Encode(Decode(d)) == d
  {
  }

  // Every record in memory would be loaded back from the disk.
  ghost predicate ValidRecords(s: Sys) {
    s.On? ==> forall n :: n in s.mem.records ==> s.mem.records[n].spec.name == n && Valid(s.mem.records[n].spec)
  }

  lemma ApplyKeepsValid(m: Mem, d: Disk, p: Prim)
    requires forall n :: n in m.records ==> m.records[n].spec.name == n && Valid(m.records[n].spec)
    ensures var r := Apply(m, d, p).mem.records;
            forall n :: n in r ==> r[n].spec.name == n && Valid(r[n].spec)
  {
    hide Verdict, Encode, Save;
  }

  lemma DoKeepsValid(s: Sys, st: Step)
    requires ValidRecords(s)
    ensures ValidRecords(Do(s, st))
  {
    hide Verdict, Apply, Raise, PickNext, FinishCall, ObserveNext, Locked, Close;
    if s.On? && !st.Api? { PassKeepsDeclarations(s, st); }
    match st
    case Api(p) => if s.On? { ApplyKeepsValid(s.mem, s.disk, p); }
    case _ =>
  }

  lemma {:induction false} RunKeepsValid(s: Sys, steps: seq<Step>)
    requires ValidRecords(s)
    ensures ValidRecords(Run(s, steps))
    decreases |steps|
  {
    if steps != [] {
      DoKeepsValid(s, steps[0]);
      RunKeepsValid(Do(s, steps[0]), steps[1..]);
    }
  }

  // ---- a stop that holds ----

  ghost predicate DiskStopped(d: Disk, name: string) {
    name in d.records && d.records[name].desired == DesiredStopped && Loadable(name, d.records[name])
  }

  // Stopped in memory and on disk, and no pass in flight means to start it.
  ghost predicate Held(s: Sys, name: string) {
    && Inv(s) && DiskStopped(s.disk, name)
    && (s.On? ==>
          && name in s.mem.records && s.mem.records[name].desired == DesiredStopped
          && (s.pc.Awaiting? && s.pc.ctx.name == name ==>
                Changed(s.mem, name) != s.pc.seen || s.pc.ctx.rec.desired == DesiredStopped))
  }

  // What ends a stop: a start (or the start a restart begins with), a removal, a new boot.
  ghost predicate EndsStop(s: Sys, st: Step, name: string) {
    || (st.Api? && st.p.SetDesired? && st.p.name == name && st.p.desired == DesiredRunning)
    || (st.Api? && st.p.DeleteRecord? && st.p.name == name)
    || (s.Off? && st.Boot? && NewBoot(s.disk, st.id))
  }

  lemma SavedIsLoadable(sp: Spec, desired: Desired)
    requires Valid(sp)
    ensures Loadable(sp.name, Saved(Encode(sp), desired))
  {
    ReloadedKeeps(sp);
  }

  lemma ApplyKeepsHeld(m: Mem, d: Disk, p: Prim, name: string)
    requires Declared(m) && DiskStopped(d, name)
    requires name in m.records && m.records[name].desired == DesiredStopped
    requires !(p.SetDesired? && p.name == name && p.desired == DesiredRunning)
    requires !(p.DeleteRecord? && p.name == name)
    ensures var r := Apply(m, d, p);
            && DiskStopped(r.disk, name)
            && name in r.mem.records && r.mem.records[name].desired == DesiredStopped
  {
    hide Loadable, Valid, Put, Desire;
    match p
    case PutRecord(sp, w) => if Valid(sp) { PutKeepsHeld(m, d, sp, w, name); }
    case DeleteRecord(_, _) =>
    case SetDesired(n, desired, w) => DesireKeepsHeld(m, d, n, desired, w, name);
    case _ =>
  }

  lemma PutKeepsHeld(m: Mem, d: Disk, sp: Spec, w: Written, name: string)
    requires Valid(sp) && DiskStopped(d, name) && name in m.records && m.records[name].desired == DesiredStopped
    ensures var r := Put(m, d, sp, w);
            DiskStopped(r.disk, name) && name in r.mem.records && r.mem.records[name].desired == DesiredStopped
  {
    hide Loadable, Encode, Valid;
    if sp.name == name { SavedIsLoadable(sp, DesiredStopped); }
  }

  lemma DesireKeepsHeld(m: Mem, d: Disk, n: string, desired: Desired, w: Written, name: string)
    requires Declared(m) && DiskStopped(d, name) && name in m.records && m.records[name].desired == DesiredStopped
    requires n == name ==> desired == DesiredStopped
    ensures var r := Desire(m, d, n, desired, w);
            DiskStopped(r.disk, name) && name in r.mem.records && r.mem.records[name].desired == DesiredStopped
  {
    hide Loadable, Encode;
  }

  lemma ServeKeepsHeld(s: Sys, p: Prim, name: string)
    requires Held(s, name) && s.On? && !EndsStop(s, Api(p), name)
    ensures Held(Serve(s, p), name)
  {
    ServeKeepsInv(s, p);
    ApplyKeepsHeld(s.mem, s.disk, p, name);
    ApplyTouches(s.mem, s.disk, p, name);
  }

  lemma PickKeepsHeld(s: Sys, now: Time, name: string)
    requires Held(s, name) && s.On? && s.pc.Reconciling?
    ensures Held(PickNext(s, now), name)
  {
    PickKeepsInv(s, now);
    if s.pc.names != [] && s.pc.names[0] in s.mem.records {
      BeginAsks(s.mem, s.cfg, Context(s.mem, s.pc.names[0], now));
    }
  }

  lemma FinishKeepsHeld(s: Sys, o: Outcome, name: string)
    requires Held(s, name) && s.On? && s.pc.Awaiting?
    ensures Held(FinishCall(s, o), name)
  {
    hide Resume, Asked, Loadable;
    FinishKeepsInv(s, o);
    if Changed(s.mem, s.pc.ctx.name) == s.pc.seen {
      ResumeAsks(Freed(s.mem, s.pc.why, s.pc.ctx, o), s.cfg, s.pc.why, s.pc.ctx, o);
    }
  }

  lemma BootKeepsHeld(s: Sys, st: Step, name: string)
    requires Held(s, name) && s.Off? && st.Boot? && !NewBoot(s.disk, st.id)
    ensures Held(BootUp(s.disk, st), name)
  {
    BootKeepsInv(s.disk, st);
    assert Load(s.disk)[name].desired == DesiredStopped;
  }

  lemma DoKeepsHeld(s: Sys, st: Step, name: string)
    requires Held(s, name) && !EndsStop(s, st, name)
    ensures Held(Do(s, st), name)
  {
    DoKeepsInv(s, st);
    if s.On? && !st.Api? { PassKeepsDeclarations(s, st); }
    match st
    case Boot(_, _, _, _) => if s.Off? { BootKeepsHeld(s, st, name); }
    case Api(p) => if s.On? { ServeKeepsHeld(s, p, name); }
    case Pick(now) => if s.On? && s.pc.Reconciling? { PickKeepsHeld(s, now, name); }
    case Finish(o) => if s.On? && s.pc.Awaiting? { FinishKeepsHeld(s, o, name); }
    case _ =>
  }

  // No start of name begins in a held state.
  lemma HeldIssuesNoStart(s: Sys, st: Step, name: string)
    requires Held(s, name)
    ensures !IsStart(Issued(s, st), name)
  {
    hide PickNext, FinishCall, ObserveNext, DiskStopped;
    IssueIsCurrent(s, st);
    if st.Pick? || st.Finish? { DoKeepsHeld(s, st, name); }
  }

  ghost predicate StopUndisturbed(s: Sys, steps: seq<Step>, name: string)
    decreases |steps|
  {
    steps == [] || (!EndsStop(s, steps[0], name) && StopUndisturbed(Do(s, steps[0]), steps[1..], name))
  }

  lemma {:induction false} HeldStays(s: Sys, steps: seq<Step>, name: string)
    requires Held(s, name) && StopUndisturbed(s, steps, name)
    ensures Held(Run(s, steps), name)
    decreases |steps|
  {
    if steps != [] {
      DoKeepsHeld(s, steps[0], name);
      HeldStays(Do(s, steps[0]), steps[1..], name);
    }
  }

  // Once Stop returned without error, no start of the container begins in any run until
  // something ends the stop: provided the stop was written, or the disk says stopped.
  lemma AStopHolds(disk: Disk, before: seq<Step>, name: string, w: Written, steps: seq<Step>, st: Step)
    requires var s := Run(Off(disk), before);
             && s.On? && LockFree(s.pc) && Apply(s.mem, s.disk, SetDesired(name, DesiredStopped, w)).ok
             && (s.mem.records[name].desired == DesiredRunning || DiskStopped(s.disk, name))
             && StopUndisturbed(Do(s, Api(SetDesired(name, DesiredStopped, w))), steps, name)
    ensures var s := Run(Off(disk), before + [Api(SetDesired(name, DesiredStopped, w))] + steps);
            !IsStart(Issued(s, st), name) && Held(s, name)
  {
    var s, p := Run(Off(disk), before), SetDesired(name, DesiredStopped, w);
    RunKeepsInv(Off(disk), before);
    RunKeepsValid(Off(disk), before);
    StopIsHeld(s, p, name, w);
    RunThrough(Off(disk), before, Api(p), steps);
    var t := Do(s, Api(p));
    HeldStays(t, steps, name);
    HeldIssuesNoStart(Run(t, steps), st, name);
  }

  lemma InvDeclares(s: Sys)
    requires Inv(s) && s.On?
    ensures Declared(s.mem) && (s.pc.Awaiting? ==> Holds(s.mem, s.pc))
  {
  }

  lemma StopIsHeld(s: Sys, p: Prim, name: string, w: Written)
    requires Inv(s) && ValidRecords(s) && s.On? && LockFree(s.pc) && p == SetDesired(name, DesiredStopped, w)
    requires Apply(s.mem, s.disk, p).ok
    requires s.mem.records[name].desired == DesiredRunning || DiskStopped(s.disk, name)
    ensures Held(Do(s, Api(p)), name)
  {
    hide Inv, Encode, Valid, Loadable;
    DoKeepsInv(s, Api(p));
    InvDeclares(s);
    ApplyTouches(s.mem, s.disk, p, name);
    SavedIsLoadable(s.mem.records[name].spec, DesiredStopped);
  }

  // A start of the daemon in the same boot, or where the boot is not known, writes nothing and
  // takes every record that carries its name and is valid as it is stored, and the projects; of
  // no container is anything known.
  lemma RestartLoads(s: Sys, st: Step)
    requires CanBoot(s.disk, st) && (st.id == "" || s.disk.boot == st.id)
    ensures var t := Run(s, [Crash, st]);
            && t.On? && t.pc.Idle? && t.cfg == Config(st.bootTime) && Inv(t) && t.disk == s.disk
            && t.mem == EMPTY.(records := Load(s.disk), projects := s.disk.projects) && t.published == []
    ensures var d, l := s.disk.records, Load(s.disk);
            && (forall n :: n in l <==> n in d && d[n].spec.name == n && Valid(Decode(d[n].spec)))
            && (forall n :: n in l ==> l[n] == Record(Decode(d[n].spec), d[n].desired))
  {
    hide Inv, Load, Valid, Decode, Do;
    CrashLeaves(s);
    var b := Do(s, Crash);
    BootsAgain(s.disk, st);
    assert Run(s, [Crash, st]) == Run(b, [st]) == Run(Do(b, st), []);
    BootKeepsInv(s.disk, st);
    LoadsWhat(s.disk);
  }

  lemma BootsAgain(d: Disk, st: Step)
    requires CanBoot(d, st) && (st.id == "" || d.boot == st.id)
    ensures Do(Off(d), st) == BootUp(d, st) ==
            On(Config(st.bootTime), EMPTY.(records := Load(d), projects := d.projects), d, Idle, [])
  {
    hide Load;
  }

  lemma LoadsWhat(d: Disk)
    ensures forall n :: n in Load(d) <==>
              n in d.records && d.records[n].spec.name == n && Valid(Decode(d.records[n].spec))
    ensures forall n :: n in Load(d) ==> Load(d)[n] == Record(Decode(d.records[n].spec), d.records[n].desired)
  {
    hide Valid, Decode;
  }

  ghost predicate DesiredRunningIn(s: Sys, name: string) {
    s.On? && name in s.mem.records && s.mem.records[name].desired == DesiredRunning
  }

  // In no run that nothing ends the stop in does the container become desired running.
  ghost predicate StopLasts(s: Sys, name: string) {
    forall steps :: StopUndisturbed(s, steps, name) ==> !DesiredRunningIn(Run(s, steps), name)
  }

  // Exactly when an accepted stop lasts: it was written, because the supervisor held the
  // container as running, or the disk said stopped already. Otherwise a restart of the daemon
  // in the same boot, or one and a redeclaration, makes the container desired running.
  lemma AStopLastsIff(s: Sys, name: string, w: Written)
    requires Inv(s) && ValidRecords(s) && s.On? && LockFree(s.pc)
    requires Apply(s.mem, s.disk, SetDesired(name, DesiredStopped, w)).ok
    ensures StopLasts(Do(s, Api(SetDesired(name, DesiredStopped, w))), name) <==>
              s.mem.records[name].desired == DesiredRunning || DiskStopped(s.disk, name)
  {
    var p := SetDesired(name, DesiredStopped, w);
    var t := Do(s, Api(p));
    if s.mem.records[name].desired == DesiredRunning || DiskStopped(s.disk, name) {
      StopIsHeld(s, p, name, w);
      forall steps | StopUndisturbed(t, steps, name) ensures !DesiredRunningIn(Run(t, steps), name) {
        HeldStays(t, steps, name);
      }
    } else {
      StopWritesNothing(s, name, w);
      var steps := LosesStop(t, name, s.mem.records[name].spec);
      assert DesiredRunningIn(Run(t, steps), name);
    }
  }

  lemma StopWritesNothing(s: Sys, name: string, w: Written)
    requires s.On? && LockFree(s.pc) && name in s.mem.records && s.mem.records[name].desired == DesiredStopped
    ensures Do(s, Api(SetDesired(name, DesiredStopped, w))).On?
    ensures Do(s, Api(SetDesired(name, DesiredStopped, w))).disk == s.disk
  {
    hide Save;
  }

  // What the disk does not say is stopped comes back running, if it comes back.
  lemma LoadsRunning(d: Disk, name: string)
    requires !DiskStopped(d, name)
    ensures name in Load(d) ==> Load(d)[name].desired == DesiredRunning
  {
  }

  // The run that loses a stop the disk does not hold.
  lemma LosesStop(t: Sys, name: string, sp: Spec) returns (steps: seq<Step>)
    requires t.On? && !DiskStopped(t.disk, name) && Valid(sp) && sp.name == name
    ensures StopUndisturbed(t, steps, name) && DesiredRunningIn(Run(t, steps), name)
  {
    hide Load, DiskStopped, Valid, Encode, Apply, StopUndisturbed, Run;
    var boot := Boot(t.disk.boot, 0, SortedKeys(Load(t.disk).Keys), []);
    LoadsRunning(t.disk, name);
    RestartLoads(t, boot);
    RestartUndisturbed(t, boot, name);
    steps := [Crash, boot];
    if name !in Load(t.disk) {
      var u := Run(t, steps);
      RunAppend(t, steps, [Api(PutRecord(sp, Done))]);
      RedeclaredRuns(u, sp);
      UndisturbedThen(t, steps, Api(PutRecord(sp, Done)), name);
      steps := steps + [Api(PutRecord(sp, Done))];
    }
  }

  lemma RestartUndisturbed(t: Sys, boot: Step, name: string)
    requires t.On? && boot.Boot? && boot.id == t.disk.boot
    ensures StopUndisturbed(t, [Crash, boot], name)
  {
    hide Do;
    CrashLeaves(t);
    assert [Crash, boot][1..] == [boot] && [boot][1..] == [];
    assert !EndsStop(t, Crash, name) && !EndsStop(Off(t.disk), boot, name);
    assert StopUndisturbed(Do(Off(t.disk), boot), [], name);
    assert StopUndisturbed(Off(t.disk), [boot], name);
  }

  lemma CrashLeaves(t: Sys)
    ensures Do(t, Crash) == Off(t.disk)
  {
  }

  lemma RedeclaredRuns(u: Sys, sp: Spec)
    requires u.On? && u.pc.Idle? && sp.name !in u.mem.records && Valid(sp)
    ensures DesiredRunningIn(Run(u, [Api(PutRecord(sp, Done))]), sp.name)
  {
    hide Valid, Encode;
    var st := Api(PutRecord(sp, Done));
    assert [st][1..] == [];
    assert Run(Do(u, st), []) == Do(u, st);
  }

  lemma {:induction false} UndisturbedThen(s: Sys, a: seq<Step>, st: Step, name: string)
    requires StopUndisturbed(s, a, name) && !EndsStop(Run(s, a), st, name)
    ensures StopUndisturbed(s, a + [st], name)
    decreases |a|
  {
    hide Do;
    if a == [] {
      assert [st][1..] == [];
    } else {
      assert (a + [st])[0] == a[0] && (a + [st])[1..] == a[1..] + [st];
      UndisturbedThen(Do(s, a[0]), a[1..], st, name);
    }
  }

  const NODISK := Disk(map[], map[], "")

  // Such a run: a stop, a start whose write takes effect but is refused, a stop that
  // returns without error, a crash, and the same boot again.
  function LosingRun(name: string, sp: Spec): seq<Step> {
    [Boot("b", 0, [], []), Api(PutRecord(sp, Done)), Api(SetDesired(name, DesiredStopped, Done)),
     Api(SetDesired(name, DesiredRunning, FailedAfter)), Api(SetDesired(name, DesiredStopped, Done)),
     Crash, Boot("b", 0, [name], []), ListStep([]), Lock, ObserveStep]
  }

  // A run is its first step and then the rest.
  lemma RunStep(s: Sys, steps: seq<Step>)
    requires steps != []
    ensures Run(s, steps) == Run(Do(s, steps[0]), steps[1..])
  {
  }

  lemma AStopCanBeLost(sp: Spec)
    requires Valid(sp) && Elems(sp.dependsOn) == []
    ensures var s := Run(Off(NODISK), LosingRun(sp.name, sp));
            Issued(s, Pick(0)) == Some(Issue(sp.name, CallRun))
    ensures var s := Run(Off(NODISK), LosingRun(sp.name, sp)[..4]);
            s.On? && Apply(s.mem, s.disk, SetDesired(sp.name, DesiredStopped, Done)).ok
  {
    hide Do, Apply, Encode, Valid, Issued, Run;
    var r := LosingRun(sp.name, sp);
    ARefusedStart(sp);
    var s4 := Run(Off(NODISK), r[..4]);
    assert r == r[..4] + [r[4]] + r[5..];
    RunThrough(Off(NODISK), r[..4], r[4], r[5..]);
    StopAccepted(s4.mem, s4.disk, sp.name);
    StopWritesNothing(s4, sp.name, Done);
    LostAfterwards(Do(s4, r[4]), sp);
  }

  lemma FirstBoot()
    ensures var s := Do(Off(NODISK), Boot("b", 0, [], []));
            s.On? && s.pc.Idle? && s.cfg == Config(0) && s.mem == EMPTY && s.disk == NODISK.(boot := "b")
  {
    assert Load(NODISK) == map[];
  }

  lemma ServeIdle(s: Sys, p: Prim)
    requires s.On? && s.pc.Idle?
    ensures Do(s, Api(p)) == s.(mem := Apply(s.mem, s.disk, p).mem, disk := Apply(s.mem, s.disk, p).disk)
  {
    hide Apply;
  }

  lemma PutDone(m: Mem, d: Disk, sp: Spec)
    requires Valid(sp) && m.records == map[] && d.records == map[]
    ensures var r := Apply(m, d, PutRecord(sp, Done));
            && r.mem.records == map[sp.name := Record(sp, DesiredRunning)]
            && (m.track == map[] ==> r.mem.track == map[])
            && r.disk == d.(records := map[sp.name := Saved(Encode(sp), DesiredRunning)])
  {
    hide Encode, Valid;
  }

  // A container's desired state changed, the store's answer given.
  lemma DesireChanged(m: Mem, d: Disk, r: Record, desired: Desired, w: Written)
    requires m.records == map[r.spec.name := r] && d.records.Keys == {r.spec.name} && r.desired != desired
    requires w != FailedBefore
    ensures var a := Apply(m, d, SetDesired(r.spec.name, desired, w));
            && a.mem.records == (if w == Done then map[r.spec.name := r.(desired := desired)] else m.records)
            && a.disk == d.(records := map[r.spec.name := Saved(Encode(r.spec), desired)])
  {
    hide Encode;
  }

  // A declaration, from nothing.
  function DeclaringRun(sp: Spec): seq<Step> { [Boot("b", 0, [], []), Api(PutRecord(sp, Done))] }

  lemma ADeclared(sp: Spec)
    requires Valid(sp)
    ensures var s := Run(Off(NODISK), DeclaringRun(sp));
            && s.On? && s.pc.Idle? && s.cfg == Config(0)
            && s.mem.records == map[sp.name := Record(sp, DesiredRunning)] && s.mem.track == map[]
            && s.disk.records == map[sp.name := Saved(Encode(sp), DesiredRunning)] && s.disk.boot == "b"
  {
    hide Do, Encode, Apply, Valid;
    var r := DeclaringRun(sp);
    var s1 := Do(Off(NODISK), r[0]);
    FirstBoot();
    ServeIdle(s1, PutRecord(sp, Done));
    PutDone(s1.mem, s1.disk, sp);
    RunStep(Off(NODISK), r);
    RunStep(s1, [r[1]]);
  }

  // A stopped declaration, from nothing.
  lemma AStopped(sp: Spec)
    requires Valid(sp)
    ensures var s := Run(Off(NODISK), LosingRun(sp.name, sp)[..3]);
            && s.On? && s.pc.Idle? && s.mem.records == map[sp.name := Record(sp, DesiredStopped)]
            && s.disk.records == map[sp.name := Saved(Encode(sp), DesiredStopped)] && s.disk.boot == "b"
  {
    hide Do, Encode, Apply, Valid;
    var r := LosingRun(sp.name, sp);
    ADeclared(sp);
    var s2 := Run(Off(NODISK), DeclaringRun(sp));
    ServeIdle(s2, SetDesired(sp.name, DesiredStopped, Done));
    DesireChanged(s2.mem, s2.disk, Record(sp, DesiredRunning), DesiredStopped, Done);
    assert r[..3] == DeclaringRun(sp) + [r[2]] + [];
    RunThrough(Off(NODISK), DeclaringRun(sp), r[2], []);
  }

  lemma ARefusedStart(sp: Spec)
    requires Valid(sp)
    ensures var s := Run(Off(NODISK), LosingRun(sp.name, sp)[..4]);
            && s.On? && s.pc.Idle? && s.mem.records == map[sp.name := Record(sp, DesiredStopped)]
            && s.disk.records == map[sp.name := Saved(Encode(sp), DesiredRunning)] && s.disk.boot == "b"
  {
    hide Do, Encode, Apply;
    var r := LosingRun(sp.name, sp);
    AStopped(sp);
    var s3 := Run(Off(NODISK), r[..3]);
    ServeIdle(s3, SetDesired(sp.name, DesiredRunning, FailedAfter));
    DesireChanged(s3.mem, s3.disk, Record(sp, DesiredStopped), DesiredRunning, FailedAfter);
    assert r[..4] == r[..3] + [r[3]] + [];
    RunThrough(Off(NODISK), r[..3], r[3], []);
  }

  // A removal that took effect but was refused leaves a stop the disk does not hold: a second
  // Stop is accepted, and does not last.
  lemma ARefusedRemovalLosesAStop(sp: Spec)
    requires Valid(sp)
    ensures var r, again := LosingRun(sp.name, sp), SetDesired(sp.name, DesiredStopped, Done);
            var s := Run(Off(NODISK), r[..3] + [Api(DeleteRecord(sp.name, FailedAfter))]);
            && s.On? && LockFree(s.pc) && Apply(s.mem, s.disk, again).ok && !StopLasts(Do(s, Api(again)), sp.name)
  {
    hide Do, Encode, Apply, Valid, StopLasts;
    var r, p := LosingRun(sp.name, sp), DeleteRecord(sp.name, FailedAfter);
    AStopped(sp);
    var s3 := Run(Off(NODISK), r[..3]);
    ServeIdle(s3, p);
    RemovalRefused(s3.mem, s3.disk, sp);
    assert r[..3] + [Api(p)] == r[..3] + [Api(p)] + [];
    RunThrough(Off(NODISK), r[..3], Api(p), []);
    var s := Do(s3, Api(p));
    RunKeepsInv(Off(NODISK), r[..3] + [Api(p)]);
    RunKeepsValid(Off(NODISK), r[..3] + [Api(p)]);
    StopAccepted(s.mem, s.disk, sp.name);
    AStopLastsIff(s, sp.name, Done);
  }

  lemma RemovalRefused(m: Mem, d: Disk, sp: Spec)
    requires m.records == map[sp.name := Record(sp, DesiredStopped)] && d.records.Keys == {sp.name}
    ensures var a := Apply(m, d, DeleteRecord(sp.name, FailedAfter));
            !a.ok && a.mem == m && a.disk.records == map[]
  {
  }

  lemma StopAccepted(m: Mem, d: Disk, name: string)
    requires name in m.records && m.records[name].desired == DesiredStopped
    ensures Apply(m, d, SetDesired(name, DesiredStopped, Done)).ok
  {
  }

  lemma LostAfterwards(s: Sys, sp: Spec)
    requires s.On? && Valid(sp) && Elems(sp.dependsOn) == []
    requires s.disk.records == map[sp.name := Saved(Encode(sp), DesiredRunning)] && s.disk.boot == "b"
    ensures Issued(Run(s, LosingRun(sp.name, sp)[5..]), Pick(0)) == Some(Issue(sp.name, CallRun))
  {
    hide Encode, Decode, Valid, PickNext;
    var r := LosingRun(sp.name, sp);
    LoadsOne(s.disk, sp);
    RestartLoads(s, r[6]);
    AFirstPassStarts(Run(s, [Crash, r[6]]), sp.name);
    RunAppend(s, [Crash, r[6]], [ListStep([]), Lock, ObserveStep]);
    assert r[5..] == [Crash, r[6]] + [ListStep([]), Lock, ObserveStep];
  }

  lemma LoadsOne(d: Disk, sp: Spec)
    requires Valid(sp) && d.records == map[sp.name := Saved(Encode(sp), DesiredRunning)]
    ensures Load(d) == map[sp.name := Record(Reloaded(sp), DesiredRunning)]
    ensures Elems(Reloaded(sp).dependsOn) == Elems(sp.dependsOn)
  {
    hide Loadable, Valid;
    SavedIsLoadable(sp, DesiredRunning);
    ElemsOmitted(Elems(sp.dependsOn));
  }

  // One declaration, desired running and waiting for nothing: the first pass that finds no
  // container of it runs it.
  lemma AFirstPassStarts(s: Sys, name: string)
    requires s.On? && s.pc.Idle? && s.mem.track == map[] && s.mem.records.Keys == {name}
    requires s.mem.records[name].desired == DesiredRunning && Elems(s.mem.records[name].spec.dependsOn) == []
    ensures Issued(Run(s, [ListStep([]), Lock, ObserveStep]), Pick(0)) == Some(Issue(name, CallRun))
  {
    hide Begin, Run;
    var s3 := s.(mem := s.mem.(observed := map[], foreign := map[]), pc := Reconciling([], [name]));
    AnEmptyListing(s, name);
    var x := Context(s3.mem, name, 0);
    LaunchesAtOnce(s3, name, x);
  }

  lemma AnEmptyListing(s: Sys, name: string)
    requires s.On? && s.pc.Idle? && s.mem.records.Keys == {name}
    ensures Run(s, [ListStep([]), Lock, ObserveStep]) ==
            s.(mem := s.mem.(observed := map[], foreign := map[]), pc := Reconciling([], [name]))
  {
    RunStep(s, [ListStep([]), Lock, ObserveStep]);
    var s1 := s.(pc := Listed([]));
    RunStep(s1, [Lock, ObserveStep]);
    RunStep(Locked(s1), [ObserveStep]);
    AscendingUnique(SortedKeys({name}), [name]);
  }

  lemma LaunchesAtOnce(s: Sys, name: string, x: Ctx)
    requires s.On? && s.mem.track == map[] && s.mem.observed == map[] && s.mem.foreign == map[] && name in s.mem.records
    requires s.mem.records[name].desired == DesiredRunning && Elems(s.mem.records[name].spec.dependsOn) == []
    requires x == Context(s.mem, name, 0)
    ensures Begin(s.mem, s.cfg, x) == Section(FRESH, Ask(Launch, x))
  {
    hide Digest, Tallied, Observe;
  }

  // ---- a new boot ----

  // d is d0 with some loadable records raised to running.
  ghost predicate Rises(d0: Disk, d: Disk) {
    && d.records.Keys == d0.records.Keys && d.projects == d0.projects
    && (forall n :: n in d.records ==>
          d.records[n].spec == d0.records[n].spec &&
          (d.records[n] == d0.records[n] || (d.records[n].desired == DesiredRunning && Loadable(n, d0.records[n]))))
  }

  ghost predicate AllRaised(d: Disk) {
    forall n :: n in d.records && Loadable(n, d.records[n]) ==> d.records[n].desired == DesiredRunning
  }

  lemma RaisesOne(d0: Disk, d: Disk, name: string)
    requires Rises(d0, d) && name in d0.records && Loadable(name, d0.records[name])
    ensures Rises(d0, d.(records := d.records[name := d0.records[name].(desired := DesiredRunning)]))
  {
    hide Loadable;
  }

  lemma SaveRises(d0: Disk, d: Disk, name: string, w: Written)
    requires Rises(d0, d) && name in Load(d0)
    ensures var d1 := Save(d, Load(d0)[name].(desired := DesiredRunning), w);
            && Rises(d0, d1) && d1.boot == d.boot
            && (forall n :: n != name && n in d.records ==> d1.records[n] == d.records[n])
            && (w != FailedBefore ==> d1.records[name].desired == DesiredRunning)
  {
    hide Load, Loadable, Encode, Valid;
    RaisedRecord(d0, name);
    var v := d0.records[name].(desired := DesiredRunning);
    RaisesOne(d0, d, name);
    hide Rises;
    assert Save(d, Load(d0)[name].(desired := DesiredRunning), w) ==
           if w == FailedBefore then d else d.(records := d.records[name := v]);
  }

  lemma RaisedRecord(d: Disk, name: string)
    requires name in Load(d)
    ensures Load(d)[name].spec.name == name && name in d.records
    ensures Saved(Encode(Load(d)[name].spec), DesiredRunning) == d.records[name].(desired := DesiredRunning)
    ensures name in d.records && Loadable(name, d.records[name])
  {
    EncodeDecode(d.records[name].spec);
  }

  lemma {:induction false} RaiseRises(d0: Disk, d: Disk, order: seq<string>, ws: seq<Written>, id: string)
    requires Rises(d0, d)
    requires forall n :: n in d.records && Loadable(n, d.records[n]) && n !in order ==>
             d.records[n].desired == DesiredRunning
    ensures var r := Raise(d, Load(d0), order, ws, id);
            && Rises(d0, r.disk) && (r.disk.boot == d.boot || (r.disk.boot == id && AllRaised(r.disk)))
            && (r.ok ==> r.disk.boot == id && AllRaised(r.disk))
    decreases |order|
  {
    hide Valid, Encode, Decode, Save;
    if order == [] {
    } else if order[0] !in Load(d0) {
      RaiseRises(d0, d, order[1..], ws, id);
    } else {
      var n := order[0];
      var d1 := Save(d, Load(d0)[n].(desired := DesiredRunning), Head(ws));
      SaveRises(d0, d, n, Head(ws));
      if Head(ws) == Done { RaiseRises(d0, d1, order[1..], Tail(ws), id); }
    }
  }

  // Starts of the daemon one after the other, each on the disk the last one left.
  ghost function Attempts(s: Sys, tries: seq<Step>): Sys
    decreases |tries|
  {
    if tries == [] then s else Attempts(Do(Off(s.disk), tries[0]), tries[1..])
  }

  // Raising keeps what can be loaded, and all of it is running once all is raised.
  lemma RisesLoads(d0: Disk, d: Disk)
    requires Rises(d0, d)
    ensures Load(d).Keys == Load(d0).Keys && d.projects == d0.projects
    ensures AllRaised(d) ==> forall n :: n in Load(d) ==> Load(d)[n].desired == DesiredRunning
  {
    hide Valid, Decode;
    assert forall n :: n in Load(d) <==> n in Load(d0);
  }

  lemma RisesFromItself(d: Disk)
    ensures Rises(d, d)
    ensures forall n :: n in d.records && Loadable(n, d.records[n]) ==> n in Load(d)
  {
  }

  lemma RisesOn(d0: Disk, d: Disk, d1: Disk)
    requires Rises(d0, d) && Rises(d, d1)
    ensures Rises(d0, d1)
  {
    hide Valid, Decode;
  }

  lemma BootRises(d0: Disk, d: Disk, st: Step)
    requires st.Boot? && Rises(d0, d) && CanBoot(d0, st) && st.id != ""
    requires d.boot == st.id ==> AllRaised(d)
    ensures var s := Do(Off(d), st);
            && Rises(d0, s.disk) && (s.disk.boot == d.boot || s.disk.boot == st.id)
            && (s.disk.boot == st.id ==> AllRaised(s.disk))
            && (s.On? ==> s.disk.boot == st.id && s.mem.records.Keys == Load(d0).Keys &&
                          s.mem.projects == d0.projects &&
                          forall n :: n in s.mem.records ==> s.mem.records[n].desired == DesiredRunning)
  {
    hide Loadable, Load, Raise, Rises, AllRaised, Decode;
    RisesLoads(d0, d);
    if NewBoot(d, st.id) {
      RisesFromItself(d);
      RaiseRises(d, d, st.order, st.ws, st.id);
      RisesOn(d0, d, Raise(d, Load(d), st.order, st.ws, st.id).disk);
    }
  }

  // However often the daemon's first start in a boot is cut short or fails, the start that
  // succeeds has every record it could load desired running, and the boot on record, so
  // that no later start in this boot raises anything again.
  lemma {:induction false} ABootIsCompleted(d0: Disk, s: Sys, tries: seq<Step>, id: string)
    requires id != "" && Rises(d0, s.disk) && (s.disk.boot == id ==> AllRaised(s.disk))
    requires forall i :: 0 <= i < |tries| ==> tries[i].Boot? && tries[i].id == id && CanBoot(d0, tries[i])
    ensures var t := Attempts(s, tries);
            && Rises(d0, t.disk) && (t.disk.boot == id ==> AllRaised(t.disk))
            && (tries != [] && t.On? ==>
                  && t.disk.boot == id && t.mem.records.Keys == Load(d0).Keys && t.mem.projects == d0.projects
                  && forall n :: n in t.mem.records ==> t.mem.records[n].desired == DesiredRunning)
    decreases |tries|
  {
    if tries != [] {
      BootRises(d0, s.disk, tries[0]);
      var s1 := Do(Off(s.disk), tries[0]);
      assert forall i :: 0 <= i < |tries[1..]| ==> tries[1..][i] == tries[i + 1];
      ABootIsCompleted(d0, s1, tries[1..], id);
      if |tries| == 1 { assert Attempts(s1, tries[1..]) == s1; }
    }
  }
}
