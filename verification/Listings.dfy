// What a pass knows of one name: the container its listing showed under it, or that it showed
// none, until reconcile comes to the name.
module Listings {
  import opened Basics
  import opened Specs
  import opened Sections
  import opened Machine
  import opened Interference

  // As created from the declaration, and not running.
  ghost predicate DownAsDeclared(r: Record, c: Container) {
    c.specLabel == Some(Digest(r.spec)) && !c.Running()
  }

  // A managed container of this name, if there is one.
  ghost predicate Named(name: string, c: Option<Container>) {
    c.Some? ==> c.value.name == name && c.value.managed
  }

  // The listing shows this container under the name, and no other managed one.
  ghost predicate Exhibits(l: seq<Container>, name: string, c: Option<Container>) {
    && (forall i :: 0 <= i < |l| && l[i].name == name && l[i].managed ==> Some(l[i]) == c)
    && (c.Some? ==> c.value in l)
  }

  // What is observed of the name, with the rest of the listing, shows it.
  ghost predicate Shows(m: Mem, rest: seq<Container>, name: string, c: Option<Container>) {
    && (forall i :: 0 <= i < |rest| && rest[i].name == name && rest[i].managed ==> Some(rest[i]) == c)
    && (name in m.observed ==> Some(m.observed[name]) == c)
    && (c.Some? ==> name in m.observed || c.value in rest)
  }

  // The pass in flight, if one is, was shown it, and has it when it comes to the name.
  ghost predicate Showing(s: Sys, name: string, c: Option<Container>) {
    s.On? ==>
      match s.pc
      case Listed(l) => Exhibits(l, name, c)
      case Observing(_, rest) => Shows(s.mem, rest, name, c)
      case Removing(_, _, rest) => Shows(s.mem, rest, name, c)
      case Reconciling(_, names) => Ascending(names) && (name in names ==> Get(s.mem.observed, name) == c)
      case Awaiting(_, _, x, _, names) =>
        Ascending(names) && (name in names ==> Get(s.mem.observed, name) == c && x.name != name)
      case _ => true
  }

  lemma HeadOnce(names: seq<string>)
    requires Ascending(names) && names != []
    ensures names[0] !in names[1..] && Ascending(names[1..])
  {
    LessTotal(names[0], names[0]);
  }

  lemma ObserveShows(s: Sys, name: string, c: Option<Container>)
    requires s.On? && s.pc.Observing? && Named(name, c) && name in s.mem.records && Showing(s, name, c)
    ensures Showing(ObserveNext(s), name, c)
  {
    if s.pc.rest != [] {
      var rest := s.pc.rest;
      assert forall i :: 0 <= i < |rest[1..]| ==> rest[1..][i] == rest[i + 1];
      if c.Some? && c.value in rest && rest[0] != c.value { assert c.value in rest[1..]; }
    }
  }

  lemma PickShows(s: Sys, now: Time, name: string, c: Option<Container>)
    requires s.On? && s.pc.Reconciling? && Showing(s, name, c)
    ensures Showing(PickNext(s, now), name, c)
  {
    hide Begin;
    if s.pc.names != [] {
      HeadOnce(s.pc.names);
      if s.pc.names[0] in s.mem.records { PickAsks(s, now); }
    }
  }

  lemma PickAsks(s: Sys, now: Time)
    requires s.On? && s.pc.Reconciling? && s.pc.names != [] && s.pc.names[0] in s.mem.records
    ensures var x := Context(s.mem, s.pc.names[0], now);
            Begin(s.mem, s.cfg, x).ctl.Ask? ==> Begin(s.mem, s.cfg, x).ctl.ctx == x
  {
    BeginAsks(s.mem, s.cfg, Context(s.mem, s.pc.names[0], now));
  }

  lemma FinishShows(s: Sys, o: Outcome, name: string, c: Option<Container>)
    requires Inv(s) && s.On? && s.pc.Awaiting? && Showing(s, name, c)
    ensures Showing(FinishCall(s, o), name, c)
  {
    hide Resume;
    if Changed(s.mem, s.pc.ctx.name) == s.pc.seen {
      ResumeAsks(Freed(s.mem, s.pc.why, s.pc.ctx, o), s.cfg, s.pc.why, s.pc.ctx, o);
    }
  }

  lemma ServeShows(s: Sys, p: Prim, name: string, c: Option<Container>)
    requires s.On? && Showing(s, name, c)
    ensures Showing(Serve(s, p), name, c)
  {
    hide Put, Delete, Desire;
    ApplyKeepsObserved(s.mem, s.disk, p);
  }

  // No API call changes what was observed.
  lemma ApplyKeepsObserved(m: Mem, d: Disk, p: Prim)
    ensures Apply(m, d, p).mem.observed == m.observed && Apply(m, d, p).mem.foreign == m.foreign
  {
    hide Valid, Encode, Save, Drop;
  }

  lemma LockShows(s: Sys, name: string, c: Option<Container>)
    requires s.On? && s.pc.Listed? && Showing(s, name, c)
    ensures Showing(Locked(s), name, c)
  {
  }

  lemma BootShows(d: Disk, st: Step, name: string, c: Option<Container>)
    requires st.Boot?
    ensures Showing(BootUp(d, st), name, c)
  {
    hide Raise, Load;
  }

  // Every step keeps it, while the name is declared and each listing shows the container.
  lemma DoShows(s: Sys, st: Step, name: string, c: Option<Container>)
    requires Inv(s) && Showing(s, name, c) && Named(name, c) && (s.On? ==> name in s.mem.records)
    requires st.ListStep? ==> Exhibits(st.listed, name, c)
    ensures Showing(Do(s, st), name, c)
  {
    hide PickNext, FinishCall, Serve, ObserveNext, BootUp, Locked, Exhibits, Inv, Named;
    match st
    case Api(p) => if s.On? { ServeShows(s, p, name, c); }
    case Lock => if s.On? && s.pc.Listed? { LockShows(s, name, c); }
    case ObserveStep => if s.On? && s.pc.Observing? { ObserveShows(s, name, c); }
    case Pick(now) => if s.On? && s.pc.Reconciling? { PickShows(s, now, name, c); }
    case Finish(o) => if s.On? && s.pc.Awaiting? { FinishShows(s, o, name, c); }
    case Boot(_, _, _, _) => if s.Off? && CanBoot(s.disk, st) { BootShows(s.disk, st, name, c); }
    case _ =>
  }

  lemma PickedAsShown(s: Sys, name: string, c: Option<Container>)
    requires s.On? && s.pc.Reconciling? && name in s.pc.names && Showing(s, name, c)
    ensures Get(s.mem.observed, name) == c
  {
  }

  // ---- a look ----

  // What a pass asks for where it comes to a name.
  lemma PickIssues(t: Sys, name: string, now: Time)
    requires Picks(t, Pick(now), name) && name in t.mem.records
    ensures var sec := Begin(t.mem, t.cfg, Context(t.mem, name, now));
            Issued(t, Pick(now)) ==
            if sec.ctl.Ask? then Some(Issue(sec.ctl.ctx.name, CallOf(sec.ctl.why, sec.ctl.ctx))) else None
  {
    hide Begin;
  }

  // What it leaves: the tracking of the name, and where it goes on.
  lemma PickStores(s: Sys, name: string, now: Time)
    requires s.On? && Picks(s, Pick(now), name) && name in s.mem.records
    ensures var t, sec := PickNext(s, now), Begin(s.mem, s.cfg, Context(s.mem, name, now));
            && Do(s, Pick(now)) == t && t.On? && t.cfg == s.cfg && t.mem == SetTrack(s.mem, name, sec.track)
            && t.pc == match sec.ctl
                       case Over(_) => Reconciling(s.pc.listing, s.pc.names[1..])
                       case Ask(why, y) => Awaiting(s.pc.listing, why, y, Changed(s.mem, name), s.pc.names[1..])
  {
    hide Begin;
  }

  // A pass that removes something removes what is not declared.
  lemma RemovesUndeclared(s: Sys)
    requires s.On? && s.pc.Observing?
    ensures ObserveNext(s).pc.Removing? ==> ObserveNext(s).pc.name !in s.mem.records
  {
  }
}
