// Containers the supervisor did not create are never run over, started, stopped or removed.
module Foreign {
  import opened Basics
  import opened Specs
  import opened Sections
  import opened Machine
  import opened Interference
  import opened Listings

  ghost predicate UniqueNames(l: seq<Container>) {
    forall i, j :: 0 <= i < j < |l| ==> l[i].name != l[j].name
  }

  // No listed container of this name lacks the managed label.
  ghost predicate Ours(l: seq<Container>, name: string) {
    forall i :: 0 <= i < |l| && l[i].name == name ==> l[i].managed
  }

  // What a pass has sorted out of the first k listed containers.
  ghost predicate Sorted(l: seq<Container>, k: nat, m: Mem)
    requires k <= |l|
  {
    && UniqueNames(l)
    && (forall i :: 0 <= i < k && !l[i].managed ==> l[i].name in m.foreign)
    && (forall n :: n in m.observed ==> Ours(l, n))
  }

  ghost predicate Apart(s: Sys) {
    s.On? ==>
      match s.pc
      case Listed(l) => UniqueNames(l)
      case Observing(l, rest) => |rest| <= |l| && rest == l[|l| - |rest|..] && Sorted(l, |l| - |rest|, s.mem)
      case Removing(_, l, rest) => |rest| <= |l| && rest == l[|l| - |rest|..] && Sorted(l, |l| - |rest|, s.mem)
      case Reconciling(l, _) => Sorted(l, |l|, s.mem)
      case Awaiting(l, _, x, _, _) => Sorted(l, |l|, s.mem) && Ours(l, x.name)
      case _ => true
  }

  // A section that asks about a container that is not there found its name not held.
  lemma JudgeUnheld(m: Mem, cfg: Config, x: Ctx, t: Tracking)
    requires x.c.None? && Judge(m, cfg, x, t).ctl.Ask?
    ensures x.name !in m.foreign
  {
  }

  lemma BeginUnheld(m: Mem, cfg: Config, x: Ctx)
    requires x.c.None? && Begin(m, cfg, x).ctl.Ask?
    ensures x.name !in m.foreign
  {
    JudgeUnheld(m, cfg, x, Track(m, x.name));
  }

  lemma PickKeepsApart(s: Sys, now: Time)
    requires Apart(s) && s.On? && s.pc.Reconciling?
    ensures Apart(PickNext(s, now))
  {
    if s.pc.names != [] && s.pc.names[0] in s.mem.records {
      var x := Context(s.mem, s.pc.names[0], now);
      BeginAsks(s.mem, s.cfg, x);
      if x.c.None? && Begin(s.mem, s.cfg, x).ctl.Ask? { BeginUnheld(s.mem, s.cfg, x); }
      hide Begin, Asked;
    }
  }

  lemma FinishKeepsApart(s: Sys, o: Outcome)
    requires Inv(s) && Apart(s) && s.On? && s.pc.Awaiting?
    ensures Apart(FinishCall(s, o))
  {
    hide Resume, Ours;
    if Changed(s.mem, s.pc.ctx.name) == s.pc.seen {
      ResumeAsks(Freed(s.mem, s.pc.why, s.pc.ctx, o), s.cfg, s.pc.why, s.pc.ctx, o);
    }
  }

  lemma ObserveKeepsApart(s: Sys)
    requires Apart(s) && s.On? && s.pc.Observing?
    ensures Apart(ObserveNext(s))
    ensures var t := ObserveNext(s); t.pc.Removing? ==> Ours(t.pc.listing, t.pc.name)
  {
    if s.pc.rest != [] {
      assert s.pc.rest[0] == s.pc.listing[|s.pc.listing| - |s.pc.rest|];
    }
  }

  lemma ServeKeepsApart(s: Sys, p: Prim)
    requires Apart(s) && s.On?
    ensures Apart(Serve(s, p))
  {
    hide Apply, Ours;
    ApplyKeepsObserved(s.mem, s.disk, p);
  }

  ghost predicate ListsUnique(st: Step) { st.ListStep? ==> UniqueNames(st.listed) }

  lemma DoKeepsApart(s: Sys, st: Step)
    requires Inv(s) && Apart(s) && ListsUnique(st)
    ensures Apart(Do(s, st))
    ensures var t := Do(s, st); s.On? && st.ObserveStep? && t.On? && t.pc.Removing? && s.pc.Observing? ==>
            Ours(t.pc.listing, t.pc.name)
  {
    hide PickNext, FinishCall, Serve, ObserveNext, Inv;
    match st
    case Api(p) => if s.On? { ServeKeepsApart(s, p); }
    case ObserveStep => if s.On? && s.pc.Observing? { ObserveKeepsApart(s); }
    case Pick(now) => if s.On? && s.pc.Reconciling? { PickKeepsApart(s, now); }
    case Finish(o) => if s.On? && s.pc.Awaiting? { FinishKeepsApart(s, o); }
    case _ =>
  }

  // The listing a pass works on.
  function Listing(pc: Pc): seq<Container> {
    match pc
    case Idle => []
    case Listed(l) => l
    case Observing(l, _) => l
    case Removing(_, l, _) => l
    case Reconciling(l, _) => l
    case Awaiting(l, _, _, _, _) => l
    case Closing => []
  }

  // In every run whose listings name each container once, no engine call targets a name
  // that the pass's listing gives to a container without the managed label.
  lemma ForeignIsNeverTouched(disk: Disk, steps: seq<Step>, st: Step)
    requires forall i :: 0 <= i < |steps| ==> ListsUnique(steps[i])
    ensures var s, t := Run(Off(disk), steps), Do(Run(Off(disk), steps), st);
            Issued(s, st).Some? ==> t.On? && Ours(Listing(t.pc), Issued(s, st).value.name)
  {
    hide Do, Issued, Inv, Apart, Ours, ListsUnique;
    RunKeepsInv(Off(disk), steps);
    RunKeepsApart(Off(disk), steps);
    IssuesOurs(Run(Off(disk), steps), st);
  }

  // A call is issued about what the pass found or is declared.
  lemma IssuesOurs(s: Sys, st: Step)
    requires Inv(s) && Apart(s)
    ensures var t := Do(s, st);
            Issued(s, st).Some? ==> t.On? && Ours(Listing(t.pc), Issued(s, st).value.name)
  {
    hide PickNext, FinishCall, Serve, ObserveNext, Begin, Inv, Ours;
    if !st.ListStep? { DoKeepsApart(s, st); }
  }

  lemma {:induction false} RunKeepsApart(s: Sys, steps: seq<Step>)
    requires Inv(s) && Apart(s) && forall i :: 0 <= i < |steps| ==> ListsUnique(steps[i])
    ensures Apart(Run(s, steps))
    decreases |steps|
  {
    if steps != [] {
      DoKeepsInv(s, steps[0]);
      DoKeepsApart(s, steps[0]);
      assert forall i :: 0 <= i < |steps[1..]| ==> steps[1..][i] == steps[i + 1];
      RunKeepsApart(Do(s, steps[0]), steps[1..]);
    }
  }
}
