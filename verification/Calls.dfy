// What each API call leaves, in memory and on disk, told field by field
// (internal/supervisor/supervisor.go).
module Calls {
  import opened Basics
  import opened Specs
  import opened Sections
  import opened Machine
  import Looks

  // A call that is refused leaves memory as it was, and none changes what a pass has seen or
  // published, or the boot on record.
  lemma ARefusalChangesNothing(m: Mem, d: Disk, p: Prim)
    ensures var r := Apply(m, d, p);
            && (!r.ok ==> r.mem == m)
            && r.mem.observed == m.observed && r.mem.foreign == m.foreign && r.mem.lastPhase == m.lastPhase
            && r.disk.boot == d.boot
  {
    hide Valid, Encode;
  }

  // A spec that is declared is wanted running when it is new and as it was before otherwise;
  // one that was given up is told to start with nothing known of it, and of any other what is
  // known is kept. The file holds it unless the write failed before it took effect.
  lemma APutIsServed(m: Mem, d: Disk, sp: Spec, w: Written)
    ensures var r, n := Apply(m, d, PutRecord(sp, w)), sp.name;
            var want := if n in m.records then m.records[n].desired else DesiredRunning;
            && (r.ok <==> Valid(sp) && w == Done)
            && (r.ok ==>
                  && r.mem.records == m.records[n := Record(sp, want)] && r.mem.projects == m.projects
                  && r.mem.track == if n in m.track && m.track[n].phase == Fatal then
                                      m.track[n := Looks.BLANK.(force := true)]
                                    else m.track)
            && r.disk == d.(records := if Valid(sp) && w != FailedBefore then d.records[n := Saved(Encode(sp), want)]
                                       else d.records)
  {
    hide Valid, Encode;
  }

  // A container is started or stopped where it is declared and, if it was to be the other
  // before, that is written. A start forgets what is known of it and tells it to start at once; a
  // stop leaves that to the pass.
  lemma ADesireIsServed(m: Mem, d: Disk, n: string, want: Desired, w: Written)
    requires n in m.records ==> m.records[n].spec.name == n
    ensures var r := Apply(m, d, SetDesired(n, want, w));
            var writes := n in m.records && m.records[n].desired != want;
            && (r.ok <==> n in m.records && (m.records[n].desired == want || w == Done))
            && (r.ok ==>
                  && r.mem.records == m.records[n := Record(m.records[n].spec, want)] && r.mem.projects == m.projects
                  && r.mem.track == if want == DesiredStopped then m.track
                                    else m.track[n := Looks.BLANK.(force := true)])
            && r.disk == d.(records := if writes && w != FailedBefore then
                                         d.records[n := Saved(Encode(m.records[n].spec), want)]
                                       else d.records)
  {
    hide Encode;
  }

  // A removal forgets the record and what is known of it, and is reported though the file is
  // gone where only that could not be synced; a restart is marked, and nothing else is known to
  // change.
  lemma ARemovalIsServed(m: Mem, d: Disk, n: string, w: Written)
    ensures var r := Apply(m, d, DeleteRecord(n, w));
            && (r.ok <==> w == Done)
            && (r.ok ==>
                  r.mem.records == m.records - {n} && r.mem.track == m.track - {n} && r.mem.projects == m.projects)
            && r.disk == d.(records := if w == FailedBefore then d.records else d.records - {n})
    ensures var r := Apply(m, d, MarkRestart(n));
            && r.ok && r.disk == d && r.mem.records == m.records && r.mem.projects == m.projects
            && r.mem.track == m.track[n := (if n in m.track then m.track[n] else Looks.BLANK).(restart := true)]
  {
  }

  // A project's files are kept or dropped, in memory only once they are for good on disk.
  lemma AProjectIsServed(m: Mem, d: Disk, n: string, p: Project, w: Written)
    ensures var r := Apply(m, d, SaveProject(n, p, w));
            && (r.ok <==> w == Done) && r.mem == m.(projects := if w == Done then m.projects[n := p] else m.projects)
            && r.disk == d.(projects := if w == FailedBefore then d.projects else d.projects[n := p])
    ensures var r := Apply(m, d, DropProject(n, w));
            && (r.ok <==> w == Done) && r.mem == m.(projects := if w == Done then m.projects - {n} else m.projects)
            && r.disk == d.(projects := if w == FailedBefore then d.projects else d.projects - {n})
  {
  }
}
