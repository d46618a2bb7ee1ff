// The published phase changes replay to the phases themselves.
module Events {
  import opened Basics
  import opened Specs
  import opened Sections
  import opened Machine

  function Follow(seen: map<string, Phase>, c: Change): map<string, Phase> {
    match c.phase
    case Some(p) => seen[c.name := p]
    case None => Without(seen, c.name)
  }

  function Replay(seen: map<string, Phase>, cs: seq<Change>): map<string, Phase>
    decreases |cs|
  {
    if cs == [] then seen else Replay(Follow(seen, cs[0]), cs[1..])
  }

  // Every change moves its name: none repeats the phase before it.
  ghost predicate Moving(seen: map<string, Phase>, cs: seq<Change>)
    decreases |cs|
  {
    cs == [] || (Get(seen, cs[0].name) != cs[0].phase && Moving(Follow(seen, cs[0]), cs[1..]))
  }

  lemma {:induction false} ReplayAppend(seen: map<string, Phase>, a: seq<Change>, b: seq<Change>)
    ensures Replay(seen, a + b) == Replay(Replay(seen, a), b)
    ensures Moving(seen, a + b) <==> Moving(seen, a) && Moving(Replay(seen, a), b)
    decreases |a|
  {
    if a == [] {
      assert a + b == b;
    } else {
      assert (a + b)[0] == a[0] && (a + b)[1..] == a[1..] + b;
      ReplayAppend(Follow(seen, a[0]), a[1..], b);
    }
  }

  // Replaying what a publication says of some names brings exactly those up to date.
  lemma {:induction false} ReplayNames(m: Mem, seen: map<string, Phase>, names: seq<string>)
    requires Ascending(names)
    requires forall n :: n in names ==> Get(seen, n) == Get(m.lastPhase, n)
    ensures var r := Replay(seen, ChangesOf(m, names));
            forall n :: Get(r, n) == if n in names then Get(Phases(m), n) else Get(seen, n)
    ensures Moving(seen, ChangesOf(m, names))
    decreases |names|
  {
    if names != [] {
      var n, rest := names[0], names[1..];
      LessTotal(n, n);
      var c := ChangeOf(m, n);
      assert c == [] || c == [c[0]];
      var next := Replay(seen, c);
      if c != [] {
        assert c[1..] == [];
        assert next == Replay(Follow(seen, c[0]), c[1..]) == Follow(seen, c[0]);
      }
      assert Get(next, n) == Get(Phases(m), n);
      ReplayNames(m, next, rest);
      ReplayAppend(seen, c, ChangesOf(m, rest));
      assert Moving(seen, c);
    }
  }

  // What a publication has to say of a name: the phase of a declared container, stopped where
  // none is known, with how it is wanted and its last exit code, if it is not the phase last
  // published; and of one no longer declared that it is gone.
  ghost predicate Says(m: Mem, c: Change) {
    if c.name in m.records then
      var t := if c.name in m.track then m.track[c.name].phase else NoPhase;
      var p := if t == NoPhase then Stopped else t;
      && c.phase == Some(p) && c.desired == Some(m.records[c.name].desired)
      && c.exitCode == (if c.name in m.observed then m.observed[c.name].exitCode else 0)
      && (c.name in m.lastPhase ==> m.lastPhase[c.name] != p)
    else c.name in m.lastPhase && c == Change(c.name, None, None, 0)
  }

  ghost predicate InOrder(cs: seq<Change>) {
    forall i, j :: 0 <= i < j < |cs| ==> Less(cs[i].name, cs[j].name)
  }

  // A publication says exactly that, of each name once and in the order of the names.
  lemma ChangesAre(m: Mem)
    ensures forall c :: c in Changes(m) <==> Says(m, c)
    ensures InOrder(Changes(m))
  {
    hide Says, ChangesOf, InOrder;
    var names := SortedKeys(m.records.Keys + m.lastPhase.Keys);
    ChangesSay(m, names);
    forall c | Says(m, c) ensures c.name in names { SaysOf(m, c); }
  }

  lemma SaysOf(m: Mem, c: Change)
    ensures Says(m, c) ==> c.name in m.records || c.name in m.lastPhase
  {
  }

  lemma {:induction false} ChangesSay(m: Mem, names: seq<string>)
    requires Ascending(names)
    ensures forall c :: c in ChangesOf(m, names) <==> c.name in names && Says(m, c)
    ensures InOrder(ChangesOf(m, names))
    decreases |names|
  {
    hide Less;
    if names != [] {
      var n, rest := names[0], names[1..];
      ChangesSay(m, rest);
      OneSays(m, n);
      hide Says, ChangeOf;
      assert names == [n] + rest;
      forall i | 0 <= i < |ChangesOf(m, rest)| ensures Less(n, ChangesOf(m, rest)[i].name) {
        assert ChangesOf(m, rest)[i] in ChangesOf(m, rest);
      }
    }
  }

  lemma OneSays(m: Mem, n: string)
    ensures |ChangeOf(m, n)| <= 1
    ensures forall c :: c in ChangeOf(m, n) <==> c.name == n && Says(m, c)
  {
  }

  // One publication turns the phases last published into the phases now.
  lemma PublicationReplays(m: Mem)
    ensures Replay(m.lastPhase, Changes(m)) == Phases(m) && Moving(m.lastPhase, Changes(m))
  {
    var names := SortedKeys(m.records.Keys + m.lastPhase.Keys);
    ReplayNames(m, m.lastPhase, names);
    var r := Replay(m.lastPhase, Changes(m));
    forall n ensures Get(r, n) == Get(Phases(m), n) {
      if n !in names { assert n !in m.lastPhase && n !in m.records; }
    }
    SameGets(r, Phases(m));
  }

  // What was published since the daemon started, replayed.
  ghost predicate Replays(s: Sys) {
    s.On? ==> Replay(map[], s.published) == s.mem.lastPhase && Moving(map[], s.published)
  }

  lemma ApplyKeepsLastPhase(m: Mem, d: Disk, p: Prim)
    ensures Apply(m, d, p).mem.lastPhase == m.lastPhase
  {
  }

  lemma CloseReplays(s: Sys)
    requires Replays(s) && s.On?
    ensures Replays(Close(s))
  {
    PublicationReplays(s.mem);
    ReplayAppend(map[], s.published, Changes(s.mem));
  }

  lemma PassKeepsLastPhase(s: Sys)
    requires s.On?
    ensures s.pc.Reconciling? ==> forall now :: SamePublished(s, PickNext(s, now))
    ensures s.pc.Awaiting? ==> forall o :: SamePublished(s, FinishCall(s, o))
    ensures s.pc.Observing? ==> SamePublished(s, ObserveNext(s))
  {
    hide Begin, Resume;
  }

  ghost predicate SamePublished(s: Sys, t: Sys) {
    s.On? && t.On? && t.mem.lastPhase == s.mem.lastPhase && t.published == s.published
  }

  lemma DoReplays(s: Sys, st: Step)
    requires Replays(s)
    ensures Replays(Do(s, st))
    ensures s.On? && st.PublishStep? && s.pc.Closing? ==>
              Do(s, st).mem.lastPhase == Phases(s.mem) && Do(s, st).published == s.published + Changes(s.mem)
  {
    hide PickNext, FinishCall, ObserveNext, Apply, Changes, Raise;
    if s.On? { PassKeepsLastPhase(s); }
    match st
    case Api(p) => if s.On? { ApplyKeepsLastPhase(s.mem, s.disk, p); }
    case PublishStep => if s.On? && s.pc.Closing? { CloseReplays(s); }
    case Pick(now) => assert s.On? && s.pc.Reconciling? ==> SamePublished(s, PickNext(s, now));
    case Finish(o) => assert s.On? && s.pc.Awaiting? ==> SamePublished(s, FinishCall(s, o));
    case _ =>
  }

  // Over every run, the changes published since the daemon started replay to the phases of
  // the declared containers at the last publication, and no name is published twice in the
  // same phase.
  lemma {:induction false} EventsReplay(s: Sys, steps: seq<Step>)
    requires Replays(s)
    ensures Replays(Run(s, steps))
    decreases |steps|
  {
    if steps != [] {
      DoReplays(s, steps[0]);
      EventsReplay(Do(s, steps[0]), steps[1..]);
    }
  }

  // ---- a subscriber ----

  const SUBSCRIBER_BUFFER := 64

  // A change is dropped when the subscriber's buffer is full.
  function Offer(q: seq<Change>, cs: seq<Change>): seq<Change>
    decreases |cs|
  {
    if cs == [] then q
    else Offer(if |q| < SUBSCRIBER_BUFFER then q + [cs[0]] else q, cs[1..])
  }

  // As many changes are taken, in order, as there is room for: 64 wait at the most.
  lemma {:induction false} OfferedUntilFull(q: seq<Change>, cs: seq<Change>)
    requires |q| <= 64
    ensures var room := 64 - |q|;
            Offer(q, cs) == q + if |cs| <= room then cs else cs[..room]
    decreases |cs|
  {
    if cs != [] {
      if |q| < 64 {
        OfferedUntilFull(q + [cs[0]], cs[1..]);
        var room := 64 - |q|;
        assert cs == [cs[0]] + cs[1..];
        if |cs| > room { assert cs[..room] == [cs[0]] + cs[1..][..room - 1]; }
      } else {
        OfferedUntilFull(q, cs[1..]);
      }
    }
  }

  // The loop that offers the changes to one subscriber, never waiting for it.
  method Send(queue: seq<Change>, changes: seq<Change>) returns (q: seq<Change>)
    ensures q == Offer(queue, changes)
    ensures |queue| <= 64 ==> q == queue + if |queue| + |changes| <= 64 then changes else changes[..64 - |queue|]
  {
    if |queue| <= 64 { OfferedUntilFull(queue, changes); }
    q := queue;
    for i := 0 to |changes|
      invariant Offer(queue, changes) == Offer(q, changes[i..])
    {
      assert changes[i..][0] == changes[i] && changes[i..][1..] == changes[i + 1..];
      if |q| < SUBSCRIBER_BUFFER { q := q + [changes[i]]; }
    }
  }

  ghost predicate Subsequence(a: seq<Change>, b: seq<Change>)
    decreases |b|
  {
    || a == []
    || (b != [] && a[|a| - 1] == b[|b| - 1] && Subsequence(a[..|a| - 1], b[..|b| - 1]))
    || (b != [] && Subsequence(a, b[..|b| - 1]))
  }

  lemma SubsequenceNext(a: seq<Change>, b: seq<Change>, c: Change)
    requires Subsequence(a, b)
    ensures Subsequence(a, b + [c]) && Subsequence(a + [c], b + [c])
  {
    assert (b + [c])[..|b + [c]| - 1] == b && (a + [c])[..|a + [c]| - 1] == a;
  }

  lemma {:induction false} OfferedInOrder(q: seq<Change>, cs: seq<Change>, had: seq<Change>, all: seq<Change>)
    requires Subsequence(had + q, all) && |q| <= SUBSCRIBER_BUFFER
    ensures Subsequence(had + Offer(q, cs), all + cs) && |Offer(q, cs)| <= SUBSCRIBER_BUFFER
    decreases |cs|
  {
    hide Subsequence;
    if cs == [] {
      assert all + cs == all;
    } else {
      var q1 := if |q| < SUBSCRIBER_BUFFER then q + [cs[0]] else q;
      var all1 := all + [cs[0]];
      SubsequenceNext(had + q, all, cs[0]);
      if |q| < SUBSCRIBER_BUFFER { assert had + (q + [cs[0]]) == had + q + [cs[0]]; }
      OfferedInOrder(q1, cs[1..], had, all1);
      assert all1 + cs[1..] == all + cs;
    }
  }

  datatype Happening = Publication(cs: seq<Change>) | Read

  datatype Subscriber = Subscriber(queue: seq<Change>, received: seq<Change>)

  function Happens(s: Subscriber, h: Happening): Subscriber {
    match h
    case Publication(cs) => s.(queue := Offer(s.queue, cs))
    case Read => if s.queue == [] then s else Subscriber(s.queue[1..], s.received + [s.queue[0]])
  }

  function History(s: Subscriber, hs: seq<Happening>): Subscriber
    decreases |hs|
  {
    if hs == [] then s else History(Happens(s, hs[0]), hs[1..])
  }

  function AllPublished(hs: seq<Happening>): seq<Change>
    decreases |hs|
  {
    if hs == [] then [] else (if hs[0].Publication? then hs[0].cs else []) + AllPublished(hs[1..])
  }

  // However slowly it reads, a subscriber gets what was published in order, with gaps only.
  lemma {:induction false} SubscriberGetsASubsequence(s: Subscriber, hs: seq<Happening>, all: seq<Change>)
    requires Subsequence(s.received + s.queue, all) && |s.queue| <= SUBSCRIBER_BUFFER
    ensures var t := History(s, hs);
            Subsequence(t.received + t.queue, all + AllPublished(hs)) && |t.queue| <= SUBSCRIBER_BUFFER
    decreases |hs|
  {
    hide Subsequence, Happens;
    if hs == [] {
      assert all + [] == all;
    } else {
      var new1 := if hs[0].Publication? then hs[0].cs else [];
      HappensInOrder(s, hs[0], all);
      SubscriberGetsASubsequence(Happens(s, hs[0]), hs[1..], all + new1);
      assert all + new1 + AllPublished(hs[1..]) == all + AllPublished(hs);
    }
  }

  lemma HappensInOrder(s: Subscriber, h: Happening, all: seq<Change>)
    requires Subsequence(s.received + s.queue, all) && |s.queue| <= SUBSCRIBER_BUFFER
    ensures var t := Happens(s, h);
            && Subsequence(t.received + t.queue, all + if h.Publication? then h.cs else [])
            && |t.queue| <= SUBSCRIBER_BUFFER
  {
    hide Subsequence, Offer;
    if h.Publication? {
      OfferedInOrder(s.queue, h.cs, s.received, all);
    } else {
      var t := Happens(s, h);
      assert all + [] == all;
      assert s.queue != [] ==> t.received + t.queue == s.received + s.queue;
    }
  }

  // Whatever is published finds room.
  ghost predicate KeepsUp(s: Subscriber, hs: seq<Happening>)
    decreases |hs|
  {
    hs == [] ||
    ((hs[0].Publication? ==> |s.queue| + |hs[0].cs| <= 64) && KeepsUp(Happens(s, hs[0]), hs[1..]))
  }

  // A subscriber that keeps up gets all that was published.
  lemma {:induction false} KeepingUpLosesNothing(s: Subscriber, hs: seq<Happening>)
    requires KeepsUp(s, hs)
    ensures var t := History(s, hs);
            t.received + t.queue == s.received + s.queue + AllPublished(hs)
    decreases |hs|
  {
    hide Offer;
    if hs != [] {
      var s1 := Happens(s, hs[0]);
      if hs[0].Publication? {
        OfferedUntilFull(s.queue, hs[0].cs);
      } else if s.queue != [] {
        assert s1.received + s1.queue == s.received + s.queue;
      }
      KeepingUpLosesNothing(s1, hs[1..]);
    }
  }
}
