// The store: one file for each record, read back after a restart or a crash
// (internal/store/store.go).
module Stores {
  import opened Basics
  import opened Specs
  import opened Sections
  import opened Directories
  import opened Rules
  import Machine

  // ---- reading the records ----

  const SUFFIX := ".json"
  const RUNNING := "running"
  const STOPPED := "stopped"

  predicate Suffixed(n: string) { |n| >= |SUFFIX| && n[|n| - |SUFFIX|..] == SUFFIX }

  function Base(n: string): string
    requires Suffixed(n)
  {
    n[..|n| - |SUFFIX|]
  }

  function FileOf(name: string): string { name + SUFFIX }

  predicate IsRecord(n: string) { Suffixed(n) && !Hidden(n) }

  // The record a file of one name carries, if it loads: it parses, carries its own name, is
  // valid, and names a desired state.
  function Loads(name: string, c: Content): Option<Record> {
    if c.Text? || c.spec.name != name || !Valid(Decode(c.spec)) then None
    else if c.desired == RUNNING then Some(Record(Decode(c.spec), DesiredRunning))
    else if c.desired == STOPPED then Some(Record(Decode(c.spec), DesiredStopped))
    else None
  }

  function DocumentOf(r: Record): Content {
    Json(Encode(r.spec), if r.desired == DesiredRunning then RUNNING else STOPPED)
  }

  // A file loads under a name as a record exactly when it is a document of a valid spec of that
  // name, kept running or stopped by one of two words.
  lemma LoadsIff(name: string, c: Content, r: Record)
    ensures Loads(name, c) == Some(r) <==>
            && c.Json? && c.spec.name == name && Valid(Decode(c.spec)) && r.spec == Decode(c.spec)
            && ((c.desired == "running" && r.desired == DesiredRunning) ||
                (c.desired == "stopped" && r.desired == DesiredStopped))
  {
    hide Valid, Decode;
  }

  // The file each operation is about, and what it writes there.
  lemma WhatIsKept(s: StoreOp)
    ensures match s
            case PutOp(r, tmp, fault) =>
              OpOf(s) == WriteOp(r.spec.name + ".json",
                Json(Encode(r.spec), if r.desired == DesiredStopped then "stopped" else "running"), tmp, fault)
            case DeleteOp(name, fault) => OpOf(s) == RemoveOp(name + ".json", fault)
            case BootOp(id, tmp, fault) => OpOf(s) == WriteOp("boot-id", Text(id + "\n"), tmp, fault)
  {
    hide Encode;
  }

  // Which files of the directory are records: a name with the ending, and no dot before it.
  lemma RecordFilesAre(n: string)
    ensures IsRecord(n) <==> |n| >= 5 && n[|n| - 5..] == ".json" && n[0] != '.'
  {
  }

  lemma FileNames(name: string)
    ensures Suffixed(FileOf(name)) && Base(FileOf(name)) == name
    ensures ValidName(name) ==> !Hidden(FileOf(name))
  {
    var n := FileOf(name);
    assert n[|n| - |SUFFIX|..] == SUFFIX;
  }

  lemma BaseNames(n: string)
    requires Suffixed(n)
    ensures FileOf(Base(n)) == n
  {
  }

  function RecordsIn(m: map<string, Content>): map<string, Record> { RecordsAmong(m, m.Keys) }
  function BadIn(m: map<string, Content>): set<string> { BadAmong(m, m.Keys) }

  // What the given files of a directory load as.
  function RecordsAmong(m: map<string, Content>, files: set<string>): map<string, Record> {
    map n | n in Bases(m) && FileOf(n) in files && Loads(n, m[FileOf(n)]).Some? :: Loads(n, m[FileOf(n)]).value
  }

  function BadAmong(m: map<string, Content>, files: set<string>): set<string> {
    set n | n in Bases(m) && FileOf(n) in files && Loads(n, m[FileOf(n)]).None?
  }

  // The names the record files carry.
  function Bases(m: map<string, Content>): (s: set<string>)
    ensures forall n :: n in s <==> FileOf(n) in m && IsRecord(FileOf(n))
  {
    var s := set n | n in m && IsRecord(n) :: Base(n);
    assert forall n :: n in s <==> FileOf(n) in m && IsRecord(FileOf(n)) by {
      forall n ensures n in s <==> FileOf(n) in m && IsRecord(FileOf(n)) {
        FileNames(n);
        if n in s {
          var f :| f in m && IsRecord(f) && Base(f) == n;
          BaseNames(f);
        }
      }
    }
    s
  }

  // The loop over the directory: what loads goes under its name, the rest is reported.
  // A record file that cannot be read ends it.
  method LoadRecords(entries: map<string, Entry>) returns (failed: bool, records: map<string, Record>, bad: set<string>)
    ensures failed <==> exists f :: f in entries && IsRecord(f) && entries[f] == Unreadable
    ensures !failed ==> records == RecordsIn(Readables(entries)) && bad == BadIn(Readables(entries))
  {
    hide RecordsAmong, BadAmong, Loads, Suffixed, Base, Hidden;
    failed, records, bad := false, map[], {};
    ghost var m, done: set<string> := Readables(entries), {};
    var rest := entries.Keys;
    AmongNone(m);
    while rest != {}
      invariant rest <= entries.Keys && done == m.Keys - rest
      invariant forall f :: f in entries && f !in rest && IsRecord(f) ==> entries[f] != Unreadable
      invariant records == RecordsAmong(m, done) && bad == BadAmong(m, done)
      decreases rest
    {
      var f :| f in rest;
      if f in m {
        AmongNext(m, done, f);
        assert m.Keys - (rest - {f}) == done + {f};
      } else {
        assert m.Keys - (rest - {f}) == done;
      }
      rest := rest - {f};
      done := m.Keys - rest;
      if Suffixed(f) && !entries[f].SubDir? && !Hidden(f) {
        if entries[f].Unreadable? { return true, map[], {}; }
        var r := Loads(Base(f), entries[f].content);
        if r.Some? {
          records := records[Base(f) := r.value];
        } else {
          bad := bad + {Base(f)};
        }
      }
    }
    assert done == m.Keys;
  }

  // What reading a directory finds under a name.
  datatype Entry = SubDir | Unreadable | Readable(content: Content)

  function Readables(entries: map<string, Entry>): map<string, Content> {
    map f | f in entries && entries[f].Readable? :: entries[f].content
  }

  lemma AmongNone(m: map<string, Content>)
    ensures RecordsAmong(m, {}) == map[] && BadAmong(m, {}) == {}
  {
  }

  lemma AmongNext(m: map<string, Content>, files: set<string>, f: string)
    requires f in m && f !in files
    ensures RecordsAmong(m, files + {f}) ==
            if IsRecord(f) && Loads(Base(f), m[f]).Some? then
              RecordsAmong(m, files)[Base(f) := Loads(Base(f), m[f]).value]
            else RecordsAmong(m, files)
    ensures BadAmong(m, files + {f}) ==
            BadAmong(m, files) + if IsRecord(f) && Loads(Base(f), m[f]).None? then {Base(f)} else {}
  {
    hide Loads, Suffixed, Base, FileOf, Hidden;
    forall n | FileOf(n) == f ensures Suffixed(f) && n == Base(f) { FileNames(n); }
    if IsRecord(f) {
      BaseNames(f);
      assert Base(f) in Bases(m);
    } else {
      assert forall n :: n in Bases(m) ==> FileOf(n) != f;
    }
  }

  // ---- what a crash leaves ----

  // Every record file, as it is and as a crash may leave it, is whole and loads.
  ghost predicate Sound(d: Dir) {
    && WellFormed(d)
    && forall n, f :: IsRecord(n) && May(d, n, Some(f)) ==> Whole(n, f)
  }

  predicate Whole(n: string, f: File)
    requires Suffixed(n)
  {
    f.synced && Loads(Base(n), f.content).Some?
  }

  predicate Writable(n: string, w: Option<File>) {
    IsRecord(n) && w.Some? ==> Whole(n, w.value)
  }

  lemma OnlySound(d0: Dir, d: Dir, target: string, w: Option<File>)
    requires Sound(d0) && Only(d0, d, target, w) && Writable(target, w)
    ensures Sound(d)
  {
    hide Loads;
  }

  lemma RecordAt(m: map<string, Content>, name: string)
    ensures Get(RecordsIn(m), name) ==
            if FileOf(name) in m && IsRecord(FileOf(name)) then Loads(name, m[FileOf(name)]) else None
  {
    hide Loads;
  }

  // After any crash in a sound state nothing is reported bad.
  lemma SoundLoads(d: Dir, after: map<string, Content>)
    requires Sound(d) && CrashesTo(d, after)
    ensures BadIn(after) == {}
  {
    hide Loads;
    forall n | n in Bases(after) ensures Loads(n, after[FileOf(n)]).Some? {
      FileNames(n);
      assert Leaves(d, FileOf(n), Get(after, FileOf(n)));
      var f :| May(d, FileOf(n), f) && Survives(f, Get(after, FileOf(n)));
      assert Whole(FileOf(n), f.value);
    }
  }

  function Updated(records: map<string, Record>, name: string, w: Option<File>): map<string, Record> {
    if w.Some? && Loads(name, w.value.content).Some? then records[name := Loads(name, w.value.content).value]
    else Without(records, name)
  }

  lemma UpdatedElsewhere(records: map<string, Record>, name: string, w: Option<File>)
    ensures forall k :: k != name ==> Get(Updated(records, name, w), k) == Get(records, k)
  {
    hide Loads;
  }

  ghost predicate OldOrNew(d0: Dir, d: Dir, name: string, w: Option<File>) {
    forall after :: CrashesTo(d, after) ==>
      && BadIn(after) == {}
      && (RecordsIn(after) == RecordsIn(Contents(d0)) || RecordsIn(after) == Updated(RecordsIn(Contents(d0)), name, w))
  }

  // A crash leaves this file what it is.
  ghost predicate SteadyAt(d: Dir, n: string) {
    forall f :: May(d, n, f) ==> f == FileIn(d, d.now, n)
  }

  // No crash changes what loads.
  ghost predicate Steady(d: Dir) {
    forall n :: IsRecord(n) ==> SteadyAt(d, n)
  }

  lemma DurableIsSteady(d: Dir)
    requires Durable(d)
    ensures Steady(d)
  {
    DurablePinned(d);
  }

  // A failure before the rename leaves it so.
  lemma SameIsSteady(d0: Dir, d: Dir)
    requires Steady(d0) && Directories.Same(d0, d)
    ensures Steady(d)
  {
    forall n | IsRecord(n) ensures SteadyAt(d, n) { assert SteadyAt(d0, n); }
  }

  lemma FileAfter(d0: Dir, d: Dir, target: string, w: Option<File>, after: map<string, Content>, n: string)
    requires SteadyAt(d0, n) && Sound(d0) && Only(d0, d, target, w) && Writable(target, w) && IsRecord(n)
    requires CrashesTo(d, after)
    ensures Get(after, n) == Get(Contents(d0), n) ||
            (n == target && Get(after, n) == if w.None? then None else Some(w.value.content))
  {
    hide Loads, Suffixed, Base;
    assert Leaves(d, n, Get(after, n));
    var f :| May(d, n, f) && Survives(f, Get(after, n));
    if May(d0, n, f) && f.Some? { assert Whole(n, f.value); }
  }

  // A write or removal interrupted after any step, where no crash would have changed what
  // loads: what loads is the map from before it or the one after it, and nothing is bad.
  lemma CrashIsOldOrNew(d0: Dir, d: Dir, name: string, w: Option<File>)
    requires Steady(d0) && Sound(d0) && ValidName(name) && Only(d0, d, FileOf(name), w) && Writable(FileOf(name), w)
    ensures OldOrNew(d0, d, name, w)
  {
    hide Loads, RecordsIn, BadIn, Updated, Sound, Only, CrashesTo, SteadyAt, IsRecord;
    FileNames(name);
    OnlySound(d0, d, FileOf(name), w);
    forall after | CrashesTo(d, after)
      ensures BadIn(after) == {}
      ensures RecordsIn(after) == RecordsIn(Contents(d0)) ||
              RecordsIn(after) == Updated(RecordsIn(Contents(d0)), name, w)
    {
      SoundLoads(d, after);
      forall k ensures Get(RecordsIn(after), k) == Get(RecordsIn(Contents(d0)), k) ||
                       (k == name && Get(RecordsIn(after), k) == Get(Updated(RecordsIn(Contents(d0)), name, w), k))
      {
        RecordAfter(d0, d, FileOf(name), w, after, k);
        RecordUpdated(RecordsIn(Contents(d0)), name, w);
        OnlyFileOf(k, name);
      }
      if Get(RecordsIn(after), name) == Get(RecordsIn(Contents(d0)), name) {
        SameGets(RecordsIn(after), RecordsIn(Contents(d0)));
      } else {
        UpdatedElsewhere(RecordsIn(Contents(d0)), name, w);
        SameGets(RecordsIn(after), Updated(RecordsIn(Contents(d0)), name, w));
      }
    }
  }

  lemma OnlyFileOf(k: string, name: string)
    ensures FileOf(k) == FileOf(name) ==> k == name
  {
    FileNames(k);
    FileNames(name);
  }

  // The record a file written under its name carries.
  function RecordOf(k: string, w: Option<File>): Option<Record> {
    match w
    case None => None
    case Some(f) => Loads(k, f.content)
  }

  lemma RecordUpdated(records: map<string, Record>, name: string, w: Option<File>)
    ensures Get(Updated(records, name, w), name) == RecordOf(name, w)
  {
    hide Loads;
  }

  // One name of what loads after a crash.
  lemma RecordAfter(d0: Dir, d: Dir, target: string, w: Option<File>, after: map<string, Content>, k: string)
    requires IsRecord(FileOf(k)) ==> SteadyAt(d0, FileOf(k))
    requires Sound(d0) && Only(d0, d, target, w) && Writable(target, w) && CrashesTo(d, after)
    ensures Get(RecordsIn(after), k) == Get(RecordsIn(Contents(d0)), k) ||
            (FileOf(k) == target && Get(RecordsIn(after), k) == RecordOf(k, w))
  {
    hide Loads, RecordsIn;
    FileNames(k);
    RecordAt(after, k);
    RecordAt(Contents(d0), k);
    if IsRecord(FileOf(k)) { FileAfter(d0, d, target, w, after, FileOf(k)); }
  }

  // ---- any sequence of operations ----

  // What the store is asked, with the temporary file and the fault of each write.
  datatype StoreOp = PutOp(r: Record, tmp: string, fault: Fault) | DeleteOp(name: string, fault: Fault)
                   | BootOp(id: string, tmp: string, fault: Fault)

  const BOOT := "boot-id"

  function OpOf(s: StoreOp): Op {
    match s
    case PutOp(r, tmp, fault) => WriteOp(FileOf(r.spec.name), DocumentOf(r), tmp, fault)
    case DeleteOp(name, fault) => RemoveOp(FileOf(name), fault)
    case BootOp(id, tmp, fault) => WriteOp(BOOT, Text(id + "\n"), tmp, fault)
  }

  function OpsOf(ss: seq<StoreOp>): seq<Op> {
    if ss == [] then [] else [OpOf(ss[0])] + OpsOf(ss[1..])
  }

  // A valid record, or the name of one.
  predicate Proper(s: StoreOp) {
    match s
    case PutOp(r, _, _) => Valid(r.spec)
    case DeleteOp(name, _) => ValidName(name)
    case BootOp(_, _, _) => true
  }

  predicate AllProper(ss: seq<StoreOp>) { forall i :: 0 <= i < |ss| ==> Proper(ss[i]) }

  // The records once the operation is done.
  function Served(records: map<string, Record>, s: StoreOp): map<string, Record> {
    match s
    case PutOp(r, _, _) => records[r.spec.name := Record(Reloaded(r.spec), r.desired)]
    case DeleteOp(name, _) => Without(records, name)
    case BootOp(_, _, _) => records
  }

  // The state before an operation, or after some step of it.
  function StateIn(d: Dir, op: Op, at: nat): Dir
    requires Allowed(d, op) && at <= |StepsOf(d, op)|
  {
    if at == 0 then d else StepsOf(d, op)[at - 1]
  }

  lemma StateOnly(d: Dir, op: Op, at: nat)
    requires WellFormed(d) && Allowed(d, op) && at <= |StepsOf(d, op)|
    ensures Only(d, StateIn(d, op, at), op.n, Made(op))
  {
    SameSelf(d, op.n, Made(op));
    if at > 0 { OpOnly(d, op, at - 1); }
  }

  lemma ProperIsWritable(s: StoreOp)
    requires Proper(s)
    ensures Writable(OpOf(s).n, Made(OpOf(s)))
    ensures s.PutOp? ==> ValidName(s.r.spec.name)
  {
    hide Valid, Loads;
    if s.PutOp? { DocumentLoads(s.r); }
    if s.BootOp? { BootIsNoRecord(); }
  }

  lemma BootIsNoRecord()
    ensures !IsRecord(BOOT)
  {
    assert BOOT[|BOOT| - |SUFFIX|..][0] == 'o';
  }

  lemma OpSound(d: Dir, s: StoreOp)
    requires Sound(d) && Proper(s) && Allowed(d, OpOf(s))
    ensures Sound(AfterOp(d, OpOf(s)))
  {
    hide Sound, Only, Proper, Loads;
    ProperIsWritable(s);
    SoundIsWellFormed(d);
    OpEnds(d, OpOf(s));
    OnlySound(d, AfterOp(d, OpOf(s)), OpOf(s).n, Made(OpOf(s)));
  }

  lemma SoundIsWellFormed(d: Dir)
    requires Sound(d)
    ensures WellFormed(d)
  {
  }

  lemma {:induction false} AllSound(d: Dir, ss: seq<StoreOp>)
    requires Sound(d) && AllProper(ss) && AllAllowed(d, OpsOf(ss))
    ensures Sound(AfterAll(d, OpsOf(ss)))
    decreases |ss|
  {
    hide Sound, Proper, OpOf, Allowed, AfterOp;
    if ss != [] {
      assert OpsOf(ss)[1..] == OpsOf(ss[1..]);
      OpSound(d, ss[0]);
      AllSound(AfterOp(d, OpOf(ss[0])), ss[1..]);
    }
  }

  // The records no operation has left unsynced.
  lemma PinnedIsSteady(d: Dir, loose: set<string>, n: string)
    requires Pinned(d, loose) && IsRecord(n) && n !in loose
    ensures SteadyAt(d, n)
  {
  }

  // ---- what a record left unsynced may be ----

  // What loads at the end of each operation, since one synced the directory.
  ghost function Versions(d: Dir, ss: seq<StoreOp>, vs: seq<map<string, Record>>): seq<map<string, Record>>
    requires AllAllowed(d, OpsOf(ss))
    decreases |ss|
  {
    if ss == [] then vs
    else
      var op := OpOf(ss[0]);
      var now := RecordsIn(Contents(AfterOp(d, op)));
      assert OpsOf(ss)[1..] == OpsOf(ss[1..]);
      Versions(AfterOp(d, op), ss[1..], if Syncs(d, op) then [now] else vs + [now])
  }

  ghost predicate Had(vs: seq<map<string, Record>>, k: string, r: Option<Record>) {
    exists i :: 0 <= i < |vs| && Get(vs[i], k) == r
  }

  // Whatever a crash makes of a record is one of the versions.
  ghost predicate Covers(d: Dir, vs: seq<map<string, Record>>) {
    forall k, f :: IsRecord(FileOf(k)) && May(d, FileOf(k), f) ==> Had(vs, k, RecordOf(k, f))
  }

  // The last version is what loads now.
  ghost predicate EndsIn(vs: seq<map<string, Record>>, d: Dir) {
    vs != [] && vs[|vs| - 1] == RecordsIn(Contents(d))
  }

  lemma RecordNow(d: Dir, k: string)
    requires IsRecord(FileOf(k))
    ensures Get(RecordsIn(Contents(d)), k) == RecordOf(k, FileIn(d, d.now, FileOf(k)))
  {
    hide Loads, RecordsIn;
    RecordAt(Contents(d), k);
  }

  lemma HadLast(vs: seq<map<string, Record>>, v: map<string, Record>, k: string)
    ensures Had(vs + [v], k, Get(v, k))
    ensures forall r :: Had(vs, k, r) ==> Had(vs + [v], k, r)
  {
    assert (vs + [v])[|vs|] == v;
    forall r | Had(vs, k, r) ensures Had(vs + [v], k, r) {
      var i :| 0 <= i < |vs| && Get(vs[i], k) == r;
      assert (vs + [v])[i] == vs[i];
    }
  }

  lemma PinnedCovers(d: Dir)
    requires Pinned(d, {})
    ensures Covers(d, [RecordsIn(Contents(d))])
  {
    hide Loads, RecordsIn, RecordOf;
    forall k, f | IsRecord(FileOf(k)) && May(d, FileOf(k), f) ensures Had([RecordsIn(Contents(d))], k, RecordOf(k, f)) {
      RecordNow(d, k);
      HadLast([], RecordsIn(Contents(d)), k);
      assert [] + [RecordsIn(Contents(d))] == [RecordsIn(Contents(d))];
    }
  }

  lemma OpCovers(d: Dir, op: Op, vs: seq<map<string, Record>>)
    requires WellFormed(d) && Allowed(d, op) && Covers(d, vs)
    ensures var e := AfterOp(d, op);
            var now := RecordsIn(Contents(e));
            Covers(e, if Syncs(d, op) then [now] else vs + [now])
  {
    hide Loads, RecordsIn, RecordOf, AfterOp, StepsOf, Had;
    var e := AfterOp(d, op);
    var now := RecordsIn(Contents(e));
    OpEnds(d, op);
    if Syncs(d, op) {
      DurablePinned(e);
      PinnedCovers(e);
    } else {
      forall k, f | IsRecord(FileOf(k)) && May(e, FileOf(k), f) ensures Had(vs + [now], k, RecordOf(k, f)) {
        RecordNow(e, k);
        HadLast(vs, now, k);
        if !May(d, FileOf(k), f) { assert FileOf(k) == op.n && f == Made(op) == FileIn(e, e.now, op.n); }
      }
    }
  }

  lemma {:induction false} AllCover(d: Dir, ss: seq<StoreOp>, vs: seq<map<string, Record>>)
    requires Sound(d) && AllProper(ss) && AllAllowed(d, OpsOf(ss)) && Covers(d, vs) && EndsIn(vs, d)
    ensures Covers(AfterAll(d, OpsOf(ss)), Versions(d, ss, vs)) && EndsIn(Versions(d, ss, vs), AfterAll(d, OpsOf(ss)))
    decreases |ss|
  {
    hide Sound, Proper, OpOf, Allowed, AfterOp, Covers, Syncs, RecordsIn, Contents;
    if ss != [] {
      assert OpsOf(ss)[1..] == OpsOf(ss[1..]);
      SoundIsWellFormed(d);
      OpSound(d, ss[0]);
      OpCovers(d, OpOf(ss[0]), vs);
      var now := RecordsIn(Contents(AfterOp(d, OpOf(ss[0]))));
      AllCover(AfterOp(d, OpOf(ss[0])), ss[1..], if Syncs(d, OpOf(ss[0])) then [now] else vs + [now]);
    }
  }

  // After a crash in an operation a record is one of the versions, or what the operation makes
  // of it.
  lemma LoadsAVersion(d: Dir, e: Dir, s: StoreOp, vs: seq<map<string, Record>>, after: map<string, Content>, k: string)
    requires Sound(e) && Proper(s) && Only(d, e, OpOf(s).n, Made(OpOf(s))) && Covers(d, vs) && EndsIn(vs, d)
    requires CrashesTo(e, after)
    ensures Had(vs, k, Get(RecordsIn(after), k)) ||
            Get(RecordsIn(after), k) == Get(Served(RecordsIn(Contents(d)), s), k)
  {
    hide Loads, RecordsIn, Sound, Valid, DocumentOf, CrashesTo, Leaves;
    RecordAt(after, k);
    RecordAt(Contents(d), k);
    if IsRecord(FileOf(k)) {
      FileLeft(e, after, k);
      var f :| May(e, FileOf(k), f) && RecordOf(k, f) == Get(RecordsIn(after), k);
      if !May(d, FileOf(k), f) { MadeServes(RecordsIn(Contents(d)), s, k); }
    }
  }

  // What a crash leaves of a record, some file it may have been carries.
  lemma FileLeft(e: Dir, after: map<string, Content>, k: string)
    requires Sound(e) && CrashesTo(e, after) && IsRecord(FileOf(k))
    ensures exists f :: May(e, FileOf(k), f) && RecordOf(k, f) == Get(RecordsIn(after), k)
  {
    hide Loads, RecordsIn;
    RecordAt(after, k);
    assert Leaves(e, FileOf(k), Get(after, FileOf(k)));
    var f :| May(e, FileOf(k), f) && Survives(f, Get(after, FileOf(k)));
    if f.Some? { assert Whole(FileOf(k), f.value); }
  }

  lemma MadeServes(records: map<string, Record>, s: StoreOp, k: string)
    requires Proper(s) && FileOf(k) == OpOf(s).n
    ensures RecordOf(k, Made(OpOf(s))) == Get(Served(records, s), k)
  {
    hide Loads, Valid, DocumentOf;
    SuffixedIsNotBoot(k);
    match s
    case PutOp(r, _, _) =>
      OnlyFileOf(k, r.spec.name);
      DocumentLoads(r);
    case DeleteOp(name, _) => OnlyFileOf(k, name);
    case BootOp(_, _, _) =>
  }

  // Any sequence of writes and removals of valid records, on a directory no crash would
  // change, each done or failed at any step, and a crash before, in or after the last: nothing
  // that loads is bad; a record the last is not about, and that no operation has left unsynced,
  // is what it was; every record is a version it has had since an operation that synced the
  // directory, or what the last makes of it; and when no record was left unsynced what loads is
  // the map from before the last operation or the one after it.
  lemma AnySequenceIsAtomic(d0: Dir, ss: seq<StoreOp>, s: StoreOp, at: nat, after: map<string, Content>)
    requires Sound(d0) && Pinned(d0, {}) && AllProper(ss) && Proper(s) && AllAllowed(d0, OpsOf(ss))
    requires var d := AfterAll(d0, OpsOf(ss));
             Allowed(d, OpOf(s)) && at <= |StepsOf(d, OpOf(s))| && CrashesTo(StateIn(d, OpOf(s), at), after)
    ensures BadIn(after) == {}
    ensures var d, loose := AfterAll(d0, OpsOf(ss)), AllUnsynced(d0, OpsOf(ss), {});
            && (forall k :: FileOf(k) !in loose && FileOf(k) != OpOf(s).n ==>
                  Get(RecordsIn(after), k) == Get(RecordsIn(Contents(d)), k))
            && (forall k ::
                  var r := Get(RecordsIn(after), k);
                  || Had(Versions(d0, ss, [RecordsIn(Contents(d0))]), k, r)
                  || r == Get(Served(RecordsIn(Contents(d)), s), k))
            && ((forall n :: n in loose ==> !IsRecord(n)) ==>
                  RecordsIn(after) == RecordsIn(Contents(d)) || RecordsIn(after) == Served(RecordsIn(Contents(d)), s))
  {
    hide Loads, RecordsIn, BadIn, Sound, Only, CrashesTo, SteadyAt, IsRecord, Proper, OpOf, Served, StepsOf, Pinned,
         Covers, Had;
    var d, loose := AfterAll(d0, OpsOf(ss)), AllUnsynced(d0, OpsOf(ss), {});
    var op := OpOf(s);
    var e := StateIn(d, op, at);
    SoundIsWellFormed(d0);
    AllTrack(d0, OpsOf(ss), {});
    AllSound(d0, ss);
    StateOnly(d, op, at);
    ProperIsWritable(s);
    OnlySound(d, e, op.n, Made(op));
    SoundLoads(e, after);
    var vs := Versions(d0, ss, [RecordsIn(Contents(d0))]);
    PinnedCovers(d0);
    AllCover(d0, ss, [RecordsIn(Contents(d0))]);
    forall k
      ensures Had(vs, k, Get(RecordsIn(after), k)) ||
              Get(RecordsIn(after), k) == Get(Served(RecordsIn(Contents(d)), s), k)
    {
      LoadsAVersion(d, e, s, vs, after, k);
    }
    forall k | FileOf(k) !in loose && FileOf(k) != op.n
      ensures Get(RecordsIn(after), k) == Get(RecordsIn(Contents(d)), k)
    {
      if IsRecord(FileOf(k)) { PinnedIsSteady(d, loose, FileOf(k)); }
      RecordAfter(d, e, op.n, Made(op), after, k);
    }
    if forall n :: n in loose ==> !IsRecord(n) {
      forall n | IsRecord(n) ensures SteadyAt(d, n) { PinnedIsSteady(d, loose, n); }
      OldOrServed(d, e, s, after);
    }
  }

  lemma OldOrServed(d: Dir, e: Dir, s: StoreOp, after: map<string, Content>)
    requires Steady(d) && Sound(d) && Proper(s) && Only(d, e, OpOf(s).n, Made(OpOf(s))) && CrashesTo(e, after)
    ensures RecordsIn(after) == RecordsIn(Contents(d)) || RecordsIn(after) == Served(RecordsIn(Contents(d)), s)
  {
    hide Loads, RecordsIn, Sound, Only, CrashesTo, SteadyAt, IsRecord, Valid, DocumentOf;
    ProperIsWritable(s);
    match s
    case PutOp(r, _, _) =>
      CrashIsOldOrNew(d, e, r.spec.name, Made(OpOf(s)));
      DocumentLoads(r);
    case DeleteOp(name, _) =>
      CrashIsOldOrNew(d, e, name, None);
    case BootOp(_, _, _) =>
      BootIsNoRecord();
      forall k ensures Get(RecordsIn(after), k) == Get(RecordsIn(Contents(d)), k) {
        RecordAfter(d, e, BOOT, Made(OpOf(s)), after, k);
        FileNames(k);
        SuffixedIsNotBoot(k);
      }
      SameGets(RecordsIn(after), RecordsIn(Contents(d)));
  }

  lemma SuffixedIsNotBoot(k: string)
    ensures FileOf(k) != BOOT
  {
    FileNames(k);
    assert BOOT[|BOOT| - |SUFFIX|..][0] == 'o';
  }

  // ---- crash after crash ----

  // What a crash left, once it is on disk for good.
  ghost predicate Recovers(e: Dir, d: Dir) {
    && WellFormed(d) && Durable(d) && CrashesTo(e, Contents(d))
    && forall n :: n in d.now && d.now[n] < |d.files| ==> d.files[d.now[n]].synced
  }

  // The operations of one life of the machine, the last of them interrupted, and the
  // directory the next one starts on.
  datatype Life = Life(ss: seq<StoreOp>, last: StoreOp, at: nat, next: Dir)

  ghost predicate Lives(d: Dir, l: Life) {
    && AllProper(l.ss) && Proper(l.last) && AllAllowed(d, OpsOf(l.ss))
    && var e := AfterAll(d, OpsOf(l.ss));
       Allowed(e, OpOf(l.last)) && l.at <= |StepsOf(e, OpOf(l.last))| &&
         Recovers(StateIn(e, OpOf(l.last), l.at), l.next)
  }

  ghost predicate AllLive(d: Dir, ls: seq<Life>)
    decreases |ls|
  {
    ls == [] || (Lives(d, ls[0]) && AllLive(ls[0].next, ls[1..]))
  }

  // The life loses nothing but what it left unsynced.
  ghost predicate LosesNothing(d: Dir, l: Life)
    requires AllAllowed(d, OpsOf(l.ss))
  {
    var e, loose := AfterAll(d, OpsOf(l.ss)), AllUnsynced(d, OpsOf(l.ss), {});
    var records := RecordsIn(Contents(l.next));
    && BadIn(Contents(l.next)) == {} && Machine.Load(DiskOf(l.next)) == records
    && (forall k :: FileOf(k) !in loose && FileOf(k) != OpOf(l.last).n ==>
       Get(records, k) == Get(RecordsIn(Contents(e)), k))
    && (forall k ::
          || Had(Versions(d, l.ss, [RecordsIn(Contents(d))]), k, Get(records, k))
          || Get(records, k) == Get(Served(RecordsIn(Contents(e)), l.last), k))
    && ((forall n :: n in loose ==> !IsRecord(n)) ==>
          records == RecordsIn(Contents(e)) || records == Served(RecordsIn(Contents(e)), l.last))
  }

  ghost predicate NoneLosesAnything(d: Dir, ls: seq<Life>)
    requires AllLive(d, ls)
    decreases |ls|
  {
    ls == [] || (LosesNothing(d, ls[0]) && NoneLosesAnything(ls[0].next, ls[1..]))
  }

  // However many crashes come, each at any step of any operation, no record is ever bad, and
  // each time the daemon loads the records from before or after the operation interrupted.
  lemma {:induction false} CrashAfterCrash(d: Dir, ls: seq<Life>)
    requires Sound(d) && Durable(d) && AllLive(d, ls)
    ensures NoneLosesAnything(d, ls)
    decreases |ls|
  {
    hide Sound, Lives, LosesNothing;
    if ls != [] {
      OneLife(d, ls[0]);
      CrashAfterCrash(ls[0].next, ls[1..]);
    }
  }

  lemma OneLife(d: Dir, l: Life)
    requires Sound(d) && Durable(d) && Lives(d, l)
    ensures AllAllowed(d, OpsOf(l.ss)) && LosesNothing(d, l) && Sound(l.next) && Durable(l.next)
  {
    hide Sound, Only, Proper, RecordsIn, BadIn, CrashesTo, Loads, Served;
    var e := AfterAll(d, OpsOf(l.ss));
    var f := StateIn(e, OpOf(l.last), l.at);
    DurablePinned(d);
    AnySequenceIsAtomic(d, l.ss, l.last, l.at, Contents(l.next));
    AllSound(d, l.ss);
    SoundIsWellFormed(e);
    StateOnly(e, OpOf(l.last), l.at);
    ProperIsWritable(l.last);
    OnlySound(e, f, OpOf(l.last).n, Made(OpOf(l.last)));
    RecoveredIsSound(f, l.next);
    LoadReadsFiles(l.next);
  }

  // ---- as the supervisor meets it ----

  // How a store call that stopped at a fault looks from outside.
  function Reported(fault: Fault): Written {
    if fault == NoFault then Done else if fault == AtSyncDir then FailedAfter else FailedBefore
  }

  function SavedAt(m: map<string, Content>, name: string): Option<Saved> {
    if FileOf(name) !in m || !IsRecord(FileOf(name)) then None
    else
      match Loads(name, m[FileOf(name)])
      case None => None
      case Some(r) => Some(Saved(m[FileOf(name)].spec, r.desired))
  }

  function SavedIn(m: map<string, Content>): map<string, Saved> {
    map n | n in Bases(m) && SavedAt(m, n).Some? :: SavedAt(m, n).value
  }

  function DiskOf(d: Dir): Disk { Disk(SavedIn(Contents(d)), map[], BootIn(Contents(d))) }

  // ---- the boot id and the projects, read back ----

  // White space, as unicode.IsSpace has it.
  predicate Space(c: char) {
    || '\t' <= c <= '\r' || c == ' ' || c == '\U{85}' || c == '\U{a0}' || c == '\U{1680}'
    || '\U{2000}' <= c <= '\U{200a}' || c == '\U{2028}' || c == '\U{2029}' || c == '\U{202f}' || c == '\U{205f}'
    || c == '\U{3000}'
  }

  function TrimLeft(s: string): string {
    if s != "" && Space(s[0]) then TrimLeft(s[1..]) else s
  }

  function TrimRight(s: string): string {
    if s != "" && Space(s[|s| - 1]) then TrimRight(s[..|s| - 1]) else s
  }

  // strings.TrimSpace.
  function Trim(s: string): string { TrimRight(TrimLeft(s)) }

  // No space at either end.
  predicate Trimmed(s: string) { s == "" || (!Space(s[0]) && !Space(s[|s| - 1])) }

  // What is left begins and ends with no space, and is all of a text that does so already.
  lemma {:induction false} TrimLeftLeaves(s: string)
    ensures var t := TrimLeft(s);
            && (t != "" ==> !Space(t[0])) && |t| <= |s|
            && (s != "" && !Space(s[|s| - 1]) ==> t != "" && !Space(t[|t| - 1]))
  {
    if s != "" && Space(s[0]) && |s| > 1 { TrimLeftLeaves(s[1..]); }
  }

  lemma {:induction false} TrimRightLeaves(s: string)
    ensures var t := TrimRight(s);
            && (t != "" ==> !Space(t[|t| - 1])) && |t| <= |s| && t == s[..|t|]
  {
    if s != "" && Space(s[|s| - 1]) { TrimRightLeaves(s[..|s| - 1]); }
  }

  lemma TrimTrims(s: string)
    ensures Trimmed(Trim(s))
    ensures Trimmed(s) ==> Trim(s) == s
  {
    TrimLeftLeaves(s);
    TrimRightLeaves(TrimLeft(s));
  }

  // A line that was written is read back exactly when it has no space at either end.
  lemma LineReadsBack(s: string)
    ensures Trim(s + "\n") == s <==> Trimmed(s)
  {
    TrimTrims(s + "\n");
    if s != "" && Trimmed(s) {
      var line := s + "\n";
      assert TrimLeft(line) == line && line[..|line| - 1] == s;
      assert TrimRight(line) == TrimRight(s) == s;
    } else if s == "" {
      assert s + "\n" == "\n" && "\n"[1..] == "";
      assert TrimLeft("\n") == TrimLeft("") == "" && TrimRight("") == "";
    }
  }

  function TextIn(m: map<string, Content>, file: string): Option<string> {
    if file in m && m[file].Text? then Some(m[file].text) else None
  }

  // The boot on record, "" before the first.
  function BootIn(m: map<string, Content>): string {
    match TextIn(m, BOOT)
    case None => ""
    case Some(s) => Trim(s)
  }

  // A project as it is read: its Compose file, and its directory if that was given.
  function ProjectIn(m: map<string, Content>, name: string): Option<Project> {
    match (TextIn(m, name + YAML), TextIn(m, name + DIR))
    case (Some(c), Some(d)) => Some(Project(c, Trim(d)))
    case (Some(c), None) => Some(Project(c, ""))
    case _ => None
  }

  // A boot id that was written is the one on record, as the daemon gives it: without spaces
  // around it.
  lemma ABootIsRead(d: Dir, id: string, tmp: string, fault: Fault)
    requires WellFormed(d) && Allowed(d, OpOf(BootOp(id, tmp, fault))) && Trimmed(id)
    ensures DiskOf(AfterOp(d, OpOf(BootOp(id, tmp, fault)))).boot ==
            if fault == NoFault || fault == AtSyncDir then id else DiskOf(d).boot
  {
    hide SavedIn, Trim, Trimmed, WellFormed, StepsOf, AfterOp;
    var op := OpOf(BootOp(id, tmp, fault));
    OpEnds(d, op);
    LineReadsBack(id);
    ContentAt(d, BOOT);
    ContentAt(AfterOp(d, op), BOOT);
  }

  lemma ContentAt(d: Dir, n: string)
    ensures Get(Contents(d), n) == match FileIn(d, d.now, n) case None => None case Some(f) => Some(f.content)
  {
  }

  // What the two files of a project hold once they are written is read back as that project
  // exactly when its directory has no space at either end.
  lemma AProjectReadsBack(d: Dir, name: string, p: Project)
    requires FileIn(d, d.now, name + ".yaml") == Some(File(Text(p.compose), true))
    requires FileIn(d, d.now, name + ".dir") == if p.dir == "" then None else Some(File(Text(p.dir + "\n"), true))
    ensures ProjectIn(Contents(d), name) == Some(p) <==> Trimmed(p.dir)
  {
    hide Trim, Trimmed;
    ContentAt(d, name + DIR);
    ContentAt(d, name + YAML);
    LineReadsBack(p.dir);
    assert Trimmed("") by { TrimTrims(""); LineReadsBack(""); NothingIsTrimmed(); }
  }

  lemma NothingIsTrimmed()
    ensures Trimmed("")
  {
  }

  // A directory that may be given and is not read back.
  lemma ADirectoryIsLost()
    ensures CleanAbs("/data ") && !Trimmed("/data ") && Trim("/data " + "\n") == "/data"
  {
    assert "/data " + "\n" == "/data \n";
    assert "/data \n"[..6] == "/data " && "/data "[..5] == "/data";
    assert TrimRight("/data \n") == TrimRight("/data ") == TrimRight("/data") == "/data";
    assert CleanAbs("/data ") by {
      var s := "data ";
      assert "/data "[1..] == s;
      SplitApart(s, '/', "");
    }
  }

  lemma SavedGet(m: map<string, Content>, name: string)
    ensures Get(SavedIn(m), name) == SavedAt(m, name)
  {
    hide Loads;
  }

  lemma LoadGet(d: Disk, k: string)
    ensures Get(Machine.Load(d), k) ==
            if k in d.records && Machine.Loadable(k, d.records[k]) then
              Some(Record(Decode(d.records[k].spec), d.records[k].desired))
            else None
  {
    hide Valid, Decode;
  }

  lemma SavedLoads(m: map<string, Content>, k: string)
    ensures var s := SavedAt(m, k);
            (if FileOf(k) in m && IsRecord(FileOf(k)) then Loads(k, m[FileOf(k)]) else None) ==
            if s.Some? && Machine.Loadable(k, s.value) then Some(Record(Decode(s.value.spec), s.value.desired))
            else None
  {
    hide Valid, Decode;
  }

  // The daemon, starting, loads the records of the files.
  lemma LoadReadsFiles(d: Dir)
    ensures Machine.Load(DiskOf(d)) == RecordsIn(Contents(d))
  {
    hide Machine.Load, RecordsIn, SavedAt, SavedIn;
    forall k ensures Get(Machine.Load(DiskOf(d)), k) == Get(RecordsIn(Contents(d)), k) {
      LoadGet(DiskOf(d), k);
      SavedLoads(Contents(d), k);
      SavedGet(Contents(d), k);
      RecordAt(Contents(d), k);
    }
    SameGets(Machine.Load(DiskOf(d)), RecordsIn(Contents(d)));
  }

  lemma SavedElsewhere(d0: Dir, d: Dir, name: string, w: Option<File>, k: string)
    requires ValidName(name) && Only(d0, d, FileOf(name), w) && k != name
    ensures SavedAt(Contents(d), k) == SavedAt(Contents(d0), k)
  {
    hide Loads, Suffixed, Base;
    FileNames(name);
    FileNames(k);
    if IsRecord(FileOf(k)) { assert FileIn(d, d.now, FileOf(k)) == FileIn(d0, d0.now, FileOf(k)); }
  }

  lemma PutSaves(d0: Dir, d: Dir, r: Record, fault: Fault)
    requires Valid(r.spec) && ValidName(r.spec.name)
    requires var n, w := FileOf(r.spec.name), Some(File(DocumentOf(r), true));
             && Only(d0, d, n, w)
             && FileIn(d, d.now, n) == if fault == NoFault || fault == AtSyncDir then w else FileIn(d0, d0.now, n)
    ensures SavedIn(Contents(d)) == Save(DiskOf(d0), r, Reported(fault)).records
  {
    hide Valid, Only, Loads, SavedIn;
    var name, after := r.spec.name, Save(DiskOf(d0), r, Reported(fault)).records;
    DocumentLoads(r);
    FileNames(name);
    forall k ensures Get(SavedIn(Contents(d)), k) == Get(after, k) {
      SavedGet(Contents(d), k);
      SavedGet(Contents(d0), k);
      if k != name { SavedElsewhere(d0, d, name, Some(File(DocumentOf(r), true)), k); }
    }
    SameGets(SavedIn(Contents(d)), after);
  }

  lemma DeleteDrops(d0: Dir, d: Dir, name: string, written: Written)
    requires ValidName(name) && Only(d0, d, FileOf(name), None)
    requires FileIn(d, d.now, FileOf(name)) ==
             if written == FailedBefore then FileIn(d0, d0.now, FileOf(name)) else None
    ensures SavedIn(Contents(d)) == Drop(DiskOf(d0), name, written).records
  {
    hide Only, Loads, SavedIn;
    var after := Drop(DiskOf(d0), name, written).records;
    forall k ensures Get(SavedIn(Contents(d)), k) == Get(after, k) {
      SavedGet(Contents(d), k);
      SavedGet(Contents(d0), k);
      if k != name { SavedElsewhere(d0, d, name, None, k); }
    }
    SameGets(SavedIn(Contents(d)), after);
  }

  // ---- the store ----

  class Store {
    const main: Directory
    const projects: Directory

    constructor (main: Directory, projects: Directory)
      ensures this.main == main && this.projects == projects
    {
      this.main, this.projects := main, projects;
    }

    // Writes one record atomically: after a crash at any step of it, what loads is the map
    // from before or after it. A failure before the rename changes nothing of that.
    method Put(r: Record, tmp: string, fault: Fault) returns (ok: bool)
      requires WellFormed(main.dir) && (ValidName(r.spec.name) ==> Allowed(main.dir, OpOf(PutOp(r, tmp, fault))))
      modifies main
      ensures ok <==> ValidName(r.spec.name) && fault == NoFault
      ensures !ValidName(r.spec.name) ==> main.dir == old(main.dir) && main.seen == old(main.seen)
      ensures ValidName(r.spec.name) ==>
                var op := OpOf(PutOp(r, tmp, fault));
                && main.seen == old(main.seen) + StepsOf(old(main.dir), op) && main.dir == AfterOp(old(main.dir), op)
                && main.OnlySince(|old(main.seen)|, old(main.dir), op.n, Made(op))
      ensures ok ==> Durable(main.dir)
      ensures Sound(old(main.dir)) && Valid(r.spec) ==> Sound(main.dir)
      ensures Valid(r.spec) ==>
                SavedIn(Contents(main.dir)) == Save(DiskOf(old(main.dir)), r, Reported(fault)).records
      ensures Sound(old(main.dir)) && Steady(old(main.dir)) && Valid(r.spec) ==>
                forall i :: |old(main.seen)| <= i < |main.seen| ==>
                  OldOrNew(old(main.dir), main.seen[i], r.spec.name, Some(File(DocumentOf(r), true)))
      ensures Steady(old(main.dir)) && fault != AtSyncDir ==> Steady(main.dir)
    {
      hide Only, Sound, OldOrNew, Loads, Valid, DocumentOf, Steady, StepsOf, WellFormed;
      if Valid(r.spec) { DocumentLoads(r); }
      if !ValidName(r.spec.name) { return false; }
      FileNames(r.spec.name);
      ghost var d0, k, op := main.dir, |main.seen|, OpOf(PutOp(r, tmp, fault));
      OpEnds(d0, op);
      ok := main.Write(FileOf(r.spec.name), DocumentOf(r), tmp, fault);
      if Steady(d0) { PutStaysSteady(d0, op); }
      if Valid(r.spec) {
        PutSaves(d0, main.dir, r, fault);
        if Sound(d0) { OnlySound(d0, main.dir, op.n, Made(op)); }
        if Sound(d0) && Steady(d0) {
          forall i | k <= i < |main.seen| ensures OldOrNew(d0, main.seen[i], r.spec.name, Made(op)) {
            CrashIsOldOrNew(d0, main.seen[i], r.spec.name, Made(op));
          }
        }
      }
    }

    // Writes a project's directory, then its Compose file: each is what it was or what was
    // written, whatever step is the last, and the second is touched only once the first is what
    // was written, for good.
    method PutProject(name: string, p: Project, tmps: (string, string), faults: (Fault, Fault)) returns (ok: bool)
      requires WellFormed(projects.dir) && Hidden(tmps.0) && Hidden(tmps.1) && tmps.0 != tmps.1
      requires tmps.0 !in projects.dir.now && tmps.1 !in projects.dir.now
      requires p.dir == "" ==> faults.0 == NoFault || faults.0 == AtRename || faults.0 == AtSyncDir
      modifies projects
      ensures !ValidName(name) ==> !ok && projects.dir == old(projects.dir) && projects.seen == old(projects.seen)
      ensures ValidName(name) ==>
                && old(projects.seen) <= projects.seen
                && (forall i :: |old(projects.seen)| <= i < |projects.seen| ==>
                      OnlyPair(old(projects.dir), projects.seen[i], name + DIR, DirFile(p), name + YAML,
                        ComposeFile(p)))
                && OnlyPair(old(projects.dir), projects.dir, name + DIR, DirFile(p), name + YAML, ComposeFile(p))
      ensures ValidName(name) ==>
                forall i :: |old(projects.seen)| <= i < |projects.seen| ==>
                  FirstFirst(old(projects.dir), projects.seen[i], name + DIR, DirFile(p), name + YAML)
      ensures ok ==> Durable(projects.dir)
      ensures ok ==>
                FileIn(projects.dir, projects.dir.now, name + ".dir") ==
                if p.dir == "" then None else Some(File(Text(p.dir + "\n"), true))
      ensures ok ==> FileIn(projects.dir, projects.dir.now, name + ".yaml") == Some(File(Text(p.compose), true))
      ensures ok ==> (ProjectIn(Contents(projects.dir), name) == Some(p) <==> Trimmed(p.dir))
    {
      hide ProjectIn, Trimmed, Contents, Only, OnlyPair, FirstFirst, IsFor, WellFormed, Durable, StepsOf, AfterOp;
      if !ValidName(name) { return false; }
      ProjectFiles(name);
      ghost var d0, k := projects.dir, |projects.seen|;
      ghost var first := if p.dir == "" then RemoveOp(name + DIR, faults.0)
                         else WriteOp(name + DIR, Text(p.dir + "\n"), tmps.0, faults.0);
      OpEnds(d0, first);
      if p.dir == "" {
        ok := projects.Remove(name + DIR, faults.0);
      } else {
        ok := projects.Write(name + DIR, Text(p.dir + "\n"), tmps.0, faults.0);
      }
      ghost var d1, k1 := projects.dir, |projects.seen|;
      forall d | Only(d0, d, name + DIR, DirFile(p))
        ensures OnlyPair(d0, d, name + DIR, DirFile(p), name + YAML, ComposeFile(p))
        ensures FirstFirst(d0, d, name + DIR, DirFile(p), name + YAML)
      {
        OnlyWellFormed(d0, d, name + DIR, DirFile(p));
        FirstTouched(d0, d, name + DIR, DirFile(p), name + YAML);
        SameSelf(d, name + YAML, ComposeFile(p));
        PairOf(d0, d, d, name + DIR, DirFile(p), name + YAML, ComposeFile(p));
      }
      if !ok { return false; }
      FirstSettled(d0, first);
      OnlyWellFormed(d0, d1, name + DIR, DirFile(p));
      OpEnds(d1, WriteOp(name + YAML, Text(p.compose), tmps.1, faults.1));
      ok := projects.Write(name + YAML, Text(p.compose), tmps.1, faults.1);
      forall d | Only(d1, d, name + YAML, ComposeFile(p))
        ensures OnlyPair(d0, d, name + DIR, DirFile(p), name + YAML, ComposeFile(p))
        ensures FileIn(d, d.now, name + DIR) == FileIn(d1, d1.now, name + DIR)
        ensures FirstFirst(d0, d, name + DIR, DirFile(p), name + YAML)
      {
        SecondTouched(d0, d1, d, name + DIR, DirFile(p), name + YAML, ComposeFile(p));
        PairOf(d0, d1, d, name + DIR, DirFile(p), name + YAML, ComposeFile(p));
        OnlyElsewhere(d1, d, name + YAML, ComposeFile(p), name + DIR);
      }
      if ok { AProjectReadsBack(projects.dir, name, p); }
    }

    // Removes one record, which need not be there.
    method Delete(name: string, fault: Fault) returns (ok: bool)
      requires WellFormed(main.dir) && (ValidName(name) ==> Allowed(main.dir, OpOf(DeleteOp(name, fault))))
      modifies main
      ensures !ValidName(name) ==> !ok && main.dir == old(main.dir) && main.seen == old(main.seen)
      ensures ValidName(name) ==>
                var op := OpOf(DeleteOp(name, fault));
                && (ok <==> fault == NoFault || op.n !in old(main.dir).now)
                && main.seen == old(main.seen) + StepsOf(old(main.dir), op) && main.dir == AfterOp(old(main.dir), op)
                && main.OnlySince(|old(main.seen)|, old(main.dir), op.n, None)
      ensures Sound(old(main.dir)) ==> Sound(main.dir)
      ensures ValidName(name) ==>
                SavedIn(Contents(main.dir)) ==
                Drop(DiskOf(old(main.dir)), name, if ok then Done else Reported(fault)).records
      ensures Sound(old(main.dir)) && Steady(old(main.dir)) && ValidName(name) ==>
                forall i :: |old(main.seen)| <= i < |main.seen| ==> OldOrNew(old(main.dir), main.seen[i], name, None)
      ensures Steady(old(main.dir)) && (fault != AtSyncDir || ok) ==> Steady(main.dir)
    {
      hide Only, Sound, OldOrNew, Loads, Steady, StepsOf, AfterOp, WellFormed;
      if !ValidName(name) { return false; }
      FileNames(name);
      ghost var d0, k, op := main.dir, |main.seen|, OpOf(DeleteOp(name, fault));
      OpEnds(d0, op);
      MissingFile(d0, op.n);
      ok := main.Remove(FileOf(name), fault);
      if Steady(d0) { PutStaysSteady(d0, op); }
      DeleteDrops(d0, main.dir, name, if ok then Done else Reported(fault));
      if Sound(d0) { OnlySound(d0, main.dir, FileOf(name), None); }
      if Sound(d0) && Steady(d0) {
        forall i | k <= i < |main.seen| ensures OldOrNew(d0, main.seen[i], name, None) {
          CrashIsOldOrNew(d0, main.seen[i], name, None);
        }
      }
    }
  }

  lemma MissingFile(d: Dir, n: string)
    ensures n !in d.now ==> FileIn(d, d.now, n) == None
  {
  }

  // Only a failure in syncing the directory unsettles what loads.
  lemma PutStaysSteady(d: Dir, op: Op)
    requires WellFormed(d) && Allowed(d, op) && Steady(d)
    ensures op.fault != AtSyncDir || (op.RemoveOp? && op.n !in d.now) ==> Steady(AfterOp(d, op))
  {
    hide Steady, Directories.Same, StepsOf;
    OpEnds(d, op);
    var e := AfterOp(d, op);
    if BeforeRename(op.fault) { SameIsSteady(d, e); } else if Syncs(d, op) { DurableIsSteady(e); }
  }

  // Two files may have changed, each from what it was to what was written.
  ghost predicate OnlyPair(d0: Dir, d: Dir, a: string, wa: Option<File>, b: string, wb: Option<File>) {
    && WellFormed(d)
    && (forall n :: !Hidden(n) && n != a && n != b ==> FileIn(d, d.now, n) == FileIn(d0, d0.now, n))
    && (forall n, f :: !Hidden(n) && n != a && n != b && May(d, n, f) ==> May(d0, n, f))
    && (forall f :: May(d, a, f) ==> May(d0, a, f) || f == wa)
    && (forall f :: May(d, b, f) ==> May(d0, b, f) || f == wb)
  }

  // The file is what was written, and no crash makes it anything else, but for what was missing
  // already when it was to be removed.
  ghost predicate IsFor(d0: Dir, d: Dir, a: string, wa: Option<File>) {
    && FileIn(d, d.now, a) == wa
    && forall f :: May(d, a, f) ==> f == wa || (wa == None && a !in d0.now && May(d0, a, f))
  }

  // The second file is untouched, or the first is what was written.
  ghost predicate FirstFirst(d0: Dir, d: Dir, a: string, wa: Option<File>, b: string) {
    || (FileIn(d, d.now, b) == FileIn(d0, d0.now, b) && forall f :: May(d, b, f) ==> May(d0, b, f))
    || IsFor(d0, d, a, wa)
  }

  lemma FirstTouched(d0: Dir, d: Dir, a: string, wa: Option<File>, b: string)
    requires Only(d0, d, a, wa) && !Hidden(b) && a != b
    ensures FirstFirst(d0, d, a, wa, b)
  {
  }

  lemma SecondTouched(d0: Dir, d1: Dir, d: Dir, a: string, wa: Option<File>, b: string, wb: Option<File>)
    requires IsFor(d0, d1, a, wa) && Only(d1, d, b, wb) && !Hidden(a) && a != b
    ensures FirstFirst(d0, d, a, wa, b)
  {
  }

  // An operation that is reported done.
  lemma FirstSettled(d: Dir, op: Op)
    requires WellFormed(d) && Allowed(d, op) && !Hidden(op.n)
    requires op.fault == NoFault || (op.RemoveOp? && op.n !in d.now)
    ensures IsFor(d, AfterOp(d, op), op.n, Made(op))
  {
    hide AfterOp, StepsOf;
    OpEnds(d, op);
    if Syncs(d, op) { DurablePinned(AfterOp(d, op)); }
  }

  lemma PairOf(d0: Dir, d1: Dir, d2: Dir, a: string, wa: Option<File>, b: string, wb: Option<File>)
    requires !Hidden(a) && !Hidden(b) && a != b && Only(d0, d1, a, wa) && Only(d1, d2, b, wb)
    ensures OnlyPair(d0, d2, a, wa, b, wb)
  {
  }

  lemma OnlyElsewhere(d0: Dir, d: Dir, target: string, w: Option<File>, n: string)
    requires Only(d0, d, target, w) && !Hidden(n) && n != target
    ensures FileIn(d, d.now, n) == FileIn(d0, d0.now, n)
  {
  }

  const YAML := ".yaml"
  const DIR := ".dir"

  lemma ProjectFiles(name: string)
    requires ValidName(name)
    ensures !Hidden(name + DIR) && !Hidden(name + YAML) && name + DIR != name + YAML
  {
    assert (name + DIR)[|name| + 1] == 'd' && (name + YAML)[|name| + 1] == 'y';
  }

  // The files of a project: its directory when one was given, and its Compose file.
  function DirFile(p: Project): Option<File> {
    if p.dir == "" then None else Some(File(Text(p.dir + "\n"), true))
  }

  function ComposeFile(p: Project): Option<File> { Some(File(Text(p.compose), true)) }

  // What a crash left, once it is on disk for good, is sound again.
  lemma RecoveredIsSound(d: Dir, d1: Dir)
    requires Sound(d) && Recovers(d, d1)
    ensures Sound(d1)
  {
    hide Loads;
    DurablePinned(d1);
    forall n, f | IsRecord(n) && May(d1, n, Some(f)) ensures Whole(n, f) {
      assert Some(f) == FileIn(d1, d1.now, n);
      assert Get(Contents(d1), n) == Some(f.content);
      assert Leaves(d, n, Get(Contents(d1), n));
      var g :| May(d, n, g) && Survives(g, Get(Contents(d1), n));
      assert Whole(n, g.value);
    }
  }

  // The document of a valid record loads, as the record it was.
  lemma DocumentLoads(r: Record)
    requires Valid(r.spec)
    ensures Loads(r.spec.name, DocumentOf(r)) == Some(Record(Reloaded(r.spec), r.desired))
    ensures ValidName(r.spec.name) && IsRecord(FileOf(r.spec.name))
    ensures Whole(FileOf(r.spec.name), File(DocumentOf(r), true))
  {
    ReloadedKeeps(r.spec);
    FileNames(r.spec.name);
    assert ValidName(r.spec.name);
  }
}
