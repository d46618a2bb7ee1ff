// A directory and what a crash leaves of it: a file is replaced by writing a temporary one,
// syncing it, renaming it and syncing the directory (internal/store/store.go).
module Directories {
  import opened Basics
  import opened Specs

  // ---- a directory ----

  // A record's document, whose desired state is any text, or another text.
  datatype Content = Json(spec: Stored, desired: string) | Text(text: string)

  // A file whose content was not synced holds anything after a crash.
  datatype File = File(content: Content, synced: bool)

  // The entries, those they may still be on disk (every state since the directory was last
  // synced), and the files they name.
  datatype Dir = Dir(now: map<string, nat>, past: seq<map<string, nat>>, files: seq<File>)

  function States(d: Dir): seq<map<string, nat>> { d.past + [d.now] }

  ghost predicate WellFormed(d: Dir) {
    forall i, n :: 0 <= i < |States(d)| && n in States(d)[i] ==> States(d)[i][n] < |d.files|
  }

  function FileIn(d: Dir, entries: map<string, nat>, n: string): Option<File> {
    if n in entries && entries[n] < |d.files| then Some(d.files[entries[n]]) else None
  }

  // What a name may be after a crash: what it is, or was at some time since the last sync.
  ghost predicate May(d: Dir, n: string, f: Option<File>) {
    exists i :: 0 <= i < |States(d)| && FileIn(d, States(d)[i], n) == f
  }

  ghost predicate Survives(f: Option<File>, c: Option<Content>) {
    match f
    case None => c == None
    case Some(g) => c.Some? && (g.synced ==> c == Some(g.content))
  }

  // Each entry reaches the disk on its own, or not.
  ghost predicate Leaves(d: Dir, n: string, c: Option<Content>) {
    exists f :: May(d, n, f) && Survives(f, c)
  }

  ghost predicate CrashesTo(d: Dir, after: map<string, Content>) {
    forall n :: Leaves(d, n, Get(after, n))
  }

  predicate Durable(d: Dir) { d.past == [] }

  // What is read without a crash.
  function Contents(d: Dir): map<string, Content> {
    map n | n in d.now && d.now[n] < |d.files| :: d.files[d.now[n]].content
  }

  // ---- the steps ----

  function Moved(d: Dir, entries: map<string, nat>): Dir { d.(past := d.past + [d.now], now := entries) }

  function Created(d: Dir, tmp: string): Dir {
    Moved(d, d.now[tmp := |d.files|]).(files := d.files + [File(Text(""), false)])
  }

  function Filled(d: Dir, id: nat, f: File): Dir
    requires id < |d.files|
  {
    d.(files := d.files[id := f])
  }

  function Renamed(d: Dir, tmp: string, n: string): Dir
    requires tmp in d.now
  {
    Moved(d, Without(d.now, tmp)[n := d.now[tmp]])
  }

  function Unlinked(d: Dir, n: string): Dir { Moved(d, Without(d.now, n)) }

  function Synced(d: Dir): Dir { d.(past := []) }

  // A temporary file is hidden.
  predicate Hidden(n: string) { n != "" && n[0] == '.' }

  // The file is named by tmp alone.
  ghost predicate Private(d: Dir, tmp: string, id: nat) {
    forall i, n :: 0 <= i < |States(d)| && n in States(d)[i] && States(d)[i][n] == id ==> n == tmp
  }

  // From one state to another: no other visible name changes or gains what it may be after
  // a crash, and target may only have become what was written, whole.
  ghost predicate Only(d0: Dir, d: Dir, target: string, written: Option<File>) {
    && WellFormed(d)
    && (forall n :: !Hidden(n) && n != target ==> FileIn(d, d.now, n) == FileIn(d0, d0.now, n))
    && (forall n, f :: !Hidden(n) && n != target && May(d, n, f) ==> May(d0, n, f))
    && (forall f :: May(d, target, f) ==> May(d0, target, f) || f == written)
  }

  // Nothing a visible name may be is ruled out.
  ghost predicate Keeps(d0: Dir, d: Dir) {
    forall n, f :: !Hidden(n) && May(d0, n, f) ==> May(d, n, f)
  }

  // No visible name changes at all.
  ghost predicate Same(d0: Dir, d: Dir) {
    && WellFormed(d)
    && (forall n :: !Hidden(n) ==> FileIn(d, d.now, n) == FileIn(d0, d0.now, n))
    && (forall n, f :: !Hidden(n) && May(d, n, f) ==> May(d0, n, f))
  }

  lemma MayMoved(d: Dir, entries: map<string, nat>, n: string, f: Option<File>)
    ensures May(Moved(d, entries), n, f) <==> May(d, n, f) || FileIn(d, entries, n) == f
  {
    var e := Moved(d, entries);
    assert States(e) == States(d) + [entries];
    if May(d, n, f) {
      var i :| 0 <= i < |States(d)| && FileIn(d, States(d)[i], n) == f;
      assert FileIn(e, States(e)[i], n) == f;
    }
    if FileIn(d, entries, n) == f {
      assert FileIn(e, States(e)[|States(d)|], n) == f;
    }
  }

  lemma MayNow(d: Dir, n: string)
    ensures May(d, n, FileIn(d, d.now, n))
  {
    assert States(d)[|d.past|] == d.now;
  }

  lemma CreateKeeps(d: Dir, tmp: string)
    requires WellFormed(d) && Hidden(tmp) && tmp !in d.now
    ensures Same(d, Created(d, tmp)) && Keeps(d, Created(d, tmp)) && Private(Created(d, tmp), tmp, |d.files|)
  {
    var e := Created(d, tmp);
    var id := |d.files|;
    assert States(e) == States(d) + [e.now];
    forall i, n | 0 <= i < |States(d)| ensures FileIn(e, States(d)[i], n) == FileIn(d, States(d)[i], n) {}
    forall n | n != tmp ensures FileIn(e, e.now, n) == FileIn(d, d.now, n) { assert d.now == States(d)[|d.past|]; }
    forall n, f | !Hidden(n) && May(e, n, f) ensures May(d, n, f) {
      var i :| 0 <= i < |States(e)| && FileIn(e, States(e)[i], n) == f;
      if i < |States(d)| {
        assert FileIn(d, States(d)[i], n) == f;
      } else {
        MayNow(d, n);
      }
    }
    forall n, f | !Hidden(n) && May(d, n, f) ensures May(e, n, f) {
      var i :| 0 <= i < |States(d)| && FileIn(d, States(d)[i], n) == f;
      assert FileIn(e, States(e)[i], n) == f;
    }
  }

  lemma FillKeeps(d: Dir, tmp: string, id: nat, f: File)
    requires WellFormed(d) && Hidden(tmp) && id < |d.files| && Private(d, tmp, id)
    ensures Same(d, Filled(d, id, f)) && Keeps(d, Filled(d, id, f)) && Private(Filled(d, id, f), tmp, id)
  {
    var e := Filled(d, id, f);
    assert States(e) == States(d);
    forall i, n | 0 <= i < |States(d)| && !Hidden(n) ensures FileIn(e, States(d)[i], n) == FileIn(d, States(d)[i], n) {}
    assert d.now == States(d)[|d.past|];
    forall n, g | !Hidden(n) && May(e, n, g) ensures May(d, n, g) {
      var i :| 0 <= i < |States(e)| && FileIn(e, States(e)[i], n) == g;
      assert FileIn(d, States(d)[i], n) == g;
    }
    forall n, g | !Hidden(n) && May(d, n, g) ensures May(e, n, g) {
      var i :| 0 <= i < |States(d)| && FileIn(d, States(d)[i], n) == g;
      assert FileIn(e, States(e)[i], n) == g;
    }
  }

  lemma RenameOnly(d: Dir, tmp: string, n: string)
    requires WellFormed(d) && Hidden(tmp) && !Hidden(n) && tmp in d.now && d.now[tmp] < |d.files|
    ensures Only(d, Renamed(d, tmp, n), n, Some(d.files[d.now[tmp]]))
    ensures FileIn(Renamed(d, tmp, n), Renamed(d, tmp, n).now, n) == Some(d.files[d.now[tmp]])
    ensures Keeps(d, Renamed(d, tmp, n))
  {
    var entries := Without(d.now, tmp)[n := d.now[tmp]];
    assert d.now == States(d)[|d.past|];
    MovedOnly(d, entries, n);
  }

  lemma UnlinkOnly(d: Dir, n: string)
    requires WellFormed(d)
    ensures Only(d, Unlinked(d, n), n, None) && FileIn(Unlinked(d, n), Unlinked(d, n).now, n) == None
    ensures Hidden(n) ==> Same(d, Unlinked(d, n))
    ensures Keeps(d, Unlinked(d, n))
  {
    var entries := Without(d.now, n);
    assert d.now == States(d)[|d.past|];
    MovedOnly(d, entries, n);
    forall k, f ensures May(Unlinked(d, n), k, f) <==> May(d, k, f) || FileIn(d, entries, k) == f {
      MayMoved(d, entries, k, f);
    }
  }

  lemma MovedOnly(d: Dir, entries: map<string, nat>, n: string)
    requires WellFormed(d) && forall k :: k in entries ==> entries[k] < |d.files|
    requires forall k :: !Hidden(k) && k != n ==> FileIn(d, entries, k) == FileIn(d, d.now, k)
    ensures Only(d, Moved(d, entries), n, FileIn(d, entries, n)) && Keeps(d, Moved(d, entries))
  {
    var e := Moved(d, entries);
    assert States(e) == States(d) + [entries];
    forall k, f ensures May(e, k, f) <==> May(d, k, f) || FileIn(d, entries, k) == f { MayMoved(d, entries, k, f); }
    forall k ensures May(d, k, FileIn(d, d.now, k)) { MayNow(d, k); }
  }

  lemma SyncOnly(d: Dir)
    requires WellFormed(d)
    ensures Same(d, Synced(d)) && forall n, f :: May(Synced(d), n, f) <==> f == FileIn(d, d.now, n)
  {
    var e := Synced(d);
    assert States(e) == [d.now];
    assert d.now == States(d)[|d.past|];
    forall n, f ensures May(e, n, f) <==> f == FileIn(d, d.now, n) {
      if f == FileIn(d, d.now, n) { assert FileIn(e, States(e)[0], n) == f; }
    }
    forall n ensures May(d, n, FileIn(d, d.now, n)) { MayNow(d, n); }
  }

  lemma SameIsOnly(d0: Dir, d: Dir, target: string, written: Option<File>)
    requires Same(d0, d) && !Hidden(target)
    ensures Only(d0, d, target, written)
  {
  }

  lemma SameWellFormed(d0: Dir, d: Dir)
    requires Same(d0, d)
    ensures WellFormed(d) && forall n :: !Hidden(n) ==> FileIn(d, d.now, n) == FileIn(d0, d0.now, n)
  {
  }

  lemma OnlyWellFormed(d0: Dir, d: Dir, target: string, written: Option<File>)
    requires Only(d0, d, target, written)
    ensures WellFormed(d)
  {
  }

  lemma SameThenOnly(d0: Dir, d1: Dir, d2: Dir, target: string, written: Option<File>)
    requires !Hidden(target)
    requires (Same(d0, d1) && Only(d1, d2, target, written)) || (Only(d0, d1, target, written) && Same(d1, d2))
    ensures Only(d0, d2, target, written)
  {
  }

  // ---- the operations, step by step ----

  datatype Fault = NoFault | AtCreate | AtWrite(partial: string) | AtSync | AtRename | AtSyncDir

  // An operation, with the step it fails at if it does.
  datatype Op = WriteOp(n: string, content: Content, tmp: string, fault: Fault) | RemoveOp(n: string, fault: Fault)

  predicate Allowed(d: Dir, op: Op) {
    && !Hidden(op.n)
    && match op
       case WriteOp(_, _, tmp, _) => Hidden(tmp) && tmp !in d.now
       case RemoveOp(_, fault) => fault == NoFault || fault == AtRename || fault == AtSyncDir
  }

  // The temporary file made, filled and synced; discarded when a step before the rename fails.
  function Staged(d: Dir, content: Content, tmp: string, fault: Fault): seq<Dir> {
    if fault == AtCreate then []
    else
      var id, made := |d.files|, Created(d, tmp);
      var filled := Filled(made, id, File(if fault.AtWrite? then Text(fault.partial) else content, false));
      if fault.AtWrite? || fault == AtSync then [made, filled, Unlinked(filled, tmp)]
      else
        var synced := Filled(filled, id, File(content, true));
        if fault == AtRename then [made, filled, synced, Unlinked(synced, tmp)] else [made, filled, synced]
  }

  function Last(d: Dir, ds: seq<Dir>): Dir { if ds == [] then d else ds[|ds| - 1] }

  // The states an operation takes the directory through.
  function StepsOf(d: Dir, op: Op): seq<Dir>
    requires Allowed(d, op)
  {
    match op
    case WriteOp(n, content, tmp, fault) =>
      var staged := Staged(d, content, tmp, fault);
      if fault != NoFault && fault != AtSyncDir then staged
      else
        var renamed := Renamed(Last(d, staged), tmp, n);
        staged + [renamed] + if fault == NoFault then [Synced(renamed)] else []
    case RemoveOp(n, fault) =>
      if n !in d.now || fault == AtRename then []
      else [Unlinked(d, n)] + if fault == NoFault then [Synced(Unlinked(d, n))] else []
  }

  function AfterOp(d: Dir, op: Op): Dir
    requires Allowed(d, op)
  {
    Last(d, StepsOf(d, op))
  }

  // What the operation makes of its file.
  function Made(op: Op): Option<File> {
    match op
    case WriteOp(_, content, _, _) => Some(File(content, true))
    case RemoveOp(_, _) => None
  }

  predicate BeforeRename(fault: Fault) { fault != NoFault && fault != AtSyncDir }

  // The operation got as far as syncing the directory.
  predicate Syncs(d: Dir, op: Op) { op.fault == NoFault && (op.WriteOp? || op.n in d.now) }

  lemma StagedSame(d: Dir, content: Content, tmp: string, fault: Fault, i: nat)
    requires WellFormed(d) && Hidden(tmp) && tmp !in d.now && i < |Staged(d, content, tmp, fault)|
    ensures Same(d, Staged(d, content, tmp, fault)[i]) && Keeps(d, Staged(d, content, tmp, fault)[i])
  {
    hide Same, Keeps, WellFormed, Private, Created, Filled, Unlinked;
    var id, made := |d.files|, Created(d, tmp);
    CreateKeeps(d, tmp);
    MadeFile(d, tmp);
    SameWellFormed(d, made);
    var first := File(if fault.AtWrite? then Text(fault.partial) else content, false);
    var filled := Filled(made, id, first);
    FillKeeps(made, tmp, id, first);
    SameThenSame(d, made, filled);
    SameWellFormed(d, filled);
    UnlinkOnly(filled, tmp);
    SameThenSame(d, filled, Unlinked(filled, tmp));
    FilledFiles(made, id, first);
    var synced := Filled(filled, id, File(content, true));
    FillKeeps(filled, tmp, id, File(content, true));
    SameThenSame(d, filled, synced);
    SameWellFormed(d, synced);
    UnlinkOnly(synced, tmp);
    SameThenSame(d, synced, Unlinked(synced, tmp));
  }

  lemma MadeFile(d: Dir, tmp: string)
    ensures |d.files| < |Created(d, tmp).files| && Get(Created(d, tmp).now, tmp) == Some(|d.files|)
    ensures Created(d, tmp).now.Keys == d.now.Keys + {tmp}
  {
  }

  lemma FilledFiles(d: Dir, id: nat, f: File)
    requires id < |d.files|
    ensures |Filled(d, id, f).files| == |d.files| && Filled(d, id, f).now == d.now && Filled(d, id, f).files[id] == f
  {
  }

  lemma SameThenSame(d0: Dir, d1: Dir, d2: Dir)
    requires Same(d0, d1) && Keeps(d0, d1) && Same(d1, d2) && Keeps(d1, d2)
    ensures Same(d0, d2) && Keeps(d0, d2)
  {
  }

  // The synced temporary file, about to be renamed.
  lemma StagedLast(d: Dir, content: Content, tmp: string, fault: Fault)
    requires WellFormed(d) && Hidden(tmp) && tmp !in d.now && !BeforeRename(fault)
    ensures var e := Last(d, Staged(d, content, tmp, fault));
            && Same(d, e) && Keeps(d, e) && tmp in e.now && e.now[tmp] < |e.files|
            && e.files[e.now[tmp]] == File(content, true)
            && e.now.Keys == d.now.Keys + {tmp}
  {
    StagedSame(d, content, tmp, fault, 2);
    hide Same, Keeps, WellFormed;
  }

  // After every step of an operation no other visible file has changed or may have, and this
  // one is what it was or what the operation makes of it, whole.
  lemma OpOnly(d: Dir, op: Op, i: nat)
    requires WellFormed(d) && Allowed(d, op) && i < |StepsOf(d, op)|
    ensures Only(d, StepsOf(d, op)[i], op.n, Made(op))
  {
    hide Same, Keeps, Only, WellFormed, Renamed, Unlinked, Synced;
    match op
    case WriteOp(n, content, tmp, fault) =>
      var staged := Staged(d, content, tmp, fault);
      if i < |staged| {
        StagedSame(d, content, tmp, fault, i);
        SameIsOnly(d, staged[i], n, Made(op));
      } else {
        var e := Last(d, staged);
        StagedLast(d, content, tmp, fault);
        SameWellFormed(d, e);
        RenameOnly(e, tmp, n);
        var r := Renamed(e, tmp, n);
        SameThenOnly(d, e, r, n, Made(op));
        OnlyWellFormed(d, r, n, Made(op));
        SyncOnly(r);
        SameThenOnly(d, r, Synced(r), n, Made(op));
      }
    case RemoveOp(n, fault) =>
      UnlinkOnly(d, n);
      var u := Unlinked(d, n);
      OnlyWellFormed(d, u, n, None);
      SyncOnly(u);
      SameThenOnly(d, u, Synced(u), n, None);
  }

  // What an operation leaves, by how it ended: no temporary file among it.
  lemma OpEnds(d: Dir, op: Op)
    requires WellFormed(d) && Allowed(d, op)
    ensures var e := AfterOp(d, op);
            && Only(d, e, op.n, Made(op))
            && (BeforeRename(op.fault) ==> Same(d, e))
            && (Syncs(d, op) ==> Durable(e))
            && (!Syncs(d, op) ==> Keeps(d, e))
            && (op.RemoveOp? && op.n !in d.now ==> e == d)
            && FileIn(e, e.now, op.n) == (if BeforeRename(op.fault) then FileIn(d, d.now, op.n) else Made(op))
            && e.now.Keys == if BeforeRename(op.fault) then d.now.Keys
                             else if op.WriteOp? then d.now.Keys + {op.n} else d.now.Keys - {op.n}
  {
    var steps := StepsOf(d, op);
    SameSelf(d, op.n, Made(op));
    if steps != [] { OpOnly(d, op, |steps| - 1); }
    match op
    case WriteOp(n, content, tmp, fault) => WriteEnds(d, n, content, tmp, fault);
    case RemoveOp(n, fault) => RemoveEnds(d, n, fault);
  }

  lemma WriteEnds(d: Dir, n: string, content: Content, tmp: string, fault: Fault)
    requires WellFormed(d) && Allowed(d, WriteOp(n, content, tmp, fault))
    ensures var op := WriteOp(n, content, tmp, fault);
            var e := AfterOp(d, op);
            && (BeforeRename(fault) ==> Same(d, e))
            && (fault == NoFault ==> Durable(e))
            && (fault != NoFault ==> Keeps(d, e))
            && FileIn(e, e.now, n) == (if BeforeRename(fault) then FileIn(d, d.now, n) else Some(File(content, true)))
            && e.now.Keys == d.now.Keys + if BeforeRename(fault) then {} else {n}
  {
    hide Same, Keeps, WellFormed;
    var staged := Staged(d, content, tmp, fault);
    SameSelf(d, n, None);
    KeepsSelf(d);
    if BeforeRename(fault) {
      if staged != [] {
        StagedSame(d, content, tmp, fault, |staged| - 1);
        SameWellFormed(d, Last(d, staged));
      }
    } else {
      var e := Last(d, staged);
      StagedLast(d, content, tmp, fault);
      SameWellFormed(d, e);
      RenameOnly(e, tmp, n);
      KeepsThen(d, e, Renamed(e, tmp, n));
    }
  }

  lemma RemoveEnds(d: Dir, n: string, fault: Fault)
    requires WellFormed(d) && Allowed(d, RemoveOp(n, fault))
    ensures var e := AfterOp(d, RemoveOp(n, fault));
            && (BeforeRename(fault) ==> Same(d, e))
            && (fault == NoFault && n in d.now ==> Durable(e) && e == Synced(Unlinked(d, n)))
            && (fault != NoFault || n !in d.now ==> Keeps(d, e))
            && (n !in d.now ==> e == d)
            && FileIn(e, e.now, n) == (if BeforeRename(fault) then FileIn(d, d.now, n) else None)
            && e.now.Keys == d.now.Keys - if BeforeRename(fault) then {} else {n}
  {
    hide Same, Keeps, WellFormed;
    SameSelf(d, n, None);
    KeepsSelf(d);
    UnlinkOnly(d, n);
  }

  lemma KeepsSelf(d: Dir)
    ensures Keeps(d, d)
  {
  }

  lemma KeepsThen(d0: Dir, d1: Dir, d2: Dir)
    requires Keeps(d0, d1) && Keeps(d1, d2)
    ensures Keeps(d0, d2)
  {
  }

  // ---- any sequence of operations ----

  ghost predicate AllAllowed(d: Dir, ops: seq<Op>)
    decreases |ops|
  {
    ops == [] || (Allowed(d, ops[0]) && AllAllowed(AfterOp(d, ops[0]), ops[1..]))
  }

  ghost function AfterAll(d: Dir, ops: seq<Op>): Dir
    requires AllAllowed(d, ops)
    decreases |ops|
  {
    if ops == [] then d else AfterAll(AfterOp(d, ops[0]), ops[1..])
  }

  // The names whose last change was not synced: an operation on them failed in syncing the
  // directory, and none since then synced it. Of a missing file nothing is removed or synced.
  function Unsynced(d: Dir, op: Op, loose: set<string>): set<string> {
    if Syncs(d, op) then {}
    else if op.fault == AtSyncDir && (op.WriteOp? || op.n in d.now) then loose + {op.n}
    else loose
  }

  ghost function AllUnsynced(d: Dir, ops: seq<Op>, loose: set<string>): set<string>
    requires AllAllowed(d, ops)
    decreases |ops|
  {
    if ops == [] then loose else AllUnsynced(AfterOp(d, ops[0]), ops[1..], Unsynced(d, ops[0], loose))
  }

  // Every visible name but the loose ones is after a crash what it is now.
  ghost predicate Pinned(d: Dir, loose: set<string>) {
    forall n, f :: !Hidden(n) && n !in loose && May(d, n, f) ==> f == FileIn(d, d.now, n)
  }

  // A loose name that is missing may come back.
  ghost predicate ComesBack(d: Dir, n: string) {
    exists f :: May(d, n, f) && f != None
  }

  ghost predicate Tracks(d: Dir, loose: set<string>) {
    && WellFormed(d) && Pinned(d, loose)
    && (forall n :: n in loose ==> !Hidden(n) && (n !in d.now ==> ComesBack(d, n)))
  }

  lemma OpTracks(d: Dir, op: Op, loose: set<string>)
    requires Allowed(d, op) && Tracks(d, loose)
    ensures Tracks(AfterOp(d, op), Unsynced(d, op, loose))
  {
    var e := AfterOp(d, op);
    OpEnds(d, op);
    if Syncs(d, op) {
      DurablePinned(e);
    } else {
      hide AfterOp, StepsOf;
      PinnedAfter(d, e, op, loose);
      forall n | n in Unsynced(d, op, loose) && n !in e.now ensures ComesBack(e, n) {
        LooseComesBack(d, e, op, loose, n);
      }
    }
  }

  lemma DurablePinned(d: Dir)
    requires Durable(d)
    ensures Pinned(d, {})
  {
    assert States(d) == [d.now];
  }

  lemma PinnedAfter(d: Dir, e: Dir, op: Op, loose: set<string>)
    requires Allowed(d, op) && Tracks(d, loose) && !Syncs(d, op) && Only(d, e, op.n, Made(op))
    requires BeforeRename(op.fault) ==> Same(d, e)
    requires op.RemoveOp? && op.n !in d.now ==> e == d
    ensures Pinned(e, Unsynced(d, op, loose))
  {
  }

  lemma LooseComesBack(d: Dir, e: Dir, op: Op, loose: set<string>, n: string)
    requires Allowed(d, op) && Tracks(d, loose) && !Syncs(d, op) && Keeps(d, e) && WellFormed(e)
    requires op.RemoveOp? && op.n !in d.now ==> e == d
    requires FileIn(e, e.now, op.n) == if BeforeRename(op.fault) then FileIn(d, d.now, op.n) else Made(op)
    requires forall k :: !Hidden(k) && k != op.n ==> FileIn(e, e.now, k) == FileIn(d, d.now, k)
    requires n in Unsynced(d, op, loose) && n !in e.now
    ensures ComesBack(e, n)
  {
    assert d.now == States(d)[|d.past|] && e.now == States(e)[|e.past|];
    assert FileIn(e, e.now, n) == None;
    if n in d.now {
      MayNow(d, n);
      assert May(e, n, FileIn(d, d.now, n));
    } else {
      var f :| May(d, n, f) && f != None;
      assert May(e, n, f);
    }
  }

  // Whatever operations came before, failed or not.
  lemma {:induction false} AllTrack(d: Dir, ops: seq<Op>, loose: set<string>)
    requires AllAllowed(d, ops) && Tracks(d, loose)
    ensures Tracks(AfterAll(d, ops), AllUnsynced(d, ops, loose))
    decreases |ops|
  {
    hide Tracks, Unsynced, Allowed, AfterOp;
    if ops != [] {
      OpTracks(d, ops[0], loose);
      AllTrack(AfterOp(d, ops[0]), ops[1..], Unsynced(d, ops[0], loose));
    }
  }

  // After any sequence of operations on a directory that no crash would change, a file whose
  // removal is reported done is gone for good exactly when it was there to be removed, or no
  // operation on it has failed in syncing the directory since the last one that synced it.
  lemma RemovedForGood(d0: Dir, ops: seq<Op>, n: string)
    requires WellFormed(d0) && Pinned(d0, {}) && AllAllowed(d0, ops) && !Hidden(n)
    ensures var d := AfterAll(d0, ops);
            (forall f :: May(AfterOp(d, RemoveOp(n, NoFault)), n, f) ==> f == None) <==>
            n in d.now || n !in AllUnsynced(d0, ops, {})
  {
    AllTrack(d0, ops, {});
    var d, loose := AfterAll(d0, ops), AllUnsynced(d0, ops, {});
    var e := AfterOp(d, RemoveOp(n, NoFault));
    if n in d.now {
      UnlinkOnly(d, n);
      SyncOnly(Unlinked(d, n));
      assert e == Synced(Unlinked(d, n));
    } else {
      assert e == d && FileIn(d, d.now, n) == None;
      if n in loose { var f :| May(d, n, f) && f != None; }
    }
  }

  lemma OneOp(d: Dir, op: Op)
    requires Allowed(d, op)
    ensures AllAllowed(d, [op]) && AfterAll(d, [op]) == AfterOp(d, op)
    ensures AllUnsynced(d, [op], {}) == Unsynced(d, op, {})
  {
    hide AfterOp, Allowed;
    assert [op][1..] == [];
    assert AllAllowed(AfterOp(d, op), []);
  }

  // A removal that failed only in syncing the directory, tried again, reports no error; a
  // crash can bring the file back all the same.
  lemma ARemovalCanComeBack(d0: Dir, n: string)
    requires WellFormed(d0) && Pinned(d0, {}) && n in d0.now && !Hidden(n)
    ensures var again := AfterOp(AfterOp(d0, RemoveOp(n, AtSyncDir)), RemoveOp(n, NoFault));
            exists f :: May(again, n, f) && f != None
  {
    hide AfterAll, AllAllowed, AllUnsynced, May, WellFormed, Pinned;
    var first := RemoveOp(n, AtSyncDir);
    OneOp(d0, first);
    RemovedForGood(d0, [first], n);
    assert AfterOp(d0, first) == Unlinked(d0, n);
  }

  // ---- the directory, changed step by step ----

  class Directory {
    var dir: Dir
    // Every state it was in: a crash may come after any.
    ghost var seen: seq<Dir>

    constructor (dir: Dir)
      ensures this.dir == dir && seen == [dir]
    {
      this.dir := dir;
      seen := [dir];
    }

    method Become(d: Dir)
      modifies this
      ensures dir == d && seen == old(seen) + [d]
    {
      dir := d;
      seen := seen + [d];
    }

    // Since the given length of seen, only target changed.
    ghost predicate OnlySince(k: nat, d0: Dir, target: string, written: Option<File>)
      reads this
    {
      k <= |seen| && forall i :: k <= i < |seen| ==> Only(d0, seen[i], target, written)
    }

    // Writes one file atomically: whatever step fails or is the last before a crash, it is
    // what it was or what was written, and every other file is what it was.
    method Write(n: string, content: Content, tmp: string, fault: Fault) returns (ok: bool)
      requires WellFormed(dir) && Allowed(dir, WriteOp(n, content, tmp, fault))
      modifies this
      ensures var op := WriteOp(n, content, tmp, fault);
              && seen == old(seen) + StepsOf(old(dir), op) && dir == AfterOp(old(dir), op)
              && OnlySince(|old(seen)|, old(dir), n, Made(op))
      ensures ok <==> fault == NoFault
    {
      ghost var d0, op, k := dir, WriteOp(n, content, tmp, fault), |seen|;
      forall i | 0 <= i < |StepsOf(d0, op)| ensures Only(d0, StepsOf(d0, op)[i], n, Made(op)) { OpOnly(d0, op, i); }
      hide Only, Created, Filled, WellFormed, Renamed, Unlinked;
      var staged := Stage(content, tmp, fault);
      if !staged { return false; }
      StagedLast(d0, content, tmp, fault);
      Become(Renamed(dir, tmp, n));
      if fault == AtSyncDir { return false; }
      Become(Synced(dir));
      return true;
    }

    // The temporary file, written and synced; discarded when a step before the rename fails.
    method Stage(content: Content, tmp: string, fault: Fault) returns (staged: bool)
      requires WellFormed(dir) && Hidden(tmp) && tmp !in dir.now
      modifies this
      ensures seen == old(seen) + Staged(old(dir), content, tmp, fault)
      ensures dir == Last(old(dir), Staged(old(dir), content, tmp, fault))
      ensures forall i :: |old(seen)| <= i < |seen| ==> Same(old(dir), seen[i])
      ensures staged <==> !BeforeRename(fault)
    {
      ghost var d0 := dir;
      forall i | 0 <= i < |Staged(d0, content, tmp, fault)| ensures Same(d0, Staged(d0, content, tmp, fault)[i]) {
        StagedSame(d0, content, tmp, fault, i);
      }
      hide Same, WellFormed, Unlinked;
      if fault == AtCreate { return false; }
      var id := |dir.files|;
      Become(Created(dir, tmp));
      Become(Filled(dir, id, File(if fault.AtWrite? then Text(fault.partial) else content, false)));
      if fault.AtWrite? || fault == AtSync {
        Become(Unlinked(dir, tmp));
        return false;
      }
      Become(Filled(dir, id, File(content, true)));
      if fault == AtRename {
        Become(Unlinked(dir, tmp));
        return false;
      }
      return true;
    }

    // Removes one file, which need not be there; nothing is synced when it is not.
    method Remove(n: string, fault: Fault) returns (ok: bool)
      requires WellFormed(dir) && Allowed(dir, RemoveOp(n, fault))
      modifies this
      ensures var op := RemoveOp(n, fault);
              && seen == old(seen) + StepsOf(old(dir), op) && dir == AfterOp(old(dir), op)
              && OnlySince(|old(seen)|, old(dir), n, None)
      ensures ok <==> fault == NoFault || n !in old(dir).now
    {
      ghost var d0, op := dir, RemoveOp(n, fault);
      forall i | 0 <= i < |StepsOf(d0, op)| ensures Only(d0, StepsOf(d0, op)[i], n, None) { OpOnly(d0, op, i); }
      hide Only, WellFormed, Unlinked;
      if n !in dir.now { return true; }
      if fault == AtRename { return false; }
      Become(Unlinked(dir, n));
      if fault == AtSyncDir { return false; }
      Become(Synced(dir));
      return true;
    }
  }

  lemma SameSelf(d: Dir, target: string, written: Option<File>)
    requires WellFormed(d)
    ensures Same(d, d) && Only(d, d, target, written)
  {
  }
}
