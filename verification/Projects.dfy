// What declaring projects means for the declarations: which records stay, which are new,
// and what the store holds of them (internal/supervisor/supervisor.go).
module Projects {
  import opened Basics
  import opened Specs
  import opened Sections

  // What the translation of a project's file promises: valid specs of that project, under
  // distinct names.
  ghost predicate Translated(project: string, specs: seq<Spec>) {
    && (forall i :: 0 <= i < |specs| ==> Valid(specs[i]) && specs[i].project == project)
    && (forall i, j :: 0 <= i < j < |specs| ==> specs[i].name != specs[j].name)
  }

  ghost function Names(specs: seq<Spec>): set<string> {
    set i | 0 <= i < |specs| :: specs[i].name
  }

  ghost predicate Succeeding(ws: seq<Written>) { forall i :: 0 <= i < |ws| ==> ws[i] == Done }

  // A spec's record when it is declared: its desired state kept, running when it is new.
  ghost function Declared(before: map<string, Record>, sp: Spec): Record {
    Record(sp, if sp.name in before then before[sp.name].desired else DesiredRunning)
  }

  ghost predicate Holds(records: map<string, Record>, before: map<string, Record>, specs: seq<Spec>) {
    forall i :: 0 <= i < |specs| ==> Get(records, specs[i].name) == Some(Declared(before, specs[i]))
  }

  // The store agrees with what is declared under a name.
  ghost predicate Mirrors(stored: map<string, Saved>, records: map<string, Record>, name: string) {
    if name in records then Get(stored, name) == Some(Saved(Encode(records[name].spec), records[name].desired))
    else name !in stored
  }

  ghost function ProjectOf(records: map<string, Record>, project: string): set<string> {
    set n | n in records && records[n].spec.project == project
  }

  // Declaring a project: its records are exactly its specs', and every other is as before.
  ghost predicate Replaces(records: map<string, Record>, before: map<string, Record>, project: string,
                           specs: seq<Spec>) {
    && Holds(records, before, specs)
    && ProjectOf(records, project) == Names(specs)
    && records - Names(specs) == before - Names(specs) - ProjectOf(before, project)
  }

  // Putting the specs, then deleting what is left of the project, replaces it.
  lemma PutThenPruned(after: map<string, Record>, puts: map<string, Record>, before: map<string, Record>,
                      project: string, specs: seq<Spec>)
    requires Translated(project, specs) && Holds(puts, before, specs)
    requires puts - Names(specs) == before - Names(specs)
    requires after == puts - (ProjectOf(puts, project) - Names(specs))
    ensures Replaces(after, before, project, specs)
    ensures ProjectOf(puts, project) - Names(specs) <= ProjectOf(before, project)
  {
    DifferWithin(puts, before, Names(specs), Names(specs));
    forall i | 0 <= i < |specs| ensures Get(after, specs[i].name) == Get(puts, specs[i].name) {
      assert specs[i].name in Names(specs);
    }
    forall n ensures n in after - Names(specs) <==> n in before - Names(specs) - ProjectOf(before, project) {
      if n !in Names(specs) { assert Get(puts, n) == Get(before, n); }
    }
    forall n ensures n in ProjectOf(after, project) <==> n in Names(specs) {
      if n in Names(specs) {
        var i :| 0 <= i < |specs| && specs[i].name == n;
        assert Get(after, specs[i].name) == Some(Declared(before, specs[i]));
      }
    }
  }

  // What is removed from memory and store alike leaves them agreeing.
  lemma PrunedMirrors(puts: map<string, Record>, stored: map<string, Saved>, names: set<string>, stale: set<string>)
    requires forall n :: n in names ==> Mirrors(stored, puts, n)
    ensures forall n :: n in names + stale ==> Mirrors(stored - stale, puts - stale, n)
  {
    hide Encode;
    forall n | n in names + stale ensures Mirrors(stored - stale, puts - stale, n) {
      if n in names { assert Mirrors(stored, puts, n); }
    }
  }

  // A listing that no container without the managed label shares a name with.
  ghost predicate Unheld(listed: seq<Container>, specs: seq<Spec>) {
    forall i, j :: 0 <= i < |listed| && 0 <= j < |specs| && !listed[i].managed ==> listed[i].name != specs[j].name
  }

  // No spec's name is declared by another project.
  ghost predicate Free(records: map<string, Record>, project: string, specs: seq<Spec>) {
    forall i :: 0 <= i < |specs| && specs[i].name in records ==> records[specs[i].name].spec.project == project
  }

  // ---- a whole set of projects ----

  // The specs of every project of a set, once every file of it has loaded.
  type Loads = map<string, seq<Spec>>

  ghost predicate AllTranslated(loads: Loads) {
    forall p :: p in loads ==> Translated(p, loads[p])
  }

  // No container is declared by two projects.
  ghost predicate Apart(loads: Loads) {
    forall p, q :: p in loads && q in loads && p != q ==> Names(loads[p]) !! Names(loads[q])
  }

  // The project that declares each container.
  ghost predicate Owned(loads: Loads, owners: map<string, string>) {
    && (forall p, i :: p in loads && 0 <= i < |loads[p]| ==> Get(owners, loads[p][i].name) == Some(p))
    && (forall n :: n in owners ==> owners[n] in loads && n in Names(loads[owners[n]]))
  }

  // A record keeps its desired state only within its project.
  ghost predicate Kept(before: map<string, Record>, p: string, name: string) {
    name in before && before[name].spec.project == p
  }

  ghost function Wanted(before: map<string, Record>, p: string, sp: Spec): Record {
    Record(sp, if Kept(before, p, sp.name) then before[sp.name].desired else DesiredRunning)
  }

  ghost predicate HoldsOf(records: map<string, Record>, before: map<string, Record>, p: string, specs: seq<Spec>) {
    forall i :: 0 <= i < |specs| ==> Get(records, specs[i].name) == Some(Wanted(before, p, specs[i]))
  }

  // Declaring a set: exactly its specs, those of a container kept in its project with the
  // desired state it had, the others desired running.
  ghost predicate Exactly(records: map<string, Record>, before: map<string, Record>, loads: Loads) {
    && (forall p :: p in loads ==> HoldsOf(records, before, p, loads[p]))
    && (forall n :: n in records ==> exists p :: p in loads && n in Names(loads[p]))
  }

  // Midway: the projects done are declared, of the others what is kept is untouched, and
  // nothing else is left.
  ghost predicate Midway(records: map<string, Record>, before: map<string, Record>, loads: Loads, owners: map<string,
                         string>, done: set<string>)
  {
    && (forall p :: p in loads && p in done ==> HoldsOf(records, before, p, loads[p]))
    && (forall n :: n in records ==>
       n in owners && (owners[n] in done || (Kept(before, owners[n], n) && records[n] == before[n])))
    && (forall n :: n in owners && owners[n] !in done && Kept(before, owners[n], n) ==> n in records)
  }

  lemma DeclareNext(after: map<string, Record>, records: map<string, Record>, before: map<string, Record>, loads: Loads,
                    owners: map<string, string>, done: set<string>, p: string)
    requires AllTranslated(loads) && Owned(loads, owners) && Midway(records, before, loads, owners, done)
    requires p in loads && p !in done && Replaces(after, records, p, loads[p])
    ensures Midway(after, before, loads, owners, done + {p})
  {
    hide Translated, HoldsOf, Replaces;
    forall q | q in loads && q in done ensures HoldsOf(after, before, q, loads[q]) {
      DoneStays(after, records, before, loads, owners, p, q);
    }
    DeclaredHolds(after, records, before, loads, owners, done, p);
    forall n ensures n in after ==> n in Names(loads[p]) || Get(after, n) == Get(records, n)
      ensures n in records && n !in Names(loads[p]) && records[n].spec.project != p ==> Get(after, n) == Get(records, n)
    {
      OthersStay(after, records, p, loads[p], n);
    }
    forall n | n in Names(loads[p]) ensures Get(owners, n) == Some(p) {
      var i :| 0 <= i < |loads[p]| && loads[p][i].name == n;
    }
  }

  lemma DoneStays(after: map<string, Record>, records: map<string, Record>, before: map<string, Record>, loads: Loads,
                  owners: map<string, string>, p: string, q: string)
    requires AllTranslated(loads) && Owned(loads, owners) && p in loads && q in loads && p != q
    requires Replaces(after, records, p, loads[p]) && HoldsOf(records, before, q, loads[q])
    ensures HoldsOf(after, before, q, loads[q])
  {
    hide Valid;
    forall i | 0 <= i < |loads[q]| ensures Get(after, loads[q][i].name) == Get(records, loads[q][i].name) {
      assert Get(owners, loads[q][i].name) == Some(q);
      assert Get(records, loads[q][i].name) == Some(Wanted(before, q, loads[q][i]));
      Untouched(after, records, p, loads[p], loads[q][i].name);
    }
  }

  lemma DeclaredHolds(after: map<string, Record>, records: map<string, Record>, before: map<string, Record>,
                      loads: Loads, owners: map<string, string>, done: set<string>, p: string)
    requires Owned(loads, owners) && Midway(records, before, loads, owners, done)
    requires p in loads && p !in done && Replaces(after, records, p, loads[p])
    ensures HoldsOf(after, before, p, loads[p])
  {
    forall i | 0 <= i < |loads[p]| ensures Get(after, loads[p][i].name) == Some(Wanted(before, p, loads[p][i])) {
      assert Get(owners, loads[p][i].name) == Some(p);
    }
  }

  lemma OthersStay(after: map<string, Record>, records: map<string, Record>, p: string, specs: seq<Spec>, n: string)
    requires Replaces(after, records, p, specs)
    ensures n in after ==> n in Names(specs) || Get(after, n) == Get(records, n)
    ensures n in records && n !in Names(specs) && records[n].spec.project != p ==> Get(after, n) == Get(records, n)
  {
    var a, b := after - Names(specs), records - Names(specs) - ProjectOf(records, p);
    assert n in a <==> n in b;
  }

  lemma Untouched(after: map<string, Record>, records: map<string, Record>, p: string, specs: seq<Spec>, n: string)
    requires Replaces(after, records, p, specs)
    requires n !in Names(specs) && (n in records ==> records[n].spec.project != p)
    ensures Get(after, n) == Get(records, n)
  {
    var a, b := after - Names(specs), records - Names(specs) - ProjectOf(records, p);
    assert n in after <==> n in a;
    assert n in records <==> n in b;
  }

  lemma TranslatedAt(loads: Loads, p: string)
    requires AllTranslated(loads) && p in loads
    ensures Translated(p, loads[p])
  {
  }

  lemma MirrorsNext(after: map<string, Record>, was: map<string, Record>, disk: map<string, Saved>,
                    stored: map<string, Saved>,
                    before: map<string, Record>, loads: Loads, owners: map<string, string>, done: set<string>,
                      p: string)
    requires AllTranslated(loads) && Owned(loads, owners) && Midway(was, before, loads, owners, done)
    requires p in loads && p !in done
    requires var mine := Names(loads[p]) + ProjectOf(was, p);
             && after - mine == was - mine && disk - mine == stored - mine
             && forall n :: n in mine ==> Mirrors(disk, after, n)
    requires forall n :: n in before && n !in owners ==> Mirrors(stored, was, n)
    requires forall n :: n in owners && owners[n] in done ==> Mirrors(stored, was, n)
    ensures forall n :: n in before && n !in owners ==> Mirrors(disk, after, n)
    ensures forall n :: n in owners && owners[n] in done + {p} ==> Mirrors(disk, after, n)
  {
    hide Valid, Encode;
    var mine := Names(loads[p]) + ProjectOf(was, p);
    DifferWithin(after, was, mine, mine);
    DifferWithin(disk, stored, mine, mine);
    forall n | Mirrors(stored, was, n) ensures Mirrors(disk, after, n) {
      if n !in mine { assert Get(after, n) == Get(was, n) && Get(disk, n) == Get(stored, n); }
    }
  }

  // With what no project of the set keeps deleted, none of them is done.
  lemma MidwayStarts(records: map<string, Record>, before: map<string, Record>, loads: Loads, owners: map<string,
                     string>, stale: set<string>, disk: map<string, Saved>)
    requires stale == set n | n in before && (n !in owners || owners[n] != before[n].spec.project)
    requires records == before - stale
    requires forall n :: n in stale ==> n !in disk
    ensures Midway(records, before, loads, owners, {})
    ensures forall n :: n in before && n !in owners ==> Mirrors(disk, records, n)
  {
  }

  lemma MidwayEnds(records: map<string, Record>, before: map<string, Record>, loads: Loads, owners: map<string, string>,
                   done: set<string>)
    requires Owned(loads, owners) && Midway(records, before, loads, owners, done) && done == loads.Keys
    ensures Exactly(records, before, loads)
    ensures forall n :: n in owners ==> owners[n] in done
  {
  }

  lemma ExactlyOwned(records: map<string, Record>, before: map<string, Record>, loads: Loads, owners: map<string,
                     string>)
    requires Owned(loads, owners) && Exactly(records, before, loads)
    ensures forall n :: n in records ==> n in owners
  {
    forall n | n in records ensures n in owners {
      var p :| p in loads && n in Names(loads[p]);
      var i :| 0 <= i < |loads[p]| && loads[p][i].name == n;
      assert Get(owners, loads[p][i].name) == Some(p);
    }
  }

  // The projects recorded, once those done were written over them.
  ghost function Refiled(base: map<string, Project>, files: map<string, Project>,
                         done: set<string>): map<string, Project> {
    base + map p | p in files && p in done :: files[p]
  }

  lemma RefiledNone(base: map<string, Project>, files: map<string, Project>)
    ensures Refiled(base, files, {}) == base
  {
  }

  lemma RefiledNext(base: map<string, Project>, files: map<string, Project>, done: set<string>, p: string)
    requires p in files
    ensures Refiled(base, files, done + {p}) == Refiled(base, files, done)[p := files[p]]
  {
  }

  lemma RefiledAll(base: map<string, Project>, files: map<string, Project>)
    requires base.Keys <= files.Keys
    ensures Refiled(base, files, files.Keys) == files
  {
  }

  // What translating each file of a set gave; none where the file was refused.
  type Attempts = map<string, Option<seq<Spec>>>

  ghost predicate AllLoaded(attempts: Attempts) {
    forall p :: p in attempts ==> attempts[p].Some?
  }

  function Loaded(attempts: Attempts): Loads {
    map p | p in attempts && attempts[p].Some? :: attempts[p].value
  }

  // A container nothing manages holds a name of the set.
  ghost predicate Held(listed: seq<Container>, loads: Loads) {
    exists p :: p in loads && !Unheld(listed, loads[p])
  }

  ghost function Owning(owners: map<string, string>, names: set<string>, project: string): map<string, string> {
    map n | n in owners.Keys + names :: if n in names then project else owners[n]
  }

  lemma OwningKeys(owners: map<string, string>, names: set<string>, project: string)
    ensures Owning(owners, names, project).Keys == owners.Keys + names
  {
  }

  lemma OwningNext(owners: map<string, string>, names: set<string>, project: string, n: string)
    ensures Owning(owners, names + {n}, project) == Owning(owners, names, project)[n := project]
  {
  }

  // Gives the containers of one project their owner; refused if one has another already.
  method OwnAll(owners: map<string, string>, project: string, specs: seq<Spec>)
    returns (ok: bool, more: map<string, string>)
    requires Translated(project, specs)
    ensures ok <==> Names(specs) !! owners.Keys
    ensures ok ==> more == Owning(owners, Names(specs), project)
  {
    hide Valid;
    more := owners;
    for i := 0 to |specs|
      invariant Names(specs[..i]) !! owners.Keys
      invariant more == Owning(owners, Names(specs[..i]), project)
    {
      NamesNext(specs, i);
      OwningNext(owners, Names(specs[..i]), project, specs[i].name);
      if specs[i].name in more {
        assert specs[i].name !in Names(specs[..i]);
        return false, owners;
      }
      more := more[specs[i].name := project];
    }
    assert specs[..|specs|] == specs;
    return true, more;
  }

  lemma NamesNext(specs: seq<Spec>, i: nat)
    requires i < |specs|
    ensures Names(specs[..i + 1]) == Names(specs[..i]) + {specs[i].name}
    ensures specs[i].name in Names(specs)
  {
    assert specs[..i + 1] == specs[..i] + [specs[i]];
    forall j | 0 <= j < i ensures specs[j].name in Names(specs[..i + 1]) { assert specs[..i + 1][j] == specs[j]; }
    assert specs[..i + 1][i] == specs[i];
    forall n | n in Names(specs[..i + 1]) ensures n in Names(specs[..i]) + {specs[i].name} {
      var j :| 0 <= j < i + 1 && specs[..i + 1][j].name == n;
      if j < i { assert specs[..i][j].name == n; }
    }
  }

  // Gathers the specs of a set and the owner of each container.
  method Collect(attempts: Attempts) returns (ok: bool, owners: map<string, string>, all: seq<Spec>)
    requires AllTranslated(Loaded(attempts))
    ensures ok <==> AllLoaded(attempts) && Apart(Loaded(attempts))
    ensures ok ==> Owned(Loaded(attempts), owners) && Names(all) == owners.Keys
  {
    hide Apart, Owned, AllTranslated, Translated, Names, Ascending, Owning, Loaded, AllLoaded;
    var names := SortKeys(attempts.Keys);
    ok, owners, all := false, map[], [];
    ghost var done: Loads := map[];
    OwnedNone();
    for i := 0 to |names|
      invariant forall p :: p in done <==> p in names[..i]
      invariant forall p :: p in done ==> attempts[p] == Some(done[p])
      invariant Apart(done) && Owned(done, owners) && Names(all) == owners.Keys
    {
      var p := names[i];
      assert p in attempts;
      NotBefore(names, i);
      LoadedAt(attempts, p);
      if attempts[p].None? { return; }
      var specs := attempts[p].value;
      TranslatedAt(Loaded(attempts), p);
      var fits, more := OwnAll(owners, p, specs);
      if !fits {
        OwnerClash(attempts, done, owners, p);
        return;
      }
      OwnedNext(done, owners, p, specs);
      OwningKeys(owners, Names(specs), p);
      NamesAppend(all, specs);
      owners, all, done := more, all + specs, done[p := specs];
      assert names[..i + 1] == names[..i] + [p];
    }
    assert names[..|names|] == names;
    LoadedAll(attempts, done);
    ok := true;
  }

  lemma LoadedAt(attempts: Attempts, p: string)
    requires p in attempts
    ensures if attempts[p].Some? then Get(Loaded(attempts), p) == attempts[p] else !AllLoaded(attempts)
  {
  }

  lemma LoadedAll(attempts: Attempts, done: Loads)
    requires forall p :: p in done <==> p in attempts
    requires forall p :: p in done ==> attempts[p] == Some(done[p])
    ensures AllLoaded(attempts) && Loaded(attempts) == done
  {
  }

  lemma OwnedNone()
    ensures Apart(map[]) && Owned(map[], map[]) && Names([]) == {}
  {
  }

  lemma NotBefore(names: seq<string>, i: nat)
    requires Ascending(names) && i < |names|
    ensures names[i] !in names[..i]
  {
    forall j | 0 <= j < i ensures names[j] != names[i] { LessTotal(names[j], names[i]); }
  }

  lemma OwnerClash(attempts: Attempts, done: Loads, owners: map<string, string>, p: string)
    requires p in attempts && attempts[p].Some? && p !in done
    requires forall q :: q in done ==> q in attempts && attempts[q] == Some(done[q])
    requires Owned(done, owners) && !(Names(attempts[p].value) !! owners.Keys)
    ensures !Apart(Loaded(attempts))
  {
    var n :| n in Names(attempts[p].value) && n in owners;
    var q := owners[n];
    assert Loaded(attempts)[q] == done[q] && n in Names(done[q]) && Loaded(attempts)[p] == attempts[p].value;
  }

  lemma OwnedNext(done: Loads, owners: map<string, string>, p: string, specs: seq<Spec>)
    requires Apart(done) && Owned(done, owners) && p !in done && Names(specs) !! owners.Keys
    ensures Apart(done[p := specs]) && Owned(done[p := specs], Owning(owners, Names(specs), p))
  {
    forall q | q in done ensures Names(done[q]) !! Names(specs) {
      forall n | n in Names(done[q]) ensures n in owners {
        var i :| 0 <= i < |done[q]| && done[q][i].name == n;
        assert Get(owners, done[q][i].name) == Some(q);
      }
    }
    forall i | 0 <= i < |specs| ensures specs[i].name in Names(specs) {}
    forall q, i | q in done && 0 <= i < |done[q]|
      ensures Get(Owning(owners, Names(specs), p), done[q][i].name) == Some(q)
    {
      assert Get(owners, done[q][i].name) == Some(q);
    }
  }

  lemma NamesAppend(a: seq<Spec>, b: seq<Spec>)
    ensures Names(a + b) == Names(a) + Names(b)
  {
    forall n | n in Names(a) + Names(b) ensures n in Names(a + b) {
      if n in Names(a) {
        var i :| 0 <= i < |a| && a[i].name == n;
        assert (a + b)[i].name == n;
      } else {
        var i :| 0 <= i < |b| && b[i].name == n;
        assert (a + b)[|a| + i].name == n;
      }
    }
  }

  lemma HeldByName(listed: seq<Container>, loads: Loads, owners: map<string, string>, all: seq<Spec>)
    requires Owned(loads, owners) && Names(all) == owners.Keys
    ensures Unheld(listed, all) <==> !Held(listed, loads)
  {
    forall p | p in loads && !Unheld(listed, loads[p]) ensures !Unheld(listed, all) {
      var i, j :| 0 <= i < |listed| && 0 <= j < |loads[p]| && !listed[i].managed && listed[i].name == loads[p][j].name;
      assert Get(owners, loads[p][j].name) == Some(p);
      assert loads[p][j].name in Names(all);
      var k :| 0 <= k < |all| && all[k].name == loads[p][j].name;
    }
    if !Unheld(listed, all) {
      var i, k :| 0 <= i < |listed| && 0 <= k < |all| && !listed[i].managed && listed[i].name == all[k].name;
      assert all[k].name in Names(all);
      var p := owners[all[k].name];
      assert all[k].name in Names(loads[p]);
      var j :| 0 <= j < |loads[p]| && loads[p][j].name == all[k].name;
      assert !Unheld(listed, loads[p]);
    }
  }
}
