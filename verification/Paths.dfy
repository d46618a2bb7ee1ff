// Resolving the links of a host path that may not exist in full
// (internal/compose/compose.go).
module Paths {
  import opened Basics
  import opened Specs
  import opened Strings

  // path.Dir, path.Base and path.Join, on clean paths.
  function Dir(p: string): string {
    match CutLast(p, '/')
    case None => "."
    case Some(c) => if c.0 == "" then "/" else c.0
  }

  function Base(p: string): string {
    match CutLast(p, '/')
    case None => p
    case Some(c) => c.1
  }

  function Join(a: string, b: string): string {
    if b == "" then a else if a == "" then b else if a == "/" then "/" + b else a + "/" + b
  }

  // What following the links of a path gives; a failure says whether a component is missing.
  datatype Eval = Resolved(path: string) | Failed(missing: bool)

  // The file system: following links, and whether a name is there without following it.
  datatype FileSystem = FileSystem(eval: string -> Eval, present: string -> bool)

  predicate Missing(fs: FileSystem, q: string) {
    fs.eval(q) == Failed(true) && !fs.present(q) && q != "/"
  }

  // The path with its last k components off, and those components.
  function Up(p: string, k: nat): string {
    if k == 0 then p else Dir(Up(p, k - 1))
  }

  function Rest(p: string, k: nat): string {
    if k == 0 then "" else Join(Base(Up(p, k - 1)), Rest(p, k - 1))
  }

  lemma {:induction false} SplitsLast(s: string, sep: char, e: string)
    requires sep !in e
    ensures Split(s + [sep] + e, sep) == Split(s, sep) + [e]
  {
    var t := s + [sep] + e;
    if s == [] {
      assert t[1..] == e;
      SplitsNone(e, sep);
    } else {
      assert t[1..] == s[1..] + [sep] + e;
      SplitsLast(s[1..], sep, e);
    }
  }

  lemma {:induction false} SplitsNone(e: string, sep: char)
    requires sep !in e
    ensures Split(e, sep) == [e]
  {
    if e != [] {
      SplitsNone(e[1..], sep);
      assert e == [e[0]] + e[1..];
    }
  }

  lemma {:induction false} CutsLastWhole(s: string, sep: char)
    requires sep in s
    ensures var c := CutLast(s, sep);
            c.Some? && s == c.value.0 + [sep] + c.value.1 && sep !in c.value.1
  {
    var k := |s| - 1;
    assert s == s[..k] + [s[k]];
    if s[k] != sep { CutsLastWhole(s[..k], sep); }
  }

  lemma PartsNotEmpty(s: string)
    requires "" !in Split(s, '/')
    ensures s != ""
  {
  }

  // The directory of a clean path is clean, and the path is it and its last component.
  lemma DirIsClean(p: string)
    requires CleanAbs(p) && p != "/"
    ensures CleanAbs(Dir(p)) && Base(p) != "" && '/' !in Base(p) && Join(Dir(p), Base(p)) == p && |Dir(p)| < |p|
  {
    CutsLastWhole(p, '/');
    var d, b := CutLast(p, '/').value.0, CutLast(p, '/').value.1;
    assert p == d + ['/'] + b;
    if d == "" {
      assert p[1..] == b;
      SplitsNone(b, '/');
      assert b in Split(p[1..], '/');
      assert "/" + b == p;
    } else {
      assert d[0] == '/';
      assert p[1..] == d[1..] + ['/'] + b;
      SplitsLast(d[1..], '/', b);
      assert Split(p[1..], '/')[|Split(d[1..], '/')|] == b;
      assert b in Split(p[1..], '/');
      forall e | e in Split(d[1..], '/') ensures e in Split(p[1..], '/') {}
      PartsNotEmpty(d[1..]);
      assert d + "/" + b == p;
    }
  }

  lemma JoinAssociates(a: string, b: string, c: string)
    requires a != "" && b != "" && '/' !in b
    ensures Join(Join(a, b), c) == Join(a, Join(b, c))
  {
    if c != "" {
      assert b + "/" + c == b + ("/" + c);
      if a == "/" {
        assert "/" + b != "/";
        assert ("/" + b) + "/" + c == "/" + (b + "/" + c);
      } else {
        assert |a + "/" + b| > 1;
        assert (a + "/" + b) + "/" + c == a + "/" + (b + "/" + c);
      }
    }
  }

  lemma JoinGrows(r: string, rest: string)
    requires r != "" && rest != ""
    ensures Join(r, rest) != r && Join(rest, r) != ""
  {
  }

  lemma CleanNotEmpty(p: string)
    requires CleanAbs(p)
    ensures p != ""
  {
  }

  // Climbs from p to the longest part of it that resolves: k components are off, each part
  // longer than it is missing, and the result is it, resolved, with the rest put back. It
  // fails where a part is there but does not resolve, or cannot be told missing.
  method Resolve(fs: FileSystem, p: string) returns (r: Option<(string, string)>, ghost k: nat)
    requires CleanAbs(p)
    requires forall q :: fs.eval(q).Resolved? ==> CleanAbs(fs.eval(q).path)
    ensures forall j :: 0 <= j < k ==>
              fs.eval(Up(p, j)) == Failed(true) && !fs.present(Up(p, j)) && Up(p, j) != "/"
    ensures CleanAbs(Up(p, k)) && Join(Up(p, k), Rest(p, k)) == p && (Rest(p, k) == "" <==> k == 0)
    ensures r.Some? <==> fs.eval(Up(p, k)).Resolved?
    ensures r.None? ==> fs.eval(Up(p, k)) == Failed(false) || fs.present(Up(p, k)) || Up(p, k) == "/"
    ensures r.Some? ==> r.value.1 == fs.eval(Up(p, k)).path && r.value.0 == Join(r.value.1, Rest(p, k))
    ensures r.Some? ==> (r.value.0 == r.value.1 <==> fs.eval(p).Resolved?)
  {
    hide CutLast, CleanAbs, Dir, Base;
    var rest, q := "", p;
    k := 0;
    while true
      invariant q == Up(p, k) && rest == Rest(p, k)
      invariant CleanAbs(q) && Join(q, rest) == p && (rest == "" <==> k == 0)
      invariant forall j :: 0 <= j < k ==> Missing(fs, Up(p, j))
      decreases |q|
    {
      match fs.eval(q) {
        case Resolved(path) =>
          if k > 0 {
            assert Missing(fs, Up(p, 0));
            CleanNotEmpty(path);
            JoinGrows(path, rest);
          }
          return Some((Join(path, rest), path)), k;
        case Failed(missing) =>
          if fs.present(q) || !missing || q == "/" {
            return None, k;
          }
          DirIsClean(q);
          CleanNotEmpty(Dir(q));
          JoinAssociates(Dir(q), Base(q), rest);
          if rest != "" { JoinGrows(rest, Base(q)); }
          rest, q, k := Join(Base(q), rest), Dir(q), k + 1;
      }
    }
  }
}
