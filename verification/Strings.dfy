// Splitting texts at a character.
module Strings {
  import opened Basics

  // What stands before and after the first sep.
  function Cut(s: string, sep: char): Option<(string, string)> {
    if s == [] then None
    else if s[0] == sep then Some(([], s[1..]))
    else
      match Cut(s[1..], sep)
      case None => None
      case Some(p) => Some(([s[0]] + p.0, p.1))
  }

  // What stands before and after the last sep.
  function CutLast(s: string, sep: char): Option<(string, string)> {
    if s == [] then None
    else
      var k := |s| - 1;
      if s[k] == sep then Some((s[..k], []))
      else
        match CutLast(s[..k], sep)
        case None => None
        case Some(p) => Some((p.0, p.1 + [s[k]]))
  }

  lemma {:induction false} CutsAt(a: string, sep: char, b: string)
    requires sep !in a
    ensures Cut(a + [sep] + b, sep) == Some((a, b))
  {
    var s := a + [sep] + b;
    if a == [] {
      assert s[1..] == b;
    } else {
      CutsAt(a[1..], sep, b);
      assert s[1..] == a[1..] + [sep] + b;
      assert a == [a[0]] + a[1..];
    }
  }

  lemma {:induction false} CutsNone(a: string, sep: char)
    requires sep !in a
    ensures Cut(a, sep) == None
  {
    if a != [] { CutsNone(a[1..], sep); }
  }

  lemma {:induction false} CutsAtLast(a: string, sep: char, b: string)
    requires sep !in b
    ensures CutLast(a + [sep] + b, sep) == Some((a, b))
  {
    var s := a + [sep] + b;
    var k := |s| - 1;
    if b == [] {
      assert s[..k] == a;
    } else {
      CutsAtLast(a, sep, b[..|b| - 1]);
      assert s[..k] == a + [sep] + b[..|b| - 1];
      assert b == b[..|b| - 1] + [s[k]];
    }
  }
}
