// Vocabulary shared by every module: Go's slices (nil or not), its clock and its
// strings, ordered as sort.Strings orders them.
module Basics {

  datatype Option<+T> = None | Some(value: T)

  // A Go slice: nil, or a list of items (possibly none). encoding/json tells the two apart.
  datatype List<+T> = Nil | Items(items: seq<T>)

  function Elems<T>(l: List<T>): seq<T> {
    match l
    case Nil => []
    case Items(s) => s
  }

  // A list whose key was left out of a document when it was empty.
  function Omitted<T>(s: seq<T>): List<T> {
    if s == [] then Nil else Items(s)
  }

  predicate NilOrNonEmpty<T>(l: List<T>) {
    l.Nil? || l.items != []
  }

  // Nanoseconds; 0 is the zero time.Time.
  type Time = int
  const ZERO: Time := 0
  const SECOND: int := 1_000_000_000

  // The earlier of two deadlines, where the zero time is no deadline.
  function Sooner(a: Time, b: Time): Time {
    if b == ZERO then a
    else if a == ZERO || b < a then b
    else a
  }

  function Get<K, V>(m: map<K, V>, k: K): Option<V> {
    if k in m then Some(m[k]) else None
  }

  function Without<K, V>(m: map<K, V>, k: K): (r: map<K, V>)
    ensures r.Keys == m.Keys - {k}
    ensures forall x :: x in r ==> r[x] == m[x]
  {
    map x | x in m && x != k :: m[x]
  }

  lemma SameGets<K, V>(a: map<K, V>, b: map<K, V>)
    requires forall k :: Get(a, k) == Get(b, k)
    ensures a == b
  {
    forall k ensures k in a <==> k in b { assert Get(a, k) == Get(b, k); }
    forall k | k in a ensures a[k] == b[k] { assert Get(a, k) == Get(b, k); }
  }

  // Two maps that differ within s only.
  lemma DifferWithin<K, V>(a: map<K, V>, b: map<K, V>, s: set<K>, t: set<K>)
    requires a - s == b - s
    ensures s <= t ==> a - t == b - t
    ensures forall k :: k !in s ==> Get(a, k) == Get(b, k)
  {
    forall k | k !in s ensures Get(a, k) == Get(b, k) {
      assert k in a <==> k in a - s;
      assert k in b <==> k in b - s;
    }
    if s <= t {
      assert a - t == a - s - t;
      assert b - t == b - s - t;
    }
  }

  // ---- strings, in Go's order ----

  predicate Less(a: string, b: string) {
    b != [] && (a == [] || a[0] < b[0] || (a[0] == b[0] && Less(a[1..], b[1..])))
  }

  // One text comes before another where it ends or has the smaller character at the first place
  // they differ.
  lemma {:induction false} LessAtFirst(a: string, b: string)
    ensures Less(a, b) <==>
            exists k :: 0 <= k <= |a| && k < |b| && a[..k] == b[..k] && (k == |a| || a[k] < b[k])
  {
    if a == [] {
      assert b != [] ==> a[..0] == b[..0];
    } else if b != [] && a[0] == b[0] {
      var c, d := a[1..], b[1..];
      LessAtFirst(c, d);
      assert a == [a[0]] + c && b == [b[0]] + d;
      if k :| 0 <= k <= |c| && k < |d| && c[..k] == d[..k] && (k == |c| || c[k] < d[k]) {
        assert a[..k + 1] == [a[0]] + c[..k] && b[..k + 1] == [b[0]] + d[..k];
      }
      if k :| 0 <= k <= |a| && k < |b| && a[..k] == b[..k] && (k == |a| || a[k] < b[k]) {
        assert k > 0 && c[..k - 1] == a[..k][1..] && d[..k - 1] == b[..k][1..];
      }
    } else if b != [] {
      assert a[..0] == b[..0];
      forall k | 0 < k <= |a| && k < |b| ensures a[..k] != b[..k] { assert a[..k][0] != b[..k][0]; }
    }
  }

  lemma {:induction false} LessTransitive(a: string, b: string, c: string)
    requires Less(a, b) && Less(b, c)
    ensures Less(a, c)
  {
    if a != [] && a[0] == b[0] && b[0] == c[0] {
      LessTransitive(a[1..], b[1..], c[1..]);
    }
  }

  lemma {:induction false} LessTotal(a: string, b: string)
    ensures a == b || Less(a, b) || Less(b, a)
    ensures !(Less(a, b) && Less(b, a))
    ensures !Less(a, a)
  {
    if a != [] && b != [] {
      LessTotal(a[1..], b[1..]);
      LessTotal(a[1..], a[1..]);
      if a[0] == b[0] && a[1..] == b[1..] {
        assert a == [a[0]] + a[1..] == [b[0]] + b[1..] == b;
      }
    } else if a != [] {
      LessTotal(a[1..], a[1..]);
    }
  }

  ghost predicate Ascending(s: seq<string>) {
    forall i, j :: 0 <= i < j < |s| ==> Less(s[i], s[j])
  }

  // Where x belongs in an ascending list that may hold it already.
  function Insert(x: string, s: seq<string>): seq<string> {
    if s == [] then [x]
    else if x == s[0] then s
    else if Less(x, s[0]) then [x] + s
    else [s[0]] + Insert(x, s[1..])
  }

  lemma {:induction false} InsertAscends(x: string, s: seq<string>)
    requires Ascending(s)
    ensures Ascending(Insert(x, s))
    ensures forall y :: y in Insert(x, s) <==> y == x || y in s
  {
    if s == [] || x == s[0] {
    } else if Less(x, s[0]) {
      forall j | 0 <= j < |s| ensures Less(x, s[j]) {
        if j > 0 { LessTransitive(x, s[0], s[j]); }
      }
    } else {
      LessTotal(x, s[0]);
      InsertAscends(x, s[1..]);
      var t := Insert(x, s[1..]);
      forall j | 0 <= j < |t| ensures Less(s[0], t[j]) {
        assert t[j] in t;
      }
      assert s == [s[0]] + s[1..];
    }
  }

  // An ascending list is determined by its members.
  lemma {:induction false} AscendingUnique(a: seq<string>, b: seq<string>)
    requires Ascending(a) && Ascending(b)
    requires forall x :: x in a <==> x in b
    ensures a == b
  {
    assert a != [] ==> a[0] in b;
    assert b != [] ==> b[0] in a;
    if a != [] && b != [] {
      LessTotal(a[0], b[0]);
      assert a[0] == b[0];
      forall x ensures x in a[1..] <==> x in b[1..] {
        if x in a[1..] { assert x in b; LessTotal(x, a[0]); }
        if x in b[1..] { assert x in a; LessTotal(x, a[0]); }
      }
      AscendingUnique(a[1..], b[1..]);
      assert a == [a[0]] + a[1..] == [b[0]] + b[1..] == b;
    }
  }

  // The members of s in Go's string order.
  ghost function SortedKeys(s: set<string>): (r: seq<string>)
    ensures Ascending(r)
    ensures forall x :: x in r <==> x in s
  {
    if s == {} then [] else
      var x :| x in s;
      InsertAscends(x, SortedKeys(s - {x}));
      Insert(x, SortedKeys(s - {x}))
  }

  // Collecting a map's keys, in whatever order it yields them, and sorting them.
  method SortKeys(s: set<string>) returns (r: seq<string>)
    ensures r == SortedKeys(s)
  {
    var rest := s;
    r := [];
    while rest != {}
      invariant rest <= s && Ascending(r)
      invariant forall x :: x in r <==> x in s && x !in rest
      decreases rest
    {
      var x :| x in rest;
      InsertAscends(x, r);
      r := Insert(x, r);
      rest := rest - {x};
    }
    AscendingUnique(r, SortedKeys(s));
  }
}
