// What a spec may say, by the expressions its texts match and the bounds of its numbers, with
// the defaults not filled in (internal/spec/spec.go).
module Rules {
  import opened Basics
  import opened Specs

  // ---- texts between separators ----

  function Glued(parts: seq<string>, sep: char): string {
    if parts == [] then "" else if |parts| == 1 then parts[0] else parts[0] + [sep] + Glued(parts[1..], sep)
  }

  // Splitting takes a text apart at every separator, and nothing is lost.
  lemma {:induction false} SplitGlues(s: string, sep: char)
    ensures Glued(Split(s, sep), sep) == s
    ensures forall p :: p in Split(s, sep) ==> sep !in p
  {
    if s != [] {
      SplitGlues(s[1..], sep);
      var rest := Split(s[1..], sep);
      if s[0] == sep {
        assert ([""] + rest)[1..] == rest;
        assert "" + [sep] + s[1..] == s;
      } else {
        assert ([[s[0]] + rest[0]] + rest[1..])[1..] == rest[1..];
        assert [s[0]] + s[1..] == s;
      }
    }
  }

  lemma {:induction false} SplitApart(a: string, sep: char, b: string)
    requires sep !in a
    ensures Split(a, sep) == [a]
    ensures Split(a + [sep] + b, sep) == [a] + Split(b, sep)
  {
    var s := a + [sep] + b;
    if a == [] {
      assert s[1..] == b;
    } else {
      SplitApart(a[1..], sep, b);
      assert s[1..] == a[1..] + [sep] + b;
      assert a == [a[0]] + a[1..];
    }
  }

  lemma {:induction false} GluedSplits(parts: seq<string>, sep: char)
    requires parts != [] && forall p :: p in parts ==> sep !in p
    ensures Split(Glued(parts, sep), sep) == parts
  {
    if |parts| == 1 {
      SplitApart(parts[0], sep, "");
      assert parts == [parts[0]];
    } else {
      var rest := parts[1..];
      GluedSplits(rest, sep);
      SplitApart(parts[0], sep, Glued(rest, sep));
      assert parts == [parts[0]] + rest;
    }
  }

  // ---- path.Clean ----

  // The components of a rooted path once they were walked: empty ones and dots go, and a pair of
  // dots takes the one before it along.
  function Walked(parts: seq<string>, done: seq<string>): seq<string>
    decreases |parts|
  {
    if parts == [] then done
    else if parts[0] == "" || parts[0] == "." then Walked(parts[1..], done)
    else if parts[0] == ".." then Walked(parts[1..], if done == [] then [] else done[..|done| - 1])
    else Walked(parts[1..], done + [parts[0]])
  }

  function Clean(p: string): string
    requires p != "" && p[0] == '/'
  {
    "/" + Glued(Walked(Split(p[1..], '/'), []), '/')
  }

  predicate Component(e: string) { e != "" && e != "." && e != ".." && '/' !in e }

  lemma {:induction false} WalkedComponents(parts: seq<string>, done: seq<string>)
    requires forall e :: e in parts ==> '/' !in e
    requires forall e :: e in done ==> Component(e)
    ensures forall e :: e in Walked(parts, done) ==> Component(e)
    ensures (forall e :: e in parts ==> Component(e)) ==> Walked(parts, done) == done + parts
    decreases |parts|
  {
    if parts != [] {
      var next :=
        if parts[0] == "" || parts[0] == "." then done
        else if parts[0] == ".." then if done == [] then [] else done[..|done| - 1]
        else done + [parts[0]];
      WalkedComponents(parts[1..], next);
      assert parts == [parts[0]] + parts[1..];
      if forall e :: e in parts ==> Component(e) {
        assert Component(parts[0]) && next + parts[1..] == done + parts;
      }
    }
  }

  lemma CleanRoot()
    ensures Clean("/") == "/"
  {
    assert "/"[1..] == "" && Split("", '/') == [""] && [""][1..] == [];
    assert Walked([""], []) == Walked([], []) == [];
  }

  lemma CleanKeeps(p: string)
    requires CleanAbs(p) && p != "/"
    ensures Clean(p) == p
  {
    var parts := Split(p[1..], '/');
    SplitGlues(p[1..], '/');
    hide Split, Walked, Glued;
    WalkedComponents(parts, []);
    assert forall e :: e in parts ==> Component(e);
    assert [] + parts == parts;
    assert p == "/" + p[1..];
  }

  lemma KeptIsClean(p: string)
    requires p != "" && p[0] == '/' && p != "/" && Clean(p) == p
    ensures CleanAbs(p)
  {
    var parts := Split(p[1..], '/');
    var walked := Walked(parts, []);
    SplitGlues(p[1..], '/');
    WalkedComponents(parts, []);
    hide Split, Walked;
    assert ("/" + Glued(walked, '/'))[1..] == Glued(walked, '/') == p[1..];
    assert walked != [];
    hide Glued;
    GluedSplits(walked, '/');
    assert forall e :: e in parts ==> Component(e);
  }

  // An absolute path is the one cleaning gives exactly when its components are names alone.
  lemma CleanAbsIff(p: string)
    ensures CleanAbs(p) <==> p != "" && p[0] == '/' && Clean(p) == p
  {
    hide Clean, Split;
    if p == "/" {
      CleanRoot();
    } else if CleanAbs(p) {
      CleanKeeps(p);
    } else if p != "" && p[0] == '/' && Clean(p) == p {
      KeptIsClean(p);
    }
  }

  // ---- regular expressions ----

  // An expression for a whole text: so many characters of a class (any number from the least on,
  // where there is no most), one expression and then another, one that may be left out, or
  // either of two.
  datatype Pattern =
    | Chars(of: char -> bool, least: nat, most: Option<nat>)
    | Then(first: Pattern, next: Pattern)
    | Maybe(some: Pattern)
    | Either(one: Pattern, other: Pattern)

  ghost predicate Matches(p: Pattern, s: string) {
    match p
    case Chars(of, least, most) =>
      |s| >= least && (most.Some? ==> |s| <= most.value) && forall i :: 0 <= i < |s| ==> of(s[i])
    case Then(first, next) => exists k :: 0 <= k <= |s| && Matches(first, s[..k]) && Matches(next, s[k..])
    case Maybe(some) => s == "" || Matches(some, s)
    case Either(one, other) => Matches(one, s) || Matches(other, s)
  }

  // One character.
  function Sign(c: char): Pattern { Chars(x => x == c, 1, Some(1)) }

  // ^[a-z0-9][a-z0-9_.-]{0,62}$
  const NAME := Then(
    Chars(c => 'a' <= c <= 'z' || '0' <= c <= '9', 1, Some(1)),
    Chars(c => 'a' <= c <= 'z' || '0' <= c <= '9' || c == '_' || c == '.' || c == '-', 0, Some(62)))

  // ^[A-Za-z_][A-Za-z0-9_]*$
  const KEY := Then(
    Chars(c => 'A' <= c <= 'Z' || 'a' <= c <= 'z' || c == '_', 1, Some(1)),
    Chars(c => 'A' <= c <= 'Z' || 'a' <= c <= 'z' || '0' <= c <= '9' || c == '_', 0, None))

  // [A-Za-z0-9_][A-Za-z0-9_.-]{0,31}
  const ACCOUNT := Then(
    Chars(c => 'A' <= c <= 'Z' || 'a' <= c <= 'z' || '0' <= c <= '9' || c == '_', 1, Some(1)),
    Chars(c => 'A' <= c <= 'Z' || 'a' <= c <= 'z' || '0' <= c <= '9' || c == '_' || c == '.' || c == '-', 0, Some(31)))

  // ^ACCOUNT(:ACCOUNT)?$
  const USER := Then(ACCOUNT, Maybe(Then(Sign(':'), ACCOUNT)))

  // ^[1-9][0-9]*[kmg]$
  const MEMORY := Then(
    Chars(c => '1' <= c <= '9', 1, Some(1)),
    Then(Chars(c => '0' <= c <= '9', 0, None), Chars(c => c == 'k' || c == 'm' || c == 'g', 1, Some(1))))

  // ^[0-9]+(\.[0-9]{1,3})?$
  const CPU := Then(
    Chars(c => '0' <= c <= '9', 1, None), Maybe(Then(Sign('.'), Chars(c => '0' <= c <= '9', 1, Some(3)))))

  // ^[rwm]{1,3}$
  const PERMISSIONS := Chars(c => c == 'r' || c == 'w' || c == 'm', 1, Some(3))

  // (\*|[0-9]+)
  const NUMBER := Either(Sign('*'), Chars(c => '0' <= c <= '9', 1, None))

  // ^[abc] NUMBER:NUMBER PERMISSIONS$
  const RULE := Then(
    Chars(c => c == 'a' || c == 'b' || c == 'c', 1, Some(1)),
    Then(Sign(' '), Then(Then(NUMBER, Then(Sign(':'), NUMBER)), Then(Sign(' '), PERMISSIONS))))

  lemma ThenHas(p: Pattern, q: Pattern, s: string, k: nat)
    requires k <= |s| && Matches(p, s[..k]) && Matches(q, s[k..])
    ensures Matches(Then(p, q), s)
  {
  }

  lemma ThenSplits(p: Pattern, q: Pattern, s: string) returns (k: nat)
    requires Matches(Then(p, q), s)
    ensures k <= |s| && Matches(p, s[..k]) && Matches(q, s[k..])
  {
    k :| 0 <= k <= |s| && Matches(p, s[..k]) && Matches(q, s[k..]);
  }

  lemma OneChar(p: Pattern, s: string)
    requires p.Chars? && p.least == 1 && p.most == Some(1)
    ensures Matches(p, s) <==> |s| == 1 && p.of(s[0])
  {
  }

  // One character of a class, and then the rest.
  lemma HeadTail(p: Pattern, s: string)
    requires p.Then? && p.first.Chars? && p.first.least == 1 && p.first.most == Some(1)
    ensures Matches(p, s) <==> s != "" && p.first.of(s[0]) && Matches(p.next, s[1..])
  {
    hide Matches;
    if Matches(p, s) {
      var k := ThenSplits(p.first, p.next, s);
      OneChar(p.first, s[..k]);
    }
    if s != "" && p.first.of(s[0]) && Matches(p.next, s[1..]) {
      OneChar(p.first, s[..1]);
      ThenHas(p.first, p.next, s, 1);
    }
  }

  // The same of the last character.
  lemma InitLast(p: Pattern, s: string)
    requires p.Then? && p.next.Chars? && p.next.least == 1 && p.next.most == Some(1)
    ensures Matches(p, s) <==> s != "" && p.next.of(s[|s| - 1]) && Matches(p.first, s[..|s| - 1])
  {
    hide Matches;
    if Matches(p, s) {
      var k := ThenSplits(p.first, p.next, s);
      OneChar(p.next, s[k..]);
    }
    if s != "" && p.next.of(s[|s| - 1]) && Matches(p.first, s[..|s| - 1]) {
      OneChar(p.next, s[|s| - 1..]);
      ThenHas(p.first, p.next, s, |s| - 1);
    }
  }

  // What comes before a separator it cannot hold, and what comes after.
  lemma Parted(p: Pattern, sep: char, q: Pattern, s: string)
    requires forall t :: Matches(p, t) ==> sep !in t
    ensures Matches(Then(p, Then(Sign(sep), q)), s) <==>
            var parts := Split(s, sep);
            |parts| > 1 && Matches(p, parts[0]) && Matches(q, Glued(parts[1..], sep))
  {
    hide Matches, Split;
    var parts, tail := Split(s, sep), Then(Sign(sep), q);
    SplitGlues(s, sep);
    if Matches(Then(p, tail), s) {
      var k := ThenSplits(p, tail, s);
      HeadTail(tail, s[k..]);
      var rest := s[k..][1..];
      assert s == s[..k] + [sep] + rest;
      SplitApart(s[..k], sep, rest);
      SplitGlues(rest, sep);
      assert parts[0] == s[..k] && parts[1..] == Split(rest, sep);
    }
    if |parts| > 1 && Matches(p, parts[0]) && Matches(q, Glued(parts[1..], sep)) {
      var k := |parts[0]|;
      assert s == parts[0] + [sep] + Glued(parts[1..], sep);
      assert s[..k] == parts[0] && s[k..][1..] == Glued(parts[1..], sep);
      HeadTail(tail, s[k..]);
      ThenHas(p, tail, s, k);
    }
  }

  lemma ThenMaybe(p: Pattern, q: Pattern, s: string)
    ensures Matches(Then(p, Maybe(q)), s) <==> Matches(p, s) || Matches(Then(p, q), s)
  {
    assert s[..|s|] == s && s[|s|..] == "";
    if Matches(Then(p, Maybe(q)), s) {
      var k :| 0 <= k <= |s| && Matches(p, s[..k]) && Matches(Maybe(q), s[k..]);
      if s[k..] == "" { assert s[..k] == s; }
    }
    if Matches(p, s) {
      assert Matches(Maybe(q), s[|s|..]);
    }
    if Matches(Then(p, q), s) {
      var k :| 0 <= k <= |s| && Matches(p, s[..k]) && Matches(q, s[k..]);
      assert Matches(Maybe(q), s[k..]);
    }
  }

  // An expression, and another after a separator that neither can hold.
  lemma TwoParts(p: Pattern, sep: char, q: Pattern, s: string)
    requires forall t :: Matches(p, t) || Matches(q, t) ==> sep !in t
    ensures Matches(Then(p, Then(Sign(sep), q)), s) <==>
            var parts := Split(s, sep);
            |parts| == 2 && Matches(p, parts[0]) && Matches(q, parts[1])
  {
    hide Matches;
    var parts := Split(s, sep);
    SplitGlues(s, sep);
    Parted(p, sep, q, s);
    if |parts| > 1 {
      var rest := parts[1..];
      GluedSplits(rest, sep);
      if Matches(q, Glued(rest, sep)) {
        SplitApart(Glued(rest, sep), sep, "");
      }
      if |rest| == 1 { assert rest == [parts[1]]; }
    }
  }

  // The same where the second may be left out with the separator.
  lemma OneOrTwoParts(p: Pattern, sep: char, q: Pattern, s: string)
    requires forall t :: Matches(p, t) || Matches(q, t) ==> sep !in t
    ensures Matches(Then(p, Maybe(Then(Sign(sep), q))), s) <==>
            var parts := Split(s, sep);
            |parts| <= 2 && Matches(p, parts[0]) && (|parts| == 2 ==> Matches(q, parts[1]))
  {
    hide Matches;
    var parts := Split(s, sep);
    SplitGlues(s, sep);
    ThenMaybe(p, Then(Sign(sep), q), s);
    TwoParts(p, sep, q, s);
    if Matches(p, s) { SplitApart(s, sep, ""); }
    if |parts| == 1 { assert parts == [parts[0]]; }
  }

  // A head of one class and a tail of another that holds the head too.
  lemma HeadAndAll(head: char -> bool, of: char -> bool, least: nat, most: Option<nat>, s: string)
    requires forall c :: head(c) ==> of(c)
    ensures Matches(Then(Chars(head, 1, Some(1)), Chars(of, least, most)), s) <==>
            && |s| >= 1 + least && (most.Some? ==> |s| <= 1 + most.value)
            && head(s[0]) && forall i :: 0 <= i < |s| ==> of(s[i])
  {
    var p := Then(Chars(head, 1, Some(1)), Chars(of, least, most));
    HeadTail(p, s);
    if s != "" {
      assert forall i :: 1 <= i < |s| ==> s[i] == s[1..][i - 1];
    }
  }

  lemma NameIff(s: string)
    ensures ValidName(s) <==> Matches(NAME, s)
  {
    HeadAndAll(NAME.first.of, NAME.next.of, 0, Some(62), s);
  }

  lemma KeyIff(s: string)
    ensures ValidKey(s) <==> Matches(KEY, s)
  {
    HeadAndAll(KEY.first.of, KEY.next.of, 0, None, s);
  }

  lemma AccountIff(s: string)
    ensures Account(s) <==> Matches(ACCOUNT, s)
    ensures Matches(ACCOUNT, s) ==> ':' !in s
  {
    HeadAndAll(ACCOUNT.first.of, ACCOUNT.next.of, 0, Some(31), s);
  }

  // The empty user is none.
  lemma UserIff(s: string)
    ensures UserOk(s) <==> s == "" || Matches(USER, s)
  {
    hide Account, Matches;
    forall t ensures Account(t) <==> Matches(ACCOUNT, t)
      ensures Matches(ACCOUNT, t) ==> ':' !in t
    {
      AccountIff(t);
    }
    OneOrTwoParts(ACCOUNT, ':', ACCOUNT, s);
    var parts := Split(s, ':');
    if |parts| == 2 { assert parts[1..] == [parts[1]]; }
    assert forall p :: p in parts <==> p == parts[0] || p in parts[1..];
  }

  lemma MemoryIff(s: string)
    ensures ValidMemory(s) <==> Matches(MEMORY, s)
  {
    HeadTail(MEMORY, s);
    if s != "" {
      InitLast(MEMORY.next, s[1..]);
      if |s| > 1 {
        assert s[1..][|s| - 2] == s[|s| - 1];
        assert forall i :: 1 <= i < |s| - 1 ==> s[i] == s[1..][..|s| - 2][i - 1];
      }
    }
  }

  // Empty, or a number that is not zero.
  lemma CpuIff(s: string)
    ensures CpuOk(s) <==> s == "" || (Matches(CPU, s) && exists i :: 0 <= i < |s| && s[i] != '0' && s[i] != '.')
  {
    hide Matches;
    var whole, part := CPU.first, CPU.next.some.next;
    var parts := Split(s, '.');
    forall t
      ensures Matches(whole, t) <==> Digits(t)
      ensures Matches(part, t) <==> Digits(t) && |t| <= 3
      ensures Digits(t) ==> '.' !in t
    {
      DigitsIff(t);
    }
    OneOrTwoParts(whole, '.', part, s);
    assert forall p :: p in parts ==> p == parts[0] || (|parts| > 1 && p in parts[1..]);
    if |parts| == 2 { assert parts[1..] == [parts[1]]; }
  }

  lemma DigitsIff(s: string)
    ensures Matches(CPU.first, s) <==> Digits(s)
    ensures Matches(CPU.next.some.next, s) <==> Digits(s) && |s| <= 3
    ensures Digits(s) ==> '.' !in s && ':' !in s && ' ' !in s
  {
  }

  lemma PermissionsIff(s: string)
    ensures PermissionsOk(s) <==> Matches(PERMISSIONS, s)
  {
    assert (forall c :: c in s ==> c in "rwm") <==> forall i :: 0 <= i < |s| ==> s[i] in "rwm";
  }

  lemma NumberIff(s: string)
    ensures NumberOk(s) <==> Matches(NUMBER, s)
    ensures Matches(NUMBER, s) ==> ':' !in s && ' ' !in s
  {
    assert s == "*" <==> Matches(Sign('*'), s);
  }

  lemma NumbersIff(s: string)
    ensures var parts := Split(s, ':');
            Matches(Then(NUMBER, Then(Sign(':'), NUMBER)), s) <==>
            |parts| == 2 && NumberOk(parts[0]) && NumberOk(parts[1])
    ensures Matches(Then(NUMBER, Then(Sign(':'), NUMBER)), s) ==> ' ' !in s
  {
    hide Matches, NumberOk;
    forall t ensures NumberOk(t) <==> Matches(NUMBER, t)
      ensures Matches(NUMBER, t) ==> ':' !in t && ' ' !in t
    {
      NumberIff(t);
    }
    TwoParts(NUMBER, ':', NUMBER, s);
    var parts := Split(s, ':');
    SplitGlues(s, ':');
    if |parts| == 2 { assert s == parts[0] + [':'] + Glued(parts[1..], ':') && Glued(parts[1..], ':') == parts[1]; }
  }

  lemma RuleIff(s: string)
    ensures CgroupRuleOk(s) <==> Matches(RULE, s)
  {
    hide Matches, PermissionsOk, NumberOk;
    var kind, numbers := RULE.first, Then(NUMBER, Then(Sign(':'), NUMBER));
    var parts := Split(s, ' ');
    forall t
      ensures Matches(kind, t) <==> t == "a" || t == "b" || t == "c"
      ensures Matches(PERMISSIONS, t) <==> PermissionsOk(t)
      ensures Matches(numbers, t) || Matches(PERMISSIONS, t) ==> ' ' !in t
    {
      KindIff(t);
      PermissionsIff(t);
      NumbersIff(t);
    }
    SplitGlues(s, ' ');
    Parted(kind, ' ', Then(numbers, Then(Sign(' '), PERMISSIONS)), s);
    if |parts| > 1 {
      var rest := parts[1..];
      GluedSplits(rest, ' ');
      TwoParts(numbers, ' ', PERMISSIONS, Glued(rest, ' '));
      NumbersIff(rest[0]);
    }
  }

  lemma KindIff(s: string)
    ensures Matches(RULE.first, s) <==> s == "a" || s == "b" || s == "c"
    ensures PermissionsOk(s) ==> ' ' !in s
  {
  }

  // ---- a whole spec ----

  // A path that is absolute and as cleaning leaves it.
  predicate Tidy(p: string) { p != "" && p[0] == '/' && Clean(p) == p }

  // A path an option can carry between its separators.
  predicate Mounted(p: string) { Tidy(p) && ':' !in p && ',' !in p && '\0' !in p }

  predicate NoNulIn(l: List<string>) { forall a :: a in Elems(l) ==> '\0' !in a }

  // What each rule asks of a spec as it is given: no policy is none to restart by, a protocol left
  // out is TCP, and a check runs every 30 seconds for 10 where nothing else is said.
  ghost predicate Keeps(s: Spec, r: Rule) {
    var ports, deps := Elems(s.publish), Elems(s.dependsOn);
    match r
    case NameRule => Matches(NAME, s.name)
    case ImageRule =>
      && 1 <= |s.image| <= 512 && s.image[0] != '-'
      && forall c :: c in s.image ==> c != ' ' && c != '\t' && c != '\n' && c != '\0'
    case CommandRule => NoNulIn(s.command)
    case EntrypointRule => NoNulIn(s.entrypoint)
    case UserRule => s.user != "" ==> Matches(USER, s.user)
    case WorkingDirRule => s.workingDir != "" ==> Tidy(s.workingDir) && '\0' !in s.workingDir
    case ProjectRule => Matches(NAME, s.project) && Matches(NAME, s.service)
    case NetworkRule =>
      if s.networkMode == "" then Matches(NAME, s.network) && forall a :: a in Elems(s.aliases) ==> Matches(NAME, a)
      else (s.networkMode == "host" || s.networkMode == "none") && s.network == "" && Elems(s.aliases) == []
    case PublishRule =>
      && (s.networkMode == "host" ==> ports == [])
      && (forall p :: p in ports ==>
            p.host > 0 && p.container > 0 && (p.protocol == "" || p.protocol == "tcp" || p.protocol == "udp"))
      && forall i, j :: 0 <= i < j < |ports| && ports[i].host == ports[j].host ==>
           (ports[i].protocol == "udp") != (ports[j].protocol == "udp")
    case CapabilitiesRule =>
      forall c :: c in Elems(s.capAdd) || c in Elems(s.capDrop) ==> c == "ALL" || c in CAPABILITIES
    case EnvironmentRule =>
      s.environment.Some? ==>
        forall k :: k in s.environment.value ==> Matches(KEY, k) && '\0' !in s.environment.value[k]
    case VolumeRule => forall v :: v in Elems(s.volumes) ==> Mounted(v.host) && Mounted(v.container)
    case DevicesRule =>
      && (forall d :: d in Elems(s.devices) ==>
            Tidy(d.host) && '\0' !in d.host && Mounted(d.container) && Matches(PERMISSIONS, d.permissions))
      && forall g :: g in Elems(s.cgroupRules) ==> Matches(RULE, g)
    case LimitsRule =>
      && 0 <= s.limits.pids <= 65536
      && (s.limits.memory != "" ==> Matches(MEMORY, s.limits.memory))
      && (s.limits.cpu != "" ==> Matches(CPU, s.limits.cpu) && exists c :: c in s.limits.cpu && c != '0' && c != '.')
    case RestartRule => !s.restart.policy.PolicyOther? && s.restart.maxRestarts >= 0
    case HealthRule =>
      s.health.Some? ==>
        var h := s.health.value;
        && Elems(h.command) != [] && Elems(h.command)[0] != "" && NoNulIn(h.command)
        && h.interval >= 0 && h.timeout >= 0 && h.retries >= 0 && h.startPeriod >= 0
        && (if h.timeout == 0 then 10 else h.timeout) <= (if h.interval == 0 then 30 else h.interval)
    case DependsOnRule =>
      && (forall d :: d in deps ==> Matches(NAME, d.name) && d.name != s.name && !d.ready.ReadyOther?)
      && forall i, j :: 0 <= i < j < |deps| ==> deps[i].name != deps[j].name
  }

  lemma NamesIff(s: Spec)
    ensures Keeps(s, NameRule) <==> ValidName(s.name)
    ensures Keeps(s, ProjectRule) <==> ValidName(s.project) && ValidName(s.service)
    ensures Keeps(s, NetworkRule) <==> NetworkOk(s)
  {
    hide Matches, ValidName;
    forall a ensures ValidName(a) <==> Matches(NAME, a) { NameIff(a); }
  }

  lemma RunsIff(s: Spec)
    ensures Keeps(s, ImageRule) <==> ImageOk(s.image)
    ensures Keeps(s, CommandRule) <==> NoNul(Elems(s.command))
    ensures Keeps(s, EntrypointRule) <==> NoNul(Elems(s.entrypoint))
    ensures Keeps(s, CapabilitiesRule) <==> CapabilitiesOk(Elems(s.capAdd), Elems(s.capDrop))
  {
    hide Matches, Clean;
    var add, drop := Elems(s.capAdd), Elems(s.capDrop);
    assert forall c :: c in add + drop <==> c in add || c in drop;
  }

  lemma TextsIff(s: Spec)
    ensures Keeps(s, UserRule) <==> UserOk(s.user)
    ensures Keeps(s, WorkingDirRule) <==> s.workingDir == "" || (CleanAbs(s.workingDir) && '\0' !in s.workingDir)
    ensures Keeps(s, EnvironmentRule) <==> EnvironmentOk(Env(s.environment))
  {
    hide Matches, ValidKey, UserOk, CleanAbs, Clean;
    forall k ensures ValidKey(k) <==> Matches(KEY, k) { KeyIff(k); }
    UserIff(s.user);
    CleanAbsIff(s.workingDir);
  }

  lemma PortsIff(s: Spec)
    ensures Keeps(s, PublishRule) <==>
            && !(s.networkMode == "host" && NormalPorts(Elems(s.publish)) != [])
            && PublishOk(NormalPorts(Elems(s.publish)))
  {
    var ps := Elems(s.publish);
    NormalPortsLength(ps);
    forall i | 0 <= i < |ps| ensures NormalPorts(ps)[i] == NormalPort(ps[i]) { NormalPortsAt(ps, i); }
    hide NormalPorts, Matches;
    assert (forall p :: p in ps ==> PortOk(NormalPort(p))) <==> forall i :: 0 <= i < |ps| ==> PortOk(NormalPort(ps[i]));
  }

  lemma {:induction false} NormalPortsAt(ps: seq<Port>, i: nat)
    requires i < |ps|
    ensures i < |NormalPorts(ps)| && NormalPorts(ps)[i] == NormalPort(ps[i])
  {
    if i > 0 { NormalPortsAt(ps[1..], i - 1); }
  }

  lemma {:induction false} NormalPortsLength(ps: seq<Port>)
    ensures |NormalPorts(ps)| == |ps|
  {
    if ps != [] { NormalPortsLength(ps[1..]); }
  }

  lemma TakesIff(s: Spec)
    ensures Keeps(s, VolumeRule) <==> VolumesOk(Elems(s.volumes))
    ensures Keeps(s, DevicesRule) <==> DevicesOk(Elems(s.devices)) && CgroupRulesOk(Elems(s.cgroupRules))
  {
    hide Matches, CleanAbs, Clean, PermissionsOk, CgroupRuleOk;
    forall p ensures CleanAbs(p) <==> Tidy(p) { CleanAbsIff(p); }
    forall p ensures PermissionsOk(p) <==> Matches(PERMISSIONS, p) { PermissionsIff(p); }
    hide Tidy;
    var rules, vs := Elems(s.cgroupRules), Elems(s.volumes);
    forall i | 0 <= i < |rules| ensures CgroupRuleOk(rules[i]) <==> Matches(RULE, rules[i]) { RuleIff(rules[i]); }
    assert (forall v :: v in vs ==> Mounted(v.host) && Mounted(v.container)) <==> VolumesOk(vs);
  }

  lemma BoundsIff(s: Spec)
    ensures Keeps(s, LimitsRule) <==> LimitsOk(s.limits)
    ensures Keeps(s, RestartRule) <==> RestartOk(NormalRestart(s.restart))
    ensures Keeps(s, HealthRule) <==> HealthOk(NormalHealths(s.health))
  {
    hide Matches, ValidMemory, CpuOk;
    MemoryIff(s.limits.memory);
    CpuIff(s.limits.cpu);
    SignificantIff(s.limits.cpu);
  }

  lemma SignificantIff(s: string)
    ensures (exists c :: c in s && c != '0' && c != '.') <==> exists i :: 0 <= i < |s| && s[i] != '0' && s[i] != '.'
  {
    if i :| 0 <= i < |s| && s[i] != '0' && s[i] != '.' { assert s[i] in s; }
  }

  lemma DepsIff(s: Spec)
    ensures Keeps(s, DependsOnRule) <==> DependsOk(s.name, NormalDependencies(Elems(s.dependsOn)))
  {
    hide Matches, ValidName;
    forall a ensures ValidName(a) <==> Matches(NAME, a) { NameIff(a); }
    var ds := Elems(s.dependsOn);
    NormalDependenciesLength(ds);
    forall i | 0 <= i < |ds| ensures NormalDependencies(ds)[i] == NormalDependency(ds[i]) {
      NormalDependenciesAt(ds, i);
    }
    hide NormalDependencies;
  }

  lemma {:induction false} NormalDependenciesAt(ds: seq<Dependency>, i: nat)
    requires i < |ds|
    ensures i < |NormalDependencies(ds)| && NormalDependencies(ds)[i] == NormalDependency(ds[i])
  {
    if i > 0 { NormalDependenciesAt(ds[1..], i - 1); }
  }

  lemma {:induction false} NormalDependenciesLength(ds: seq<Dependency>)
    ensures |NormalDependencies(ds)| == |ds|
  {
    if ds != [] { NormalDependenciesLength(ds[1..]); }
  }

  // A spec is valid exactly when it keeps every rule, and a refusal names one it breaks.
  lemma ValidIff(s: Spec)
    ensures Valid(s) <==> forall r :: Keeps(s, r)
    ensures forall r :: Verdict(s) == Some(r) ==> !Keeps(s, r)
  {
    hide ValidName, UserOk, CleanAbs, ImageOk, NoNul, NetworkOk, PublishOk, DevicesOk, VolumesOk, LimitsOk, RestartOk,
         HealthOk, DependsOk, Keeps, CgroupRulesOk, EnvironmentOk, CapabilitiesOk, NormalPorts, NormalDependencies,
         NormalRestart, NormalHealths;
    NamesIff(s);
    RunsIff(s);
    TextsIff(s);
    PortsIff(s);
    TakesIff(s);
    BoundsIff(s);
    DepsIff(s);
    NetworkKept(s);
    forall r | Valid(s) ensures Keeps(s, r) { RuleIs(r); }
  }

  lemma RuleIs(r: Rule)
    ensures || r == NameRule || r == ImageRule || r == CommandRule || r == EntrypointRule || r == UserRule
            || r == WorkingDirRule || r == ProjectRule || r == NetworkRule || r == PublishRule || r == CapabilitiesRule
            || r == EnvironmentRule || r == VolumeRule || r == DevicesRule || r == LimitsRule || r == RestartRule
            || r == HealthRule || r == DependsOnRule
  {
  }

  lemma NetworkKept(s: Spec)
    ensures NetworkOk(Normalized(s)) == NetworkOk(s)
  {
  }

  // What a spec leaves out is filled in, and the rest of it is kept: no restart, TCP, a check
  // every 30 seconds that may take 10 and fail 3 times, and dependencies that run.
  lemma DefaultsAre(s: Spec)
    ensures var n := Normalized(s);
            var ps, qs, ds, es := Elems(s.publish), Elems(n.publish), Elems(s.dependsOn), Elems(n.dependsOn);
            && n.restart == s.restart.(policy := if s.restart.policy == PolicyUnset then PolicyNo else s.restart.policy)
            && |qs| == |ps| && |es| == |ds|
            && (forall i :: 0 <= i < |ps| ==>
                  qs[i] == ps[i].(protocol := if ps[i].protocol == "" then "tcp" else ps[i].protocol))
            && (forall i :: 0 <= i < |ds| ==>
                  es[i] == ds[i].(ready := if ds[i].ready == ReadyUnset then ReadyRunning else ds[i].ready))
            && (match s.health
                case None => n.health == None
                case Some(h) =>
                  n.health == Some(Health(h.command, if h.interval == 0 then 30 else h.interval,
                    if h.timeout == 0 then 10 else h.timeout, if h.retries == 0 then 3 else h.retries, h.startPeriod)))
            && n == s.(restart := n.restart, publish := n.publish, health := n.health, dependsOn := n.dependsOn)
  {
    var ps, ds := Elems(s.publish), Elems(s.dependsOn);
    NormalPortsLength(ps);
    NormalDependenciesLength(ds);
    forall i | 0 <= i < |ps| ensures NormalPorts(ps)[i] == NormalPort(ps[i]) { NormalPortsAt(ps, i); }
    forall i | 0 <= i < |ds| ensures NormalDependencies(ds)[i] == NormalDependency(ds[i]) {
      NormalDependenciesAt(ds, i);
    }
    hide NormalPorts, NormalDependencies;
  }
}
