/** The dependency risk policy and its evaluation of an npm audit report. */
module AuditPolicy {
  import opened Options

  type Package = string

  datatype Advisory = Advisory(id: string, severity: string)

  /** An entry of `via`: another package, an advisory, or something unreadable. */
  datatype Entry = Ref(package: Package) | Found(advisory: Advisory) | Unreadable

  /** A finding whose `via` is a list, or one that cannot be read. */
  datatype Finding = Finding(via: seq<Entry>) | Malformed

  datatype PolicyAdvisory = PolicyAdvisory(id: string, package: Package, severity: string)

  /** `deadline` is the last instant of the review day, None if the date cannot be read. */
  datatype Exception = Exception(
    id: string, rootPackage: Package, components: seq<string>, allowedPackages: seq<Package>,
    advisories: seq<PolicyAdvisory>, deadline: Option<int>)

  datatype Policy = Policy(exceptions: seq<Exception>, moderates: seq<Exception>)

  /** The report's packages in enumeration order with their findings, the policy and the clock. */
  datatype Audit = Audit(keys: seq<Package>, findings: map<Package, Finding>, policy: Policy, now: int)

  const COMPONENT := "repository-production"

  datatype Match = Match(exception: Exception, severity: string)

  datatype Violation =
    | MalformedInput
    | MalformedPath(package: Package)
    | CyclicPath(package: Package)
    | MalformedAdvisory(package: Package)
    | Unaccepted(id: string, package: Package)
    | UnapprovedAncestor(id: string)
    | MultipleExceptions(package: Package)

  ghost predicate WellFormed(a: Audit) {
    && (forall k :: k in a.keys <==> k in a.findings)
    && (forall i, j | 0 <= i < j < |a.keys| :: a.keys[i] != a.keys[j])
  }

  // ---------------------------------------------------------------- exceptions

  function Lower(s: string): string {
    if s == [] then []
    else [if 'A' <= s[0] <= 'Z' then (s[0] as int + 32) as char else s[0]] + Lower(s[1..])
  }

  function Normalized(severity: string): string {
    if Lower(severity) == "medium" then "moderate" else Lower(severity)
  }

  predicate Covers(e: Exception, advisory: Advisory, package: Package) {
    && COMPONENT in e.components
    && exists i | 0 <= i < |e.advisories| ::
         && e.advisories[i].id == advisory.id && e.advisories[i].package == package
         && Normalized(e.advisories[i].severity) == Normalized(advisory.severity)
  }

  function FirstCovering(es: seq<Exception>, advisory: Advisory, package: Package): (r: Option<Exception>)
    ensures r.Some? ==> exists i | 0 <= i < |es| ::
      es[i] == r.value && Covers(es[i], advisory, package) && forall j | 0 <= j < i :: !Covers(es[j], advisory, package)
    ensures r.None? ==> forall i | 0 <= i < |es| :: !Covers(es[i], advisory, package)
  {
    if es == [] then None
    else if Covers(es[0], advisory, package) then Some(es[0])
    else FirstCovering(es[1..], advisory, package)
  }

  function ExceptionFor(p: Policy, advisory: Advisory, package: Package): Option<Exception> {
    if Normalized(advisory.severity) == "critical" then None
    else FirstCovering(p.exceptions + p.moderates, advisory, package)
  }

  predicate Active(e: Exception, now: int) { e.deadline.Some? && now <= e.deadline.value }

  /** Why an advisory of the last package on a path is turned down, if it is. */
  function Objection(a: Audit, root: Package, path: seq<Package>, advisory: Advisory): Option<Violation>
    requires path != []
  {
    var package := path[|path| - 1];
    var e := ExceptionFor(a.policy, advisory, package);
    if e.None? || !Active(e.value, a.now) then Some(Unaccepted(advisory.id, package))
    else if e.value.rootPackage != root || exists i | 0 <= i < |path| :: path[i] !in e.value.allowedPackages then
      Some(UnapprovedAncestor(advisory.id))
    else None
  }

  // ---------------------------------------------------------------- what acceptance asks of an advisory

  /** The same letter, or one the capital of the other. */
  predicate SameLetter(c: char, d: char) {
    || c == d
    || ('A' <= c <= 'Z' && d as int == c as int + 32)
    || ('A' <= d <= 'Z' && c as int == d as int + 32)
  }

  predicate SameLetters(s: string, t: string) {
    |s| == |t| && forall i | 0 <= i < |s| :: SameLetter(s[i], t[i])
  }

  function Small(c: char): char { if 'A' <= c <= 'Z' then (c as int + 32) as char else c }

  lemma {:induction false} LowerPlaces(s: string)
    ensures |Lower(s)| == |s| && forall i | 0 <= i < |s| :: Lower(s)[i] == Small(s[i])
  {
    if s != [] {
      LowerPlaces(s[1..]);
      assert Lower(s) == [Small(s[0])] + Lower(s[1..]);
    }
  }

  lemma SmallMeans(c: char, d: char)
    ensures Small(c) == Small(d) <==> SameLetter(c, d)
  {
  }

  lemma {:induction false} LowerMeans(s: string, t: string)
    ensures Lower(s) == Lower(t) <==> SameLetters(s, t)
  {
    LowerPlaces(s);
    LowerPlaces(t);
    hide Lower, Small, SameLetter;
    forall i | 0 <= i < |s| && i < |t|
      ensures Small(s[i]) == Small(t[i]) <==> SameLetter(s[i], t[i])
    {
      SmallMeans(s[i], t[i]);
    }
    if Lower(s) == Lower(t) {
      assert forall i | 0 <= i < |s| :: Lower(s)[i] == Lower(t)[i];
    }
  }

  lemma LowerReads(s: string, word: string)
    requires forall i | 0 <= i < |word| :: !('A' <= word[i] <= 'Z')
    ensures Lower(s) == word <==> SameLetters(s, word)
  {
    LowerFixed(word);
    LowerMeans(s, word);
  }

  /** Severities compare without regard to capitals, and "medium" is "moderate". */
  predicate SameSeverity(s: string, t: string) {
    || SameLetters(s, t)
    || ((SameLetters(s, "medium") || SameLetters(s, "moderate"))
        && (SameLetters(t, "medium") || SameLetters(t, "moderate")))
  }

  lemma NormalizedMeans(s: string, t: string)
    ensures Normalized(s) == Normalized(t) <==> SameSeverity(s, t)
    ensures Normalized(s) == "critical" <==> SameLetters(s, "critical")
  {
    LowerMeans(s, t);
    LowerReads(s, "medium");
    LowerReads(t, "medium");
    LowerReads(s, "moderate");
    LowerReads(t, "moderate");
    LowerReads(s, "critical");
  }

  /** The exception is for production and lists the advisory, by id, package and severity. */
  ghost predicate Lists(e: Exception, advisory: Advisory, package: Package) {
    && "repository-production" in e.components
    && exists i | 0 <= i < |e.advisories| ::
         && e.advisories[i].id == advisory.id && e.advisories[i].package == package
         && SameSeverity(e.advisories[i].severity, advisory.severity)
  }

  lemma CoversMeans(e: Exception, advisory: Advisory, package: Package)
    ensures Covers(e, advisory, package) <==> Lists(e, advisory, package)
  {
    forall i | 0 <= i < |e.advisories|
      ensures Normalized(e.advisories[i].severity) == Normalized(advisory.severity) <==>
              SameSeverity(e.advisories[i].severity, advisory.severity)
    {
      NormalizedMeans(e.advisories[i].severity, advisory.severity);
    }
  }

  /** The exception that decides about an advisory: the first that lists it, moderates last; none for a
      critical one. */
  ghost predicate Decides(p: Policy, advisory: Advisory, package: Package, e: Exception) {
    && !SameLetters(advisory.severity, "critical")
    && exists i | 0 <= i < |p.exceptions + p.moderates| ::
         && (p.exceptions + p.moderates)[i] == e && Lists(e, advisory, package)
         && forall j | 0 <= j < i :: !Lists((p.exceptions + p.moderates)[j], advisory, package)
  }

  lemma ExceptionMeans(p: Policy, advisory: Advisory, package: Package, e: Exception)
    ensures ExceptionFor(p, advisory, package) == Some(e) <==> Decides(p, advisory, package, e)
  {
    NormalizedMeans(advisory.severity, "");
    forall x
      ensures Covers(x, advisory, package) <==> Lists(x, advisory, package)
    {
      CoversMeans(x, advisory, package);
    }
    hide Covers, Lists, Normalized;
  }

  /** The exception's review day is a date and has not passed. */
  predicate InTime(e: Exception, now: int) { e.deadline.Some? && now <= e.deadline.value }

  /** The exception is made for the root and allows every package on the way. */
  predicate Allows(e: Exception, root: Package, path: seq<Package>) {
    e.rootPackage == root && forall i | 0 <= i < |path| :: path[i] in e.allowedPackages
  }

  /** An advisory of the last package on a path from a root is accepted. */
  ghost predicate Approved(a: Audit, root: Package, path: seq<Package>, advisory: Advisory)
    requires path != []
  {
    exists e | Decides(a.policy, advisory, path[|path| - 1], e) :: InTime(e, a.now) && Allows(e, root, path)
  }

  lemma ObjectionMeans(a: Audit, root: Package, path: seq<Package>, advisory: Advisory)
    requires path != []
    ensures Objection(a, root, path, advisory).None? <==> Approved(a, root, path, advisory)
  {
    var package := path[|path| - 1];
    var e := ExceptionFor(a.policy, advisory, package);
    if e.Some? {
      ExceptionMeans(a.policy, advisory, package, e.value);
      assert Objection(a, root, path, advisory).None? <==> InTime(e.value, a.now) && Allows(e.value, root, path);
    }
    if x :| Decides(a.policy, advisory, package, x) && InTime(x, a.now) && Allows(x, root, path) {
      ExceptionMeans(a.policy, advisory, package, x);
    }
  }

  // ---------------------------------------------------------------- the walk

  /** A walk either ends at its first violation or brings back the matches below
      it; either way it names the packages it went through. */
  datatype Walked =
    | Rejected(violation: Violation, visited: set<Package>)
    | Accepted(matches: seq<Match>, visited: set<Package>)

  function Unseen(a: Audit, path: seq<Package>): set<Package> {
    set k | k in a.findings && k !in path
  }

  lemma UnseenShrinks(a: Audit, path: seq<Package>, package: Package)
    requires package in a.findings && package !in path
    ensures Unseen(a, path + [package]) < Unseen(a, path)
  {
    assert package in Unseen(a, path) && package !in Unseen(a, path + [package]);
  }

  /** `resolve`: the path so far serves as both the ancestors and the set of seen packages. */
  function Walk(a: Audit, root: Package, path: seq<Package>, package: Package): Walked
    decreases Unseen(a, path), 1, 0
  {
    if package !in a.findings || a.findings[package].Malformed? || a.findings[package].via == [] then
      Rejected(MalformedPath(package), {})
    else if package in path then Rejected(CyclicPath(package), {})
    else
      UnseenShrinks(a, path, package);
      WalkEntries(a, root, path + [package], a.findings[package].via, [], {package})
  }

  function WalkEntries(
    a: Audit, root: Package, path: seq<Package>, via: seq<Entry>, matches: seq<Match>, visited: set<Package>): Walked
    requires path != []
    decreases Unseen(a, path), 2, |via|
  {
    if via == [] then Accepted(matches, visited)
    else
      match via[0]
      case Ref(p) =>
        var w := Walk(a, root, path, p);
        if w.Rejected? then Rejected(w.violation, visited + w.visited)
        else WalkEntries(a, root, path, via[1..], matches + w.matches, visited + w.visited)
      case Unreadable => Rejected(MalformedAdvisory(path[|path| - 1]), visited)
      case Found(advisory) =>
        var o := Objection(a, root, path, advisory);
        if o.Some? then Rejected(o.value, visited)
        else
          var e := ExceptionFor(a.policy, advisory, path[|path| - 1]);
          WalkEntries(a, root, path, via[1..], matches + [Match(e.value, advisory.severity)], visited)
  }

  // ---------------------------------------------------------------- what the walk decides

  /** Each package on a path names the next one in its `via`. */
  ghost predicate IsPath(a: Audit, p: seq<Package>) {
    && p != []
    && forall i | 0 <= i < |p| - 1 :: Leads(a, p[i], p[i + 1])
  }

  predicate Leads(a: Audit, from: Package, to: Package) {
    from in a.findings && a.findings[from].Finding? && Ref(to) in a.findings[from].via
  }

  function Last(p: seq<Package>): Package
    requires p != []
  {
    p[|p| - 1]
  }

  predicate EntryFine(a: Audit, root: Package, p: seq<Package>, entry: Entry)
    requires p != []
  {
    !entry.Unreadable? && (entry.Found? ==> Objection(a, root, p, entry.advisory).None?)
  }

  /** The end of a path from a root is in order: a readable finding with something
      in it, not met before on the path, and every advisory of it accepted. */
  ghost predicate Fine(a: Audit, root: Package, p: seq<Package>)
    requires p != []
  {
    && Last(p) in a.findings && a.findings[Last(p)].Finding? && a.findings[Last(p)].via != []
    && Last(p) !in p[..|p| - 1]
    && forall i | 0 <= i < |a.findings[Last(p)].via| :: EntryFine(a, root, p, a.findings[Last(p)].via[i])
  }

  ghost predicate AllFine(a: Audit, root: Package, base: seq<Package>)
    requires base != []
  {
    forall p | base <= p && IsPath(a, p) :: Fine(a, root, p)
  }

  ghost predicate FineBelow(a: Audit, root: Package, path: seq<Package>, via: seq<Entry>)
    requires path != []
  {
    forall i | 0 <= i < |via| ::
      EntryFine(a, root, path, via[i]) && (via[i].Ref? ==> AllFine(a, root, path + [via[i].package]))
  }

  lemma {:induction false} WalkDecides(a: Audit, root: Package, path: seq<Package>, package: Package)
    requires IsPath(a, path + [package])
    ensures Walk(a, root, path, package).Accepted? <==> AllFine(a, root, path + [package])
    decreases Unseen(a, path), 1, 0
  {
    var base := path + [package];
    assert Last(base) == package && base[..|base| - 1] == path;
    if package in a.findings && a.findings[package].Finding? && a.findings[package].via != [] && package !in path {
      UnseenShrinks(a, path, package);
      var via := a.findings[package].via;
      EntriesDecide(a, root, base, via, [], {package});
      FineSplits(a, root, base);
    } else {
      assert base <= base && !Fine(a, root, base);
    }
  }

  /** Everything below a package is fine when it is fine itself and so is everything below its entries. */
  lemma FineSplits(a: Audit, root: Package, base: seq<Package>)
    requires IsPath(a, base) && Last(base) in a.findings && a.findings[Last(base)].Finding?
    requires a.findings[Last(base)].via != [] && Last(base) !in base[..|base| - 1]
    ensures AllFine(a, root, base) <==> FineBelow(a, root, base, a.findings[Last(base)].via)
  {
    var via := a.findings[Last(base)].via;
    if AllFine(a, root, base) {
      assert base <= base && Fine(a, root, base);
      forall i | 0 <= i < |via| && via[i].Ref?
        ensures AllFine(a, root, base + [via[i].package])
      {
        forall p | base + [via[i].package] <= p && IsPath(a, p)
          ensures Fine(a, root, p)
        {
          assert base <= p;
        }
      }
    }
    if FineBelow(a, root, base, via) {
      forall p | base <= p && IsPath(a, p)
        ensures Fine(a, root, p)
      {
        if p != base {
          var n := |base|;
          assert Leads(a, p[n - 1], p[n]) && p[n - 1] == Last(base);
          assert base + [p[n]] <= p;
          var i :| 0 <= i < |via| && via[i] == Ref(p[n]);
          assert AllFine(a, root, base + [via[i].package]);
        }
      }
    }
  }

  lemma {:induction false} EntriesDecide(
    a: Audit, root: Package, path: seq<Package>, via: seq<Entry>, matches: seq<Match>, visited: set<Package>)
    requires IsPath(a, path) && forall i | 0 <= i < |via| && via[i].Ref? :: Leads(a, Last(path), via[i].package)
    ensures WalkEntries(a, root, path, via, matches, visited).Accepted? <==> FineBelow(a, root, path, via)
    decreases Unseen(a, path), 2, |via|
  {
    if via != [] {
      assert FineBelow(a, root, path, via) <==>
             (EntryFine(a, root, path, via[0]) && (via[0].Ref? ==> AllFine(a, root, path + [via[0].package]))
              && FineBelow(a, root, path, via[1..])) by {
        assert forall i | 0 <= i < |via[1..]| :: via[1..][i] == via[i + 1];
        assert forall i | 1 <= i < |via| :: via[i] == via[1..][i - 1];
      }
      match via[0]
      case Ref(p) =>
        Extends(a, path, p);
        WalkDecides(a, root, path, p);
        var w := Walk(a, root, path, p);
        if w.Accepted? {
          EntriesDecide(a, root, path, via[1..], matches + w.matches, visited + w.visited);
        }
      case Unreadable =>
      case Found(advisory) =>
        if Objection(a, root, path, advisory).None? {
          var e := ExceptionFor(a.policy, advisory, Last(path));
          EntriesDecide(a, root, path, via[1..], matches + [Match(e.value, advisory.severity)], visited);
        }
    }
  }

  lemma Extends(a: Audit, path: seq<Package>, next: Package)
    requires IsPath(a, path) && Leads(a, Last(path), next)
    ensures IsPath(a, path + [next])
  {
    var p := path + [next];
    forall i | 0 <= i < |p| - 1
      ensures Leads(a, p[i], p[i + 1])
    {
      if i + 1 < |path| {
        assert p[i] == path[i] && p[i + 1] == path[i + 1];
      }
    }
  }

  // ---------------------------------------------------------------- what a violation means

  /** The end of a path from a root shows what the violation says. */
  ghost predicate Shows(a: Audit, root: Package, p: seq<Package>, v: Violation)
    requires p != []
  {
    var k := p[|p| - 1];
    match v
    case MalformedPath(x) =>
      x == k && (k in a.findings && a.findings[k].Finding? ==> a.findings[k].via == [])
    case CyclicPath(x) => x == k && exists i | 0 <= i < |p| - 1 :: p[i] == k
    case MalformedAdvisory(x) => x == k && k in a.findings && a.findings[k].Finding? && Unreadable in a.findings[k].via
    case Unaccepted(id, x) =>
      && x == k && k in a.findings && a.findings[k].Finding?
      && exists advisory | Found(advisory) in a.findings[k].via ::
           advisory.id == id && forall e | Decides(a.policy, advisory, k, e) :: !InTime(e, a.now)
    case UnapprovedAncestor(id) =>
      && k in a.findings && a.findings[k].Finding?
      && exists advisory, e | Found(advisory) in a.findings[k].via && Decides(a.policy, advisory, k, e) ::
           advisory.id == id && InTime(e, a.now) && !Allows(e, root, p)
    case _ => false
  }

  /** Some path from the base shows the violation. */
  ghost predicate ShownBelow(a: Audit, root: Package, base: seq<Package>, v: Violation)
    requires base != []
  {
    exists p | base <= p && IsPath(a, p) :: Shows(a, root, p, v)
  }

  lemma ObjectionShows(a: Audit, root: Package, path: seq<Package>, advisory: Advisory)
    requires path != [] && Last(path) in a.findings && a.findings[Last(path)].Finding?
    requires Found(advisory) in a.findings[Last(path)].via && Objection(a, root, path, advisory).Some?
    ensures Shows(a, root, path, Objection(a, root, path, advisory).value)
  {
    var k := Last(path);
    var e := ExceptionFor(a.policy, advisory, k);
    forall x
      ensures e == Some(x) <==> Decides(a.policy, advisory, k, x)
    {
      ExceptionMeans(a.policy, advisory, k, x);
    }
    hide Decides, ExceptionFor;
    if e.Some? && Active(e.value, a.now) {
      assert e == Some(e.value) && InTime(e.value, a.now) && !Allows(e.value, root, path);
    } else {
      assert forall x | Decides(a.policy, advisory, k, x) :: !InTime(x, a.now);
    }
  }

  /** A walk that is turned down names something that is there, on a path it could take. */
  lemma {:induction false} WalkShows(a: Audit, root: Package, path: seq<Package>, package: Package)
    requires IsPath(a, path + [package]) && Walk(a, root, path, package).Rejected?
    ensures ShownBelow(a, root, path + [package], Walk(a, root, path, package).violation)
    decreases Unseen(a, path), 1, 0
  {
    var base := path + [package];
    assert Last(base) == package && base <= base;
    if package in a.findings && a.findings[package].Finding? && a.findings[package].via != [] {
      if package in path {
        var i :| 0 <= i < |path| && path[i] == package;
        assert base[i] == package;
        assert Shows(a, root, base, CyclicPath(package));
      } else {
        UnseenShrinks(a, path, package);
        EntriesShow(a, root, base, a.findings[package].via, [], {package});
      }
    } else {
      assert Shows(a, root, base, MalformedPath(package));
    }
  }

  lemma {:induction false} EntriesShow(
    a: Audit, root: Package, path: seq<Package>, via: seq<Entry>, matches: seq<Match>, visited: set<Package>)
    requires IsPath(a, path) && Last(path) in a.findings && a.findings[Last(path)].Finding?
    requires forall e | e in via :: e in a.findings[Last(path)].via
    requires WalkEntries(a, root, path, via, matches, visited).Rejected?
    ensures ShownBelow(a, root, path, WalkEntries(a, root, path, via, matches, visited).violation)
    decreases Unseen(a, path), 2, |via|
  {
    if via != [] {
      assert via[0] in via && forall e | e in via[1..] :: e in via;
      match via[0]
      case Ref(p) =>
        Extends(a, path, p);
        var w := Walk(a, root, path, p);
        if w.Rejected? {
          WalkShows(a, root, path, p);
          ShownAbove(a, root, path, p, w.violation);
        } else {
          EntriesShow(a, root, path, via[1..], matches + w.matches, visited + w.visited);
        }
      case Unreadable =>
        assert path <= path && Shows(a, root, path, MalformedAdvisory(Last(path)));
      case Found(advisory) =>
        var o := Objection(a, root, path, advisory);
        if o.Some? {
          ObjectionShows(a, root, path, advisory);
          assert path <= path && Shows(a, root, path, o.value);
        } else {
          var e := ExceptionFor(a.policy, advisory, Last(path));
          EntriesShow(a, root, path, via[1..], matches + [Match(e.value, advisory.severity)], visited);
        }
    }
  }

  lemma ShownAbove(a: Audit, root: Package, path: seq<Package>, next: Package, v: Violation)
    requires path != [] && ShownBelow(a, root, path + [next], v)
    ensures ShownBelow(a, root, path, v)
  {
    var p :| path + [next] <= p && IsPath(a, p) && Shows(a, root, p, v);
    assert path <= p;
  }

  // ---------------------------------------------------------------- what the walk brings back

  ghost predicate Reaches(a: Audit, base: seq<Package>, x: Package)
    requires base != []
  {
    exists p | base <= p && IsPath(a, p) :: Last(p) == x
  }

  /** The match an advisory of the package at the end of a path stands for. */
  ghost predicate Matched(a: Audit, package: Package, m: Match) {
    package in a.findings && a.findings[package].Finding? && MatchIn(a, package, a.findings[package].via, m)
  }

  ghost predicate MatchIn(a: Audit, package: Package, via: seq<Entry>, m: Match) {
    exists i | 0 <= i < |via| :: EntryMatch(a, package, via[i], m)
  }

  predicate EntryMatch(a: Audit, package: Package, entry: Entry, m: Match) {
    && entry.Found? && m.severity == entry.advisory.severity
    && ExceptionFor(a.policy, entry.advisory, package) == Some(m.exception)
  }

  ghost predicate Yields(a: Audit, base: seq<Package>, m: Match)
    requires base != []
  {
    exists p | base <= p && IsPath(a, p) :: Matched(a, Last(p), m)
  }

  ghost predicate ReachesBelow(a: Audit, path: seq<Package>, via: seq<Entry>, x: Package) {
    exists i | 0 <= i < |via| :: via[i].Ref? && Reaches(a, path + [via[i].package], x)
  }

  ghost predicate YieldsBelow(a: Audit, path: seq<Package>, via: seq<Entry>, m: Match)
    requires path != []
  {
    exists i | 0 <= i < |via| ::
      EntryMatch(a, Last(path), via[i], m) || (via[i].Ref? && Yields(a, path + [via[i].package], m))
  }

  lemma ReachesSplits(a: Audit, base: seq<Package>, x: Package)
    requires IsPath(a, base) && Last(base) in a.findings && a.findings[Last(base)].Finding?
    ensures Reaches(a, base, x) <==> x == Last(base) || ReachesBelow(a, base, a.findings[Last(base)].via, x)
  {
    var via := a.findings[Last(base)].via;
    if Reaches(a, base, x) {
      var p :| base <= p && IsPath(a, p) && Last(p) == x;
      if p != base {
        StepOf(a, base, p);
      }
    }
    if x == Last(base) {
      assert base <= base;
    }
    if ReachesBelow(a, base, via, x) {
      var i :| 0 <= i < |via| && via[i].Ref? && Reaches(a, base + [via[i].package], x);
      var p :| base + [via[i].package] <= p && IsPath(a, p) && Last(p) == x;
      assert base <= p;
    }
  }

  lemma YieldsFound(a: Audit, base: seq<Package>, m: Match)
    requires IsPath(a, base) && Last(base) in a.findings && a.findings[Last(base)].Finding?
    requires Yields(a, base, m)
    ensures YieldsBelow(a, base, a.findings[Last(base)].via, m)
  {
    var p :| base <= p && IsPath(a, p) && Matched(a, Last(p), m);
    if p != base {
      StepOf(a, base, p);
    } else {
      assert MatchIn(a, Last(base), a.findings[Last(base)].via, m);
    }
  }

  lemma FoundYields(a: Audit, base: seq<Package>, m: Match)
    requires IsPath(a, base) && Last(base) in a.findings && a.findings[Last(base)].Finding?
    requires YieldsBelow(a, base, a.findings[Last(base)].via, m)
    ensures Yields(a, base, m)
  {
    var via := a.findings[Last(base)].via;
    var i :|
      && 0 <= i < |via|
      && (EntryMatch(a, Last(base), via[i], m) || (via[i].Ref? && Yields(a, base + [via[i].package], m)));
    if EntryMatch(a, Last(base), via[i], m) {
      assert base <= base && Matched(a, Last(base), m);
    } else {
      var p :| base + [via[i].package] <= p && IsPath(a, p) && Matched(a, Last(p), m);
      assert base <= p;
    }
  }

  lemma YieldsSplits(a: Audit, base: seq<Package>, m: Match)
    requires IsPath(a, base) && Last(base) in a.findings && a.findings[Last(base)].Finding?
    ensures Yields(a, base, m) <==> YieldsBelow(a, base, a.findings[Last(base)].via, m)
  {
    hide YieldsBelow, Yields;
    if Yields(a, base, m) {
      YieldsFound(a, base, m);
    }
    if YieldsBelow(a, base, a.findings[Last(base)].via, m) {
      FoundYields(a, base, m);
    }
  }

  /** A longer path goes on through one of the entries. */
  lemma StepOf(a: Audit, base: seq<Package>, p: seq<Package>)
    requires IsPath(a, base) && base < p && IsPath(a, p) && Last(base) in a.findings && a.findings[Last(base)].Finding?
    ensures exists i | 0 <= i < |a.findings[Last(base)].via| ::
      a.findings[Last(base)].via[i].Ref? && base + [a.findings[Last(base)].via[i].package] <= p
  {
    var n := |base|;
    assert Leads(a, p[n - 1], p[n]) && p[n - 1] == Last(base);
    var i :| 0 <= i < |a.findings[Last(base)].via| && a.findings[Last(base)].via[i] == Ref(p[n]);
    assert base + [p[n]] <= p;
  }

  /** An accepted walk went through exactly the packages below it, and brings back exactly their matches. */
  lemma {:induction false} WalkCollects(a: Audit, root: Package, path: seq<Package>, package: Package)
    requires IsPath(a, path + [package]) && Walk(a, root, path, package).Accepted?
    ensures var w := Walk(a, root, path, package);
      && (forall x :: x in w.visited <==> Reaches(a, path + [package], x))
      && (forall m :: m in w.matches <==> Yields(a, path + [package], m))
    decreases Unseen(a, path), 1, 0
  {
    var base := path + [package];
    UnseenShrinks(a, path, package);
    var via := a.findings[package].via;
    EntriesCollect(a, root, base, via, [], {package});
    forall x
      ensures Reaches(a, base, x) <==> x == package || ReachesBelow(a, base, via, x)
    {
      ReachesSplits(a, base, x);
    }
    forall m
      ensures Yields(a, base, m) <==> YieldsBelow(a, base, via, m)
    {
      YieldsSplits(a, base, m);
    }
  }

  lemma {:induction false} EntriesCollect(
    a: Audit, root: Package, path: seq<Package>, via: seq<Entry>, matches: seq<Match>, visited: set<Package>)
    requires IsPath(a, path) && forall i | 0 <= i < |via| && via[i].Ref? :: Leads(a, Last(path), via[i].package)
    requires WalkEntries(a, root, path, via, matches, visited).Accepted?
    ensures var w := WalkEntries(a, root, path, via, matches, visited);
      && (forall x :: x in w.visited <==> x in visited || ReachesBelow(a, path, via, x))
      && (forall m :: m in w.matches <==> m in matches || YieldsBelow(a, path, via, m))
    decreases Unseen(a, path), 2, |via|
  {
    if via != [] {
      BelowSplits(a, path, via);
      match via[0]
      case Ref(p) =>
        Extends(a, path, p);
        WalkCollects(a, root, path, p);
        var w := Walk(a, root, path, p);
        EntriesCollect(a, root, path, via[1..], matches + w.matches, visited + w.visited);
      case Found(advisory) =>
        var e := ExceptionFor(a.policy, advisory, Last(path));
        EntriesCollect(a, root, path, via[1..], matches + [Match(e.value, advisory.severity)], visited);
    }
  }

  lemma BelowSplits(a: Audit, path: seq<Package>, via: seq<Entry>)
    requires path != [] && via != []
    ensures forall x :: ReachesBelow(a, path, via, x) <==>
      (via[0].Ref? && Reaches(a, path + [via[0].package], x)) || ReachesBelow(a, path, via[1..], x)
    ensures forall m :: YieldsBelow(a, path, via, m) <==>
      EntryMatch(a, Last(path), via[0], m) || (via[0].Ref? && Yields(a, path + [via[0].package], m))
        || YieldsBelow(a, path, via[1..], m)
  {
    assert forall i | 0 <= i < |via[1..]| :: via[1..][i] == via[i + 1];
    assert forall i | 1 <= i < |via| :: via[i] == via[1..][i - 1];
  }

  // ---------------------------------------------------------------- the verdict

  /** Some finding names the package in its `via`. */
  ghost predicate Referenced(a: Audit, package: Package) { exists k :: Leads(a, k, package) }

  ghost predicate IsRoot(a: Audit, package: Package) { package in a.findings && !Referenced(a, package) }

  ghost predicate OneId(a: Audit, root: Package) {
    forall m, n | Yields(a, [root], m) && Yields(a, [root], n) :: m.exception.id == n.exception.id
  }

  ghost predicate FromRoot(a: Audit, package: Package) {
    exists r | IsRoot(a, r) :: Reaches(a, [r], package)
  }

  /** What acceptance promises: on every path from a root every finding is in order
      and every advisory accepted for that root, under one exception per root, and
      no package escapes the roots. */
  ghost predicate Sound(a: Audit) {
    && (forall r | IsRoot(a, r) :: AllFine(a, r, [r]) && OneId(a, r))
    && (forall k {:trigger FromRoot(a, k)} | k in a.findings :: FromRoot(a, k))
  }

  predicate SameId(matches: seq<Match>) {
    forall i | 0 <= i < |matches| :: matches[i].exception.id == matches[0].exception.id
  }

  /** The walk from a root succeeds and stays within one exception. */
  predicate RootOk(a: Audit, r: Package) {
    var w := Walk(a, r, [], r);
    w.Accepted? && SameId(w.matches)
  }

  lemma RootOkMeans(a: Audit, r: Package)
    ensures RootOk(a, r) <==> AllFine(a, r, [r]) && OneId(a, r)
  {
    WalkFromStart(a, r);
    if AllFine(a, r, [r]) {
      var ms := Walk(a, r, [], r).matches;
      if OneId(a, r) {
        forall i | 0 <= i < |ms|
          ensures ms[i].exception.id == ms[0].exception.id
        {
          assert ms[i] in ms && ms[0] in ms;
        }
      }
      if SameId(ms) {
        forall m, n | Yields(a, [r], m) && Yields(a, [r], n)
          ensures m.exception.id == n.exception.id
        {
          assert m in ms && n in ms;
        }
      }
    }
  }

  /** The package lies on an accepted walk that some package started. */
  ghost predicate Covered(a: Audit, x: Package) {
    exists s :: Walk(a, s, [], s).Accepted? && x in Walk(a, s, [], s).visited
  }

  ghost predicate AllCovered(a: Audit, s: set<Package>) {
    forall x {:trigger Covered(a, x)} | x in s :: Covered(a, x)
  }

  lemma CoveredGrows(a: Audit, s: set<Package>, start: Package)
    requires AllCovered(a, s) && Walk(a, start, [], start).Accepted?
    ensures AllCovered(a, s + Walk(a, start, [], start).visited)
  {
  }

  /** No path repeats a package or leaves the report. */
  ghost predicate Tame(a: Audit) {
    forall p | IsPath(a, p) && p[0] in a.findings :: Last(p) in a.findings && Last(p) !in p[..|p| - 1]
  }

  /** A path that starts on an accepted walk ends in order. */
  lemma CoveredPath(a: Audit, s: Package, q: seq<Package>, p: seq<Package>)
    requires AllFine(a, s, [s]) && [s] <= q && IsPath(a, q) && IsPath(a, p) && Last(q) == p[0]
    ensures Last(p) in a.findings && Last(p) !in p[..|p| - 1]
  {
    Join(a, q, p);
    var full := q + p[1..];
    assert [s] <= full && Fine(a, s, full);
    assert full == q[..|q| - 1] + p;
    assert Last(full) == Last(p) && full[..|full| - 1] == q[..|q| - 1] + p[..|p| - 1];
  }

  lemma WalkFromStart(a: Audit, s: Package)
    ensures Walk(a, s, [], s).Accepted? <==> AllFine(a, s, [s])
    ensures Walk(a, s, [], s).Accepted? ==> forall x :: x in Walk(a, s, [], s).visited <==> Reaches(a, [s], x)
    ensures Walk(a, s, [], s).Accepted? ==> forall m :: m in Walk(a, s, [], s).matches <==> Yields(a, [s], m)
  {
    assert [] + [s] == [s];
    WalkDecides(a, s, [], s);
    if Walk(a, s, [], s).Accepted? {
      WalkCollects(a, s, [], s);
    }
  }

  lemma CoveredTame(a: Audit)
    requires forall k | k in a.findings :: Covered(a, k)
    ensures Tame(a)
  {
    forall p | IsPath(a, p) && p[0] in a.findings
      ensures Last(p) in a.findings && Last(p) !in p[..|p| - 1]
    {
      assert Covered(a, p[0]);
      var s :| Walk(a, s, [], s).Accepted? && p[0] in Walk(a, s, [], s).visited;
      WalkFromStart(a, s);
      assert Reaches(a, [s], p[0]);
      var q :| [s] <= q && IsPath(a, q) && Last(q) == p[0];
      CoveredPath(a, s, q, p);
    }
  }

  lemma Join(a: Audit, q: seq<Package>, p: seq<Package>)
    requires IsPath(a, q) && IsPath(a, p) && Last(q) == p[0]
    ensures IsPath(a, q + p[1..])
  {
    var full := q + p[1..];
    forall i | 0 <= i < |full| - 1
      ensures Leads(a, full[i], full[i + 1])
    {
      if i + 1 < |q| {
        assert full[i] == q[i] && full[i + 1] == q[i + 1];
      } else {
        var j := i + 1 - |q|;
        assert full[i + 1] == p[j + 1] && full[i] == p[j];
      }
    }
  }

  function Elements(p: seq<Package>): set<Package> { set i | 0 <= i < |p| :: p[i] }

  /** In a tame report a path visits each package at most once. */
  lemma {:induction false} TamePathShort(a: Audit, p: seq<Package>)
    requires Tame(a) && IsPath(a, p) && p[0] in a.findings
    ensures Elements(p) <= a.findings.Keys && |Elements(p)| == |p|
  {
    var n := |p| - 1;
    assert Last(p) in a.findings && Last(p) !in p[..n];
    if n == 0 {
      assert Elements(p) == {p[0]};
    } else {
      assert IsPath(a, p[..n]);
      TamePathShort(a, p[..n]);
      assert Elements(p) == Elements(p[..n]) + {p[n]};
      assert p[n] !in Elements(p[..n]);
    }
  }

  lemma SubsetSize(s: set<Package>, t: set<Package>)
    requires s <= t
    ensures |s| <= |t|
  {
    assert t == s + (t - s);
  }

  lemma Prepend(a: Audit, y: Package, p: seq<Package>)
    requires IsPath(a, p) && Leads(a, y, p[0])
    ensures IsPath(a, [y] + p) && Last([y] + p) == Last(p)
  {
    var q := [y] + p;
    forall i | 0 <= i < |q| - 1
      ensures Leads(a, q[i], q[i + 1])
    {
      if i > 0 {
        assert q[i] == p[i - 1] && q[i + 1] == p[i];
      }
    }
  }

  lemma TamePathBounded(a: Audit, p: seq<Package>)
    requires Tame(a) && IsPath(a, p) && p[0] in a.findings
    ensures |p| <= |a.findings.Keys|
  {
    TamePathShort(a, p);
    SubsetSize(Elements(p), a.findings.Keys);
  }

  lemma RootReaches(a: Audit, p: seq<Package>)
    requires IsPath(a, p) && IsRoot(a, p[0])
    ensures FromRoot(a, Last(p))
  {
    assert [p[0]] <= p;
    assert Reaches(a, [p[0]], Last(p));
  }

  /** Going back from package to package that names it, one arrives at a root. */
  lemma {:induction false} BackToRoot(a: Audit, p: seq<Package>)
    requires Tame(a) && IsPath(a, p) && p[0] in a.findings
    ensures FromRoot(a, Last(p))
    decreases |a.findings.Keys| - |p|
  {
    if IsRoot(a, p[0]) {
      RootReaches(a, p);
    } else {
      var y :| Leads(a, y, p[0]);
      Prepend(a, y, p);
      TamePathBounded(a, [y] + p);
      BackToRoot(a, [y] + p);
    }
  }

  /** If every root passes and every package was covered, the verdict is sound. */
  lemma AcceptedIsSound(a: Audit)
    requires forall r | IsRoot(a, r) :: RootOk(a, r)
    requires forall k | k in a.findings :: Covered(a, k)
    ensures Sound(a)
  {
    CoveredTame(a);
    forall r | IsRoot(a, r)
      ensures AllFine(a, r, [r]) && OneId(a, r)
    {
      RootOkMeans(a, r);
    }
    forall k | k in a.findings
      ensures FromRoot(a, k)
    {
      assert IsPath(a, [k]);
      BackToRoot(a, [k]);
    }
  }

  lemma SoundRoot(a: Audit, r: Package)
    requires Sound(a) && IsRoot(a, r)
    ensures AllFine(a, r, [r]) && OneId(a, r)
  {
  }

  lemma SoundReaches(a: Audit, k: Package) returns (r: Package)
    requires Sound(a) && k in a.findings
    ensures IsRoot(a, r) && Reaches(a, [r], k)
  {
    assert FromRoot(a, k);
    r :| IsRoot(a, r) && Reaches(a, [r], k);
  }

  lemma ReachedIsVisited(a: Audit, s: Package, x: Package)
    requires AllFine(a, s, [s]) && Reaches(a, [s], x)
    ensures Walk(a, s, [], s).Accepted? && x in Walk(a, s, [], s).visited
  {
    WalkFromStart(a, s);
  }

  /** In a sound report the roots alone cover every package. */
  lemma SoundIsCovered(a: Audit, k: Package) returns (r: Package)
    requires Sound(a) && k in a.findings
    ensures IsRoot(a, r) && Walk(a, r, [], r).Accepted? && k in Walk(a, r, [], r).visited
  {
    r := SoundReaches(a, k);
    SoundRoot(a, r);
    ReachedIsVisited(a, r, k);
  }

  /** The end of a path from a root is in order: a readable finding, not met before on the
      path, with entries, each a package or an advisory that is accepted. */
  ghost predicate InOrder(a: Audit, root: Package, p: seq<Package>)
    requires p != []
  {
    var k := p[|p| - 1];
    && k in a.findings && a.findings[k].Finding? && a.findings[k].via != []
    && (forall i | 0 <= i < |p| - 1 :: p[i] != k)
    && (forall i | 0 <= i < |a.findings[k].via| && !a.findings[k].via[i].Ref? ::
          a.findings[k].via[i].Found? && Approved(a, root, p, a.findings[k].via[i].advisory))
  }

  lemma FineMeans(a: Audit, r: Package, p: seq<Package>)
    requires p != []
    ensures Fine(a, r, p) <==> InOrder(a, r, p)
  {
    var k := Last(p);
    if k in a.findings && a.findings[k].Finding? {
      forall i | 0 <= i < |a.findings[k].via| && a.findings[k].via[i].Found?
        ensures Objection(a, r, p, a.findings[k].via[i].advisory).None? <==>
                Approved(a, r, p, a.findings[k].via[i].advisory)
      {
        ObjectionMeans(a, r, p, a.findings[k].via[i].advisory);
      }
    }
    hide Objection, Approved;
  }

  /** An advisory somewhere below a root, and the exception that decides about it. */
  ghost predicate Below(a: Audit, root: Package, advisory: Advisory, e: Exception) {
    exists p | [root] <= p && IsPath(a, p) ::
      && p[|p| - 1] in a.findings && a.findings[p[|p| - 1]].Finding?
      && Found(advisory) in a.findings[p[|p| - 1]].via && Decides(a.policy, advisory, p[|p| - 1], e)
  }

  lemma YieldsMeans(a: Audit, root: Package, m: Match)
    ensures Yields(a, [root], m) <==>
      exists advisory :: Below(a, root, advisory, m.exception) && advisory.severity == m.severity
  {
    if Yields(a, [root], m) {
      var p :| [root] <= p && IsPath(a, p) && Matched(a, Last(p), m);
      var via := a.findings[Last(p)].via;
      var i :| 0 <= i < |via| && EntryMatch(a, Last(p), via[i], m);
      ExceptionMeans(a.policy, via[i].advisory, Last(p), m.exception);
      assert Found(via[i].advisory) in via;
      assert Below(a, root, via[i].advisory, m.exception);
    }
    if advisory :| Below(a, root, advisory, m.exception) && advisory.severity == m.severity {
      var p :| [root] <= p && IsPath(a, p)
               && p[|p| - 1] in a.findings && a.findings[p[|p| - 1]].Finding?
               && Found(advisory) in a.findings[p[|p| - 1]].via
               && Decides(a.policy, advisory, p[|p| - 1], m.exception);
      var via := a.findings[Last(p)].via;
      var i :| 0 <= i < |via| && via[i] == Found(advisory);
      ExceptionMeans(a.policy, advisory, Last(p), m.exception);
      assert EntryMatch(a, Last(p), via[i], m);
      assert Matched(a, Last(p), m);
    }
  }

  /** A violation has its cause in the report: exceptions of two ids decide below a package, or a path shows it. */
  ghost predicate Caused(a: Audit, v: Violation) {
    if v.MultipleExceptions?
    then exists x, e, y, f | Below(a, v.package, x, e) && Below(a, v.package, y, f) :: e.id != f.id
    else exists s :: ShownBelow(a, s, [s], v)
  }

  ghost predicate AllCaused(a: Audit, vs: seq<Violation>) {
    forall i | 0 <= i < |vs| :: Caused(a, vs[i])
  }

  lemma CausedSnoc(a: Audit, vs: seq<Violation>, v: Violation)
    requires AllCaused(a, vs) && Caused(a, v)
    ensures AllCaused(a, vs + [v])
  {
  }

  lemma RejectedIsCaused(a: Audit, s: Package)
    requires Walk(a, s, [], s).Rejected?
    ensures Caused(a, Walk(a, s, [], s).violation)
  {
    assert [] + [s] == [s];
    WalkShows(a, s, [], s);
    var v := Walk(a, s, [], s).violation;
    assert !v.MultipleExceptions? by {
      var p :| [s] <= p && IsPath(a, p) && Shows(a, s, p, v);
    }
  }

  lemma SpanIsCaused(a: Audit, s: Package, i: nat)
    requires Walk(a, s, [], s).Accepted? && i < |Walk(a, s, [], s).matches|
    requires Walk(a, s, [], s).matches[i].exception.id != Walk(a, s, [], s).matches[0].exception.id
    ensures Caused(a, MultipleExceptions(s))
  {
    WalkFromStart(a, s);
    var ms := Walk(a, s, [], s).matches;
    assert ms[i] in ms && ms[0] in ms;
    hide Walk, Yields, Caused, AllFine;
    TwoIds(a, s, ms[i], ms[0]);
  }

  lemma TwoIds(a: Audit, s: Package, m: Match, n: Match)
    requires Yields(a, [s], m) && Yields(a, [s], n) && m.exception.id != n.exception.id
    ensures Caused(a, MultipleExceptions(s))
  {
    hide Yields, Below;
    YieldsMeans(a, s, m);
    YieldsMeans(a, s, n);
    var x :| Below(a, s, x, m.exception) && x.severity == m.severity;
    var y :| Below(a, s, y, n.exception) && y.severity == n.severity;
  }

  /** Nothing in the report names the package. */
  ghost predicate Unnamed(a: Audit, r: Package) {
    && r in a.findings
    && forall k | k in a.findings && a.findings[k].Finding? :: Ref(r) !in a.findings[k].via
  }

  lemma RootMeans(a: Audit, r: Package)
    ensures IsRoot(a, r) <==> Unnamed(a, r)
  {
    assert forall k :: Leads(a, k, r) <==> k in a.findings && a.findings[k].Finding? && Ref(r) in a.findings[k].via;
  }

  lemma OneIdMeans(a: Audit, r: Package)
    ensures OneId(a, r) <==>
      forall x, e, y, f | Below(a, r, x, e) && Below(a, r, y, f) :: e.id == f.id
  {
    forall m
      ensures Yields(a, [r], m) <==>
        exists advisory :: Below(a, r, advisory, m.exception) && advisory.severity == m.severity
    {
      YieldsMeans(a, r, m);
    }
    hide Yields, Below;
    if OneId(a, r) {
      forall x, e, y, f | Below(a, r, x, e) && Below(a, r, y, f)
        ensures e.id == f.id
      {
        assert Yields(a, [r], Match(e, x.severity)) && Yields(a, [r], Match(f, y.severity));
      }
    }
  }

  /** The package is at the end of a path that begins with a package nothing names. */
  ghost predicate Rooted(a: Audit, k: Package) {
    exists p | IsPath(a, p) && p[|p| - 1] == k :: Unnamed(a, p[0])
  }

  /** What a verdict of "ok" says of a report: on every path from a package nothing names, the
      end is in order; all advisories below such a package are decided by exceptions with one
      id; and every package is on such a path. */
  ghost predicate Acceptable(a: Audit) {
    && (forall r, p | Unnamed(a, r) && [r] <= p && IsPath(a, p) :: InOrder(a, r, p))
    && (forall r, x, e, y, f | Unnamed(a, r) && Below(a, r, x, e) && Below(a, r, y, f) :: e.id == f.id)
    && (forall k {:trigger Rooted(a, k)} | k in a.findings :: Rooted(a, k))
  }

  lemma FromRootMeans(a: Audit, k: Package)
    ensures FromRoot(a, k) <==> Rooted(a, k)
  {
    if FromRoot(a, k) {
      var r :| IsRoot(a, r) && Reaches(a, [r], k);
      RootMeans(a, r);
      var p :| [r] <= p && IsPath(a, p) && Last(p) == k;
      assert p[0] == r;
    }
    if p :| IsPath(a, p) && p[|p| - 1] == k && Unnamed(a, p[0]) {
      RootMeans(a, p[0]);
      RootReaches(a, p);
    }
  }

  lemma RootFineMeans(a: Audit, r: Package)
    ensures AllFine(a, r, [r]) <==> forall p | [r] <= p && IsPath(a, p) :: InOrder(a, r, p)
  {
    forall p | [r] <= p && IsPath(a, p)
      ensures Fine(a, r, p) <==> InOrder(a, r, p)
    {
      FineMeans(a, r, p);
    }
    hide Fine, InOrder, IsPath;
  }

  /** The verdict by paths is the one spelled out: both directions, for every report. */
  lemma SoundIsAcceptable(a: Audit)
    ensures Sound(a) <==> Acceptable(a)
  {
    if Sound(a) {
      SoundAccepts(a);
    }
    if Acceptable(a) {
      AcceptableIsSound(a);
    }
  }

  lemma SoundAccepts(a: Audit)
    requires Sound(a)
    ensures Acceptable(a)
  {
    hide IsRoot, Unnamed, AllFine, OneId, FromRoot, InOrder, Below, IsPath, Rooted;
    forall r | Unnamed(a, r)
      ensures forall p | [r] <= p && IsPath(a, p) :: InOrder(a, r, p)
      ensures forall x, e, y, f | Below(a, r, x, e) && Below(a, r, y, f) :: e.id == f.id
    {
      RootMeans(a, r);
      RootFineMeans(a, r);
      OneIdMeans(a, r);
    }
    forall k | k in a.findings
      ensures Rooted(a, k)
    {
      assert FromRoot(a, k);
      FromRootMeans(a, k);
    }
  }

  lemma AcceptableIsSound(a: Audit)
    requires Acceptable(a)
    ensures Sound(a)
  {
    hide IsRoot, Unnamed, AllFine, OneId, FromRoot, InOrder, Below, IsPath, Rooted;
    forall r | IsRoot(a, r)
      ensures AllFine(a, r, [r]) && OneId(a, r)
    {
      RootMeans(a, r);
      RootFineMeans(a, r);
      OneIdMeans(a, r);
    }
    forall k | k in a.findings
      ensures FromRoot(a, k)
    {
      FromRootMeans(a, k);
    }
  }

  lemma FineAt(a: Audit, r: Package, p: seq<Package>)
    requires AllFine(a, r, [r]) && [r] <= p && IsPath(a, p)
    ensures Fine(a, r, p)
  {
  }

  /** Soundness for one advisory: no path from a root meets a package twice or leaves the
      report, and each advisory on it is not critical and has a first exception that lists it,
      whose review day has not passed, made for that root, and allowing every package of the path. */
  lemma SoundMeans(a: Audit, r: Package, p: seq<Package>, advisory: Advisory) returns (e: Exception)
    requires Sound(a) && Unnamed(a, r) && [r] <= p && IsPath(a, p)
    requires Last(p) in a.findings && a.findings[Last(p)].Finding? && Found(advisory) in a.findings[Last(p)].via
    ensures forall i | 0 <= i < |p| - 1 :: p[i] != Last(p)
    ensures !SameLetters(advisory.severity, "critical") && Decides(a.policy, advisory, Last(p), e)
    ensures e.deadline.Some? && a.now <= e.deadline.value
    ensures e.rootPackage == r && forall j | 0 <= j < |p| :: p[j] in e.allowedPackages
  {
    SoundIsAcceptable(a);
    assert InOrder(a, r, p);
    assert Approved(a, r, p, advisory);
    e :| Decides(a.policy, advisory, p[|p| - 1], e) && InTime(e, a.now) && Allows(e, r, p);
  }

  /** And conversely: one advisory below a root that is critical or that no exception lists, or
      whose first one has lapsed, has no review day, is for another root or does not allow a
      package on the way, and the report is not sound. */
  lemma UnapprovedIsUnsound(a: Audit, r: Package, p: seq<Package>, advisory: Advisory)
    requires Unnamed(a, r) && [r] <= p && IsPath(a, p)
    requires Last(p) in a.findings && a.findings[Last(p)].Finding? && Found(advisory) in a.findings[Last(p)].via
    requires forall e | Decides(a.policy, advisory, Last(p), e) ::
      || e.deadline.None? || e.deadline.value < a.now || e.rootPackage != r
      || exists j | 0 <= j < |p| :: p[j] !in e.allowedPackages
    ensures !Sound(a)
  {
    if Sound(a) {
      var e := SoundMeans(a, r, p, advisory);
    }
  }

  /** A sound report has no cycle and names no package it does not hold, anywhere. */
  lemma SoundIsTame(a: Audit)
    requires Sound(a)
    ensures Tame(a)
  {
    forall k | k in a.findings
      ensures Covered(a, k)
    {
      var r := SoundIsCovered(a, k);
    }
    CoveredTame(a);
  }

  /** The id a root that passes contributes, and again if one of its matches is moderate. */
  function IdOf(a: Audit, r: Package): seq<string> {
    var w := Walk(a, r, [], r);
    if RootOk(a, r) && w.matches != [] then [w.matches[0].exception.id] else []
  }

  function ModerateOf(a: Audit, r: Package): seq<string> {
    var w := Walk(a, r, [], r);
    if RootOk(a, r) && exists i | 0 <= i < |w.matches| :: Lower(w.matches[i].severity) == "moderate"
    then IdOf(a, r)
    else []
  }

  /** What the roots contribute, in order. */
  ghost function IdsOf(a: Audit, roots: seq<Package>): seq<string> {
    if roots == [] then [] else IdsOf(a, roots[..|roots| - 1]) + IdOf(a, roots[|roots| - 1])
  }

  ghost function ModeratesOf(a: Audit, roots: seq<Package>): seq<string> {
    if roots == [] then [] else ModeratesOf(a, roots[..|roots| - 1]) + ModerateOf(a, roots[|roots| - 1])
  }

  ghost predicate AllPass(a: Audit, roots: seq<Package>) {
    forall r {:trigger RootOk(a, r)} | r in roots :: RootOk(a, r)
  }

  lemma PassSnoc(a: Audit, roots: seq<Package>, r: Package)
    ensures AllPass(a, roots + [r]) <==> AllPass(a, roots) && RootOk(a, r)
  {
    assert forall x :: x in roots + [r] <==> x in roots || x == r;
  }

  ghost function Visited(a: Audit, r: Package): set<Package> { Walk(a, r, [], r).visited }

  ghost predicate AllWithin(a: Audit, roots: seq<Package>, s: set<Package>) {
    forall r {:trigger Visited(a, r)} | r in roots :: Visited(a, r) <= s
  }

  lemma WithinSnoc(a: Audit, roots: seq<Package>, r: Package, s: set<Package>, t: set<Package>)
    requires AllWithin(a, roots, s) && t == s + Visited(a, r)
    ensures AllWithin(a, roots + [r], t)
  {
  }

  /** The packages no other one refers to, in order. */
  function Outside(keys: seq<Package>, referenced: set<Package>): (r: seq<Package>)
    ensures forall x :: x in r <==> x in keys && x !in referenced
  {
    if keys == [] then []
    else
      var n := |keys| - 1;
      assert forall x :: x in keys <==> x in keys[..n] || x == keys[n];
      Outside(keys[..n], referenced) + if keys[n] in referenced then [] else [keys[n]]
  }

  lemma OutsideStep(keys: seq<Package>, n: nat, referenced: set<Package>)
    requires n < |keys|
    ensures Outside(keys[..n + 1], referenced) ==
      Outside(keys[..n], referenced) + if keys[n] in referenced then [] else [keys[n]]
  {
    assert keys[..n + 1][..n] == keys[..n];
  }

  lemma OutsideAreRoots(a: Audit, referenced: set<Package>)
    requires WellFormed(a) && forall x :: x in referenced <==> Referenced(a, x)
    ensures forall r :: r in Outside(a.keys[..|a.keys|], referenced) <==> IsRoot(a, r)
  {
    assert a.keys[..|a.keys|] == a.keys;
  }

  lemma IdsSnoc(a: Audit, roots: seq<Package>, r: Package)
    ensures IdsOf(a, roots + [r]) == IdsOf(a, roots) + IdOf(a, r)
    ensures ModeratesOf(a, roots + [r]) == ModeratesOf(a, roots) + ModerateOf(a, r)
  {
    assert (roots + [r])[..|roots|] == roots;
  }

  lemma {:induction false} IdsHold(a: Audit, roots: seq<Package>, id: string)
    ensures id in IdsOf(a, roots) <==> exists r | r in roots :: id in IdOf(a, r)
    ensures id in ModeratesOf(a, roots) <==> exists r | r in roots :: id in ModerateOf(a, r)
  {
    if roots != [] {
      var n := |roots| - 1;
      IdsHold(a, roots[..n], id);
      assert forall r :: r in roots <==> r in roots[..n] || r == roots[n];
    }
  }

  /** Some passing root has an advisory, on some path below it, whose exception has this id. */
  ghost predicate AcceptedId(a: Audit, id: string) {
    exists r, m | IsRoot(a, r) && Yields(a, [r], m) :: AllFine(a, r, [r]) && OneId(a, r) && m.exception.id == id
  }

  /** And one of that root's advisories is called moderate outright; "medium" does not register. */
  ghost predicate RegisteredId(a: Audit, id: string) {
    exists r, m | IsRoot(a, r) && Yields(a, [r], m) ::
      AllFine(a, r, [r]) && OneId(a, r) && m.exception.id == id && Lower(m.severity) == "moderate"
  }

  lemma {:induction false} LowerFixed(s: string)
    requires forall i | 0 <= i < |s| :: !('A' <= s[i] <= 'Z')
    ensures Lower(s) == s
  {
    if s != [] {
      LowerFixed(s[1..]);
      assert s == [s[0]] + s[1..];
    }
  }

  lemma OnlyPath(a: Audit, package: Package, advisory: Advisory, p: seq<Package>)
    requires a.findings == map[package := Finding([Found(advisory)])] && [package] <= p && IsPath(a, p)
    ensures p == [package]
  {
    assert |p| > 1 ==> Leads(a, p[0], p[1]);
  }

  /** The only match of a report with one package and one advisory. */
  lemma OnlyMatch(a: Audit, package: Package, advisory: Advisory, e: Exception, m: Match)
    requires a.findings == map[package := Finding([Found(advisory)])]
    requires ExceptionFor(a.policy, advisory, package) == Some(e)
    ensures Yields(a, [package], m) <==> m == Match(e, advisory.severity)
  {
    if Yields(a, [package], m) {
      var p :| [package] <= p && IsPath(a, p) && Matched(a, Last(p), m);
      OnlyPath(a, package, advisory, p);
    }
    assert IsPath(a, [package]) && Last([package]) == package;
    if m == Match(e, advisory.severity) {
      assert EntryMatch(a, package, a.findings[package].via[0], m);
      assert Matched(a, Last([package]), m);
    }
  }

  /** A report with one advisory that its exception covers: the exception is accepted,
      and registered exactly if the advisory is called moderate, in any case of letters. */
  lemma OneAdvisory(a: Audit, package: Package, advisory: Advisory, e: Exception)
    requires a.findings == map[package := Finding([Found(advisory)])]
    requires Decides(a.policy, advisory, package, e) && e.deadline.Some? && a.now <= e.deadline.value
    requires e.rootPackage == package && package in e.allowedPackages
    ensures Accepts(a, e.id) && (Registers(a, e.id) <==> SameLetters(advisory.severity, "moderate"))
  {
    hide Decides, Accepts, Registers, SameLetters, AcceptedId, RegisteredId, ExceptionFor;
    ExceptionMeans(a.policy, advisory, package, e);
    OneIsAccepted(a, package, advisory, e);
    AcceptsMeans(a, e.id);
    LowerReads(advisory.severity, "moderate");
  }

  lemma OneIsAccepted(a: Audit, package: Package, advisory: Advisory, e: Exception)
    requires a.findings == map[package := Finding([Found(advisory)])]
    requires ExceptionFor(a.policy, advisory, package) == Some(e) && e.deadline.Some? && a.now <= e.deadline.value
    requires e.rootPackage == package && package in e.allowedPackages
    ensures AcceptedId(a, e.id) && (RegisteredId(a, e.id) <==> Lower(advisory.severity) == "moderate")
  {
    var m := Match(e, advisory.severity);
    OnlyMatch(a, package, advisory, e, m);
    assert IsRoot(a, package);
    forall n
      ensures Yields(a, [package], n) <==> n == m
    {
      OnlyMatch(a, package, advisory, e, n);
    }
    forall p | [package] <= p && IsPath(a, p)
      ensures Fine(a, package, p)
    {
      OnlyPath(a, package, advisory, p);
      assert Last([package]) == package && [package][..0] == [];
    }
    assert AllFine(a, package, [package]) && OneId(a, package);
  }

  /** An advisory called "medium" is accepted as a moderate one would be, and is not registered. */
  lemma MediumIsNotRegistered() returns (a: Audit, id: string)
    ensures WellFormed(a) && Accepts(a, id) && !Registers(a, id)
  {
    var package := "pkg";
    var advisory := Advisory("GHSA-1", "medium");
    id := "risk-1";
    var e := Exception(id, package, [COMPONENT], [package], [PolicyAdvisory("GHSA-1", package, "medium")], Some(1));
    a := Audit([package], map[package := Finding([Found(advisory)])], Policy([e], []), 0);
    LowerFixed("medium");
    assert a.policy.exceptions + a.policy.moderates == [e];
    assert e.advisories[0].id == advisory.id && Covers(e, advisory, package);
    ExceptionMeans(a.policy, advisory, package, e);
    assert |"medium"| != |"moderate"|;
    OneAdvisory(a, package, advisory, e);
  }

  /** All below the package is in order, under exceptions with one id. */
  ghost predicate Passes(a: Audit, r: Package) {
    && (forall p | [r] <= p && IsPath(a, p) :: InOrder(a, r, p))
    && (forall x, e, y, f | Below(a, r, x, e) && Below(a, r, y, f) :: e.id == f.id)
  }

  /** An id is accepted if it is that of an exception that decides below a passing root ... */
  ghost predicate Accepts(a: Audit, id: string) {
    exists r, x, e | Unnamed(a, r) && Below(a, r, x, e) :: Passes(a, r) && e.id == id
  }

  /** ... and registered if one of the advisories it decides is called moderate, in any capitals. */
  ghost predicate Registers(a: Audit, id: string) {
    exists r, x, e | Unnamed(a, r) && Below(a, r, x, e) ::
      Passes(a, r) && e.id == id && SameLetters(x.severity, "moderate")
  }

  lemma PassesMeans(a: Audit, r: Package)
    ensures Passes(a, r) <==> AllFine(a, r, [r]) && OneId(a, r)
  {
    RootFineMeans(a, r);
    OneIdMeans(a, r);
    hide InOrder, Below, AllFine, OneId, IsPath;
  }

  lemma AcceptsMeans(a: Audit, id: string)
    ensures AcceptedId(a, id) <==> Accepts(a, id)
    ensures RegisteredId(a, id) <==> Registers(a, id)
  {
    hide InOrder, Below, AllFine, OneId, IsPath, Yields, IsRoot, Unnamed, Passes;
    forall r, m | IsRoot(a, r) && Yields(a, [r], m) && AllFine(a, r, [r]) && OneId(a, r) && m.exception.id == id
      ensures Accepts(a, id) && (Lower(m.severity) == "moderate" ==> Registers(a, id))
    {
      RootMeans(a, r);
      PassesMeans(a, r);
      YieldsMeans(a, r, m);
      LowerReads(m.severity, "moderate");
      var x :| Below(a, r, x, m.exception) && x.severity == m.severity;
    }
    forall r, x, e | Unnamed(a, r) && Below(a, r, x, e) && Passes(a, r) && e.id == id
      ensures AcceptedId(a, id) && (SameLetters(x.severity, "moderate") ==> RegisteredId(a, id))
    {
      RootMeans(a, r);
      PassesMeans(a, r);
      YieldsMeans(a, r, Match(e, x.severity));
      LowerReads(x.severity, "moderate");
      assert Yields(a, [r], Match(e, x.severity));
    }
  }

  lemma RootId(a: Audit, r: Package, m: Match)
    requires RootOk(a, r) && Yields(a, [r], m)
    ensures IdOf(a, r) == [m.exception.id]
    ensures Lower(m.severity) == "moderate" ==> ModerateOf(a, r) == [m.exception.id]
  {
    WalkFromStart(a, r);
    var ms := Walk(a, r, [], r).matches;
    var i :| 0 <= i < |ms| && ms[i] == m;
  }

  lemma IdRoot(a: Audit, r: Package) returns (m: Match)
    requires IdOf(a, r) != []
    ensures RootOk(a, r) && Yields(a, [r], m) && IdOf(a, r) == [m.exception.id]
    ensures ModerateOf(a, r) != [] ==> Lower(m.severity) == "moderate"
  {
    WalkFromStart(a, r);
    var ms := Walk(a, r, [], r).matches;
    if i :| 0 <= i < |ms| && Lower(ms[i].severity) == "moderate" {
      m := ms[i];
    } else {
      m := ms[0];
    }
    assert m in ms;
  }

  lemma IdsMean(a: Audit, id: string)
    ensures (exists r | IsRoot(a, r) :: id in IdOf(a, r)) <==> AcceptedId(a, id)
    ensures (exists r | IsRoot(a, r) :: id in ModerateOf(a, r)) <==> RegisteredId(a, id)
  {
    forall r | IsRoot(a, r) && id in IdOf(a, r)
      ensures AcceptedId(a, id) && (id in ModerateOf(a, r) ==> RegisteredId(a, id))
    {
      var m := IdRoot(a, r);
      RootOkMeans(a, r);
    }
    forall r, m | IsRoot(a, r) && Yields(a, [r], m) && AllFine(a, r, [r]) && OneId(a, r) && m.exception.id == id
      ensures id in IdOf(a, r) && (Lower(m.severity) == "moderate" ==> id in ModerateOf(a, r))
    {
      RootOkMeans(a, r);
      RootId(a, r, m);
    }
  }

  lemma WalkVisitsStart(a: Audit, s: Package)
    requires Walk(a, s, [], s).Accepted?
    ensures s in Walk(a, s, [], s).visited
  {
    WalkFromStart(a, s);
    assert IsPath(a, [s]) && [s] <= [s];
    assert Reaches(a, [s], s);
  }

  /** In a sound report every root passes, and their walks leave no package out. */
  lemma SoundPasses(a: Audit, roots: seq<Package>, traversed: set<Package>)
    requires Sound(a) && (forall r :: r in roots <==> IsRoot(a, r)) && AllWithin(a, roots, traversed)
    ensures AllPass(a, roots) && a.findings.Keys <= traversed
  {
    forall r | r in roots
      ensures RootOk(a, r)
    {
      SoundRoot(a, r);
      RootOkMeans(a, r);
    }
    forall k | k in a.findings
      ensures k in traversed
    {
      var r := SoundIsCovered(a, k);
      assert Visited(a, r) <= traversed;
    }
  }

  // ---------------------------------------------------------------- the evaluation

  /** The verdict under construction, updated by a recursive walk. */
  class Evaluation {
    const audit: Audit
    var ok: bool
    var accepted: seq<string>
    var violations: seq<Violation>
    var registeredModerates: seq<string>
    var traversed: set<Package>

    constructor (audit: Audit)
      ensures this.audit == audit && ok && accepted == [] && violations == [] && registeredModerates == []
      ensures traversed == {}
    {
      this.audit := audit;
      ok, accepted, violations, registeredModerates, traversed := true, [], [], [], {};
    }

    method Reject(violation: Violation)
      modifies this`ok, this`violations
      ensures !ok && violations == old(violations) + [violation]
    {
      ok := false;
      violations := violations + [violation];
    }

    method Resolve(package: Package, root: Package, ancestors: seq<Package>, seen: set<Package>)
      returns (r: Option<seq<Match>>)
      requires forall x :: x in seen <==> x in ancestors
      modifies this`ok, this`violations, this`traversed
      ensures var w := Walk(audit, root, ancestors, package);
        && traversed == old(traversed) + w.visited
        && (w.Accepted? ==> r == Some(w.matches) && ok == old(ok) && violations == old(violations))
        && (w.Rejected? ==> r == None && !ok && violations == old(violations) + [w.violation])
      decreases Unseen(audit, ancestors)
    {
      if package !in audit.findings || audit.findings[package].Malformed? || audit.findings[package].via == [] {
        Reject(MalformedPath(package));
        return None;
      }
      if package in seen {
        Reject(CyclicPath(package));
        return None;
      }
      UnseenShrinks(audit, ancestors, package);
      traversed := traversed + {package};
      var path := ancestors + [package];
      var nextSeen := seen + {package};
      var via := audit.findings[package].via;
      var matches: seq<Match> := [];
      ghost var visited := {package};
      var i := 0;
      while i < |via|
        invariant 0 <= i <= |via| && ok == old(ok) && violations == old(violations)
        invariant traversed == old(traversed) + visited
        invariant WalkEntries(audit, root, path, via[i..], matches, visited) == Walk(audit, root, ancestors, package)
      {
        assert via[i..][0] == via[i] && via[i..][1..] == via[i + 1..];
        match via[i] {
          case Ref(p) =>
            var nested := Resolve(p, root, path, nextSeen);
            visited := visited + Walk(audit, root, path, p).visited;
            if nested.None? {
              return None;
            }
            matches := matches + nested.value;
          case Unreadable =>
            Reject(MalformedAdvisory(package));
            return None;
          case Found(advisory) =>
            var e := ExceptionFor(audit.policy, advisory, package);
            if e.None? || !Active(e.value, audit.now) {
              Reject(Unaccepted(advisory.id, package));
              return None;
            }
            if e.value.rootPackage != root || exists j | 0 <= j < |path| :: path[j] !in e.value.allowedPackages {
              Reject(UnapprovedAncestor(advisory.id));
              return None;
            }
            matches := matches + [Match(e.value, advisory.severity)];
        }
        i := i + 1;
      }
      r := Some(matches);
    }

    method CollectReferenced() returns (referenced: set<Package>)
      requires WellFormed(audit)
      ensures forall x :: x in referenced <==> Referenced(audit, x)
    {
      referenced := {};
      var n := 0;
      while n < |audit.keys|
        invariant 0 <= n <= |audit.keys|
        invariant forall x :: x in referenced <==> exists i | 0 <= i < n :: Leads(audit, audit.keys[i], x)
      {
        var finding := audit.findings[audit.keys[n]];
        if finding.Finding? {
          referenced := referenced + set e | e in finding.via && e.Ref? :: e.package;
        }
        n := n + 1;
      }
    }

    method EvaluateRoot(root: Package)
      modifies this
      ensures traversed == old(traversed) + Walk(audit, root, [], root).visited
      ensures ok == (old(ok) && RootOk(audit, root))
      ensures RootOk(audit, root) ==> violations == old(violations)
      ensures !RootOk(audit, root) ==> |violations| == |old(violations)| + 1
      ensures accepted == old(accepted) + IdOf(audit, root)
      ensures registeredModerates == old(registeredModerates) + ModerateOf(audit, root)
      ensures old(AllCaused(audit, violations)) ==> AllCaused(audit, violations)
    {
      var matches := Resolve(root, root, [], {});
      if matches.None? {
        RejectedIsCaused(audit, root);
        hide Caused;
      }
      if matches.None? || matches.value == [] {
        return;
      }
      var exception := matches.value[0].exception;
      if exists i | 0 <= i < |matches.value| :: matches.value[i].exception.id != exception.id {
        ghost var i :| 0 <= i < |matches.value| && matches.value[i].exception.id != exception.id;
        SpanIsCaused(audit, root, i);
        hide Caused;
        Reject(MultipleExceptions(root));
        return;
      }
      accepted := accepted + [exception.id];
      if exists i | 0 <= i < |matches.value| :: Lower(matches.value[i].severity) == "moderate" {
        registeredModerates := registeredModerates + [exception.id];
      }
    }

    method EvaluateRoots(referenced: set<Package>) returns (ghost roots: seq<Package>)
      requires WellFormed(audit) && ok && violations == [] && accepted == [] && registeredModerates == []
      requires traversed == {}
      requires forall x :: x in referenced <==> Referenced(audit, x)
      modifies this
      ensures forall r :: r in roots <==> IsRoot(audit, r)
      ensures ok <==> violations == []
      ensures ok <==> AllPass(audit, roots)
      ensures AllCaused(audit, violations)
      ensures AllWithin(audit, roots, traversed)
      ensures ok ==> AllCovered(audit, traversed)
      ensures accepted == IdsOf(audit, roots) && registeredModerates == ModeratesOf(audit, roots)
    {
      var n := 0;
      roots := [];
      while n < |audit.keys|
        invariant 0 <= n <= |audit.keys|
        invariant roots == Outside(audit.keys[..n], referenced)
        invariant ok <==> violations == []
        invariant ok <==> AllPass(audit, roots)
        invariant AllCaused(audit, violations)
        invariant AllWithin(audit, roots, traversed)
        invariant ok ==> AllCovered(audit, traversed)
        invariant accepted == IdsOf(audit, roots) && registeredModerates == ModeratesOf(audit, roots)
      {
        OutsideStep(audit.keys, n, referenced);
        if audit.keys[n] !in referenced {
          EvaluateNext(roots, audit.keys[n]);
          roots := roots + [audit.keys[n]];
        }
        n := n + 1;
      }
      OutsideAreRoots(audit, referenced);
    }

    method EvaluateNext(ghost roots: seq<Package>, root: Package)
      requires (ok <==> violations == []) && (ok <==> AllPass(audit, roots)) && AllWithin(audit, roots, traversed)
      requires ok ==> AllCovered(audit, traversed)
      requires accepted == IdsOf(audit, roots) && registeredModerates == ModeratesOf(audit, roots)
      modifies this
      ensures (ok <==> violations == []) && (ok <==> AllPass(audit, roots + [root]))
      ensures old(AllCaused(audit, violations)) ==> AllCaused(audit, violations)
      ensures AllWithin(audit, roots + [root], traversed)
      ensures ok ==> AllCovered(audit, traversed)
      ensures accepted == IdsOf(audit, roots + [root]) && registeredModerates == ModeratesOf(audit, roots + [root])
    {
      EvaluateRoot(root);
      if ok {
        CoveredGrows(audit, old(traversed), root);
      }
      IdsSnoc(audit, roots, root);
      PassSnoc(audit, roots, root);
      WithinSnoc(audit, roots, root, old(traversed), traversed);
    }

    method ResolveAlone(package: Package)
      requires ok <==> violations == []
      requires ok ==> AllCovered(audit, traversed)
      modifies this`ok, this`violations, this`traversed
      ensures ok <==> violations == []
      ensures old(AllCaused(audit, violations)) ==> AllCaused(audit, violations)
      ensures ok ==> old(ok) && package in traversed && AllCovered(audit, traversed)
      ensures old(traversed) <= traversed
    {
      var matches := Resolve(package, package, [], {});
      if ok {
        WalkVisitsStart(audit, package);
        CoveredGrows(audit, old(traversed), package);
      }
      if matches.None? {
        RejectedIsCaused(audit, package);
        hide Caused;
      }
    }

    method EvaluateRest()
      requires WellFormed(audit) && (ok <==> violations == [])
      requires ok ==> AllCovered(audit, traversed)
      modifies this`ok, this`violations, this`traversed
      ensures ok <==> violations == []
      ensures old(AllCaused(audit, violations)) ==> AllCaused(audit, violations)
      ensures ok ==> old(ok) && audit.findings.Keys <= traversed && AllCovered(audit, traversed)
      ensures old(audit.findings.Keys <= traversed) ==> ok == old(ok)
    {
      var n := 0;
      while n < |audit.keys|
        invariant 0 <= n <= |audit.keys|
        invariant ok <==> violations == []
        invariant old(AllCaused(audit, violations)) ==> AllCaused(audit, violations)
        invariant ok ==> old(ok)
        invariant old(traversed) <= traversed
        invariant old(audit.findings.Keys <= traversed) ==> ok == old(ok)
        invariant ok ==> forall i | 0 <= i < n :: audit.keys[i] in traversed
        invariant ok ==> AllCovered(audit, traversed)
      {
        if audit.keys[n] !in traversed {
          ResolveAlone(audit.keys[n]);
        }
        n := n + 1;
      }
    }

    /** The verdict on a readable report. */
    method Evaluate()
      requires WellFormed(audit) && ok && violations == [] && accepted == [] && registeredModerates == []
      requires traversed == {}
      modifies this
      ensures ok <==> Sound(audit)
      ensures ok <==> violations == []
      ensures AllCaused(audit, violations)
      ensures forall id :: id in accepted <==> exists r | IsRoot(audit, r) :: id in IdOf(audit, r)
      ensures forall id :: id in registeredModerates <==> exists r | IsRoot(audit, r) :: id in ModerateOf(audit, r)
      ensures NoRepeats(accepted) && NoRepeats(registeredModerates)
    {
      var referenced := CollectReferenced();
      ghost var roots := EvaluateRoots(referenced);
      forall id
        ensures id in accepted <==> exists r | IsRoot(audit, r) :: id in IdOf(audit, r)
        ensures id in registeredModerates <==> exists r | IsRoot(audit, r) :: id in ModerateOf(audit, r)
      {
        IdsHold(audit, roots, id);
      }
      if Sound(audit) {
        SoundPasses(audit, roots, traversed);
      }
      EvaluateRest();
      if ok {
        AcceptedIsSound(audit);
      }
      accepted := Distinct(accepted);
      registeredModerates := Distinct(registeredModerates);
    }
  }

  predicate NoRepeats(names: seq<string>) {
    forall i, j | 0 <= i < j < |names| :: names[i] != names[j]
  }

  /** Distinct names, in order of first appearance. */
  function Distinct(names: seq<string>): (r: seq<string>)
    ensures NoRepeats(r) && forall x :: x in r <==> x in names
  {
    if names == [] then []
    else
      var last := names[|names| - 1];
      var rest := Distinct(names[..|names| - 1]);
      assert names == names[..|names| - 1] + [last];
      if last in rest then rest else rest + [last]
  }

  datatype Verdict = Verdict(
    ok: bool, accepted: seq<string>, violations: seq<Violation>, registeredModerates: seq<string>)

  /** `evaluateNpmAudit`: None is a report, policy or date that cannot be read. */
  method EvaluateNpmAudit(report: Option<Audit>) returns (v: Verdict)
    requires report.Some? ==> WellFormed(report.value)
    ensures v.ok <==> report.Some? && Acceptable(report.value)
    ensures v.ok <==> v.violations == []
    ensures report.None? ==> v == Verdict(false, [], [MalformedInput], [])
    ensures report.Some? ==> forall id :: id in v.accepted <==> Accepts(report.value, id)
    ensures report.Some? ==> forall id :: id in v.registeredModerates <==> Registers(report.value, id)
    ensures report.Some? ==> forall x | x in v.violations :: Caused(report.value, x)
    ensures NoRepeats(v.accepted) && NoRepeats(v.registeredModerates)
  {
    if report.None? {
      return Verdict(false, [], [MalformedInput], []);
    }
    var e := new Evaluation(report.value);
    e.Evaluate();
    forall id
      ensures id in e.accepted <==> Accepts(report.value, id)
      ensures id in e.registeredModerates <==> Registers(report.value, id)
    {
      IdsMean(report.value, id);
      AcceptsMeans(report.value, id);
    }
    SoundIsAcceptable(report.value);
    v := Verdict(e.ok, e.accepted, e.violations, e.registeredModerates);
  }
}
