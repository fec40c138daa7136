/**
Release evidence: one fragment of observations per release target, aggregated into a canonical document
that its own validator derives again from the fragments.
*/
module ReleaseEvidence {
  import opened Basics
  import opened Ordering

  const SCHEMA_VERSION := 1
  const REQUIRED_RELEASE_TARGETS := ["windows-x86_64", "darwin-aarch64", "darwin-x86_64", "linux-x86_64"]

  datatype Subject = Subject(repository: string, commitSha: string, tag: string, version: string)
  datatype Status = Passed | Failed
  datatype Assertion = Assertion(id: string, status: Status, detail: Option<string>)
  datatype Artifact = Artifact(
    name: string, target: string, file: string, size: nat, sha256: string, signature: Option<string>)
  datatype Fragment = Fragment(
    schema: nat, subject: Subject, platform: string, scenario: string, status: Status,
    assertions: seq<Assertion>, artifacts: seq<Artifact>, errors: seq<string>)
  datatype Evidence = Evidence(
    schema: nat, subject: Subject, status: Status, fragments: seq<Fragment>, artifacts: seq<Artifact>)

  /** The table of assertion ids that a fragment may use. */
  type KnownIds = string -> bool

  // ---------- a single fragment ----------

  /** The code points with the White_Space property. */
  predicate IsUnicodeSpace(c: char) {
    var n := c as int;
    || 0x09 <= n <= 0x0D || n == 0x20 || n == 0x85 || n == 0xA0 || n == 0x1680
    || 0x2000 <= n <= 0x200A || n == 0x2028 || n == 0x2029 || n == 0x202F || n == 0x205F || n == 0x3000
  }

  predicate Blank(s: string) {
    forall i | 0 <= i < |s| :: IsUnicodeSpace(s[i])
  }

  predicate IsHexDigit(c: char) {
    '0' <= c <= '9' || 'a' <= c <= 'f' || 'A' <= c <= 'F'
  }

  predicate SubjectOk(s: Subject) {
    !Blank(s.repository) && !Blank(s.commitSha) && !Blank(s.tag) && !Blank(s.version)
  }

  predicate ArtifactOk(a: Artifact) {
    && !Blank(a.name) && !Blank(a.target) && !Blank(a.file)
    && |a.sha256| == 64 && (forall i | 0 <= i < |a.sha256| :: IsHexDigit(a.sha256[i]))
    && a.signature != Some("")
  }

  datatype Key = Key(target: string, name: string)

  function KeyOf(a: Artifact): Key {
    Key(a.target, a.name)
  }

  predicate DistinctKeys(artifacts: seq<Artifact>) {
    forall i, j | 0 <= i < j < |artifacts| :: KeyOf(artifacts[i]) != KeyOf(artifacts[j])
  }

  predicate ArtifactsOk(artifacts: seq<Artifact>) {
    (forall a <- artifacts :: ArtifactOk(a)) && DistinctKeys(artifacts)
  }

  /** A failed assertion or an error. */
  predicate HasFailure(f: Fragment) {
    (exists a <- f.assertions :: a.status == Failed) || f.errors != []
  }

  predicate DistinctIds(assertions: seq<Assertion>) {
    forall i, j | 0 <= i < j < |assertions| :: assertions[i].id != assertions[j].id
  }

  predicate FragmentOk(known: KnownIds, f: Fragment) {
    && f.schema == SCHEMA_VERSION && SubjectOk(f.subject) && !Blank(f.platform) && !Blank(f.scenario)
    && f.assertions != [] && DistinctIds(f.assertions)
    && (forall a <- f.assertions :: !Blank(a.id) && known(a.id))
    && (f.status == Failed <==> HasFailure(f))
    && ArtifactsOk(f.artifacts)
    && (forall a <- f.artifacts :: a.target == f.platform)
  }

  method ValidateArtifacts(artifacts: seq<Artifact>) returns (ok: bool)
    ensures ok == ArtifactsOk(artifacts)
  {
    var keys: set<Key> := {};
    for i := 0 to |artifacts|
      invariant keys == set a <- artifacts[..i] :: KeyOf(a)
      invariant ArtifactsOk(artifacts[..i])
    {
      assert artifacts[..i + 1] == artifacts[..i] + [artifacts[i]];
      if !ArtifactOk(artifacts[i]) {
        return false;
      }
      if KeyOf(artifacts[i]) in keys {
        return false;
      }
      keys := keys + {KeyOf(artifacts[i])};
    }
    assert artifacts[..|artifacts|] == artifacts;
    return true;
  }

  method ValidateAssertions(known: KnownIds, assertions: seq<Assertion>) returns (ok: bool)
    ensures ok == (DistinctIds(assertions) && forall a <- assertions :: !Blank(a.id) && known(a.id))
  {
    var ids: set<string> := {};
    for i := 0 to |assertions|
      invariant ids == set a <- assertions[..i] :: a.id
      invariant DistinctIds(assertions[..i])
      invariant forall a <- assertions[..i] :: !Blank(a.id) && known(a.id)
    {
      assert assertions[..i + 1] == assertions[..i] + [assertions[i]];
      if assertions[i].id in ids || Blank(assertions[i].id) || !known(assertions[i].id) {
        return false;
      }
      ids := ids + {assertions[i].id};
    }
    assert assertions[..|assertions|] == assertions;
    return true;
  }

  method ValidateFragment(known: KnownIds, f: Fragment) returns (ok: bool)
    ensures ok == FragmentOk(known, f)
  {
    if f.schema != SCHEMA_VERSION || !SubjectOk(f.subject) || Blank(f.platform) || Blank(f.scenario)
       || f.assertions == [] {
      return false;
    }
    var assertionsOk := ValidateAssertions(known, f.assertions);
    if !assertionsOk {
      return false;
    }
    if f.status == Passed && HasFailure(f) {
      return false;
    }
    if f.status == Failed && !HasFailure(f) {
      return false;
    }
    var artifactsOk := ValidateArtifacts(f.artifacts);
    if !artifactsOk {
      return false;
    }
    return forall a <- f.artifacts :: a.target == f.platform;
  }

  // ---------- the aggregate, said once ----------

  function CountOf(fragments: seq<Fragment>, target: string): nat {
    if fragments == [] then 0
    else CountOf(fragments[..|fragments| - 1], target) + if fragments[|fragments| - 1].platform == target then 1 else 0
  }

  /** Every fragment is valid, speaks of this subject and of a required target, and each target has one. */
  predicate Acceptable(known: KnownIds, subject: Subject, fragments: seq<Fragment>) {
    && (forall f <- fragments :: FragmentOk(known, f) && f.subject == subject && f.platform in REQUIRED_RELEASE_TARGETS)
    && (forall target <- REQUIRED_RELEASE_TARGETS :: CountOf(fragments, target) == 1)
  }

  function FragmentOrder(): Comparator<Fragment> {
    Then(By((f: Fragment) => f.platform, CompareStrings), By((f: Fragment) => f.scenario, CompareStrings))
  }

  function ArtifactOrder(): Comparator<Artifact> {
    Then(By((a: Artifact) => a.target, CompareStrings), By((a: Artifact) => a.name, CompareStrings))
  }

  function AllArtifacts(fragments: seq<Fragment>): seq<Artifact> {
    if fragments == [] then [] else AllArtifacts(fragments[..|fragments| - 1]) + fragments[|fragments| - 1].artifacts
  }

  function Aggregated(known: KnownIds, subject: Subject, fragments: seq<Fragment>): Result<Evidence> {
    if !Acceptable(known, subject, fragments) then Err
    else
      var sorted := Sort(FragmentOrder(), fragments);
      Ok(Evidence(SCHEMA_VERSION, subject,
                  if forall f <- sorted :: f.status == Passed then Passed else Failed,
                  sorted, Sort(ArtifactOrder(), AllArtifacts(sorted))))
  }

  predicate EvidenceOk(known: KnownIds, e: Evidence) {
    e.schema == SCHEMA_VERSION && Aggregated(known, e.subject, e.fragments) == Ok(e)
  }

  // ---------- the aggregate as it is computed ----------

  lemma {:induction false} CountedIn(fragments: seq<Fragment>, target: string)
    ensures CountOf(fragments, target) > 0 <==> exists f <- fragments :: f.platform == target
    decreases |fragments|
  {
    if fragments != [] {
      var n := |fragments| - 1;
      CountedIn(fragments[..n], target);
      assert fragments == fragments[..n] + [fragments[n]];
    }
  }

  lemma {:induction false} CountedTwice(fragments: seq<Fragment>, i: nat, j: nat)
    requires i < j < |fragments| && fragments[i].platform == fragments[j].platform
    ensures CountOf(fragments, fragments[i].platform) >= 2
    decreases |fragments|
  {
    var n := |fragments| - 1;
    if j == n {
      assert fragments[..n][i] == fragments[i];
      CountedIn(fragments[..n], fragments[i].platform);
    } else {
      CountedTwice(fragments[..n], i, j);
    }
  }

  lemma {:induction false} CountGrows(fragments: seq<Fragment>, i: nat, target: string)
    requires i <= |fragments|
    ensures CountOf(fragments[..i], target) <= CountOf(fragments, target)
    decreases |fragments|
  {
    if i < |fragments| {
      CountGrows(fragments[..|fragments| - 1], i, target);
      assert fragments[..|fragments| - 1][..i] == fragments[..i];
    } else {
      assert fragments[..i] == fragments;
    }
  }

  lemma WithoutOne(xs: seq<Fragment>, i: nat)
    requires i < |xs|
    ensures multiset(xs[..i] + xs[i + 1..]) == multiset(xs) - multiset{xs[i]}
  {
    assert xs == xs[..i] + [xs[i]] + xs[i + 1..];
  }

  lemma CountLast(xs: seq<Fragment>, target: string)
    requires xs != []
    ensures CountOf(xs, target) == CountOf(xs[..|xs| - 1], target) + if xs[|xs| - 1].platform == target then 1 else 0
  {
  }

  /** Leaving out an element before the last and then the last is leaving them out the other way round. */
  lemma WithoutBoth(ys: seq<Fragment>, j: nat)
    requires j < |ys| - 1
    ensures var n := |ys| - 1; var rest := ys[..j] + ys[j + 1..];
            |rest| == n && rest[..n - 1] == ys[..n][..j] + ys[..n][j + 1..] && rest[n - 1] == ys[n]
  {
  }

  lemma {:induction false} CountWithout(ys: seq<Fragment>, j: nat, target: string)
    requires j < |ys|
    ensures CountOf(ys, target) == CountOf(ys[..j] + ys[j + 1..], target) + if ys[j].platform == target then 1 else 0
    decreases |ys|
  {
    var n := |ys| - 1;
    CountLast(ys, target);
    if j == n {
      assert ys[..j] + ys[j + 1..] == ys[..n];
    } else {
      CountWithout(ys[..n], j, target);
      WithoutBoth(ys, j);
      CountLast(ys[..j] + ys[j + 1..], target);
    }
  }

  lemma FoundIn(xs: seq<Fragment>, ys: seq<Fragment>) returns (j: nat)
    requires multiset(xs) == multiset(ys) && xs != []
    ensures j < |ys| && ys[j] == xs[|xs| - 1]
    ensures multiset(xs[..|xs| - 1]) == multiset(ys[..j] + ys[j + 1..])
  {
    var n := |xs| - 1;
    assert xs[n] in multiset(ys);
    j :| 0 <= j < |ys| && ys[j] == xs[n];
    WithoutOne(xs, n);
    WithoutOne(ys, j);
    assert xs[..n] + xs[n + 1..] == xs[..n];
  }

  /** Acceptance does not depend on the order of the fragments. */
  lemma {:induction false} CountByMultiset(xs: seq<Fragment>, ys: seq<Fragment>, target: string)
    requires multiset(xs) == multiset(ys)
    ensures CountOf(xs, target) == CountOf(ys, target)
    decreases |xs|
  {
    assert |multiset(xs)| == |xs| && |multiset(ys)| == |ys|;
    if xs != [] {
      var j := FoundIn(xs, ys);
      CountByMultiset(xs[..|xs| - 1], ys[..j] + ys[j + 1..], target);
      CountWithout(ys, j, target);
      CountLast(xs, target);
    }
  }

  lemma AcceptableByMultiset(known: KnownIds, subject: Subject, xs: seq<Fragment>, ys: seq<Fragment>)
    requires multiset(xs) == multiset(ys)
    ensures Acceptable(known, subject, xs) <==> Acceptable(known, subject, ys)
  {
    forall f ensures f in xs <==> f in ys {
      assert f in xs <==> f in multiset(xs);
    }
    forall target ensures CountOf(xs, target) == CountOf(ys, target) {
      CountByMultiset(xs, ys, target);
    }
  }

  lemma {:induction false} ArtifactsOfPrefix(known: KnownIds, fragments: seq<Fragment>, a: Artifact)
    requires forall f <- fragments :: FragmentOk(known, f)
    ensures a in AllArtifacts(fragments) <==> exists f <- fragments :: a in f.artifacts
    ensures a in AllArtifacts(fragments) ==> CountOf(fragments, a.target) > 0
    decreases |fragments|
  {
    if fragments != [] {
      var n := |fragments| - 1;
      assert fragments == fragments[..n] + [fragments[n]];
      ArtifactsOfPrefix(known, fragments[..n], a);
    }
  }

  /** Which of the loop's checks can fail: a repeated key means a target seen twice. */
  lemma RepeatedTarget(fragments: seq<Fragment>, i: nat)
    requires i < |fragments| && CountOf(fragments[..i], fragments[i].platform) > 0
    ensures CountOf(fragments, fragments[i].platform) >= 2
  {
    assert fragments[..i + 1][..i] == fragments[..i];
    CountGrows(fragments, i + 1, fragments[i].platform);
  }

  method CollectArtifacts(known: KnownIds, f: Fragment, seen: set<Key>) returns (disjoint: bool, keys: set<Key>)
    requires FragmentOk(known, f)
    ensures disjoint <==> forall a <- f.artifacts :: KeyOf(a) !in seen
    ensures disjoint ==> keys == seen + set a <- f.artifacts :: KeyOf(a)
  {
    keys := seen;
    for j := 0 to |f.artifacts|
      invariant keys == seen + set a <- f.artifacts[..j] :: KeyOf(a)
      invariant forall a <- f.artifacts[..j] :: KeyOf(a) !in seen
    {
      assert f.artifacts[..j + 1] == f.artifacts[..j] + [f.artifacts[j]];
      var key := KeyOf(f.artifacts[j]);
      if key in keys {
        forall a <- f.artifacts[..j] ensures KeyOf(a) != key {
          var i :| 0 <= i < j && f.artifacts[i] == a;
        }
        assert key in seen;
        return false, keys;
      }
      keys := keys + {key};
    }
    assert f.artifacts[..|f.artifacts|] == f.artifacts;
    return true, keys;
  }

  predicate Belongs(known: KnownIds, subject: Subject, f: Fragment) {
    FragmentOk(known, f) && f.subject == subject && f.platform in REQUIRED_RELEASE_TARGETS
  }

  /** What the loop has noted of the fragments it has passed. */
  ghost predicate Noted(known: KnownIds, subject: Subject, passed: seq<Fragment>,
                        fragmentKeys: set<(string, string)>, counts: map<string, nat>,
                        artifactKeys: set<Key>, artifacts: seq<Artifact>)
  {
    && (forall f <- passed :: Belongs(known, subject, f))
    && (forall target :: (if target in counts then counts[target] else 0) == CountOf(passed, target))
    && artifacts == AllArtifacts(passed)
    && fragmentKeys == (set f <- passed :: (f.platform, f.scenario))
    && artifactKeys == (set a <- artifacts :: KeyOf(a))
  }

  /** A fragment whose target was not seen before repeats neither a fragment's nor an artifact's key. */
  lemma NewTargetIsFresh(known: KnownIds, subject: Subject, passed: seq<Fragment>, f: Fragment,
                         fragmentKeys: set<(string, string)>, counts: map<string, nat>,
                         artifactKeys: set<Key>, artifacts: seq<Artifact>)
    requires Noted(known, subject, passed, fragmentKeys, counts, artifactKeys, artifacts)
    requires FragmentOk(known, f) && CountOf(passed, f.platform) == 0
    ensures (f.platform, f.scenario) !in fragmentKeys
    ensures forall a <- f.artifacts :: KeyOf(a) !in artifactKeys
  {
    CountedIn(passed, f.platform);
    forall a <- f.artifacts ensures KeyOf(a) !in artifactKeys {
      if KeyOf(a) in artifactKeys {
        var b :| b in artifacts && KeyOf(b) == KeyOf(a);
        ArtifactsOfPrefix(known, passed, b);
      }
    }
  }

  lemma NotedGrows(known: KnownIds, subject: Subject, passed: seq<Fragment>, f: Fragment,
                   fragmentKeys: set<(string, string)>, counts: map<string, nat>,
                   artifactKeys: set<Key>, artifacts: seq<Artifact>)
    requires Noted(known, subject, passed, fragmentKeys, counts, artifactKeys, artifacts) && Belongs(known, subject, f)
    ensures Noted(known, subject, passed + [f], fragmentKeys + {(f.platform, f.scenario)},
                  counts[f.platform := (if f.platform in counts then counts[f.platform] else 0) + 1],
                  artifactKeys + (set a <- f.artifacts :: KeyOf(a)), artifacts + f.artifacts)
  {
    assert (passed + [f])[..|passed|] == passed;
  }

  /** A fragment that does not belong, or whose target was seen before, spoils the whole list. */
  lemma Spoils(known: KnownIds, subject: Subject, sorted: seq<Fragment>, i: nat)
    requires i < |sorted|
    requires !Belongs(known, subject, sorted[i]) || CountOf(sorted[..i], sorted[i].platform) > 0
    ensures !Acceptable(known, subject, sorted)
  {
    assert sorted[i] in sorted;
    if CountOf(sorted[..i], sorted[i].platform) > 0 {
      RepeatedTarget(sorted, i);
    }
  }

  /** Two fragments that repeat neither each other's key nor an artifact's. */
  ghost predicate Apart(f: Fragment, g: Fragment) {
    && (f.platform, f.scenario) != (g.platform, g.scenario)
    && (forall a <- f.artifacts, b <- g.artifacts :: KeyOf(a) != KeyOf(b))
  }

  /** What the loop asks of the fragments: each is for this release, and no key comes twice. */
  ghost predicate Sound(known: KnownIds, subject: Subject, fragments: seq<Fragment>) {
    && (forall f <- fragments :: Belongs(known, subject, f))
    && (forall i, j | 0 <= i < j < |fragments| :: Apart(fragments[i], fragments[j]))
  }

  lemma NewKeysAreApart(known: KnownIds, subject: Subject, passed: seq<Fragment>, f: Fragment,
                        fragmentKeys: set<(string, string)>, counts: map<string, nat>,
                        artifactKeys: set<Key>, artifacts: seq<Artifact>)
    requires Noted(known, subject, passed, fragmentKeys, counts, artifactKeys, artifacts)
    ensures ((f.platform, f.scenario) !in fragmentKeys && forall a <- f.artifacts :: KeyOf(a) !in artifactKeys)
       <==> forall g <- passed :: Apart(g, f)
  {
    forall a, b | a in artifacts && b in f.artifacts && KeyOf(a) == KeyOf(b)
      ensures exists g <- passed :: !Apart(g, f)
    {
      ArtifactsOfPrefix(known, passed, a);
      var g :| g in passed && a in g.artifacts;
      assert !Apart(g, f);
    }
    forall g, a | g in passed && a in g.artifacts ensures KeyOf(a) in artifactKeys {
      ArtifactsOfPrefix(known, passed, a);
    }
  }

  lemma SoundPrefix(known: KnownIds, subject: Subject, fragments: seq<Fragment>, i: nat)
    requires i < |fragments| && Sound(known, subject, fragments[..i])
    ensures Sound(known, subject, fragments[..i + 1])
       <==> Belongs(known, subject, fragments[i]) && forall g <- fragments[..i] :: Apart(g, fragments[i])
    ensures Sound(known, subject, fragments) ==> Sound(known, subject, fragments[..i + 1])
  {
    var f := fragments[i];
    assert fragments[..i + 1] == fragments[..i] + [f];
    if Sound(known, subject, fragments[..i + 1]) {
      forall g <- fragments[..i] ensures Apart(g, f) {
        var k :| 0 <= k < i && fragments[k] == g;
        assert fragments[..i + 1][k] == g && fragments[..i + 1][i] == f;
      }
    }
  }

  /**
  The loop over the sorted fragments: it stops at the first fragment that is not for this
  release or repeats a key.
  */
  method CheckFragments(known: KnownIds, subject: Subject, sorted: seq<Fragment>)
    returns (ok: bool, counts: map<string, nat>, artifacts: seq<Artifact>)
    ensures ok <==> Sound(known, subject, sorted)
    ensures !ok ==> !Acceptable(known, subject, sorted)
    ensures ok ==> exists keys, artifactKeys :: Noted(known, subject, sorted, keys, counts, artifactKeys, artifacts)
  {
    var fragmentKeys: set<(string, string)> := {};
    var artifactKeys: set<Key> := {};
    counts, artifacts := map[], [];
    for i := 0 to |sorted|
      invariant Sound(known, subject, sorted[..i])
      invariant Noted(known, subject, sorted[..i], fragmentKeys, counts, artifactKeys, artifacts)
    {
      var f := sorted[i];
      ghost var passed := sorted[..i];
      assert sorted[..i + 1] == passed + [f];
      SoundPrefix(known, subject, sorted, i);
      NewKeysAreApart(known, subject, passed, f, fragmentKeys, counts, artifactKeys, artifacts);
      var valid := ValidateFragment(known, f);
      if !valid || f.subject != subject {
        Spoils(known, subject, sorted, i);
        return false, counts, artifacts;
      }
      if CountOf(passed, f.platform) == 0 {
        NewTargetIsFresh(known, subject, passed, f, fragmentKeys, counts, artifactKeys, artifacts);
      } else {
        Spoils(known, subject, sorted, i);
      }
      if (f.platform, f.scenario) in fragmentKeys {
        return false, counts, artifacts;
      }
      if f.platform !in REQUIRED_RELEASE_TARGETS {
        Spoils(known, subject, sorted, i);
        return false, counts, artifacts;
      }
      var disjoint, keys := CollectArtifacts(known, f, artifactKeys);
      if !disjoint {
        return false, counts, artifacts;
      }
      NotedGrows(known, subject, passed, f, fragmentKeys, counts, artifactKeys, artifacts);
      fragmentKeys := fragmentKeys + {(f.platform, f.scenario)};
      counts := counts[f.platform := (if f.platform in counts then counts[f.platform] else 0) + 1];
      artifactKeys, artifacts := keys, artifacts + f.artifacts;
    }
    assert sorted[..|sorted|] == sorted;
    return true, counts, artifacts;
  }

  method CheckCounts(counts: map<string, nat>) returns (ok: bool)
    ensures ok <==> forall target <- REQUIRED_RELEASE_TARGETS :: target in counts && counts[target] == 1
  {
    for i := 0 to |REQUIRED_RELEASE_TARGETS|
      invariant forall target <- REQUIRED_RELEASE_TARGETS[..i] :: target in counts && counts[target] == 1
    {
      var target := REQUIRED_RELEASE_TARGETS[i];
      if target !in counts || counts[target] != 1 {
        assert target in REQUIRED_RELEASE_TARGETS;
        return false;
      }
      assert REQUIRED_RELEASE_TARGETS[..i + 1] == REQUIRED_RELEASE_TARGETS[..i] + [target];
    }
    assert REQUIRED_RELEASE_TARGETS[..|REQUIRED_RELEASE_TARGETS|] == REQUIRED_RELEASE_TARGETS;
    return true;
  }

  lemma SortedIsAcceptable(known: KnownIds, subject: Subject, fragments: seq<Fragment>)
    ensures Acceptable(known, subject, Sort(FragmentOrder(), fragments)) <==> Acceptable(known, subject, fragments)
    ensures fragments == [] ==> !Acceptable(known, subject, fragments)
  {
    SortKeepsAll(FragmentOrder(), fragments);
    AcceptableByMultiset(known, subject, fragments, Sort(FragmentOrder(), fragments));
    assert REQUIRED_RELEASE_TARGETS[0] in REQUIRED_RELEASE_TARGETS;
  }

  lemma NotedIsAcceptable(known: KnownIds, subject: Subject, sorted: seq<Fragment>,
                          fragmentKeys: set<(string, string)>, counts: map<string, nat>,
                          artifactKeys: set<Key>, artifacts: seq<Artifact>)
    requires Noted(known, subject, sorted, fragmentKeys, counts, artifactKeys, artifacts)
    ensures Acceptable(known, subject, sorted)
       <==> forall target <- REQUIRED_RELEASE_TARGETS :: target in counts && counts[target] == 1
  {
  }

  method Aggregate(known: KnownIds, subject: Subject, fragments: seq<Fragment>) returns (r: Result<Evidence>)
    ensures r == Aggregated(known, subject, fragments)
  {
    SortedIsAcceptable(known, subject, fragments);
    if fragments == [] {
      return Err;
    }
    var sorted := Sort(FragmentOrder(), fragments);
    var ok, counts, artifacts := CheckFragments(known, subject, sorted);
    if !ok {
      return Err;
    }
    ghost var keys, artifactKeys :| Noted(known, subject, sorted, keys, counts, artifactKeys, artifacts);
    NotedIsAcceptable(known, subject, sorted, keys, counts, artifactKeys, artifacts);
    var each := CheckCounts(counts);
    if !each {
      return Err;
    }
    assert artifacts == AllArtifacts(sorted);
    var status := if forall f <- sorted :: f.status == Passed then Passed else Failed;
    r := Ok(Evidence(SCHEMA_VERSION, subject, status, sorted, Sort(ArtifactOrder(), artifacts)));
  }

  method ValidateEvidence(known: KnownIds, e: Evidence) returns (ok: bool)
    ensures ok == EvidenceOk(known, e)
  {
    if e.schema != SCHEMA_VERSION {
      return false;
    }
    var again := Aggregate(known, e.subject, e.fragments);
    if again.Err? {
      return false;
    }
    return again.value.status == e.status && again.value.fragments == e.fragments
           && again.value.artifacts == e.artifacts;
  }

  // ---------- the promises ----------

  lemma OrdersAreWeak()
    ensures WeakOrder(FragmentOrder()) && WeakOrder(ArtifactOrder())
    ensures forall a, b :: FragmentOrder()(a, b) == 0.0 ==> a.platform == b.platform
    ensures forall a, b :: ArtifactOrder()(a, b) == 0.0 <==> KeyOf(a) == KeyOf(b)
  {
    FragmentOrderIsWeak();
    ArtifactOrderIsWeak();
  }

  lemma FragmentOrderIsWeak()
    ensures WeakOrder(FragmentOrder())
    ensures forall a, b :: FragmentOrder()(a, b) == 0.0 ==> a.platform == b.platform
  {
    StringsAreOrdered();
    ByIsWeakOrder((f: Fragment) => f.platform, CompareStrings);
    ByIsWeakOrder((f: Fragment) => f.scenario, CompareStrings);
    ThenIsWeakOrder(By((f: Fragment) => f.platform, CompareStrings), By((f: Fragment) => f.scenario, CompareStrings));
  }

  lemma ArtifactOrderIsWeak()
    ensures WeakOrder(ArtifactOrder())
    ensures forall a, b :: ArtifactOrder()(a, b) == 0.0 <==> KeyOf(a) == KeyOf(b)
  {
    StringsAreOrdered();
    ByIsWeakOrder((a: Artifact) => a.target, CompareStrings);
    ByIsWeakOrder((a: Artifact) => a.name, CompareStrings);
    ThenIsWeakOrder(By((a: Artifact) => a.target, CompareStrings), By((a: Artifact) => a.name, CompareStrings));
  }

  lemma TieMeansSameTarget(a: Fragment, b: Fragment)
    requires FragmentOrder()(a, b) == 0.0
    ensures a.platform == b.platform
  {
    StringsAntisymmetric(a.platform, b.platform);
  }

  /** An acceptable list has no two fragments for one target, so sorting it has one outcome. */
  lemma AcceptableHasNoTies(known: KnownIds, subject: Subject, fragments: seq<Fragment>)
    requires Acceptable(known, subject, fragments)
    ensures NoTies(FragmentOrder(), multiset(fragments))
  {
    forall a, b | a in multiset(fragments) && b in multiset(fragments) && FragmentOrder()(a, b) == 0.0 ensures a == b {
      TieMeansSameTarget(a, b);
      assert a in fragments && a.platform in REQUIRED_RELEASE_TARGETS;
      SameTargetIsSame(fragments, a, b);
    }
  }

  lemma SameTargetIsSame(fragments: seq<Fragment>, a: Fragment, b: Fragment)
    requires a in fragments && b in fragments && a.platform == b.platform
    requires CountOf(fragments, a.platform) == 1
    ensures a == b
  {
    var i :| 0 <= i < |fragments| && fragments[i] == a;
    var j :| 0 <= j < |fragments| && fragments[j] == b;
    if i < j {
      CountedTwice(fragments, i, j);
    } else if j < i {
      CountedTwice(fragments, j, i);
    }
  }

  /** Aggregation does not depend on the order in which the fragments arrive. */
  lemma AggregationIsCanonical(known: KnownIds, subject: Subject, xs: seq<Fragment>, ys: seq<Fragment>)
    requires multiset(xs) == multiset(ys)
    ensures Aggregated(known, subject, xs) == Aggregated(known, subject, ys)
  {
    AcceptableByMultiset(known, subject, xs, ys);
    if Acceptable(known, subject, xs) {
      AcceptableHasNoTies(known, subject, xs);
      OrdersAreWeak();
      SortKeepsAll(FragmentOrder(), xs);
      SortKeepsAll(FragmentOrder(), ys);
      SortSorted(FragmentOrder(), xs);
      SortSorted(FragmentOrder(), ys);
      SortedIsUnique(FragmentOrder(), Sort(FragmentOrder(), xs), Sort(FragmentOrder(), ys));
    }
  }

  predicate StrictlySorted(artifacts: seq<Artifact>) {
    forall i, j | 0 <= i < j < |artifacts| :: ArtifactOrder()(artifacts[i], artifacts[j]) < 0.0
  }

  function UnionOfArtifacts(fragments: seq<Fragment>): multiset<Artifact> {
    if fragments == [] then multiset{}
    else UnionOfArtifacts(fragments[..|fragments| - 1]) + multiset(fragments[|fragments| - 1].artifacts)
  }

  lemma {:induction false} AllArtifactsUnion(fragments: seq<Fragment>)
    ensures multiset(AllArtifacts(fragments)) == UnionOfArtifacts(fragments)
    decreases |fragments|
  {
    if fragments != [] {
      AllArtifactsUnion(fragments[..|fragments| - 1]);
    }
  }

  lemma {:induction false} AllKeysDistinct(known: KnownIds, fragments: seq<Fragment>)
    requires forall f <- fragments :: FragmentOk(known, f)
    requires forall i, j | 0 <= i < j < |fragments| :: fragments[i].platform != fragments[j].platform
    ensures DistinctKeys(AllArtifacts(fragments))
    decreases |fragments|
  {
    if fragments != [] {
      var n := |fragments| - 1;
      var before := AllArtifacts(fragments[..n]);
      AllKeysDistinct(known, fragments[..n]);
      forall a <- before, b <- fragments[n].artifacts ensures KeyOf(a) != KeyOf(b) {
        ArtifactsOfPrefix(known, fragments[..n], a);
        CountedIn(fragments[..n], a.target);
        var f :| f in fragments[..n] && f.platform == a.target;
        assert fragments[n] in fragments;
      }
      assert fragments[n] in fragments;
      DistinctTogether(before, fragments[n].artifacts);
    }
  }

  lemma DistinctTogether(xs: seq<Artifact>, ys: seq<Artifact>)
    requires DistinctKeys(xs) && DistinctKeys(ys)
    requires forall a <- xs, b <- ys :: KeyOf(a) != KeyOf(b)
    ensures DistinctKeys(xs + ys)
  {
    forall i, j | 0 <= i < j < |xs + ys| ensures KeyOf((xs + ys)[i]) != KeyOf((xs + ys)[j]) {
      if i < |xs| <= j {
        assert xs[i] in xs && ys[j - |xs|] in ys;
      }
    }
  }

  lemma SortedDistinctIsStrict(artifacts: seq<Artifact>)
    requires DistinctKeys(artifacts)
    ensures StrictlySorted(Sort(ArtifactOrder(), artifacts))
  {
    OrdersAreWeak();
    SortSorted(ArtifactOrder(), artifacts);
    SortKeepsAll(ArtifactOrder(), artifacts);
    DistinctByMultiset(artifacts, Sort(ArtifactOrder(), artifacts));
  }

  /** Distinct keys are a matter of which artifacts there are, not of their order. */
  lemma DistinctByMultiset(xs: seq<Artifact>, ys: seq<Artifact>)
    requires multiset(xs) == multiset(ys) && DistinctKeys(xs)
    ensures DistinctKeys(ys)
  {
    forall i, j | 0 <= i < j < |ys| ensures KeyOf(ys[i]) != KeyOf(ys[j]) {
      if KeyOf(ys[i]) == KeyOf(ys[j]) {
        assert ys[i] in multiset(xs) && ys[j] in multiset(xs);
        var p :| 0 <= p < |xs| && xs[p] == ys[i];
        var q :| 0 <= q < |xs| && xs[q] == ys[j];
        assert p == q;
        TwiceInMultiset(ys, i, j);
        OnceInMultiset(xs, p);
      }
    }
  }

  lemma TwiceInMultiset(ys: seq<Artifact>, i: nat, j: nat)
    requires i < j < |ys| && ys[i] == ys[j]
    ensures multiset(ys)[ys[i]] >= 2
  {
    assert ys == ys[..j] + [ys[j]] + ys[j + 1..];
    assert ys[..j][i] == ys[i];
    assert ys[i] in ys[..j];
  }

  lemma OnceInMultiset(xs: seq<Artifact>, p: nat)
    requires p < |xs| && DistinctKeys(xs)
    ensures multiset(xs)[xs[p]] == 1
  {
    assert xs == xs[..p] + [xs[p]] + xs[p + 1..];
    assert xs[p] !in xs[..p];
    assert xs[p] !in xs[p + 1..];
  }

  /**
  What success means: one fragment for each required target and none else, all valid and about this
  subject; the artifacts are the fragments' artifacts, each once, strictly in order of target and name;
  and the release passed exactly when no fragment holds a failed assertion or an error.
  */
  lemma SuccessMeans(known: KnownIds, subject: Subject, fragments: seq<Fragment>)
    requires Aggregated(known, subject, fragments).Ok?
    ensures var e := Aggregated(known, subject, fragments).value;
            && multiset(e.fragments) == multiset(fragments)
            && (forall target <- REQUIRED_RELEASE_TARGETS :: exists f <- fragments :: f.platform == target)
            && |fragments| == |REQUIRED_RELEASE_TARGETS|
            && multiset(e.artifacts) == UnionOfArtifacts(e.fragments)
            && StrictlySorted(e.artifacts)
            && (e.status == Passed <==> forall f <- fragments :: !HasFailure(f))
  {
    var sorted := Sort(FragmentOrder(), fragments);
    SortKeepsAll(FragmentOrder(), fragments);
    SortedIsAcceptable(known, subject, fragments);
    SameMembers(fragments, sorted);
    assert Acceptable(known, subject, fragments) && Acceptable(known, subject, sorted);
    CoversTargets(known, subject, fragments);
    ArtifactsOfAcceptable(known, subject, sorted);
    StatusMeans(known, fragments, sorted);
  }

  lemma StatusMeans(known: KnownIds, fragments: seq<Fragment>, sorted: seq<Fragment>)
    requires (forall f <- fragments :: FragmentOk(known, f)) && (forall f :: f in fragments <==> f in sorted)
    ensures (forall f <- sorted :: f.status == Passed) <==> forall f <- fragments :: !HasFailure(f)
  {
  }

  lemma SameMembers(xs: seq<Fragment>, ys: seq<Fragment>)
    requires multiset(xs) == multiset(ys)
    ensures forall f :: f in xs <==> f in ys
  {
    forall f ensures f in xs <==> f in ys {
      assert f in xs <==> f in multiset(xs);
    }
  }

  lemma CoversTargets(known: KnownIds, subject: Subject, fragments: seq<Fragment>)
    requires Acceptable(known, subject, fragments)
    ensures forall target <- REQUIRED_RELEASE_TARGETS :: exists f <- fragments :: f.platform == target
    ensures |fragments| == |REQUIRED_RELEASE_TARGETS|
  {
    forall target <- REQUIRED_RELEASE_TARGETS ensures exists f <- fragments :: f.platform == target {
      CountedIn(fragments, target);
    }
    CountsSum(fragments);
    forall i | 0 <= i < 4 ensures CountOf(fragments, REQUIRED_RELEASE_TARGETS[i]) == 1 {
      assert REQUIRED_RELEASE_TARGETS[i] in REQUIRED_RELEASE_TARGETS;
    }
  }

  lemma ArtifactsOfAcceptable(known: KnownIds, subject: Subject, sorted: seq<Fragment>)
    requires Acceptable(known, subject, sorted)
    ensures var artifacts := Sort(ArtifactOrder(), AllArtifacts(sorted));
            multiset(artifacts) == UnionOfArtifacts(sorted) && StrictlySorted(artifacts)
  {
    AllArtifactsUnion(sorted);
    SortKeepsAll(ArtifactOrder(), AllArtifacts(sorted));
    forall i, j | 0 <= i < j < |sorted| ensures sorted[i].platform != sorted[j].platform {
      assert sorted[i] in sorted && CountOf(sorted, sorted[i].platform) == 1;
      if sorted[i].platform == sorted[j].platform {
        CountedTwice(sorted, i, j);
      }
    }
    AllKeysDistinct(known, sorted);
    SortedDistinctIsStrict(AllArtifacts(sorted));
  }

  /** The fragments of the required targets, counted target by target. */
  lemma {:induction false} CountsSum(fragments: seq<Fragment>)
    requires forall f <- fragments :: f.platform in REQUIRED_RELEASE_TARGETS
    ensures CountOf(fragments, REQUIRED_RELEASE_TARGETS[0]) + CountOf(fragments, REQUIRED_RELEASE_TARGETS[1])
            + CountOf(fragments, REQUIRED_RELEASE_TARGETS[2]) + CountOf(fragments, REQUIRED_RELEASE_TARGETS[3])
         == |fragments|
    decreases |fragments|
  {
    if fragments != [] {
      var n := |fragments| - 1;
      CountsSum(fragments[..n]);
      assert fragments[n] in fragments;
    }
  }

  /** Aggregating an aggregate's fragments again gives the aggregate, so it passes its own validation. */
  lemma AggregateIsFixedPoint(known: KnownIds, subject: Subject, fragments: seq<Fragment>)
    requires Aggregated(known, subject, fragments).Ok?
    ensures var e := Aggregated(known, subject, fragments).value;
            Aggregated(known, e.subject, e.fragments) == Ok(e) && EvidenceOk(known, e)
  {
    SortKeepsAll(FragmentOrder(), fragments);
    AggregationIsCanonical(known, subject, Sort(FragmentOrder(), fragments), fragments);
  }

  /** One passed assertion for each target is evidence enough. */
  function SmallestEvidence(subject: Subject, id: string): seq<Fragment> {
    seq(|REQUIRED_RELEASE_TARGETS|, i requires 0 <= i < |REQUIRED_RELEASE_TARGETS| =>
      Fragment(SCHEMA_VERSION, subject, REQUIRED_RELEASE_TARGETS[i], "smoke", Passed, [Assertion(id, Passed, None)],
               [], []))
  }

  lemma SmallestFits(known: KnownIds, subject: Subject, id: string, i: nat)
    requires SubjectOk(subject) && !Blank(id) && known(id) && i < |REQUIRED_RELEASE_TARGETS|
    ensures FragmentOk(known, SmallestEvidence(subject, id)[i])
  {
    var f := SmallestEvidence(subject, id)[i];
    assert !IsUnicodeSpace(f.platform[0]) && !IsUnicodeSpace(f.scenario[0]);
  }

  lemma SmallestIsForAll(subject: Subject, id: string, i: nat)
    requires i < |REQUIRED_RELEASE_TARGETS|
    ensures CountOf(SmallestEvidence(subject, id), REQUIRED_RELEASE_TARGETS[i]) == 1
  {
    CountedOnce(SmallestEvidence(subject, id), i);
  }

  lemma AggregationCanSucceed(known: KnownIds, subject: Subject, id: string)
    requires SubjectOk(subject) && !Blank(id) && known(id)
    ensures Aggregated(known, subject, SmallestEvidence(subject, id)).Ok?
  {
    forall i: nat | i < |REQUIRED_RELEASE_TARGETS|
      ensures FragmentOk(known, SmallestEvidence(subject, id)[i])
      ensures CountOf(SmallestEvidence(subject, id), REQUIRED_RELEASE_TARGETS[i]) == 1
    {
      SmallestFits(known, subject, id, i);
      SmallestIsForAll(subject, id, i);
    }
  }

  lemma {:induction false} CountedOnce(fragments: seq<Fragment>, i: nat)
    requires i < |fragments|
    requires forall j | 0 <= j < |fragments| && j != i :: fragments[j].platform != fragments[i].platform
    ensures CountOf(fragments, fragments[i].platform) == 1
    decreases |fragments|
  {
    var n := |fragments| - 1;
    if i == n {
      CountedIn(fragments[..n], fragments[i].platform);
    } else {
      CountedOnce(fragments[..n], i);
    }
  }

  // ---------- the updater manifest ----------

  datatype Payload = Payload(signature: string, file: string)

  predicate IsPayload(a: Artifact) {
    a.signature.Some? && !EndsWith(a.file, ".sig")
  }

  predicate EndsWith(s: string, suffix: string) {
    |suffix| <= |s| && s[|s| - |suffix|..] == suffix
  }

  const WINDOWS := "windows-x86_64"
  const WINDOWS_ALIAS := "windows-x86_64-nsis"

  function PayloadOf(a: Artifact): Payload
    requires IsPayload(a)
  {
    Payload(a.signature.value, a.file)
  }

  /** The map lists every target's one payload, and the Windows payload under its second name too. */
  ghost predicate IsManifest(artifacts: seq<Artifact>, platforms: map<string, Payload>) {
    ListsAll(artifacts, platforms) && ListsOnly(artifacts, platforms)
  }

  ghost predicate ListsAll(artifacts: seq<Artifact>, platforms: map<string, Payload>) {
    forall a <- artifacts :: IsPayload(a) ==>
      && a.target in platforms && platforms[a.target] == PayloadOf(a)
      && (a.target == WINDOWS ==> WINDOWS_ALIAS in platforms && platforms[WINDOWS_ALIAS] == PayloadOf(a))
  }

  ghost predicate ListsOnly(artifacts: seq<Artifact>, platforms: map<string, Payload>) {
    forall t <- platforms :: exists a <- artifacts ::
      IsPayload(a) && (a.target == t || (a.target == WINDOWS && t == WINDOWS_ALIAS))
  }

  function WithPayload(platforms: map<string, Payload>, a: Artifact): map<string, Payload>
    requires IsPayload(a)
  {
    var with := platforms[a.target := PayloadOf(a)];
    if a.target == WINDOWS then with[WINDOWS_ALIAS := PayloadOf(a)] else with
  }

  ghost predicate OnePayloadEach(artifacts: seq<Artifact>) {
    forall i, j | 0 <= i < j < |artifacts| ::
      IsPayload(artifacts[i]) && IsPayload(artifacts[j]) ==> artifacts[i].target != artifacts[j].target
  }

  lemma NoPayloadAdded(artifacts: seq<Artifact>, platforms: map<string, Payload>, a: Artifact)
    requires OnePayloadEach(artifacts) && IsManifest(artifacts, platforms) && !IsPayload(a)
    ensures OnePayloadEach(artifacts + [a]) && IsManifest(artifacts + [a], platforms)
  {
    StillListsOnly(artifacts, platforms, a);
  }

  lemma StillListsOnly(artifacts: seq<Artifact>, platforms: map<string, Payload>, a: Artifact)
    requires ListsOnly(artifacts, platforms)
    ensures ListsOnly(artifacts + [a], platforms)
  {
    forall t <- platforms
      ensures exists b <- artifacts + [a] ::
                IsPayload(b) && (b.target == t || (b.target == WINDOWS && t == WINDOWS_ALIAS))
    {
      var b :| b in artifacts && IsPayload(b) && (b.target == t || (b.target == WINDOWS && t == WINDOWS_ALIAS));
      assert b in artifacts + [a];
    }
  }

  /** The alias is no target, so only an earlier payload of the same target can be in the way. */
  lemma SecondPayload(artifacts: seq<Artifact>, i: nat, platforms: map<string, Payload>)
    requires forall a <- artifacts :: a.target in REQUIRED_RELEASE_TARGETS
    requires i < |artifacts| && ListsOnly(artifacts[..i], platforms)
    requires IsPayload(artifacts[i])
    requires artifacts[i].target in platforms || (artifacts[i].target == WINDOWS && WINDOWS_ALIAS in platforms)
    ensures !OnePayloadEach(artifacts)
  {
    var a := artifacts[i];
    assert a in artifacts;
    var name := if a.target in platforms then a.target else WINDOWS_ALIAS;
    var b :| b in artifacts[..i] && IsPayload(b)
             && (b.target == name || (b.target == WINDOWS && name == WINDOWS_ALIAS));
    assert b in artifacts;
    var k :| 0 <= k < i && artifacts[k] == b;
  }

  lemma PayloadAdded(artifacts: seq<Artifact>, platforms: map<string, Payload>, a: Artifact)
    requires OnePayloadEach(artifacts) && IsManifest(artifacts, platforms)
    requires IsPayload(a) && a.target !in platforms && a.target in REQUIRED_RELEASE_TARGETS
    requires forall b <- artifacts :: b.target in REQUIRED_RELEASE_TARGETS
    ensures OnePayloadEach(artifacts + [a]) && IsManifest(artifacts + [a], WithPayload(platforms, a))
  {
    PayloadListed(artifacts, platforms, a);
    StillListsOnly(artifacts, platforms, a);
    assert a in artifacts + [a];
  }

  lemma PayloadListed(artifacts: seq<Artifact>, platforms: map<string, Payload>, a: Artifact)
    requires OnePayloadEach(artifacts) && ListsAll(artifacts, platforms)
    requires IsPayload(a) && a.target !in platforms && a.target in REQUIRED_RELEASE_TARGETS
    requires forall b <- artifacts :: b.target in REQUIRED_RELEASE_TARGETS
    ensures OnePayloadEach(artifacts + [a]) && ListsAll(artifacts + [a], WithPayload(platforms, a))
  {
    forall i | 0 <= i < |artifacts| && IsPayload(artifacts[i]) ensures artifacts[i].target != a.target {
      assert artifacts[i] in artifacts;
    }
  }

  method LatestPlatforms(artifacts: seq<Artifact>) returns (r: Result<map<string, Payload>>)
    requires forall a <- artifacts :: a.target in REQUIRED_RELEASE_TARGETS
    ensures r.Ok? <==> OnePayloadEach(artifacts) && exists a <- artifacts :: IsPayload(a)
    ensures r.Ok? ==> IsManifest(artifacts, r.value)
  {
    var platforms: map<string, Payload> := map[];
    for i := 0 to |artifacts|
      invariant OnePayloadEach(artifacts[..i])
      invariant IsManifest(artifacts[..i], platforms)
    {
      var a := artifacts[i];
      assert artifacts[..i + 1] == artifacts[..i] + [a];
      if !IsPayload(a) {
        NoPayloadAdded(artifacts[..i], platforms, a);
        continue;
      }
      if a.target in platforms || (a.target == WINDOWS && WINDOWS_ALIAS in platforms) {
        SecondPayload(artifacts, i, platforms);
        return Err;
      }
      PayloadAdded(artifacts[..i], platforms, a);
      platforms := platforms[a.target := PayloadOf(a)];
      if a.target == WINDOWS {
        platforms := platforms[WINDOWS_ALIAS := PayloadOf(a)];
      }
    }
    assert artifacts[..|artifacts|] == artifacts;
    if platforms == map[] {
      return Err;
    }
    ghost var t :| t in platforms;
    return Ok(platforms);
  }

  lemma ArtifactTargets(known: KnownIds, e: Evidence)
    requires EvidenceOk(known, e)
    ensures forall a <- e.artifacts :: a.target in REQUIRED_RELEASE_TARGETS
  {
    var sorted := Sort(FragmentOrder(), e.fragments);
    SortedIsAcceptable(known, e.subject, e.fragments);
    SortKeepsAll(ArtifactOrder(), AllArtifacts(sorted));
    forall a <- e.artifacts ensures a.target in REQUIRED_RELEASE_TARGETS {
      assert a in multiset(AllArtifacts(sorted));
      ArtifactsOfPrefix(known, sorted, a);
    }
  }

  /** The manifest exists exactly for valid evidence with at least one payload and no second one for a target. */
  method LatestJson(known: KnownIds, e: Evidence) returns (r: Result<map<string, Payload>>)
    ensures r.Ok? <==>
              EvidenceOk(known, e) && OnePayloadEach(e.artifacts) && exists a <- e.artifacts :: IsPayload(a)
    ensures r.Ok? ==> IsManifest(e.artifacts, r.value)
  {
    var ok := ValidateEvidence(known, e);
    if !ok {
      return Err;
    }
    ArtifactTargets(known, e);
    r := LatestPlatforms(e.artifacts);
  }
}
